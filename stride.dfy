/**
 * Rule-based STRIDE threat modelling for pull requests: keyword heuristics
 * that fill the six categories of Microsoft's STRIDE taxonomy (Spoofing,
 * Tampering, Repudiation, Information disclosure, Denial of service,
 * Elevation of privilege) from a free-text system description, and the
 * Markdown report posted as a pull-request comment.
 *
 * The Python dictionary of category lists is an ordered list of entries
 * with distinct category names, in insertion order.
 */
module Stride {
  import opened Options
  import opened Text

  datatype Entry = Entry(category: string, items: seq<string>)

  type Threats = seq<Entry>

  /** Distinct keys, as in a dictionary. */
  predicate IsDict(t: Threats) {
    forall i, j :: 0 <= i < j < |t| ==> t[i].category != t[j].category
  }

  /** `key in threats`. */
  predicate HasKey(t: Threats, key: string) {
    exists i :: 0 <= i < |t| && t[i].category == key
  }

  /** `threats[key]`. */
  function Lookup(t: Threats, key: string): (items: seq<string>)
    requires HasKey(t, key)
    ensures exists i :: 0 <= i < |t| && t[i].category == key && t[i].items == items
  {
    if t[0].category == key then t[0].items
    else
      assert HasKey(t[1..], key) by {
        var i :| 0 <= i < |t| && t[i].category == key;
        assert t[1..][i - 1].category == key;
      }
      Lookup(t[1..], key)
  }

  /** `threats[key].append(item)` on a dictionary. */
  function AppendItem(t: Threats, key: string, item: string): (r: Threats)
  {
    seq(|t|, i requires 0 <= i < |t| =>
      if t[i].category == key then Entry(key, t[i].items + [item]) else t[i])
  }

  // ---------------------------------------------------------------------------
  // rule_based_stride
  // ---------------------------------------------------------------------------

  const Categories: seq<string> := [
    "Spoofing", "Tampering", "Repudiation",
    "InformationDisclosure", "DenialOfService", "ElevationOfPrivilege"
  ]

  const IdentityKeywords: seq<string> := ["login", "authentifizierung", "authentication", "user", "benutzer"]
  const DataKeywords: seq<string> := ["database", "datenbank", "sql", "storage", "speicher"]
  const ApiKeywords: seq<string> := ["api", "rest", "endpoint", "schnittstelle"]
  const PrivilegeKeywords: seq<string> := ["admin", "privilege", "berechtigung", "rolle", "role"]
  const FileKeywords: seq<string> := ["file", "datei", "upload", "download"]

  const SpoofingThreat := "Gefälschte Benutzeridentitäten oder Credential-Stuffing-Angriffe."
  const RepudiationThreat := "Fehlende Audit-Trails für Benutzeraktionen."
  const SqlInjectionThreat := "Manipulation gespeicherter Daten via SQL-Injection."
  const ExfiltrationThreat := "Datenexfiltration durch unsichere Abfragen."
  const OverloadThreat := "API-Endpunkte können durch übermäßige Anfragen überlastet werden (DDoS)."
  const RoleThreat := "Angreifer können durch falsch konfigurierte Rollen administrative Rechte erlangen."
  const UploadThreat := "Bösartige Datei-Uploads können zu Remote-Code-Execution führen."

  /** `any(x in text for x in keywords)`. */
  predicate MentionsAny(text: string, keywords: seq<string>) {
    if keywords == [] then false
    else Contains(text, keywords[0]) || MentionsAny(text, keywords[1..])
  }

  /** MentionsAny holds exactly when one of the keywords occurs in the text. */
  lemma {:induction false} MentionsAnyIff(text: string, keywords: seq<string>)
    ensures MentionsAny(text, keywords) <==> exists k :: 0 <= k < |keywords| && Contains(text, keywords[k])
  {
    if keywords != [] {
      MentionsAnyIff(text, keywords[1..]);
      if exists k :: 0 <= k < |keywords| && Contains(text, keywords[k]) {
        var k :| 0 <= k < |keywords| && Contains(text, keywords[k]);
        if k > 0 {
          assert keywords[1..][k - 1] == keywords[k];
        }
      }
    }
  }

  /** The six categories in order, holding the given lists. */
  function Sections(s0: seq<string>, s1: seq<string>, s2: seq<string>,
                    s3: seq<string>, s4: seq<string>, s5: seq<string>): (t: Threats)
  {
    [Entry("Spoofing", s0), Entry("Tampering", s1), Entry("Repudiation", s2),
     Entry("InformationDisclosure", s3), Entry("DenialOfService", s4), Entry("ElevationOfPrivilege", s5)]
  }

  /**
   * The threat model of a description, category by category: each category
   * lists the threats whose keyword groups occur in the lower-cased text.
   */
  function ThreatsFor(description: string): Threats {
    var text := Lower(description);
    var identity := MentionsAny(text, IdentityKeywords);
    var data := MentionsAny(text, DataKeywords);
    var api := MentionsAny(text, ApiKeywords);
    var privilege := MentionsAny(text, PrivilegeKeywords);
    var file := MentionsAny(text, FileKeywords);
    Sections(
      if identity then [SpoofingThreat] else [],
      (if data then [SqlInjectionThreat] else []) + (if file then [UploadThreat] else []),
      if identity then [RepudiationThreat] else [],
      if data then [ExfiltrationThreat] else [],
      if api then [OverloadThreat] else [],
      if privilege then [RoleThreat] else [])
  }

  /** Appending under a category name extends exactly that category's list. */
  lemma AppendToSections(s0: seq<string>, s1: seq<string>, s2: seq<string>,
                         s3: seq<string>, s4: seq<string>, s5: seq<string>, key: string, x: string)
    ensures AppendItem(Sections(s0, s1, s2, s3, s4, s5), key, x) ==
            Sections(if key == "Spoofing" then s0 + [x] else s0,
                     if key == "Tampering" then s1 + [x] else s1,
                     if key == "Repudiation" then s2 + [x] else s2,
                     if key == "InformationDisclosure" then s3 + [x] else s3,
                     if key == "DenialOfService" then s4 + [x] else s4,
                     if key == "ElevationOfPrivilege" then s5 + [x] else s5)
  {
  }

  /**
   * rule_based_stride: start from six empty lists, then append the threat
   * of every keyword group that occurs in the lower-cased description.
   */
  method RuleBasedStride(description: string) returns (threats: Threats)
    ensures threats == ThreatsFor(description)
  {
    threats := seq(|Categories|, c requires 0 <= c < |Categories| => Entry(Categories[c], []));
    ghost var s0, s1, s2, s3, s4, s5: seq<string> := [], [], [], [], [], [];
    assert threats == Sections(s0, s1, s2, s3, s4, s5);
    var text := Lower(description);
    ghost var identity, data, api, privilege, file :=
      MentionsAny(text, IdentityKeywords), MentionsAny(text, DataKeywords), MentionsAny(text, ApiKeywords),
      MentionsAny(text, PrivilegeKeywords), MentionsAny(text, FileKeywords);
    if MentionsAny(text, IdentityKeywords) {
      AppendToSections(s0, s1, s2, s3, s4, s5, "Spoofing", SpoofingThreat);
      threats := AppendItem(threats, "Spoofing", SpoofingThreat);
      s0 := s0 + [SpoofingThreat];
      AppendToSections(s0, s1, s2, s3, s4, s5, "Repudiation", RepudiationThreat);
      threats := AppendItem(threats, "Repudiation", RepudiationThreat);
      s2 := s2 + [RepudiationThreat];
    }
    assert threats == Sections(s0, s1, s2, s3, s4, s5);
    assert s0 == (if identity then [SpoofingThreat] else []);
    assert s2 == (if identity then [RepudiationThreat] else []);
    if MentionsAny(text, DataKeywords) {
      AppendToSections(s0, s1, s2, s3, s4, s5, "Tampering", SqlInjectionThreat);
      threats := AppendItem(threats, "Tampering", SqlInjectionThreat);
      s1 := s1 + [SqlInjectionThreat];
      AppendToSections(s0, s1, s2, s3, s4, s5, "InformationDisclosure", ExfiltrationThreat);
      threats := AppendItem(threats, "InformationDisclosure", ExfiltrationThreat);
      s3 := s3 + [ExfiltrationThreat];
    }
    assert threats == Sections(s0, s1, s2, s3, s4, s5);
    assert s1 == (if data then [SqlInjectionThreat] else []);
    assert s3 == (if data then [ExfiltrationThreat] else []);
    if MentionsAny(text, ApiKeywords) {
      AppendToSections(s0, s1, s2, s3, s4, s5, "DenialOfService", OverloadThreat);
      threats := AppendItem(threats, "DenialOfService", OverloadThreat);
      s4 := s4 + [OverloadThreat];
    }
    assert threats == Sections(s0, s1, s2, s3, s4, s5);
    assert s4 == (if api then [OverloadThreat] else []);
    if MentionsAny(text, PrivilegeKeywords) {
      AppendToSections(s0, s1, s2, s3, s4, s5, "ElevationOfPrivilege", RoleThreat);
      threats := AppendItem(threats, "ElevationOfPrivilege", RoleThreat);
      s5 := s5 + [RoleThreat];
    }
    assert threats == Sections(s0, s1, s2, s3, s4, s5);
    assert s5 == (if privilege then [RoleThreat] else []);
    ghost var sql := s1;
    if MentionsAny(text, FileKeywords) {
      AppendToSections(s0, s1, s2, s3, s4, s5, "Tampering", UploadThreat);
      threats := AppendItem(threats, "Tampering", UploadThreat);
      s1 := s1 + [UploadThreat];
    }
    assert threats == Sections(s0, s1, s2, s3, s4, s5);
    assert s1 == sql + (if file then [UploadThreat] else []);
  }

  // ---------------------------------------------------------------------------
  // format_stride_markdown
  // ---------------------------------------------------------------------------

  const Header := "# 🔒 STRIDE Bedrohungsanalyse\n"
  const Placeholder := "_(keine erkannten Bedrohungen)_\n"
  const Separator := "\n---\n"
  const Signature := "_Automatisch generiert mit STRIDE Threat Modeling_\n"
  const Footer := Separator + Signature
  const LlmKey := "LLMOutput"

  /** `"".join(parts)`. */
  function Join(parts: seq<string>): string {
    if parts == [] then "" else Join(parts[..|parts| - 1]) + parts[|parts| - 1]
  }

  function SectionHeading(category: string): string {
    "\n## " + category + "\n"
  }

  /** The line `f"{i}. {item}\n"`. */
  function NumberedLine(i: nat, item: string): string {
    NatToDecimal(i) + ". " + item + "\n"
  }

  /** `enumerate(items, 1)`, one numbered line per item. */
  function NumberedItems(items: seq<string>): string {
    if items == [] then ""
    else NumberedItems(items[..|items| - 1]) + NumberedLine(|items|, items[|items| - 1])
  }

  /** A category's section: its heading, then its numbered threats or the placeholder. */
  function RenderEntry(e: Entry): string {
    SectionHeading(e.category) + if e.items == [] then Placeholder else NumberedItems(e.items)
  }

  /** All sections, in dictionary order. */
  function RenderEntries(t: Threats): string {
    if t == [] then "" else RenderEntries(t[..|t| - 1]) + RenderEntry(t[|t| - 1])
  }

  /**
   * The Markdown report. A raw model answer under "LLMOutput" replaces the
   * structured sections; an empty "LLMOutput" list fails (the original
   * raises IndexError), which is `None`.
   */
  function Markdown(t: Threats): Option<string> {
    if HasKey(t, LlmKey) then
      var raw := Lookup(t, LlmKey);
      if raw == [] then None else Some(Header + raw[0] + Footer)
    else Some(Header + RenderEntries(t) + Footer)
  }

  lemma ConcatAssoc(a: string, b: string, c: string)
    ensures a + b + c == a + (b + c)
  {
  }

  lemma JoinSnoc(parts: seq<string>, s: string)
    ensures Join(parts + [s]) == Join(parts) + s
  {
    assert (parts + [s])[..|parts|] == parts;
  }

  lemma RenderEntriesSnoc(t: Threats, c: nat)
    requires c < |t|
    ensures RenderEntries(t[..c + 1]) == RenderEntries(t[..c]) + RenderEntry(t[c])
  {
    assert t[..c + 1][..c] == t[..c];
  }

  /** The inner loop of format_stride_markdown: one numbered line per item. */
  method AppendNumberedLines(output: seq<string>, items: seq<string>) returns (out: seq<string>)
    ensures Join(out) == Join(output) + NumberedItems(items)
  {
    out := output;
    for i := 0 to |items|
      invariant Join(out) == Join(output) + NumberedItems(items[..i])
    {
      JoinSnoc(out, NumberedLine(i + 1, items[i]));
      out := out + [NumberedLine(i + 1, items[i])];
      assert items[..i + 1][..i] == items[..i];
    }
    assert items[..|items|] == items;
  }

  /** One pass of the outer loop: a category's heading, then its lines or the placeholder. */
  method AppendSection(output: seq<string>, e: Entry) returns (out: seq<string>)
    ensures Join(out) == Join(output) + RenderEntry(e)
  {
    JoinSnoc(output, SectionHeading(e.category));
    out := output + [SectionHeading(e.category)];
    if |e.items| == 0 {
      JoinSnoc(out, Placeholder);
      out := out + [Placeholder];
    } else {
      out := AppendNumberedLines(out, e.items);
    }
  }

  /** The outer loop of format_stride_markdown: one section per category, in order. */
  method AppendSections(output: seq<string>, threats: Threats) returns (out: seq<string>)
    ensures Join(out) == Join(output) + RenderEntries(threats)
  {
    out := output;
    for c := 0 to |threats|
      invariant Join(out) == Join(output) + RenderEntries(threats[..c])
    {
      out := AppendSection(out, threats[c]);
      RenderEntriesSnoc(threats, c);
    }
    assert threats[..|threats|] == threats;
  }

  /**
   * format_stride_markdown: collect the pieces in a list, section by
   * section and item by item, then join them.
   */
  method FormatStrideMarkdown(threats: Threats) returns (md: Option<string>)
    ensures md == Markdown(threats)
  {
    var output := [Header];
    JoinSnoc([], Header);
    ghost var body: string;  // what stands between the header and the footer
    if HasKey(threats, LlmKey) {
      var raw := Lookup(threats, LlmKey);
      if |raw| == 0 {
        return None;
      }
      JoinSnoc(output, raw[0]);
      output := output + [raw[0]];
      body := raw[0];
    } else {
      output := AppendSections(output, threats);
      body := RenderEntries(threats);
    }
    ghost var upper := Join(output);
    assert upper == Header + body;
    JoinSnoc(output, Separator);
    output := output + [Separator];
    JoinSnoc(output, Signature);
    output := output + [Signature];
    assert Join(output) == upper + Footer by {
      ConcatAssoc(upper, Separator, Signature);
    }
    md := Some(Join(output));
  }
}
