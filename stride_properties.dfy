/** What the keyword heuristics and the Markdown report promise. */
module StrideProperties {
  import opened Options
  import opened Text
  import opened Stride

  // ---------------------------------------------------------------------------
  // Shape of the rule-based threat model
  // ---------------------------------------------------------------------------

  /** The six STRIDE categories, in order, each once, and never the raw-answer key. */
  lemma ThreatsForShape(description: string)
    ensures var t := ThreatsFor(description);
            |t| == |Categories| &&
            (forall k :: 0 <= k < |t| ==> t[k].category == Categories[k]) &&
            IsDict(t) && !HasKey(t, LlmKey)
  {
    var t := ThreatsFor(description);
    assert forall k :: 0 <= k < |t| ==> t[k].category == Categories[k];
    CategoryInitials();
    assert LlmKey !in Categories by {
      assert LlmKey[0] == 'L';
    }
  }

  /** The categories spell out STRIDE, one initial each. */
  lemma CategoryInitials()
    ensures forall k :: 0 <= k < |Categories| ==> |Categories[k]| > 0 && Categories[k][0] == "STRIDE"[k]
  {
  }

  /** A category holds a threat exactly when one of its keywords occurs in the lower-cased text. */
  lemma ThreatsForKeywords(description: string)
    ensures var t, text := ThreatsFor(description), Lower(description);
            (t[0].items != [] <==> exists k :: 0 <= k < |IdentityKeywords| && Contains(text, IdentityKeywords[k])) &&
            (t[2].items != [] <==> exists k :: 0 <= k < |IdentityKeywords| && Contains(text, IdentityKeywords[k])) &&
            (t[3].items != [] <==> exists k :: 0 <= k < |DataKeywords| && Contains(text, DataKeywords[k])) &&
            (t[4].items != [] <==> exists k :: 0 <= k < |ApiKeywords| && Contains(text, ApiKeywords[k])) &&
            (t[5].items != [] <==> exists k :: 0 <= k < |PrivilegeKeywords| && Contains(text, PrivilegeKeywords[k])) &&
            (t[1].items != [] <==>
               (exists k :: 0 <= k < |DataKeywords| && Contains(text, DataKeywords[k])) ||
               (exists k :: 0 <= k < |FileKeywords| && Contains(text, FileKeywords[k])))
  {
    var text := Lower(description);
    MentionsAnyIff(text, IdentityKeywords);
    MentionsAnyIff(text, DataKeywords);
    MentionsAnyIff(text, ApiKeywords);
    MentionsAnyIff(text, PrivilegeKeywords);
    MentionsAnyIff(text, FileKeywords);
  }

  /**
   * Spoofing and Repudiation always come together; Tampering holds at most
   * the SQL-injection threat and then the upload threat; every other
   * category holds at most one threat.
   */
  lemma ThreatsForBounds(description: string)
    ensures var t := ThreatsFor(description);
            |t[0].items| == |t[2].items| <= 1 &&
            |t[1].items| <= 2 && |t[3].items| <= 1 && |t[4].items| <= 1 && |t[5].items| <= 1 &&
            (|t[1].items| == 2 ==> t[1].items == [SqlInjectionThreat, UploadThreat])
  {
  }

  /** A description without any keyword yields six empty categories. */
  lemma NoKeywordsNoThreats(description: string)
    requires forall w <- IdentityKeywords :: !Contains(Lower(description), w)
    requires forall w <- DataKeywords :: !Contains(Lower(description), w)
    requires forall w <- ApiKeywords :: !Contains(Lower(description), w)
    requires forall w <- PrivilegeKeywords :: !Contains(Lower(description), w)
    requires forall w <- FileKeywords :: !Contains(Lower(description), w)
    ensures ThreatsFor(description) == Sections([], [], [], [], [], [])
  {
    var text := Lower(description);
    NoneMentioned(text, IdentityKeywords);
    NoneMentioned(text, DataKeywords);
    NoneMentioned(text, ApiKeywords);
    NoneMentioned(text, PrivilegeKeywords);
    NoneMentioned(text, FileKeywords);
    var none: seq<string> := [];
    assert none + none == none;
  }

  lemma NoneMentioned(text: string, keywords: seq<string>)
    requires forall w <- keywords :: !Contains(text, w)
    ensures !MentionsAny(text, keywords)
  {
    MentionsAnyIff(text, keywords);
  }

  /** Upper-case letters in the description change nothing. */
  lemma ThreatsForIgnoresCase(description: string)
    ensures ThreatsFor(Lower(description)) == ThreatsFor(description)
  {
    LowerIdempotent(description);
  }

  // ---------------------------------------------------------------------------
  // The Markdown report
  // ---------------------------------------------------------------------------

  /** The report fails only when the raw-answer key holds an empty list. */
  lemma MarkdownFailsOnlyOnEmptyRawAnswer(t: Threats)
    ensures Markdown(t).None? <==> HasKey(t, LlmKey) && Lookup(t, LlmKey) == []
  {
  }

  /** Every report opens with the title and closes with the separator and signature. */
  lemma MarkdownFrame(t: Threats)
    requires Markdown(t).Some?
    ensures var md := Markdown(t).value;
            Header <= md && |md| >= |Header| + |Footer| && md[|md| - |Footer|..] == Footer
  {
    var md := Markdown(t).value;
    var body := if HasKey(t, LlmKey) then Lookup(t, LlmKey)[0] else RenderEntries(t);
    assert md == Header + body + Footer;
    assert md[..|Header|] == Header;
    assert md[|md| - |Footer|..] == Footer;
  }

  /** Under the raw-answer key, only the first list element is reported: other keys are ignored. */
  lemma RawAnswerOverrides(t: Threats, u: Threats)
    requires HasKey(t, LlmKey) && HasKey(u, LlmKey)
    requires Lookup(t, LlmKey) != [] && Lookup(u, LlmKey) != []
    requires Lookup(t, LlmKey)[0] == Lookup(u, LlmKey)[0]
    ensures Markdown(t) == Markdown(u)
  {
  }

  /** The rule-based threat model always renders, one section per category. */
  lemma RuleBasedReportRenders(description: string)
    ensures var t := ThreatsFor(description);
            Markdown(t) == Some(Header + RenderEntries(t) + Footer)
  {
    ThreatsForShape(description);
  }

  /** A category without threats renders as its heading and the placeholder line. */
  lemma EmptySectionShowsPlaceholder(category: string)
    ensures RenderEntries([Entry(category, [])]) == "\n## " + category + "\n" + Placeholder
  {
    assert [Entry(category, [])][..0] == [];
  }

  /** Threats are numbered from 1, in order. */
  lemma {:induction false} NumberedItemsSnoc(items: seq<string>, item: string)
    ensures NumberedItems(items + [item]) == NumberedItems(items) + NatToDecimal(|items| + 1) + ". " + item + "\n"
  {
    assert (items + [item])[..|items|] == items;
  }
}
