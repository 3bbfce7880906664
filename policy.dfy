/**
 * The CrossGuard policy pack "heise-security-policies": fourteen independent
 * rules over DigitalOcean and Cloudflare resources. Each rule looks at one
 * resource's type token and property bag and reports zero or more
 * violations at the rule's fixed enforcement level.
 *
 * The `reportViolation` callback of the original becomes a returned sequence
 * of violations, in the order the callback would have been called.
 */
module Policy {
  import opened Options
  import opened Text

  // ---------------------------------------------------------------------------
  // Resource descriptors
  // ---------------------------------------------------------------------------

  const DropletType := "digitalocean:index/droplet:Droplet"
  const FirewallType := "digitalocean:index/firewall:Firewall"
  const VolumeType := "digitalocean:index/volume:Volume"
  const DnsRecordType := "cloudflare:index/dnsRecord:DnsRecord"
  const LegacyRecordType := "cloudflare:index/record:Record"

  /** Both Cloudflare record type tokens are treated alike by the DNS rules. */
  predicate IsDnsType(resourceType: string) {
    resourceType == DnsRecordType || resourceType == LegacyRecordType
  }

  /** One entry of a firewall's `inboundRules` or `outboundRules`. */
  datatype FirewallRule = FirewallRule(
    protocol: string,
    portRange: Option<string>,
    sourceAddresses: Option<seq<string>>,
    destinationAddresses: Option<seq<string>>)

  /**
   * The `size` property: a slug such as "s-2vcpu-2gb" on a droplet, a number
   * of gigabytes on a volume.
   */
  datatype SizeValue = SizeSlug(slug: string) | SizeGb(gb: int)

  /** The properties the rules read; a property left unset is `None`. */
  datatype Props = Props(
    name: Option<string>,
    monitoring: Option<bool>,
    ipv6: Option<bool>,
    sshKeys: Option<seq<string>>,
    tags: Option<seq<string>>,
    size: Option<SizeValue>,
    description: Option<string>,
    inboundRules: Option<seq<FirewallRule>>,
    outboundRules: Option<seq<FirewallRule>>,
    ttl: Option<int>,
    recordType: Option<string>,
    proxied: Option<bool>)

  const NoProps := Props(None, None, None, None, None, None, None, None, None, None, None, None)

  datatype Resource = Resource(resourceType: string, props: Props)

  // ---------------------------------------------------------------------------
  // JavaScript truthiness of the property kinds the rules test
  // ---------------------------------------------------------------------------

  predicate TruthyBool(b: Option<bool>) {
    b.Some? && b.value
  }

  /** The empty string is falsy. */
  predicate TruthyString(s: Option<string>) {
    s.Some? && s.value != ""
  }

  /** Zero is falsy. */
  predicate TruthyInt(n: Option<int>) {
    n.Some? && n.value != 0
  }

  /** An array is truthy even when empty; only an unset property is falsy. */
  predicate TruthyList<T>(xs: Option<seq<T>>) {
    xs.Some?
  }

  /** A slug is falsy when empty, a number of gigabytes when zero. */
  predicate TruthySize(s: Option<SizeValue>) {
    s.Some? && (match s.value
                case SizeSlug(slug) => slug != ""
                case SizeGb(gb) => gb != 0)
  }

  /**
   * `size < k` and `size > k` in JavaScript: an unset size compares as NaN,
   * so both comparisons are false.
   */
  predicate SizeBelow(s: Option<SizeValue>, k: int) {
    s.Some? && s.value.SizeGb? && s.value.gb < k
  }

  predicate SizeAbove(s: Option<SizeValue>, k: int) {
    s.Some? && s.value.SizeGb? && s.value.gb > k
  }

  // ---------------------------------------------------------------------------
  // Policies and violations
  // ---------------------------------------------------------------------------

  datatype EnforcementLevel = Mandatory | Advisory

  datatype Violation = Violation(policy: string, level: EnforcementLevel, message: string)

  /** The fourteen policies of the pack, in declaration order. */
  datatype PolicyId =
    | DropletMonitoringRequired
    | DropletIpv6Disabled
    | DropletSshKeysRecommended
    | FirewallSshRestricted
    | FirewallOutboundRestricted
    | VolumeBackupStrategy
    | VolumeMinimumSize
    | CloudflareDnsTtlReasonable
    | CloudflareProxyConsideration
    | DropletNamingConvention
    | TagRequired
    | FirewallRuleDocumentation
    | DropletSizeCostAwareness
    | VolumeSizeCostAwareness
  {
    function Name(): string {
      match this
      case DropletMonitoringRequired => "droplet-monitoring-required"
      case DropletIpv6Disabled => "droplet-ipv6-disabled"
      case DropletSshKeysRecommended => "droplet-ssh-keys-recommended"
      case FirewallSshRestricted => "firewall-ssh-restricted"
      case FirewallOutboundRestricted => "firewall-outbound-restricted"
      case VolumeBackupStrategy => "volume-backup-strategy"
      case VolumeMinimumSize => "volume-minimum-size"
      case CloudflareDnsTtlReasonable => "cloudflare-dns-ttl-reasonable"
      case CloudflareProxyConsideration => "cloudflare-proxy-consideration"
      case DropletNamingConvention => "droplet-naming-convention"
      case TagRequired => "tag-required"
      case FirewallRuleDocumentation => "firewall-rule-documentation"
      case DropletSizeCostAwareness => "droplet-size-cost-awareness"
      case VolumeSizeCostAwareness => "volume-size-cost-awareness"
    }

    function Description(): string {
      match this
      case DropletMonitoringRequired => "Droplets müssen Monitoring aktiviert haben"
      case DropletIpv6Disabled => "IPv6 sollte deaktiviert sein (Vereinfachung der Firewall-Regeln)"
      case DropletSshKeysRecommended => "SSH-Keys werden für sichere Authentifizierung empfohlen"
      case FirewallSshRestricted => "SSH-Zugriff sollte auf bekannte IPs beschränkt sein"
      case FirewallOutboundRestricted => "Outbound-Traffic sollte eingeschränkt sein"
      case VolumeBackupStrategy => "Volumes sollten eine Backup-Strategie haben"
      case VolumeMinimumSize => "Volumes sollten mindestens 1 GB haben"
      case CloudflareDnsTtlReasonable => "DNS TTL sollte sinnvolle Werte haben"
      case CloudflareProxyConsideration => "Cloudflare Proxy für zusätzliche Security erwägen"
      case DropletNamingConvention => "Droplets sollten sinnvolle Namen haben"
      case TagRequired => "Ressourcen sollten Tags für Organisation haben"
      case FirewallRuleDocumentation => "Firewall-Regeln sollten dokumentiert sein"
      case DropletSizeCostAwareness => "Warnung bei großen/teuren Droplet-Größen"
      case VolumeSizeCostAwareness => "Warnung bei sehr großen Volumes"
    }

    function Level(): EnforcementLevel {
      match this
      case DropletMonitoringRequired => Mandatory
      case VolumeMinimumSize => Mandatory
      case _ => Advisory
    }

    /** The type guard each policy's `validateResource` opens with. */
    predicate AppliesTo(resourceType: string) {
      match this
      case DropletMonitoringRequired | DropletIpv6Disabled | DropletSshKeysRecommended
        | DropletNamingConvention | TagRequired | DropletSizeCostAwareness =>
        resourceType == DropletType
      case FirewallSshRestricted | FirewallOutboundRestricted | FirewallRuleDocumentation =>
        resourceType == FirewallType
      case VolumeBackupStrategy | VolumeMinimumSize | VolumeSizeCostAwareness =>
        resourceType == VolumeType
      case CloudflareDnsTtlReasonable | CloudflareProxyConsideration =>
        IsDnsType(resourceType)
    }

    /** What `reportViolation(message)` records for this policy. */
    function Report(message: string): Violation {
      Violation(Name(), Level(), message)
    }

    /** The policy's `validateResource`, as the list of violations it reports. */
    function Validate(r: Resource): seq<Violation> {
      match this
      case DropletMonitoringRequired => ValidateMonitoring(r)
      case DropletIpv6Disabled => ValidateIpv6(r)
      case DropletSshKeysRecommended => ValidateSshKeys(r)
      case FirewallSshRestricted => ValidateSshRestricted(r)
      case FirewallOutboundRestricted => ValidateOutboundRestricted(r)
      case VolumeBackupStrategy => ValidateBackup(r)
      case VolumeMinimumSize => ValidateMinimumSize(r)
      case CloudflareDnsTtlReasonable => ValidateTtl(r)
      case CloudflareProxyConsideration => ValidateProxy(r)
      case DropletNamingConvention => ValidateDropletName(r)
      case TagRequired => ValidateTags(r)
      case FirewallRuleDocumentation => ValidateFirewallName(r)
      case DropletSizeCostAwareness => ValidateDropletSizeCost(r)
      case VolumeSizeCostAwareness => ValidateVolumeSizeCost(r)
    }
  }

  /** The registry in declaration order. */
  const Policies: seq<PolicyId> := [
    DropletMonitoringRequired, DropletIpv6Disabled, DropletSshKeysRecommended,
    FirewallSshRestricted, FirewallOutboundRestricted, VolumeBackupStrategy,
    VolumeMinimumSize, CloudflareDnsTtlReasonable, CloudflareProxyConsideration,
    DropletNamingConvention, TagRequired, FirewallRuleDocumentation,
    DropletSizeCostAwareness, VolumeSizeCostAwareness
  ]

  // ---------------------------------------------------------------------------
  // Violation messages
  // ---------------------------------------------------------------------------

  const MonitoringMessage := "Droplet muss Monitoring aktiviert haben für Security-Überwachung"
  const Ipv6Message := "IPv6 sollte deaktiviert sein, um Firewall-Komplexität zu reduzieren"
  const SshKeysMessage :=
    "SSH-Keys sollten konfiguriert werden. " +
    "Password-basierte Authentifizierung ist weniger sicher."
  const OpenSshMessage :=
    "SSH-Port 22 ist für alle IPs (0.0.0.0/0) offen. " +
    "Beschränke SSH-Zugriff auf bekannte IPs für bessere Security. " +
    "Alternativ: VPN oder Bastion Host verwenden."
  const OpenOutboundMessage :=
    "Outbound-Regel erlaubt alle Ports. " +
    "Erwäge spezifischere Regeln für Defense in Depth."
  const BackupMessage :=
    "Volume sollte eine Backup-Strategie dokumentieren. " +
    "Erwäge Snapshots oder externe Backups für Disaster Recovery."
  const MinimumSizeMessage := "Volume muss mindestens 1 GB groß sein"
  const ProxyMessage :=
    "A-Record ist nicht über Cloudflare Proxy geroutet. " +
    "Erwäge Proxy-Modus für DDoS-Schutz und WAF-Features. " +
    "(Nicht für alle Services sinnvoll - z.B. SSH)"
  const DropletNameMessage := "Droplet sollte einen aussagekräftigen Namen haben (min. 3 Zeichen)"
  const TagsMessage :=
    "Droplet sollte Tags haben für bessere Organisation und Kostenübersicht. " +
    "Z.B.: environment=production, service=n8n"
  const FirewallNameMessage :=
    "Firewall sollte einen aussagekräftigen Namen haben, " +
    "der die Funktion beschreibt"

  const TtlPrefix := "DNS TTL von "
  const TtlLowSuffix :=
    " Sekunden ist sehr niedrig. " +
    "Erwäge höhere Werte (z.B. 300s) für bessere Performance."
  const TtlHighSuffix :=
    " Sekunden ist sehr hoch. " +
    "Bei Änderungen kann es lange dauern, bis sie propagiert sind."

  function TtlLowMessage(ttl: int): string {
    TtlPrefix + IntToDecimal(ttl) + TtlLowSuffix
  }

  function TtlHighMessage(ttl: int): string {
    TtlPrefix + IntToDecimal(ttl) + TtlHighSuffix
  }

  const DropletSizePrefix := "Droplet-Größe "
  const DropletSizeSuffix :=
    " ist relativ teuer. " +
    "Stelle sicher, dass diese Ressourcen wirklich benötigt werden."

  function DropletSizeCostMessage(slug: string): string {
    DropletSizePrefix + slug + DropletSizeSuffix
  }

  const VolumeSizePrefix := "Volume mit "
  const VolumeSizeSuffix :=
    " GB ist relativ groß. " +
    "Prüfe, ob diese Kapazität wirklich benötigt wird."

  function VolumeSizeCostMessage(gb: int): string {
    VolumeSizePrefix + IntToDecimal(gb) + VolumeSizeSuffix
  }

  /** The droplet slugs the size-cost policy warns about. */
  const ExpensiveSizes: seq<string> := ["s-8vcpu-16gb", "s-8vcpu-32gb", "s-16vcpu-64gb", "s-24vcpu-128gb"]

  // ---------------------------------------------------------------------------
  // The fourteen rules
  // ---------------------------------------------------------------------------

  /** droplet-monitoring-required: one mandatory violation when `monitoring` is falsy. */
  function ValidateMonitoring(r: Resource): (vs: seq<Violation>)
    ensures |vs| <= 1
    ensures vs != [] <==>
              r.resourceType == DropletType && r.props.monitoring in {None, Some(false)}
    ensures forall v <- vs ::
              v == Violation("droplet-monitoring-required", Mandatory, MonitoringMessage)
  {
    if r.resourceType == DropletType && !TruthyBool(r.props.monitoring)
    then [DropletMonitoringRequired.Report(MonitoringMessage)]
    else []
  }

  /** droplet-ipv6-disabled: an advisory violation when `ipv6` is truthy. */
  function ValidateIpv6(r: Resource): (vs: seq<Violation>)
    ensures |vs| <= 1
    ensures vs != [] <==> r.resourceType == DropletType && r.props.ipv6 == Some(true)
    ensures forall v <- vs :: v == Violation("droplet-ipv6-disabled", Advisory, Ipv6Message)
  {
    if r.resourceType == DropletType && TruthyBool(r.props.ipv6)
    then [DropletIpv6Disabled.Report(Ipv6Message)]
    else []
  }

  /** droplet-ssh-keys-recommended: `sshKeys` unset or empty. */
  function ValidateSshKeys(r: Resource): (vs: seq<Violation>)
    ensures |vs| <= 1
    ensures vs != [] <==>
              r.resourceType == DropletType && r.props.sshKeys in {None, Some([])}
    ensures forall v <- vs ::
              v == Violation("droplet-ssh-keys-recommended", Advisory, SshKeysMessage)
  {
    if r.resourceType == DropletType
       && (!TruthyList(r.props.sshKeys) || |r.props.sshKeys.value| == 0)
    then [DropletSshKeysRecommended.Report(SshKeysMessage)]
    else []
  }

  /** An inbound rule that opens port 22 to every IPv4 or IPv6 address. */
  predicate OpensSshToWorld(rule: FirewallRule) {
    && rule.portRange == Some("22")
    && rule.sourceAddresses.Some?
    && ("0.0.0.0/0" in rule.sourceAddresses.value || "::/0" in rule.sourceAddresses.value)
  }

  /** `sourceAddresses.some(addr => addr === "0.0.0.0/0" || addr === "::/0")`. */
  function HasWildcard(addresses: seq<string>): (b: bool)
    ensures b <==> "0.0.0.0/0" in addresses || "::/0" in addresses
  {
    if addresses == [] then false
    else addresses[0] == "0.0.0.0/0" || addresses[0] == "::/0" || HasWildcard(addresses[1..])
  }

  /** The loop over `inboundRules` of firewall-ssh-restricted. */
  function SshViolations(rules: seq<FirewallRule>): (vs: seq<Violation>)
    ensures |vs| <= |rules|
    ensures vs == [] <==> forall i :: 0 <= i < |rules| ==> !OpensSshToWorld(rules[i])
    ensures forall v <- vs :: v == Violation("firewall-ssh-restricted", Advisory, OpenSshMessage)
  {
    if rules == [] then []
    else
      var rule := rules[0];
      (if rule.portRange == Some("22") && TruthyList(rule.sourceAddresses)
          && HasWildcard(rule.sourceAddresses.value)
       then [FirewallSshRestricted.Report(OpenSshMessage)]
       else [])
      + SshViolations(rules[1..])
  }

  /** firewall-ssh-restricted: one violation per inbound rule opening SSH to the world. */
  function ValidateSshRestricted(r: Resource): (vs: seq<Violation>)
    ensures r.resourceType != FirewallType || r.props.inboundRules.None? ==> vs == []
    ensures r.resourceType == FirewallType && r.props.inboundRules.Some? ==>
              vs == SshViolations(r.props.inboundRules.value)
  {
    if r.resourceType == FirewallType && TruthyList(r.props.inboundRules)
    then SshViolations(r.props.inboundRules.value)
    else []
  }

  /** An outbound rule whose port range covers every port. */
  predicate AllowsAllPorts(rule: FirewallRule) {
    rule.portRange == Some("0") || rule.portRange == Some("1-65535")
  }

  /** The loop over `outboundRules` of firewall-outbound-restricted. */
  function OutboundViolations(rules: seq<FirewallRule>): (vs: seq<Violation>)
    ensures |vs| <= |rules|
    ensures vs == [] <==> forall i :: 0 <= i < |rules| ==> !AllowsAllPorts(rules[i])
    ensures forall v <- vs ::
              v == Violation("firewall-outbound-restricted", Advisory, OpenOutboundMessage)
  {
    if rules == [] then []
    else
      (if rules[0].portRange == Some("0") || rules[0].portRange == Some("1-65535")
       then [FirewallOutboundRestricted.Report(OpenOutboundMessage)]
       else [])
      + OutboundViolations(rules[1..])
  }

  /** firewall-outbound-restricted: one violation per all-ports outbound rule. */
  function ValidateOutboundRestricted(r: Resource): (vs: seq<Violation>)
    ensures r.resourceType != FirewallType || r.props.outboundRules.None? ==> vs == []
    ensures r.resourceType == FirewallType && r.props.outboundRules.Some? ==>
              vs == OutboundViolations(r.props.outboundRules.value)
  {
    if r.resourceType == FirewallType && TruthyList(r.props.outboundRules)
    then OutboundViolations(r.props.outboundRules.value)
    else []
  }

  /** volume-backup-strategy: the description does not mention "backup" in any case. */
  function ValidateBackup(r: Resource): (vs: seq<Violation>)
    ensures |vs| <= 1
    ensures vs != [] <==>
              r.resourceType == VolumeType &&
              (r.props.description.None? || !Contains(Lower(r.props.description.value), "backup"))
    ensures forall v <- vs :: v == Violation("volume-backup-strategy", Advisory, BackupMessage)
  {
    if r.resourceType == VolumeType
       && (!TruthyString(r.props.description)
           || !Contains(Lower(r.props.description.value), "backup"))
    then [VolumeBackupStrategy.Report(BackupMessage)]
    else []
  }

  /** volume-minimum-size: a mandatory violation when the size is below 1 GB. */
  function ValidateMinimumSize(r: Resource): (vs: seq<Violation>)
    ensures |vs| <= 1
    ensures vs != [] <==>
              r.resourceType == VolumeType &&
              exists gb :: r.props.size == Some(SizeGb(gb)) && gb < 1
    ensures forall v <- vs :: v == Violation("volume-minimum-size", Mandatory, MinimumSizeMessage)
  {
    if r.resourceType == VolumeType && SizeBelow(r.props.size, 1)
    then [VolumeMinimumSize.Report(MinimumSizeMessage)]
    else []
  }

  /**
   * cloudflare-dns-ttl-reasonable: the "too low" and "too high" checks run
   * independently, yet at most one of them fires, and an unset or zero TTL
   * fires neither.
   */
  function ValidateTtl(r: Resource): (vs: seq<Violation>)
    ensures |vs| <= 1
    ensures vs != [] <==>
              IsDnsType(r.resourceType) && r.props.ttl.Some? && r.props.ttl.value != 0 &&
              (r.props.ttl.value < 120 || r.props.ttl.value > 86400)
    ensures vs != [] ==>
              var ttl := r.props.ttl.value;
              vs[0] == Violation("cloudflare-dns-ttl-reasonable", Advisory,
                                 if ttl < 120 then TtlLowMessage(ttl) else TtlHighMessage(ttl))
  {
    if IsDnsType(r.resourceType) then
      var ttl := r.props.ttl;
      (if TruthyInt(ttl) && ttl.value < 120
       then [CloudflareDnsTtlReasonable.Report(TtlLowMessage(ttl.value))]
       else [])
      +
      (if TruthyInt(ttl) && ttl.value > 86400
       then [CloudflareDnsTtlReasonable.Report(TtlHighMessage(ttl.value))]
       else [])
    else []
  }

  /** cloudflare-proxy-consideration: an A record that is not proxied. */
  function ValidateProxy(r: Resource): (vs: seq<Violation>)
    ensures |vs| <= 1
    ensures vs != [] <==>
              IsDnsType(r.resourceType) && r.props.recordType == Some("A") &&
              r.props.proxied in {None, Some(false)}
    ensures forall v <- vs ::
              v == Violation("cloudflare-proxy-consideration", Advisory, ProxyMessage)
  {
    if IsDnsType(r.resourceType) && r.props.recordType == Some("A") && !TruthyBool(r.props.proxied)
    then [CloudflareProxyConsideration.Report(ProxyMessage)]
    else []
  }

  /** droplet-naming-convention: name unset or shorter than three characters. */
  function ValidateDropletName(r: Resource): (vs: seq<Violation>)
    ensures |vs| <= 1
    ensures vs != [] <==>
              r.resourceType == DropletType &&
              (r.props.name.None? || |r.props.name.value| < 3)
    ensures forall v <- vs ::
              v == Violation("droplet-naming-convention", Advisory, DropletNameMessage)
  {
    if r.resourceType == DropletType
       && (!TruthyString(r.props.name) || |r.props.name.value| < 3)
    then [DropletNamingConvention.Report(DropletNameMessage)]
    else []
  }

  /** tag-required: droplet `tags` unset or empty. */
  function ValidateTags(r: Resource): (vs: seq<Violation>)
    ensures |vs| <= 1
    ensures vs != [] <==> r.resourceType == DropletType && r.props.tags in {None, Some([])}
    ensures forall v <- vs :: v == Violation("tag-required", Advisory, TagsMessage)
  {
    if r.resourceType == DropletType
       && (!TruthyList(r.props.tags) || |r.props.tags.value| == 0)
    then [TagRequired.Report(TagsMessage)]
    else []
  }

  /** firewall-rule-documentation: firewall name unset or shorter than five characters. */
  function ValidateFirewallName(r: Resource): (vs: seq<Violation>)
    ensures |vs| <= 1
    ensures vs != [] <==>
              r.resourceType == FirewallType &&
              (r.props.name.None? || |r.props.name.value| < 5)
    ensures forall v <- vs ::
              v == Violation("firewall-rule-documentation", Advisory, FirewallNameMessage)
  {
    if r.resourceType == FirewallType
       && (!TruthyString(r.props.name) || |r.props.name.value| < 5)
    then [FirewallRuleDocumentation.Report(FirewallNameMessage)]
    else []
  }

  /** droplet-size-cost-awareness: the slug is one of the expensive sizes, and is quoted. */
  function ValidateDropletSizeCost(r: Resource): (vs: seq<Violation>)
    ensures |vs| <= 1
    ensures vs != [] <==>
              r.resourceType == DropletType &&
              exists slug :: r.props.size == Some(SizeSlug(slug)) && slug in ExpensiveSizes
    ensures vs != [] ==>
              vs[0] == Violation("droplet-size-cost-awareness", Advisory,
                                 DropletSizeCostMessage(r.props.size.value.slug))
  {
    if r.resourceType == DropletType
       && TruthySize(r.props.size) && r.props.size.value.SizeSlug?
       && r.props.size.value.slug in ExpensiveSizes
    then [DropletSizeCostAwareness.Report(DropletSizeCostMessage(r.props.size.value.slug))]
    else []
  }

  /** volume-size-cost-awareness: more than 100 GB, with the size quoted. */
  function ValidateVolumeSizeCost(r: Resource): (vs: seq<Violation>)
    ensures |vs| <= 1
    ensures vs != [] <==>
              r.resourceType == VolumeType &&
              exists gb :: r.props.size == Some(SizeGb(gb)) && gb > 100
    ensures vs != [] ==>
              vs[0] == Violation("volume-size-cost-awareness", Advisory,
                                 VolumeSizeCostMessage(r.props.size.value.gb))
  {
    if r.resourceType == VolumeType && SizeAbove(r.props.size, 100)
    then [VolumeSizeCostAwareness.Report(VolumeSizeCostMessage(r.props.size.value.gb))]
    else []
  }
}
