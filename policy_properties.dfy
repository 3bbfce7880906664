/** Properties of the policy registry and of single rules. */
module PolicyProperties {
  import opened Options
  import opened Text
  import opened Policy

  /** Only droplet-monitoring-required and volume-minimum-size are mandatory. */
  lemma MandatoryPolicies(p: PolicyId)
    ensures p.Level() == Mandatory <==> p == DropletMonitoringRequired || p == VolumeMinimumSize
  {
  }

  /** The registry lists every policy once, under fourteen distinct names. */
  lemma RegistryComplete(p: PolicyId)
    ensures p in Policies
    ensures |Policies| == 14
    ensures forall i, j :: 0 <= i < j < |Policies| ==> Policies[i].Name() != Policies[j].Name()
  {
  }

  /** A policy reports nothing about a resource type its guard does not accept. */
  lemma ValidateOnlyGuardedTypes(p: PolicyId, r: Resource)
    requires !p.AppliesTo(r.resourceType)
    ensures p.Validate(r) == []
  {
    match p
    case DropletMonitoringRequired =>
    case DropletIpv6Disabled =>
    case DropletSshKeysRecommended =>
    case FirewallSshRestricted =>
    case FirewallOutboundRestricted =>
    case VolumeBackupStrategy =>
    case VolumeMinimumSize =>
    case CloudflareDnsTtlReasonable =>
    case CloudflareProxyConsideration =>
    case DropletNamingConvention =>
    case TagRequired =>
    case FirewallRuleDocumentation =>
    case DropletSizeCostAwareness =>
    case VolumeSizeCostAwareness =>
  }

  /** Every violation a policy reports carries that policy's name and enforcement level. */
  lemma ViolationsCarryPolicy(p: PolicyId, r: Resource, v: Violation)
    requires v in p.Validate(r)
    ensures v.policy == p.Name() && v.level == p.Level()
  {
    match p
    case DropletMonitoringRequired =>
    case DropletIpv6Disabled =>
    case DropletSshKeysRecommended =>
    case FirewallSshRestricted =>
    case FirewallOutboundRestricted =>
    case VolumeBackupStrategy =>
    case VolumeMinimumSize =>
    case CloudflareDnsTtlReasonable =>
    case CloudflareProxyConsideration =>
    case DropletNamingConvention =>
    case TagRequired =>
    case FirewallRuleDocumentation =>
    case DropletSizeCostAwareness =>
    case VolumeSizeCostAwareness =>
  }

  // ---------------------------------------------------------------------------
  // firewall-ssh-restricted and firewall-outbound-restricted: one violation
  // per offending rule, in rule order
  // ---------------------------------------------------------------------------

  lemma {:induction false} SshViolationsConcat(a: seq<FirewallRule>, b: seq<FirewallRule>)
    ensures SshViolations(a + b) == SshViolations(a) + SshViolations(b)
  {
    if a == [] {
      assert a + b == b;
    } else {
      assert (a + b)[0] == a[0] && (a + b)[1..] == a[1..] + b;
      SshViolationsConcat(a[1..], b);
    }
  }

  lemma SshViolationsOfOneRule(rule: FirewallRule)
    ensures SshViolations([rule]) ==
              if OpensSshToWorld(rule)
              then [Violation("firewall-ssh-restricted", Advisory, OpenSshMessage)]
              else []
  {
  }

  /** Rules on other ports, or without source addresses, add nothing. */
  lemma SshViolationsIgnoreOtherRules(a: seq<FirewallRule>, rule: FirewallRule, b: seq<FirewallRule>)
    requires rule.portRange != Some("22") || rule.sourceAddresses.None?
    ensures SshViolations(a + [rule] + b) == SshViolations(a + b)
  {
    SshViolationsConcat(a + [rule], b);
    SshViolationsConcat(a, [rule]);
    SshViolationsConcat(a, b);
  }

  lemma {:induction false} OutboundViolationsConcat(a: seq<FirewallRule>, b: seq<FirewallRule>)
    ensures OutboundViolations(a + b) == OutboundViolations(a) + OutboundViolations(b)
  {
    if a == [] {
      assert a + b == b;
    } else {
      assert (a + b)[0] == a[0] && (a + b)[1..] == a[1..] + b;
      OutboundViolationsConcat(a[1..], b);
    }
  }

  lemma OutboundViolationsOfOneRule(rule: FirewallRule)
    ensures OutboundViolations([rule]) ==
              if AllowsAllPorts(rule)
              then [Violation("firewall-outbound-restricted", Advisory, OpenOutboundMessage)]
              else []
  {
  }

  // ---------------------------------------------------------------------------
  // Messages that quote the offending value
  // ---------------------------------------------------------------------------

  /** A value framed by a fixed prefix and suffix can be read back from the message. */
  lemma FramedValueRecoverable(prefix: string, x: string, y: string, suffix: string)
    requires prefix + x + suffix == prefix + y + suffix
    ensures x == y
  {
    var m := prefix + x + suffix;
    assert x == m[|prefix|..|m| - |suffix|];
    assert y == (prefix + y + suffix)[|prefix|..|m| - |suffix|];
  }

  /** The TTL messages quote the TTL: distinct TTLs give distinct messages. */
  lemma TtlMessagesQuoteTtl(a: int, b: int)
    ensures TtlLowMessage(a) == TtlLowMessage(b) ==> a == b
    ensures TtlHighMessage(a) == TtlHighMessage(b) ==> a == b
  {
    if TtlLowMessage(a) == TtlLowMessage(b) {
      FramedValueRecoverable(TtlPrefix, IntToDecimal(a), IntToDecimal(b), TtlLowSuffix);
      IntToDecimalInjective(a, b);
    }
    if TtlHighMessage(a) == TtlHighMessage(b) {
      FramedValueRecoverable(TtlPrefix, IntToDecimal(a), IntToDecimal(b), TtlHighSuffix);
      IntToDecimalInjective(a, b);
    }
  }

  /** The "too low" and "too high" messages stay distinguishable whatever the TTLs. */
  lemma TtlMessagesDistinguishable(a: int, b: int)
    ensures TtlLowMessage(a) != TtlHighMessage(b)
  {
    var low, high := TtlLowMessage(a), TtlHighMessage(b);
    assert low[|low| - 2] == TtlLowSuffix[|TtlLowSuffix| - 2] == 'e';
    assert high[|high| - 2] == TtlHighSuffix[|TtlHighSuffix| - 2] == 'd';
  }

  /** The volume-size-cost message quotes the size. */
  lemma VolumeSizeCostMessageQuotesSize(a: int, b: int)
    requires VolumeSizeCostMessage(a) == VolumeSizeCostMessage(b)
    ensures a == b
  {
    FramedValueRecoverable(VolumeSizePrefix, IntToDecimal(a), IntToDecimal(b), VolumeSizeSuffix);
    IntToDecimalInjective(a, b);
  }

  /** The droplet-size-cost message quotes the slug. */
  lemma DropletSizeCostMessageQuotesSlug(a: string, b: string)
    requires DropletSizeCostMessage(a) == DropletSizeCostMessage(b)
    ensures a == b
  {
    FramedValueRecoverable(DropletSizePrefix, a, b, DropletSizeSuffix);
  }

  // ---------------------------------------------------------------------------
  // Volume rules
  // ---------------------------------------------------------------------------

  /** No volume is both too small and too large. */
  lemma VolumeSizeRulesExclusive(r: Resource)
    ensures ValidateMinimumSize(r) == [] || ValidateVolumeSizeCost(r) == []
  {
  }

  /** The backup check ignores letter case in the description. */
  lemma BackupCheckIgnoresCase(r: Resource)
    requires r.props.description.Some?
    ensures ValidateBackup(r) ==
              ValidateBackup(r.(props := r.props.(description := Some(Lower(r.props.description.value)))))
  {
    LowerIdempotent(r.props.description.value);
  }
}
