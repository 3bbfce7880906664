/** The rules applied to the firewall and DNS record the stack itself declares. */
module PolicyFixtures {
  import opened Options
  import opened Text
  import opened Policy
  import opened PolicyProperties

  const World: seq<string> := ["0.0.0.0/0", "::/0"]

  function Inbound(port: string): FirewallRule {
    FirewallRule("tcp", Some(port), Some(World), None)
  }

  function Outbound(protocol: string, port: Option<string>): FirewallRule {
    FirewallRule(protocol, port, None, Some(World))
  }

  /** SSH, HTTP and HTTPS from anywhere, plus ICMP. */
  const StackInbound: seq<FirewallRule> :=
    [Inbound("22"), Inbound("80"), Inbound("443"), FirewallRule("icmp", None, Some(World), None)]

  /** Every TCP and UDP port to anywhere, plus ICMP. */
  const StackOutbound: seq<FirewallRule> :=
    [Outbound("tcp", Some("0")), Outbound("udp", Some("0")), Outbound("icmp", None)]

  /** The stack's firewall draws one SSH advisory, for its port-22 rule. */
  lemma StackInboundFindings()
    ensures SshViolations(StackInbound) == [Violation("firewall-ssh-restricted", Advisory, OpenSshMessage)]
  {
    var ssh, rest := StackInbound[0], StackInbound[1..];
    assert StackInbound == [ssh] + rest;
    SshViolationsConcat([ssh], rest);
    SshViolationsOfOneRule(ssh);
    assert OpensSshToWorld(ssh) by {
      assert ssh.sourceAddresses.value[0] == "0.0.0.0/0";
    }
    assert forall i :: 0 <= i < |rest| ==> rest[i].portRange != Some("22");
  }

  /** ... and one outbound advisory for each of its TCP and UDP all-ports rules. */
  lemma StackOutboundFindings()
    ensures OutboundViolations(StackOutbound) ==
              [Violation("firewall-outbound-restricted", Advisory, OpenOutboundMessage),
               Violation("firewall-outbound-restricted", Advisory, OpenOutboundMessage)]
  {
    var tcp, udp, icmp := StackOutbound[0], StackOutbound[1], StackOutbound[2];
    var v := Violation("firewall-outbound-restricted", Advisory, OpenOutboundMessage);
    assert StackOutbound == [tcp] + ([udp] + [icmp]);
    OutboundViolationsOfOneRule(tcp);
    OutboundViolationsOfOneRule(udp);
    OutboundViolationsOfOneRule(icmp);
    OutboundViolationsConcat([udp], [icmp]);
    assert OutboundViolations([udp] + [icmp]) == [v] + [];
    OutboundViolationsConcat([tcp], [udp] + [icmp]);
    assert OutboundViolations(StackOutbound) == [v] + [v];
  }

  /** The stack's DNS record: an A record, not proxied, with a TTL of 300 seconds. */
  const StackRecord := Resource(DnsRecordType, NoProps.(ttl := Some(300), recordType := Some("A"), proxied := Some(false)))

  /**
   * Of the whole pack, only the DNS rules look at a DNS record: an A record
   * that is not proxied and whose TTL is unset, zero or within bounds draws
   * the proxy advisory and nothing else.
   */
  lemma UnproxiedRecordFindings(p: PolicyId, r: Resource)
    requires IsDnsType(r.resourceType) && r.props.recordType == Some("A") && r.props.proxied != Some(true)
    requires r.props.ttl.None? || r.props.ttl.value == 0 || 120 <= r.props.ttl.value <= 86400
    ensures p.Validate(r) ==
              if p == CloudflareProxyConsideration
              then [Violation("cloudflare-proxy-consideration", Advisory, ProxyMessage)]
              else []
  {
    if !p.AppliesTo(r.resourceType) {
      ValidateOnlyGuardedTypes(p, r);
    }
  }

  /** The stack's own DNS record draws only the proxy advisory. */
  lemma StackRecordFindings(p: PolicyId)
    ensures p.Validate(StackRecord) ==
              if p == CloudflareProxyConsideration
              then [Violation("cloudflare-proxy-consideration", Advisory, ProxyMessage)]
              else []
  {
    UnproxiedRecordFindings(p, StackRecord);
  }

  /** "backup" cannot occur in the lower-cased text when no 'b' or 'B' does. */
  lemma NoLetterBNoBackup(description: string)
    requires 'b' !in description && 'B' !in description
    ensures !Contains(Lower(description), "backup")
  {
    if Contains(Lower(description), "backup") {
      ContainsChar(Lower(description), "backup", 'b');
    }
  }

  /**
   * A volume of 1 to 100 GB whose description never mentions "backup" draws
   * the backup advisory and nothing else from the whole pack.
   */
  lemma UndocumentedVolumeFindings(p: PolicyId, r: Resource)
    requires r.resourceType == VolumeType && r.props.description.Some?
    requires 'b' !in r.props.description.value && 'B' !in r.props.description.value
    requires exists gb :: r.props.size == Some(SizeGb(gb)) && 1 <= gb <= 100
    ensures p.Validate(r) ==
              if p == VolumeBackupStrategy
              then [Violation("volume-backup-strategy", Advisory, BackupMessage)]
              else []
  {
    NoLetterBNoBackup(r.props.description.value);
    if !p.AppliesTo(r.resourceType) {
      ValidateOnlyGuardedTypes(p, r);
    }
  }

  const N8nDescription := "Persistent volume for n8n data"
  const JuiceShopDescription := "Persistent volume for Juice Shop data"

  /** The n8n data volume: 25 GB by default. */
  const N8nVolume := Resource(VolumeType, NoProps.(size := Some(SizeGb(25)), description := Some(N8nDescription)))

  /** The Juice Shop data volume: 1 GB by default, the smallest size volume-minimum-size accepts. */
  const JuiceShopVolume := Resource(VolumeType, NoProps.(size := Some(SizeGb(1)), description := Some(JuiceShopDescription)))

  lemma DescriptionsLackLetterB()
    ensures 'b' !in N8nDescription && 'B' !in N8nDescription
    ensures 'b' !in JuiceShopDescription && 'B' !in JuiceShopDescription
  {
  }

  /** The n8n data volume draws only the backup advisory. */
  lemma N8nVolumeFindings(p: PolicyId)
    ensures p.Validate(N8nVolume) ==
              if p == VolumeBackupStrategy
              then [Violation("volume-backup-strategy", Advisory, BackupMessage)]
              else []
  {
    DescriptionsLackLetterB();
    UndocumentedVolumeFindings(p, N8nVolume);
  }

  /** So does the Juice Shop data volume, although it sits at the minimum size. */
  lemma JuiceShopVolumeFindings(p: PolicyId)
    ensures p.Validate(JuiceShopVolume) ==
              if p == VolumeBackupStrategy
              then [Violation("volume-backup-strategy", Advisory, BackupMessage)]
              else []
  {
    DescriptionsLackLetterB();
    UndocumentedVolumeFindings(p, JuiceShopVolume);
  }
}
