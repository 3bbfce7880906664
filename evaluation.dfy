/**
 * Running the policy pack over a whole resource graph. The original hands
 * each resource to every policy's `validateResource` through the Pulumi
 * policy runtime; this module defines that iteration itself, as a fold that
 * concatenates violations in (resource order, policy order).
 */
module PolicyEvaluation {
  import opened Options
  import opened Policy
  import opened PolicyProperties

  /** `xs.flatMap(f)`: the lists `f` gives for each element, one after the other. */
  function FlatMap<T, U>(xs: seq<T>, f: T -> seq<U>): seq<U> {
    if xs == [] then [] else f(xs[0]) + FlatMap(xs[1..], f)
  }

  /** Every policy of `policies`, in order, applied to one resource. */
  function ApplyPolicies(policies: seq<PolicyId>, r: Resource): seq<Violation> {
    FlatMap(policies, (p: PolicyId) => p.Validate(r))
  }

  /** The report of one evaluation pass: resource by resource, policy by policy. */
  function Evaluate(resources: seq<Resource>, policies: seq<PolicyId>): seq<Violation> {
    FlatMap(resources, (r: Resource) => ApplyPolicies(policies, r))
  }

  /**
   * Whether a deployment gate would block on the report. This flag is not
   * part of the policy pack; it is defined here to state what the two
   * mandatory policies mean for a whole graph.
   */
  predicate HasBlockingViolations(report: seq<Violation>) {
    exists i :: 0 <= i < |report| && report[i].level == Mandatory
  }

  // ---------------------------------------------------------------------------
  // Structure of the report
  // ---------------------------------------------------------------------------

  lemma {:induction false} FlatMapConcat<T, U>(a: seq<T>, b: seq<T>, f: T -> seq<U>)
    ensures FlatMap(a + b, f) == FlatMap(a, f) + FlatMap(b, f)
  {
    if a == [] {
      assert a + b == b;
    } else {
      assert (a + b)[0] == a[0] && (a + b)[1..] == a[1..] + b;
      FlatMapConcat(a[1..], b, f);
    }
  }

  lemma {:induction false} FlatMapMembership<T, U>(xs: seq<T>, f: T -> seq<U>, v: U)
    ensures v in FlatMap(xs, f) <==> exists i :: 0 <= i < |xs| && v in f(xs[i])
  {
    if xs != [] {
      FlatMapMembership(xs[1..], f, v);
      if v in FlatMap(xs[1..], f) {
        var i :| 0 <= i < |xs[1..]| && v in f(xs[1..][i]);
        assert v in f(xs[i + 1]);
      }
      if exists i :: 0 <= i < |xs| && v in f(xs[i]) {
        var i :| 0 <= i < |xs| && v in f(xs[i]);
        if i > 0 {
          assert v in f(xs[1..][i - 1]);
        }
      }
    }
  }

  /** Evaluating a graph in two parts gives the two reports one after the other. */
  lemma EvaluateConcat(a: seq<Resource>, b: seq<Resource>, policies: seq<PolicyId>)
    ensures Evaluate(a + b, policies) == Evaluate(a, policies) + Evaluate(b, policies)
  {
    FlatMapConcat(a, b, (r: Resource) => ApplyPolicies(policies, r));
  }

  /**
   * A violation is in the report exactly when some policy reports it for
   * some resource of the graph.
   */
  lemma EvaluateMembership(resources: seq<Resource>, policies: seq<PolicyId>, v: Violation)
    ensures v in Evaluate(resources, policies) <==>
              exists i, j :: 0 <= i < |resources| && 0 <= j < |policies| &&
                             v in policies[j].Validate(resources[i])
  {
    FlatMapMembership(resources, (r: Resource) => ApplyPolicies(policies, r), v);
    forall i | 0 <= i < |resources|
      ensures v in ApplyPolicies(policies, resources[i]) <==>
                exists j :: 0 <= j < |policies| && v in policies[j].Validate(resources[i])
    {
      FlatMapMembership(policies, (p: PolicyId) => p.Validate(resources[i]), v);
    }
  }

  /** Every violation carries the name and level of a policy that was run. */
  lemma ViolationsInheritPolicyLevel(resources: seq<Resource>, policies: seq<PolicyId>, v: Violation)
    requires v in Evaluate(resources, policies)
    ensures exists j :: 0 <= j < |policies| &&
                        v.policy == policies[j].Name() && v.level == policies[j].Level()
  {
    EvaluateMembership(resources, policies, v);
    var i, j :| 0 <= i < |resources| && 0 <= j < |policies| && v in policies[j].Validate(resources[i]);
    ViolationsCarryPolicy(policies[j], resources[i], v);
  }

  /** A resource whose type no policy guards for draws no violation at all. */
  lemma {:induction false} UnguardedTypeYieldsNothing(policies: seq<PolicyId>, r: Resource)
    requires r.resourceType !in {DropletType, FirewallType, VolumeType, DnsRecordType, LegacyRecordType}
    ensures ApplyPolicies(policies, r) == []
  {
    if policies != [] {
      ValidateOnlyGuardedTypes(policies[0], r);
      UnguardedTypeYieldsNothing(policies[1..], r);
      assert ApplyPolicies(policies, r) == policies[0].Validate(r) + ApplyPolicies(policies[1..], r);
    }
  }

  // ---------------------------------------------------------------------------
  // Policy order does not change what is reported
  // ---------------------------------------------------------------------------

  /** Taking one element out of a sequence takes it out of its multiset. */
  lemma MultisetRemove<T>(s: seq<T>, k: int)
    requires 0 <= k < |s|
    ensures multiset(s) == multiset(s[..k] + s[k + 1..]) + multiset{s[k]}
  {
    assert s == s[..k] + [s[k]] + s[k + 1..];
  }

  /** Taking one element out of the input takes its list out of the output's multiset. */
  lemma FlatMapRemove<T, U>(b: seq<T>, k: int, f: T -> seq<U>)
    requires 0 <= k < |b|
    ensures multiset(FlatMap(b, f)) == multiset(FlatMap(b[..k] + b[k + 1..], f)) + multiset(f(b[k]))
  {
    var x, front, back := b[k], b[..k], b[k + 1..];
    assert b == front + [x] + back;
    FlatMapConcat(front + [x], back, f);
    FlatMapConcat(front, [x], f);
    FlatMapConcat(front, back, f);
    assert FlatMap([x], f) == f(x) + FlatMap([], f);
    var l, m, n := FlatMap(front, f), f(x), FlatMap(back, f);
    assert FlatMap(b, f) == l + m + n;
    calc {
      multiset(l + m + n);
      multiset(l) + multiset(m) + multiset(n);
      multiset(l + n) + multiset(m);
    }
  }

  /** Permuting the input permutes the output. */
  lemma {:induction false} FlatMapPermutation<T, U>(a: seq<T>, b: seq<T>, f: T -> seq<U>)
    requires multiset(a) == multiset(b)
    ensures multiset(FlatMap(a, f)) == multiset(FlatMap(b, f))
    decreases |a|
  {
    if a == [] {
      assert |b| == |multiset(b)| == 0;
    } else {
      var x := a[0];
      assert x in multiset(b);
      var k :| 0 <= k < |b| && b[k] == x;
      var rest := b[..k] + b[k + 1..];
      MultisetRemove(a, 0);
      MultisetRemove(b, k);
      assert a[..0] + a[1..] == a[1..];
      assert multiset(a[1..]) == multiset(a) - multiset{x};
      assert multiset(rest) == multiset(b) - multiset{x};
      FlatMapPermutation(a[1..], rest, f);
      FlatMapRemove(a, 0, f);
      FlatMapRemove(b, k, f);
    }
  }

  /** Functions whose lists are permutations of each other give permuted outputs. */
  lemma {:induction false} FlatMapPointwisePermutation<T, U>(xs: seq<T>, f: T -> seq<U>, g: T -> seq<U>)
    requires forall x <- xs :: multiset(f(x)) == multiset(g(x))
    ensures multiset(FlatMap(xs, f)) == multiset(FlatMap(xs, g))
  {
    if xs != [] {
      assert xs[0] in xs;
      FlatMapPointwisePermutation(xs[1..], f, g);
    }
  }

  /**
   * Reordering the registry permutes the report: the same violations, each
   * as often as before.
   */
  lemma PolicyOrderIrrelevant(resources: seq<Resource>, a: seq<PolicyId>, b: seq<PolicyId>)
    requires multiset(a) == multiset(b)
    ensures multiset(Evaluate(resources, a)) == multiset(Evaluate(resources, b))
  {
    forall r <- resources
      ensures multiset(ApplyPolicies(a, r)) == multiset(ApplyPolicies(b, r))
    {
      FlatMapPermutation(a, b, (p: PolicyId) => p.Validate(r));
    }
    FlatMapPointwisePermutation(resources,
      (r: Resource) => ApplyPolicies(a, r), (r: Resource) => ApplyPolicies(b, r));
  }

  // ---------------------------------------------------------------------------
  // When the pack blocks a deployment
  // ---------------------------------------------------------------------------

  /** A droplet whose monitoring is off or unset. */
  predicate LacksMonitoring(r: Resource) {
    r.resourceType == DropletType && r.props.monitoring in {None, Some(false)}
  }

  /** A volume with a numeric size below 1 GB. */
  predicate Undersized(r: Resource) {
    r.resourceType == VolumeType && r.props.size.Some? && r.props.size.value.SizeGb? && r.props.size.value.gb < 1
  }

  /** A mandatory violation comes from a droplet without monitoring or an undersized volume. */
  lemma MandatoryViolationCause(p: PolicyId, r: Resource, v: Violation)
    requires v in p.Validate(r) && v.level == Mandatory
    ensures LacksMonitoring(r) || Undersized(r)
  {
    ViolationsCarryPolicy(p, r, v);
    MandatoryPolicies(p);
    if p == DropletMonitoringRequired {
      assert ValidateMonitoring(r) != [];
    } else {
      assert p == VolumeMinimumSize;
      assert ValidateMinimumSize(r) != [];
    }
  }

  /**
   * Running any list of policies that includes the two mandatory ones yields
   * a mandatory violation exactly when some droplet lacks monitoring or some
   * volume is below 1 GB.
   */
  lemma BlockingExactlyWhenMandatoryRuleFires(resources: seq<Resource>, policies: seq<PolicyId>)
    requires DropletMonitoringRequired in policies && VolumeMinimumSize in policies
    ensures HasBlockingViolations(Evaluate(resources, policies)) <==>
              exists i :: 0 <= i < |resources| && (LacksMonitoring(resources[i]) || Undersized(resources[i]))
  {
    if HasBlockingViolations(Evaluate(resources, policies)) {
      BlockingHasCause(resources, policies);
    }
    if exists i :: 0 <= i < |resources| && (LacksMonitoring(resources[i]) || Undersized(resources[i])) {
      var i :| 0 <= i < |resources| && (LacksMonitoring(resources[i]) || Undersized(resources[i]));
      CauseBlocks(resources, policies, i);
    }
  }

  lemma BlockingHasCause(resources: seq<Resource>, policies: seq<PolicyId>)
    requires HasBlockingViolations(Evaluate(resources, policies))
    ensures exists i :: 0 <= i < |resources| && (LacksMonitoring(resources[i]) || Undersized(resources[i]))
  {
    var report := Evaluate(resources, policies);
    var k :| 0 <= k < |report| && report[k].level == Mandatory;
    var v := report[k];
    EvaluateMembership(resources, policies, v);
    var i, j :| 0 <= i < |resources| && 0 <= j < |policies| && v in policies[j].Validate(resources[i]);
    MandatoryViolationCause(policies[j], resources[i], v);
  }

  lemma CauseBlocks(resources: seq<Resource>, policies: seq<PolicyId>, i: int)
    requires DropletMonitoringRequired in policies && VolumeMinimumSize in policies
    requires 0 <= i < |resources| && (LacksMonitoring(resources[i]) || Undersized(resources[i]))
    ensures HasBlockingViolations(Evaluate(resources, policies))
  {
    var report := Evaluate(resources, policies);
    var p := if LacksMonitoring(resources[i]) then DropletMonitoringRequired else VolumeMinimumSize;
    var j :| 0 <= j < |policies| && policies[j] == p;
    var vs := p.Validate(resources[i]);
    assert vs != [] by {
      if p == DropletMonitoringRequired {
        assert vs == ValidateMonitoring(resources[i]);
      } else {
        assert vs == ValidateMinimumSize(resources[i]);
      }
    }
    var v := vs[0];
    EvaluateMembership(resources, policies, v);
    var k :| 0 <= k < |report| && report[k] == v;
  }

  /** The full pack blocks exactly on a droplet without monitoring or an undersized volume. */
  lemma PackBlocksExactlyOnMandatoryFindings(resources: seq<Resource>)
    ensures HasBlockingViolations(Evaluate(resources, Policies)) <==>
              exists i :: 0 <= i < |resources| && (LacksMonitoring(resources[i]) || Undersized(resources[i]))
  {
    RegistryHoldsMandatoryPolicies();
    BlockingExactlyWhenMandatoryRuleFires(resources, Policies);
  }

  lemma RegistryHoldsMandatoryPolicies()
    ensures DropletMonitoringRequired in Policies && VolumeMinimumSize in Policies
  {
    assert Policies[0] == DropletMonitoringRequired && Policies[6] == VolumeMinimumSize;
  }
}
