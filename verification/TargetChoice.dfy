// The choice of the target for a new Instance: scheduling over the ServiceTargetConfigs that are stored.
module TargetChoice {
  import opened Common
  import opened Lifecycle
  import Targets
  import Sorting
  import Scheduling
  import TargetValidation

  // What is stored about a ServiceTargetConfig apart from its usage list.
  datatype Setting = Setting(visible: bool, priority: Targets.Int64, restricted: bool)

  // What scheduling goes by: the rules, if there are any, the deployment, and the settings of the configs.
  datatype Policy = Policy(
    rules: Option<seq<TargetValidation.Rule>>,
    deployment: Targets.Deployment,
    settings: ObjectReference -> Setting)

  function Shown(s: Store, policy: Policy, c: ObjectReference): Targets.ServiceTargetConfig
    requires c in s.configs
  {
    var setting := policy.settings(c);
    Targets.ServiceTargetConfig(c, setting.priority, setting.restricted, s.configs[c].instanceRefs)
  }

  // A list of the visible configs, each once.
  ghost predicate Lists(s: Store, policy: Policy, configs: seq<Targets.ServiceTargetConfig>) {
    && Scheduling.DistinctRefs(configs)
    && forall c :: c in configs <==>
         c.ref in s.configs && policy.settings(c.ref).visible && c == Shown(s, policy, c.ref)
  }

  ghost predicate Schedulable(policy: Policy, configs: seq<Targets.ServiceTargetConfig>) {
    var rules := Scheduling.Rules(policy.rules);
    Scheduling.AllPass(rules, policy.deployment) &&
      exists c :: Scheduling.Eligible(rules, policy.deployment, configs, c)
  }

  // There is a target to choose.
  ghost predicate Placeable(s: Store, policy: Policy) {
    exists configs :: Lists(s, policy, configs) && Schedulable(policy, configs)
  }

  // The visible config `c` is eligible, and a best one if nothing overflows.
  ghost predicate MayPick(s: Store, policy: Policy, c: ObjectReference) {
    && c in s.configs && policy.settings(c).visible
    && exists configs :: Lists(s, policy, configs) && Wins(policy, configs, Shown(s, policy, c))
  }

  ghost predicate Wins(policy: Policy, configs: seq<Targets.ServiceTargetConfig>, c: Targets.ServiceTargetConfig) {
    var rules := Scheduling.Rules(policy.rules);
    && Scheduling.Eligible(rules, policy.deployment, configs, c)
    && (Sorting.AllFit(configs) ==> Scheduling.Winner(rules, policy.deployment, configs, c))
  }

  // The list call of the scheduler.
  method ListConfigs(s: Store, policy: Policy) returns (configs: seq<Targets.ServiceTargetConfig>)
    ensures Lists(s, policy, configs)
  {
    configs := [];
    var refs := s.configs.Keys;
    while refs != {}
      invariant refs <= s.configs.Keys
      invariant Scheduling.DistinctRefs(configs)
      invariant forall c :: c in configs <==>
        c.ref in s.configs && c.ref !in refs && policy.settings(c.ref).visible && c == Shown(s, policy, c.ref)
      decreases refs
    {
      var ref :| ref in refs;
      ghost var before := configs;
      if policy.settings(ref).visible {
        configs := configs + [Shown(s, policy, ref)];
        assert forall c :: c in configs <==> c in before || c == Shown(s, policy, ref);
        assert forall i :: 0 <= i < |before| ==> before[i] in before && before[i].ref != ref;
      }
      refs := refs - {ref};
    }
  }

  lemma ListsAgree(s: Store, policy: Policy, a: seq<Targets.ServiceTargetConfig>, b: seq<Targets.ServiceTargetConfig>)
    requires Lists(s, policy, a) && Lists(s, policy, b)
    ensures Schedulable(policy, a) <==> Schedulable(policy, b)
  {
    hide Scheduling.Matches, Scheduling.AllPass;
    var rules, d := Scheduling.Rules(policy.rules), policy.deployment;
    assert forall c :: Scheduling.Eligible(rules, d, a, c) <==> Scheduling.Eligible(rules, d, b, c);
  }

  /** A target is found exactly if all rules pass and an eligible config is stored and visible, and it is one of the
      best of these. */
  method FindTarget(s: Store, policy: Policy) returns (target: Option<ObjectReference>)
    ensures target.Some? <==> Placeable(s, policy)
    ensures target.Some? ==> MayPick(s, policy, target.value)
  {
    hide Lists, Scheduling.Eligible, Scheduling.AllPass, Scheduling.Winner, Sorting.AllFit;
    var configs := ListConfigs(s, policy);
    var r := Scheduling.FindServiceTargetConfig(policy.rules, policy.deployment, configs);
    ListsFacts(s, policy, configs);
    if Placeable(s, policy) {
      var others :| Lists(s, policy, others) && Schedulable(policy, others);
      ListsAgree(s, policy, configs, others);
    }
    if r.Ok? {
      EligibleIsListed(policy, configs, r.value);
      target := Some(r.value.ref);
    } else {
      target := None;
    }
  }

  lemma ListsFacts(s: Store, policy: Policy, configs: seq<Targets.ServiceTargetConfig>)
    requires Lists(s, policy, configs)
    ensures Scheduling.DistinctRefs(configs)
    ensures forall c :: c in configs ==>
      c.ref in s.configs && policy.settings(c.ref).visible && c == Shown(s, policy, c.ref)
  {
  }

  lemma EligibleIsListed(policy: Policy, configs: seq<Targets.ServiceTargetConfig>, c: Targets.ServiceTargetConfig)
    requires Scheduling.Eligible(Scheduling.Rules(policy.rules), policy.deployment, configs, c)
    ensures c in configs
  {
  }

  lemma PickedIsStored(s: Store, policy: Policy, c: ObjectReference)
    requires MayPick(s, policy, c)
    ensures c in s.configs
  {
  }

  lemma SameConfigsPlaceable(s: Store, t: Store, policy: Policy)
    requires s.configs == t.configs
    ensures Placeable(s, policy) <==> Placeable(t, policy)
  {
    hide Schedulable;
    assert forall configs :: Lists(s, policy, configs) <==> Lists(t, policy, configs);
  }

  /** What a policy without rules comes to: any visible and unrestricted config will do. */
  lemma FreePolicyPlaces(s: Store, policy: Policy)
    requires policy.rules == None
    ensures Placeable(s, policy) <==>
      exists c :: c in s.configs && policy.settings(c).visible && !policy.settings(c).restricted
  {
    assert Scheduling.Rules(policy.rules) == [];
    if c :| c in s.configs && policy.settings(c).visible && !policy.settings(c).restricted {
      var configs := ListExists(s, policy);
      assert Scheduling.Eligible([], policy.deployment, configs, Shown(s, policy, c));
    }
  }

  lemma {:induction false} ListExists(s: Store, policy: Policy) returns (configs: seq<Targets.ServiceTargetConfig>)
    ensures Lists(s, policy, configs)
    decreases |s.configs|
  {
    if c :| c in s.configs {
      var rest := s.(configs := s.configs - {c});
      configs := ListExists(rest, policy);
      assert forall e :: e in configs ==> e.ref != c;
      if policy.settings(c).visible {
        var before := configs;
        configs := configs + [Shown(s, policy, c)];
        assert forall e :: e in configs <==> e in before || e == Shown(s, policy, c);
        assert forall i :: 0 <= i < |before| ==> before[i] in before;
      }
    } else {
      configs := [];
    }
  }
}
