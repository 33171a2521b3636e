// Finding the ServiceTargetConfig for a new deployment.
module Scheduling {
  import opened Common
  import opened Targets
  import opened Selectors
  import opened TargetValidation
  import opened Sorting

  type Refs = Result<seq<ObjectReference>, SchedulingError>

  // ---- The rules, one after the other ----

  // `highest` is the highest priority of a rule that matched so far, `candidates` the targets of those rules.
  function RuleTargets(rules: seq<Rule>, d: Deployment, highest: int, candidates: seq<ObjectReference>): Refs
    decreases |rules|
  {
    if rules == [] then Ok(candidates)
    else
      var r, rest := rules[0], rules[1..];
      if r.targets == [] then Err(RuleWithoutTargets)
      else if r.priority < 0 then Err(NegativeRulePriority)
      else if r.priority < highest then RuleTargets(rest, d, highest, candidates)
      else match EvaluateAnd(r.selector, d)
        case Err(e) => Err(e)
        case Ok(false) => RuleTargets(rest, d, highest, candidates)
        case Ok(true) =>
          if r.priority > highest then RuleTargets(rest, d, r.priority, r.targets)
          else RuleTargets(rest, d, highest, candidates + r.targets)
  }

  method EvaluateRules(rules: seq<Rule>, d: Deployment) returns (refs: Refs)
    ensures refs == RuleTargets(rules, d, -1, [])
  {
    var highest, candidates := -1, [];
    for i := 0 to |rules|
      invariant RuleTargets(rules, d, -1, []) == RuleTargets(rules[i..], d, highest, candidates)
    {
      var r := rules[i];
      if |r.targets| == 0 {
        return Err(RuleWithoutTargets);
      }
      if r.priority < 0 {
        return Err(NegativeRulePriority);
      }
      if r.priority < highest {
        continue;
      }
      var match_ := EvaluateAndTerms(r.selector, d);
      if match_.Err? {
        return Err(match_.error);
      }
      if !match_.value {
        continue;
      }
      if r.priority > highest {
        highest, candidates := r.priority, r.targets;
      } else {
        candidates := candidates + r.targets;
      }
    }
    return Ok(candidates);
  }

  function UnrestrictedRefs(configs: seq<Config>, n: nat): seq<ObjectReference>
    requires n <= |configs|
  {
    if n == 0 then []
    else UnrestrictedRefs(configs, n - 1) + if configs[n - 1].restricted then [] else [configs[n - 1].ref]
  }

  method GetUnrestricted(configs: seq<Config>) returns (refs: seq<ObjectReference>)
    ensures refs == UnrestrictedRefs(configs, |configs|)
  {
    refs := [];
    for i := 0 to |configs|
      invariant refs == UnrestrictedRefs(configs, i)
    {
      if !configs[i].restricted {
        refs := refs + [configs[i].ref];
      }
    }
  }

  // ---- From references to configs ----

  // The last of the configs with the given reference.
  ghost predicate Named(configs: seq<Config>, ref: ObjectReference, c: Config) {
    exists k :: 0 <= k < |configs| && configs[k] == c && c.ref == ref && forall l :: k < l < |configs| ==>
      configs[l].ref != ref
  }

  lemma NamedUnique(configs: seq<Config>, ref: ObjectReference, c: Config, d: Config)
    requires Named(configs, ref, c) && Named(configs, ref, d)
    ensures c == d
  {
  }

  // The values of a map, in any order.
  method GetMapValues(m: map<ObjectReference, Config>) returns (values: array<Config>)
    ensures fresh(values)
    ensures forall c :: c in values[..] <==> exists ref :: ref in m && m[ref] == c
    ensures (forall ref :: ref in m ==> m[ref].ref == ref) ==> NoDuplicates(values[..])
  {
    var list: seq<Config> := [];
    var todo := m.Keys;
    while todo != {}
      invariant todo <= m.Keys
      invariant forall c :: c in list <==> exists ref :: ref in m && ref !in todo && m[ref] == c
      invariant (forall ref :: ref in m ==> m[ref].ref == ref) ==> NoDuplicates(list)
      decreases todo
    {
      var ref :| ref in todo;
      ghost var before := list;
      list := list + [m[ref]];
      todo := todo - {ref};
      if forall r :: r in m ==> m[r].ref == r {
        assert m[ref] !in before;
      }
      forall c ensures c in list <==> exists r :: r in m && r !in todo && m[r] == c {
        assert c in list <==> c in before || c == m[ref];
        if exists r :: r in m && r !in todo && m[r] == c {
          var r :| r in m && r !in todo && m[r] == c;
          assert r == ref || r !in todo + {ref};
        }
      }
    }
    values := new Config[|list|](i requires 0 <= i < |list| => list[i]);
    assert values[..] == list;
  }

  // The inner loop: every config with the reference overwrites the entry.
  method AddMatches(m: map<ObjectReference, Config>, ref: ObjectReference, configs: seq<Config>)
    returns (r: map<ObjectReference, Config>)
    ensures forall x :: x != ref ==> (x in r <==> x in m) && (x in m ==> r[x] == m[x])
    ensures ref in r && (ref in m ==> Named(configs, ref, m[ref])) ==> Named(configs, ref, r[ref])
    ensures (exists k :: 0 <= k < |configs| && configs[k].ref == ref) ==> ref in r
  {
    r := m;
    ghost var last := -1;
    for k := 0 to |configs|
      invariant -1 <= last < k
      invariant r == if last < 0 then m else m[ref := configs[last]]
      invariant last >= 0 ==> configs[last].ref == ref
      invariant forall l :: last < l < k ==> configs[l].ref != ref
    {
      if ref == configs[k].ref {
        r := r[ref := configs[k]];
        last := k;
      }
    }
  }

  ghost predicate Matched(refs: seq<ObjectReference>, configs: seq<Config>, m: map<ObjectReference, Config>) {
    && (forall ref :: ref in m ==> ref in refs && Named(configs, ref, m[ref]))
    && (forall ref, k :: ref in refs && 0 <= k < |configs| && configs[k].ref == ref ==> ref in m)
  }

  // Each existing config that a reference names, once.
  method ConvertAndFilter(refs: seq<ObjectReference>, configs: seq<Config>) returns (result: array<Config>)
    ensures fresh(result)
    ensures forall c :: c in result[..] <==> c.ref in refs && Named(configs, c.ref, c)
    ensures NoDuplicates(result[..])
  {
    var m: map<ObjectReference, Config> := map[];
    for i := 0 to |refs|
      invariant Matched(refs[..i], configs, m)
    {
      m := AddMatches(m, refs[i], configs);
      assert refs[..i + 1] == refs[..i] + [refs[i]];
    }
    assert refs[..|refs|] == refs;
    result := GetMapValues(m);
    forall c ensures c in result[..] <==> c.ref in refs && Named(configs, c.ref, c) {
      if c.ref in refs && Named(configs, c.ref, c) {
        assert c.ref in m;
        NamedUnique(configs, c.ref, c, m[c.ref]);
      }
    }
  }

  // ---- What the search means ----

  predicate Matches(r: Rule, d: Deployment) {
    forall i :: 0 <= i < |r.selector| ==> Denotes(r.selector[i], d)
  }

  // An admitted scheduling without empty lists.
  predicate Sound(rules: seq<Rule>) {
    forall r :: r in rules ==> r.priority >= 0 && r.targets != [] && forall i :: 0 <= i < |r.selector| ==>
      WellFormed(r.selector[i])
  }

  // An earlier matching rule has a higher priority, so that rule `i` is not evaluated.
  ghost predicate Outranked(rules: seq<Rule>, i: nat, d: Deployment)
    requires i < |rules|
  {
    exists j :: 0 <= j < i && Matches(rules[j], d) && rules[j].priority > rules[i].priority
  }

  // Rule `i` is complete, and its selector can be evaluated, unless it need not be.
  ghost predicate Passes(rules: seq<Rule>, i: nat, d: Deployment)
    requires i < |rules|
  {
    && rules[i].targets != [] && rules[i].priority >= 0
    && (Outranked(rules, i, d) || !FirstStuck(rules[i].selector, d, true))
  }

  ghost predicate AllPass(rules: seq<Rule>, d: Deployment) {
    forall i :: 0 <= i < |rules| ==> Passes(rules, i, d)
  }

  // A matching rule that no matching rule outranks.
  predicate Top(rules: seq<Rule>, d: Deployment, r: Rule) {
    r in rules && Matches(r, d) && forall x :: x in rules && Matches(x, d) ==> x.priority <= r.priority
  }

  // A config from which scheduling may choose.
  ghost predicate Eligible(rules: seq<Rule>, d: Deployment, configs: seq<Config>, c: Config) {
    && c in configs
    && if exists r :: r in rules && Matches(r, d) then exists r :: Top(rules, d, r) && c.ref in r.targets
       else !c.restricted
  }

  ghost predicate Winner(rules: seq<Rule>, d: Deployment, configs: seq<Config>, w: Config) {
    Eligible(rules, d, configs, w) && forall c :: Eligible(rules, d, configs, c) ==> Quotient(c) <= Quotient(w)
  }

  /** A sound scheduling passes for every deployment, in whatever order its rules are. */
  lemma SoundPasses(rules: seq<Rule>, d: Deployment)
    requires Sound(rules)
    ensures AllPass(rules, d)
  {
    hide WellFormed, Stuck, Denotes;
    forall i | 0 <= i < |rules|
      ensures Passes(rules, i, d)
    {
      assert rules[i] in rules;
      forall k | 0 <= k < |rules[i].selector|
        ensures !Stuck(rules[i].selector[k], d)
      {
        WellFormedIsNotStuck(rules[i].selector[k], d);
      }
    }
  }

  // The loop over the rules: what is collected belongs to the best matching rules seen.
  ghost predicate Collected(seen: seq<Rule>, d: Deployment, highest: int, candidates: seq<ObjectReference>) {
    && (forall r :: r in seen && Matches(r, d) ==> r.priority <= highest)
    && (highest >= 0 <==> exists r :: r in seen && Matches(r, d))
    && (highest >= 0 <==> candidates != [])
    && (forall ref :: ref in candidates <==>
      exists r :: r in seen && Matches(r, d) && r.priority == highest && ref in r.targets)
    && highest >= -1
  }

  lemma CollectOne(seen: seq<Rule>, d: Deployment, highest: int, candidates: seq<ObjectReference>, r: Rule)
    requires Collected(seen, d, highest, candidates) && r.priority >= 0 && r.targets != []
    ensures !Matches(r, d) || r.priority < highest ==> Collected(seen + [r], d, highest, candidates)
    ensures Matches(r, d) && r.priority > highest ==> Collected(seen + [r], d, r.priority, r.targets)
    ensures Matches(r, d) && r.priority == highest ==> Collected(seen + [r], d, highest, candidates + r.targets)
  {
    hide Matches;
    var now := seen + [r];
    assert forall x :: x in now <==> x in seen || x == r;
    assert r in now;
    if Matches(r, d) && r.priority == highest {
      forall ref ensures ref in candidates + r.targets <==>
        exists x :: x in now && Matches(x, d) && x.priority == highest && ref in x.targets {
        assert ref in candidates ==>
          exists x :: x in seen && Matches(x, d) && x.priority == highest && ref in x.targets;
      }
    }
  }

  // One more rule that is evaluated or skipped.
  lemma OutrankedByCollected(seen: seq<Rule>, rules: seq<Rule>, d: Deployment, highest: int,
      candidates: seq<ObjectReference>)
    requires Collected(seen, d, highest, candidates) && |seen| < |rules| && rules[..|seen|] == seen &&
      rules[|seen|].priority >= 0
    ensures Outranked(rules, |seen|, d) <==> rules[|seen|].priority < highest
  {
    hide Matches;
    if rules[|seen|].priority < highest {
      assert candidates[0] in candidates;
      var r :| r in seen && Matches(r, d) && r.priority == highest;
      var j :| 0 <= j < |seen| && seen[j] == r;
      assert rules[j] == r;
    }
    forall j | 0 <= j < |seen| && Matches(rules[j], d)
      ensures rules[j].priority <= highest
    {
      assert rules[j] == seen[j] && seen[j] in seen;
    }
  }

  /** The loop over the rules succeeds exactly if every rule passes, and then has collected the targets of the best
      matching rules. */
  lemma {:induction false} RulesCollect(seen: seq<Rule>, rules: seq<Rule>, d: Deployment, highest: int,
      candidates: seq<ObjectReference>)
    requires |seen| <= |rules| && rules[..|seen|] == seen && Collected(seen, d, highest, candidates)
    ensures var refs := RuleTargets(rules[|seen|..], d, highest, candidates);
      && (refs.Ok? <==> forall i :: |seen| <= i < |rules| ==> Passes(rules, i, d))
      && (refs.Ok? ==> exists top :: Collected(rules, d, top, refs.value))
    decreases |rules| - |seen|
  {
    hide Collected, Matches, Stuck, Outranked, EvaluateAnd, FirstStuck;
    if |seen| < |rules| {
      var r, rest := rules[|seen|], rules[|seen| + 1..];
      var now := seen + [r];
      assert rules[|seen|..][0] == r && rules[|seen|..][1..] == rest && rules[|now|..] == rest && rules[..|now|] == now;
      assert (forall i :: |seen| <= i < |rules| ==> Passes(rules, i, d)) <==>
        Passes(rules, |seen|, d) && forall i :: |now| <= i < |rules| ==> Passes(rules, i, d);
      if r.targets != [] && r.priority >= 0 {
        CollectOne(seen, d, highest, candidates, r);
        OutrankedByCollected(seen, rules, d, highest, candidates);
        AndIsMeaning(r.selector, d);
        MatchesAnd(r, d);
        if r.priority < highest || EvaluateAnd(r.selector, d) == Ok(false) {
          RulesCollect(now, rules, d, highest, candidates);
        } else if EvaluateAnd(r.selector, d).Ok? && r.priority > highest {
          RulesCollect(now, rules, d, r.priority, r.targets);
        } else if EvaluateAnd(r.selector, d).Ok? {
          RulesCollect(now, rules, d, highest, candidates + r.targets);
        }
      }
    } else {
      assert rules == seen;
    }
  }

  lemma MatchesAnd(r: Rule, d: Deployment)
    ensures Matches(r, d) <==> forall i :: 0 <= i < |r.selector| ==> Denotes(r.selector[i], d)
  {
  }

  function Rules(scheduling: Option<seq<Rule>>): seq<Rule> {
    if scheduling.Some? then scheduling.value else []
  }

  ghost predicate DistinctRefs(configs: seq<Config>) {
    forall i, j :: 0 <= i < j < |configs| ==> configs[i].ref != configs[j].ref
  }

  lemma {:induction false} UnrestrictedExact(configs: seq<Config>, n: nat)
    requires n <= |configs|
    ensures forall ref :: ref in UnrestrictedRefs(configs, n) <==>
      exists k :: 0 <= k < n && !configs[k].restricted && configs[k].ref == ref
  {
    if n > 0 {
      UnrestrictedExact(configs, n - 1);
    }
  }

  lemma NamedIsMember(configs: seq<Config>, c: Config)
    requires DistinctRefs(configs)
    ensures Named(configs, c.ref, c) <==> c in configs
  {
    if c in configs {
      var k :| 0 <= k < |configs| && configs[k] == c;
      assert forall l :: k < l < |configs| ==> configs[l].ref != c.ref;
    }
  }

  lemma CollectedFromStart(d: Deployment)
    ensures Collected([], d, -1, [])
  {
  }

  /** There are candidates to choose from exactly if all rules pass, and these are the eligible configs. */
  lemma CandidatesAreEligible(scheduling: Option<seq<Rule>>, d: Deployment, configs: seq<Config>)
    requires DistinctRefs(configs)
    ensures var rules, refs := Rules(scheduling), CandidateRefs(scheduling, d, configs);
      && (refs.Ok? <==> AllPass(rules, d))
      && (refs.Ok? ==> forall c :: Candidate(refs.value, configs, c) <==> Eligible(rules, d, configs, c))
  {
    hide Matches, DistinctRefs, Named, Passes, RuleTargets;
    var rules := Rules(scheduling);
    CollectedFromStart(d);
    RulesCollect([], rules, d, -1, []);
    assert rules[0..] == rules;
    RulesOfNothing(d);
    UnrestrictedExact(configs, |configs|);
    if CandidateRefs(scheduling, d, configs).Ok? {
      var collected, refs := RuleTargets(rules, d, -1, []).value, CandidateRefs(scheduling, d, configs).value;
      var top :| Collected(rules, d, top, collected);
      forall c ensures Candidate(refs, configs, c) <==> Eligible(rules, d, configs, c) {
        NamedIsMember(configs, c);
        if collected == [] {
          if Candidate(refs, configs, c) {
            var k :| 0 <= k < |configs| && !configs[k].restricted && configs[k].ref == c.ref;
            SameRefSameConfig(configs, configs[k], c);
          }
        } else {
          TopOfCollected(rules, d, top, collected, c.ref);
        }
      }
    }
  }

  lemma RulesOfNothing(d: Deployment)
    ensures RuleTargets([], d, -1, []) == Ok([])
  {
  }

  lemma SameRefSameConfig(configs: seq<Config>, c: Config, e: Config)
    requires DistinctRefs(configs) && c in configs && e in configs && c.ref == e.ref
    ensures c == e
  {
  }

  lemma TopOfCollected(rules: seq<Rule>, d: Deployment, top: int, collected: seq<ObjectReference>, ref: ObjectReference)
    requires Collected(rules, d, top, collected) && collected != []
    ensures exists r :: r in rules && Matches(r, d)
    ensures ref in collected <==> exists r :: Top(rules, d, r) && ref in r.targets
  {
    hide Matches;
    assert collected[0] in collected;
    var best :| best in rules && Matches(best, d) && best.priority == top && collected[0] in best.targets;
    if r :| Top(rules, d, r) && ref in r.targets {
      assert r.priority == top;
    }
    if ref in collected {
      var r :| r in rules && Matches(r, d) && r.priority == top && ref in r.targets;
      assert Top(rules, d, r);
    }
  }

  // ---- The whole search ----

  // The references that remain to choose from: those of the rules, or all unrestricted ones.
  function CandidateRefs(scheduling: Option<seq<Rule>>, d: Deployment, configs: seq<Config>): Refs {
    var fromRules := if scheduling.Some? then RuleTargets(scheduling.value, d, -1, []) else Ok([]);
    if fromRules == Ok([]) then Ok(UnrestrictedRefs(configs, |configs|)) else fromRules
  }

  ghost predicate Candidate(refs: seq<ObjectReference>, configs: seq<Config>, c: Config) {
    c.ref in refs && Named(configs, c.ref, c)
  }

  method FindServiceTargetConfig(scheduling: Option<seq<Rule>>, d: Deployment, configs: seq<Config>)
    returns (r: Result<Config, SchedulingError>)
    ensures match CandidateRefs(scheduling, d, configs)
            case Err(e) => r == Err(e)
            case Ok(refs) =>
              && (r.Ok? <==> exists c :: Candidate(refs, configs, c))
              && (r.Err? ==> r.error == NoConfigAvailable)
              && (r.Ok? ==> Candidate(refs, configs, r.value))
              && (r.Ok? && AllFit(configs) ==> forall c :: Candidate(refs, configs, c) ==>
                Quotient(c) <= Quotient(r.value))
    ensures DistinctRefs(configs) ==>
              && (r.Ok? <==> AllPass(Rules(scheduling), d) && exists c :: Eligible(Rules(scheduling), d, configs, c))
              && (r.Ok? ==> Eligible(Rules(scheduling), d, configs, r.value))
              && (r.Ok? && AllFit(configs) ==> Winner(Rules(scheduling), d, configs, r.value))
  {
    hide Quotient, Fits, Eligible, AllPass, RuleTargets, DistinctRefs, Matches;
    if DistinctRefs(configs) {
      CandidatesAreEligible(scheduling, d, configs);
    }
    var refs := [];
    if scheduling.Some? {
      var fromRules := EvaluateRules(scheduling.value, d);
      if fromRules.Err? {
        return Err(fromRules.error);
      }
      refs := fromRules.value;
    }
    if |refs| == 0 {
      refs := GetUnrestricted(configs);
    }
    var candidates := ConvertAndFilter(refs, configs);
    ghost var list := candidates[..];
    assert forall c :: c in list <==> Candidate(refs, configs, c);
    if candidates.Length == 0 {
      return Err(NoConfigAvailable);
    }
    assert candidates[0] in list;
    assert AllFit(configs) ==> AllFit(list);
    r := PickServiceTargetConfig(candidates);
  }

  /** Admission and the absence of empty lists make a scheduling sound. */
  lemma AdmittedIsSound(rules: seq<Rule>)
    requires forall i :: 0 <= i < |rules| ==> AdmittedRule(rules[i])
    requires forall i, j :: 0 <= i < |rules| && 0 <= j < |rules[i].selector| ==> NoEmptyList(rules[i].selector[j])
    ensures Sound(rules)
  {
    forall i, j | 0 <= i < |rules| && 0 <= j < |rules[i].selector| ensures WellFormed(rules[i].selector[j]) {
      AdmittedIsWellFormed(rules[i].selector[j]);
    }
  }

  /** The order of rules and configs does not matter, nor does their multiplicity. */
  lemma OrderIsIrrelevant(rules: seq<Rule>, rules': seq<Rule>, d: Deployment, configs: seq<Config>,
      configs': seq<Config>, w: Config)
    requires forall r :: r in rules <==> r in rules'
    requires forall c :: c in configs <==> c in configs'
    ensures Winner(rules, d, configs, w) <==> Winner(rules', d, configs', w)
  {
    hide Matches, Quotient;
    assert forall r :: Top(rules, d, r) <==> Top(rules', d, r);
    assert forall c :: Eligible(rules, d, configs, c) <==> Eligible(rules', d, configs', c);
  }

  /** Each best config is picked for some order of the map values, so the set of winners cannot be narrowed down. */
  lemma AnyBestCanBePicked(list: seq<Config>, w: Config) returns (order: seq<Config>)
    requires AllFit(list) && w in list && forall c :: c in list ==> Quotient(c) <= Quotient(w)
    ensures multiset(order) == multiset(list)
    ensures StableSorted(order) != [] && StableSorted(order)[0] == w
  {
    var i :| 0 <= i < |list| && list[i] == w;
    order := [w] + list[..i] + list[i + 1..];
    assert list == list[..i] + [w] + list[i + 1..];
    assert multiset(order) == multiset(list);
    forall c | c in order ensures c in list {
      assert c in multiset(order);
    }
    HeadIsFirstBest(order);
    var t := StableSorted(order)[0];
    assert t in list;
    assert Quotient(t) == Quotient(w);
    ClassStartsWith(order, Quotient(w));
  }

  lemma {:induction false} ClassStartsWith(s: seq<Config>, q: real)
    requires s != [] && Quotient(s[0]) == q
    ensures Class(s, q) != [] && Class(s, q)[0] == s[0]
  {
    if |s| > 1 {
      ClassStartsWith(s[..|s| - 1], q);
    } else {
      assert Class(s[..0], q) == [];
    }
  }

  /** An ill-formed selector of a lower rule goes unnoticed after a matching rule, but is an error before it. */
  lemma IllFormedRuleDependsOnOrder(d: Deployment, ref: ObjectReference)
    ensures var high, low := Rule(1, [ref], []), Rule(0, [ref], [Or([])]);
            RuleTargets([high, low], d, -1, []) == Ok([ref]) &&
              RuleTargets([low, high], d, -1, []) == Err(EmptySelector)
  {
    var high, low := Rule(1, [ref], []), Rule(0, [ref], [Or([])]);
    assert [high, low][1..] == [low] && [low][1..] == [];
    assert EvaluateAnd(high.selector, d) == Ok(true);
    assert RuleTargets([low], d, 1, [ref]) == Ok([ref]);
    assert EvaluateAnd(low.selector, d) == Err(EmptySelector) by {
      assert Evaluate(Or([]), d) == Err(EmptySelector);
    }
  }
}
