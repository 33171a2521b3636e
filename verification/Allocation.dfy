// Many deployments placed one after the other: always picking the best target distributes Instances in
// proportion to the priorities.
module Allocation {
  import opened Common
  import opened Targets
  import opened Sorting
  import Scheduling
  import TargetValidation

  datatype Placement = Placement(target: nat, instance: ObjectReference)

  // A pass appends its Instance to the list of the chosen target before the next pass picks.
  function Place(configs: seq<Config>, p: Placement): seq<Config>
    requires p.target < |configs|
  {
    configs[p.target := configs[p.target].(instanceRefs := configs[p.target].instanceRefs + [p.instance])]
  }

  ghost predicate Best(configs: seq<Config>, w: nat) {
    w < |configs| && forall c :: c in configs ==> Quotient(c) <= Quotient(configs[w])
  }

  // The state after all placements, if each of them took a best target at its time, however ties were broken.
  ghost predicate Greedy(start: seq<Config>, placements: seq<Placement>, end: seq<Config>)
    decreases |placements|
  {
    if placements == [] then end == start
    else
      var last := placements[|placements| - 1];
      exists before ::
        Greedy(start, placements[..|placements| - 1], before) && Best(before, last.target) && end == Place(before, last)
  }

  function Priorities(configs: seq<Config>): (p: seq<int>)
    ensures |p| == |configs| && forall i :: 0 <= i < |p| ==> p[i] == configs[i].priority
  {
    seq(|configs|, i requires 0 <= i < |configs| => configs[i].priority)
  }

  function Usages(configs: seq<Config>): (n: seq<int>)
    ensures |n| == |configs| && forall i :: 0 <= i < |n| ==> n[i] == |configs[i].instanceRefs|
  {
    seq(|configs|, i requires 0 <= i < |configs| => |configs[i].instanceRefs|)
  }

  function Sum(s: seq<int>): int {
    if s == [] then 0 else Sum(s[..|s| - 1]) + s[|s| - 1]
  }

  // ---- Sums ----

  lemma {:induction false} SumUpdate(s: seq<int>, i: nat, x: int)
    requires i < |s|
    ensures Sum(s[i := x]) == Sum(s) + x - s[i]
  {
    var init := s[..|s| - 1];
    if i < |s| - 1 {
      SumUpdate(init, i, x);
      assert s[i := x][..|s| - 1] == init[i := x];
    } else {
      assert s[i := x][..|s| - 1] == init;
    }
  }

  lemma {:induction false} SumOfZeros(s: seq<int>)
    requires forall i :: 0 <= i < |s| ==> s[i] == 0
    ensures Sum(s) == 0
  {
    if s != [] {
      SumOfZeros(s[..|s| - 1]);
    }
  }

  lemma {:induction false} SumNonNegative(s: seq<int>)
    requires forall i :: 0 <= i < |s| ==> 0 <= s[i]
    ensures 0 <= Sum(s)
  {
    if s != [] {
      SumNonNegative(s[..|s| - 1]);
    }
  }

  lemma {:induction false} SumIncrement(s: seq<int>, t: seq<int>)
    requires |s| == |t| && forall i :: 0 <= i < |s| ==> t[i] == s[i] + 1
    ensures Sum(t) == Sum(s) + |s|
  {
    if s != [] {
      SumIncrement(s[..|s| - 1], t[..|s| - 1]);
    }
  }

  // Pointwise inequalities with constant weights add up; one strict term makes the sum strict.
  lemma {:induction false} WeightedSums(a: int, x: seq<int>, b: int, y: seq<int>, strict: bool)
    requires |x| == |y| && forall j :: 0 <= j < |x| ==> a * x[j] <= b * y[j]
    requires strict ==> exists j :: 0 <= j < |x| && a * x[j] < b * y[j]
    ensures a * Sum(x) <= b * Sum(y) && (strict ==> a * Sum(x) < b * Sum(y))
  {
    if x != [] {
      var k := |x| - 1;
      var rest := strict && !(a * x[k] < b * y[k]);
      WeightedSums(a, x[..k], b, y[..k], rest);
      Distribute(a, Sum(x[..k]), x[k]);
      Distribute(b, Sum(y[..k]), y[k]);
    }
  }

  lemma Distribute(a: int, x: int, y: int)
    ensures a * (x + y) == a * x + a * y
  {
  }

  lemma {:induction false} SomeLarger(m: seq<int>, n: seq<int>) returns (i: nat)
    requires |m| == |n| && Sum(m) == Sum(n) && m != n
    ensures i < |m| && m[i] > n[i]
  {
    if i :| 0 <= i < |m| && m[i] > n[i] {
      return i;
    }
    var j :| 0 <= j < |m| && m[j] != n[j];
    assert 1 * m[j] < 1 * n[j];
    WeightedSums(1, m, 1, n, true);
    assert false;
  }

  // ---- One step ----

  // No target has got an Instance that another one deserved more.
  ghost predicate Balanced(p: seq<int>, n: seq<int>) {
    |p| == |n| && forall i, j :: 0 <= i < |p| && 0 <= j < |p| && n[j] > 0 ==> p[i] * n[j] <= p[j] * (n[i] + 1)
  }

  lemma BestCrosswise(configs: seq<Config>, w: nat, i: nat)
    requires Best(configs, w) && i < |configs|
    ensures configs[i].priority * configs[w].Divisor() <= configs[w].priority * configs[i].Divisor()
  {
    var c, d := configs[i], configs[w];
    assert c in configs;
    CrossMultiply(c.priority as real, c.Divisor() as real, d.priority as real, d.Divisor() as real);
    assert (c.priority * d.Divisor()) as real == c.priority as real * d.Divisor() as real;
    assert (d.priority * c.Divisor()) as real == d.priority as real * c.Divisor() as real;
  }

  lemma StepBalanced(p: seq<int>, n: seq<int>, w: nat)
    requires Balanced(p, n) && w < |p|
    requires forall i :: 0 <= i < |p| ==> p[i] >= 0 && n[i] >= 0
    requires forall i :: 0 <= i < |p| ==> p[i] * (n[w] + 1) <= p[w] * (n[i] + 1)
    ensures Balanced(p, n[w := n[w] + 1])
  {
    var m := n[w := n[w] + 1];
    forall i, j | 0 <= i < |p| && 0 <= j < |p| && m[j] > 0 ensures p[i] * m[j] <= p[j] * (m[i] + 1) {
      if j == w && i == w {
        assert p[w] * m[w] <= p[w] * (m[w] + 1);
      } else if j != w && i == w {
        assert p[w] * n[j] <= p[j] * (n[w] + 1);
        assert p[j] * (n[w] + 1) <= p[j] * (m[w] + 1);
      }
    }
  }

  lemma PlaceBalances(before: seq<Config>, placement: Placement)
    requires Best(before, placement.target) && Balanced(Priorities(before), Usages(before))
    requires forall c :: c in before ==> c.priority >= 0
    ensures var end := Place(before, placement); Balanced(Priorities(end), Usages(end))
  {
    var p, n, w := Priorities(before), Usages(before), placement.target;
    var end := Place(before, placement);
    assert Usages(end) == n[w := n[w] + 1] && Priorities(end) == p;
    forall i | 0 <= i < |p| ensures p[i] * (n[w] + 1) <= p[w] * (n[i] + 1) {
      BestCrosswise(before, w, i);
    }
    forall i | 0 <= i < |p| ensures p[i] >= 0 {
      assert before[i] in before;
    }
    StepBalanced(p, n, w);
  }

  // ---- Whole runs ----

  ghost predicate FreshStart(configs: seq<Config>) {
    forall c :: c in configs ==> c.priority >= 0 && c.instanceRefs == []
  }

  lemma {:induction false} GreedyBalances(start: seq<Config>, placements: seq<Placement>, end: seq<Config>)
    requires FreshStart(start) && Greedy(start, placements, end)
    ensures Priorities(end) == Priorities(start) && |end| == |start|
    ensures forall c :: c in end ==> c.priority >= 0
    ensures Balanced(Priorities(end), Usages(end)) && Sum(Usages(end)) == |placements|
    decreases |placements|
  {
    hide Balanced, Quotient;
    if placements == [] {
      SumOfZeros(Usages(end));
      StartBalanced(end);
    } else {
      var init, last := placements[..|placements| - 1], placements[|placements| - 1];
      var before :| Greedy(start, init, before) && Best(before, last.target) && end == Place(before, last);
      GreedyBalances(start, init, before);
      PlaceBalances(before, last);
      assert Usages(end) == Usages(before)[last.target := Usages(before)[last.target] + 1];
      SumUpdate(Usages(before), last.target, Usages(before)[last.target] + 1);
    }
  }

  lemma StartBalanced(start: seq<Config>)
    requires FreshStart(start)
    ensures Balanced(Priorities(start), Usages(start))
  {
    assert forall i :: 0 <= i < |start| ==> start[i] in start;
  }

  /** Over a whole run every target stays within the proportional bounds on both sides. */
  lemma ProportionalAllocation(start: seq<Config>, placements: seq<Placement>, end: seq<Config>, i: nat)
    requires FreshStart(start) && Greedy(start, placements, end) && i < |start| == |end|
    requires Sum(Priorities(start)) > 0
    ensures |placements| * start[i].priority < Sum(Priorities(start)) * (|end[i].instanceRefs| + 1)
    ensures Sum(Priorities(start)) * |end[i].instanceRefs| <= start[i].priority * (|placements| + |start| - 1)
  {
    hide Balanced, Quotient, Best, Sum, FreshStart;
    GreedyBalances(start, placements, end);
    var p, n := Priorities(end), Usages(end);
    assert p[i] == Priorities(start)[i];
    NonNegative(end);
    LowerBound(p, n, i);
    UpperBound(p, n, i);
  }

  lemma NonNegative(configs: seq<Config>)
    requires forall c :: c in configs ==> c.priority >= 0
    ensures forall j :: 0 <= j < |configs| ==> Priorities(configs)[j] >= 0 && Usages(configs)[j] >= 0
  {
    assert forall j :: 0 <= j < |configs| ==> configs[j] in configs;
  }

  lemma LowerBound(p: seq<int>, n: seq<int>, i: nat)
    requires Balanced(p, n) && i < |p| && Sum(p) > 0
    requires forall j :: 0 <= j < |p| ==> p[j] >= 0 && n[j] >= 0
    ensures Sum(n) * p[i] < Sum(p) * (n[i] + 1)
  {
    hide Sum;
    var a, b := p[i], n[i] + 1;
    forall j | 0 <= j < |p| ensures a * n[j] <= b * p[j] {
      LowerTerm(p, n, i, j);
    }
    if a > 0 {
      assert a * n[i] < b * p[i];
      WeightedSums(a, n, b, p, true);
    } else {
      assert Sum(n) * a == 0 < Sum(p) * b;
    }
  }

  lemma LowerTerm(p: seq<int>, n: seq<int>, i: nat, j: nat)
    requires Balanced(p, n) && i < |p| && j < |p| && p[j] >= 0 && n[j] >= 0 && n[i] >= 0
    ensures p[i] * n[j] <= (n[i] + 1) * p[j]
  {
    if n[j] == 0 {
      assert p[i] * n[j] == 0 <= (n[i] + 1) * p[j];
    }
  }

  lemma UpperBound(p: seq<int>, n: seq<int>, i: nat)
    requires Balanced(p, n) && i < |p| == |n|
    requires forall j :: 0 <= j < |p| ==> p[j] >= 0 && n[j] >= 0
    ensures Sum(p) * n[i] <= p[i] * (Sum(n) + |p| - 1)
  {
    hide Sum, Balanced;
    if n[i] > 0 {
      var up := seq(|n|, j requires 0 <= j < |n| => n[j] + 1);
      var y := up[i := n[i]];
      SumIncrement(n, up);
      SumUpdate(up, i, n[i]);
      assert Sum(y) == Sum(n) + |p| - 1;
      forall j | 0 <= j < |p| ensures n[i] * p[j] <= p[i] * y[j] {
        UpperTerm(p, n, i, j);
        assert y[j] == if j == i then n[i] else n[j] + 1;
      }
      WeightedSums(n[i], p, p[i], y, false);
    } else {
      SumNonNegative(n);
      ProductNonNegative(p[i], Sum(n) + |p| - 1);
    }
  }

  lemma ProductNonNegative(a: int, b: int)
    requires a >= 0 && b >= 0
    ensures a * b >= 0
  {
  }

  lemma UpperTerm(p: seq<int>, n: seq<int>, i: nat, j: nat)
    requires Balanced(p, n) && i < |p| && j < |p| && n[i] > 0
    ensures n[i] * p[j] <= p[i] * (n[j] + 1)
    ensures n[i] * p[i] <= p[i] * n[i]
  {
  }

  /** Every target gets at least its share of the Instances, rounded down. */
  lemma LowerQuota(start: seq<Config>, placements: seq<Placement>, end: seq<Config>, i: nat)
    requires FreshStart(start) && Greedy(start, placements, end) && i < |start| == |end|
    requires Sum(Priorities(start)) > 0
    ensures |end[i].instanceRefs| >= |placements| * start[i].priority / Sum(Priorities(start))
  {
    hide Greedy, FreshStart, Sum;
    ProportionalAllocation(start, placements, end, i);
    FloorBelow(|placements| * start[i].priority, Sum(Priorities(start)), |end[i].instanceRefs|);
  }

  lemma FloorBelow(a: int, b: int, q: int)
    requires b > 0 && a < b * (q + 1)
    ensures a / b <= q
  {
    assert b * (a / b) <= a;
    Cancel(b, a / b, q + 1);
  }

  lemma Cancel(b: int, x: int, y: int)
    requires b > 0 && b * x < b * y
    ensures x < y
  {
  }

  /** No other distribution of the same number of Instances has a smaller largest load per priority: for every
      used target, some target that the other distribution `m` uses has at least its load there. */
  lemma LargestLoadIsMinimal(start: seq<Config>, placements: seq<Placement>, end: seq<Config>, m: seq<int>, j: nat)
    requires FreshStart(start) && Greedy(start, placements, end)
    requires |m| == |end| == |start| && Sum(m) == |placements|
    requires j < |end| && |end[j].instanceRefs| > 0
    ensures exists i ::
      0 <= i < |m| && m[i] > 0 && |end[j].instanceRefs| * start[i].priority <= m[i] * start[j].priority
  {
    hide Greedy, FreshStart, Sum, Balanced;
    GreedyBalances(start, placements, end);
    var p, n := Priorities(end), Usages(end);
    assert forall i :: 0 <= i < |p| ==> p[i] == start[i].priority && end[i] in end && p[i] >= 0 by {
      assert forall i :: 0 <= i < |p| ==> Priorities(start)[i] == start[i].priority;
    }
    var i := j;
    if m != n {
      i := SomeLarger(m, n);
      LoadTerm(p, n, i, j, m[i]);
    }
    assert m[i] > 0 && n[j] * p[i] <= m[i] * p[j];
  }

  lemma LoadTerm(p: seq<int>, n: seq<int>, i: nat, j: nat, mi: int)
    requires Balanced(p, n) && i < |p| && j < |p| && n[j] > 0 && mi > n[i] && p[j] >= 0
    ensures n[j] * p[i] <= mi * p[j]
  {
    assert p[i] * n[j] <= p[j] * (n[i] + 1);
    assert p[j] * (n[i] + 1) <= p[j] * mi;
  }

  // ---- The scheduler ----

  // No rule matches the deployment, and no config is restricted: scheduling may choose among all of them.
  ghost predicate OpenTo(rules: seq<TargetValidation.Rule>, d: Deployment, configs: seq<Config>) {
    (forall r :: r in rules ==> !Scheduling.Matches(r, d)) && forall c :: c in configs ==> !c.restricted
  }

  /** Where scheduling may choose among all configs, its winners are exactly the best targets. */
  lemma WinnerIsBest(rules: seq<TargetValidation.Rule>, d: Deployment, configs: seq<Config>, w: nat)
    requires OpenTo(rules, d, configs) && w < |configs|
    ensures Scheduling.Winner(rules, d, configs, configs[w]) <==> Best(configs, w)
  {
    hide Scheduling.Matches, Quotient;
    assert forall c :: Scheduling.Eligible(rules, d, configs, c) <==> c in configs;
  }

  // Deployments placed one after the other: for each of them FindServiceTargetConfig returns a winner, and reconcile
  // appends the new Instance to its list.
  ghost predicate Scheduled(rules: seq<TargetValidation.Rule>, deployments: seq<Deployment>, start: seq<Config>,
                            placements: seq<Placement>, end: seq<Config>)
    requires |deployments| == |placements|
    decreases |placements|
  {
    if placements == [] then end == start
    else
      var n := |placements| - 1;
      exists before ::
        && Scheduled(rules, deployments[..n], start, placements[..n], before)
        && placements[n].target < |before|
        && Scheduling.Winner(rules, deployments[n], before, before[placements[n].target])
        && end == Place(before, placements[n])
  }

  /** A run of the scheduler over unrestricted configs is a run of the greedy allocation, so all its bounds hold. */
  lemma {:induction false} ScheduledIsGreedy(rules: seq<TargetValidation.Rule>, deployments: seq<Deployment>,
      start: seq<Config>, placements: seq<Placement>, end: seq<Config>)
    requires |deployments| == |placements| && Scheduled(rules, deployments, start, placements, end)
    requires forall c :: c in start ==> !c.restricted
    requires forall d, r :: d in deployments && r in rules ==> !Scheduling.Matches(r, d)
    ensures Greedy(start, placements, end) && forall c :: c in end ==> !c.restricted
    decreases |placements|
  {
    hide Scheduling.Matches, Scheduling.Winner, Best;
    if placements != [] {
      var n := |placements| - 1;
      var before :|
        && Scheduled(rules, deployments[..n], start, placements[..n], before)
        && placements[n].target < |before|
        && Scheduling.Winner(rules, deployments[n], before, before[placements[n].target])
        && end == Place(before, placements[n]);
      ScheduledIsGreedy(rules, deployments[..n], start, placements[..n], before);
      WinnerIsBest(rules, deployments[n], before, placements[n].target);
    }
  }

  /** The proportional bounds for the code as a whole: scheduling and the usage lists that reconcile writes. */
  lemma SchedulingIsProportional(rules: seq<TargetValidation.Rule>, deployments: seq<Deployment>, start: seq<Config>,
                                 placements: seq<Placement>, end: seq<Config>, i: nat)
    requires |deployments| == |placements| && Scheduled(rules, deployments, start, placements, end)
    requires forall d, r :: d in deployments && r in rules ==> !Scheduling.Matches(r, d)
    requires (forall c :: c in start ==> !c.restricted) && FreshStart(start) && i < |start| == |end| &&
      Sum(Priorities(start)) > 0
    ensures |placements| * start[i].priority < Sum(Priorities(start)) * (|end[i].instanceRefs| + 1)
    ensures Sum(Priorities(start)) * |end[i].instanceRefs| <= start[i].priority * (|placements| + |start| - 1)
  {
    hide Scheduled, Greedy, Sum, FreshStart, Scheduling.Matches;
    ScheduledIsGreedy(rules, deployments, start, placements, end);
    ProportionalAllocation(start, placements, end, i);
  }
}
