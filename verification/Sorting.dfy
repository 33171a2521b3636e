// The ranking of ServiceTargetConfigs by priority and usage, and the choice of the best one.
module Sorting {
  import opened Common
  import opened Targets

  type Config = ServiceTargetConfig

  // ---- The comparison ----

  // Signed 64-bit arithmetic wraps around.
  function Wrap(x: int): (r: Int64) {
    (x - MIN_INT64) % 0x1_0000_0000_0000_0000 + MIN_INT64
  }

  // The comparison of the sort: quotients priority / (usage + 1), compared crosswise in 64 bits.
  predicate Before(l: Config, r: Config) {
    Wrap(l.priority * r.Divisor()) > Wrap(r.priority * l.Divisor())
  }

  ghost function Quotient(c: Config): real {
    c.priority as real / c.Divisor() as real
  }

  // The cross products of two configs, and of all pairs in a list, fit into 64 bits.
  ghost predicate Fits(l: Config, r: Config) {
    MIN_INT64 <= l.priority * r.Divisor() <= MAX_INT64 && MIN_INT64 <= r.priority * l.Divisor() <= MAX_INT64
  }

  ghost predicate AllFit(s: seq<Config>) {
    forall l, r :: l in s && r in s ==> Fits(l, r)
  }

  /** A product survives the 64-bit arithmetic exactly if it is in range. */
  lemma WrapExact(x: int)
    ensures Wrap(x) == x <==> MIN_INT64 <= x <= MAX_INT64
  {
  }

  lemma CrossMultiply(a: real, b: real, c: real, d: real)
    requires b > 0.0 && d > 0.0
    ensures a / b > c / d <==> a * d > c * b
  {
    var x, y := a / b, c / d;
    assert a * d == x * (b * d) && c * b == y * (b * d);
    assert x > y <==> x * (b * d) > y * (b * d) by {
      assert b * d > 0.0;
      assert (x - y) * (b * d) > 0.0 <==> x - y > 0.0;
    }
  }

  /** Without overflow the comparison compares the rational quotients, whatever the signs of the priorities. */
  lemma BeforeComparesQuotients(l: Config, r: Config)
    requires Fits(l, r)
    ensures Before(l, r) <==> Quotient(l) > Quotient(r)
  {
    CrossMultiply(l.priority as real, l.Divisor() as real, r.priority as real, r.Divisor() as real);
    var p, q := l.priority * r.Divisor(), r.priority * l.Divisor();
    assert p as real == l.priority as real * r.Divisor() as real;
    assert q as real == r.priority as real * l.Divisor() as real;
    WrapExact(p);
    WrapExact(q);
  }

  // A config with a priority of at most `p` in size, and fewer than `u` Instances.
  predicate Bounded(c: Config, p: int, u: int) {
    -p <= c.priority <= p && c.Divisor() <= u
  }

  ghost predicate ComparesRight(p: int, u: int) {
    forall l, r :: Bounded(l, p, u) && Bounded(r, p, u) ==> (Before(l, r) <==> Quotient(l) > Quotient(r))
  }

  /** All configs within the bounds are compared as their quotients are, exactly if the product of the bounds fits into
      64 bits. */
  lemma ComparesRightIffFits(p: int, u: int)
    requires 0 <= p <= MAX_INT64 && u >= 1
    ensures ComparesRight(p, u) <==> p * u <= MAX_INT64
  {
    if p * u <= MAX_INT64 {
      forall l, r | Bounded(l, p, u) && Bounded(r, p, u) ensures Before(l, r) <==> Quotient(l) > Quotient(r) {
        BoundedFits(l, r, p, u);
        BeforeComparesQuotients(l, r);
      }
    } else {
      var v := LeastOverflow(p, u);
      var l, r := IdleAndBest(p, v);
      assert Before(l, r) && Quotient(l) <= Quotient(r);
    }
  }

  lemma BoundedFits(l: Config, r: Config, p: int, u: int)
    requires Bounded(l, p, u) && Bounded(r, p, u) && p * u <= MAX_INT64
    ensures Fits(l, r)
  {
    ProductInRange(l.priority, r.Divisor(), p, u);
    ProductInRange(r.priority, l.Divisor(), p, u);
  }

  lemma ProductInRange(a: int, b: int, p: int, u: int)
    requires -p <= a <= p && 0 <= b <= u
    ensures -(p * u) <= a * b <= p * u
  {
    assert a * b <= p * b <= p * u;
    assert -p * b <= a * b;
  }

  // The least factor with which the product does not fit; there the product is too large by less than 2^63.
  lemma {:induction false} LeastOverflow(p: int, u: int) returns (v: int)
    requires 0 <= p <= MAX_INT64 && u >= 1 && p * u > MAX_INT64
    ensures 1 < v <= u && MAX_INT64 < p * v <= 2 * MAX_INT64
    decreases u
  {
    if p * (u - 1) > MAX_INT64 {
      v := LeastOverflow(p, u - 1);
    } else {
      v := u;
      assert p * u == p * (u - 1) + p;
    }
  }

  // A config of priority 0 with many Instances wrongly comes before one of priority `p` without any.
  lemma IdleAndBest(p: int, v: int) returns (l: Config, r: Config)
    requires 0 < p <= MAX_INT64 && v > 1 && MAX_INT64 < p * v <= 2 * MAX_INT64
    ensures Bounded(l, p, v) && Bounded(r, p, v)
    ensures Before(l, r) && Quotient(l) <= Quotient(r)
  {
    var ref := ObjectReference("", "");
    l := ServiceTargetConfig(ref, 0, false, seq(v - 1, _ => ref));
    r := ServiceTargetConfig(ref, p, false, []);
    assert l.priority * r.Divisor() == 0 && r.priority * l.Divisor() == p * v;
    assert Wrap(p * v) == p * v - 0x1_0000_0000_0000_0000;
    CrossMultiply(l.priority as real, l.Divisor() as real, r.priority as real, r.Divisor() as real);
  }

  /** Without overflow the comparison is a strict weak order, as the sort demands. */
  lemma BeforeIsStrictWeakOrder(a: Config, b: Config, c: Config)
    requires AllFit([a, b, c])
    ensures !Before(a, a) && (Before(a, b) ==> !Before(b, a))
    ensures Before(a, b) && Before(b, c) ==> Before(a, c)
    ensures Before(a, c) ==> Before(a, b) || Before(b, c)
  {
    hide Before, Fits, Quotient;
    forall x, y | x in [a, b, c] && y in [a, b, c]
      ensures Before(x, y) <==> Quotient(x) > Quotient(y)
    {
      BeforeComparesQuotients(x, y);
    }
  }

  /** Priorities of 2^62 are accepted by admission, and with one Instance on each side the comparison overflows. */
  lemma BeforeOverflows(ref: ObjectReference)
    ensures var l := ServiceTargetConfig(ref, 0x4000_0000_0000_0000, false, [ref]);
            var r := ServiceTargetConfig(ref, 1, false, [ref]);
            Quotient(l) > Quotient(r) && !Before(l, r) && Before(r, l)
  {
    var l := ServiceTargetConfig(ref, 0x4000_0000_0000_0000, false, [ref]);
    var r := ServiceTargetConfig(ref, 1, false, [ref]);
    CrossMultiply(l.priority as real, l.Divisor() as real, r.priority as real, r.Divisor() as real);
  }

  // ---- The sort ----

  // Moves `c` from the right end of a sorted list to the left, past every element it comes before.
  function Insert(s: seq<Config>, c: Config): (r: seq<Config>) {
    if s == [] || !Before(c, s[|s| - 1]) then s + [c]
    else Insert(s[..|s| - 1], c) + [s[|s| - 1]]
  }

  function StableSorted(s: seq<Config>): (r: seq<Config>) {
    if s == [] then [] else Insert(StableSorted(s[..|s| - 1]), s[|s| - 1])
  }

  ghost predicate Descending(s: seq<Config>) {
    forall i, j :: 0 <= i < j < |s| ==> Quotient(s[i]) >= Quotient(s[j])
  }

  // The elements with a given quotient, in order.
  ghost function Class(s: seq<Config>, q: real): seq<Config> {
    if s == [] then []
    else Class(s[..|s| - 1], q) + if Quotient(s[|s| - 1]) == q then [s[|s| - 1]] else []
  }

  lemma {:induction false} InsertPermutes(s: seq<Config>, c: Config)
    ensures multiset(Insert(s, c)) == multiset(s) + multiset{c}
  {
    if s != [] && Before(c, s[|s| - 1]) {
      InsertPermutes(s[..|s| - 1], c);
      assert s == s[..|s| - 1] + [s[|s| - 1]];
    }
  }

  /** The result holds the same configs as often as the input. */
  lemma {:induction false} StableSortedPermutes(s: seq<Config>)
    ensures multiset(StableSorted(s)) == multiset(s)
  {
    hide Insert;
    if s != [] {
      StableSortedPermutes(s[..|s| - 1]);
      InsertPermutes(StableSorted(s[..|s| - 1]), s[|s| - 1]);
      assert s == s[..|s| - 1] + [s[|s| - 1]];
    }
  }

  lemma {:induction false} InsertDescends(s: seq<Config>, c: Config)
    requires Descending(s) && forall d :: d in s ==> Fits(c, d)
    ensures Descending(Insert(s, c))
  {
    if s != [] {
      BeforeComparesQuotients(c, s[|s| - 1]);
      if Before(c, s[|s| - 1]) {
        var init, last := s[..|s| - 1], s[|s| - 1];
        InsertDescends(init, c);
        InsertPermutes(init, c);
        forall d | d in Insert(init, c) ensures Quotient(d) >= Quotient(last) {
          assert d in multiset(Insert(init, c));
          assert d == c || d in init;
        }
      }
    }
  }

  /** The result descends. */
  lemma {:induction false} StableSortedDescends(s: seq<Config>)
    requires AllFit(s)
    ensures Descending(StableSorted(s))
  {
    if s != [] {
      var init, last := s[..|s| - 1], s[|s| - 1];
      StableSortedDescends(init);
      StableSortedPermutes(init);
      forall d | d in StableSorted(init) ensures Fits(last, d) {
        assert d in multiset(StableSorted(init));
      }
      InsertDescends(StableSorted(init), last);
    }
  }

  lemma {:induction false} InsertKeepsClasses(s: seq<Config>, c: Config, q: real)
    requires forall d :: d in s ==> Fits(c, d)
    ensures Class(Insert(s, c), q) == Class(s, q) + if Quotient(c) == q then [c] else []
  {
    if s == [] || !Before(c, s[|s| - 1]) {
      assert (s + [c])[..|s|] == s;
    } else {
      var init, last := s[..|s| - 1], s[|s| - 1];
      BeforeComparesQuotients(c, last);
      InsertKeepsClasses(init, c, q);
      assert (Insert(init, c) + [last])[..|Insert(init, c)|] == Insert(init, c);
    }
  }

  /** Stability: configs with the same quotient keep their order. */
  lemma {:induction false} StableSortedKeepsClasses(s: seq<Config>, q: real)
    requires AllFit(s)
    ensures Class(StableSorted(s), q) == Class(s, q)
  {
    if s != [] {
      var init, last := s[..|s| - 1], s[|s| - 1];
      StableSortedKeepsClasses(init, q);
      StableSortedPermutes(init);
      forall d | d in StableSorted(init) ensures Fits(last, d) {
        assert d in multiset(StableSorted(init));
      }
      InsertKeepsClasses(StableSorted(init), last, q);
    }
  }

  lemma {:induction false} ClassMember(s: seq<Config>, q: real)
    ensures Class(s, q) != [] <==> exists i :: 0 <= i < |s| && Quotient(s[i]) == q
    ensures forall c :: c in Class(s, q) ==> c in s && Quotient(c) == q
  {
    if s != [] {
      var init, last := s[..|s| - 1], s[|s| - 1];
      ClassMember(init, q);
      assert forall i :: 0 <= i < |init| ==> s[i] == init[i];
      assert forall c :: c in init ==> c in s;
    }
  }

  ghost predicate SameClasses(s: seq<Config>, t: seq<Config>) {
    forall q :: Class(s, q) == Class(t, q)
  }

  lemma LastsAgree(s: seq<Config>, t: seq<Config>)
    requires s != [] && t != [] && Descending(s) && Descending(t) && SameClasses(s, t)
    ensures s[|s| - 1] == t[|t| - 1]
  {
    var x, y := s[|s| - 1], t[|t| - 1];
    var p, q := Quotient(x), Quotient(y);
    assert Class(s, p) == Class(t, p) && Class(s, q) == Class(t, q);
    assert x == Class(s, p)[|Class(s, p)| - 1] && y == Class(t, q)[|Class(t, q)| - 1];
    ClassMember(t, p);
    ClassMember(s, q);
    assert p == q;
  }

  lemma InitsAgree(s: seq<Config>, t: seq<Config>)
    requires s != [] && t != [] && s[|s| - 1] == t[|t| - 1] && SameClasses(s, t)
    ensures SameClasses(s[..|s| - 1], t[..|t| - 1])
  {
    var x, s', t' := s[|s| - 1], s[..|s| - 1], t[..|t| - 1];
    forall q ensures Class(s', q) == Class(t', q) {
      var cs, ct := Class(s, q), Class(t, q);
      assert cs == ct;
      if Quotient(x) == q {
        assert Class(s', q) == cs[..|cs| - 1];
        assert Class(t', q) == ct[..|ct| - 1];
      } else {
        assert cs == Class(s', q) && ct == Class(t', q);
      }
    }
  }

  /** A descending list is determined by its classes: there is only one stable descending arrangement. */
  lemma {:induction false} DescendingUnique(s: seq<Config>, t: seq<Config>)
    requires Descending(s) && Descending(t) && SameClasses(s, t)
    ensures s == t
  {
    if s != [] && t != [] {
      LastsAgree(s, t);
      InitsAgree(s, t);
      DescendingUnique(s[..|s| - 1], t[..|t| - 1]);
    } else if s + t != [] {
      var q := Quotient((s + t)[0]);
      assert Class(s, q) == Class(t, q);
      ClassMember(s, q);
      ClassMember(t, q);
    }
  }

  /** Every stable sort by the comparison yields this list. */
  lemma StableSortUnique(s: seq<Config>, t: seq<Config>)
    requires AllFit(s)
    ensures t == StableSorted(s) <==> Descending(t) && SameClasses(t, s)
  {
    StableSortedDescends(s);
    forall q ensures Class(StableSorted(s), q) == Class(s, q) {
      StableSortedKeepsClasses(s, q);
    }
    if Descending(t) && SameClasses(t, s) {
      assert SameClasses(t, StableSorted(s)) by {
        forall q ensures Class(t, q) == Class(StableSorted(s), q) {
          assert Class(t, q) == Class(s, q);
        }
      }
      DescendingUnique(t, StableSorted(s));
    }
  }

  // The inner loop: cell `i` sinks to its place among the sorted cells to its left.
  method Sink(configs: array<Config>, i: nat)
    requires i < configs.Length
    modifies configs
    ensures configs[..i + 1] == Insert(old(configs[..i]), old(configs[i])) && configs[i + 1..] == old(configs[i + 1..])
  {
    hide Before, Insert;
    ghost var sorted, c, rest := configs[..i], configs[i], configs[i + 1..];
    var j := i;
    while j > 0 && Before(configs[j], configs[j - 1])
      invariant 0 <= j <= i
      invariant configs[..j] == sorted[..j] && configs[j] == c
      invariant configs[j + 1..i + 1] == sorted[j..]
      invariant configs[i + 1..] == rest
      invariant forall k :: j <= k < i ==> Before(c, sorted[k])
    {
      ghost var moved := configs[j + 1..i + 1];
      assert configs[j - 1] == configs[..j][j - 1] == sorted[j - 1];
      configs[j], configs[j - 1] := configs[j - 1], configs[j];
      j := j - 1;
      assert configs[j + 2..i + 1] == moved;
    }
    InsertAt(sorted, c, j);
    assert configs[..i + 1] == configs[..j] + [configs[j]] + configs[j + 1..i + 1];
  }

  lemma {:induction false} InsertAt(s: seq<Config>, c: Config, j: nat)
    requires j <= |s| && (j > 0 ==> !Before(c, s[j - 1])) && forall k :: j <= k < |s| ==> Before(c, s[k])
    ensures Insert(s, c) == s[..j] + [c] + s[j..]
  {
    hide Before;
    if j < |s| {
      InsertAt(s[..|s| - 1], c, j);
    }
  }

  method SortServiceTargetConfigs(configs: array<Config>)
    modifies configs
    ensures configs[..] == StableSorted(old(configs[..]))
  {
    hide Before, Insert;
    ghost var before := configs[..];
    for i := 0 to configs.Length
      invariant configs[..i] == StableSorted(before[..i])
      invariant configs[i..] == before[i..]
    {
      ghost var sorted := configs[..i];
      assert before[..i + 1][..i] == before[..i] && configs[i] == before[i];
      Sink(configs, i);
      InsertLength(sorted, before[i]);
    }
    assert before[..configs.Length] == before;
  }

  lemma {:induction false} InsertLength(s: seq<Config>, c: Config)
    ensures |Insert(s, c)| == |s| + 1
  {
    if s != [] {
      InsertLength(s[..|s| - 1], c);
    }
  }

  // A best config; among several, the first in the list.
  ghost predicate FirstBest(s: seq<Config>, w: Config) {
    && w in s
    && (forall c :: c in s ==> Quotient(c) <= Quotient(w))
    && Class(s, Quotient(w)) != [] && Class(s, Quotient(w))[0] == w
  }

  lemma {:induction false} ClassHead(s: seq<Config>)
    requires s != [] && Descending(s)
    ensures Class(s, Quotient(s[0])) != [] && Class(s, Quotient(s[0]))[0] == s[0]
  {
    if |s| > 1 {
      ClassHead(s[..|s| - 1]);
    } else {
      assert Class(s[..0], Quotient(s[0])) == [];
    }
  }

  lemma HeadIsFirstBest(s: seq<Config>)
    requires s != [] && AllFit(s)
    ensures StableSorted(s) != [] && FirstBest(s, StableSorted(s)[0])
  {
    var t := StableSorted(s);
    StableSortedPermutes(s);
    assert |multiset(t)| == |multiset(s)|;
    StableSortedDescends(s);
    StableSortedKeepsClasses(s, Quotient(t[0]));
    ClassHead(t);
    forall c | c in s ensures c in t {
      assert c in multiset(t);
    }
    assert t[0] in multiset(s);
  }

  method PickServiceTargetConfig(configs: array<Config>) returns (r: Result<Config, SchedulingError>)
    modifies configs
    ensures multiset(configs[..]) == multiset(old(configs[..]))
    ensures if configs.Length == 0 then r == Err(NoTargetAvailable)
            else
              && r.Ok? && r.value in old(configs[..])
              && (AllFit(old(configs[..])) ==> FirstBest(old(configs[..]), r.value))
  {
    if configs.Length == 0 {
      return Err(NoTargetAvailable);
    }
    SortServiceTargetConfigs(configs);
    ghost var before := old(configs[..]);
    StableSortedPermutes(before);
    assert configs[0] in multiset(before);
    if AllFit(before) {
      HeadIsFirstBest(before);
    }
    return Ok(configs[0]);
  }
}
