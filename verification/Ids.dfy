// The search for the ID of a new Instance.
module Ids {
  import opened Common

  const ID_LENGTH: nat := 8

  // NewUniqueID: at most the first 8 characters of a generated identifier.
  function Truncated(id: string): string {
    if |id| > ID_LENGTH then id[..ID_LENGTH] else id
  }

  // `id` is the beginning of the identifier, with eight characters or all there are.
  predicate Shortens(drawn: string, id: string) {
    id <= drawn && |id| == if |drawn| < 8 then |drawn| else 8
  }

  // The identifiers that the generator returns, one after the other.
  type Draws = nat -> string

  // `k` is the first draw that gives an unused ID.
  predicate FirstUnused(existing: seq<string>, draws: Draws, k: nat) {
    Truncated(draws(k)) !in existing && forall j :: 0 <= j < k ==> Truncated(draws(j)) in existing
  }

  // The first |existing| + 1 draws are distinct when truncated.
  predicate Distinct(existing: seq<string>, draws: Draws) {
    forall i, j :: 0 <= i < j <= |existing| ==> Truncated(draws(i)) != Truncated(draws(j))
  }

  ghost predicate HasUnused(existing: seq<string>, draws: Draws) {
    exists k: nat :: Truncated(draws(k)) !in existing
  }

  /** The search takes the first unused ID; it ends at all only if there is one, and then after at most one draw more
      than there are Instances if the draws are distinct. */
  method FindUnusedId(existing: seq<string>, draws: Draws) returns (id: string, drawn: nat)
    requires HasUnused(existing, draws)
    ensures drawn > 0 && FirstUnused(existing, draws, drawn - 1) && id == Truncated(draws(drawn - 1))
    ensures id !in existing && Shortens(draws(drawn - 1), id)
    ensures Distinct(existing, draws) ==> drawn <= |existing| + 1
  {
    var existingIds := {};
    for i := 0 to |existing|
      invariant forall x :: x in existingIds <==> x in existing[..i]
    {
      existingIds := existingIds + {existing[i]};
    }
    assert existing[..|existing|] == existing;
    ghost var unused: nat :| Truncated(draws(unused)) !in existing;
    id := Truncated(draws(0));
    drawn := 1;
    while id in existingIds
      invariant drawn > 0 && id == Truncated(draws(drawn - 1))
      invariant forall j :: 0 <= j < drawn - 1 ==> Truncated(draws(j)) in existing
      invariant drawn - 1 <= unused
      decreases unused - drawn
    {
      id := Truncated(draws(drawn));
      drawn := drawn + 1;
    }
    if Distinct(existing, draws) {
      DistinctDrawsSuffice(existing, draws);
    }
  }

  /** If the first |existing| + 1 draws are still distinct when truncated, one of them is unused. */
  lemma DistinctDrawsSuffice(existing: seq<string>, draws: Draws)
    requires Distinct(existing, draws)
    ensures exists k :: 0 <= k <= |existing| && FirstUnused(existing, draws, k)
  {
    var ids := seq(|existing| + 1, i requires i >= 0 => Truncated(draws(i)));
    var k := SomeIsMissing(existing, ids);
    LeastUnused(existing, draws, k);
  }

  lemma {:induction false} LeastUnused(existing: seq<string>, draws: Draws, k: nat)
    requires Truncated(draws(k)) !in existing
    ensures exists j :: 0 <= j <= k && FirstUnused(existing, draws, j)
  {
    if j :| 0 <= j < k && Truncated(draws(j)) !in existing {
      LeastUnused(existing, draws, j);
    } else {
      assert FirstUnused(existing, draws, k);
    }
  }

  // More distinct values than there are elements of `existing`: one of them is not among these.
  lemma {:induction false} SomeIsMissing(existing: seq<string>, ids: seq<string>) returns (k: nat)
    requires |ids| == |existing| + 1 && NoDuplicates(ids)
    ensures k < |ids| && ids[k] !in existing
  {
    var last := |existing|;
    if ids[last] !in existing {
      k := last;
    } else {
      var at :| 0 <= at < |existing| && existing[at] == ids[last];
      var fewer := existing[..at] + existing[at + 1..];
      k := SomeIsMissing(fewer, ids[..last]);
      assert forall p :: 0 <= p < |existing| && p != at ==> existing[p] == fewer[if p < at then p else p - 1];
    }
  }
}
