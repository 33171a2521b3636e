// Lists of object references, as in pkg/utils/utils.go.
module References {
  import opened Common

  /** The value that remains when the first occurrence of `ref` is overwritten by the last element
      and the list is shortened by one; a list without `ref` stays as it is. */
  function Removed(refs: seq<ObjectReference>, ref: ObjectReference): (r: seq<ObjectReference>) {
    RemovedFrom(refs, ref, 0)
  }

  function RemovedFrom(refs: seq<ObjectReference>, ref: ObjectReference, i: nat): (r: seq<ObjectReference>)
    requires i <= |refs|
    decreases |refs| - i
  {
    if i == |refs| then refs
    else if refs[i] == ref then refs[i := refs[|refs| - 1]][..|refs| - 1]
    else RemovedFrom(refs, ref, i + 1)
  }

  /** Overwriting cell `i` by the last one and dropping the last one removes one occurrence of cell `i`. */
  lemma SwapRemoveMultiset(refs: seq<ObjectReference>, i: nat)
    requires i < |refs|
    ensures multiset(refs[i := refs[|refs| - 1]][..|refs| - 1]) == multiset(refs) - multiset{refs[i]}
  {
    var last := |refs| - 1;
    var swapped := refs[i := refs[last]];
    assert refs == refs[..last] + [refs[last]];
    assert swapped == swapped[..last] + [refs[last]];
    assert multiset(swapped) == multiset(refs) - multiset{refs[i]} + multiset{refs[last]};
  }

  /** Exactly one occurrence disappears, everything else keeps its multiplicity. */
  lemma {:induction false} RemovedMultiset(refs: seq<ObjectReference>, ref: ObjectReference, i: nat := 0)
    requires i <= |refs|
    requires ref !in refs[..i]
    ensures multiset(RemovedFrom(refs, ref, i)) == multiset(refs) - multiset{ref}
    decreases |refs| - i
  {
    if i == |refs| {
      assert refs[..i] == refs;
    } else if refs[i] == ref {
      SwapRemoveMultiset(refs, i);
    } else {
      RemovedMultiset(refs, ref, i + 1);
    }
  }

  /** On a duplicate free list, removal is set difference and keeps the list duplicate free. */
  lemma {:induction false} RemovedOfDistinct(refs: seq<ObjectReference>, ref: ObjectReference, i: nat := 0)
    requires NoDuplicates(refs)
    requires i <= |refs|
    requires ref !in refs[..i]
    ensures NoDuplicates(RemovedFrom(refs, ref, i))
    ensures forall r :: r in RemovedFrom(refs, ref, i) <==> r in refs && r != ref
    decreases |refs| - i
  {
    if i == |refs| {
      assert refs[..i] == refs;
    } else if refs[i] == ref {
      var last := |refs| - 1;
      var after := refs[i := refs[last]][..last];
      forall r | r in refs && r != ref ensures r in after {
        var k :| 0 <= k < |refs| && refs[k] == r;
        assert after[if k == last then i else k] == r;
      }
    } else {
      RemovedOfDistinct(refs, ref, i + 1);
    }
  }

  method ContainsReference(refs: seq<ObjectReference>, ref: ObjectReference) returns (found: bool)
    ensures found <==> ref in refs
  {
    for i := 0 to |refs|
      invariant ref !in refs[..i]
    {
      if refs[i] == ref {
        return true;
      }
    }
    return false;
  }

  /** The slice is the first `length` cells of `cells`; the returned length is that of the slice
      that the caller goes on with. Cells are overwritten in place. */
  method RemoveReference(cells: array<ObjectReference>, length: nat, ref: ObjectReference) returns (remaining: nat)
    requires length <= cells.Length
    modifies cells
    ensures remaining <= length
    ensures cells[..remaining] == Removed(old(cells[..length]), ref)
    ensures cells[length..] == old(cells[length..])
  {
    ghost var before := cells[..length];
    remaining := length;
    for i := 0 to length
      invariant cells[..] == old(cells[..])
      invariant RemovedFrom(before, ref, i) == Removed(before, ref)
    {
      if cells[i] == ref {
        cells[i] := cells[length - 1];
        remaining := length - 1;
        assert cells[..remaining] == before[i := before[length - 1]][..length - 1];
        return;
      }
    }
  }
}
