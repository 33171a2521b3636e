// The comparison of Installation specs that decides whether an Installation has to be reconciled.
module InstallationSpecs {
  import opened Common

  const OPERATION := "landscaper.gardener.cloud/operation"
  const RECONCILE := "reconcile"

  // The import data mappings are raw JSON texts; `rest` stands for all other fields.
  datatype Spec<R> = Spec(mappings: map<string, string>, rest: R)

  // Parsing of a raw JSON text to a value.
  type Parse<J> = string -> Option<J>

  class InstallationSpec<R(==)> {
    var importDataMappings: map<string, string>
    var rest: R

    // DeepCopy
    constructor (spec: Spec<R>)
      ensures Value() == spec
    {
      importDataMappings, rest := spec.mappings, spec.rest;
    }

    function Value(): Spec<R>
      reads this
    {
      Spec(importDataMappings, rest)
    }
  }

  // All mappings can be parsed.
  predicate Parsable<J, R>(parse: Parse<J>, a: Spec<R>) {
    forall k :: k in a.mappings ==> parse(a.mappings[k]).Some?
  }

  predicate SameMappings<J(==), R>(parse: Parse<J>, a: Spec<R>, b: Spec<R>) {
    && a.mappings.Keys == b.mappings.Keys
    && Parsable(parse, a) && Parsable(parse, b)
    && forall k :: k in a.mappings ==> parse(a.mappings[k]) == parse(b.mappings[k])
  }

  predicate SpecsEqual<J(==), R(==)>(parse: Parse<J>, a: Spec<R>, b: Spec<R>) {
    SameMappings(parse, a, b) && a.rest == b.rest
  }

  // Both arguments lose their mappings if these are equal.
  method InstallationSpecDeepEquals<J(==), R(==)>(
      parse: Parse<J>, specA: InstallationSpec<R>, specB: InstallationSpec<R>)
    returns (equal: bool)
    modifies specA, specB
    ensures equal == SpecsEqual(parse, old(specA.Value()), old(specB.Value()))
    ensures forall spec <- {specA, specB} ::
      spec.Value() == if SameMappings(parse, old(specA.Value()), old(specB.Value())) then
        old(spec.Value()).(mappings := map[]) else old(spec.Value())
  {
    if |specA.importDataMappings| != |specB.importDataMappings| {
      return false;
    }
    var keys := specA.importDataMappings.Keys;
    while keys != {}
      invariant keys <= specA.importDataMappings.Keys
      invariant forall k :: k in specA.importDataMappings && k !in keys ==>
        && k in specB.importDataMappings
        && parse(specA.importDataMappings[k]).Some?
        && parse(specA.importDataMappings[k]) == parse(specB.importDataMappings[k])
      decreases keys
    {
      var k :| k in keys;
      keys := keys - {k};
      if k !in specB.importDataMappings {
        return false;
      }
      var importDataMappingA := parse(specA.importDataMappings[k]);
      if importDataMappingA.None? {
        return false;
      }
      var importDataMappingB := parse(specB.importDataMappings[k]);
      if importDataMappingB.None? || importDataMappingA != importDataMappingB {
        return false;
      }
    }
    SubsetOfSameSize(specA.importDataMappings.Keys, specB.importDataMappings.Keys);
    specA.importDataMappings := map[];
    specB.importDataMappings := map[];
    return specA.rest == specB.rest;
  }

  lemma SubsetOfSameSize<T>(a: set<T>, b: set<T>)
    requires a <= b && |a| == |b|
    ensures a == b
  {
    assert |b - a| == |b| - |a|;
  }

  // ---- The comparison is that of the parsed values ----

  // A spec with its mappings parsed.
  function Parsed<J, R>(parse: Parse<J>, a: Spec<R>): Option<(map<string, J>, R)> {
    if Parsable(parse, a) then Some((map k | k in a.mappings :: parse(a.mappings[k]).value, a.rest)) else None
  }

  /** Two specs are equal exactly if both can be parsed, to the same values. */
  lemma EqualIffParsedEqual<J, R>(parse: Parse<J>, a: Spec<R>, b: Spec<R>)
    ensures SpecsEqual(parse, a, b) <==> Parsed(parse, a).Some? && Parsed(parse, a) == Parsed(parse, b)
  {
    if Parsable(parse, a) && Parsable(parse, b) {
      var m := map k | k in a.mappings :: parse(a.mappings[k]).value;
      var n := map k | k in b.mappings :: parse(b.mappings[k]).value;
      assert m.Keys == a.mappings.Keys && n.Keys == b.mappings.Keys;
      if m == n {
        assert forall k :: k in a.mappings ==> m[k] == n[k];
      }
    }
  }

  /** The comparison is symmetric and transitive, and a spec is equal to itself exactly if it can be parsed. */
  lemma EqualityIsPartialEquivalence<J, R>(parse: Parse<J>, a: Spec<R>, b: Spec<R>, c: Spec<R>)
    ensures SpecsEqual(parse, a, a) <==> Parsable(parse, a)
    ensures SpecsEqual(parse, a, b) <==> SpecsEqual(parse, b, a)
    ensures SpecsEqual(parse, a, b) && SpecsEqual(parse, b, c) ==> SpecsEqual(parse, a, c)
  {
    hide SpecsEqual, Parsable;
    EqualIffParsedEqual(parse, a, a);
    EqualIffParsedEqual(parse, a, b);
    EqualIffParsedEqual(parse, b, a);
    EqualIffParsedEqual(parse, b, c);
    EqualIffParsedEqual(parse, a, c);
  }

  // ---- The end of mutateInstallation ----

  type Annotations = map<string, string>

  // The annotations after a reconcile: marked if the specs differ.
  function Annotated<J(==), R(==)>(parse: Parse<J>, stored: Spec<R>, annotations: Annotations,
      desired: Spec<R>): Annotations {
    if SpecsEqual(parse, stored, desired) then annotations else annotations[OPERATION := RECONCILE]
  }

  class Installation<R(==)> {
    var spec: Spec<R>
    var annotations: Annotations

    constructor (spec: Spec<R>, annotations: Annotations)
      ensures this.spec == spec && this.annotations == annotations
    {
      this.spec, this.annotations := spec, annotations;
    }

    // `desired` is the spec that the fields of the Instance are copied to.
    method Mutate<J(==)>(parse: Parse<J>, desired: Spec<R>)
      modifies this
      ensures spec == desired
      ensures annotations == Annotated(parse, old(spec), old(annotations), desired)
    {
      var oldInstallationSpec := new InstallationSpec(spec);
      spec := desired;
      var newInstallationSpec := new InstallationSpec(spec);
      var equal := InstallationSpecDeepEquals(parse, oldInstallationSpec, newInstallationSpec);
      if !equal {
        annotations := annotations[OPERATION := RECONCILE];
      }
    }
  }

  // One reconcile and what follows it: the desired spec, the annotations before and after the reconcile, and the spec
  // as it is stored then.
  datatype Round<R> = Round(desired: Spec<R>, before: Annotations, after: Annotations, stored: Spec<R>)

  // A run of reconciles. The API server may store each spec in another encoding of the same values, and between two
  // reconciles the Landscaper may remove the annotation, but does not set it.
  ghost predicate Reconciles<J(!new), R(!new)>(parse: Parse<J>, rounds: seq<Round<R>>) {
    && (forall i :: 0 <= i < |rounds| ==> SpecsEqual(parse, rounds[i].stored, rounds[i].desired))
    && (forall i :: 0 < i < |rounds| ==>
          && rounds[i].after == Annotated(parse, rounds[i - 1].stored, rounds[i].before, rounds[i].desired)
          && (OPERATION in rounds[i].before ==> OPERATION in rounds[i - 1].after))
  }

  /** A reconcile that finds the annotation removed sets it again exactly if the parsed values differ from those of the
      reconcile before. */
  lemma AnnotatedIffChanged<J(!new), R(!new)>(parse: Parse<J>, rounds: seq<Round<R>>, i: nat)
    requires Reconciles(parse, rounds) && 0 < i < |rounds| && OPERATION !in rounds[i].before
    ensures OPERATION in rounds[i].after <==> Parsed(parse, rounds[i - 1].desired) != Parsed(parse, rounds[i].desired)
    ensures OPERATION in rounds[i].after ==> rounds[i].after[OPERATION] == RECONCILE
  {
    hide SpecsEqual, Parsed;
    EqualIffParsedEqual(parse, rounds[i - 1].stored, rounds[i - 1].desired);
    EqualIffParsedEqual(parse, rounds[i - 1].stored, rounds[i].desired);
    EqualIffParsedEqual(parse, rounds[i].stored, rounds[i].desired);
  }

  /** While the desired values stay the same, the annotation never comes back once it has been removed. */
  lemma {:induction false} NeverAnnotatedAgain<J(!new), R(!new)>(parse: Parse<J>, rounds: seq<Round<R>>, i: nat, j: nat)
    requires Reconciles(parse, rounds) && 0 < i <= j < |rounds| && OPERATION !in rounds[i].before
    requires forall k :: i <= k <= j ==> Parsed(parse, rounds[k - 1].desired) == Parsed(parse, rounds[k].desired)
    ensures OPERATION !in rounds[j].after
  {
    hide Parsed, Annotated, SpecsEqual;
    if i < j {
      NeverAnnotatedAgain(parse, rounds, i, j - 1);
    }
    AnnotatedIffChanged(parse, rounds, j);
  }
}
