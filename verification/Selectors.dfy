// The selector language of scheduling rules: its evaluation, what it means, and when evaluation fails.
module Selectors {
  import opened Common
  import opened Targets

  datatype LabelSelector = LabelSelector(name: string, value: string)

  // A list may be missing or present, and a present list may be empty; a selector has at most one operand of `not`.
  datatype Terms = NoTerms | Terms(items: seq<Selector>)
  datatype Operand = NoOperand | Operand(selector: Selector)
  datatype Selector = Selector(
    matchTenant: Option<string>,
    matchLabel: Option<LabelSelector>,
    or: Terms,
    and: Terms,
    not: Operand)

  type Verdict = Result<bool, SchedulingError>

  function One(present: bool): nat {
    if present then 1 else 0
  }

  function Conditions(s: Selector): nat {
    One(s.matchTenant.Some?) + One(s.matchLabel.Some?) + One(s.or.Terms?) + One(s.and.Terms?) + One(s.not.Operand?)
  }

  function HasLabel(d: Deployment, l: LabelSelector): bool {
    l.name in d.labels && d.labels[l.name] == l.value
  }

  // ---- Evaluation as the code does it: left to right, stopping at the first decision or error ----

  function Evaluate(s: Selector, d: Deployment): Verdict
    decreases s, 1
  {
    if Conditions(s) != 1 then Err(NotOneCondition)
    else if s.matchTenant.Some? then Ok(s.matchTenant.value == d.tenantId)
    else if s.matchLabel.Some? then Ok(HasLabel(d, s.matchLabel.value))
    else if s.or.Terms? && s.or.items != [] then EvaluateOr(s.or.items, d)
    else if s.and.Terms? && s.and.items != [] then EvaluateAnd(s.and.items, d)
    else if s.not.Operand? then Negated(Evaluate(s.not.selector, d))
    else Err(EmptySelector)
  }

  function EvaluateOr(items: seq<Selector>, d: Deployment): Verdict
    decreases items, 0
  {
    if items == [] then Ok(false)
    else
      var first := Evaluate(items[0], d);
      if first == Ok(false) then EvaluateOr(items[1..], d) else first
  }

  function EvaluateAnd(items: seq<Selector>, d: Deployment): Verdict
    decreases items, 0
  {
    if items == [] then Ok(true)
    else
      var first := Evaluate(items[0], d);
      if first == Ok(true) then EvaluateAnd(items[1..], d) else first
  }

  function Negated(v: Verdict): Verdict {
    match v
    case Ok(b) => Ok(!b)
    case Err(_) => v
  }

  method EvaluateSelector(s: Selector, d: Deployment) returns (v: Verdict)
    ensures v == Evaluate(s, d)
    decreases s, 1
  {
    var count := CountConditions(s);
    if count != 1 {
      return Err(NotOneCondition);
    }
    if s.matchTenant.Some? {
      v := Ok(s.matchTenant.value == d.tenantId);
    } else if s.matchLabel.Some? {
      v := Ok(HasLabel(d, s.matchLabel.value));
    } else if s.or.Terms? && |s.or.items| > 0 {
      v := EvaluateOrTerms(s.or.items, d);
    } else if s.and.Terms? && |s.and.items| > 0 {
      v := EvaluateAndTerms(s.and.items, d);
    } else if s.not.Operand? {
      v := EvaluateSelector(s.not.selector, d);
      if v.Ok? {
        v := Ok(!v.value);
      }
    } else {
      v := Err(EmptySelector);
    }
  }

  method CountConditions(s: Selector) returns (count: nat)
    ensures count == Conditions(s)
  {
    count := 0;
    if s.matchTenant.Some? { count := count + 1; }
    if s.matchLabel.Some? { count := count + 1; }
    if s.or.Terms? { count := count + 1; }
    if s.and.Terms? { count := count + 1; }
    if s.not.Operand? { count := count + 1; }
  }

  method EvaluateOrTerms(items: seq<Selector>, d: Deployment) returns (v: Verdict)
    ensures v == EvaluateOr(items, d)
    decreases items, 0
  {
    for i := 0 to |items|
      invariant EvaluateOr(items, d) == EvaluateOr(items[i..], d)
    {
      v := EvaluateSelector(items[i], d);
      if v.Err? || v.value {
        return;
      }
    }
    return Ok(false);
  }

  method EvaluateAndTerms(items: seq<Selector>, d: Deployment) returns (v: Verdict)
    ensures v == EvaluateAnd(items, d)
    decreases items, 0
  {
    for i := 0 to |items|
      invariant EvaluateAnd(items, d) == EvaluateAnd(items[i..], d)
    {
      v := EvaluateSelector(items[i], d);
      if v.Err? || !v.value {
        return;
      }
    }
    return Ok(true);
  }

  // ---- What a selector means ----

  predicate Denotes(s: Selector, d: Deployment) {
    if s.matchTenant.Some? then s.matchTenant.value == d.tenantId
    else if s.matchLabel.Some? then (s.matchLabel.value.name, s.matchLabel.value.value) in d.labels.Items
    else if s.or.Terms? then exists i :: 0 <= i < |s.or.items| && Denotes(s.or.items[i], d)
    else if s.and.Terms? then forall i :: 0 <= i < |s.and.items| ==> Denotes(s.and.items[i], d)
    else s.not.Operand? && !Denotes(s.not.selector, d)
  }

  // Evaluation reaches an ill-formed selector: itself, or a term that no earlier term makes superfluous.
  predicate Stuck(s: Selector, d: Deployment) {
    || Conditions(s) != 1
    || s.or == Terms([]) || s.and == Terms([])
    || (s.or.Terms? && exists i :: 0 <= i < |s.or.items| && Stuck(s.or.items[i], d) &&
                         forall j :: 0 <= j < i ==> !Stuck(s.or.items[j], d) && !Denotes(s.or.items[j], d))
    || (s.and.Terms? && exists i :: 0 <= i < |s.and.items| && Stuck(s.and.items[i], d) &&
                          forall j :: 0 <= j < i ==> !Stuck(s.and.items[j], d) && Denotes(s.and.items[j], d))
    || (s.not.Operand? && Stuck(s.not.selector, d))
  }

  // ---- Evaluation is exactly the meaning, where it does not get stuck ----

  ghost predicate Agrees(v: Verdict, stuck: bool, meaning: bool) {
    if stuck then v.Err? else v == Ok(meaning)
  }

  ghost predicate FirstStuck(items: seq<Selector>, d: Deployment, passing: bool) {
    exists i :: 0 <= i < |items| && Stuck(items[i], d) &&
      forall j :: 0 <= j < i ==> !Stuck(items[j], d) && Denotes(items[j], d) == passing
  }

  lemma FirstStuckStep(items: seq<Selector>, d: Deployment, passing: bool)
    requires items != []
    ensures FirstStuck(items, d, passing) <==>
              Stuck(items[0], d) || (Denotes(items[0], d) == passing && FirstStuck(items[1..], d, passing))
  {
    hide Stuck, Denotes;
    var rest := items[1..];
    assert forall j :: 0 <= j < |rest| ==> rest[j] == items[j + 1];
    if FirstStuck(items, d, passing) && !Stuck(items[0], d) {
      var i :| 0 <= i < |items| && Stuck(items[i], d) && forall j :: 0 <= j < i ==>
        !Stuck(items[j], d) && Denotes(items[j], d) == passing;
      assert rest[i - 1] == items[i];
    }
    if Denotes(items[0], d) == passing && !Stuck(items[0], d) && FirstStuck(rest, d, passing) {
      var i :| 0 <= i < |rest| && Stuck(rest[i], d) && forall j :: 0 <= j < i ==>
        !Stuck(rest[j], d) && Denotes(rest[j], d) == passing;
      assert items[i + 1] == rest[i];
      assert forall j :: 1 <= j < i + 1 ==> items[j] == rest[j - 1];
    }
  }

  /** Evaluation fails exactly if it gets stuck, and otherwise yields the meaning of the selector. */
  lemma {:induction false} EvaluateIsMeaning(s: Selector, d: Deployment)
    ensures Agrees(Evaluate(s, d), Stuck(s, d), Denotes(s, d))
    decreases s, 1
  {
    if Conditions(s) == 1 {
      if s.or.Terms? {
        OrIsMeaning(s.or.items, d);
      } else if s.and.Terms? {
        AndIsMeaning(s.and.items, d);
      } else if s.not.Operand? {
        EvaluateIsMeaning(s.not.selector, d);
      }
    }
  }

  lemma {:induction false} OrIsMeaning(items: seq<Selector>, d: Deployment)
    ensures Agrees(EvaluateOr(items, d), FirstStuck(items, d, false),
                   exists i :: 0 <= i < |items| && Denotes(items[i], d))
    decreases items, 0
  {
    if items != [] {
      EvaluateIsMeaning(items[0], d);
      OrIsMeaning(items[1..], d);
      FirstStuckStep(items, d, false);
      assert forall i :: 1 <= i < |items| ==> items[i] == items[1..][i - 1];
    }
  }

  lemma {:induction false} AndIsMeaning(items: seq<Selector>, d: Deployment)
    ensures Agrees(EvaluateAnd(items, d), FirstStuck(items, d, true),
                   forall i :: 0 <= i < |items| ==> Denotes(items[i], d))
    decreases items, 0
  {
    if items != [] {
      EvaluateIsMeaning(items[0], d);
      AndIsMeaning(items[1..], d);
      FirstStuckStep(items, d, true);
      assert forall i :: 1 <= i < |items| ==> items[i] == items[1..][i - 1];
    }
  }

  // Every selector in the tree has one condition and no list is empty.
  predicate WellFormed(s: Selector) {
    && Conditions(s) == 1
    && s.or != Terms([]) && s.and != Terms([])
    && (s.or.Terms? ==> forall i :: 0 <= i < |s.or.items| ==> WellFormed(s.or.items[i]))
    && (s.and.Terms? ==> forall i :: 0 <= i < |s.and.items| ==> WellFormed(s.and.items[i]))
    && (s.not.Operand? ==> WellFormed(s.not.selector))
  }

  lemma {:induction false} WellFormedIsNotStuck(s: Selector, d: Deployment)
    requires WellFormed(s)
    ensures !Stuck(s, d)
  {
    if s.or.Terms? {
      forall i | 0 <= i < |s.or.items| ensures !Stuck(s.or.items[i], d) {
        WellFormedIsNotStuck(s.or.items[i], d);
      }
    } else if s.and.Terms? {
      forall i | 0 <= i < |s.and.items| ensures !Stuck(s.and.items[i], d) {
        WellFormedIsNotStuck(s.and.items[i], d);
      }
    } else if s.not.Operand? {
      WellFormedIsNotStuck(s.not.selector, d);
    }
  }

  /** A well-formed selector evaluates to its meaning for every deployment: short-circuiting loses nothing. */
  lemma WellFormedEvaluates(s: Selector, d: Deployment)
    requires WellFormed(s)
    ensures Evaluate(s, d) == Ok(Denotes(s, d))
  {
    WellFormedIsNotStuck(s, d);
    EvaluateIsMeaning(s, d);
  }

  // ---- Rewriting ----

  function Or(items: seq<Selector>): Selector { Selector(None, None, Terms(items), NoTerms, NoOperand) }
  function And(items: seq<Selector>): Selector { Selector(None, None, NoTerms, Terms(items), NoOperand) }
  function Not(s: Selector): Selector { Selector(None, None, NoTerms, NoTerms, Operand(s)) }

  function Tenant(id: string): Selector { Selector(Some(id), None, NoTerms, NoTerms, NoOperand) }
  function Label(name: string, value: string): Selector {
    Selector(None, Some(LabelSelector(name, value)), NoTerms, NoTerms, NoOperand)
  }

  // A selector has one of five forms.
  ghost predicate HasForm(s: Selector) {
    || (exists id :: s == Tenant(id))
    || (exists name, value :: s == Label(name, value))
    || (exists items :: s == Or(items))
    || (exists items :: s == And(items))
    || (exists t :: s == Not(t))
  }

  /** What is refused at once is exactly what has none of the forms; a selector for a tenant or a label compares with
      the deployment, and only an empty list is an empty selector. */
  lemma FormsEvaluate(s: Selector, d: Deployment)
    ensures !HasForm(s) <==> Evaluate(s, d) == Err(NotOneCondition) && Conditions(s) != 1
    ensures !HasForm(s) ==> Evaluate(s, d) == Err(NotOneCondition)
    ensures forall id :: s == Tenant(id) ==> (Evaluate(s, d) == Ok(true) <==> id == d.tenantId) && Evaluate(s, d).Ok?
    ensures forall name, value :: s == Label(name, value) ==>
      && Evaluate(s, d).Ok?
      && (Evaluate(s, d) == Ok(true) <==> name in d.labels && d.labels[name] == value)
    ensures s == Or([]) || s == And([]) ==> Evaluate(s, d) == Err(EmptySelector)
  {
    if s.matchTenant.Some? && Conditions(s) == 1 {
      assert s == Tenant(s.matchTenant.value);
    } else if s.matchLabel.Some? && Conditions(s) == 1 {
      assert s == Label(s.matchLabel.value.name, s.matchLabel.value.value);
    } else if s.or.Terms? && Conditions(s) == 1 {
      assert s == Or(s.or.items);
    } else if s.and.Terms? && Conditions(s) == 1 {
      assert s == And(s.and.items);
    } else if s.not.Operand? && Conditions(s) == 1 {
      assert s == Not(s.not.selector);
    }
  }

  function AllNot(items: seq<Selector>): (r: seq<Selector>)
    ensures |r| == |items|
  {
    if items == [] then [] else [Not(items[0])] + AllNot(items[1..])
  }

  /** De Morgan's laws hold for every list, for errors as well as for values. */
  lemma {:induction false} DeMorgan(items: seq<Selector>, d: Deployment)
    ensures Evaluate(Not(Or(items)), d) == Evaluate(And(AllNot(items)), d)
    ensures Evaluate(Not(And(items)), d) == Evaluate(Or(AllNot(items)), d)
  {
    DeMorganTerms(items, d);
  }

  lemma {:induction false} DeMorganTerms(items: seq<Selector>, d: Deployment)
    ensures Negated(EvaluateOr(items, d)) == EvaluateAnd(AllNot(items), d)
    ensures Negated(EvaluateAnd(items, d)) == EvaluateOr(AllNot(items), d)
  {
    if items != [] {
      DeMorganTerms(items[1..], d);
      var nots := AllNot(items);
      assert nots[0] == Not(items[0]) && nots[1..] == AllNot(items[1..]);
      assert Evaluate(nots[0], d) == Negated(Evaluate(items[0], d));
    }
  }

  /** Two negations cancel out, for errors as well as for values. */
  lemma DoubleNegation(s: Selector, d: Deployment)
    ensures Evaluate(Not(Not(s)), d) == Evaluate(s, d)
  {
    assert Evaluate(Not(s), d) == Negated(Evaluate(s, d));
  }
}
