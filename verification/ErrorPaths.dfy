// What the paths of admission errors point to.
module ErrorPaths {
  import opened Common
  import opened Targets
  import opened Selectors
  import opened TargetValidation

  // A part of a TargetScheduling object.
  datatype Part =
    | Rules(rules: seq<Rule>)
    | OneRule(rule: Rule)
    | Number(n: int)
    | Text(text: string)
    | References(refs: seq<ObjectReference>)
    | Reference(ref: ObjectReference)
    | Selectors(items: seq<Selector>)
    | OneSelector(s: Selector)
    | Tenants(id: string)
    | Labels(l: LabelSelector)

  // The part that a step of a path leads to: an element of a list, or the field of that name.
  function Enter(part: Part, step: Step): Option<Part> {
    match part
    case Rules(rules) => if step.Index? && step.i < |rules| then Some(OneRule(rules[step.i])) else None
    case OneRule(r) =>
      if step == Child("priority") then Some(Number(r.priority))
      else if step == Child("serviceTargetConfigs") then Some(References(r.targets))
      else if step == Child("selector") then Some(Selectors(r.selector))
      else None
    case References(refs) => if step.Index? && step.i < |refs| then Some(Reference(refs[step.i])) else None
    case Reference(ref) =>
      if step == Child("name") then Some(Text(ref.name))
      else if step == Child("namespace") then Some(Text(ref.namespace))
      else None
    case Selectors(items) => if step.Index? && step.i < |items| then Some(OneSelector(items[step.i])) else None
    case OneSelector(s) =>
      if step == Child("matchTenant") && s.matchTenant.Some? then Some(Tenants(s.matchTenant.value))
      else if step == Child("matchLabel") && s.matchLabel.Some? then Some(Labels(s.matchLabel.value))
      else if step == Child("or") && s.or.Terms? then Some(Selectors(s.or.items))
      else if step == Child("and") && s.and.Terms? then Some(Selectors(s.and.items))
      else if step == Child("not") && s.not.Operand? then Some(OneSelector(s.not.selector))
      else None
    case Tenants(id) => if step == Child("id") then Some(Text(id)) else None
    case Labels(l) =>
      if step == Child("name") then Some(Text(l.name)) else if step == Child("value") then Some(Text(l.value)) else None
    case _ => None
  }

  function Locate(part: Part, path: Path): Option<Part>
    decreases |path|
  {
    if path == [] then Some(part)
    else match Enter(part, path[0])
      case None => None
      case Some(inner) => Locate(inner, path[1..])
  }

  // A text or a list that must not be empty; a number that must not be negative, or a selector without one of the
  // forms.
  ghost predicate Faulty(part: Part, e: FieldError) {
    match part
    case Text(text) => e.Required? && text == ""
    case References(refs) => e.Required? && refs == []
    case Number(n) => e.Invalid? && n < 0
    case OneSelector(s) => e.Invalid? && !HasForm(s)
    case _ => false
  }

  // After the prefix, the path of the error leads to a faulty part.
  ghost predicate Points(part: Part, prefix: Path, e: FieldError) {
    && prefix <= e.path
    && var found := Locate(part, e.path[|prefix|..]);
       found.Some? && Faulty(found.value, e)
  }

  ghost predicate AllPoint(part: Part, prefix: Path, errors: Errors) {
    forall e :: e in errors ==> Points(part, prefix, e)
  }

  lemma OneStepUp(part: Part, inner: Part, step: Step, prefix: Path, errors: Errors)
    requires Enter(part, step) == Some(inner) && AllPoint(inner, prefix + [step], errors)
    ensures AllPoint(part, prefix, errors)
  {
    hide Faulty, Enter;
    forall e | e in errors ensures Points(part, prefix, e) {
      assert e.path[|prefix|] == step;
      assert e.path[|prefix|..][1..] == e.path[|prefix| + 1..];
    }
  }

  lemma PointHere(part: Part, prefix: Path, e: FieldError)
    requires e.path == prefix && Faulty(part, e)
    ensures AllPoint(part, prefix, [e])
  {
    hide Faulty;
    assert e.path[|prefix|..] == [];
  }

  // A text that is missing.
  lemma TextPoints(part: Part, prefix: Path, step: Step, text: string)
    requires Enter(part, step) == Some(Text(text))
    ensures AllPoint(part, prefix, When(|text| == 0, Required(prefix + [step])))
  {
    if text == "" {
      PointHere(Text(text), prefix + [step], Required(prefix + [step]));
      OneStepUp(part, Text(text), step, prefix, [Required(prefix + [step])]);
    }
  }

  lemma {:induction false} SelectorErrorsPoint(s: Selector, prefix: Path)
    ensures AllPoint(OneSelector(s), prefix, SelectorErrors(s, prefix))
    decreases s, 1
  {
    hide Points, Conditions;
    var here := When(Conditions(s) != 1, Invalid(prefix));
    if Conditions(s) != 1 {
      NotOneHasNoForm(s);
      PointHere(OneSelector(s), prefix, Invalid(prefix));
    }
    if s.matchTenant.Some? {
      var at := Child("matchTenant");
      TextPoints(Tenants(s.matchTenant.value), prefix + [at], Child("id"), s.matchTenant.value);
      var errors := When(|s.matchTenant.value| == 0, Required(prefix + [at] + [Child("id")]));
      assert prefix + [at] + [Child("id")] == prefix + [at, Child("id")];
      OneStepUp(OneSelector(s), Tenants(s.matchTenant.value), at, prefix, errors);
      assert SelectorErrors(s, prefix) == here + errors;
    } else if s.matchLabel.Some? {
      LabelErrorsPoint(s, prefix);
      assert SelectorErrors(s, prefix) == here + LabelErrors(s.matchLabel.value, prefix);
    } else if s.and.Terms? {
      ListErrorsPoint(s.and.items, prefix + [Child("and")], |s.and.items|);
      OneStepUp(OneSelector(s), Selectors(s.and.items), Child("and"), prefix,
                SelectorListErrors(s.and.items, prefix + [Child("and")], |s.and.items|));
    } else if s.or.Terms? {
      ListErrorsPoint(s.or.items, prefix + [Child("or")], |s.or.items|);
      OneStepUp(OneSelector(s), Selectors(s.or.items), Child("or"), prefix,
                SelectorListErrors(s.or.items, prefix + [Child("or")], |s.or.items|));
    } else if s.not.Operand? {
      SelectorErrorsPoint(s.not.selector, prefix + [Child("not")]);
      OneStepUp(OneSelector(s), OneSelector(s.not.selector), Child("not"), prefix,
                SelectorErrors(s.not.selector, prefix + [Child("not")]));
    }
  }

  lemma NotOneHasNoForm(s: Selector)
    requires Conditions(s) != 1
    ensures !HasForm(s)
  {
  }

  function LabelErrors(l: LabelSelector, prefix: Path): Errors {
    When(|l.name| == 0, Required(prefix + [Child("matchLabel"), Child("name")])) +
    When(|l.value| == 0, Required(prefix + [Child("matchLabel"), Child("value")]))
  }

  lemma LabelErrorsPoint(s: Selector, prefix: Path)
    requires s.matchLabel.Some?
    ensures AllPoint(OneSelector(s), prefix, LabelErrors(s.matchLabel.value, prefix))
  {
    hide Points;
    var l, at := s.matchLabel.value, Child("matchLabel");
    assert prefix + [at] + [Child("name")] == prefix + [at, Child("name")];
    assert prefix + [at] + [Child("value")] == prefix + [at, Child("value")];
    TextPoints(Labels(l), prefix + [at], Child("name"), l.name);
    TextPoints(Labels(l), prefix + [at], Child("value"), l.value);
    OneStepUp(OneSelector(s), Labels(l), at, prefix, LabelErrors(l, prefix));
  }

  lemma {:induction false} ListErrorsPoint(items: seq<Selector>, prefix: Path, n: nat)
    requires n <= |items|
    ensures AllPoint(Selectors(items), prefix, SelectorListErrors(items, prefix, n))
    decreases items, 0, n
  {
    hide Points, SelectorErrors;
    if n > 0 {
      ListErrorsPoint(items, prefix, n - 1);
      SelectorErrorsPoint(items[n - 1], prefix + [Index(n - 1)]);
      OneStepUp(Selectors(items), OneSelector(items[n - 1]), Index(n - 1), prefix,
                SelectorErrors(items[n - 1], prefix + [Index(n - 1)]));
    }
  }

  lemma {:induction false} TargetErrorsPoint(targets: seq<ObjectReference>, prefix: Path, n: nat)
    requires n <= |targets|
    ensures AllPoint(References(targets), prefix, TargetErrors(targets, prefix, n))
  {
    hide Points;
    if n > 0 {
      TargetErrorsPoint(targets, prefix, n - 1);
      var target, at := targets[n - 1], Index(n - 1);
      TextPoints(Reference(target), prefix + [at], Child("name"), target.name);
      TextPoints(Reference(target), prefix + [at], Child("namespace"), target.namespace);
      assert prefix + [at] + [Child("name")] == prefix + [at, Child("name")];
      assert prefix + [at] + [Child("namespace")] == prefix + [at, Child("namespace")];
      OneStepUp(References(targets), Reference(target), at, prefix,
                When(|target.name| == 0, Required(prefix + [at, Child("name")])));
      OneStepUp(References(targets), Reference(target), at, prefix,
                When(|target.namespace| == 0, Required(prefix + [at, Child("namespace")])));
    }
  }

  lemma RuleErrorsPoint(r: Rule, prefix: Path)
    ensures AllPoint(OneRule(r), prefix, RuleErrors(r, prefix))
  {
    hide Points, SelectorListErrors, TargetErrors;
    if r.priority < 0 {
      PointHere(Number(r.priority), prefix + [Child("priority")], Invalid(prefix + [Child("priority")]));
      OneStepUp(OneRule(r), Number(r.priority), Child("priority"), prefix, [Invalid(prefix + [Child("priority")])]);
    }
    var targets := prefix + [Child("serviceTargetConfigs")];
    if r.targets == [] {
      PointHere(References(r.targets), targets, Required(targets));
      OneStepUp(OneRule(r), References(r.targets), Child("serviceTargetConfigs"), prefix, [Required(targets)]);
    }
    TargetErrorsPoint(r.targets, targets, |r.targets|);
    OneStepUp(OneRule(r), References(r.targets), Child("serviceTargetConfigs"), prefix,
              TargetErrors(r.targets, targets, |r.targets|));
    var selector := prefix + [Child("selector")];
    ListErrorsPoint(r.selector, selector, |r.selector|);
    OneStepUp(OneRule(r), Selectors(r.selector), Child("selector"), prefix,
              SelectorListErrors(r.selector, selector, |r.selector|));
  }

  /** Every admission error of a scheduling points to the part that is wrong: following its path through the rules leads
      to an empty text or list, a negative priority, or a selector that does not have exactly one condition. */
  lemma {:induction false} SchedulingErrorsPoint(rules: seq<Rule>, n: nat)
    requires n <= |rules|
    ensures AllPoint(Rules(rules), [Child("spec"), Child("rules")], SchedulingErrors(rules, n))
  {
    hide Points, RuleErrors;
    if n > 0 {
      var prefix := [Child("spec"), Child("rules")];
      SchedulingErrorsPoint(rules, n - 1);
      assert prefix + [Index(n - 1)] == [Child("spec"), Child("rules"), Index(n - 1)];
      RuleErrorsPoint(rules[n - 1], prefix + [Index(n - 1)]);
      OneStepUp(Rules(rules), OneRule(rules[n - 1]), Index(n - 1), prefix,
                RuleErrors(rules[n - 1], prefix + [Index(n - 1)]));
    }
  }
}
