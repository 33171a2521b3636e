// Admission of TargetScheduling objects.
module TargetValidation {
  import opened Common
  import opened Targets
  import opened Selectors

  datatype Rule = Rule(priority: Int64, targets: seq<ObjectReference>, selector: seq<Selector>)

  datatype Step = Child(name: string) | Index(i: nat)
  type Path = seq<Step>

  datatype FieldError = Invalid(path: Path) | Required(path: Path)
  type Errors = seq<FieldError>

  function When(missing: bool, e: FieldError): Errors {
    if missing then [e] else []
  }

  // ---- The errors of a selector, in the order in which they are collected ----

  function SelectorErrors(s: Selector, path: Path): (errors: Errors)
    decreases s, 1
  {
    When(Conditions(s) != 1, Invalid(path)) +
    if s.matchTenant.Some? then When(|s.matchTenant.value| == 0, Required(path + [Child("matchTenant"), Child("id")]))
    else if s.matchLabel.Some? then
      When(|s.matchLabel.value.name| == 0, Required(path + [Child("matchLabel"), Child("name")])) +
      When(|s.matchLabel.value.value| == 0, Required(path + [Child("matchLabel"), Child("value")]))
    else if s.and.Terms? then SelectorListErrors(s.and.items, path + [Child("and")], |s.and.items|)
    else if s.or.Terms? then SelectorListErrors(s.or.items, path + [Child("or")], |s.or.items|)
    else if s.not.Operand? then SelectorErrors(s.not.selector, path + [Child("not")])
    else []
  }

  // The errors of the first `n` selectors of a list.
  function SelectorListErrors(items: seq<Selector>, path: Path, n: nat): (errors: Errors)
    requires n <= |items|
    decreases items, 0, n
  {
    if n == 0 then []
    else SelectorListErrors(items, path, n - 1) + SelectorErrors(items[n - 1], path + [Index(n - 1)])
  }

  function TargetErrors(targets: seq<ObjectReference>, path: Path, n: nat): (errors: Errors)
    requires n <= |targets|
  {
    if n == 0 then []
    else
      TargetErrors(targets, path, n - 1) +
      When(|targets[n - 1].name| == 0, Required(path + [Index(n - 1), Child("name")])) +
      When(|targets[n - 1].namespace| == 0, Required(path + [Index(n - 1), Child("namespace")]))
  }

  function RuleErrors(r: Rule, path: Path): (errors: Errors) {
    When(r.priority < 0, Invalid(path + [Child("priority")])) +
    When(|r.targets| == 0, Required(path + [Child("serviceTargetConfigs")])) +
    TargetErrors(r.targets, path + [Child("serviceTargetConfigs")], |r.targets|) +
    SelectorListErrors(r.selector, path + [Child("selector")], |r.selector|)
  }

  function SchedulingErrors(rules: seq<Rule>, n: nat): (errors: Errors)
    requires n <= |rules|
  {
    if n == 0 then []
    else SchedulingErrors(rules, n - 1) + RuleErrors(rules[n - 1], [Child("spec"), Child("rules"), Index(n - 1)])
  }

  // ---- The validation code ----

  method ValidateSchedulingSelector(s: Selector, path: Path) returns (errors: Errors)
    ensures errors == SelectorErrors(s, path)
    decreases s, 1
  {
    hide SelectorListErrors, Conditions;
    errors := [];
    var count := CountConditions(s);
    if count != 1 {
      errors := errors + [Invalid(path)];
    }
    if s.matchTenant.Some? {
      if |s.matchTenant.value| == 0 {
        errors := errors + [Required(path + [Child("matchTenant"), Child("id")])];
      }
    } else if s.matchLabel.Some? {
      if |s.matchLabel.value.name| == 0 {
        errors := errors + [Required(path + [Child("matchLabel"), Child("name")])];
      }
      if |s.matchLabel.value.value| == 0 {
        errors := errors + [Required(path + [Child("matchLabel"), Child("value")])];
      }
    } else if s.and.Terms? {
      var nested := ValidateSelectorList(s.and.items, path + [Child("and")]);
      errors := errors + nested;
    } else if s.or.Terms? {
      var nested := ValidateSelectorList(s.or.items, path + [Child("or")]);
      errors := errors + nested;
    } else if s.not.Operand? {
      var nested := ValidateSchedulingSelector(s.not.selector, path + [Child("not")]);
      errors := errors + nested;
    }
  }

  method ValidateSelectorList(items: seq<Selector>, path: Path) returns (errors: Errors)
    ensures errors == SelectorListErrors(items, path, |items|)
    decreases items, 0
  {
    errors := [];
    for i := 0 to |items|
      invariant errors == SelectorListErrors(items, path, i)
    {
      var nested := ValidateSchedulingSelector(items[i], path + [Index(i)]);
      errors := errors + nested;
    }
  }

  method ValidateSchedulingRule(r: Rule, path: Path) returns (errors: Errors)
    ensures errors == RuleErrors(r, path)
  {
    hide SelectorListErrors;
    errors := [];
    if r.priority < 0 {
      errors := errors + [Invalid(path + [Child("priority")])];
    }
    var targetsPath := path + [Child("serviceTargetConfigs")];
    if |r.targets| == 0 {
      errors := errors + [Required(targetsPath)];
    }
    ghost var before := errors;
    for i := 0 to |r.targets|
      invariant errors == before + TargetErrors(r.targets, targetsPath, i)
    {
      if |r.targets[i].name| == 0 {
        errors := errors + [Required(targetsPath + [Index(i), Child("name")])];
      }
      if |r.targets[i].namespace| == 0 {
        errors := errors + [Required(targetsPath + [Index(i), Child("namespace")])];
      }
    }
    var nested := ValidateSelectorList(r.selector, path + [Child("selector")]);
    errors := errors + nested;
  }

  method ValidateTargetScheduling(rules: seq<Rule>) returns (errors: Errors)
    ensures errors == SchedulingErrors(rules, |rules|)
    ensures errors == [] <==> forall i :: 0 <= i < |rules| ==> AdmittedRule(rules[i])
  {
    hide RuleErrors, AdmittedRule;
    errors := [];
    for i := 0 to |rules|
      invariant errors == SchedulingErrors(rules, i)
    {
      var nested := ValidateSchedulingRule(rules[i], [Child("spec"), Child("rules"), Index(i)]);
      errors := errors + nested;
    }
    SchedulingErrorsExact(rules, |rules|);
  }

  // ---- What admission accepts ----

  predicate Admitted(s: Selector) {
    && Conditions(s) == 1
    && (s.matchTenant.Some? ==> s.matchTenant.value != "")
    && (s.matchLabel.Some? ==> s.matchLabel.value.name != "" && s.matchLabel.value.value != "")
    && (s.or.Terms? ==> forall i :: 0 <= i < |s.or.items| ==> Admitted(s.or.items[i]))
    && (s.and.Terms? ==> forall i :: 0 <= i < |s.and.items| ==> Admitted(s.and.items[i]))
    && (s.not.Operand? ==> Admitted(s.not.selector))
  }

  predicate AdmittedRule(r: Rule) {
    && r.priority >= 0
    && r.targets != []
    && (forall i :: 0 <= i < |r.targets| ==> r.targets[i].name != "" && r.targets[i].namespace != "")
    && (forall i :: 0 <= i < |r.selector| ==> Admitted(r.selector[i]))
  }

  lemma {:induction false} SelectorErrorsExact(s: Selector, path: Path)
    ensures SelectorErrors(s, path) == [] <==> Admitted(s)
    decreases s, 1
  {
    if s.and.Terms? {
      ListErrorsExact(s.and.items, path + [Child("and")], |s.and.items|);
    } else if s.or.Terms? {
      ListErrorsExact(s.or.items, path + [Child("or")], |s.or.items|);
    } else if s.not.Operand? {
      SelectorErrorsExact(s.not.selector, path + [Child("not")]);
    }
  }

  lemma {:induction false} ListErrorsExact(items: seq<Selector>, path: Path, n: nat)
    requires n <= |items|
    ensures SelectorListErrors(items, path, n) == [] <==> forall i :: 0 <= i < n ==> Admitted(items[i])
    decreases items, 0, n
  {
    if n > 0 {
      ListErrorsExact(items, path, n - 1);
      SelectorErrorsExact(items[n - 1], path + [Index(n - 1)]);
    }
  }

  lemma {:induction false} TargetErrorsExact(targets: seq<ObjectReference>, path: Path, n: nat)
    requires n <= |targets|
    ensures TargetErrors(targets, path, n) == [] <==>
              forall i :: 0 <= i < n ==> targets[i].name != "" && targets[i].namespace != ""
  {
    if n > 0 {
      TargetErrorsExact(targets, path, n - 1);
    }
  }

  lemma RuleErrorsExact(r: Rule, path: Path)
    ensures RuleErrors(r, path) == [] <==> AdmittedRule(r)
  {
    hide TargetErrors, SelectorListErrors, Admitted;
    TargetErrorsExact(r.targets, path + [Child("serviceTargetConfigs")], |r.targets|);
    ListErrorsExact(r.selector, path + [Child("selector")], |r.selector|);
  }

  /** Admission reports no error exactly for rules with a non-negative priority, complete targets and selectors that
      have one condition at every level. */
  lemma {:induction false} SchedulingErrorsExact(rules: seq<Rule>, n: nat)
    requires n <= |rules|
    ensures SchedulingErrors(rules, n) == [] <==> forall i :: 0 <= i < n ==> AdmittedRule(rules[i])
  {
    hide RuleErrors, AdmittedRule;
    if n > 0 {
      SchedulingErrorsExact(rules, n - 1);
      RuleErrorsExact(rules[n - 1], [Child("spec"), Child("rules"), Index(n - 1)]);
    }
  }

  // No list in the tree is present but empty.
  predicate NoEmptyList(s: Selector) {
    && s.or != Terms([]) && s.and != Terms([])
    && (s.or.Terms? ==> forall i :: 0 <= i < |s.or.items| ==> NoEmptyList(s.or.items[i]))
    && (s.and.Terms? ==> forall i :: 0 <= i < |s.and.items| ==> NoEmptyList(s.and.items[i]))
    && (s.not.Operand? ==> NoEmptyList(s.not.selector))
  }

  /** What evaluation needs beyond admission is exactly that no list is empty. */
  lemma {:induction false} AdmittedIsWellFormed(s: Selector)
    requires Admitted(s)
    ensures WellFormed(s) <==> NoEmptyList(s)
  {
    if s.or.Terms? {
      forall i | 0 <= i < |s.or.items| ensures WellFormed(s.or.items[i]) <==> NoEmptyList(s.or.items[i]) {
        AdmittedIsWellFormed(s.or.items[i]);
      }
    } else if s.and.Terms? {
      forall i | 0 <= i < |s.and.items| ensures WellFormed(s.and.items[i]) <==> NoEmptyList(s.and.items[i]) {
        AdmittedIsWellFormed(s.and.items[i]);
      }
    } else if s.not.Operand? {
      AdmittedIsWellFormed(s.not.selector);
    }
  }

  /** An empty list passes admission, but its evaluation fails for every deployment. */
  lemma EmptyListAdmittedButFails(d: Deployment)
    ensures Admitted(Or([])) && Evaluate(Or([]), d) == Err(EmptySelector)
    ensures Admitted(And([])) && Evaluate(And([]), d) == Err(EmptySelector)
  {
  }
}
