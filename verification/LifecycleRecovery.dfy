// Recovery: whatever has gone wrong before, every pass in which nothing goes wrong puts a deployment right.
module LifecycleRecovery {
  import opened Common
  import opened Lifecycle
  import opened LifecycleInvariant
  import opened LifecycleTheorems

  // ---- Passes in which nothing goes wrong ----

  ghost predicate Owned(s: Store, d: ObjectReference) {
    !Unowned(s, d)
  }

  ghost predicate Unused(s: Store, namespace: string, id: string) {
    id != "" && forall n :: n in s.instances && n.namespace == namespace ==> s.instances[n].id != id
  }

  // A decision that the code can make when no call fails: an owned Instance is found if there is one, there is a target
  // to choose, the ID and the name for a new Instance are not in use, and the status is written if it lacks the
  // reference.
  ghost predicate Calm(s: State, ch: Choice) {
    && ch.outcome.Applied?
    && match s.deployer
       case ListingOwned(d, _) => Owned(s.store, d) ==> Owns(s.store, d, ch.name)
       case Choosing(_, _, w) => w.instance.config.name == "" ==> ch.pick in s.store.configs
       case Drawing(d, _, w) => w.instance.id == "" ==> Unused(s.store, d.namespace, ch.id)
       case Writing(d, _, w) => w.target == None ==> ObjectReference(ch.name.name, d.namespace) !in s.store.used
       case SavingStatus(d, copy, _, _) =>
         ch.write || (d in s.store.deployments && s.store.deployments[d].instanceRef == copy.instanceRef)
       case _ => true
  }

  // A pass over `d` without a failure, and with nobody else around.
  ghost predicate CalmPass(s: State, events: seq<Event>, d: ObjectReference) {
    && events != [] && events[0] == StartDeployment(d)
    && forall i :: 0 < i < |events| ==> events[i].StepDeployment? && Calm(Run(s, events[..i]), events[i].choice)
  }

  // ---- What such a pass is for ----

  // The Instance of the deployment exists, the status names it, and the list of its target holds it.
  ghost predicate Settled(s: Store, d: ObjectReference) {
    && d in s.deployments
    && s.deployments[d].instanceRef.Some?
    && var n := s.deployments[d].instanceRef.value;
       n in s.registered && n in s.instances && Owner(s, n) == d && Listed(s, n)
  }

  // How far the deletion of `d` is from its end: its Instance is still to be marked, then to be released, and then the
  // deployment itself.
  ghost function Left(s: Store, d: ObjectReference): nat {
    if d !in s.deployments then 0
    else if !Owned(s, d) then 1
    else if exists n :: n in s.instances && Owner(s, n) == d && s.instances[n].deleting then 2
    else 3
  }

  datatype Goal = Settle | Delete(left: nat)

  // A deletion comes one step further, unless it waits for the release of the Instance.
  ghost predicate Reached(s: Store, d: ObjectReference, goal: Goal) {
    match goal
    case Settle => Settled(s, d)
    case Delete(left) =>
      && (Left(s, d) < left || (left == 2 && Left(s, d) == 2))
      && (d in s.deployments ==> s.deployments[d].deleting)
  }

  // The deployment is as the pass read it or wrote it last.
  ghost predicate UpToDate(s: Store, d: ObjectReference, copy: Deployment, goal: Goal) {
    && CurrentDeployment(s, d, copy.version)
    && match goal
       case Settle => !copy.deleting && copy.finalizer
       case Delete(left) => copy.deleting && s.deployments[d].deleting && Left(s, d) == left
  }

  // A pass over `d` is on its way to the goal.
  ghost predicate OnTrack(s: State, d: ObjectReference, goal: Goal) {
    && (!s.deployer.Idle? ==> s.deployer.d == d)
    && match s.deployer
       case Idle => Reached(s.store, d, goal)
       case Fetched(_, copy) => UpToDate(s.store, d, copy, goal) &&
         s.store.deployments[d].instanceRef == copy.instanceRef
       case ListingOwned(_, copy) => UpToDate(s.store, d, copy, goal)
       case SavingFoundRef(_, copy) =>
         UpToDate(s.store, d, copy, goal) && copy.instanceRef.Some? && Owns(s.store, d, copy.instanceRef.value)
       case Choosing(_, copy, w) => UpToDate(s.store, d, copy, goal) && goal == Settle && BaseCurrent(s.store, w)
       case Drawing(_, copy, w) => UpToDate(s.store, d, copy, goal) && goal == Settle && BaseCurrent(s.store, w)
       case Writing(_, copy, w) => UpToDate(s.store, d, copy, goal) && goal == Settle && BaseCurrent(s.store, w)
       case Loading(_, copy, _) => UpToDate(s.store, d, copy, goal) && goal == Settle
       case Refetching(_, copy, n) => UpToDate(s.store, d, copy, goal) && goal == Settle && n in s.store.instances
       case SavingStatus(_, copy, n, _) => UpToDate(s.store, d, copy, goal) && goal == Settle && n in s.store.instances
       case LoadingConfig(_, _, n, _) =>
         goal == Settle && d in s.store.deployments && s.store.deployments[d].instanceRef == Some(n) &&
           n in s.store.instances
       case SavingConfig(_, _, n, c, config) =>
         && goal == Settle && d in s.store.deployments && s.store.deployments[d].instanceRef == Some(n) &&
           n in s.store.instances
         && CurrentConfig(s.store, c, config.version)
       case CheckingInstance(_, copy, _) => UpToDate(s.store, d, copy, goal) && goal.Delete?
       case DeletingInstance(_, copy, n) =>
         UpToDate(s.store, d, copy, goal) && goal.Delete? && n in s.store.instances && !s.store.instances[n].deleting
       case ClearingRef(_, copy) => UpToDate(s.store, d, copy, goal) && goal.Delete?
       case DroppingFinalizer(_, copy) => UpToDate(s.store, d, copy, goal) && goal.Delete?
       case Finishing(_, copy) =>
         && Reached(s.store, d, goal)
         && (goal == Settle ==> s.store.deployments[d].instanceRef == copy.instanceRef)
  }

  // What was read of the Instance is what is stored.
  ghost predicate BaseCurrent(s: Store, w: Write) {
    w.base.Some? ==> w.target.Some? && CurrentInstance(s, w.target.value, w.base.value.version)
  }

  // ---- Every calm step stays on track ----

  lemma StatusOnTrack(s: Store, d: ObjectReference, copy: Deployment, goal: Goal)
    requires UpToDate(s, d, copy, goal)
    ensures var (b, ok) := UpdateStatus(s, d, copy, Applied);
            && ok && UpToDate(b, d, copy.(version := s.clock), goal)
            && b.deployments[d].instanceRef == copy.instanceRef
            && b.instances == s.instances && b.configs == s.configs && b.used == s.used && b.registered == s.registered
  {
  }

  // The beginning of a pass, up to the reference.
  lemma BeginningOnTrack(s: State, d: ObjectReference, goal: Goal, ch: Choice)
    requires OnTrack(s, d, goal) && Calm(s, ch) && Inv(s)
    requires s.deployer.Fetched? || s.deployer.ListingOwned? || s.deployer.SavingFoundRef?
    ensures OnTrack(Step(s, StepDeployment(ch)), d, goal)
  {
    hide Left, Owned, Inv, UpdateStatus;
    StatusOnTrack(s.store, d, s.deployer.copy, goal);
    if s.deployer.ListingOwned? {
      ListingFacts(s);
    }
  }

  lemma ListingFacts(s: State)
    requires Inv(s) && s.deployer.ListingOwned?
    ensures s.deployer.copy.instanceRef == None
    ensures Owned(s.store, s.deployer.d) <==> exists n :: n in s.store.instances && Owner(s.store, n) == s.deployer.d
  {
  }

  lemma WriteFacts(s: State)
    requires Inv(s) && (s.deployer.Choosing? || s.deployer.Drawing? || s.deployer.Writing?)
    ensures var w, d := s.deployer.write, s.deployer.d;
            if w.base.Some? then
              && w.target.Some? && w.base == Some(w.instance)
              && w.instance.owner == d.name && w.instance.id != "" && w.instance.config.name != ""
            else
              && (w.target.Some? ==> w.target.value !in s.store.instances)
              && (s.deployer.Choosing? ==> w.instance == BLANK)
  {
  }

  lemma NewIsUnowned(s: State)
    requires Inv(s)
    ensures s.deployer.Choosing? && s.deployer.write.base == None ==> !Owned(s.store, s.deployer.d)
  {
  }

  lemma WriteOnTrack(s: State, d: ObjectReference)
    requires s.deployer.Writing?
    ensures OnTrack(s, d, Settle) ==> BaseCurrent(s.store, s.deployer.write)
  {
  }

  lemma FetchedOnTrack(s: State, d: ObjectReference)
    requires s.deployer.Fetched? && s.deployer.d == d
    ensures forall goal :: OnTrack(s, d, goal) ==>
      UpToDate(s.store, d, s.deployer.copy, goal) && s.store.deployments[d].instanceRef == s.deployer.copy.instanceRef
  {
  }

  // From the reference to the Instance.
  lemma InstanceOnTrack(s: State, d: ObjectReference, goal: Goal, ch: Choice)
    requires OnTrack(s, d, goal) && Calm(s, ch) && Inv(s)
    requires s.deployer.Loading? || s.deployer.Choosing? || s.deployer.Drawing? || s.deployer.Writing?
    ensures OnTrack(Step(s, StepDeployment(ch)), d, goal)
  {
    hide Left, Owned, Inv;
    if !s.deployer.Loading? {
      WriteFacts(s);
    }
  }

  lemma MineFacts(s: State)
    requires Inv(s)
    requires s.deployer.Refetching? || s.deployer.SavingStatus? || s.deployer.LoadingConfig? || s.deployer.SavingConfig?
    requires s.deployer.n in s.store.instances
    ensures var w, s := s.deployer, s.store;
            && w.copy.instanceRef == Some(w.n) && Owner(s, w.n) == w.d
            && s.instances[w.n].config in s.configs
            && (!w.Refetching? ==> s.instances[w.n].config == w.c)
  {
    assert InstanceOk(s.store, s.deployer.n);
  }

  lemma LoadingOnTrack(s: State, d: ObjectReference)
    requires Inv(s) && s.deployer.LoadingConfig?
    ensures OnTrack(s, d, Settle) ==> s.deployer.c in s.store.configs
  {
    hide Inv;
    if OnTrack(s, d, Settle) {
      MineFacts(s);
    }
  }

  // From the Instance to the usage list.
  lemma ListOnTrack(s: State, d: ObjectReference, goal: Goal, ch: Choice)
    requires OnTrack(s, d, goal) && Calm(s, ch) && Inv(s)
    requires s.deployer.Refetching? || s.deployer.SavingStatus? || s.deployer.LoadingConfig? || s.deployer.SavingConfig?
    ensures OnTrack(Step(s, StepDeployment(ch)), d, goal)
  {
    hide Left, Owned, Inv, UpdateStatus;
    MineFacts(s);
    if s.deployer.SavingStatus? {
      StatusOnTrack(s.store, d, s.deployer.copy, goal);
    }
  }

  // How far a deletion is while the Instance `n` is the only one.
  lemma OneLeft(s: Store, d: ObjectReference, n: ObjectReference)
    requires d in s.deployments && Owns(s, d, n) && forall m :: m in s.instances && Owner(s, m) == d ==> m == n
    ensures Left(s, d) == (if s.instances[n].deleting then 2 else 3)
    ensures 1 <= Left(DeleteInstance(s, n), d) <= 2
  {
    var b := DeleteInstance(s, n);
    assert forall m :: m in b.instances && Owner(b, m) == d ==> m == n;
    assert n in b.instances ==> Owner(b, n) == d;
  }

  lemma CheckingFacts(s: State)
    requires Inv(s) && (s.deployer.CheckingInstance? || s.deployer.DeletingInstance?)
    ensures var w, t := s.deployer, s.store;
            && w.d in t.deployments
            && if w.n in t.instances then Owns(t, w.d, w.n) && forall m :: m in t.instances && Owner(t, m) == w.d ==>
              m == w.n
               else Unowned(t, w.d)
  {
    assert s.deployer.n in s.store.instances ==> InstanceOk(s.store, s.deployer.n);
  }

  // The Instance of a deployment that is being deleted.
  lemma CheckingOnTrack(s: State, d: ObjectReference, goal: Goal, ch: Choice)
    requires OnTrack(s, d, goal) && Calm(s, ch) && Inv(s)
    requires s.deployer.CheckingInstance? || s.deployer.DeletingInstance?
    ensures OnTrack(Step(s, StepDeployment(ch)), d, goal)
  {
    hide Inv, Left, Owned;
    CheckingFacts(s);
    if s.deployer.n in s.store.instances {
      OneLeft(s.store, d, s.deployer.n);
    }
  }

  lemma ReleasingFacts(s: State)
    requires Inv(s) && (s.deployer.ClearingRef? || s.deployer.DroppingFinalizer?)
    ensures s.deployer.d in s.store.deployments && Unowned(s.store, s.deployer.d)
  {
  }

  lemma UnownedLeft(s: Store, d: ObjectReference)
    requires d in s.deployments && Unowned(s, d)
    ensures Left(s, d) == 1
  {
  }

  // The end of a deployment whose Instance is gone.
  lemma ReleasingOnTrack(s: State, d: ObjectReference, goal: Goal, ch: Choice)
    requires OnTrack(s, d, goal) && Calm(s, ch) && Inv(s)
    requires s.deployer.ClearingRef? || s.deployer.DroppingFinalizer?
    ensures OnTrack(Step(s, StepDeployment(ch)), d, goal)
  {
    hide Inv, UpdateStatus, Owned;
    ReleasingFacts(s);
    UnownedLeft(s.store, d);
    if s.deployer.ClearingRef? {
      StatusOnTrack(s.store, d, s.deployer.copy, goal);
    }
  }

  lemma EndOnTrack(s: State, d: ObjectReference, goal: Goal, ch: Choice)
    requires OnTrack(s, d, goal) && (s.deployer.Idle? || s.deployer.Finishing?)
    ensures OnTrack(Step(s, StepDeployment(ch)), d, goal)
  {
  }

  lemma StaysOnTrack(s: State, d: ObjectReference, goal: Goal, ch: Choice)
    requires OnTrack(s, d, goal) && Calm(s, ch) && Inv(s)
    ensures OnTrack(Step(s, StepDeployment(ch)), d, goal)
  {
    hide OnTrack, Calm, Inv, Step;
    match s.deployer
    case Idle => EndOnTrack(s, d, goal, ch);
    case Finishing(_, _) => EndOnTrack(s, d, goal, ch);
    case Fetched(_, _) => BeginningOnTrack(s, d, goal, ch);
    case ListingOwned(_, _) => BeginningOnTrack(s, d, goal, ch);
    case SavingFoundRef(_, _) => BeginningOnTrack(s, d, goal, ch);
    case Loading(_, _, _) => InstanceOnTrack(s, d, goal, ch);
    case Choosing(_, _, _) => InstanceOnTrack(s, d, goal, ch);
    case Drawing(_, _, _) => InstanceOnTrack(s, d, goal, ch);
    case Writing(_, _, _) => InstanceOnTrack(s, d, goal, ch);
    case Refetching(_, _, _) => ListOnTrack(s, d, goal, ch);
    case SavingStatus(_, _, _, _) => ListOnTrack(s, d, goal, ch);
    case LoadingConfig(_, _, _, _) => ListOnTrack(s, d, goal, ch);
    case SavingConfig(_, _, _, _, _) => ListOnTrack(s, d, goal, ch);
    case CheckingInstance(_, _, _) => CheckingOnTrack(s, d, goal, ch);
    case DeletingInstance(_, _, _) => CheckingOnTrack(s, d, goal, ch);
    case ClearingRef(_, _) => ReleasingOnTrack(s, d, goal, ch);
    case DroppingFinalizer(_, _) => ReleasingOnTrack(s, d, goal, ch);
  }

  // ---- Whole passes of the deployment controller ----

  // The state in which a pass may start that is to reach the goal.
  ghost predicate Startable(s: Store, d: ObjectReference, goal: Goal) {
    && d in s.deployments
    && match goal
       case Settle => s.deployments[d].finalizer && !s.deployments[d].deleting
       case Delete(left) => s.deployments[d].deleting && Left(s, d) == left
  }

  lemma {:induction false} CalmPassOnTrack(s: State, events: seq<Event>, d: ObjectReference, goal: Goal)
    requires Inv(s) && s.deployer == Idle && Startable(s.store, d, goal) && CalmPass(s, events, d)
    ensures var t := Run(s, events); Inv(t) && OnTrack(t, d, goal) && t.tender == s.tender
  {
    hide Inv, Calm, Left, OnTrack, StepDeployer;
    var init, last := events[..|events| - 1], events[|events| - 1];
    if |events| == 1 {
      assert init == [] && Run(s, init) == s;
      StartsOnTrack(s, d, goal);
      StepKeeps(s, last);
    } else {
      CalmInit(s, events, d);
      CalmPassOnTrack(s, init, d, goal);
      StaysOnTrack(Run(s, init), d, goal, last.choice);
      StepKeeps(Run(s, init), last);
    }
  }

  lemma StartsOnTrack(s: State, d: ObjectReference, goal: Goal)
    requires s.deployer == Idle && Startable(s.store, d, goal)
    ensures OnTrack(Step(s, StartDeployment(d)), d, goal)
  {
  }

  lemma CalmInit(s: State, events: seq<Event>, d: ObjectReference)
    requires CalmPass(s, events, d) && |events| > 1
    ensures CalmPass(s, events[..|events| - 1], d)
    ensures var last := events[|events| - 1]; last.StepDeployment? && Calm(Run(s, events[..|events| - 1]), last.choice)
  {
    hide Calm, Run;
    var init := events[..|events| - 1];
    assert forall i :: 0 <= i < |init| ==> init[..i] == events[..i];
  }

  /** From every state that can be reached, however calls have failed and processes crashed before, every pass without a
      failure over a deployment that has its finalizer ends with its Instance existing, named by the status and held by
      the list of its target. */
  lemma EveryCalmPassSettles(s: State, events: seq<Event>, d: ObjectReference)
    requires Inv(s) && s.deployer == Idle && CalmPass(s, events, d) && Run(s, events).deployer == Idle
    requires d in s.store.deployments && s.store.deployments[d].finalizer && !s.store.deployments[d].deleting
    ensures Settled(Run(s, events).store, d)
  {
    hide Inv, CalmPass, Run;
    CalmPassOnTrack(s, events, d, Settle);
  }

  /** Every pass without a failure over a deployment that is being deleted brings the deletion one step further, unless
      it has to wait for the release of the Instance. */
  lemma EveryCalmPassDeletes(s: State, events: seq<Event>, d: ObjectReference)
    requires Inv(s) && s.deployer == Idle && CalmPass(s, events, d) && Run(s, events).deployer == Idle
    requires d in s.store.deployments && s.store.deployments[d].deleting
    ensures var t := Run(s, events);
            && Inv(t) && t.tender == s.tender
            && (Left(t.store, d) < Left(s.store, d) || (Left(s.store, d) == 2 && Left(t.store, d) == 2))
            && (d in t.store.deployments ==> t.store.deployments[d].deleting)
  {
    hide Inv, CalmPass, Run, Left;
    CalmPassOnTrack(s, events, d, Delete(Left(s.store, d)));
  }

  // ---- The end of a pass ----

  // A bound on the steps that are left, as long as the status is written only where it has to be.
  function PassRank(w: DeploymentWorker): nat {
    match w
    case Idle => 0
    case Finishing(_, _) => 1
    case SavingConfig(_, _, _, _, _) => 2
    case DeletingInstance(_, _, _) => 2
    case DroppingFinalizer(_, _) => 2
    case LoadingConfig(_, _, _, _) => 3
    case ClearingRef(_, _) => 3
    case SavingStatus(_, _, _, _) => 4
    case CheckingInstance(_, _, _) => 4
    case Refetching(_, _, _) => 5
    case Writing(_, _, _) => 6
    case Drawing(_, _, _) => 7
    case Choosing(_, _, _) => 8
    case Loading(_, _, _) => 9
    case SavingFoundRef(_, copy) => if copy.instanceRef.Some? then 10 else 12
    case ListingOwned(_, _) => 11
    case Fetched(_, _) => 13
  }

  lemma {:induction false} LongerThanAll(strings: set<string>) returns (k: nat)
    ensures forall x :: x in strings ==> |x| < k
  {
    k := 0;
    if x :| x in strings {
      k := LongerThanAll(strings - {x});
      k := if |x| < k then k else |x| + 1;
      assert forall y :: y in strings ==> y == x || y in strings - {x};
    }
  }

  lemma NewString(strings: set<string>) returns (x: string)
    ensures x != "" && x !in strings
  {
    var k := LongerThanAll(strings);
    x := seq(k + 1, _ => 'a');
  }

  // A decision that brings the pass nearer to its end.
  lemma CalmChoice(s: State, c: ObjectReference) returns (ch: Choice)
    requires !s.deployer.Idle? && c in s.store.configs
    ensures Calm(s, ch) && PassRank(StepDeployer(s.store, s.deployer, ch).1) < PassRank(s.deployer)
  {
    var id := NewString(set n | n in s.store.instances :: s.store.instances[n].id);
    var name := NewString(set n | n in s.store.used :: n.name);
    var n := ObjectReference(name, s.deployer.d.namespace);
    assert n !in s.store.used;
    if s.deployer.ListingOwned? && Owned(s.store, s.deployer.d) {
      n :| n in s.store.instances && Owner(s.store, n) == s.deployer.d;
    }
    ch := Choice(Applied, s.deployer.SavingStatus?, false, c, id, n);
  }

  lemma ConfigStays(s: State, e: Event, c: ObjectReference)
    requires Inv(s) && c in s.store.configs
    ensures c in Step(s, e).store.configs
  {
    hide Inv, Step;
    StepKeeps(s, e);
  }

  /** While there is a target, every calm pass can be brought to its end. */
  lemma {:induction false} CalmPassEnds(s: State, events: seq<Event>, d: ObjectReference, c: ObjectReference)
    returns (longer: seq<Event>)
    requires Inv(s) && CalmPass(s, events, d) && c in Run(s, events).store.configs
    ensures events <= longer && CalmPass(s, longer, d) && Run(s, longer).deployer == Idle
    decreases PassRank(Run(s, events).deployer)
  {
    hide Inv, Calm, Step, StepDeployer;
    longer := events;
    var t := Run(s, events);
    if t.deployer != Idle {
      var ch := CalmChoice(t, c);
      var e := StepDeployment(ch);
      longer := events + [e];
      OneMore(s, events, e);
      assert forall i :: 0 <= i < |events| ==> longer[..i] == events[..i] && longer[i] == events[i];
      RunKeeps(s, events);
      ConfigStays(t, e, c);
      longer := CalmPassEnds(s, longer, d, c);
    }
  }

  lemma OneMore(s: State, events: seq<Event>, e: Event)
    ensures (events + [e])[..|events|] == events && Run(s, events + [e]) == Step(Run(s, events), e)
    ensures e.StepDeployment? ==>
      Step(Run(s, events), e).deployer == StepDeployer(Run(s, events).store, Run(s, events).deployer, e.choice).1
  {
    assert (events + [e])[..|events|] == events;
  }

  // ---- The release of an Instance ----

  // A pass of the instance controller over `n` without a failure, in which the dependents of the Instance are gone.
  predicate CalmRelease(events: seq<Event>, n: ObjectReference) {
    && events != [] && events[0] == StartInstance(n)
    && forall i :: 0 < i < |events| ==>
         events[i].StepInstance? && events[i].choice.outcome.Applied? &&
           (events[i].choice.done || events[i].choice.write)
  }

  // The pass over the marked Instance `n` of the deployment `d`.
  ghost predicate Releases(s: State, d: ObjectReference, n: ObjectReference) {
    match s.tender
    case Resting => Left(s.store, d) == 1
    case Ending(m, _) => m == n && n !in s.store.instances && Left(s.store, d) == 1
    case Unlisting(m, local, config) => MarkedNow(s.store, d, n, m, local) &&
      CurrentConfig(s.store, local.config, config.version)
    case _ => MarkedNow(s.store, d, n, s.tender.n, s.tender.local)
  }

  ghost predicate MarkedNow(s: Store, d: ObjectReference, n: ObjectReference, m: ObjectReference, local: Instance) {
    && m == n && CurrentInstance(s, n, local.version) && local.deleting
    && d in s.deployments && Owns(s, d, n) && s.instances[n].deleting
    && forall k :: k in s.instances && Owner(s, k) == d ==> k == n
  }

  lemma ReleaseFacts(s: State)
    requires Inv(s) && !s.tender.Resting? && s.tender.n in s.store.instances && s.tender.local.deleting
    ensures !s.tender.Ending? ==> s.tender.local.config in s.store.configs
  {
    assert InstanceOk(s.store, s.tender.n);
  }

  lemma ReleaseGoesOn(s: State, d: ObjectReference, n: ObjectReference, ch: Choice)
    requires Inv(s) && Releases(s, d, n) && ch.outcome.Applied? && (ch.done || ch.write)
    ensures Releases(Step(s, StepInstance(ch)), d, n)
  {
    hide Inv;
    if s.tender.Read? || s.tender.Tearing? {
      ReleaseFacts(s);
    }
  }

  /** Every pass of the instance controller without a failure over a marked Instance whose dependents are gone releases
      it. */
  lemma EveryCalmReleaseReleases(s: State, events: seq<Event>, d: ObjectReference, n: ObjectReference)
    requires Inv(s) && s.tender == Resting && CalmRelease(events, n) && Run(s, events).tender == Resting
    requires Owns(s.store, d, n) && s.store.instances[n].deleting
    ensures var t := Run(s, events);
      Inv(t) && t.deployer == s.deployer && t.store.deployments == s.store.deployments && Left(t.store, d) == 1
  {
    hide Inv, CalmRelease, Run, Left, MarkedNow;
    CalmReleaseGoesOn(s, events, d, n);
  }

  lemma {:induction false} CalmReleaseGoesOn(s: State, events: seq<Event>, d: ObjectReference, n: ObjectReference)
    requires Inv(s) && s.tender == Resting && CalmRelease(events, n)
    requires Owns(s.store, d, n) && s.store.instances[n].deleting
    ensures var t := Run(s, events);
      Inv(t) && Releases(t, d, n) && t.deployer == s.deployer && t.store.deployments == s.store.deployments
  {
    hide Inv, Releases, Step;
    var init, last := events[..|events| - 1], events[|events| - 1];
    TenderSteps(Run(s, init), last);
    if |events| == 1 {
      assert init == [] && Run(s, init) == s;
      ReleaseStarts(s, d, n);
      StepKeeps(s, last);
    } else {
      assert init[0] == events[0];
      CalmReleaseGoesOn(s, init, d, n);
      ReleaseGoesOn(Run(s, init), d, n, last.choice);
      StepKeeps(Run(s, init), last);
    }
  }

  lemma TenderSteps(s: State, e: Event)
    requires e.StartInstance? || e.StepInstance?
    ensures Step(s, e).deployer == s.deployer && Step(s, e).store.deployments == s.store.deployments
  {
  }

  lemma ReleaseStarts(s: State, d: ObjectReference, n: ObjectReference)
    requires Inv(s) && s.tender == Resting && Owns(s.store, d, n) && s.store.instances[n].deleting
    ensures Releases(Step(s, StartInstance(n)), d, n)
  {
    assert InstanceOk(s.store, n);
    assert OneInstanceEach(s.store);
  }

  const RELEASE := StepInstance(Choice(Applied, false, true, ObjectReference("", ""), "", ObjectReference("", "")))

  function Rank(w: InstanceWorker): nat {
    match w
    case Resting => 0
    case Ending(_, _) => 1
    case Releasing(_, _) => 2
    case Unlisting(_, _, _) => 3
    case Tearing(_, _) => 4
    case Read(_, _) => 5
  }

  lemma RankDrops(t: State, d: ObjectReference, n: ObjectReference)
    requires Inv(t) && Releases(t, d, n) && t.tender != Resting
    ensures Rank(Step(t, RELEASE).tender) < Rank(t.tender)
  {
    hide Inv, Left, StepDeployer;
    if t.tender.Tearing? {
      ReleaseFacts(t);
    }
  }

  /** Such a pass can always be brought to its end. */
  lemma {:induction false} CalmReleaseEnds(s: State, events: seq<Event>, d: ObjectReference, n: ObjectReference)
      returns (longer: seq<Event>)
    requires Inv(s) && s.tender == Resting && CalmRelease(events, n)
    requires Owns(s.store, d, n) && s.store.instances[n].deleting
    ensures events <= longer && CalmRelease(longer, n) && Run(s, longer).tender == Resting
    decreases Rank(Run(s, events).tender)
  {
    hide Inv, Releases, Step;
    longer := events;
    var t := Run(s, events);
    CalmReleaseGoesOn(s, events, d, n);
    if t.tender != Resting {
      RankDrops(t, d, n);
      longer := events + [RELEASE];
      assert longer[..|events|] == events;
      longer := CalmReleaseEnds(s, longer, d, n);
    }
  }

  /** From every state that can be reached, the deletion of a deployment is completed by any calm pass of the deployment
      controller, one of the instance controller over the marked Instance, if there is one then, and another one of the
      deployment controller, if the deployment is still there. */
  lemma CalmPassesDelete(s: State, d: ObjectReference, n: ObjectReference, first: seq<Event>, release: seq<Event>,
      last: seq<Event>)
    requires Inv(s) && s.deployer == Idle && s.tender == Resting && d in s.store.deployments &&
      s.store.deployments[d].deleting
    requires CalmPass(s, first, d) && Run(s, first).deployer == Idle
    requires var t := Run(s, first);
      if Left(t.store, d) == 2 then
        && CalmRelease(release, n) && Run(t, release).tender == Resting
        && Owns(t.store, d, n) && t.store.instances[n].deleting
      else release == []
    requires var u := Run(Run(s, first), release);
      if d in u.store.deployments then CalmPass(u, last, d) && Run(u, last).deployer == Idle else last == []
    ensures var v := Run(Run(Run(s, first), release), last);
      Inv(v) && d !in v.store.deployments && !Owned(v.store, d)
  {
    hide Inv, CalmPass, CalmRelease, Left, Owned;
    LeftBounds(s.store, d);
    EveryCalmPassDeletes(s, first, d);
    var t := Run(s, first);
    LeftBounds(t.store, d);
    if Left(t.store, d) == 2 {
      EveryCalmReleaseReleases(t, release, d, n);
    }
    var u := Run(t, release);
    LeftBounds(u.store, d);
    if d in u.store.deployments {
      EveryCalmPassDeletes(u, last, d);
    }
    var v := Run(u, last);
    LeftBounds(v.store, d);
    GoneIsUnowned(v, d);
  }

  lemma LeftBounds(s: Store, d: ObjectReference)
    ensures Left(s, d) <= 3 && (Left(s, d) == 0 <==> d !in s.deployments)
  {
  }

  lemma GoneIsUnowned(t: State, d: ObjectReference)
    requires Inv(t) && d !in t.store.deployments
    ensures !Owned(t.store, d)
  {
    assert forall n :: n in t.store.instances ==> InstanceOk(t.store, n);
  }
}
