// What every pass of the NamespaceRegistration controller keeps, whichever of its calls fail.
module RegistrationTheorems {
  import opened Common
  import opened Subjects
  import opened Registrations

  // ---- When each call is allowed ----

  // Namespace, roles and role bindings exist, and the bindings carry the subjects of the list.
  predicate Ready(w: World, name: string) {
    && name in w.namespaces
    && w.list.Some?
    && Access(name, false) in w.roles && Access(name, true) in w.roles
    && Access(name, false) in w.bindings && w.bindings[Access(name, false)] == Converted(w.list.value.subjects)
    && Access(name, true) in w.bindings && w.bindings[Access(name, true)] == Converted(w.list.value.viewers)
  }

  predicate Guarded(w: World, name: string) {
    IsCustomer(name) && name in w.registrations && w.registrations[name].finalizer && !w.registrations[name].deleting
  }

  predicate Deleting(w: World, name: string) {
    IsCustomer(name) && name in w.registrations && w.registrations[name].deleting
  }

  // The phase tells what is going on, before anything is created or removed.
  predicate Creating(w: World, name: string) {
    Guarded(w, name) && w.registrations[name].phase != PhaseNew && w.registrations[name].phase != PhaseCompleted
  }

  predicate Removing(w: World, name: string) {
    Deleting(w, name) && w.registrations[name].phase == PhaseDeleting
  }

  predicate Drained(ns: Namespace) {
    ns.installations == [] && ns.executions == 0 && ns.deployItems == 0
  }

  // An installation that a registration with this annotation is to delete: any root installation if all are to be
  // deleted, and without an annotation only those that are to be deleted without uninstall.
  predicate Covered(annotation: string, inst: Installation) {
    && inst.root
    && (|| annotation == DELETE_ALL || annotation == DELETE_ALL_WITHOUT_UNINSTALL
        || (annotation == "" && inst.withoutUninstall))
  }

  // An installation that the deletion strategy of its namespace allows to delete now.
  predicate MayDelete(w: World, name: string, i: nat) {
    && Removing(w, name) && name in w.namespaces && i < |w.namespaces[name].installations|
    && var inst, annotation := w.namespaces[name].installations[i], w.registrations[name].strategy;
       Covered(annotation, inst) && (annotation != DELETE_ALL ==> inst.withoutUninstall)
  }

  // A deletion that has come to a stop, and has not been asked to go on.
  predicate Idle(inst: Installation) {
    inst.deleting && inst.finished && !inst.reconcile
  }

  /** The state of the cluster in which a pass for the registration `name` may make a call. */
  predicate Allowed(name: string, request: Request) {
    var w := request.before;
    match request.call
    case Announce(phase, _) =>
      && name in w.registrations
      && phase != PhaseNew
      && (phase == PhaseCompleted ==> Guarded(w, name) && Ready(w, name))
      && (phase == PhaseFailed ==> !IsCustomer(name))
      && (phase == PhaseCreating ==> Guarded(w, name) && w.registrations[name].phase == PhaseNew)
      && (phase == PhaseDeleting ==> Deleting(w, name) && name in w.namespaces)
    case Report(phase) =>
      && (phase == PhaseCreating || phase == PhaseDeleting)
      && (phase == PhaseCreating ==> Guarded(w, name))
      && (phase == PhaseDeleting ==> name !in w.registrations || Deleting(w, name))
    case AddFinalizer => IsCustomer(name) && name in w.registrations && !w.registrations[name].deleting
    case RemoveFinalizer => Deleting(w, name) && (name in w.namespaces ==> w.namespaces[name].terminating)
    case CreateNamespace => Creating(w, name)
    case PutRole(_) => Creating(w, name) && name in w.namespaces
    case PutBinding(viewer, subjects) =>
      && Creating(w, name) && name in w.namespaces && w.list.Some?
      && subjects == Converted(if viewer then w.list.value.viewers else w.list.value.subjects)
    case DeleteBinding(_) | DeleteRole(_) =>
      Removing(w, name) && name in w.namespaces && Drained(w.namespaces[name]) && w.namespaces[name].targetSyncs == []
    case DeleteNamespace =>
      && Removing(w, name) && name in w.namespaces && Drained(w.namespaces[name]) &&
        w.namespaces[name].targetSyncs == []
      && forall viewer :: Access(name, viewer) !in w.roles && Access(name, viewer) !in w.bindings
    case Annotate(i) =>
      && Removing(w, name) && name in w.namespaces && i < |w.namespaces[name].installations|
      && w.namespaces[name].installations[i].root
      && w.registrations[name].strategy == DELETE_ALL_WITHOUT_UNINSTALL
    case DeleteInstallation(i) => MayDelete(w, name, i) && !w.namespaces[name].installations[i].deleting
    case Retrigger(i) => MayDelete(w, name, i) && Idle(w.namespaces[name].installations[i])
    case DeleteTargetSync(_) => Removing(w, name) && name in w.namespaces && Drained(w.namespaces[name])
    case _ => true
  }

  predicate AllAllowed(name: string, log: seq<Request>) {
    forall i :: 0 <= i < |log| ==> Allowed(name, log[i])
  }

  // ---- What a pass keeps ----

  /** Every customer namespace that is not terminating has a registration, and the registration has its finalizer. */
  predicate Owned(w: World) {
    forall n :: n in w.namespaces && IsCustomer(n) && !w.namespaces[n].terminating ==>
      n in w.registrations && w.registrations[n].finalizer
  }

  // The role bindings that follow the SubjectList, and the subjects that they should have.
  predicate Managed(b: ObjectReference) {
    || (b.name == LS_USER && b.namespace == LS_USER_NAMESPACE)
    || ((b.name == USER || b.name == VIEWER) && IsCustomer(b.namespace))
  }

  const LS_USER := "landscaper-service:namespace-registrator"
  const CLUSTER_VIEWER := "landscaper-service:landscaper-cluster-viewer"

  function Expected(list: SubjectList, bindingName: string): seq<Subject> {
    Converted(if bindingName == VIEWER || bindingName == CLUSTER_VIEWER then list.viewers else list.subjects)
  }

  predicate BindingsFollow(w: World, list: SubjectList) {
    forall b :: b in w.bindings && Managed(b) ==> w.bindings[b] == Expected(list, b.name)
  }

  predicate ClusterBindingsFollow(w: World, list: SubjectList) {
    forall n :: n in [LS_USER, CLUSTER_VIEWER] ==> n in w.clusterBindings && w.clusterBindings[n] == Expected(list, n)
  }

  /** Every managed role binding and both cluster role bindings carry exactly the subjects of the list. */
  predicate Coherent(w: World) {
    w.list.Some? && BindingsFollow(w, w.list.value) && ClusterBindingsFollow(w, w.list.value)
  }

  // What a pass for the registration `name` does not touch.
  predicate OnlyConcerns(w: World, w': World, name: string) {
    && w'.list == w.list && w'.clusterBindings == w.clusterBindings
    && w'.registrations - {name} == w.registrations - {name}
    && w'.namespaces - {name} == w.namespaces - {name}
    && w'.roles - {Access(name, false), Access(name, true)} == w.roles - {Access(name, false), Access(name, true)}
    && w'.bindings - {Access(name, false), Access(name, true)} == w.bindings - {Access(name, false), Access(name, true)}
    && (!IsCustomer(name) ==> w' == w.(registrations := w'.registrations))
  }

  // What a pass may change about an installation, given the annotation of the registration.
  predicate Follows(annotation: string, inst: Installation, inst': Installation) {
    && inst' == inst.(withoutUninstall := inst'.withoutUninstall, deleting := inst'.deleting,
      reconcile := inst'.reconcile)
    && (!Covered(annotation, inst) ==> inst' == inst)
    && (inst.withoutUninstall ==> inst'.withoutUninstall) && (inst.deleting ==> inst'.deleting)
    && (annotation != DELETE_ALL_WITHOUT_UNINSTALL ==> inst'.withoutUninstall == inst.withoutUninstall)
    && (annotation != DELETE_ALL && (inst'.deleting != inst.deleting || inst'.reconcile != inst.reconcile) ==>
          inst'.withoutUninstall)
  }

  predicate StrategyFollowed(w: World, w': World, name: string) {
    name in w.namespaces && name in w.registrations ==>
      && name in w'.namespaces
      && var was, now := w.namespaces[name].installations, w'.namespaces[name].installations;
         && |now| == |was|
         && forall i :: 0 <= i < |was| ==> Follows(w.registrations[name].strategy, was[i], now[i])
  }

  predicate SameStrategy(w: World, w': World, name: string) {
    name in w.registrations && name in w'.registrations ==>
      w'.registrations[name].strategy == w.registrations[name].strategy
  }

  // A namespace that this pass made terminate was empty, and nothing gives access to it any more; a registration
  // that is gone leaves no namespace behind.
  predicate TerminatedSafely(w: World, w': World, name: string) {
    && (name in w.namespaces && !w.namespaces[name].terminating &&
        name in w'.namespaces && w'.namespaces[name].terminating ==>
          && (name !in w'.registrations || Deleting(w', name))
          && Drained(w'.namespaces[name]) && w'.namespaces[name].targetSyncs == []
          && forall viewer :: Access(name, viewer) !in w'.roles && Access(name, viewer) !in w'.bindings)
    && (name in w.registrations && name !in w'.registrations ==> name in w'.namespaces ==>
      w'.namespaces[name].terminating)
  }

  predicate Completed(w: World, name: string) {
    name in w.registrations && w.registrations[name].phase == PhaseCompleted
  }

  predicate CompletedSafely(w: World, w': World, name: string) {
    Completed(w', name) && !Completed(w, name) ==> Ready(w', name) && Guarded(w', name)
  }

  // A pass that started in `w` and has come to `p` has done nothing wrong so far.
  predicate Fine(w: World, p: Progress, name: string) {
    && AllAllowed(name, p.log)
    && (Owned(w) ==> Owned(p.w))
    && (Coherent(w) ==> Coherent(p.w))
    && OnlyConcerns(w, p.w, name)
    && StrategyFollowed(w, p.w, name)
    && SameStrategy(w, p.w, name)
    && TerminatedSafely(w, p.w, name)
    && CompletedSafely(w, p.w, name)
  }

  // ---- One call ----

  lemma EffectKeepsOwned(w: World, name: string, c: Call)
    requires Owned(w) && Allowed(name, Request(c, w)) && !Refused(w, name, c)
    ensures Owned(Effect(w, name, c))
  {
  }

  lemma EffectKeepsCoherent(w: World, name: string, c: Call)
    requires Coherent(w) && Allowed(name, Request(c, w)) && !Refused(w, name, c)
    ensures Coherent(Effect(w, name, c))
  {
  }

  lemma EffectOnlyConcerns(w: World, name: string, c: Call)
    requires Allowed(name, Request(c, w)) && !Refused(w, name, c)
    ensures OnlyConcerns(w, Effect(w, name, c), name) && SameStrategy(w, Effect(w, name, c), name)
  {
  }

  lemma EffectFollowsStrategy(w: World, name: string, c: Call)
    requires Allowed(name, Request(c, w)) && !Refused(w, name, c)
    ensures StrategyFollowed(w, Effect(w, name, c), name)
  {
  }

  lemma EffectTerminatesSafely(w: World, v: World, name: string, c: Call)
    requires TerminatedSafely(w, v, name) && Allowed(name, Request(c, v)) && !Refused(v, name, c)
    ensures TerminatedSafely(w, Effect(v, name, c), name)
  {
  }

  lemma EffectCompletesSafely(w: World, v: World, name: string, c: Call)
    requires CompletedSafely(w, v, name) && Allowed(name, Request(c, v)) && !Refused(v, name, c)
    ensures CompletedSafely(w, Effect(v, name, c), name)
  {
  }

  lemma FollowsTransitive(annotation: string, a: Installation, b: Installation, c: Installation)
    requires Follows(annotation, a, b) && Follows(annotation, b, c)
    ensures Follows(annotation, a, c)
  {
  }

  lemma StrategyFollowedTransitive(a: World, b: World, c: World, name: string)
    requires StrategyFollowed(a, b, name) && StrategyFollowed(b, c, name)
    requires SameStrategy(a, b, name) && OnlyConcerns(b, c, name)
    requires name in b.registrations || c.namespaces == b.namespaces
    ensures StrategyFollowed(a, c, name)
  {
    hide Follows, OnlyConcerns;
    if name in a.namespaces && name in a.registrations && name in b.registrations {
      var strategy := a.registrations[name].strategy;
      forall i | 0 <= i < |a.namespaces[name].installations|
        ensures Follows(strategy, a.namespaces[name].installations[i], c.namespaces[name].installations[i])
      {
        FollowsTransitive(strategy, a.namespaces[name].installations[i], b.namespaces[name].installations[i],
                          c.namespaces[name].installations[i]);
      }
    }
  }

  lemma OnlyConcernsTransitive(a: World, b: World, c: World, name: string)
    requires OnlyConcerns(a, b, name) && OnlyConcerns(b, c, name)
    ensures OnlyConcerns(a, c, name)
  {
  }

  lemma SameStrategyTransitive(a: World, b: World, c: World, name: string)
    requires SameStrategy(a, b, name) && SameStrategy(b, c, name)
    requires name in c.registrations ==> name in b.registrations
    ensures SameStrategy(a, c, name)
  {
  }

  // Calls for a registration that is gone have no effect on namespaces, and do not bring it back.
  lemma GoneStaysGone(w: World, name: string, c: Call)
    requires name !in w.registrations && Allowed(name, Request(c, w)) && !Refused(w, name, c)
    ensures Effect(w, name, c).namespaces == w.namespaces && name !in Effect(w, name, c).registrations
  {
  }

  lemma PerformFine(w: World, p: Progress, name: string, c: Call, replies: Replies)
    requires Fine(w, p, name) && Allowed(name, Request(c, p.w))
    ensures var q := Perform(p, name, c, replies);
      && Fine(w, q, name)
      && (q.ok ==> !Refused(p.w, name, c) && q.w == Effect(p.w, name, c))
      && (q.w == p.w || (!Refused(p.w, name, c) && q.w == Effect(p.w, name, c)))
  {
    hide Owned, Coherent, OnlyConcerns, StrategyFollowed, SameStrategy, TerminatedSafely, CompletedSafely, Allowed,
      Effect, Refused;
    if !Refused(p.w, name, c) {
      var after := Effect(p.w, name, c);
      if Owned(p.w) {
        EffectKeepsOwned(p.w, name, c);
      }
      if Coherent(p.w) {
        EffectKeepsCoherent(p.w, name, c);
      }
      EffectTerminatesSafely(w, p.w, name, c);
      EffectCompletesSafely(w, p.w, name, c);
      EffectOnlyConcerns(p.w, name, c);
      EffectFollowsStrategy(p.w, name, c);
      if name !in p.w.registrations {
        GoneStaysGone(p.w, name, c);
      }
      OnlyConcernsTransitive(w, p.w, after, name);
      SameStrategyTransitive(w, p.w, after, name);
      StrategyFollowedTransitive(w, p.w, after, name);
    }
  }

  lemma ThenFine(w: World, p: Progress, name: string, c: Call, replies: Replies)
    requires Fine(w, p, name) && (p.ok ==> Allowed(name, Request(c, p.w)))
    ensures var q := Then(p, name, c, replies);
      && Fine(w, q, name)
      && (q.ok ==> p.ok && !Refused(p.w, name, c) && q.w == Effect(p.w, name, c))
      && (q.w == p.w || (p.ok && !Refused(p.w, name, c) && q.w == Effect(p.w, name, c)))
  {
    hide Fine, Allowed, Perform, Effect, Refused;
    if p.ok {
      PerformFine(w, p, name, c, replies);
    }
  }

  lemma StartFine(w: World, name: string)
    ensures Fine(w, Start(w), name)
  {
  }

  lemma NotOkFine(w: World, p: Progress, name: string)
    requires Fine(w, p, name)
    ensures Fine(w, p.(ok := false), name)
  {
  }

  // ---- The creation of a namespace ----

  lemma PutAccessFine(w: World, p: Progress, name: string, viewer: bool, replies: Replies)
    requires Fine(w, p, name) && Creating(p.w, name)
    requires p.ok ==> name in p.w.namespaces && p.w.list.Some?
    ensures var list := p.w.list;
      list.Some? ==>
        var subjects := Converted(if viewer then list.value.viewers else list.value.subjects);
        var q := PutAccess(p, name, viewer, subjects, replies);
        && Fine(w, q, name)
        && Creating(q.w, name)
        && (q.ok ==> p.ok && q.w == p.w.(roles := p.w.roles + {Access(name, viewer)},
          bindings := p.w.bindings[Access(name, viewer) := subjects]))
  {
    hide Fine, Then, Converted;
    var list := p.w.list;
    if list.Some? {
      var subjects := Converted(if viewer then list.value.viewers else list.value.subjects);
      ThenFine(w, p, name, PutRole(viewer), replies);
      ThenFine(w, Then(p, name, PutRole(viewer), replies), name, PutBinding(viewer, subjects), replies);
    }
  }

  lemma CreateAccessFine(w: World, p: Progress, name: string, replies: Replies)
    requires p.ok && Fine(w, p, name) && Creating(p.w, name)
    ensures var q := CreateAccess(p, name, replies);
      && Fine(w, q, name)
      && Creating(q.w, name)
      && (q.ok ==> Ready(q.w, name))
  {
    hide Fine, Then, Converted, PutAccess;
    var created := Then(p, name, CreateNamespace, replies);
    ThenFine(w, p, name, CreateNamespace, replies);
    var read := Then(created, name, GetSubjectList, replies);
    ThenFine(w, created, name, GetSubjectList, replies);
    if read.ok {
      PutAccessFine(w, read, name, false, replies);
      var user := PutAccess(read, name, false, Converted(read.w.list.value.subjects), replies);
      ListIsKept(w, read, user, name);
      PutAccessFine(w, user, name, true, replies);
    }
  }

  lemma ListIsKept(w: World, p: Progress, q: Progress, name: string)
    requires Fine(w, p, name) && Fine(w, q, name)
    ensures q.w.list == p.w.list
  {
  }

  lemma CreatePassFine(w: World, p: Progress, name: string, replies: Replies)
    requires p.ok && Fine(w, p, name) && Guarded(p.w, name)
    ensures Fine(w, CreatePass(p, name, replies), name)
  {
    hide Fine, Then, Perform, CreateAccess, Ready;
    var r := p.w.registrations[name];
    if r.phase != PhaseCompleted {
      var q := if r.phase == PhaseNew then Then(p, name, Announce(PhaseCreating, r.invalidName), replies) else p;
      if r.phase == PhaseNew {
        ThenFine(w, p, name, Announce(PhaseCreating, r.invalidName), replies);
      }
      if q.ok {
        assert Creating(q.w, name);
        CreateAccessFine(w, q, name, replies);
        var access := CreateAccess(q, name, replies);
        if access.ok {
          ThenFine(w, access, name, Announce(PhaseCompleted, false), replies);
        } else {
          ReportedFine(w, access, name, PhaseCreating, replies);
        }
        ThenStops(Reported(access, name, PhaseCreating, replies), name, Announce(PhaseCompleted, false), replies);
      }
    }
  }

  lemma ThenStops(p: Progress, name: string, c: Call, replies: Replies)
    requires !p.ok
    ensures Then(p, name, c, replies) == p
  {
  }

  lemma ReportedFine(w: World, p: Progress, name: string, phase: Phase, replies: Replies)
    requires Fine(w, p, name) && Allowed(name, Request(Report(phase), p.w))
    ensures Fine(w, Reported(p, name, phase, replies), name) && !Reported(p, name, phase, replies).ok
  {
    hide Fine, Allowed, Perform;
    PerformFine(w, p, name, Report(phase), replies);
    NotOkFine(w, Perform(p, name, Report(phase), replies), name);
  }

  // ---- The deletion of a namespace ----

  lemma DeleteAccessFine(w: World, p: Progress, name: string, viewer: bool, replies: Replies)
    requires Fine(w, p, name) && Removing(p.w, name) && name in p.w.namespaces
    requires p.ok ==> Drained(p.w.namespaces[name]) && p.w.namespaces[name].targetSyncs == []
    ensures var q := Then(Then(p, name, DeleteBinding(viewer), replies), name, DeleteRole(viewer), replies);
      && Fine(w, q, name)
      && q.w.registrations == p.w.registrations && q.w.namespaces == p.w.namespaces
      && (q.ok ==> p.ok && q.w == p.w.(roles := p.w.roles - {Access(name, viewer)},
        bindings := p.w.bindings - {Access(name, viewer)}))
  {
    hide Fine, Then, Drained;
    ThenFine(w, p, name, DeleteBinding(viewer), replies);
    ThenFine(w, Then(p, name, DeleteBinding(viewer), replies), name, DeleteRole(viewer), replies);
  }

  lemma RemoveAccessFine(w: World, p: Progress, name: string, replies: Replies)
    requires Fine(w, p, name) && Removing(p.w, name) && name in p.w.namespaces
    requires p.ok && Drained(p.w.namespaces[name]) && p.w.namespaces[name].targetSyncs == []
    ensures var q := RemoveAccess(p, name, replies);
      Fine(w, q, name) && (name !in q.w.registrations || Removing(q.w, name))
  {
    hide Fine, Then, Drained;
    DeleteAccessFine(w, p, name, false, replies);
    var user := Then(Then(p, name, DeleteBinding(false), replies), name, DeleteRole(false), replies);
    DeleteAccessFine(w, user, name, true, replies);
    var viewer := Then(Then(user, name, DeleteBinding(true), replies), name, DeleteRole(true), replies);
    NamespaceDeletable(p.w, viewer, name);
    ThenFine(w, viewer, name, DeleteNamespace, replies);
    var deleted := Then(viewer, name, DeleteNamespace, replies);
    ThenFine(w, deleted, name, RemoveFinalizer, replies);
  }

  lemma NamespaceDeletable(w: World, p: Progress, name: string)
    requires Removing(w, name) && name in w.namespaces && Drained(w.namespaces[name]) &&
      w.namespaces[name].targetSyncs == []
    requires p.w.registrations == w.registrations && p.w.namespaces == w.namespaces
    requires p.ok ==> forall viewer :: Access(name, viewer) !in p.w.roles && Access(name, viewer) !in p.w.bindings
    ensures p.ok ==> Allowed(name, Request(DeleteNamespace, p.w))
  {
  }

  lemma {:induction false} DeleteTargetSyncsFine(w: World, p: Progress, name: string, n: nat, replies: Replies)
    requires Fine(w, p, name) && Removing(p.w, name) && name in p.w.namespaces && Drained(p.w.namespaces[name])
    ensures var q := DeleteTargetSyncs(p, name, n, replies);
      && Fine(w, q, name)
      && Removing(q.w, name) && name in q.w.namespaces && Drained(q.w.namespaces[name])
  {
    hide Fine, Then;
    if n > 0 {
      DeleteTargetSyncsFine(w, p, name, n - 1, replies);
      ThenFine(w, DeleteTargetSyncs(p, name, n - 1, replies), name, DeleteTargetSync(n - 1), replies);
    }
  }

  lemma TriggeredOneFine(w: World, p: Progress, name: string, i: nat, replies: Replies)
    requires Fine(w, p, name) && Removing(p.w, name) && name in p.w.namespaces
    ensures var q := TriggeredOne(p, name, i, replies);
      Fine(w, q, name) && q.w.registrations == p.w.registrations && name in q.w.namespaces
  {
    hide Fine, Perform, DeletedOrRetriggered;
    if i < |p.w.namespaces[name].installations| {
      var inst := p.w.namespaces[name].installations[i];
      if MayDelete(p.w, name, i) {
        DeletedOrRetriggeredFine(w, p, name, i, inst, replies);
      }
      if inst.root && StrategyOf(p.w.registrations[name].strategy).WithoutUninstall? && !inst.withoutUninstall {
        PerformFine(w, p, name, Annotate(i), replies);
        var annotated := Perform(p, name, Annotate(i), replies);
        if annotated.ok {
          DeletedOrRetriggeredFine(w, annotated, name, i, inst, replies);
        }
      }
    }
  }

  lemma DeletedOrRetriggeredFine(w: World, p: Progress, name: string, i: nat, inst: Installation, replies: Replies)
    requires Fine(w, p, name) && MayDelete(p.w, name, i)
    requires inst == p.w.namespaces[name].installations[i].(withoutUninstall := inst.withoutUninstall)
    ensures var q := DeletedOrRetriggered(p, name, i, inst, replies);
      Fine(w, q, name) && q.w.registrations == p.w.registrations && name in q.w.namespaces
  {
    hide Fine, Perform;
    if !inst.deleting {
      PerformFine(w, p, name, DeleteInstallation(i), replies);
    } else if Idle(inst) {
      PerformFine(w, p, name, Retrigger(i), replies);
    }
  }

  lemma {:induction false} TriggeredFine(w: World, p: Progress, name: string, n: nat, replies: Replies)
    requires Fine(w, p, name) && Removing(p.w, name) && name in p.w.namespaces
    ensures var q := Triggered(p, name, n, replies);
      Fine(w, q, name) && q.w.registrations == p.w.registrations && name in q.w.namespaces
  {
    hide Fine, TriggeredOne;
    if n > 0 {
      TriggeredFine(w, p, name, n - 1, replies);
      TriggeredOneFine(w, Triggered(p, name, n - 1, replies), name, n - 1, replies);
    }
  }

  // A call that only reads.
  lemma ReadFine(w: World, p: Progress, name: string, c: Call, replies: Replies)
    requires Fine(w, p, name)
    requires c in {GetRegistration, GetNamespace, ListInstallations, ListExecutions, ListDeployItems, ListTargetSyncs}
    ensures Fine(w, Then(p, name, c, replies), name) && Then(p, name, c, replies).w == p.w
    ensures Then(p, name, c, replies).ok ==> p.ok && (c.GetRegistration? ==> name in p.w.registrations)
  {
    hide Fine, Then;
    ThenFine(w, p, name, c, replies);
  }

  lemma RemoveResourcesFine(w: World, p: Progress, name: string, replies: Replies)
    requires p.ok && Fine(w, p, name) && Removing(p.w, name) && name in p.w.namespaces
    ensures var q := RemoveResources(p, name, replies);
      Fine(w, q, name) && (name !in q.w.registrations || Removing(q.w, name))
  {
    hide Fine, Then, Triggered, RemoveAccess, DeleteTargetSyncs;
    var ns := p.w.namespaces[name];
    var installations := Then(p, name, ListInstallations, replies);
    ReadFine(w, p, name, ListInstallations, replies);
    TriggeredFine(w, installations, name, |ns.installations|, replies);
    NotOkFine(w, Triggered(installations, name, |ns.installations|, replies), name);
    var executions := Then(installations, name, ListExecutions, replies);
    ReadFine(w, installations, name, ListExecutions, replies);
    NotOkFine(w, executions, name);
    var deployItems := Then(executions, name, ListDeployItems, replies);
    ReadFine(w, executions, name, ListDeployItems, replies);
    NotOkFine(w, deployItems, name);
    if ns.installations == [] && ns.executions == 0 && ns.deployItems == 0 {
      var targetSyncs := Then(deployItems, name, ListTargetSyncs, replies);
      ReadFine(w, deployItems, name, ListTargetSyncs, replies);
      DeleteTargetSyncsFine(w, targetSyncs, name, |ns.targetSyncs|, replies);
      NotOkFine(w, DeleteTargetSyncs(targetSyncs, name, |ns.targetSyncs|, replies), name);
      if targetSyncs.ok && ns.targetSyncs == [] {
        RemoveAccessFine(w, targetSyncs, name, replies);
      }
    }
  }

  lemma DeletePassFine(w: World, p: Progress, name: string, replies: Replies)
    requires p.ok && Fine(w, p, name) && Deleting(p.w, name)
    ensures Fine(w, DeletePass(p, name, replies), name)
  {
    hide Fine, Then, RemoveResources, Reported;
    var q := Then(p, name, GetNamespace, replies);
    ReadFine(w, p, name, GetNamespace, replies);
    if q.ok {
      if name !in p.w.namespaces {
        ThenFine(w, q, name, RemoveFinalizer, replies);
      } else {
        var r := p.w.registrations[name];
        ThenFine(w, q, name, Announce(PhaseDeleting, false), replies);
        var a := if r.phase != PhaseDeleting then Then(q, name, Announce(PhaseDeleting, false), replies) else q;
        if a.ok {
          assert Removing(a.w, name);
          RemoveResourcesFine(w, a, name, replies);
          ReportedFine(w, RemoveResources(a, name, replies), name, PhaseDeleting, replies);
        }
      }
    }
  }

  /** Whatever calls fail, a pass makes a call only when it is allowed; it never leaves a customer namespace without a
      guarded registration; it keeps every managed binding on the SubjectList; it touches nothing but the namespace of
      its registration; about the installations there it changes only what the deletion strategy lets it change; it
      makes only an empty namespace terminate, after all access to it; and it announces completion only when the
      namespace is ready. */
  lemma PassIsSafe(w: World, name: string, replies: Replies)
    ensures var p := Pass(Start(w), name, replies);
      && AllAllowed(name, p.log)
      && (Owned(w) ==> Owned(p.w))
      && (Coherent(w) ==> Coherent(p.w))
      && OnlyConcerns(w, p.w, name)
      && StrategyFollowed(w, p.w, name)
      && TerminatedSafely(w, p.w, name)
      && CompletedSafely(w, p.w, name)
  {
    hide TerminatedSafely, CompletedSafely;
    hide Then, CreatePass, DeletePass, Owned, Coherent, OnlyConcerns, StrategyFollowed, SameStrategy, AllAllowed;
    var p := Then(Start(w), name, GetRegistration, replies);
    StartFine(w, name);
    ReadFine(w, Start(w), name, GetRegistration, replies);
    if p.ok {
      var r := w.registrations[name];
      if !IsCustomer(name) {
        ThenFine(w, p, name, Announce(PhaseFailed, true), replies);
      } else if r.deleting {
        DeletePassFine(w, p, name, replies);
      } else {
        ThenFine(w, p, name, AddFinalizer, replies);
        var q := if r.finalizer then p else Then(p, name, AddFinalizer, replies);
        if q.ok {
          CreatePassFine(w, q, name, replies);
        }
      }
    }
  }
}
