// What a pass of the NamespaceRegistration controller achieves when all its calls succeed.
module RegistrationProgress {
  import opened Common
  import opened Subjects
  import opened Registrations
  import opened RegistrationTheorems

  ghost predicate AllApplied(replies: Replies) {
    forall c :: replies(c).Applied?
  }

  lemma ThenApplied(p: Progress, name: string, c: Call, replies: Replies)
    requires AllApplied(replies) && p.ok
    ensures var q := Then(p, name, c, replies);
      && q.ok == !Refused(p.w, name, c)
      && q.w == (if q.ok then Effect(p.w, name, c) else p.w)
  {
  }

  predicate HasAccess(w: World, name: string, viewer: bool) {
    Access(name, viewer) in w.roles && Access(name, viewer) in w.bindings
  }

  lemma PutAccessApplied(p: Progress, name: string, viewer: bool, subjects: seq<Subject>, replies: Replies)
    requires AllApplied(replies) && p.ok
    ensures var q := PutAccess(p, name, viewer, subjects, replies);
      && (q.ok <==> AcceptsObjects(p.w, name) || HasAccess(p.w, name, viewer))
      && q.w.registrations == p.w.registrations && q.w.namespaces == p.w.namespaces
      && HasAccess(q.w, name, !viewer) == HasAccess(p.w, name, !viewer)
  {
    hide Then;
    assert Access(name, true) != Access(name, false) by { NamesDiffer(name); }
    ThenApplied(p, name, PutRole(viewer), replies);
    var role := Then(p, name, PutRole(viewer), replies);
    if role.ok {
      ThenApplied(role, name, PutBinding(viewer, subjects), replies);
    } else {
      ThenStops(role, name, PutBinding(viewer, subjects), replies);
    }
  }

  lemma NamesDiffer(name: string)
    ensures Access(name, true) != Access(name, false)
  {
    assert |USER| != |VIEWER|;
  }

  lemma CreateAccessApplied(p: Progress, name: string, replies: Replies)
    requires AllApplied(replies) && p.ok
    ensures var q := CreateAccess(p, name, replies);
      && (q.ok <==>
            && p.w.list.Some?
            && (name in p.w.namespaces && p.w.namespaces[name].terminating ==>
                  forall viewer :: HasAccess(p.w, name, viewer)))
      && q.w.registrations == p.w.registrations
  {
    hide Then, PutAccess, HasAccess, Converted;
    ThenApplied(p, name, CreateNamespace, replies);
    var created := Then(p, name, CreateNamespace, replies);
    ThenApplied(created, name, GetSubjectList, replies);
    var read := Then(created, name, GetSubjectList, replies);
    assert forall viewer :: HasAccess(read.w, name, viewer) == HasAccess(p.w, name, viewer) by {
      SameAccess(p.w, read.w, name);
    }
    if read.ok {
      var list := read.w.list.value;
      PutAccessApplied(read, name, false, Converted(list.subjects), replies);
      var user := PutAccess(read, name, false, Converted(list.subjects), replies);
      if user.ok {
        PutAccessApplied(user, name, true, Converted(list.viewers), replies);
      } else {
        PutAccessStops(user, name, true, Converted(list.viewers), replies);
      }
    }
  }

  lemma SameAccess(w: World, v: World, name: string)
    requires v.roles == w.roles && v.bindings == w.bindings
    ensures forall viewer :: HasAccess(v, name, viewer) == HasAccess(w, name, viewer)
  {
  }

  lemma PutAccessStops(p: Progress, name: string, viewer: bool, subjects: seq<Subject>, replies: Replies)
    requires !p.ok
    ensures PutAccess(p, name, viewer, subjects, replies) == p
  {
  }

  /** A creation pass completes, from wherever an earlier one was interrupted, exactly if there is a SubjectList and the
      namespace is not terminating with some of the access objects missing. */
  lemma CreatePassCompletes(w: World, name: string, replies: Replies)
    requires AllApplied(replies)
    requires IsCustomer(name) && name in w.registrations && !w.registrations[name].deleting && !Completed(w, name)
    ensures var p := Pass(Start(w), name, replies);
      Completed(p.w, name) <==>
        && w.list.Some?
        && (name in w.namespaces && w.namespaces[name].terminating ==> forall viewer :: HasAccess(w, name, viewer))
    ensures var p := Pass(Start(w), name, replies);
      && name in p.w.registrations
      && p.w.registrations[name] == w.registrations[name].(finalizer := true, invalidName := false,
           phase := if Completed(p.w, name) then PhaseCompleted else PhaseCreating)
  {
    hide Then, CreateAccess, HasAccess, Perform;
    ThenApplied(Start(w), name, GetRegistration, replies);
    var p := Then(Start(w), name, GetRegistration, replies);
    ThenApplied(p, name, AddFinalizer, replies);
    var guarded := if w.registrations[name].finalizer then p else Then(p, name, AddFinalizer, replies);
    var r := guarded.w.registrations[name];
    ThenApplied(guarded, name, Announce(PhaseCreating, r.invalidName), replies);
    var q := if r.phase == PhaseNew then Then(guarded, name, Announce(PhaseCreating, r.invalidName), replies)
      else guarded;
    assert forall viewer :: HasAccess(q.w, name, viewer) == HasAccess(w, name, viewer) by { SameAccess(w, q.w, name); }
    CreateAccessApplied(q, name, replies);
    var access := CreateAccess(q, name, replies);
    if access.ok {
      ThenApplied(access, name, Announce(PhaseCompleted, false), replies);
    } else {
      ReportApplied(access, name, PhaseCreating, replies);
      ThenStops(Reported(access, name, PhaseCreating, replies), name, Announce(PhaseCompleted, false), replies);
    }
  }

  lemma ReportApplied(p: Progress, name: string, phase: Phase, replies: Replies)
    requires AllApplied(replies) && name in p.w.registrations
    ensures var q := Reported(p, name, phase, replies);
      && !q.ok
      && q.w == PutRegistration(p.w, name, p.w.registrations[name].(phase := phase, invalidName := false))
  {
  }

  /** A registration whose name lacks the prefix fails: a pass with successful calls reports that once, and later passes
      only read. */
  lemma WrongNameIsReportedOnce(w: World, name: string, replies: Replies)
    requires AllApplied(replies) && name in w.registrations && !IsCustomer(name)
    ensures var r, p := w.registrations[name], Pass(Start(w), name, replies);
      && p.w == w.(registrations := w.registrations[name := r.(phase := PhaseFailed, invalidName := true)])
      && (|p.log| == 1 <==> r.phase == PhaseFailed && r.invalidName)
  {
    hide Then;
    var p := Then(Start(w), name, GetRegistration, replies);
    ThenApplied(Start(w), name, GetRegistration, replies);
    ThenApplied(p, name, Announce(PhaseFailed, true), replies);
    OneRequest(Start(w), name, GetRegistration, replies);
    OneRequest(p, name, Announce(PhaseFailed, true), replies);
    assert w.registrations[name := w.registrations[name]] == w.registrations;
  }

  lemma OneRequest(p: Progress, name: string, c: Call, replies: Replies)
    requires p.ok
    ensures |Then(p, name, c, replies).log| == |p.log| + 1
  {
  }

  /** A registration that is completed, and not being deleted, is left alone, whatever its calls answer. */
  lemma CompletedIsFinal(w: World, name: string, replies: Replies)
    requires IsCustomer(name) && Completed(w, name) && Guarded(w, name)
    ensures Pass(Start(w), name, replies).w == w
  {
  }

  lemma DeleteAccessApplied(p: Progress, name: string, viewer: bool, replies: Replies)
    requires AllApplied(replies) && p.ok
    ensures var q := Then(Then(p, name, DeleteBinding(viewer), replies), name, DeleteRole(viewer), replies);
      q.ok && q.w.registrations == p.w.registrations && q.w.namespaces == p.w.namespaces
  {
    hide Then;
    ThenApplied(p, name, DeleteBinding(viewer), replies);
    ThenApplied(Then(p, name, DeleteBinding(viewer), replies), name, DeleteRole(viewer), replies);
  }

  lemma RemoveAccessApplied(p: Progress, name: string, replies: Replies)
    requires AllApplied(replies) && p.ok && name in p.w.registrations && p.w.registrations[name].deleting &&
      name in p.w.namespaces
    ensures RemoveAccess(p, name, replies).ok && name !in RemoveAccess(p, name, replies).w.registrations
  {
    hide Then;
    DeleteAccessApplied(p, name, false, replies);
    var user := Then(Then(p, name, DeleteBinding(false), replies), name, DeleteRole(false), replies);
    DeleteAccessApplied(user, name, true, replies);
    var viewer := Then(Then(user, name, DeleteBinding(true), replies), name, DeleteRole(true), replies);
    ThenApplied(viewer, name, DeleteNamespace, replies);
    ThenApplied(Then(viewer, name, DeleteNamespace, replies), name, RemoveFinalizer, replies);
  }

  predicate Removable(w: World, name: string) {
    name in w.namespaces && Drained(w.namespaces[name]) && w.namespaces[name].targetSyncs == []
  }

  lemma {:induction false} DeleteTargetSyncsKeepsRegistrations(p: Progress, name: string, n: nat, replies: Replies)
    ensures DeleteTargetSyncs(p, name, n, replies).w.registrations == p.w.registrations
  {
    hide PutRegistration, Change;
    if n > 0 {
      DeleteTargetSyncsKeepsRegistrations(p, name, n - 1, replies);
    }
  }

  lemma RemoveResourcesApplied(p: Progress, name: string, replies: Replies)
    requires AllApplied(replies) && p.ok && name in p.w.registrations && p.w.registrations[name].deleting &&
      name in p.w.namespaces
    ensures var q := RemoveResources(p, name, replies);
      && (q.ok <==> Removable(p.w, name))
      && (q.ok <==> name !in q.w.registrations)
      && (!q.ok ==> q.w.registrations == p.w.registrations)
  {
    hide Then, RemoveAccess, Triggered, DeleteTargetSyncs;
    var ns := p.w.namespaces[name];
    ThenApplied(p, name, ListInstallations, replies);
    var installations := Then(p, name, ListInstallations, replies);
    if ns.installations != [] {
      TriggeredFrame(installations, name, |ns.installations|, replies);
    }
    ThenApplied(installations, name, ListExecutions, replies);
    var executions := Then(installations, name, ListExecutions, replies);
    ThenApplied(executions, name, ListDeployItems, replies);
    var deployItems := Then(executions, name, ListDeployItems, replies);
    ThenApplied(deployItems, name, ListTargetSyncs, replies);
    var targetSyncs := Then(deployItems, name, ListTargetSyncs, replies);
    DeleteTargetSyncsKeepsRegistrations(targetSyncs, name, |ns.targetSyncs|, replies);
    if Removable(p.w, name) {
      RemoveAccessApplied(targetSyncs, name, replies);
    }
  }

  /** A deletion pass releases its registration exactly if the namespace is gone, or holds nothing any more. */
  lemma DeletePassReleases(w: World, name: string, replies: Replies)
    requires AllApplied(replies) && Deleting(w, name)
    ensures name !in Pass(Start(w), name, replies).w.registrations <==> name !in w.namespaces || Removable(w, name)
    ensures var v := Pass(Start(w), name, replies).w;
      name in v.registrations ==>
        v.registrations[name] == w.registrations[name].(invalidName := false, phase := PhaseDeleting)
  {
    hide Then, RemoveResources, Reported;
    ThenApplied(Start(w), name, GetRegistration, replies);
    var p := Then(Start(w), name, GetRegistration, replies);
    ThenApplied(p, name, GetNamespace, replies);
    var q := Then(p, name, GetNamespace, replies);
    if name !in w.namespaces {
      ThenApplied(q, name, RemoveFinalizer, replies);
    } else {
      ThenApplied(q, name, Announce(PhaseDeleting, false), replies);
      var a := if w.registrations[name].phase != PhaseDeleting then
        Then(q, name, Announce(PhaseDeleting, false), replies) else q;
      RemoveResourcesApplied(a, name, replies);
      var removed := RemoveResources(a, name, replies);
      if !removed.ok {
        ReportApplied(removed, name, PhaseDeleting, replies);
      }
    }
  }

  // ---- Deletion strategies ----

  /** The annotations that select a strategy, by their texts. */
  lemma StrategiesByName(annotation: string)
    ensures StrategyOf("") == Default
    ensures StrategyOf("delete-all-installations") == WithUninstall
    ensures StrategyOf("delete-all-installations-without-uninstall") == WithoutUninstall
    ensures annotation !in ["", "delete-all-installations", "delete-all-installations-without-uninstall"] ==>
      StrategyOf(annotation) == Unknown
  {
    assert |DELETE_ALL| < |DELETE_ALL_WITHOUT_UNINSTALL|;
  }

  // What becomes of an installation: it stays as it is, unless the registration is to delete it. Then it is marked, in
  // the one case after the annotation, and an idle deletion is started again.
  predicate Marks(annotation: string, inst: Installation, inst': Installation) {
    if Covered(annotation, inst) then
      && inst' == inst.(withoutUninstall := inst'.withoutUninstall, deleting := true, reconcile := inst'.reconcile)
      && (inst'.withoutUninstall <==> inst.withoutUninstall || annotation == DELETE_ALL_WITHOUT_UNINSTALL)
      && (inst'.reconcile <==> inst.reconcile || (inst.deleting && inst.finished))
    else inst' == inst
  }

  lemma TriggeredOneMarks(p: Progress, name: string, i: nat, replies: Replies)
    requires AllApplied(replies) && name in p.w.registrations && name in p.w.namespaces &&
      i < |p.w.namespaces[name].installations|
    ensures var w := TriggeredOne(p, name, i, replies).w;
      && name in w.namespaces && i < |w.namespaces[name].installations|
      && Marks(p.w.registrations[name].strategy, p.w.namespaces[name].installations[i],
        w.namespaces[name].installations[i])
  {
    hide Perform;
    PerformMarks(p, name, Annotate(i), i, replies);
    var annotated := Perform(p, name, Annotate(i), replies);
    PerformMarks(p, name, DeleteInstallation(i), i, replies);
    PerformMarks(annotated, name, DeleteInstallation(i), i, replies);
    PerformMarks(p, name, Retrigger(i), i, replies);
    PerformMarks(annotated, name, Retrigger(i), i, replies);
  }

  lemma PerformMarks(p: Progress, name: string, c: Call, i: nat, replies: Replies)
    requires AllApplied(replies) && name in p.w.registrations && name in p.w.namespaces &&
      i < |p.w.namespaces[name].installations|
    requires c in {Annotate(i), DeleteInstallation(i), Retrigger(i)}
    ensures var q, inst := Perform(p, name, c, replies), p.w.namespaces[name].installations[i];
      && q.ok && q.w.registrations == p.w.registrations
      && name in q.w.namespaces && i < |q.w.namespaces[name].installations|
      && q.w.namespaces[name].installations[i]
         == if c.Annotate? then inst.(withoutUninstall := true) else if c.Retrigger? then inst.(reconcile := true)
           else inst.(deleting := true)
  {
  }

  lemma UnknownMarksNothing(annotation: string, inst: Installation)
    requires StrategyOf(annotation).Unknown?
    ensures Marks(annotation, inst, inst)
  {
  }

  lemma {:induction false} TriggeredMarks(p: Progress, name: string, n: nat, replies: Replies)
    requires AllApplied(replies) && name in p.w.registrations && name in p.w.namespaces &&
      n <= |p.w.namespaces[name].installations|
    ensures var w := Triggered(p, name, n, replies).w;
      && OnlyInstallations(p.w, w, name, n)
      && forall i :: 0 <= i < n ==>
           Marks(p.w.registrations[name].strategy, p.w.namespaces[name].installations[i],
             w.namespaces[name].installations[i])
  {
    hide TriggeredOne, StrategyOf, Marks;
    var annotation := p.w.registrations[name].strategy;
    if StrategyOf(annotation).Unknown? {
      forall i | 0 <= i < n
        ensures Marks(annotation, p.w.namespaces[name].installations[i], p.w.namespaces[name].installations[i])
      {
        UnknownMarksNothing(annotation, p.w.namespaces[name].installations[i]);
      }
    } else if n > 0 {
      TriggeredMarks(p, name, n - 1, replies);
      TriggeredFrame(p, name, n - 1, replies);
      var before := Triggered(p, name, n - 1, replies);
      TriggeredOneFrame(before, name, n - 1, replies);
      TriggeredOneMarks(before, name, n - 1, replies);
    }
  }

  /** A deletion pass over a namespace with installations marks exactly the root installations that the registration is
      to delete, annotates them if they are not to be uninstalled, starts idle deletions again, and leaves the others as
      they are. */
  lemma DeletePassMarks(w: World, name: string, replies: Replies)
    requires AllApplied(replies) && Deleting(w, name) && name in w.namespaces && w.namespaces[name].installations != []
    ensures var v, was := Pass(Start(w), name, replies).w, w.namespaces[name].installations;
      && name in v.namespaces && |v.namespaces[name].installations| == |was|
      && forall i :: 0 <= i < |was| ==>
           Marks(w.registrations[name].strategy, was[i], v.namespaces[name].installations[i])
  {
    hide Then, Triggered, Reported, Marks;
    ThenApplied(Start(w), name, GetRegistration, replies);
    var p := Then(Start(w), name, GetRegistration, replies);
    ThenApplied(p, name, GetNamespace, replies);
    var q := Then(p, name, GetNamespace, replies);
    ThenApplied(q, name, Announce(PhaseDeleting, false), replies);
    var a := if w.registrations[name].phase != PhaseDeleting then Then(q, name, Announce(PhaseDeleting, false), replies)
      else q;
    ThenApplied(a, name, ListInstallations, replies);
    var listed := Then(a, name, ListInstallations, replies);
    TriggeredMarks(listed, name, |w.namespaces[name].installations|, replies);
    ReportApplied(RemoveResources(a, name, replies), name, PhaseDeleting, replies);
  }

  // ---- Target syncs ----

  lemma {:induction false} DeleteTargetSyncsApplied(p: Progress, name: string, n: nat, replies: Replies)
    requires AllApplied(replies) && p.ok && name in p.w.namespaces && n <= |p.w.namespaces[name].targetSyncs|
    ensures var q := DeleteTargetSyncs(p, name, n, replies);
      && q.ok && q.w.registrations == p.w.registrations && name in q.w.namespaces
      && var was, now := p.w.namespaces[name], q.w.namespaces[name];
         && now == was.(targetSyncs := now.targetSyncs) && |now.targetSyncs| == |was.targetSyncs|
         && forall i :: 0 <= i < |was.targetSyncs| ==> now.targetSyncs[i] == (i < n || was.targetSyncs[i])
  {
    hide Then;
    if n > 0 {
      DeleteTargetSyncsApplied(p, name, n - 1, replies);
      ThenApplied(DeleteTargetSyncs(p, name, n - 1, replies), name, DeleteTargetSync(n - 1), replies);
    }
  }

  /** A deletion pass over a namespace in which only target syncs are left deletes all of them. */
  lemma DeletePassDeletesTargetSyncs(w: World, name: string, replies: Replies)
    requires AllApplied(replies) && Deleting(w, name) && name in w.namespaces
    requires Drained(w.namespaces[name]) && w.namespaces[name].targetSyncs != []
    ensures var v, was := Pass(Start(w), name, replies).w, w.namespaces[name].targetSyncs;
      && name in v.namespaces
      && v.namespaces[name] == w.namespaces[name].(targetSyncs := seq(|was|, _ => true))
  {
    hide Then, DeleteTargetSyncs, Reported;
    ThenApplied(Start(w), name, GetRegistration, replies);
    var p := Then(Start(w), name, GetRegistration, replies);
    ThenApplied(p, name, GetNamespace, replies);
    var q := Then(p, name, GetNamespace, replies);
    ThenApplied(q, name, Announce(PhaseDeleting, false), replies);
    var a := if w.registrations[name].phase != PhaseDeleting then Then(q, name, Announce(PhaseDeleting, false), replies)
      else q;
    ThenApplied(a, name, ListInstallations, replies);
    var installations := Then(a, name, ListInstallations, replies);
    ThenApplied(installations, name, ListExecutions, replies);
    var executions := Then(installations, name, ListExecutions, replies);
    ThenApplied(executions, name, ListDeployItems, replies);
    var deployItems := Then(executions, name, ListDeployItems, replies);
    ThenApplied(deployItems, name, ListTargetSyncs, replies);
    var targetSyncs := Then(deployItems, name, ListTargetSyncs, replies);
    var n := |w.namespaces[name].targetSyncs|;
    DeleteTargetSyncsApplied(targetSyncs, name, n, replies);
    var deleted := DeleteTargetSyncs(targetSyncs, name, n, replies);
    assert deleted.w.namespaces[name].targetSyncs == seq(n, _ => true);
    ReportApplied(RemoveResources(a, name, replies), name, PhaseDeleting, replies);
  }
}
