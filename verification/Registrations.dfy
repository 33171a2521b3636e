// The controller for NamespaceRegistrations: it creates a customer namespace with its roles and role bindings, and
// removes them again, on a cluster that it shares with the controller for the SubjectList.
module Registrations {
  import opened Common
  import opened Subjects

  const CUSTOM_NS_PREFIX := "cu-"
  const USER := "landscaper-service:landscaper-user"
  const VIEWER := "landscaper-service:landscaper-viewer"
  const DELETE_ALL := "delete-all-installations"
  const DELETE_ALL_WITHOUT_UNINSTALL := "delete-all-installations-without-uninstall"

  datatype Phase = PhaseNew | PhaseCreating | PhaseFailed | PhaseCompleted | PhaseDeleting

  // `invalidName`: the last error is that the name lacks the prefix.
  datatype Registration = Registration(phase: Phase, invalidName: bool, finalizer: bool, deleting: bool,
      strategy: string)

  // `withoutUninstall` and `reconcile` are annotations; `finished`: the last job of the installation is done.
  datatype Installation = Installation(root: bool, withoutUninstall: bool, deleting: bool, finished: bool,
      reconcile: bool)

  // A namespace with what the controller looks for in it; of a target sync, whether it is marked for deletion.
  datatype Namespace = Namespace(
    terminating: bool, installations: seq<Installation>, executions: nat, deployItems: nat, targetSyncs: seq<bool>)

  datatype SubjectList = SubjectList(subjects: seq<Entry>, viewers: seq<Entry>, finalizer: bool, deleting: bool)

  datatype World = World(
    list: Option<SubjectList>,
    registrations: map<string, Registration>,
    namespaces: map<string, Namespace>,
    roles: set<ObjectReference>,
    bindings: map<ObjectReference, seq<Subject>>,
    clusterBindings: map<string, seq<Subject>>)

  predicate IsCustomer(namespace: string) {
    CUSTOM_NS_PREFIX <= namespace
  }

  // A role and its binding have the same name.
  function Access(namespace: string, viewer: bool): ObjectReference {
    ObjectReference(if viewer then VIEWER else USER, namespace)
  }

  // ---- Calls of the API server ----

  // The calls of one pass; each of them happens at most once.
  datatype Call =
    | GetRegistration | GetNamespace | GetSubjectList
    | ListInstallations | ListExecutions | ListDeployItems | ListTargetSyncs
    | Announce(phase: Phase, invalidName: bool) | Report(phase: Phase)
    | AddFinalizer | RemoveFinalizer
    | CreateNamespace | DeleteNamespace
    | PutRole(viewer: bool) | PutBinding(viewer: bool, subjects: seq<Subject>)
    | DeleteBinding(viewer: bool) | DeleteRole(viewer: bool)
    | Annotate(i: nat) | DeleteInstallation(i: nat) | Retrigger(i: nat) | DeleteTargetSync(i: nat)

  type Replies = Call -> Outcome

  // The calls that cannot succeed: nothing is created in a namespace that is missing or terminating, and what is
  // gone can be neither read nor updated.
  predicate Refused(w: World, name: string, c: Call) {
    match c
    case GetRegistration | Announce(_, _) | Report(_) | AddFinalizer | RemoveFinalizer => name !in w.registrations
    case GetSubjectList => w.list.None?
    case PutRole(viewer) => Access(name, viewer) !in w.roles && !AcceptsObjects(w, name)
    case PutBinding(viewer, _) => Access(name, viewer) !in w.bindings && !AcceptsObjects(w, name)
    case DeleteNamespace | Annotate(_) | DeleteInstallation(_) | Retrigger(_) | DeleteTargetSync(_) =>
      name !in w.namespaces
    case _ => false
  }

  predicate AcceptsObjects(w: World, name: string) {
    name in w.namespaces && !w.namespaces[name].terminating
  }

  function Effect(w: World, name: string, c: Call): World
    requires !Refused(w, name, c)
  {
    match c
    case Announce(phase, invalidName) => PutRegistration(w, name,
      w.registrations[name].(phase := phase, invalidName := invalidName))
    case Report(phase) => PutRegistration(w, name, w.registrations[name].(phase := phase, invalidName := false))
    case AddFinalizer => PutRegistration(w, name, w.registrations[name].(finalizer := true))
    case RemoveFinalizer =>
      if w.registrations[name].deleting then w.(registrations := w.registrations - {name})
      else PutRegistration(w, name, w.registrations[name].(finalizer := false))
    case CreateNamespace =>
      // a namespace that exists already is as good
      if name in w.namespaces then w else w.(namespaces := w.namespaces[name := Namespace(false, [], 0, 0, [])])
    case DeleteNamespace => PutNamespace(w, name, w.namespaces[name].(terminating := true))
    case PutRole(viewer) => w.(roles := w.roles + {Access(name, viewer)})
    case PutBinding(viewer, subjects) => w.(bindings := w.bindings[Access(name, viewer) := subjects])
    case DeleteBinding(viewer) => w.(bindings := w.bindings - {Access(name, viewer)})
    case DeleteRole(viewer) => w.(roles := w.roles - {Access(name, viewer)})
    case Annotate(i) => Change(w, name, i, (inst: Installation) => inst.(withoutUninstall := true))
    case DeleteInstallation(i) => Change(w, name, i, (inst: Installation) => inst.(deleting := true))
    case Retrigger(i) => Change(w, name, i, (inst: Installation) => inst.(reconcile := true))
    case DeleteTargetSync(i) =>
      var ns := w.namespaces[name];
      if i < |ns.targetSyncs| then PutNamespace(w, name, ns.(targetSyncs := ns.targetSyncs[i := true])) else w
    case _ => w
  }

  function PutRegistration(w: World, name: string, r: Registration): World {
    w.(registrations := w.registrations[name := r])
  }

  function PutNamespace(w: World, name: string, ns: Namespace): World {
    w.(namespaces := w.namespaces[name := ns])
  }

  function Change(w: World, name: string, i: nat, f: Installation -> Installation): World
    requires name in w.namespaces
  {
    var ns := w.namespaces[name];
    if i < |ns.installations| then
      PutNamespace(w, name, ns.(installations := ns.installations[i := f(ns.installations[i])])) else w
  }

  // A call together with the state of the cluster when it reaches the API server.
  datatype Request = Request(call: Call, before: World)

  // How far a pass has come: the cluster, whether the last call succeeded, and all calls so far.
  datatype Progress = Progress(w: World, ok: bool, log: seq<Request>)

  function Perform(p: Progress, name: string, c: Call, replies: Replies): Progress {
    var log := p.log + [Request(c, p.w)];
    if Refused(p.w, name, c) || replies(c).Failed? then Progress(p.w, false, log)
    else Progress(Effect(p.w, name, c), replies(c).Applied?, log)
  }

  // The next call of a pass that stops at the first call that fails.
  function Then(p: Progress, name: string, c: Call, replies: Replies): Progress {
    if p.ok then Perform(p, name, c, replies) else p
  }

  // logErrorUpdateAndRetry
  function Reported(p: Progress, name: string, phase: Phase, replies: Replies): Progress {
    Perform(p, name, Report(phase), replies).(ok := false)
  }

  function ReportedIfFailed(p: Progress, name: string, phase: Phase, replies: Replies): Progress {
    if p.ok then p else Reported(p, name, phase, replies)
  }

  // ---- One pass, as a function ----

  function Start(w: World): Progress {
    Progress(w, true, [])
  }

  function Pass(start: Progress, name: string, replies: Replies): Progress {
    var p := Then(start, name, GetRegistration, replies);
    if !p.ok || name !in p.w.registrations then p
    else
      var r := p.w.registrations[name];
      if !IsCustomer(name) then
        if r.phase != PhaseFailed || !r.invalidName then Then(p, name, Announce(PhaseFailed, true), replies) else p
      else if r.deleting then DeletePass(p, name, replies)
      else
        var q := if r.finalizer then p else Then(p, name, AddFinalizer, replies);
        if q.ok then CreatePass(q, name, replies) else q
  }

  function CreatePass(p: Progress, name: string, replies: Replies): Progress
    requires name in p.w.registrations
  {
    var r := p.w.registrations[name];
    if r.phase == PhaseCompleted then p
    else
      var q := if r.phase == PhaseNew then Then(p, name, Announce(PhaseCreating, r.invalidName), replies) else p;
      if !q.ok then q
      else Then(ReportedIfFailed(CreateAccess(q, name, replies), name, PhaseCreating, replies), name,
        Announce(PhaseCompleted, false), replies)
  }

  function CreateAccess(p: Progress, name: string, replies: Replies): Progress {
    var read := Then(Then(p, name, CreateNamespace, replies), name, GetSubjectList, replies);
    if !read.ok then read
    else
      var list := read.w.list.value;
      PutAccess(PutAccess(read, name, false, Converted(list.subjects), replies), name, true, Converted(list.viewers),
        replies)
  }

  function PutAccess(p: Progress, name: string, viewer: bool, subjects: seq<Subject>, replies: Replies): Progress {
    Then(Then(p, name, PutRole(viewer), replies), name, PutBinding(viewer, subjects), replies)
  }

  function DeletePass(p: Progress, name: string, replies: Replies): Progress
    requires name in p.w.registrations
  {
    var q := Then(p, name, GetNamespace, replies);
    if !q.ok then q
    else if name !in p.w.namespaces then Then(q, name, RemoveFinalizer, replies)
    else
      var a := if p.w.registrations[name].phase != PhaseDeleting then
        Then(q, name, Announce(PhaseDeleting, false), replies) else q;
      if a.ok then ReportedIfFailed(RemoveResources(a, name, replies), name, PhaseDeleting, replies) else a
  }

  // A result that is not ok stands for an error and for "still waiting"; both are reported the same way.
  function RemoveResources(p: Progress, name: string, replies: Replies): Progress
    requires name in p.w.namespaces
  {
    var ns := p.w.namespaces[name];
    var installations := Then(p, name, ListInstallations, replies);
    if !installations.ok then installations
    else if ns.installations != [] then Triggered(installations, name, |ns.installations|, replies).(ok := false)
    else
      var executions := Then(installations, name, ListExecutions, replies);
      if !executions.ok || ns.executions > 0 then executions.(ok := false)
      else
        var deployItems := Then(executions, name, ListDeployItems, replies);
        if !deployItems.ok || ns.deployItems > 0 then deployItems.(ok := false)
        else
          var targetSyncs := Then(deployItems, name, ListTargetSyncs, replies);
          if !targetSyncs.ok then targetSyncs
          else if ns.targetSyncs != [] then
            DeleteTargetSyncs(targetSyncs, name, |ns.targetSyncs|, replies).(ok := false)
          else RemoveAccess(targetSyncs, name, replies)
  }

  function DeleteTargetSyncs(p: Progress, name: string, n: nat, replies: Replies): Progress {
    if n == 0 then p else Then(DeleteTargetSyncs(p, name, n - 1, replies), name, DeleteTargetSync(n - 1), replies)
  }

  function RemoveAccess(p: Progress, name: string, replies: Replies): Progress {
    var user := Then(Then(p, name, DeleteBinding(false), replies), name, DeleteRole(false), replies);
    var viewer := Then(Then(user, name, DeleteBinding(true), replies), name, DeleteRole(true), replies);
    Then(Then(viewer, name, DeleteNamespace, replies), name, RemoveFinalizer, replies)
  }

  // ---- Deletion strategies ----

  datatype Strategy = Default | WithUninstall | WithoutUninstall | Unknown

  function StrategyOf(annotation: string): Strategy {
    if annotation == "" then Default
    else if annotation == DELETE_ALL then WithUninstall
    else if annotation == DELETE_ALL_WITHOUT_UNINSTALL then WithoutUninstall
    else Unknown
  }

  // The first `n` installations of the namespace; an error with one of them does not stop the others.
  function Triggered(p: Progress, name: string, n: nat, replies: Replies): Progress {
    if n == 0 || name !in p.w.registrations || StrategyOf(p.w.registrations[name].strategy).Unknown? then p
    else TriggeredOne(Triggered(p, name, n - 1, replies), name, n - 1, replies)
  }

  function TriggeredOne(p: Progress, name: string, i: nat, replies: Replies): Progress {
    if name !in p.w.registrations || name !in p.w.namespaces || i >= |p.w.namespaces[name].installations| then p
    else
      var inst := p.w.namespaces[name].installations[i];
      if !inst.root then p
      else
        match StrategyOf(p.w.registrations[name].strategy)
        case Default => if inst.withoutUninstall then DeletedOrRetriggered(p, name, i, inst, replies) else p
        case WithUninstall => DeletedOrRetriggered(p, name, i, inst, replies)
        case WithoutUninstall =>
          if inst.withoutUninstall then DeletedOrRetriggered(p, name, i, inst, replies)
          else
            var annotated := Perform(p, name, Annotate(i), replies);
            if annotated.ok then DeletedOrRetriggered(annotated, name, i, inst, replies) else annotated
        case Unknown => p
  }

  function DeletedOrRetriggered(p: Progress, name: string, i: nat, inst: Installation, replies: Replies): Progress {
    if !inst.deleting then Perform(p, name, DeleteInstallation(i), replies)
    else if inst.finished && !inst.reconcile then Perform(p, name, Retrigger(i), replies)
    else p
  }

  // ---- The controller ----

  class Sidecar {
    var list: Option<SubjectList>
    var registrations: map<string, Registration>
    var namespaces: map<string, Namespace>
    var roles: set<ObjectReference>
    var bindings: map<ObjectReference, seq<Subject>>
    var clusterBindings: map<string, seq<Subject>>
    ghost var log: seq<Request>

    function State(): World
      reads this
    {
      World(list, registrations, namespaces, roles, bindings, clusterBindings)
    }

    ghost function Track(ok: bool): Progress
      reads this
    {
      Progress(State(), ok, log)
    }

    // One call of the API server.
    method Do(name: string, c: Call, replies: Replies) returns (ok: bool)
      modifies this
      ensures Track(ok) == Perform(old(Track(true)), name, c, replies)
      ensures ok == (!Refused(old(State()), name, c) && replies(c).Applied?)
      ensures ok ==> State() == Effect(old(State()), name, c)
    {
      log := log + [Request(c, State())];
      if Refused(State(), name, c) || replies(c).Failed? {
        return false;
      }
      var w := Effect(State(), name, c);
      list, registrations, namespaces := w.list, w.registrations, w.namespaces;
      roles, bindings, clusterBindings := w.roles, w.bindings, w.clusterBindings;
      ok := replies(c).Applied?;
    }

    // A call that only reads.
    method Read(name: string, c: Call, replies: Replies) returns (ok: bool)
      requires c in {GetRegistration, GetNamespace, ListInstallations, ListExecutions, ListDeployItems, ListTargetSyncs}
      modifies this
      ensures Track(ok) == Perform(old(Track(true)), name, c, replies) && State() == old(State())
    {
      ok := Do(name, c, replies);
    }

    method LogErrorUpdateAndRetry(name: string, phase: Phase, replies: Replies)
      modifies this
      ensures Track(false) == Reported(old(Track(false)), name, phase, replies)
    {
      var _ := Do(name, Report(phase), replies);
    }

    method Reconcile(name: string, replies: Replies) returns (ok: bool)
      modifies this
      ensures Track(ok) == Pass(old(Track(true)), name, replies)
    {
      ok := Do(name, GetRegistration, replies);
      if !ok {
        return;
      }
      var r := registrations[name];
      if !IsCustomer(name) {
        if r.phase != PhaseFailed || !r.invalidName {
          ok := Do(name, Announce(PhaseFailed, true), replies);
        }
        return;
      }
      if !r.deleting && !r.finalizer {
        ok := Do(name, AddFinalizer, replies);
        if !ok {
          return;
        }
      }
      if r.deleting {
        ok := HandleDelete(name, replies);
        return;
      }
      ok := ReconcileCreate(name, replies);
    }

    method ReconcileCreate(name: string, replies: Replies) returns (ok: bool)
      requires name in registrations
      modifies this
      ensures Track(ok) == CreatePass(old(Track(true)), name, replies)
    {
      var r := registrations[name];
      if r.phase == PhaseCompleted {
        return true;
      }
      if r.phase == PhaseNew {
        ok := Do(name, Announce(PhaseCreating, r.invalidName), replies);
        if !ok {
          return;
        }
      }
      ok := CreateNamespaceAndAccess(name, replies);
      if !ok {
        LogErrorUpdateAndRetry(name, PhaseCreating, replies);
        return;
      }
      ok := Do(name, Announce(PhaseCompleted, false), replies);
    }

    method CreateNamespaceAndAccess(name: string, replies: Replies) returns (ok: bool)
      modifies this
      ensures Track(ok) == CreateAccess(old(Track(true)), name, replies)
    {
      ok := Do(name, CreateNamespace, replies);
      if !ok {
        return;
      }
      ok := Do(name, GetSubjectList, replies);
      if !ok {
        return;
      }
      var subjectList := list.value;
      var subjects := CreateSubjectsForSubjectList(subjectList.subjects);
      ok := Do(name, PutRole(false), replies);
      if !ok {
        return;
      }
      ok := Do(name, PutBinding(false, subjects), replies);
      if !ok {
        return;
      }
      var viewerSubjects := CreateSubjectsForSubjectList(subjectList.viewers);
      ok := Do(name, PutRole(true), replies);
      if !ok {
        return;
      }
      ok := Do(name, PutBinding(true, viewerSubjects), replies);
    }

    method HandleDelete(name: string, replies: Replies) returns (ok: bool)
      requires name in registrations
      modifies this
      ensures Track(ok) == DeletePass(old(Track(true)), name, replies)
    {
      ok := Do(name, GetNamespace, replies);
      if !ok {
        return;
      }
      if name !in namespaces {
        ok := Do(name, RemoveFinalizer, replies);
        return;
      }
      if registrations[name].phase != PhaseDeleting {
        ok := Do(name, Announce(PhaseDeleting, false), replies);
        if !ok {
          return;
        }
      }
      ok := RemoveResourcesAndNamespace(name, replies);
      if !ok {
        LogErrorUpdateAndRetry(name, PhaseDeleting, replies);
      }
    }

    method RemoveResourcesAndNamespace(name: string, replies: Replies) returns (ok: bool)
      requires name in registrations && name in namespaces
      modifies this
      ensures Track(ok) == RemoveResources(old(Track(true)), name, replies)
    {
      hide Perform, Triggered, RemoveAccess;
      var ns := namespaces[name];
      ok := Read(name, ListInstallations, replies);
      if !ok {
        return;
      }
      if ns.installations != [] {
        TriggerDeletionOfInstallations(name, ns.installations, replies);
        return false;
      }
      ok := Read(name, ListExecutions, replies);
      if !ok || ns.executions > 0 {
        return false;
      }
      ok := Read(name, ListDeployItems, replies);
      if !ok || ns.deployItems > 0 {
        return false;
      }
      ok := Read(name, ListTargetSyncs, replies);
      if !ok {
        return;
      }
      if ns.targetSyncs != [] {
        ghost var listed := Track(true);
        for i := 0 to |ns.targetSyncs|
          invariant ok
          invariant Track(true) == DeleteTargetSyncs(listed, name, i, replies)
        {
          ok := Do(name, DeleteTargetSync(i), replies);
          if !ok {
            DeletionStopped(listed, name, i + 1, |ns.targetSyncs|, replies);
            return;
          }
        }
        return false;
      }
      ok := RemoveAccessDataAndNamespace(name, replies);
    }

    method RemoveAccessDataAndNamespace(name: string, replies: Replies) returns (ok: bool)
      modifies this
      ensures Track(ok) == RemoveAccess(old(Track(true)), name, replies)
    {
      ok := Do(name, DeleteBinding(false), replies);
      if !ok {
        return;
      }
      ok := Do(name, DeleteRole(false), replies);
      if !ok {
        return;
      }
      ok := Do(name, DeleteBinding(true), replies);
      if !ok {
        return;
      }
      ok := Do(name, DeleteRole(true), replies);
      if !ok {
        return;
      }
      ok := Do(name, DeleteNamespace, replies);
      if !ok {
        return;
      }
      ok := Do(name, RemoveFinalizer, replies);
    }

    method TriggerDeletionOfInstallations(name: string, installations: seq<Installation>, replies: Replies)
      requires name in registrations && name in namespaces && installations == namespaces[name].installations
      modifies this
      ensures Track(false) == Triggered(old(Track(true)), name, |installations|, replies).(ok := false)
    {
      hide TriggeredOne;
      var strategy := StrategyOf(registrations[name].strategy);
      if strategy.Unknown? {
        return;
      }
      ghost var start := Track(true);
      ghost var ok := true;
      for i := 0 to |installations|
        invariant Track(ok) == Triggered(start, name, i, replies)
      {
        TriggeredFrame(start, name, i, replies);
        if installations[i].root {
          ok := TriggerDeletion(name, i, installations[i], strategy, ok, replies);
        } else {
          NotRootUntouched(Triggered(start, name, i, replies), name, i, replies);
        }
      }
    }

    method TriggerDeletion(name: string, i: nat, inst: Installation, strategy: Strategy, ghost before: bool,
        replies: Replies)
      returns (ghost ok: bool)
      requires name in registrations && strategy == StrategyOf(registrations[name].strategy)
      requires name in namespaces && i < |namespaces[name].installations| &&
        inst == namespaces[name].installations[i] && inst.root
      modifies this
      ensures Track(ok) == TriggeredOne(old(Track(before)), name, i, replies)
    {
      ok := before;
      match strategy
      case Default =>
        if inst.withoutUninstall {
          ok := DeleteOrRetriggerDelete(name, i, inst, before, replies);
        }
      case WithUninstall =>
        ok := DeleteOrRetriggerDelete(name, i, inst, before, replies);
      case WithoutUninstall =>
        if !inst.withoutUninstall {
          var annotated := Do(name, Annotate(i), replies);
          ok := annotated;
          if !annotated {
            return;
          }
        }
        ok := DeleteOrRetriggerDelete(name, i, inst, ok, replies);
      case Unknown =>
    }

    method DeleteOrRetriggerDelete(name: string, i: nat, inst: Installation, ghost before: bool, replies: Replies)
      returns (ghost ok: bool)
      modifies this
      ensures Track(ok) == DeletedOrRetriggered(old(Track(before)), name, i, inst, replies)
    {
      ok := before;
      if !inst.deleting {
        ok := Do(name, DeleteInstallation(i), replies);
      } else if inst.finished && !inst.reconcile {
        ok := Do(name, Retrigger(i), replies);
      }
    }
  }

  lemma {:induction false} DeletionStopped(p: Progress, name: string, i: nat, n: nat, replies: Replies)
    requires i <= n && !DeleteTargetSyncs(p, name, i, replies).ok
    ensures DeleteTargetSyncs(p, name, n, replies) == DeleteTargetSyncs(p, name, i, replies)
  {
    if i < n {
      DeletionStopped(p, name, i, n - 1, replies);
    }
  }

  // `after` differs from `before` at most in the first `n` installations of the namespace.
  ghost predicate OnlyInstallations(before: World, after: World, name: string, n: nat) {
    && after == before.(namespaces := after.namespaces)
    && name in before.namespaces && name in after.namespaces
    && n <= |before.namespaces[name].installations| == |after.namespaces[name].installations|
    && forall j :: n <= j < |before.namespaces[name].installations| ==>
         after.namespaces[name].installations[j] == before.namespaces[name].installations[j]
  }

  lemma NotRootUntouched(p: Progress, name: string, i: nat, replies: Replies)
    requires name in p.w.namespaces && i < |p.w.namespaces[name].installations| &&
      !p.w.namespaces[name].installations[i].root
    ensures TriggeredOne(p, name, i, replies) == p
  {
  }

  lemma {:induction false} TriggeredFrame(p: Progress, name: string, n: nat, replies: Replies)
    requires name in p.w.registrations && name in p.w.namespaces && n <= |p.w.namespaces[name].installations|
    ensures OnlyInstallations(p.w, Triggered(p, name, n, replies).w, name, n)
  {
    hide Perform, TriggeredOne;
    if n > 0 && !StrategyOf(p.w.registrations[name].strategy).Unknown? {
      TriggeredFrame(p, name, n - 1, replies);
      TriggeredOneFrame(Triggered(p, name, n - 1, replies), name, n - 1, replies);
    }
  }

  lemma TriggeredOneFrame(p: Progress, name: string, i: nat, replies: Replies)
    requires name in p.w.namespaces && i < |p.w.namespaces[name].installations|
    ensures OnlyInstallations(p.w, TriggeredOne(p, name, i, replies).w, name, i + 1)
    ensures forall j :: 0 <= j < i ==>
      TriggeredOne(p, name, i, replies).w.namespaces[name].installations[j] == p.w.namespaces[name].installations[j]
  {
    hide Perform;
    PerformFrame(p, name, Annotate(i), i, replies);
    PerformFrame(p, name, DeleteInstallation(i), i, replies);
    PerformFrame(p, name, Retrigger(i), i, replies);
    var annotated := Perform(p, name, Annotate(i), replies);
    PerformFrame(annotated, name, DeleteInstallation(i), i, replies);
    PerformFrame(annotated, name, Retrigger(i), i, replies);
  }

  lemma PerformFrame(p: Progress, name: string, c: Call, i: nat, replies: Replies)
    requires name in p.w.namespaces && i < |p.w.namespaces[name].installations|
    requires c in {Annotate(i), DeleteInstallation(i), Retrigger(i)}
    ensures OnlyInstallations(p.w, Perform(p, name, c, replies).w, name, i + 1)
    ensures forall j :: 0 <= j < i ==>
      Perform(p, name, c, replies).w.namespaces[name].installations[j] == p.w.namespaces[name].installations[j]
  {
  }
}
