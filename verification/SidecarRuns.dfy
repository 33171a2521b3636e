// Runs of both controllers on one cluster, with everything that other actors may do between their passes.
module SidecarRuns {
  import opened Common
  import opened Subjects
  import opened Registrations
  import opened RegistrationTheorems
  import opened SubjectSync

  datatype Event =
    | Register(name: string, replies: Replies)
    | Synchronize(order: seq<ObjectReference>, syncReplies: SyncReplies)
    | ChangeList(list: Option<SubjectList>)
    | Restart
    | Others

  const LS_USER_BINDING := ObjectReference(LS_USER, LS_USER_NAMESPACE)

  // At its start, the sidecar creates the binding for its own namespace without subjects, if it does not exist.
  function Restarted(w: World): World {
    if LS_USER_BINDING in w.bindings then w else w.(bindings := w.bindings[LS_USER_BINDING := []])
  }

  // What is left to users and to Kubernetes: they write no managed binding, but may delete it; they create no customer
  // namespace, but may delete it and change what is in it; they create, change and mark registrations, but leave the
  // finalizer to the controller.
  ghost predicate OthersMay(w: World, v: World) {
    && v.list == w.list && v.clusterBindings == w.clusterBindings
    && (forall b :: b in v.bindings && Managed(b) ==> b in w.bindings && v.bindings[b] == w.bindings[b])
    && (forall n :: n in v.namespaces && IsCustomer(n) && !v.namespaces[n].terminating ==>
          n in w.namespaces && !w.namespaces[n].terminating)
    && (forall n :: n in w.registrations && w.registrations[n].finalizer ==>
          n in v.registrations && v.registrations[n].finalizer)
  }

  ghost predicate Step(w: World, e: Event, v: World) {
    match e
    case Register(name, replies) => v == Pass(Start(w), name, replies).w
    case Synchronize(order, replies) => (forall b :: b in w.bindings ==> b in order) &&
      v == SyncPass(w, order, replies).0
    case ChangeList(list) => v == w.(list := list)
    case Restart => v == Restarted(w)
    case Others => OthersMay(w, v)
  }

  ghost predicate Run(ws: seq<World>, es: seq<Event>) {
    && |ws| == |es| + 1
    && forall i :: 0 <= i < |es| ==> Step(ws[i], es[i], ws[i + 1])
  }

  // A pass for the SubjectList has come to its end, and since then the list has not changed, and the binding for the
  // namespace of the sidecar has not been created anew.
  ghost predicate Synchronized(ws: seq<World>, es: seq<Event>)
    requires |ws| == |es| + 1
  {
    exists i :: 0 <= i < |es| && Syncs(ws[i], es[i]) && forall j :: i < j < |es| ==> !Unsyncs(ws[j], es[j])
  }

  predicate Syncs(w: World, e: Event) {
    e.Synchronize? && SyncPass(w, e.order, e.syncReplies).1
  }

  predicate Unsyncs(w: World, e: Event) {
    e.ChangeList? || (e.Restart? && LS_USER_BINDING !in w.bindings)
  }

  /** While the SubjectList stays as it was when a pass last came to its end, all managed bindings carry exactly the
      subjects of the list: those that this pass has rewritten, and those that were created since for new namespaces. */
  lemma SynchronizedIsCoherent(ws: seq<World>, es: seq<Event>)
    requires Run(ws, es) && Synchronized(ws, es)
    ensures Coherent(ws[|es|])
  {
    var i :| 0 <= i < |es| && Syncs(ws[i], es[i]) && forall j :: i < j < |es| ==> !Unsyncs(ws[j], es[j]);
    assert Step(ws[i], es[i], ws[i + 1]);
    SyncMakesCoherent(ws[i], es[i].order, es[i].syncReplies);
    CoherentStays(ws, es, i + 1, |es|);
  }

  lemma {:induction false} CoherentStays(ws: seq<World>, es: seq<Event>, i: nat, n: nat)
    requires Run(ws, es) && i <= n <= |es| && Coherent(ws[i])
    requires forall j :: i <= j < n ==> !Unsyncs(ws[j], es[j])
    ensures Coherent(ws[n])
  {
    hide Step, Coherent, Unsyncs;
    if i < n {
      CoherentStays(ws, es, i, n - 1);
      assert Step(ws[n - 1], es[n - 1], ws[n]);
      StepKeepsCoherent(ws[n - 1], es[n - 1], ws[n]);
    }
  }

  lemma StepKeepsCoherent(w: World, e: Event, v: World)
    requires Step(w, e, v) && Coherent(w) && !Unsyncs(w, e)
    ensures Coherent(v)
  {
    hide Pass, SyncPass, Managed, Expected;
    match e
    case Register(name, replies) =>
      PassIsSafe(w, name, replies);
    case Synchronize(order, replies) =>
      SyncMakesCoherent(w, order, replies);
    case Restart =>
    case Others =>
  }

  /** A restart takes a cluster off the list exactly if it creates the missing binding while the list has subjects. */
  lemma RestartCoherence(w: World)
    requires Coherent(w)
    ensures Coherent(Restarted(w)) <==> LS_USER_BINDING in w.bindings || Converted(w.list.value.subjects) == []
  {
    hide Converted;
    assert LS_USER != VIEWER && LS_USER != CLUSTER_VIEWER by {
      assert |LS_USER| != |VIEWER| && |LS_USER| != |CLUSTER_VIEWER|;
    }
    assert Expected(w.list.value, LS_USER) == Converted(w.list.value.subjects);
    assert Managed(LS_USER_BINDING);
    var v := Restarted(w);
    assert LS_USER_BINDING !in w.bindings ==> v.bindings[LS_USER_BINDING] == [];
    assert forall b :: b in v.bindings && b != LS_USER_BINDING ==> b in w.bindings && v.bindings[b] == w.bindings[b];
  }

  // A cluster with a subject on the list, and without the binding for the namespace of the sidecar.
  const LISTED := World(Some(SubjectList([Entry("User", "ann", "")], [], true, false)), map[], map[], {}, map[], map[])
  const SYNC := Synchronize([], (c: SyncCall) => Applied)

  /** A run in which a restart after a completed sync leaves a binding without the subject of the list. */
  lemma RestartLeavesBindingEmpty()
    ensures var synced := SyncPass(LISTED, SYNC.order, SYNC.syncReplies).0;
      && Run([LISTED, synced, Restarted(synced)], [SYNC, Restart])
      && Synchronized([LISTED, synced], [SYNC]) && Coherent(synced)
      && !Coherent(Restarted(synced))
  {
    var synced := SyncPass(LISTED, SYNC.order, SYNC.syncReplies).0;
    var ws, es := [LISTED, synced], [SYNC];
    assert Syncs(ws[0], es[0]);
    SynchronizedIsCoherent(ws, es);
    assert LS_USER_BINDING !in synced.bindings;
    assert Converted([Entry("User", "ann", "")]) != [];
    RestartCoherence(synced);
  }

  /** No namespace is orphaned: as long as the namespace of a customer is not terminating, it has a registration that
      is held by the finalizer, so that the namespace will be removed together with it. */
  lemma {:induction false} NamespacesStayOwned(ws: seq<World>, es: seq<Event>)
    requires Run(ws, es) && Owned(ws[0])
    ensures Owned(ws[|es|])
  {
    if es != [] {
      var n := |es| - 1;
      NamespacesStayOwned(ws[..n + 1], es[..n]);
      assert Step(ws[n], es[n], ws[n + 1]);
      StepKeepsOwned(ws[n], es[n], ws[n + 1]);
    }
  }

  lemma StepKeepsOwned(w: World, e: Event, v: World)
    requires Step(w, e, v) && Owned(w)
    ensures Owned(v)
  {
    hide Pass, SyncPass, Coherent;
    match e
    case Register(name, replies) =>
      PassIsSafe(w, name, replies);
    case Synchronize(order, replies) =>
      SyncMakesCoherent(w, order, replies);
    case _ =>
  }

  /** Neither controller ever touches a role binding that is not managed. */
  lemma UnmanagedIsUntouched(w: World, e: Event, v: World, b: ObjectReference)
    requires Step(w, e, v) && (e.Register? || e.Synchronize?) && !Managed(b)
    ensures b in v.bindings <==> b in w.bindings
    ensures b in w.bindings ==> v.bindings[b] == w.bindings[b]
  {
    hide Pass, SyncPass, Coherent;
    match e
    case Register(name, replies) =>
      PassIsSafe(w, name, replies);
      var access := {Access(name, false), Access(name, true)};
      assert IsCustomer(name) ==> b !in access;
      assert b in v.bindings <==> b in w.bindings by {
        assert b !in access ==>
          (b in v.bindings - access <==> b in v.bindings) && (b in w.bindings - access <==> b in w.bindings);
      }
      assert b in w.bindings && b !in access ==>
        (v.bindings - access)[b] == v.bindings[b] && (w.bindings - access)[b] == w.bindings[b];
    case Synchronize(order, replies) =>
      SyncMakesCoherent(w, order, replies);
  }
}
