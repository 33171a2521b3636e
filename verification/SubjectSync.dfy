// The controller for the SubjectList: it keeps all managed role bindings on the subjects of the list.
module SubjectSync {
  import opened Common
  import opened Subjects
  import opened Registrations
  import opened RegistrationTheorems

  // The calls of one pass; each of them happens at most once.
  datatype SyncCall =
    | GetList | AddListFinalizer
    | PutClusterRole(clusterRole: string) | PutClusterBinding(clusterRole: string)
    | ListBindings | UpdateBinding(ref: ObjectReference)

  type SyncReplies = SyncCall -> Outcome

  // A change of the cluster, with its effect on a reply, and whether the pass goes on.
  function Written(before: World, after: World, outcome: Outcome): World {
    if outcome.Failed? then before else after
  }

  function PutClusterSubjects(w: World, name: string, subjects: seq<Subject>): World {
    w.(clusterBindings := w.clusterBindings[name := subjects])
  }

  // ---- One pass, as a function ----

  // The result of a pass: the cluster, and whether it has rewritten all bindings.
  function SyncPass(w: World, order: seq<ObjectReference>, replies: SyncReplies): (World, bool) {
    if w.list.None? || !replies(GetList).Applied? then (w, false)
    else
      var list := w.list.value;
      if !list.deleting && !list.finalizer then
        (Written(w, w.(list := Some(list.(finalizer := true))), replies(AddListFinalizer)), false)
      else if list.deleting then (w, false)
      else
        var (clusterWide, ok) := SyncClusterRoles(w, list, replies);
        if !ok || !replies(ListBindings).Applied? then (clusterWide, false)
        else SyncBindings(clusterWide, order, |order|, list, replies)
  }

  function SyncClusterRoles(w: World, list: SubjectList, replies: SyncReplies): (World, bool) {
    var (user, ok) := SyncClusterRole(w, LS_USER, Converted(list.subjects), replies);
    if ok then SyncClusterRole(user, CLUSTER_VIEWER, Converted(list.viewers), replies) else (user, false)
  }

  function SyncClusterRole(w: World, name: string, subjects: seq<Subject>, replies: SyncReplies): (World, bool) {
    if !replies(PutClusterRole(name)).Applied? then (w, false)
    else
      var outcome := replies(PutClusterBinding(name));
      (Written(w, PutClusterSubjects(w, name, subjects), outcome), outcome.Applied?)
  }

  // The first `n` of the listed role bindings; the first failing update ends the pass.
  function SyncBindings(w: World, order: seq<ObjectReference>, n: nat, list: SubjectList, replies: SyncReplies)
      : (World, bool)
    requires n <= |order|
  {
    if n == 0 then (w, true)
    else
      var (before, ok) := SyncBindings(w, order, n - 1, list, replies);
      var b := order[n - 1];
      if !ok || !Managed(b) then (before, ok)
      else
        var outcome := if b in before.bindings then replies(UpdateBinding(b)) else Failed;
        (Written(before, before.(bindings := before.bindings[b := Expected(list, b.name)]), outcome), outcome.Applied?)
  }

  // ---- The controller ----

  class Synchronizer {
    var list: Option<SubjectList>
    var bindings: map<ObjectReference, seq<Subject>>
    var clusterBindings: map<string, seq<Subject>>
    ghost const rest: World

    // The cluster, of which the controller handles only three parts.
    ghost function State(): World
      reads this
    {
      rest.(list := list, bindings := bindings, clusterBindings := clusterBindings)
    }

    method UpdateRoleBindingSubjects(b: ObjectReference, subjects: seq<Subject>, replies: SyncReplies)
        returns (ok: bool)
      modifies this`bindings
      ensures var outcome := if b in old(bindings) then replies(UpdateBinding(b)) else Failed;
        ok == outcome.Applied? && bindings == if outcome.Failed? then old(bindings) else old(bindings)[b := subjects]
    {
      if b !in bindings || replies(UpdateBinding(b)).Failed? {
        return false;
      }
      bindings := bindings[b := subjects];
      ok := replies(UpdateBinding(b)).Applied?;
    }

    method CreateOrUpdateClusterRoleBinding(name: string, subjects: seq<Subject>, replies: SyncReplies)
        returns (ok: bool)
      modifies this`clusterBindings
      ensures (State(), ok) == SyncClusterRole(old(State()), name, subjects, replies)
    {
      if !replies(PutClusterRole(name)).Applied? {
        return false;
      }
      if !replies(PutClusterBinding(name)).Failed? {
        clusterBindings := clusterBindings[name := subjects];
      }
      ok := replies(PutClusterBinding(name)).Applied?;
    }

    // `order` is the list of the role bindings, in the order in which the API server returns it.
    method Reconcile(order: seq<ObjectReference>, replies: SyncReplies) returns (synced: bool)
      modifies this
      ensures (State(), synced) == SyncPass(old(State()), order, replies)
    {
      if list.None? || !replies(GetList).Applied? {
        return false;
      }
      var subjectList := list.value;
      if !subjectList.deleting && !subjectList.finalizer {
        if !replies(AddListFinalizer).Failed? {
          list := Some(subjectList.(finalizer := true));
        }
        return false;
      }
      if subjectList.deleting {
        return false;
      }
      var subjects := CreateSubjectsForSubjectList(subjectList.subjects);
      var viewerSubjects := CreateSubjectsForSubjectList(subjectList.viewers);
      var ok := CreateOrUpdateClusterRoleBinding(LS_USER, subjects, replies);
      if !ok {
        return false;
      }
      ok := CreateOrUpdateClusterRoleBinding(CLUSTER_VIEWER, viewerSubjects, replies);
      if !ok || !replies(ListBindings).Applied? {
        return false;
      }
      synced := SyncAll(order, subjectList, subjects, viewerSubjects, replies);
    }

    method SyncAll(order: seq<ObjectReference>, subjectList: SubjectList, subjects: seq<Subject>,
        viewerSubjects: seq<Subject>, replies: SyncReplies)
      returns (synced: bool)
      requires subjects == Converted(subjectList.subjects) && viewerSubjects == Converted(subjectList.viewers)
      modifies this`bindings
      ensures (State(), synced) == SyncBindings(old(State()), order, |order|, subjectList, replies)
    {
      hide Converted;
      synced := true;
      for i := 0 to |order|
        invariant synced
        invariant (State(), true) == SyncBindings(old(State()), order, i, subjectList, replies)
      {
        var b := order[i];
        if b.name == LS_USER {
          if b.namespace != LS_USER_NAMESPACE {
            continue;
          }
          synced := UpdateRoleBindingSubjects(b, subjects, replies);
        } else if b.name == USER {
          if !IsCustomer(b.namespace) {
            continue;
          }
          synced := UpdateRoleBindingSubjects(b, subjects, replies);
        } else if b.name == VIEWER {
          if !IsCustomer(b.namespace) {
            continue;
          }
          synced := UpdateRoleBindingSubjects(b, viewerSubjects, replies);
        }
        if !synced {
          SyncStops(old(State()), order, i + 1, |order|, subjectList, replies);
          return;
        }
      }
    }
  }

  lemma {:induction false} SyncStops(w: World, order: seq<ObjectReference>, i: nat, n: nat, list: SubjectList,
      replies: SyncReplies)
    requires i <= n <= |order| && !SyncBindings(w, order, i, list, replies).1
    ensures SyncBindings(w, order, n, list, replies) == SyncBindings(w, order, i, list, replies)
  {
    if i < n {
      SyncStops(w, order, i, n - 1, list, replies);
    }
  }

  // ---- What a pass achieves, and what it leaves alone ----

  // `v` differs from `w` at most in the subjects of managed role bindings, which then are those of the list.
  ghost predicate OnlySyncs(w: World, v: World, list: SubjectList) {
    && v == w.(bindings := v.bindings)
    && v.bindings.Keys == w.bindings.Keys
    && forall b :: b in w.bindings ==>
      v.bindings[b] == w.bindings[b] || (Managed(b) && v.bindings[b] == Expected(list, b.name))
  }

  lemma {:induction false} SyncBindingsFine(w: World, order: seq<ObjectReference>, n: nat, list: SubjectList,
      replies: SyncReplies)
    requires n <= |order|
    ensures var (v, synced) := SyncBindings(w, order, n, list, replies);
      && OnlySyncs(w, v, list)
      && (synced ==> forall i :: 0 <= i < n && Managed(order[i]) ==>
            order[i] in v.bindings && v.bindings[order[i]] == Expected(list, order[i].name))
  {
    hide Managed, Expected;
    if n > 0 {
      SyncBindingsFine(w, order, n - 1, list, replies);
    }
  }

  // What no pass for the SubjectList touches.
  ghost predicate OthersKept(w: World, v: World) {
    && v.registrations == w.registrations && v.namespaces == w.namespaces && v.roles == w.roles
    && v.bindings.Keys == w.bindings.Keys
    && (forall b :: b in w.bindings && !Managed(b) ==> v.bindings[b] == w.bindings[b])
    && (w.list == v.list || (w.list.Some? && v.list == Some(w.list.value.(finalizer := true))))
  }

  lemma ClusterRolesFine(w: World, list: SubjectList, replies: SyncReplies)
    ensures var (v, ok) := SyncClusterRoles(w, list, replies);
      && v == w.(clusterBindings := v.clusterBindings)
      && (ok ==> ClusterBindingsFollow(v, list))
      && (ClusterBindingsFollow(w, list) ==> ClusterBindingsFollow(v, list))
  {
    hide Converted;
  }

  lemma BindingsFine(w: World, order: seq<ObjectReference>, list: SubjectList, replies: SyncReplies)
    requires forall b :: b in w.bindings ==> b in order
    ensures var (v, synced) := SyncBindings(w, order, |order|, list, replies);
      && OnlySyncs(w, v, list)
      && (synced ==> BindingsFollow(v, list))
      && (BindingsFollow(w, list) ==> BindingsFollow(v, list))
  {
    hide SyncBindings, Managed, Expected;
    SyncBindingsFine(w, order, |order|, list, replies);
  }

  /** A pass that comes to its end leaves all managed bindings on the list, in whatever state it found them; a pass that
      fails on the way never takes a cluster off the list; and no pass touches a binding that is not managed. */
  lemma SyncMakesCoherent(w: World, order: seq<ObjectReference>, replies: SyncReplies)
    requires forall b :: b in w.bindings ==> b in order
    ensures var (v, synced) := SyncPass(w, order, replies);
      && (synced ==> Coherent(v))
      && (Coherent(w) ==> Coherent(v))
      && OthersKept(w, v)
  {
    hide SyncBindings, SyncClusterRoles, Managed, Expected, BindingsFollow, ClusterBindingsFollow;
    if w.list.Some? {
      var list := w.list.value;
      ClusterRolesFine(w, list, replies);
      var clusterWide := SyncClusterRoles(w, list, replies).0;
      BindingsFine(clusterWide, order, list, replies);
      SameBindingsFollow(w, clusterWide, list, list);
      SameClusterBindingsFollow(clusterWide, SyncBindings(clusterWide, order, |order|, list, replies).0, list, list);
      var guarded := w.(list := Some(list.(finalizer := true)));
      SameBindingsFollow(w, guarded, list, guarded.list.value);
      SameClusterBindingsFollow(w, guarded, list, guarded.list.value);
    }
  }

  // A list that is kept by the finalizer and not marked for deletion.
  predicate Synchronizable(w: World) {
    w.list.Some? && w.list.value.finalizer && !w.list.value.deleting
  }

  // Every managed role binding and both cluster role bindings, by their names.
  predicate FollowsByName(w: World, list: SubjectList) {
    && (forall b :: b in w.bindings && b == ObjectReference("landscaper-service:namespace-registrator", "ls-user") ==>
          w.bindings[b] == Converted(list.subjects))
    && (forall b :: b in w.bindings && "cu-" <= b.namespace && b.name == "landscaper-service:landscaper-user" ==>
          w.bindings[b] == Converted(list.subjects))
    && (forall b :: b in w.bindings && "cu-" <= b.namespace && b.name == "landscaper-service:landscaper-viewer" ==>
          w.bindings[b] == Converted(list.viewers))
    && "landscaper-service:namespace-registrator" in w.clusterBindings
    && w.clusterBindings["landscaper-service:namespace-registrator"] == Converted(list.subjects)
    && "landscaper-service:landscaper-cluster-viewer" in w.clusterBindings
    && w.clusterBindings["landscaper-service:landscaper-cluster-viewer"] == Converted(list.viewers)
  }

  /** The managed role bindings by their names: that of the sidecar, and those of customer namespaces. */
  lemma ManagedByName(b: ObjectReference)
    ensures IsCustomer(b.namespace) <==> |b.namespace| >= 3 && b.namespace[..3] == "cu-"
    ensures Managed(b) <==>
      || (b.namespace == "ls-user" && b.name == "landscaper-service:namespace-registrator")
      || (|b.namespace| >= 3 && b.namespace[..3] == "cu-" &&
          b.name in ["landscaper-service:landscaper-user", "landscaper-service:landscaper-viewer"])
  {
  }

  lemma CoherentByName(w: World)
    requires Coherent(w)
    ensures FollowsByName(w, w.list.value)
  {
    hide Converted;
    assert LS_USER != VIEWER && LS_USER != CLUSTER_VIEWER && USER != VIEWER && USER != CLUSTER_VIEWER by {
      assert |LS_USER| != |VIEWER| && |LS_USER| != |CLUSTER_VIEWER| && |USER| != |VIEWER| && |USER| != |CLUSTER_VIEWER|;
    }
    assert Expected(w.list.value, LS_USER) == Expected(w.list.value, USER) == Converted(w.list.value.subjects);
    assert LS_USER in [LS_USER, CLUSTER_VIEWER] && CLUSTER_VIEWER in [LS_USER, CLUSTER_VIEWER];
  }

  lemma {:induction false} SyncBindingsEnds(w: World, order: seq<ObjectReference>, n: nat, list: SubjectList,
      replies: SyncReplies)
    requires n <= |order| && forall c :: replies(c).Applied?
    ensures var (v, synced) := SyncBindings(w, order, n, list, replies);
      && v.bindings.Keys == w.bindings.Keys
      && (synced <==> forall i :: 0 <= i < n && Managed(order[i]) ==> order[i] in w.bindings)
  {
    hide Managed, Expected;
    if n > 0 {
      SyncBindingsEnds(w, order, n - 1, list, replies);
    }
  }

  /** With successful calls a pass comes to its end exactly if the list is to be synchronized and all managed bindings
      that were listed exist; then every binding follows the list. */
  lemma SyncEnds(w: World, order: seq<ObjectReference>, replies: SyncReplies)
    requires (forall b :: b in w.bindings ==> b in order) && forall c :: replies(c).Applied?
    ensures var (v, synced) := SyncPass(w, order, replies);
      && (synced <==> Synchronizable(w) && forall b :: b in order && Managed(b) ==> b in w.bindings)
      && (synced ==> Coherent(v) && v.list == w.list && FollowsByName(v, w.list.value))
  {
    hide SyncBindings, Managed, Expected, BindingsFollow, ClusterBindingsFollow, FollowsByName, Converted;
    SyncMakesCoherent(w, order, replies);
    var v := SyncPass(w, order, replies).0;
    if Coherent(v) {
      CoherentByName(v);
    }
    if Synchronizable(w) {
      var clusterWide := SyncClusterRoles(w, w.list.value, replies).0;
      SyncBindingsEnds(clusterWide, order, |order|, w.list.value, replies);
      SyncBindingsFine(clusterWide, order, |order|, w.list.value, replies);
      assert forall i :: 0 <= i < |order| ==> order[i] in order;
    }
  }

  /** From any cluster with a list that is not marked, two passes with successful calls over the existing bindings put
      every binding on the list: the first gives the list its finalizer if it has none, and nothing else then. */
  lemma TwoPassesSync(w: World, order: seq<ObjectReference>, replies: SyncReplies)
    requires (forall b :: b in w.bindings <==> b in order) && forall c :: replies(c).Applied?
    requires w.list.Some? && !w.list.value.deleting
    ensures var v := SyncPass(w, order, replies).0;
      && (!w.list.value.finalizer ==> v == w.(list := Some(w.list.value.(finalizer := true))))
      && var (u, synced) := SyncPass(v, order, replies); synced && Coherent(u) && FollowsByName(u, w.list.value)
  {
    hide Coherent, FollowsByName, SyncBindings, SyncClusterRoles, Managed;
    SyncEnds(w, order, replies);
    SyncMakesCoherent(w, order, replies);
    var v := SyncPass(w, order, replies).0;
    SyncEnds(v, order, replies);
    SameFollowsByName(SyncPass(v, order, replies).0, w.list.value, v.list.value);
  }

  lemma SameFollowsByName(w: World, list: SubjectList, list': SubjectList)
    requires list'.subjects == list.subjects && list'.viewers == list.viewers
    ensures FollowsByName(w, list) == FollowsByName(w, list')
  {
  }

  lemma SameBindingsFollow(w: World, v: World, list: SubjectList, list': SubjectList)
    requires v.bindings == w.bindings && list'.subjects == list.subjects && list'.viewers == list.viewers
    ensures BindingsFollow(v, list') == BindingsFollow(w, list)
  {
  }

  lemma SameClusterBindingsFollow(w: World, v: World, list: SubjectList, list': SubjectList)
    requires v.clusterBindings == w.clusterBindings && list'.subjects == list.subjects && list'.viewers == list.viewers
    ensures ClusterBindingsFollow(v, list') == ClusterBindingsFollow(w, list)
  {
  }

  /** A SubjectList that is marked for deletion is not synchronized any more. */
  lemma MarkedListIsNotSynced(w: World, order: seq<ObjectReference>, replies: SyncReplies)
    requires w.list.Some? && w.list.value.deleting
    ensures SyncPass(w, order, replies) == (w, false)
  {
  }
}
