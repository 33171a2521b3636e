// The deployment controller as it is written, call after call, with everything else going on between its calls. Every
// pass is a run of the protocol, so that all that holds after every run holds around the controller.
module DeploymentController {
  import opened Common
  import opened References
  import opened Lifecycle
  import opened LifecycleInvariant
  import opened LifecycleRecovery
  import opened LifecycleTheorems
  import Ids
  import Targets
  import TargetChoice

  // What happens before an API call, what is decided about the call, and what scheduling would go by then.
  datatype Turn = Turn(before: seq<Event>, choice: Choice, policy: TargetChoice.Policy)

  // How a pass over a deployment ends; Prepared means that it got its finalizer.
  datatype Result = Unread | Missing | Error | Prepared | Reconciled(instance: ObjectReference) | DeletionHandled

  predicate Foreign(e: Event) {
    !e.Crash? && !e.StartDeployment? && !e.StepDeployment?
  }

  lemma RunOneMore(events: seq<Event>, e: Event)
    ensures Run(INIT, events + [e]) == Step(Run(INIT, events), e)
  {
    assert (events + [e])[..|events|] == events;
  }

  lemma OthersRegisterNothing(s: Store, w: InstanceWorker, e: Event)
    ensures e.StepInstance? ==> StepTender(s, w, e.choice).0.registered == s.registered
    ensures StepEnvironment(s, e).registered == s.registered
  {
  }

  lemma ForeignStep(s: State, e: Event)
    requires Foreign(e)
    ensures Step(s, e) ==
      match e
      case StartInstance(n) =>
        if s.tender == Resting && n in s.store.instances then s.(tender := Read(n, s.store.instances[n])) else s
      case StepInstance(ch) => State(StepTender(s.store, s.tender, ch).0, s.deployer,
        StepTender(s.store, s.tender, ch).1)
      case _ => s.(store := StepEnvironment(s.store, e))
  {
    hide StepTender, StepEnvironment;
  }

  // The generator of IDs never returns an empty identifier.
  ghost predicate Generates(draws: nat -> Ids.Draws) {
    forall i, k :: Ids.Truncated(draws(i)(k)) != ""
  }

  // All that a pass depends on apart from the deployment.
  predicate SameObjects(a: Store, b: Store) {
    a.instances == b.instances && a.configs == b.configs && a.used == b.used
  }

  predicate Unprepared(s: Store, d: ObjectReference) {
    d in s.deployments && !s.deployments[d].deleting && !s.deployments[d].finalizer
  }

  // The cluster, seen by the deployment controller. The controller only uses the store; where the protocol
  // stands, and all events so far, are ghost.
  class Cluster {
    var store: Store
    var tender: InstanceWorker
    var calls: nat
    const oracle: nat -> Turn
    const draws: nat -> Ids.Draws
    // A search for an ID ends with one of so many draws, or the pass ends without.
    const patience: nat
    ghost var deployer: DeploymentWorker
    ghost var history: seq<Event>

    ghost predicate Valid()
      reads this
    {
      Run(INIT, history) == State(store, deployer, tender) && Generates(draws)
    }

    ghost function Now(): State
      reads this
    {
      State(store, deployer, tender)
    }

    // From now on nobody else acts, and no call fails.
    ghost predicate Quiet()
      reads this
    {
      forall i :: i >= calls ==> oracle(i).before == [] && oracle(i).choice.outcome.Applied?
    }

    // Scheduling finds a target, a search draws an ID that is not in use, and the generated names are not in use.
    ghost predicate Provided(d: ObjectReference)
      reads this
    {
      forall i :: i >= calls ==> ProvidedAt(i, d)
    }

    ghost predicate ProvidedAt(i: nat, d: ObjectReference)
      reads this
    {
      && TargetChoice.Placeable(store, oracle(i).policy)
      && ObjectReference(oracle(i).choice.name.name, d.namespace) !in store.used
      && exists k :: 0 <= k < patience && Unused(store, d.namespace, Ids.Truncated(draws(i)(k)))
    }

    // An ID that call `i` draws, and that no Instance of the namespace has.
    ghost predicate Draws(i: nat, namespace: string, id: string)
      reads this
    {
      Unused(store, namespace, id) && exists k: nat :: Ids.Shortens(draws(i)(k), id)
    }

    twostate lemma ProvidedStays(d: ObjectReference)
      requires old(Provided(d)) && calls >= old(calls) && SameObjects(old(store), store)
      ensures Provided(d)
    {
      forall i | i >= calls
        ensures ProvidedAt(i, d)
      {
        assert old(ProvidedAt(i, d));
        TargetChoice.SameConfigsPlaceable(old(store), store, oracle(i).policy);
        var k :| 0 <= k < patience && Unused(old(store), d.namespace, Ids.Truncated(draws(i)(k)));
        assert Unused(store, d.namespace, Ids.Truncated(draws(i)(k)));
      }
    }

    lemma EmptyProvides(d: ObjectReference)
      requires Generates(draws) && patience > 0 && store.instances == map[] && store.used == map[]
      requires forall i :: TargetChoice.Placeable(store, oracle(i).policy)
      ensures Provided(d)
    {
      forall i | i >= calls
        ensures ProvidedAt(i, d)
      {
        assert Unused(store, d.namespace, Ids.Truncated(draws(i)(0)));
      }
    }

    ghost predicate Smooth(d: ObjectReference, goal: Goal)
      reads this
    {
      Quiet() && OnTrack(Now(), d, goal)
    }

    ghost predicate StatusIs(d: ObjectReference, ref: Option<ObjectReference>)
      reads this
    {
      d in store.deployments && store.deployments[d].instanceRef == ref
    }

    constructor (oracle: nat -> Turn, draws: nat -> Ids.Draws, patience: nat)
      requires Generates(draws)
      ensures Valid() && Now() == INIT && history == [] && calls == 0
      ensures this.oracle == oracle && this.draws == draws && this.patience == patience
    {
      this.oracle, this.draws, this.patience := oracle, draws, patience;
      store, tender, calls := INIT.store, Resting, 0;
      deployer, history := Idle, [];
    }

    // The protocol took a step of the controller, after the store changed from `before` accordingly.
    ghost method Advance(before: Store, ch: Choice)
      requires Run(INIT, history) == State(before, deployer, tender) && Generates(draws)
      requires store == StepDeployer(before, deployer, ch).0
      modifies this`deployer, this`history
      ensures Valid() && old(history) <= history
      ensures deployer == StepDeployer(before, old(deployer), ch).1
      ensures var s := State(before, old(deployer), tender);
        forall d, goal :: OnTrack(s, d, goal) && Calm(s, ch) ==> OnTrack(Now(), d, goal)
    {
      hide StepDeployer, OnTrack, Calm, Run, Inv;
      ghost var s := State(before, deployer, tender);
      AlwaysInv(history);
      forall d, goal | OnTrack(s, d, goal) && Calm(s, ch)
        ensures OnTrack(Step(s, StepDeployment(ch)), d, goal)
      {
        StaysOnTrack(s, d, goal, ch);
      }
      RunOneMore(history, StepDeployment(ch));
      history := history + [StepDeployment(ch)];
      deployer := StepDeployer(before, deployer, ch).1;
    }

    // One event that is not the deployment controller's.
    method Happen(e: Event)
      requires Valid() && Foreign(e)
      modifies this`store, this`tender, this`history
      ensures Valid() && old(history) <= history && store.registered == old(store.registered)
      ensures Now() == Step(old(Now()), e)
    {
      hide Run, StepTender, StepEnvironment, StepDeployer, Step;
      RunOneMore(history, e);
      OthersRegisterNothing(store, tender, e);
      ForeignStep(State(store, deployer, tender), e);
      if e.StartInstance? {
        if tender == Resting && e.n in store.instances {
          tender := Read(e.n, store.instances[e.n]);
        }
      } else if e.StepInstance? {
        var step := StepTender(store, tender, e.choice);
        store, tender := step.0, step.1;
      } else {
        store := StepEnvironment(store, e);
      }
      history := history + [e];
    }

    // The others take their turn, and a call of the API server is about to be answered.
    method Call() returns (ch: Choice)
      requires Valid()
      modifies this`store, this`tender, this`calls, this`history
      ensures Valid() && old(history) <= history && store.registered == old(store.registered)
      ensures ch == oracle(old(calls)).choice && calls == old(calls) + 1
      ensures old(Quiet()) ==> Quiet() && Now() == old(Now()) && ch.outcome.Applied?
    {
      var turn := oracle(calls);
      calls := calls + 1;
      for i := 0 to |turn.before|
        invariant Valid() && old(history) <= history && store.registered == old(store.registered)
        invariant calls == old(calls) + 1 && (turn.before == [] ==> Now() == old(Now()))
      {
        if Foreign(turn.before[i]) {
          Happen(turn.before[i]);
        }
      }
      ch := turn.choice;
    }

    lemma NowInv()
      requires Valid()
      ensures Inv(Now())
    {
      AlwaysInv(history);
    }

    lemma GoneFacts()
      requires Valid()
      ensures deployer.DroppingFinalizer? ==> !Owned(store, deployer.d)
    {
      NowInv();
    }

    // Status().Update of a deployment, at a place of the protocol that allows it.
    method SaveStatus(d: ObjectReference, copy: Deployment, ch: Choice) returns (ok: bool, after: Deployment)
      requires Valid()
      requires StepDeployer(store, deployer, ch).0 == UpdateStatus(store, d, copy, ch.outcome).0
      modifies this`store, this`deployer, this`history
      ensures Valid() && old(history) <= history
      ensures deployer == StepDeployer(old(store), old(deployer), ch).1
      ensures (store, ok) == UpdateStatus(old(store), d, copy, ch.outcome) && store.registered == old(store.registered)
      ensures after == if ok then copy.(version := old(store).clock) else copy
      ensures forall goal :: old(OnTrack(Now(), d, goal)) && Calm(old(Now()), ch) ==> OnTrack(Now(), d, goal)
    {
      hide Run, StepDeployer;
      ghost var before := store;
      var result := UpdateStatus(store, d, copy, ch.outcome);
      ok, after := result.1, if result.1 then copy.(version := store.clock) else copy;
      store := result.0;
      Advance(before, ch);
    }

    method Reconcile(d: ObjectReference) returns (result: Result)
      requires Valid() && deployer == Idle
      modifies this`store, this`tender, this`calls, this`deployer, this`history
      ensures Valid() && deployer == Idle && old(history) <= history
      ensures result.Unread? <==> !oracle(old(calls)).choice.outcome.Applied?
      ensures result.Missing? ==> d !in store.deployments
      ensures !result.Unread? && !result.Missing? ==> StartDeployment(d) in history[|old(history)|..]
      ensures result.Prepared? ==> d in store.deployments && store.deployments[d].finalizer
      ensures result.Reconciled? ==> result.instance in store.registered
      ensures old(Quiet() && d !in store.deployments) ==> result.Missing?
      ensures old(Quiet() && Unprepared(store, d)) ==>
        && result.Prepared? && Quiet() && Startable(store, d, Settle)
        && SameObjects(old(store), store)
      ensures old(Quiet() && Startable(store, d, Settle) && (Owned(store, d) || Provided(d))) ==>
        result.Reconciled? && Settled(store, d) && Quiet()
      ensures forall left :: old(Quiet() && Startable(store, d, Delete(left))) ==>
        result.DeletionHandled? && Reached(store, d, Delete(left)) && Quiet()
    {
      hide Run, StepDeployer;
      var ch := Call();
      if !ch.outcome.Applied? {
        return Unread;
      }
      if d !in store.deployments {
        return Missing;
      }
      ghost var before := history;
      var copy := Start(d);
      if old(Quiet() && Provided(d)) {
        ProvidedStays(d);
      }
      result := HandleDeployment(d, copy);
      assert StartDeployment(d) == history[|before|];
    }

    method HandleDeployment(d: ObjectReference, read: Deployment) returns (result: Result)
      requires Valid() && deployer == Fetched(d, read)
      modifies this`store, this`tender, this`calls, this`deployer, this`history
      ensures Valid() && deployer == Idle && old(history) <= history
      ensures !result.Unread? && !result.Missing?
      ensures result.Prepared? ==> d in store.deployments && store.deployments[d].finalizer
      ensures result.Reconciled? ==> result.instance in store.registered
      ensures old(Smooth(d, Settle) && (Owned(store, d) || Provided(d))) ==> result.Reconciled? && Smooth(d, Settle)
      ensures forall left :: old(Smooth(d, Delete(left))) ==> result.DeletionHandled? && Smooth(d, Delete(left))
      ensures old(Quiet() && Unprepared(store, d) && store.deployments[d] == read) ==>
        && result.Prepared? && Quiet() && Startable(store, d, Settle)
        && SameObjects(old(store), store)
    {
      hide Run, StepDeployer, OnTrack;
      FetchedOnTrack(Now(), d);
      var ok, copy := ObserveGeneration(d, read);
      if !ok {
        return Error;
      }
      if !copy.deleting && !copy.finalizer {
        ok := AddFinalizer(d, copy);
        return if ok then Prepared else Error;
      }
      FetchedOnTrack(Now(), d);
      Dispatch(d, copy);
      if copy.deleting {
        ok, copy := HandleDelete(d, copy);
        result := if ok then DeletionHandled else Error;
      } else {
        if old(Quiet() && Provided(d)) {
          ProvidedStays(d);
        }
        ok, copy := ReconcileInstance(d, copy);
        result := if ok then Reconciled(copy.instanceRef.value) else Error;
      }
      HandleError(d, copy);
    }

    method ObserveGeneration(d: ObjectReference, copy: Deployment) returns (ok: bool, after: Deployment)
      requires Valid() && deployer == Fetched(d, copy)
      modifies this`store, this`tender, this`calls, this`deployer, this`history
      ensures Valid() && old(history) <= history
      ensures deployer == if ok then Fetched(d, after) else Idle
      ensures forall goal :: old(Smooth(d, goal)) ==> ok && Smooth(d, goal)
      ensures old(Quiet()) ==> Quiet() && SameObjects(old(store), store)
      ensures old(Quiet() && CurrentDeployment(store, d, copy.version)) ==>
        ok && CurrentDeployment(store, d, after.version) &&
          store.deployments[d].deleting == old(store.deployments[d].deleting)
      ensures after == copy.(version := after.version) && calls >= old(calls)
    {
      hide Run;
      var ch := Call();
      if ch.write {
        ok, after := SaveStatus(d, copy, ch);
      } else {
        ok, after := true, copy;
      }
    }

    // The last error goes to the status; whether it can be written does not change the result of the pass.
    method HandleError(d: ObjectReference, copy: Deployment)
      requires Valid() && deployer == Finishing(d, copy)
      modifies this`store, this`tender, this`calls, this`deployer, this`history
      ensures Valid() && deployer == Idle && old(history) <= history && old(store.registered) <= store.registered
      ensures forall goal :: old(Smooth(d, goal)) ==> Smooth(d, goal)
    {
      hide Run;
      var ch := Call();
      if ch.write {
        var _, _ := SaveStatus(d, copy, ch);
      } else {
        Advance(store, ch);
      }
    }

    // No call: the decision how to go on.
    ghost method Dispatch(d: ObjectReference, copy: Deployment)
      requires Valid() && deployer == Fetched(d, copy) && (copy.deleting || copy.finalizer)
      modifies this`deployer, this`history
      ensures Valid() && deployer == WithRef(d, copy) && old(history) <= history
      ensures forall goal :: old(Smooth(d, goal)) ==> Smooth(d, goal)
    {
      hide Run;
      Advance(store, Choice(Applied, false, false, d, "", d));
    }

    /** The worker: whatever requests it serves, and whatever goes on meanwhile, the cluster is always safe. */
    method Serve(requests: seq<ObjectReference>)
      requires Valid() && deployer == Idle
      modifies this`store, this`tender, this`calls, this`deployer, this`history
      ensures Valid() && deployer == Idle && old(history) <= history && Safe(store)
    {
      hide Run, Safe;
      for i := 0 to |requests|
        invariant Valid() && deployer == Idle && old(history) <= history
      {
        var _ := Reconcile(requests[i]);
      }
      AlwaysSafe(history);
    }

    method Start(d: ObjectReference) returns (copy: Deployment)
      requires Valid() && deployer == Idle && d in store.deployments
      modifies this`deployer, this`history
      ensures Valid() && history == old(history) + [StartDeployment(d)]
      ensures copy == store.deployments[d] && deployer == Fetched(d, copy)
      ensures forall goal :: Startable(store, d, goal) ==> OnTrack(Now(), d, goal)
    {
      hide Startable, OnTrack, Run;
      forall goal | Startable(store, d, goal)
        ensures OnTrack(Step(Now(), StartDeployment(d)), d, goal)
      {
        StartsOnTrack(Now(), d, goal);
      }
      RunOneMore(history, StartDeployment(d));
      copy := store.deployments[d];
      history := history + [StartDeployment(d)];
      deployer := Fetched(d, copy);
    }

    method AddFinalizer(d: ObjectReference, copy: Deployment) returns (ok: bool)
      requires Valid() && deployer == Fetched(d, copy) && !copy.deleting && !copy.finalizer
      modifies this`store, this`tender, this`calls, this`deployer, this`history
      ensures Valid() && deployer == Idle && old(history) <= history
      ensures ok ==> d in store.deployments && store.deployments[d].finalizer
      ensures old(Quiet() && CurrentDeployment(store, d, copy.version)) ==>
        && ok && Quiet() && store.deployments[d].deleting == old(store.deployments[d].deleting)
        && SameObjects(old(store), store)
    {
      hide Run;
      var ch := Call();
      ghost var before := store;
      if !ch.outcome.Failed? && CurrentDeployment(store, d, copy.version) {
        store := PutDeployment(store, d, store.deployments[d].(finalizer := true));
        ok := ch.outcome.Applied?;
      } else {
        ok := false;
      }
      Advance(before, ch.(write := false));
    }

    // ---- The reference to the Instance ----

    // Where a pass stands once it knows the reference, or that there is no Instance.
    ghost predicate Resolved(d: ObjectReference, copy: Deployment, ref: Option<ObjectReference>)
      reads this`deployer
    {
      && copy.instanceRef == ref
      && deployer == if ref.Some? then WithRef(d, copy)
                     else if copy.deleting then DroppingFinalizer(d, copy)
                     else Choosing(d, copy, Write(None, None, BLANK))
    }

    method GetInstanceRef(d: ObjectReference, copy: Deployment)
      returns (ok: bool, ref: Option<ObjectReference>, after: Deployment)
      requires Valid() && deployer == WithRef(d, copy)
      modifies this`store, this`tender, this`calls, this`deployer, this`history
      ensures Valid() && old(history) <= history && after.deleting == copy.deleting
      ensures if ok then Resolved(d, after, ref) else deployer == Finishing(d, after)
      ensures forall goal :: old(Smooth(d, goal)) ==> ok && Smooth(d, goal)
      ensures calls >= old(calls)
      ensures old(Quiet()) ==> Quiet() && SameObjects(old(store), store)
      ensures copy.instanceRef.Some? ==> Now() == old(Now()) && after == copy
    {
      hide Run, StepDeployer;
      if copy.instanceRef.Some? {
        return true, copy.instanceRef, copy;
      }
      ok, ref := GetInstanceRefFromCluster(d, copy);
      after := copy;
      if ok && ref.Some? {
        after := after.(instanceRef := ref);
        ok, after := SaveFoundRef(d, after);
      }
    }

    method GetInstanceRefFromCluster(d: ObjectReference, copy: Deployment)
        returns (ok: bool, ref: Option<ObjectReference>)
      requires Valid() && deployer == ListingOwned(d, copy) && copy.instanceRef == None
      modifies this`store, this`tender, this`calls, this`deployer, this`history
      ensures Valid() && old(history) <= history
      ensures ok && ref.Some? ==> deployer == SavingFoundRef(d, copy.(instanceRef := ref))
      ensures ok && ref == None ==> Resolved(d, copy, None)
      ensures !ok ==> deployer == Finishing(d, copy)
      ensures forall goal :: old(Smooth(d, goal)) ==> ok && Smooth(d, goal)
      ensures calls >= old(calls)
      ensures old(Quiet()) ==> Quiet() && store == old(store)
      ensures ok == oracle(old(calls)).choice.outcome.Applied?
      ensures ok ==> if ref.Some? then Owns(store, d, ref.value) else !Owned(store, d)
    {
      hide Run;
      var ch := Call();
      ok, ref := ch.outcome.Applied?, None;
      if ok {
        if n :| n in store.instances && Owner(store, n) == d {
          ref := Some(n);
          ch := ch.(name := n);
        }
      }
      Advance(store, ch);
    }

    method SaveFoundRef(d: ObjectReference, copy: Deployment) returns (ok: bool, after: Deployment)
      requires Valid() && deployer == SavingFoundRef(d, copy)
      modifies this`store, this`tender, this`calls, this`deployer, this`history
      ensures Valid() && old(history) <= history && after == copy.(version := after.version)
      ensures deployer == if ok then WithRef(d, after) else Finishing(d, after)
      ensures forall goal :: old(Smooth(d, goal)) ==> ok && Smooth(d, goal)
      ensures calls >= old(calls)
      ensures old(Quiet()) ==> Quiet() && SameObjects(old(store), store)
    {
      hide Run;
      var ch := Call();
      ok, after := SaveStatus(d, copy, ch);
    }

    // ---- The deletion of a deployment ----

    method HandleDelete(d: ObjectReference, copy: Deployment) returns (ok: bool, after: Deployment)
      requires Valid() && copy.deleting && deployer == WithRef(d, copy)
      modifies this`store, this`tender, this`calls, this`deployer, this`history
      ensures Valid() && deployer == Finishing(d, after) && old(history) <= history
      ensures forall goal :: old(Smooth(d, goal)) ==> ok && Smooth(d, goal)
    {
      hide Run, StepDeployer;
      var removeFinalizer;
      ok, removeFinalizer, after := EnsureDeleteInstance(d, copy);
      if ok && removeFinalizer {
        ok := RemoveFinalizer(d, after);
      }
    }

    method EnsureDeleteInstance(d: ObjectReference, copy: Deployment)
        returns (ok: bool, removeFinalizer: bool, after: Deployment)
      requires Valid() && copy.deleting && deployer == WithRef(d, copy)
      modifies this`store, this`tender, this`calls, this`deployer, this`history
      ensures Valid() && old(history) <= history
      ensures deployer == if ok && removeFinalizer then DroppingFinalizer(d, after) else Finishing(d, after)
      ensures forall goal :: old(Smooth(d, goal)) ==> ok && Smooth(d, goal)
      ensures ok && removeFinalizer ==> !Owned(store, d)
      ensures ok && !removeFinalizer ==>
        && after.instanceRef.Some?
        && (after.instanceRef.value in store.instances ==> store.instances[after.instanceRef.value].deleting)
    {
      hide Run, StepDeployer;
      var ref;
      ok, ref, after := GetInstanceRef(d, copy);
      if !ok {
        return false, false, after;
      }
      if ref == None {
        GoneFacts();
        return true, true, after;
      }
      var found, deleting;
      ok, found, deleting := CheckInstance(d, after, ref.value);
      if ok && !found {
        after := after.(instanceRef := None);
        ok, after := ClearRef(d, after);
        GoneFacts();
        return ok, true, after;
      }
      if ok && !deleting {
        ok := DeleteInstance(d, after, ref.value);
      }
      return ok, false, after;
    }

    // Get of the Instance to be deleted.
    method CheckInstance(d: ObjectReference, copy: Deployment, n: ObjectReference)
        returns (ok: bool, found: bool, deleting: bool)
      requires Valid() && deployer == CheckingInstance(d, copy, n)
      modifies this`store, this`tender, this`calls, this`deployer, this`history
      ensures Valid() && old(history) <= history
      ensures deployer ==
        if !ok then Finishing(d, copy)
        else if !found then ClearingRef(d, copy.(instanceRef := None))
        else if deleting then Finishing(d, copy)
        else DeletingInstance(d, copy, n)
      ensures forall goal :: old(Smooth(d, goal)) ==> ok && Smooth(d, goal)
      ensures ok && deleting ==> n in store.instances && store.instances[n].deleting
    {
      hide Run;
      var ch := Call();
      ok := ch.outcome.Applied?;
      found := n in store.instances;
      deleting := found && store.instances[n].deleting;
      Advance(store, ch);
    }

    method ClearRef(d: ObjectReference, copy: Deployment) returns (ok: bool, after: Deployment)
      requires Valid() && deployer == ClearingRef(d, copy)
      modifies this`store, this`tender, this`calls, this`deployer, this`history
      ensures Valid() && old(history) <= history
      ensures deployer == if ok then DroppingFinalizer(d, after) else Finishing(d, after)
      ensures forall goal :: old(Smooth(d, goal)) ==> ok && Smooth(d, goal)
    {
      hide Run;
      var ch := Call();
      ok, after := SaveStatus(d, copy, ch);
    }

    method DeleteInstance(d: ObjectReference, copy: Deployment, n: ObjectReference) returns (ok: bool)
      requires Valid() && deployer == DeletingInstance(d, copy, n)
      modifies this`store, this`tender, this`calls, this`deployer, this`history
      ensures Valid() && old(history) <= history && deployer == Finishing(d, copy)
      ensures ok && n in store.instances ==> store.instances[n].deleting
      ensures forall goal :: old(Smooth(d, goal)) ==> ok && Smooth(d, goal)
    {
      hide Run;
      var ch := Call();
      ghost var before := store;
      if !ch.outcome.Failed? {
        store := Lifecycle.DeleteInstance(store, n);
      }
      ok := ch.outcome.Applied?;
      Advance(before, ch);
    }

    method RemoveFinalizer(d: ObjectReference, copy: Deployment) returns (ok: bool)
      requires Valid() && deployer == DroppingFinalizer(d, copy)
      modifies this`store, this`tender, this`calls, this`deployer, this`history
      ensures Valid() && old(history) <= history && deployer == Finishing(d, copy)
      ensures ok && d in store.deployments ==> !store.deployments[d].finalizer
      ensures forall goal :: old(Smooth(d, goal)) ==> ok && Smooth(d, goal)
    {
      hide Run;
      var ch := Call();
      ghost var before := store;
      ok := false;
      if !ch.outcome.Failed? && CurrentDeployment(store, d, copy.version) {
        ok := ch.outcome.Applied?;
        store := if store.deployments[d].deleting then DropDeployment(store, d)
                 else PutDeployment(store, d, store.deployments[d].(finalizer := false));
      }
      Advance(before, ch);
    }

    // ---- The reconciliation of a deployment ----

    method ReconcileInstance(d: ObjectReference, copy: Deployment) returns (ok: bool, after: Deployment)
      requires Valid() && !copy.deleting && deployer == WithRef(d, copy)
      modifies this`store, this`tender, this`calls, this`deployer, this`history
      ensures Valid() && deployer == Finishing(d, after) && old(history) <= history
      ensures ok ==> after.instanceRef.Some? && after.instanceRef.value in store.registered
      ensures old(Smooth(d, Settle) && (Owned(store, d) || Provided(d)) && StatusIs(d, copy.instanceRef)) ==>
        ok && Smooth(d, Settle)
    {
      hide Run, StepDeployer, OnTrack;
      var ref, n;
      ok, ref, after := GetInstanceRef(d, copy);
      if !ok {
        return;
      }
      if old(Quiet() && Provided(d)) {
        ProvidedStays(d);
      }
      ok, n, after := CreateOrUpdateInstance(d, after, ref);
      if !ok {
        return;
      }
      ok, after := RecordInstance(d, after, n, after.instanceRef != copy.instanceRef);
    }

    // The Instance is written; the status and the usage list follow.
    method RecordInstance(d: ObjectReference, copy: Deployment, n: ObjectReference, changed: bool)
        returns (ok: bool, after: Deployment)
      requires Valid() && deployer == Refetching(d, copy, n)
      modifies this`store, this`tender, this`calls, this`deployer, this`history
      ensures Valid() && deployer == Finishing(d, after) && old(history) <= history
      ensures after == copy.(version := after.version) && (ok ==> n in store.registered)
      ensures old(Smooth(d, Settle) && (changed || StatusIs(d, copy.instanceRef))) ==> ok && Smooth(d, Settle)
    {
      hide Run, StepDeployer, OnTrack;
      var c;
      after := copy;
      ok, c := GetInstance(d, copy, n);
      if !ok {
        return;
      }
      ok, after := SaveInstanceRef(d, copy, n, c, changed);
      if !ok {
        return;
      }
      ok := AddToUsageList(d, after, n, c);
    }

    method CreateOrUpdateInstance(d: ObjectReference, copy: Deployment, ref: Option<ObjectReference>)
      returns (ok: bool, n: ObjectReference, after: Deployment)
      requires Valid() && !copy.deleting && Resolved(d, copy, ref)
      modifies this`store, this`tender, this`calls, this`deployer, this`history
      ensures Valid() && old(history) <= history
      ensures ok ==> deployer == Refetching(d, after, n) && after.instanceRef == Some(n)
      ensures !ok ==> deployer == Finishing(d, after)
      ensures old(Smooth(d, Settle) && (Owned(store, d) || Provided(d))) ==>
        ok && Smooth(d, Settle) && store.deployments == old(store.deployments)
    {
      hide Run, StepDeployer, Inv;
      var write := Write(None, None, BLANK);
      n, after := d, copy;
      if ref.Some? {
        ok, write := LoadInstance(d, copy, ref.value);
        if !ok {
          return;
        }
      }
      NowInv();
      NewIsUnowned(Now());
      if old(Quiet() && Provided(d)) {
        ProvidedStays(d);
      }
      ok, write := MutateInstance(d, copy, write);
      if !ok {
        return;
      }
      if old(Quiet() && Provided(d)) {
        ProvidedStays(d);
      }
      ok, n := WriteInstance(d, copy, write);
      if ok {
        after := copy.(instanceRef := Some(n));
      }
    }

    method LoadInstance(d: ObjectReference, copy: Deployment, n: ObjectReference) returns (ok: bool, write: Write)
      requires Valid() && deployer == Loading(d, copy, n)
      modifies this`store, this`tender, this`calls, this`deployer, this`history
      ensures Valid() && old(history) <= history
      ensures deployer == if ok then Choosing(d, copy, write) else Finishing(d, copy)
      ensures forall goal :: old(Smooth(d, goal)) ==> ok && Smooth(d, goal)
      ensures old(Quiet()) ==> Quiet() && store == old(store) && calls >= old(calls)
    {
      hide Run;
      var ch := Call();
      ok := ch.outcome.Applied?;
      write := if n in store.instances then Write(Some(n), Some(store.instances[n]), store.instances[n])
        else Write(Some(n), None, BLANK);
      Advance(store, ch);
    }

    // mutateInstance: the owner, the target and the ID; the target is the one that scheduling finds.
    method MutateInstance(d: ObjectReference, copy: Deployment, write: Write) returns (ok: bool, after: Write)
      requires Valid() && deployer == Choosing(d, copy, write)
      modifies this`store, this`tender, this`calls, this`deployer, this`history
      ensures Valid() && old(history) <= history
      ensures deployer == if ok then Writing(d, copy, after) else Finishing(d, copy)
      ensures old(Smooth(d, Settle) && (write.base.Some? || Provided(d))) ==> ok && Smooth(d, Settle)
      ensures old(Quiet()) ==> Quiet() && store == old(store) && calls >= old(calls)
      ensures after.base == write.base && after.target == write.target
      ensures ok ==>
        && after.instance.owner == d.name
        && (write.instance.config.name != "" ==> after.instance.config == write.instance.config)
        && (write.instance.config.name == "" && old(Quiet()) ==>
              TargetChoice.MayPick(store, oracle(old(calls)).policy, after.instance.config))
        && (if write.instance.id != "" then after.instance.id == write.instance.id
            else exists i: nat :: Draws(i, d.namespace, after.instance.id))
    {
      hide Run, StepDeployer, Inv;
      NowInv();
      WriteFacts(Now());
      ok, after := FindTarget(d, copy, write);
      if ok {
        if old(Quiet() && Provided(d)) {
          ProvidedStays(d);
        }
        ok, after := FindId(d, copy, after);
      }
    }

    method FindTarget(d: ObjectReference, copy: Deployment, write: Write) returns (ok: bool, after: Write)
      requires Valid() && deployer == Choosing(d, copy, write)
      modifies this`store, this`tender, this`calls, this`deployer, this`history
      ensures Valid() && old(history) <= history
      ensures deployer == if ok then Drawing(d, copy, after) else Finishing(d, copy)
      ensures old(Smooth(d, Settle) && (write.base.Some? || Provided(d))) ==> ok && Smooth(d, Settle)
      ensures old(Quiet()) ==> Quiet() && store == old(store) && calls >= old(calls)
      ensures after.base == write.base && after.target == write.target
      ensures ok ==>
        && (write.instance.owner == "" || write.instance.owner == d.name)
        && after.instance == write.instance.(config := after.instance.config)
        && (if write.instance.config.name != "" then after == write
            else TargetChoice.MayPick(store, oracle(old(calls)).policy, after.instance.config))
      ensures !ok ==>
        || (write.instance.owner != "" && write.instance.owner != d.name)
        || (write.instance.config.name == "" &&
            (oracle(old(calls)).choice.outcome.Applied? ==> !TargetChoice.Placeable(store, oracle(old(calls)).policy)))
    {
      hide Run, Inv, OnTrack, StepDeployer, TargetChoice.Placeable, TargetChoice.MayPick;
      assert old(Provided(d)) ==> ProvidedAt(calls, d);
      after := write;
      var policy := oracle(calls).policy;
      var ch := Call();
      NowInv();
      WriteFacts(Now());
      if write.instance.owner != "" && write.instance.owner != d.name {
        ok := false;
      } else {
        ok := true;
        if |write.instance.config.name| == 0 {
          ok := false;
          if ch.outcome.Applied? {
            var target := TargetChoice.FindTarget(store, policy);
            if target.Some? {
              TargetChoice.PickedIsStored(store, policy, target.value);
              ok := true;
              ch := ch.(pick := target.value);
              after := write.(instance := write.instance.(config := target.value));
            } else {
              ch := ch.(outcome := Failed);
            }
          }
        }
      }
      Chooses(d, copy, write, ch);
      Advance(store, ch);
    }

    method FindId(d: ObjectReference, copy: Deployment, write: Write) returns (ok: bool, after: Write)
      requires Valid() && deployer == Drawing(d, copy, write)
      modifies this`store, this`tender, this`calls, this`deployer, this`history
      ensures Valid() && old(history) <= history
      ensures deployer == if ok then Writing(d, copy, after) else Finishing(d, copy)
      ensures old(Smooth(d, Settle) && (write.instance.id != "" || Provided(d))) ==> ok && Smooth(d, Settle)
      ensures old(Quiet()) ==> Quiet() && store == old(store) && calls >= old(calls)
      ensures after.base == write.base && after.target == write.target
      ensures ok ==>
        && after.instance == write.instance.(owner := d.name, id := after.instance.id)
        && (if write.instance.id != "" then after.instance.id == write.instance.id
            else Draws(old(calls), d.namespace, after.instance.id))
      ensures !ok ==>
        && write.instance.id == ""
        && (oracle(old(calls)).choice.outcome.Applied? ==>
              forall k :: 0 <= k < patience ==> !Unused(store, d.namespace, Ids.Truncated(draws(old(calls))(k))))
    {
      hide Run, OnTrack, StepDeployer;
      assert old(Provided(d)) ==> ProvidedAt(calls, d);
      var i := calls;
      var ch := Call();
      if |write.instance.id| == 0 {
        ok, after := AssignId(i, d, copy, write, ch);
      } else {
        ok := true;
        after := write.(instance := write.instance.(owner := d.name));
        HasId(d, copy, write, ch);
        Advance(store, ch);
      }
    }

    lemma Chooses(d: ObjectReference, copy: Deployment, write: Write, ch: Choice)
      requires deployer == Choosing(d, copy, write)
      ensures StepDeployer(store, deployer, ch) ==
        (store,
         if write.instance.owner != "" && write.instance.owner != d.name then Finishing(d, copy)
         else if write.instance.config.name != "" then Drawing(d, copy, write)
         else if !ch.outcome.Applied? || ch.pick !in store.configs then Finishing(d, copy)
         else Drawing(d, copy, write.(instance := write.instance.(config := ch.pick))))
      ensures Calm(Now(), ch) <==>
        ch.outcome.Applied? && (write.instance.config.name == "" ==> ch.pick in store.configs)
    {
    }

    lemma HasId(d: ObjectReference, copy: Deployment, write: Write, ch: Choice)
      requires deployer == Drawing(d, copy, write) && write.instance.id != ""
      ensures StepDeployer(store, deployer, ch) ==
        (store, Writing(d, copy, write.(instance := write.instance.(owner := d.name))))
      ensures Calm(Now(), ch) <==> ch.outcome.Applied?
    {
    }

    lemma DrawsId(d: ObjectReference, copy: Deployment, write: Write, ch: Choice)
      requires deployer == Drawing(d, copy, write) && write.instance.id == ""
      requires ch.outcome.Applied? ==> Unused(store, d.namespace, ch.id)
      ensures StepDeployer(store, deployer, ch) ==
        (store,
         if ch.outcome.Applied? then Writing(d, copy, write.(instance := write.instance.(owner := d.name, id := ch.id)))
         else Finishing(d, copy))
      ensures Calm(Now(), ch) <==> ch.outcome.Applied?
    {
    }

    // The IDs in use were listed by call `i`.
    method AssignId(i: nat, d: ObjectReference, copy: Deployment, write: Write, ch: Choice)
      returns (ok: bool, after: Write)
      requires Valid() && deployer == Drawing(d, copy, write) && write.instance.id == ""
      modifies this`deployer, this`history
      ensures Valid() && old(history) <= history
      ensures deployer == if ok then Writing(d, copy, after) else Finishing(d, copy)
      ensures after == write.(instance := write.instance.(owner := d.name, id := after.instance.id))
      ensures ok ==> Draws(i, d.namespace, after.instance.id)
      ensures ok ==> forall goal :: old(OnTrack(Now(), d, goal)) ==> OnTrack(Now(), d, goal)
      ensures ok <==>
        && ch.outcome.Applied?
        && exists k :: 0 <= k < patience && Unused(store, d.namespace, Ids.Truncated(draws(i)(k)))
    {
      hide Run, OnTrack, StepDeployer, Calm, Unused;
      after := write.(instance := write.instance.(owner := d.name));
      ok := false;
      var call := ch.(outcome := Failed);
      if ch.outcome.Applied? {
        var id := DrawId(i, d.namespace);
        if id.Some? {
          ok := true;
          call := ch.(id := id.value);
          after := after.(instance := after.instance.(id := id.value));
        }
      }
      DrawsId(d, copy, write, call);
      Advance(store, call);
    }

    // The search for an ID, if it ends.
    method DrawId(i: nat, namespace: string) returns (id: Option<string>)
      requires Valid()
      ensures id.Some? ==> Draws(i, namespace, id.value)
      ensures id == None <==> forall k :: 0 <= k < patience ==> !Unused(store, namespace, Ids.Truncated(draws(i)(k)))
    {
      hide Run;
      var existing := ListIds(namespace);
      if exists k :: 0 <= k < patience && Ids.Truncated(draws(i)(k)) !in existing {
        var unused, drawn := Ids.FindUnusedId(existing, draws(i));
        assert Ids.Shortens(draws(i)(drawn - 1), unused);
        id := Some(unused);
      } else {
        id := None;
      }
    }

    // The IDs of all Instances in a namespace.
    method ListIds(namespace: string) returns (ids: seq<string>)
      ensures forall x :: x in ids <==>
        exists n :: n in store.instances && n.namespace == namespace && store.instances[n].id == x
    {
      ids := [];
      var names := store.instances.Keys;
      while names != {}
        invariant names <= store.instances.Keys
        invariant forall x :: x in ids <==>
          exists n :: n in store.instances && n !in names && n.namespace == namespace && store.instances[n].id == x
        decreases names
      {
        var n :| n in names;
        names := names - {n};
        if n.namespace == namespace {
          ids := ids + [store.instances[n].id];
        }
      }
    }

    // The create under a generated name, or the write of the named Instance.
    method WriteInstance(d: ObjectReference, copy: Deployment, write: Write) returns (ok: bool, n: ObjectReference)
      requires Valid() && deployer == Writing(d, copy, write)
      modifies this`store, this`tender, this`calls, this`deployer, this`history
      ensures Valid() && old(history) <= history
      ensures deployer == if ok then Refetching(d, copy.(instanceRef := Some(n)), n) else Finishing(d, copy)
      ensures old(Smooth(d, Settle) && (write.target.Some? || Provided(d))) ==> ok && Smooth(d, Settle)
      ensures old(Quiet()) ==> store.deployments == old(store.deployments)
    {
      hide Run, OnTrack, StepDeployer;
      assert old(Provided(d)) ==> ProvidedAt(calls, d);
      var ch := Call();
      if write.target == None {
        ok, n := CreateNamed(d, copy, write, ObjectReference(ch.name.name, d.namespace), ch);
      } else {
        n := write.target.value;
        ok := UpdateNamed(d, copy, write, n, ch);
      }
    }

    method CreateNamed(d: ObjectReference, copy: Deployment, write: Write, name: ObjectReference, ch: Choice)
      returns (ok: bool, n: ObjectReference)
      requires Valid() && deployer == Writing(d, copy, write) && write.target == None
      requires name == ObjectReference(ch.name.name, d.namespace)
      modifies this`store, this`deployer, this`history
      ensures Valid() && old(history) <= history && n == name
      ensures deployer == if ok then Refetching(d, copy.(instanceRef := Some(n)), n) else Finishing(d, copy)
      ensures ok <==> ch.outcome.Applied? && name !in old(store).used
      ensures ok ==> forall goal :: old(OnTrack(Now(), d, goal)) ==> OnTrack(Now(), d, goal)
      ensures store == if ch.outcome.Failed? || name in old(store).used then old(store)
                       else CreateInstance(old(store), name, write.instance)
    {
      hide Run, Inv, OnTrack;
      ghost var before := store;
      n := name;
      // a generated name may be taken
      var call := if n in store.used then ch.(outcome := Failed) else ch;
      if !call.outcome.Failed? {
        store := CreateInstance(store, n, write.instance);
      }
      ok := call.outcome.Applied?;
      Advance(before, call);
    }

    // An update that changes nothing makes no call.
    method UpdateNamed(d: ObjectReference, copy: Deployment, write: Write, n: ObjectReference, ch: Choice)
      returns (ok: bool)
      requires Valid() && deployer == Writing(d, copy, write) && write.target == Some(n)
      modifies this`store, this`deployer, this`history
      ensures Valid() && old(history) <= history
      ensures deployer == if ok then Refetching(d, copy.(instanceRef := Some(n)), n) else Finishing(d, copy)
      ensures old(OnTrack(Now(), d, Settle)) && ch.outcome.Applied? ==> ok && OnTrack(Now(), d, Settle)
      ensures store ==
        if (ch.write || write.base != Some(write.instance)) && !ch.outcome.Failed? && old(Unchanged(n, write.base))
        then CreateInstance(old(store), n, write.instance) else old(store)
    {
      hide Run, Inv, OnTrack;
      ghost var before := store;
      NowInv();
      WriteFacts(Now());
      WriteOnTrack(Now(), d);
      ok := true;
      if write.base != Some(write.instance) || ch.write {
        if ch.outcome.Failed? || !Unchanged(n, write.base) {
          ok := false;
        } else {
          store := CreateInstance(store, n, write.instance);
          ok := ch.outcome.Applied?;
        }
      }
      Advance(before, ch);
    }

    // Nobody has written the object since it was read, or created it since it was not found.
    predicate Unchanged(n: ObjectReference, base: Option<Instance>)
      reads this`store
    {
      if base.Some? then CurrentInstance(store, n, base.value.version) else n !in store.instances
    }

    method GetInstance(d: ObjectReference, copy: Deployment, n: ObjectReference) returns (ok: bool, c: ObjectReference)
      requires Valid() && deployer == Refetching(d, copy, n)
      modifies this`store, this`tender, this`calls, this`deployer, this`history
      ensures Valid() && old(history) <= history
      ensures deployer == if ok then SavingStatus(d, copy, n, c) else Finishing(d, copy)
      ensures old(Smooth(d, Settle)) ==> ok && Smooth(d, Settle) && store == old(store)
    {
      hide Run;
      var ch := Call();
      ok := ch.outcome.Applied? && n in store.instances;
      c := if ok then store.instances[n].config else n;
      Advance(store, ch);
    }

    method SaveInstanceRef(d: ObjectReference, copy: Deployment, n: ObjectReference, c: ObjectReference, changed: bool)
      returns (ok: bool, after: Deployment)
      requires Valid() && deployer == SavingStatus(d, copy, n, c)
      modifies this`store, this`tender, this`calls, this`deployer, this`history
      ensures Valid() && old(history) <= history && after == copy.(version := after.version)
      ensures deployer == if ok then LoadingConfig(d, after, n, c) else Finishing(d, after)
      ensures old(Smooth(d, Settle) && (changed || StatusIs(d, copy.instanceRef))) ==> ok && Smooth(d, Settle)
    {
      hide Run;
      var ch := Call();
      if changed || ch.write {
        ok, after := SaveStatus(d, copy, ch.(write := true));
      } else {
        ok, after := true, copy;
        Advance(store, ch);
      }
    }

    method AddToUsageList(d: ObjectReference, copy: Deployment, n: ObjectReference, c: ObjectReference)
        returns (ok: bool)
      requires Valid() && deployer == LoadingConfig(d, copy, n, c)
      modifies this`store, this`tender, this`calls, this`deployer, this`history
      ensures Valid() && old(history) <= history && deployer == Finishing(d, copy)
      ensures ok ==> n in store.registered
      ensures old(Smooth(d, Settle)) ==> ok && Smooth(d, Settle)
    {
      hide Run, StepDeployer;
      var config, contained;
      ok, contained, config := GetConfig(d, copy, n, c);
      if ok && !contained {
        ok := SaveUsageList(d, copy, n, c, config);
      }
    }

    method GetConfig(d: ObjectReference, copy: Deployment, n: ObjectReference, c: ObjectReference)
      returns (ok: bool, contained: bool, config: Config)
      requires Valid() && deployer == LoadingConfig(d, copy, n, c)
      modifies this`store, this`tender, this`calls, this`deployer, this`history
      ensures Valid() && old(history) <= history
      ensures deployer == if ok && !contained then SavingConfig(d, copy, n, c, config) else Finishing(d, copy)
      ensures ok && contained ==> n in store.registered
      ensures old(Smooth(d, Settle)) ==> ok && Smooth(d, Settle)
    {
      hide Run, Inv, OnTrack;
      var ch := Call();
      ghost var before := store;
      NowInv();
      LoadingOnTrack(Now(), d);
      ok, contained, config := ch.outcome.Applied? && c in store.configs, false, Config(0, []);
      if ok {
        config := store.configs[c];
        contained := ContainsReference(config.instanceRefs, n);
        if contained {
          store := Register(store, n);
        }
      }
      Advance(before, ch);
    }

    method SaveUsageList(d: ObjectReference, copy: Deployment, n: ObjectReference, c: ObjectReference, config: Config)
      returns (ok: bool)
      requires Valid() && deployer == SavingConfig(d, copy, n, c, config)
      modifies this`store, this`tender, this`calls, this`deployer, this`history
      ensures Valid() && old(history) <= history && deployer == Finishing(d, copy)
      ensures ok ==> n in store.registered
      ensures old(Smooth(d, Settle)) ==> ok && Smooth(d, Settle)
    {
      hide Run;
      var ch := Call();
      ghost var before := store;
      ok := false;
      if !ch.outcome.Failed? && CurrentConfig(store, c, config.version) {
        store := PutConfig(store, c, config.instanceRefs + [n]);
        ok := ch.outcome.Applied?;
        if ok {
          store := Register(store, n);
        }
      }
      Advance(before, ch);
    }
  }

  // ---- A controller at work ----

  lemma Created(s: State, d: ObjectReference, config: ObjectReference)
    requires s == INIT && config.name != ""
    ensures var b := Step(Step(s, AddConfig(config)), UserCreates(d));
      Unprepared(b.store, d) && b.store.instances == map[] && b.store.used == map[] && config in b.store.configs &&
        b.deployer == Idle
  {
  }

  lemma UserDeleted(s: State, d: ObjectReference)
    requires Inv(s) && s.deployer == Idle && Settled(s.store, d)
    ensures var b := Step(s, UserDeletes(d));
      Startable(b.store, d, Delete(Left(b.store, d))) && Left(b.store, d) <= 3 && b.deployer == Idle
  {
  }

  // A new deployment is settled by two passes while the API server answers.
  method SettleDeployment(d: ObjectReference, config: ObjectReference, name: ObjectReference, id: string)
    returns (cluster: Cluster)
    requires config.name != "" && id != ""
    ensures fresh(cluster) && cluster.Valid() && cluster.deployer == Idle && cluster.Quiet() &&
      Settled(cluster.store, d)
  {
    hide Run, Step, Inv, Settled, Left, Startable, Unprepared, Owned;
    var policy := TargetChoice.Policy(None, Targets.Deployment("", map[]), _ => TargetChoice.Setting(true, 0, false));
    var turn := Turn([], Choice(Applied, false, false, config, id, name), policy);
    cluster := new Cluster(_ => turn, _ => _ => id, 1);
    Created(INIT, d, config);
    cluster.Happen(AddConfig(config));
    cluster.Happen(UserCreates(d));
    var prepared := cluster.Reconcile(d);
    TargetChoice.FreePolicyPlaces(cluster.store, policy);
    cluster.EmptyProvides(d);
    var reconciled := cluster.Reconcile(d);
  }

  /** Whatever the names, a new deployment is settled while the API server answers, and once its user deletes it the
      next pass marks its Instance, if it does not go at once. */
  method ServeDeployment(d: ObjectReference, config: ObjectReference, name: ObjectReference, id: string)
    returns (settled: Store, cluster: Cluster)
    requires config.name != "" && id != ""
    ensures fresh(cluster) && cluster.Valid() && Settled(settled, d) && Left(cluster.store, d) <= 2
  {
    hide Run, Step, Inv, Settled, Left, Startable;
    cluster := SettleDeployment(d, config, name, id);
    settled := cluster.store;
    cluster.NowInv();
    UserDeleted(cluster.Now(), d);
    cluster.Happen(UserDeletes(d));
    var handled := cluster.Reconcile(d);
  }
}
