// What holds after every run of the protocol, however calls fail and however the controllers,
// the users and crashes interleave.
module LifecycleTheorems {
  import opened Common
  import opened Lifecycle
  import opened LifecycleInvariant
  import opened LifecycleSteps

  // ---- The invariant holds after every run ----

  lemma StoreParts(s: Store)
    requires StoreInv(s)
    ensures InstancesOk(s) && OneInstanceEach(s) && ConfigsOk(s)
  {
  }

  // The calls of the deployment controller that only read.
  predicate OnlyReads(w: DeploymentWorker) {
    w.Idle? || w.ListingOwned? || w.Choosing? || w.Drawing? || w.Loading? || w.Refetching? || w.CheckingInstance?
  }

  lemma ReadingStepKeeps(s: Store, w: DeploymentWorker, ch: Choice)
    requires StoreInv(s) && DeployerInv(s, w) && OnlyReads(w)
    ensures var (b, w') := StepDeployer(s, w, ch); DeployerKeeps(s, b, w')
  {
    hide StoreInv, TenderRelies, DeployerInv, StepListingOwned, StepChoosing, StepDrawing, StepLoading, StepRefetching,
         StepCheckingInstance;
    StoreParts(s);
    ReliesReflexive(s);
    match w
    case Idle =>
    case ListingOwned(d, copy) => ListingOwnedKeeps(s, d, copy, ch);
    case Choosing(d, copy, write) => ChoosingKeeps(s, d, copy, write, ch);
    case Drawing(d, copy, write) => DrawingKeeps(s, d, copy, write, ch);
    case Loading(d, copy, n) => LoadingKeeps(s, d, copy, n, ch);
    case Refetching(d, copy, n) => RefetchingKeeps(s, d, copy, n, ch);
    case CheckingInstance(d, copy, n) => CheckingInstanceKeeps(s, d, copy, n, ch);
  }

  lemma DeployerStepKeeps(s: Store, w: DeploymentWorker, ch: Choice)
    requires StoreInv(s) && DeployerInv(s, w)
    ensures var (b, w') := StepDeployer(s, w, ch); DeployerKeeps(s, b, w')
  {
    hide DeployerKeeps, StoreInv, DeployerInv, StepFetched, StepSavingFoundRef, StepWriting, StepSavingStatus,
      StepLoadingConfig, StepSavingConfig, StepDeletingInstance, StepClearingRef, StepDroppingFinalizer, StepFinishing;
    if OnlyReads(w) {
      ReadingStepKeeps(s, w, ch);
    } else {
      StoreParts(s);
      match w
      case Fetched(d, copy) => FetchedKeeps(s, d, copy, ch);
      case SavingFoundRef(d, copy) => SavingFoundRefKeeps(s, d, copy, ch);
      case Writing(d, copy, write) => WritingKeeps(s, d, copy, write, ch);
      case SavingStatus(d, copy, n, c) => SavingStatusKeeps(s, d, copy, n, c, ch);
      case LoadingConfig(d, copy, n, c) => LoadingConfigKeeps(s, d, copy, n, c, ch);
      case SavingConfig(d, copy, n, c, config) => SavingConfigKeeps(s, d, copy, n, c, config, ch);
      case DeletingInstance(d, copy, n) => DeletingInstanceKeeps(s, d, copy, n, ch);
      case ClearingRef(d, copy) => ClearingRefKeeps(s, d, copy, ch);
      case DroppingFinalizer(d, copy) => DroppingFinalizerKeeps(s, d, copy, ch);
      case Finishing(d, copy) => FinishingKeeps(s, d, copy, ch);
    }
  }

  lemma TenderStepKeeps(s: Store, w: InstanceWorker, ch: Choice)
    requires StoreInv(s) && TenderInv(s, w)
    ensures var (b, w') := StepTender(s, w, ch); TenderKeeps(s, b, w')
  {
    hide StoreInv, DeployerRelies, TenderInv, StepRead, StepTearing, StepUnlisting, StepReleasing, StepEnding;
    ReliesReflexive(s);
    match w
    case Resting =>
    case Read(n, local) => ReadKeeps(s, n, local, ch);
    case Tearing(n, local) => TearingKeeps(s, n, local, ch);
    case Unlisting(n, local, config) => UnlistingKeeps(s, n, local, config, ch);
    case Releasing(n, local) => ReleasingKeeps(s, n, local, ch);
    case Ending(n, local) => EndingKeeps(s, n, local, ch);
  }

  lemma StartsOk(s: Store)
    requires StoreInv(s)
    ensures DeployerInv(s, Idle) && TenderInv(s, Resting)
    ensures forall d :: d in s.deployments ==> DeployerInv(s, Fetched(d, s.deployments[d]))
    ensures forall n :: n in s.instances ==> TenderInv(s, Read(n, s.instances[n]))
  {
  }

  lemma ReliesAdvance(a: Store, b: Store)
    requires DeployerRelies(a, b) || TenderRelies(a, b)
    ensures Advances(a, b)
  {
  }

  lemma StepKeeps(s: State, e: Event)
    requires Inv(s)
    ensures Inv(Step(s, e)) && Advances(s.store, Step(s, e).store)
  {
    hide StoreInv, DeployerInv, TenderInv, DeployerRelies, TenderRelies, Advances, InstancesOk, OneInstanceEach,
         StepDeployer, StepTender, StepEnvironment;
    var a, b := s.store, Step(s, e).store;
    StoreParts(a);
    StartsOk(a);
    ReliesReflexive(a);
    if e.StepDeployment? {
      DeployerStepKeeps(a, s.deployer, e.choice);
      TenderUndisturbed(a, b, s.tender);
    } else if e.StepInstance? {
      TenderStepKeeps(a, s.tender, e.choice);
      DeployerUndisturbed(a, b, s.deployer);
    } else if !e.Crash? && !e.StartDeployment? && !e.StartInstance? {
      EnvironmentKeeps(a, e);
      TenderUndisturbed(a, b, s.tender);
      DeployerUndisturbed(a, b, s.deployer);
    }
    ReliesAdvance(a, b);
  }

  lemma {:induction false} RunKeeps(s: State, events: seq<Event>)
    requires Inv(s)
    ensures Inv(Run(s, events))
  {
    hide Inv, Step, Advances;
    if events != [] {
      RunKeeps(s, events[..|events| - 1]);
      StepKeeps(Run(s, events[..|events| - 1]), events[|events| - 1]);
    }
  }

  /** The invariant holds after every run from the empty cluster. */
  lemma AlwaysInv(events: seq<Event>)
    ensures Inv(Run(INIT, events))
  {
    RunKeeps(INIT, events);
  }

  ghost function After(events: seq<Event>): Store {
    Run(INIT, events).store
  }

  /** At most one Instance per deployment, and a status reference names it. */
  lemma AtMostOneInstance(events: seq<Event>, d: ObjectReference)
    ensures var s := After(events);
            && (forall m, n :: Owns(s, d, m) && Owns(s, d, n) ==> m == n)
            && (forall n :: Owns(s, d, n) && d in s.deployments && s.deployments[d].instanceRef.Some? ==>
                  s.deployments[d].instanceRef == Some(n))
  {
    AlwaysInv(events);
    assert OneInstanceEach(After(events)) && DeploymentsOk(After(events));
  }

  /** An existing Instance has an existing owner that carries the finalizer; it is only deleted together with its owner,
      or directly by somebody. */
  lemma NoOrphanedInstance(events: seq<Event>, n: ObjectReference)
    requires n in After(events).instances
    ensures var s := After(events); Owner(s, n) in s.deployments && s.deployments[Owner(s, n)].finalizer
    ensures var s := After(events); s.instances[n].deleting ==> s.deployments[Owner(s, n)].deleting || n in s.removed
  {
    AlwaysInv(events);
    assert InstanceOk(After(events), n);
  }

  /** The Instances of one namespace have pairwise distinct IDs. */
  lemma IdsAreDistinct(events: seq<Event>)
    ensures var s := After(events);
            forall m, n :: m in s.instances && n in s.instances && m.namespace == n.namespace && m != n ==>
              s.instances[m].id != s.instances[n].id
  {
    AlwaysInv(events);
    assert DistinctIds(After(events));
  }

  /** Unless it is deleted directly, an Instance has the same ID, target and owner whenever it is seen again, and does
      not come back once it is gone. Its owner is the same in any case. */
  lemma {:induction false} IdentityNeverChanges(before: seq<Event>, after: seq<Event>, n: ObjectReference)
    requires n in After(before).used
    ensures var a, b := After(before), Run(Run(INIT, before), after).store;
            && n in b.used && b.used[n] == a.used[n]
            && a.removed <= b.removed
            && (n in b.instances ==> Owner(b, n) == a.used[n])
            && (n in b.instances && n !in b.removed ==>
              n in a.instances && SameIdentity(a.instances[n], b.instances[n]))
  {
    hide Inv, Step;
    if after != [] {
      var init, last := after[..|after| - 1], after[|after| - 1];
      IdentityNeverChanges(before, init, n);
      AlwaysInv(before);
      RunKeeps(Run(INIT, before), init);
      StepKeeps(Run(Run(INIT, before), init), last);
      OwnersRecorded(Run(Run(INIT, before), after));
    } else {
      AlwaysInv(before);
      OwnersRecorded(Run(INIT, before));
    }
  }

  lemma OwnersRecorded(s: State)
    requires Inv(s)
    ensures forall n :: n in s.store.instances ==> n in s.store.used && s.store.used[n] == Owner(s.store, n)
  {
    assert forall n :: n in s.store.instances ==> InstanceOk(s.store, n);
  }

  /** CreateOrUpdate takes its branch that creates an Instance again, under the name from the status, exactly if that
      Instance is gone when it is read; and then somebody has deleted it directly. */
  lemma RecreateOnlyAfterRemoval(events: seq<Event>, ch: Choice)
    ensures var s := Run(INIT, events);
            && (s.deployer.Loading? && ch.outcome.Applied? ==>
                  var next := StepDeployer(s.store, s.deployer, ch).1;
                  next.Choosing? && (next.write.base == None <==> s.deployer.n !in s.store.instances))
            && (s.deployer.Loading? && s.deployer.n !in s.store.instances ==> s.deployer.n in s.store.removed)
            && (s.deployer.Writing? && s.deployer.write.target.Some? && s.deployer.write.base == None ==>
                  s.deployer.write.target.value in s.store.removed)
  {
    AlwaysInv(events);
  }

  // What users rely on: one Instance per deployment, found through its reference; no Instance without a deployment that
  // is held for it; distinct IDs.
  ghost predicate Safe(s: Store) {
    && (forall d, m, n :: Owns(s, d, m) && Owns(s, d, n) ==> m == n)
    && (forall d, n :: Owns(s, d, n) && d in s.deployments && s.deployments[d].instanceRef.Some? ==>
      s.deployments[d].instanceRef == Some(n))
    && (forall n :: n in s.instances ==> Owner(s, n) in s.deployments && s.deployments[Owner(s, n)].finalizer)
    && (forall m, n :: m in s.instances && n in s.instances && m.namespace == n.namespace && m != n ==>
          s.instances[m].id != s.instances[n].id)
  }

  lemma AlwaysSafe(events: seq<Event>)
    ensures Safe(After(events))
  {
    hide Run;
    forall d ensures forall m, n :: Owns(After(events), d, m) && Owns(After(events), d, n) ==> m == n
      ensures var s := After(events);
        forall n :: Owns(s, d, n) && d in s.deployments && s.deployments[d].instanceRef.Some? ==>
          s.deployments[d].instanceRef == Some(n)
    {
      AtMostOneInstance(events, d);
    }
    forall n | n in After(events).instances
      ensures var s := After(events); Owner(s, n) in s.deployments && s.deployments[Owner(s, n)].finalizer
    {
      NoOrphanedInstance(events, n);
    }
    IdsAreDistinct(events);
  }

  // ---- Calls that fail ----

  // The worker goes on without a call: nothing is to be written, and what is needed is there.
  predicate DeployerSilent(w: DeploymentWorker, ch: Choice) {
    match w
    case Idle => true
    case Fetched(_, copy) => !ch.write && (copy.deleting || copy.finalizer)
    case SavingStatus(_, _, _, _) => !ch.write
    case Choosing(_, _, write) => write.instance.config.name != ""
    case Drawing(_, _, write) => write.instance.id != ""
    case Writing(_, _, write) => write.target.Some? && write.base == Some(write.instance) && !ch.write
    case _ => false
  }

  predicate TenderSilent(w: InstanceWorker, ch: Choice) {
    w.Resting? || (w.Read? && !ch.write && (w.local.deleting || w.local.finalizer))
  }

  /** A call that fails changes nothing. */
  lemma FailedCallChangesNothing(s: Store, deployer: DeploymentWorker, tender: InstanceWorker, ch: Choice)
    requires ch.outcome.Failed?
    ensures StepDeployer(s, deployer, ch).0 == s && StepTender(s, tender, ch).0 == s
  {
  }

  /** A call whose response is an error, applied or not, ends the pass of the deployment controller; only a generated
      name that is taken is replaced by another one. */
  lemma ErrorEndsDeployment(s: Store, w: DeploymentWorker, ch: Choice)
    requires !ch.outcome.Applied? && !DeployerSilent(w, ch)
    ensures var next := StepDeployer(s, w, ch).1;
      || next.Idle? || next.Finishing?
      || (ch.outcome.Lost? && w.Writing? && w.write.target == None && next == w)
  {
  }

  /** The same for the instance controller. */
  lemma ErrorEndsInstance(s: Store, w: InstanceWorker, ch: Choice)
    requires !ch.outcome.Applied? && !TenderSilent(w, ch)
    ensures var next := StepTender(s, w, ch).1; next.Resting? || next.Ending?
  {
  }

  /** A write of an Instance, based on its current version, is made exactly if it has an effect at all. */
  lemma WritesAreMade(s: Store, w: DeploymentWorker, ch: Choice)
    requires w.Writing? && w.write.target.Some? && !ch.outcome.Failed?
    requires if w.write.base.Some? then CurrentInstance(s, w.write.target.value, w.write.base.value.version)
             else w.write.target.value !in s.instances
    ensures StepDeployer(s, w, ch).0 ==
      if DeployerSilent(w, ch) then s else CreateInstance(s, w.write.target.value, w.write.instance)
  {
  }
}
