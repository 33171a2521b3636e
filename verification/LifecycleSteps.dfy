// Every step keeps the invariant.
module LifecycleSteps {
  import opened Common
  import opened References
  import opened Lifecycle
  import opened LifecycleInvariant

  lemma ReliesReflexive(s: Store)
    ensures DeployerRelies(s, s) && TenderRelies(s, s)
  {
  }

  // ---- Writes to the store ----

  lemma PutDeploymentStore(s: Store, d: ObjectReference, v: Deployment)
    requires StoreInv(s)
    requires v.deleting || v.instanceRef.Some? ==> v.finalizer
    requires Held(s, d) ==> v.finalizer && (s.deployments[d].deleting ==> v.deleting)
    requires RefOk(s, d, v.instanceRef)
    requires d !in s.deployments ==> v.instanceRef == None
    ensures StoreInv(PutDeployment(s, d, v))
  {
  }

  lemma PutDeploymentRelies(s: Store, d: ObjectReference, v: Deployment)
    ensures TenderRelies(s, PutDeployment(s, d, v))
    ensures (Held(s, d) ==> v.finalizer && (s.deployments[d].deleting ==> v.deleting))
            && (v.instanceRef.Some? ==> d in s.deployments && s.deployments[d].instanceRef == v.instanceRef)
            ==> DeployerRelies(s, PutDeployment(s, d, v))
  {
  }

  lemma DropDeploymentStore(s: Store, d: ObjectReference)
    requires StoreInv(s) && Unowned(s, d)
    ensures StoreInv(DropDeployment(s, d))
  {
  }

  lemma DropDeploymentRelies(s: Store, d: ObjectReference)
    ensures TenderRelies(s, DropDeployment(s, d))
    ensures !Held(s, d) ==> DeployerRelies(s, DropDeployment(s, d))
  {
  }

  // The references in the status of deployments survive every write that keeps the owners of Instances.
  lemma RefsKept(a: Store, b: Store)
    requires DeploymentsOk(a)
    requires a.deployments == b.deployments && a.clock <= b.clock && a.removed <= b.removed
    requires forall n :: n in a.used ==> n in b.used && b.used[n] == a.used[n]
    requires forall n :: n in a.instances ==> n in b.instances && Owner(a, n) == Owner(b, n)
    requires forall n :: n in b.instances && n !in a.instances ==> AtMostRef(a, Owner(b, n), Some(n))
    ensures DeploymentsOk(b)
  {
  }

  lemma PutInstanceInstances(s: Store, n: ObjectReference, v: Instance)
    requires InstancesOk(s) && OneInstanceEach(s) && DistinctIds(s)
    requires n in s.instances && SameIdentity(s.instances[n], v)
    requires v.deleting ==> v.finalizer && (n in s.removed || s.deployments[Owner(s, n)].deleting)
    ensures var b := PutInstance(s, n, v); InstancesOk(b) && OneInstanceEach(b) && DistinctIds(b)
  {
  }

  lemma PutInstanceStore(s: Store, n: ObjectReference, v: Instance)
    requires StoreInv(s) && n in s.instances && SameIdentity(s.instances[n], v)
    requires s.instances[n].deleting ==> v.deleting
    requires v.deleting ==> v.finalizer && (n in s.removed || s.deployments[Owner(s, n)].deleting)
    ensures StoreInv(PutInstance(s, n, v))
  {
    RefsKept(s, PutInstance(s, n, v));
    PutInstanceInstances(s, n, v);
  }

  lemma PutInstanceRelies(s: Store, n: ObjectReference, v: Instance)
    requires n in s.instances && SameIdentity(s.instances[n], v)
    requires s.instances[n].deleting ==> v.deleting && v.finalizer
    ensures TenderRelies(s, PutInstance(s, n, v))
    ensures v.deleting == s.instances[n].deleting || n in s.removed ==> DeployerRelies(s, PutInstance(s, n, v))
  {
  }

  // The name is new, or it has been given to an Instance of the same deployment that was deleted directly.
  ghost predicate CanCarry(s: Store, n: ObjectReference, v: Instance) {
    n in s.used ==> s.used[n] == ObjectReference(v.owner, n.namespace) && n in s.removed
  }

  lemma CreateInstanceInstances(s: Store, n: ObjectReference, v: Instance)
    requires InstancesOk(s) && OneInstanceEach(s) && DistinctIds(s)
    requires n !in s.instances && CanCarry(s, n, v)
    requires var d := ObjectReference(v.owner, n.namespace); Held(s, d) && Unowned(s, d)
    requires !v.deleting && v.id != "" && v.config.name != "" && v.config in s.configs
    requires forall m :: m in s.instances && m.namespace == n.namespace ==> s.instances[m].id != v.id
    ensures var b := CreateInstance(s, n, v); InstancesOk(b) && OneInstanceEach(b) && DistinctIds(b)
  {
  }

  lemma CreateInstanceStore(s: Store, n: ObjectReference, v: Instance)
    requires StoreInv(s) && n !in s.instances && CanCarry(s, n, v)
    requires var d := ObjectReference(v.owner, n.namespace); Held(s, d) && Unowned(s, d) && AtMostRef(s, d, Some(n))
    requires !v.deleting && v.id != "" && v.config.name != "" && v.config in s.configs
    requires forall m :: m in s.instances && m.namespace == n.namespace ==> s.instances[m].id != v.id
    ensures StoreInv(CreateInstance(s, n, v))
  {
    RefsKept(s, CreateInstance(s, n, v));
    CreateInstanceInstances(s, n, v);
  }

  lemma CreateInstanceRelies(s: Store, n: ObjectReference, v: Instance)
    requires n !in s.instances && CanCarry(s, n, v)
    ensures TenderRelies(s, CreateInstance(s, n, v))
  {
  }

  lemma DropInstanceStore(s: Store, n: ObjectReference)
    requires StoreInv(s) && n in s.instances && (n in s.removed || s.deployments[Owner(s, n)].deleting)
    ensures StoreInv(DropInstance(s, n))
  {
  }

  lemma DropInstanceRelies(s: Store, n: ObjectReference)
    requires n in s.instances
    ensures !s.instances[n].deleting ==> TenderRelies(s, DropInstance(s, n))
    ensures s.instances[n].deleting || n in s.removed ==> DeployerRelies(s, DropInstance(s, n))
  {
  }

  lemma PutConfigStore(s: Store, c: ObjectReference, refs: seq<ObjectReference>)
    requires StoreInv(s) && c.name != "" && NoDuplicates(refs)
    requires forall n :: n in refs ==>
      n in s.used && (n in s.instances ==> s.instances[n].config == c || n in s.removed)
    requires c in s.configs ==> forall n :: n in s.configs[c].instanceRefs && n !in refs ==>
      n in s.instances && s.instances[n].deleting
    ensures StoreInv(PutConfig(s, c, refs))
  {
  }

  lemma PutConfigRelies(s: Store, c: ObjectReference, refs: seq<ObjectReference>)
    requires forall n :: n in refs && n in s.instances && s.instances[n].deleting ==> Listed(s, n) || n in s.removed
    ensures TenderRelies(s, PutConfig(s, c, refs)) && DeployerRelies(s, PutConfig(s, c, refs))
  {
  }

  lemma RegisterKeeps(s: Store, n: ObjectReference)
    requires StoreInv(s) && n in s.used && (n in s.instances ==> Listed(s, n))
    ensures StoreInv(Register(s, n))
  {
    RefsKept(s, Register(s, n));
  }

  lemma RegisterRelies(a: Store, b: Store, n: ObjectReference)
    requires TenderRelies(a, b)
    ensures TenderRelies(a, Register(b, n))
  {
  }

  // ---- Steps of the deployment controller ----

  // What one API call of the deployment controller guarantees.
  ghost predicate DeployerKeeps(a: Store, b: Store, w: DeploymentWorker) {
    StoreInv(b) && TenderRelies(a, b) && DeployerInv(b, w)
  }

  lemma StatusFacts(s: Store, d: ObjectReference, copy: Deployment)
    requires StoreInv(s) && CopyOk(s, d, copy) && d in s.deployments
    ensures var v := s.deployments[d].(instanceRef := copy.instanceRef);
            && (v.deleting || v.instanceRef.Some? ==> v.finalizer)
            && RefOk(s, d, v.instanceRef)
  {
  }

  // What the write of the status does to the copy of the controller.
  lemma StatusCopy(s: Store, d: ObjectReference, copy: Deployment)
    requires CopyOk(s, d, copy) && CurrentDeployment(s, d, copy.version)
    ensures var b := PutDeployment(s, d, s.deployments[d].(instanceRef := copy.instanceRef));
            && CopyOk(b, d, copy) && CopyOk(b, d, copy.(version := s.clock))
            && (SomePass(s, d, copy) ==> SomePass(b, d, copy) && SomePass(b, d, copy.(version := s.clock)))
            && AtMostRef(b, d, copy.instanceRef)
  {
  }

  lemma StatusKeeps(s: Store, d: ObjectReference, copy: Deployment, o: Outcome)
    requires StoreInv(s) && CopyOk(s, d, copy)
    ensures var (b, ok) := UpdateStatus(s, d, copy, o);
            var after := copy.(version := if ok then s.clock else copy.version);
            && StoreInv(b) && TenderRelies(s, b) && CopyOk(b, d, after)
            && (SomePass(s, d, copy) ==> SomePass(b, d, after))
            && b.instances == s.instances && b.configs == s.configs && b.used == s.used && s.clock <= b.clock
            && (AtMostRef(s, d, copy.instanceRef) ==> AtMostRef(b, d, copy.instanceRef))
  {
    hide StoreInv, TenderRelies, DeployerRelies, CopyOk, SomePass, AtMostRef, RefOk;
    ReliesReflexive(s);
    if !o.Failed? && CurrentDeployment(s, d, copy.version) {
      var v := s.deployments[d].(instanceRef := copy.instanceRef);
      StatusFacts(s, d, copy);
      StatusCopy(s, d, copy);
      PutDeploymentStore(s, d, v);
      PutDeploymentRelies(s, d, v);
    }
  }

  lemma FetchedKeeps(s: Store, d: ObjectReference, copy: Deployment, ch: Choice)
    requires StoreInv(s) && DeployerInv(s, Fetched(d, copy))
    ensures var (b, w) := StepFetched(s, d, copy, ch); DeployerKeeps(s, b, w)
  {
    if ch.write {
      StatusKeeps(s, d, copy, ch.outcome);
    } else if !copy.deleting && !copy.finalizer && CurrentDeployment(s, d, copy.version) {
      var v := s.deployments[d].(finalizer := true);
      PutDeploymentStore(s, d, v);
      PutDeploymentRelies(s, d, v);
    }
  }

  lemma ListingOwnedKeeps(s: Store, d: ObjectReference, copy: Deployment, ch: Choice)
    requires InstancesOk(s) && DeployerInv(s, ListingOwned(d, copy))
    ensures var (b, w) := StepListingOwned(s, d, copy, ch); b == s && DeployerInv(b, w)
  {
  }

  lemma SavingFoundRefKeeps(s: Store, d: ObjectReference, copy: Deployment, ch: Choice)
    requires StoreInv(s) && DeployerInv(s, SavingFoundRef(d, copy))
    ensures var (b, w) := StepSavingFoundRef(s, d, copy, ch); DeployerKeeps(s, b, w)
  {
    ReliesReflexive(s);
    hide StoreInv, DeployerRelies, TenderRelies;
    StatusKeeps(s, d, copy, ch.outcome);
  }

  lemma LoadingKeeps(s: Store, d: ObjectReference, copy: Deployment, n: ObjectReference, ch: Choice)
    requires InstancesOk(s) && DeployerInv(s, Loading(d, copy, n))
    ensures var (b, w) := StepLoading(s, d, copy, n, ch); b == s && DeployerInv(b, w)
  {
  }

  lemma ChoosingKeeps(s: Store, d: ObjectReference, copy: Deployment, write: Write, ch: Choice)
    requires ConfigsOk(s) && DeployerInv(s, Choosing(d, copy, write))
    ensures var (b, w) := StepChoosing(s, d, copy, write, ch); b == s && DeployerInv(b, w)
  {
  }

  lemma DrawingKeeps(s: Store, d: ObjectReference, copy: Deployment, write: Write, ch: Choice)
    requires DeployerInv(s, Drawing(d, copy, write))
    ensures var (b, w) := StepDrawing(s, d, copy, write, ch); b == s && DeployerInv(b, w)
  {
  }

  lemma CreatedIsMine(s: Store, d: ObjectReference, copy: Deployment, n: ObjectReference, v: Instance)
    requires NormalPass(s, d, copy) && n !in s.instances && (copy.instanceRef == None || copy.instanceRef == Some(n))
    requires Unowned(s, d) && d == ObjectReference(v.owner, n.namespace) && !v.deleting
    ensures var b := CreateInstance(s, n, v); Mine(b, d, copy.(instanceRef := Some(n)), n) && CopyOk(b, d, copy)
  {
  }

  lemma RewrittenIsMine(s: Store, d: ObjectReference, copy: Deployment, n: ObjectReference, v: Instance)
    requires Mine(s, d, copy, n) && n in s.instances && s.instances[n] == v && s.used[n] == Owner(s, n)
    ensures var b := CreateInstance(s, n, v); Mine(b, d, copy, n) && CopyOk(b, d, copy)
  {
  }

  lemma WritingNewFacts(s: Store, d: ObjectReference, copy: Deployment, write: Write, n: ObjectReference)
    requires StoreInv(s) && DeployerInv(s, Writing(d, copy, write)) && write.base.None?
    requires if write.target.None? then n !in s.used && n.namespace == d.namespace else write.target == Some(n)
    ensures NormalPass(s, d, copy) && n !in s.instances && (copy.instanceRef == None || copy.instanceRef == Some(n))
    ensures Held(s, d) && Unowned(s, d) && AtMostRef(s, d, Some(n))
    ensures var v := write.instance;
            && d == ObjectReference(v.owner, n.namespace) && CanCarry(s, n, v)
            && !v.deleting && v.id != "" && v.config.name != "" && v.config in s.configs
            && forall m :: m in s.instances && m.namespace == n.namespace ==> s.instances[m].id != v.id
  {
    assert n !in s.used ==> n !in s.instances by { assert InstancesOk(s); }
  }

  lemma WritingNewKeeps(s: Store, d: ObjectReference, copy: Deployment, write: Write, n: ObjectReference)
    requires StoreInv(s) && DeployerInv(s, Writing(d, copy, write)) && write.base.None?
    requires if write.target.None? then n !in s.used && n.namespace == d.namespace else write.target == Some(n)
    ensures var b := CreateInstance(s, n, write.instance);
            StoreInv(b) && TenderRelies(s, b) && Mine(b, d, copy.(instanceRef := Some(n)), n) && CopyOk(b, d, copy)
  {
    hide StoreInv, DeployerInv, TenderRelies, DeployerRelies, Mine, CopyOk, NormalPass;
    WritingNewFacts(s, d, copy, write, n);
    CreatedIsMine(s, d, copy, n, write.instance);
    CreateInstanceStore(s, n, write.instance);
    CreateInstanceRelies(s, n, write.instance);
  }

  lemma WritingOldFacts(s: Store, d: ObjectReference, copy: Deployment, write: Write, n: ObjectReference)
    requires StoreInv(s) && DeployerInv(s, Writing(d, copy, write)) && write.target == Some(n) && write.base.Some?
    requires CurrentInstance(s, n, write.instance.version)
    ensures InstanceOk(s, n) && s.instances[n] == write.instance && Mine(s, d, copy, n)
  {
    assert InstanceOk(s, n);
  }

  lemma WritingOldKeeps(s: Store, d: ObjectReference, copy: Deployment, write: Write, n: ObjectReference)
    requires StoreInv(s) && DeployerInv(s, Writing(d, copy, write)) && write.target == Some(n) && write.base.Some?
    requires CurrentInstance(s, n, write.instance.version)
    ensures var b := CreateInstance(s, n, write.instance);
      StoreInv(b) && TenderRelies(s, b) && Mine(b, d, copy, n) && CopyOk(b, d, copy)
  {
    hide StoreInv, DeployerInv, TenderRelies, DeployerRelies, Mine, CopyOk;
    WritingOldFacts(s, d, copy, write, n);
    RewrittenIsMine(s, d, copy, n, write.instance);
    PutInstanceStore(s, n, write.instance);
    PutInstanceRelies(s, n, write.instance);
    assert s.used[n := s.used[n]] == s.used;
    assert CreateInstance(s, n, write.instance) == PutInstance(s, n, write.instance);
  }

  lemma WritingFacts(s: Store, d: ObjectReference, copy: Deployment, write: Write)
    requires DeployerInv(s, Writing(d, copy, write))
    ensures CopyOk(s, d, copy) && copy.instanceRef == write.target
    ensures write.base.Some? ==> write.base == Some(write.instance) && write.target.Some?
    ensures write.target.Some? ==> Mine(s, d, copy, write.target.value)
  {
  }

  lemma WritingKeeps(s: Store, d: ObjectReference, copy: Deployment, write: Write, ch: Choice)
    requires StoreInv(s) && DeployerInv(s, Writing(d, copy, write))
    ensures var (b, w) := StepWriting(s, d, copy, write, ch); DeployerKeeps(s, b, w)
  {
    hide StoreInv, TenderRelies, Mine, CopyOk, NormalPass, WriteOk;
    var n := if write.target.Some? then write.target.value else ObjectReference(ch.name.name, d.namespace);
    WritingFacts(s, d, copy, write);
    ReliesReflexive(s);
    if write.base.None? && (write.target.None? ==> n !in s.used) {
      WritingNewKeeps(s, d, copy, write, n);
    } else if write.base.Some? && CurrentInstance(s, n, write.instance.version) {
      WritingOldKeeps(s, d, copy, write, n);
    }
  }

  lemma RefetchingKeeps(s: Store, d: ObjectReference, copy: Deployment, n: ObjectReference, ch: Choice)
    requires DeployerInv(s, Refetching(d, copy, n))
    ensures var (b, w) := StepRefetching(s, d, copy, n, ch); b == s && DeployerInv(b, w)
  {
  }

  lemma SavingStatusKeeps(s: Store, d: ObjectReference, copy: Deployment, n: ObjectReference, c: ObjectReference,
      ch: Choice)
    requires StoreInv(s) && DeployerInv(s, SavingStatus(d, copy, n, c))
    ensures var (b, w) := StepSavingStatus(s, d, copy, n, c, ch); DeployerKeeps(s, b, w)
  {
    ReliesReflexive(s);
    hide StoreInv, DeployerRelies, TenderRelies;
    StatusKeeps(s, d, copy, ch.outcome);
  }

  lemma LoadingConfigKeeps(s: Store, d: ObjectReference, copy: Deployment, n: ObjectReference, c: ObjectReference,
      ch: Choice)
    requires StoreInv(s) && DeployerInv(s, LoadingConfig(d, copy, n, c))
    ensures var (b, w) := StepLoadingConfig(s, d, copy, n, c, ch); DeployerKeeps(s, b, w)
  {
    assert ConfigsOk(s);
    ReliesReflexive(s);
    hide StoreInv, DeployerRelies, TenderRelies;
    if c in s.configs && n in s.configs[c].instanceRefs {
      RegisterKeeps(s, n);
      RegisterRelies(s, s, n);
    }
  }

  lemma RegisterCopy(s: Store, n: ObjectReference, d: ObjectReference, copy: Deployment)
    requires CopyOk(s, d, copy)
    ensures CopyOk(Register(s, n), d, copy)
  {
  }

  lemma SavingConfigFacts(s: Store, d: ObjectReference, copy: Deployment, n: ObjectReference, c: ObjectReference,
      config: Config)
    requires StoreInv(s) && DeployerInv(s, SavingConfig(d, copy, n, c, config))
    ensures CopyOk(s, d, copy) && InstancesOk(s) && OneInstanceEach(s) && ConfigsOk(s)
    ensures n in s.used && TargetIs(s, n, c) && (n in s.instances ==> !s.instances[n].deleting || n in s.removed)
    ensures CurrentConfig(s, c, config.version) ==> s.configs[c] == config
    ensures n !in config.instanceRefs
  {
  }

  lemma SavingConfigKeeps(s: Store, d: ObjectReference, copy: Deployment, n: ObjectReference, c: ObjectReference,
                          config: Config, ch: Choice)
    requires StoreInv(s) && DeployerInv(s, SavingConfig(d, copy, n, c, config))
    ensures var (b, w) := StepSavingConfig(s, d, copy, n, c, config, ch); DeployerKeeps(s, b, w)
  {
    hide StoreInv, TenderRelies, DeployerRelies, OneInstanceEach, CopyOk, NormalPass, InstancesOk, Mine;
    var refs := config.instanceRefs + [n];
    var b := PutConfig(s, c, refs);
    SavingConfigFacts(s, d, copy, n, c, config);
    ReliesReflexive(s);
    if CurrentConfig(s, c, config.version) {
      PutConfigRelies(s, c, refs);
      CopyUndisturbed(s, b, d, copy);
      PutConfigStore(s, c, refs);
      RegisterKeeps(b, n);
      RegisterRelies(s, b, n);
      RegisterCopy(b, n, d, copy);
    }
  }

  lemma CheckingInstanceKeeps(s: Store, d: ObjectReference, copy: Deployment, n: ObjectReference, ch: Choice)
    requires DeployerInv(s, CheckingInstance(d, copy, n))
    ensures var (b, w) := StepCheckingInstance(s, d, copy, n, ch); b == s && DeployerInv(b, w)
  {
  }

  lemma DeletedKeepsCopy(s: Store, d: ObjectReference, copy: Deployment, n: ObjectReference)
    requires OneInstanceEach(s) && DeletePass(s, d, copy) && copy.instanceRef == Some(n)
    requires n in s.instances ==> Owner(s, n) == d
    ensures CopyOk(DeleteInstance(s, n), d, copy)
  {
  }

  lemma DeletingFacts(s: Store, d: ObjectReference, copy: Deployment, n: ObjectReference)
    requires StoreInv(s) && DeployerInv(s, DeletingInstance(d, copy, n))
    ensures OneInstanceEach(s) && DeletePass(s, d, copy) && CopyOk(s, d, copy) && copy.instanceRef == Some(n)
    ensures n in s.instances ==> InstanceOk(s, n) && Owner(s, n) == d && s.deployments[d].deleting
  {
    assert n in s.instances ==> InstanceOk(s, n);
  }

  lemma DeletingInstanceKeeps(s: Store, d: ObjectReference, copy: Deployment, n: ObjectReference, ch: Choice)
    requires StoreInv(s) && DeployerInv(s, DeletingInstance(d, copy, n))
    ensures var (b, w) := StepDeletingInstance(s, d, copy, n, ch); DeployerKeeps(s, b, w)
  {
    hide StoreInv, DeployerRelies, TenderRelies, CopyOk, DeletePass, OneInstanceEach;
    DeletingFacts(s, d, copy, n);
    DeletedKeepsCopy(s, d, copy, n);
    ReliesReflexive(s);
    if n in s.instances {
      if s.instances[n].finalizer {
        var v := s.instances[n].(deleting := true);
        PutInstanceStore(s, n, v);
        PutInstanceRelies(s, n, v);
      } else {
        DropInstanceStore(s, n);
        DropInstanceRelies(s, n);
      }
    }
  }

  lemma ClearingRefKeeps(s: Store, d: ObjectReference, copy: Deployment, ch: Choice)
    requires StoreInv(s) && DeployerInv(s, ClearingRef(d, copy))
    ensures var (b, w) := StepClearingRef(s, d, copy, ch); DeployerKeeps(s, b, w)
  {
    ReliesReflexive(s);
    hide StoreInv, DeployerRelies, TenderRelies;
    StatusKeeps(s, d, copy, ch.outcome);
  }

  lemma DroppingFinalizerKeeps(s: Store, d: ObjectReference, copy: Deployment, ch: Choice)
    requires StoreInv(s) && DeployerInv(s, DroppingFinalizer(d, copy))
    ensures var (b, w) := StepDroppingFinalizer(s, d, copy, ch); DeployerKeeps(s, b, w)
  {
    ReliesReflexive(s);
    hide StoreInv, DeployerRelies, TenderRelies;
    DropDeploymentStore(s, d);
    DropDeploymentRelies(s, d);
  }

  lemma FinishingKeeps(s: Store, d: ObjectReference, copy: Deployment, ch: Choice)
    requires StoreInv(s) && DeployerInv(s, Finishing(d, copy))
    ensures var (b, w) := StepFinishing(s, d, copy, ch); DeployerKeeps(s, b, w)
  {
    ReliesReflexive(s);
    hide StoreInv, DeployerRelies, TenderRelies;
    StatusKeeps(s, d, copy, ch.outcome);
  }

  // ---- Steps of the instance controller ----

  ghost predicate TenderKeeps(a: Store, b: Store, w: InstanceWorker) {
    StoreInv(b) && DeployerRelies(a, b) && TenderInv(b, w)
  }

  // What the write of the status of an Instance does to the copy of the controller.
  lemma InstanceStatusCopy(s: Store, n: ObjectReference, local: Instance)
    requires LocalOk(s, n, local) && CurrentInstance(s, n, local.version)
    ensures var b := PutInstance(s, n, s.instances[n]);
            && LocalOk(b, n, local) && LocalOk(b, n, local.(version := s.clock))
            && (Marked(s, n, local) ==> Marked(b, n, local) && Marked(b, n, local.(version := s.clock)))
  {
  }

  lemma InstanceStatusKeeps(s: Store, n: ObjectReference, local: Instance, o: Outcome)
    requires StoreInv(s) && LocalOk(s, n, local)
    ensures var (b, ok) := UpdateInstanceStatus(s, n, local, o);
            var after := local.(version := if ok then s.clock else local.version);
            && StoreInv(b) && DeployerRelies(s, b) && LocalOk(b, n, after)
            && (Marked(s, n, local) ==> Marked(b, n, after))
  {
    hide StoreInv, TenderRelies, DeployerRelies, LocalOk, Marked;
    ReliesReflexive(s);
    if !o.Failed? && CurrentInstance(s, n, local.version) {
      ReadFacts(s, n);
      InstanceStatusCopy(s, n, local);
      PutInstanceStore(s, n, s.instances[n]);
      PutInstanceRelies(s, n, s.instances[n]);
    }
  }

  lemma ReadKeeps(s: Store, n: ObjectReference, local: Instance, ch: Choice)
    requires StoreInv(s) && TenderInv(s, Read(n, local))
    ensures var (b, w) := StepRead(s, n, local, ch); TenderKeeps(s, b, w)
  {
    hide StoreInv, DeployerRelies, TenderRelies, LocalOk, Marked;
    ReliesReflexive(s);
    if ch.write {
      InstanceStatusKeeps(s, n, local, ch.outcome);
    } else if !local.deleting && !local.finalizer && CurrentInstance(s, n, local.version) {
      var v := s.instances[n].(finalizer := true);
      ReadFacts(s, n);
      PutInstanceStore(s, n, v);
      PutInstanceRelies(s, n, v);
    }
  }

  lemma ReadFacts(s: Store, n: ObjectReference)
    requires StoreInv(s) && n in s.instances
    ensures InstanceOk(s, n)
  {
  }

  lemma TearingKeeps(s: Store, n: ObjectReference, local: Instance, ch: Choice)
    requires StoreInv(s) && TenderInv(s, Tearing(n, local))
    ensures var (b, w) := StepTearing(s, n, local, ch); TenderKeeps(s, b, w)
  {
    assert ConfigsOk(s);
    ReliesReflexive(s);
    hide StoreInv, DeployerRelies, TenderRelies;
    InstanceStatusKeeps(s, n, local, ch.outcome);
  }

  lemma UnlistingFacts(s: Store, n: ObjectReference, local: Instance, config: Config)
    requires StoreInv(s) && TenderInv(s, Unlisting(n, local, config)) && CurrentConfig(s, local.config, config.version)
    ensures s.configs[local.config] == config && local.config.name != "" && NoDuplicates(config.instanceRefs)
    ensures forall m :: m in config.instanceRefs ==>
      m in s.used && (m in s.instances ==> s.instances[m].config == local.config || m in s.removed)
    ensures Marked(s, n, local) && s.instances[n].config == local.config
  {
  }

  lemma UnlistedStaysMarked(s: Store, n: ObjectReference, local: Instance, refs: seq<ObjectReference>)
    requires Marked(s, n, local) && n !in refs
    ensures var b := PutConfig(s, local.config, refs); Marked(b, n, local) && !Listed(b, n) && LocalOk(b, n, local)
  {
  }

  lemma UnlistingKeeps(s: Store, n: ObjectReference, local: Instance, config: Config, ch: Choice)
    requires StoreInv(s) && TenderInv(s, Unlisting(n, local, config))
    ensures var (b, w) := StepUnlisting(s, n, local, config, ch); TenderKeeps(s, b, w)
  {
    hide StoreInv, DeployerRelies, TenderRelies, DeploymentsOk;
    ReliesReflexive(s);
    if CurrentConfig(s, local.config, config.version) {
      var refs := Removed(config.instanceRefs, n);
      UnlistingFacts(s, n, local, config);
      RemovedOfDistinct(config.instanceRefs, n);
      PutConfigStore(s, local.config, refs);
      PutConfigRelies(s, local.config, refs);
      UnlistedStaysMarked(s, n, local, refs);
    }
  }

  lemma ReleasingKeeps(s: Store, n: ObjectReference, local: Instance, ch: Choice)
    requires StoreInv(s) && TenderInv(s, Releasing(n, local))
    ensures var (b, w) := StepReleasing(s, n, local, ch); TenderKeeps(s, b, w)
  {
    assert InstancesOk(s);
    ReliesReflexive(s);
    hide StoreInv, DeployerRelies, TenderRelies;
    DropInstanceStore(s, n);
    DropInstanceRelies(s, n);
  }

  lemma EndingKeeps(s: Store, n: ObjectReference, local: Instance, ch: Choice)
    requires StoreInv(s) && TenderInv(s, Ending(n, local))
    ensures var (b, w) := StepEnding(s, n, local, ch); TenderKeeps(s, b, w)
  {
    ReliesReflexive(s);
    hide StoreInv, DeployerRelies, TenderRelies;
    InstanceStatusKeeps(s, n, local, ch.outcome);
  }

  // ---- The environment ----

  lemma MoreRemoved(s: Store, n: ObjectReference)
    requires StoreInv(s)
    ensures StoreInv(s.(removed := s.removed + {n}))
  {
    RefsKept(s, s.(removed := s.removed + {n}));
  }

  lemma MoreRemovedRelies(s: Store, b: Store, n: ObjectReference)
    ensures var r := s.(removed := s.removed + {n});
            && (DeployerRelies(r, b) ==> DeployerRelies(s, b)) && (TenderRelies(r, b) ==> TenderRelies(s, b))
  {
  }

  lemma RemoveInstanceKeeps(s: Store, n: ObjectReference)
    requires StoreInv(s) && n in s.instances
    ensures var b := DeleteInstance(s, n).(removed := s.removed + {n});
            StoreInv(b) && DeployerRelies(s, b) && TenderRelies(s, b)
  {
    hide StoreInv, DeployerRelies, TenderRelies;
    var r := s.(removed := s.removed + {n});
    MoreRemoved(s, n);
    ReadFacts(r, n);
    if s.instances[n].finalizer {
      var v := s.instances[n].(deleting := true);
      PutInstanceStore(r, n, v);
      PutInstanceRelies(r, n, v);
    } else {
      DropInstanceStore(r, n);
      DropInstanceRelies(r, n);
    }
    MoreRemovedRelies(s, DeleteInstance(r, n), n);
  }

  lemma EnvironmentKeeps(s: Store, e: Event)
    requires StoreInv(s)
    ensures var b := StepEnvironment(s, e); StoreInv(b) && DeployerRelies(s, b) && TenderRelies(s, b)
  {
    assert DeploymentsOk(s) && InstancesOk(s) && ConfigsOk(s);
    ReliesReflexive(s);
    hide StoreInv, DeployerRelies, TenderRelies, OneInstanceEach, DistinctIds, RegisteredOk;
    match e
    case UserCreates(d) =>
      if d !in s.deployments {
        PutDeploymentStore(s, d, Deployment(0, false, false, None));
        PutDeploymentRelies(s, d, Deployment(0, false, false, None));
      }
    case UserDeletes(d) =>
      if d in s.deployments && s.deployments[d].finalizer {
        var v := s.deployments[d].(deleting := true);
        PutDeploymentStore(s, d, v);
        PutDeploymentRelies(s, d, v);
      } else if d in s.deployments {
        DropDeploymentStore(s, d);
        DropDeploymentRelies(s, d);
      }
    case RemoveInstance(n) =>
      if n in s.instances {
        RemoveInstanceKeeps(s, n);
      }
    case TouchDeployment(d) =>
      if d in s.deployments {
        PutDeploymentStore(s, d, s.deployments[d]);
        PutDeploymentRelies(s, d, s.deployments[d]);
      }
    case TouchInstance(n) =>
      if n in s.instances {
        PutInstanceStore(s, n, s.instances[n]);
        PutInstanceRelies(s, n, s.instances[n]);
      }
    case TouchConfig(c) =>
      if c in s.configs {
        PutConfigStore(s, c, s.configs[c].instanceRefs);
        PutConfigRelies(s, c, s.configs[c].instanceRefs);
      }
    case AddConfig(c) =>
      if c !in s.configs && c.name != "" {
        PutConfigStore(s, c, []);
        PutConfigRelies(s, c, []);
      }
    case _ =>
  }
}
