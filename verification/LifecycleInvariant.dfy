// The inductive invariant of the protocol.
module LifecycleInvariant {
  import opened Common
  import opened Lifecycle

  ghost predicate Unowned(s: Store, d: ObjectReference) {
    forall m :: m in s.instances ==> Owner(s, m) != d
  }

  // A status reference names the Instance of the deployment, or one that is gone: because the deployment is
  // being deleted, or because somebody has deleted the Instance directly.
  ghost predicate RefOk(s: Store, d: ObjectReference, ref: Option<ObjectReference>) {
    ref.Some? ==>
      && ref.value in s.used && s.used[ref.value] == d && ref.value.namespace == d.namespace
      && (ref.value !in s.instances ==>
            Unowned(s, d) && (ref.value in s.removed || (d in s.deployments && s.deployments[d].deleting)))
  }

  // The status holds no other reference than `ref`.
  ghost predicate AtMostRef(s: Store, d: ObjectReference, ref: Option<ObjectReference>) {
    d in s.deployments && s.deployments[d].instanceRef.Some? ==> s.deployments[d].instanceRef == ref
  }

  ghost predicate Held(s: Store, d: ObjectReference) {
    d in s.deployments && s.deployments[d].finalizer
  }

  // ---- The store ----

  ghost predicate DeploymentsOk(s: Store) {
    forall d :: d in s.deployments ==>
      && s.deployments[d].version < s.clock
      && (s.deployments[d].deleting ==> s.deployments[d].finalizer)
      && (s.deployments[d].instanceRef.Some? ==> s.deployments[d].finalizer)
      && RefOk(s, d, s.deployments[d].instanceRef)
  }

  ghost predicate InstanceOk(s: Store, n: ObjectReference)
    requires n in s.instances
  {
    var i := s.instances[n];
    && n in s.used && s.used[n] == Owner(s, n)
    && i.version < s.clock
    && i.id != "" && i.config.name != "" && i.config in s.configs
    && Held(s, Owner(s, n))
    && (i.deleting ==> i.finalizer && (n in s.removed || s.deployments[Owner(s, n)].deleting))
  }

  ghost predicate InstancesOk(s: Store) {
    forall n :: n in s.instances ==> InstanceOk(s, n)
  }

  ghost predicate OneInstanceEach(s: Store) {
    forall m, n :: m in s.instances && n in s.instances && Owner(s, m) == Owner(s, n) ==> m == n
  }

  ghost predicate DistinctIds(s: Store) {
    forall m, n :: m in s.instances && n in s.instances && m.namespace == n.namespace ==>
      s.instances[m].id == s.instances[n].id ==> m == n
  }

  ghost predicate ListOk(s: Store, c: ObjectReference)
    requires c in s.configs
  {
    && s.configs[c].version < s.clock
    && NoDuplicates(s.configs[c].instanceRefs)
    && forall n :: n in s.configs[c].instanceRefs ==>
         n in s.used && (n in s.instances ==> s.instances[n].config == c || n in s.removed)
  }

  ghost predicate ConfigsOk(s: Store) {
    forall c :: c in s.configs ==> c.name != "" && ListOk(s, c)
  }

  ghost predicate Listed(s: Store, n: ObjectReference)
    requires n in s.instances
  {
    s.instances[n].config in s.configs && n in s.configs[s.instances[n].config].instanceRefs
  }

  ghost predicate RegisteredOk(s: Store) {
    forall n :: n in s.registered ==>
      n in s.used && (n in s.instances && !s.instances[n].deleting ==> Listed(s, n) || n in s.removed)
  }

  ghost predicate StoreInv(s: Store) {
    && DeploymentsOk(s)
    && InstancesOk(s)
    && OneInstanceEach(s)
    && DistinctIds(s)
    && ConfigsOk(s)
    && RegisteredOk(s)
  }

  // ---- The deployment controller ----

  ghost predicate CopyOk(s: Store, d: ObjectReference, copy: Deployment) {
    && copy.version < s.clock
    && (d in s.deployments && s.deployments[d].version == copy.version ==>
          s.deployments[d].deleting == copy.deleting && s.deployments[d].finalizer == copy.finalizer)
    && RefOk(s, d, copy.instanceRef)
    && (copy.instanceRef.Some? ==> Held(s, d))
  }

  // No Instance of the deployment is being deleted, unless directly.
  ghost predicate Alive(s: Store, d: ObjectReference) {
    forall m :: m in s.instances && Owner(s, m) == d ==> !s.instances[m].deleting || m in s.removed
  }

  ghost predicate RefLive(s: Store, ref: Option<ObjectReference>) {
    ref.Some? ==> ref.value in s.instances || ref.value in s.removed
  }

  ghost predicate NormalPass(s: Store, d: ObjectReference, copy: Deployment) {
    && Held(s, d) && CopyOk(s, d, copy) && !copy.deleting
    && Alive(s, d) && RefLive(s, copy.instanceRef) && AtMostRef(s, d, copy.instanceRef)
  }

  ghost predicate DeletePass(s: Store, d: ObjectReference, copy: Deployment) {
    Held(s, d) && CopyOk(s, d, copy) && copy.deleting && s.deployments[d].deleting
  }

  ghost predicate SomePass(s: Store, d: ObjectReference, copy: Deployment) {
    if copy.deleting then DeletePass(s, d, copy) else NormalPass(s, d, copy)
  }

  ghost predicate Mine(s: Store, d: ObjectReference, copy: Deployment, n: ObjectReference) {
    NormalPass(s, d, copy) && copy.instanceRef == Some(n)
  }

  // The Instance may be gone meanwhile, but its target is fixed.
  ghost predicate TargetIs(s: Store, n: ObjectReference, c: ObjectReference) {
    n in s.instances ==> s.instances[n].config == c
  }

  ghost predicate ConfigCopyOk(s: Store, c: ObjectReference, config: Config) {
    && config.version < s.clock
    && (c in s.configs && s.configs[c].version == config.version ==> s.configs[c] == config)
  }

  // An update rewrites what was read; only a create carries new values, under a generated name or under the name
  // of an Instance that is gone.
  ghost predicate WriteOk(s: Store, d: ObjectReference, copy: Deployment, w: Write) {
    && NormalPass(s, d, copy)
    && copy.instanceRef == w.target
    && match w.base
       case None =>
         && Unowned(s, d) && (w.target.Some? ==> w.target.value !in s.instances)
         && !w.instance.deleting && !w.instance.finalizer
       case Some(base) =>
         && w.target.Some? && base == w.instance
         && base.version < s.clock
         && base.owner == d.name && base.id != "" && base.config.name != ""
         && (CurrentInstance(s, w.target.value, base.version) ==> s.instances[w.target.value] == base)
  }

  ghost predicate DeployerInv(s: Store, worker: DeploymentWorker) {
    match worker
    case Idle => true
    case Fetched(d, copy) =>
      && CopyOk(s, d, copy)
      && AtMostRef(s, d, copy.instanceRef)
      && (copy.deleting || copy.finalizer ==> SomePass(s, d, copy))
    case ListingOwned(d, copy) => SomePass(s, d, copy) && copy.instanceRef == None && AtMostRef(s, d, None)
    case SavingFoundRef(d, copy) => SomePass(s, d, copy)
    case Choosing(d, copy, w) => WriteOk(s, d, copy, w) && (w.base == None ==> w.instance == BLANK)
    case Drawing(d, copy, w) =>
      && WriteOk(s, d, copy, w)
      && w.instance.config.name != ""
      && (w.base == None ==> w.instance.config in s.configs && w.instance.id == "")
    case Writing(d, copy, w) =>
      && WriteOk(s, d, copy, w)
      && w.instance.config.name != "" && w.instance.owner == d.name && w.instance.id != ""
      && (w.base == None ==>
            && w.instance.config in s.configs
            && forall m :: m in s.instances && m.namespace == d.namespace ==> s.instances[m].id != w.instance.id)
    case Loading(d, copy, n) => Mine(s, d, copy, n)
    case Refetching(d, copy, n) => Mine(s, d, copy, n)
    case SavingStatus(d, copy, n, c) => Mine(s, d, copy, n) && TargetIs(s, n, c)
    case LoadingConfig(d, copy, n, c) => Mine(s, d, copy, n) && TargetIs(s, n, c)
    case SavingConfig(d, copy, n, c, config) =>
      Mine(s, d, copy, n) && TargetIs(s, n, c) && ConfigCopyOk(s, c, config) && n !in config.instanceRefs
    case CheckingInstance(d, copy, n) => DeletePass(s, d, copy) && copy.instanceRef == Some(n)
    case DeletingInstance(d, copy, n) => DeletePass(s, d, copy) && copy.instanceRef == Some(n)
    case ClearingRef(d, copy) => DeletePass(s, d, copy) && copy.instanceRef == None && Unowned(s, d)
    case DroppingFinalizer(d, copy) => DeletePass(s, d, copy) && copy.instanceRef == None && Unowned(s, d)
    case Finishing(d, copy) => CopyOk(s, d, copy)
  }

  // ---- The instance controller ----

  ghost predicate LocalOk(s: Store, n: ObjectReference, local: Instance) {
    && n in s.used
    && local.version < s.clock
    && (n in s.instances ==>
          && (s.instances[n].config == local.config || n in s.removed)
          && (s.instances[n].version == local.version ==> s.instances[n].deleting == local.deleting))
  }

  ghost predicate Marked(s: Store, n: ObjectReference, local: Instance) {
    && LocalOk(s, n, local)
    && n in s.instances && s.instances[n].deleting && s.instances[n].finalizer && s.instances[n].config == local.config
  }

  ghost predicate TenderInv(s: Store, worker: InstanceWorker) {
    match worker
    case Resting => true
    case Read(n, local) => LocalOk(s, n, local) && (local.deleting ==> Marked(s, n, local))
    case Tearing(n, local) => Marked(s, n, local)
    case Unlisting(n, local, config) => Marked(s, n, local) && ConfigCopyOk(s, local.config, config)
    case Releasing(n, local) => Marked(s, n, local) && (!Listed(s, n) || n in s.removed)
    case Ending(n, local) => LocalOk(s, n, local)
  }

  ghost predicate Inv(s: State) {
    StoreInv(s.store) && DeployerInv(s.store, s.deployer) && TenderInv(s.store, s.tender)
  }

  // ---- What one worker may rely on while the others act ----

  // Every changed object carries a new version; names are not reused, and the identity of an Instance is fixed, unless
  // it has been deleted directly.
  ghost predicate Advances(a: Store, b: Store) {
    && a.clock <= b.clock && a.removed <= b.removed
    && (forall n :: n in a.used ==> n in b.used && b.used[n] == a.used[n])
    && (forall d :: d in b.deployments ==>
      (d in a.deployments && b.deployments[d] == a.deployments[d]) || a.clock <= b.deployments[d].version)
    && (forall c :: c in b.configs ==>
      (c in a.configs && b.configs[c] == a.configs[c]) || a.clock <= b.configs[c].version)
    && (forall c :: c in a.configs ==> c in b.configs)
    && (forall n :: n in b.instances ==>
      (n in a.instances && b.instances[n] == a.instances[n]) || a.clock <= b.instances[n].version)
    && (forall n :: n in b.instances && n !in b.removed ==> n in a.instances || n !in a.used)
    && (forall n :: n in a.instances && n in b.instances && n !in b.removed ==>
      SameIdentity(a.instances[n], b.instances[n]))
  }

  ghost predicate SameIdentity(i: Instance, j: Instance) {
    i.owner == j.owner && i.id == j.id && i.config == j.config
  }

  // The deployment controller alone creates and marks Instances and releases deployments.
  ghost predicate DeployerRelies(a: Store, b: Store) {
    && Advances(a, b)
    && (forall d :: Held(a, d) ==> Held(b, d) && (a.deployments[d].deleting ==> b.deployments[d].deleting))
    && (forall d :: d in b.deployments && b.deployments[d].instanceRef.Some? ==>
          d in a.deployments && a.deployments[d].instanceRef == b.deployments[d].instanceRef)
    && (forall n :: n in b.instances ==>
          && n in a.instances && SameIdentity(a.instances[n], b.instances[n])
          && (b.instances[n].deleting == a.instances[n].deleting || n in b.removed))
    && (forall n :: n in a.instances && !a.instances[n].deleting && n !in b.removed ==> n in b.instances)
  }

  // The instance controller alone releases marked Instances, and nobody lists a marked one again.
  ghost predicate TenderRelies(a: Store, b: Store) {
    && Advances(a, b)
    && (forall n :: n in a.instances && a.instances[n].deleting && a.instances[n].finalizer ==>
          && n in b.instances && b.instances[n].deleting && b.instances[n].finalizer
          && SameIdentity(a.instances[n], b.instances[n])
          && (!Listed(a, n) ==> !Listed(b, n) || n in b.removed))
  }

  // What others have done to the Instances of a deployment.
  lemma OwnedUndisturbed(a: Store, b: Store, d: ObjectReference, n: ObjectReference)
    requires (n in a.instances ==> InstanceOk(a, n)) && OneInstanceEach(a) && DeployerRelies(a, b)
    requires n in a.used && a.used[n] == d && (n !in a.instances ==> Unowned(a, d))
    ensures n in b.used && b.used[n] == d
    ensures n !in b.instances ==> Unowned(b, d)
    ensures n in a.instances && n !in b.instances ==>
      n in b.removed || (d in b.deployments && b.deployments[d].deleting)
  {
  }

  lemma RefUndisturbed(a: Store, b: Store, d: ObjectReference, ref: Option<ObjectReference>)
    requires InstancesOk(a) && OneInstanceEach(a) && DeployerRelies(a, b)
    requires RefOk(a, d, ref) && (ref.Some? ==> Held(a, d))
    ensures RefOk(b, d, ref)
  {
    if ref.Some? {
      OwnedUndisturbed(a, b, d, ref.value);
      hide InstancesOk, OneInstanceEach;
    }
  }

  lemma CopyUndisturbed(a: Store, b: Store, d: ObjectReference, copy: Deployment)
    requires InstancesOk(a) && OneInstanceEach(a) && DeployerRelies(a, b)
    requires CopyOk(a, d, copy)
    ensures CopyOk(b, d, copy)
  {
    RefUndisturbed(a, b, d, copy.instanceRef);
  }

  lemma PassUndisturbed(a: Store, b: Store, d: ObjectReference, copy: Deployment)
    requires InstancesOk(a) && DeployerRelies(a, b) && CopyOk(b, d, copy)
    requires SomePass(a, d, copy)
    ensures SomePass(b, d, copy)
  {
    if copy.instanceRef.Some? && copy.instanceRef.value in a.instances {
      assert InstanceOk(a, copy.instanceRef.value);
    }
  }

  lemma WriteUndisturbed(a: Store, b: Store, d: ObjectReference, copy: Deployment, w: Write)
    requires DeployerRelies(a, b) && SomePass(b, d, copy)
    requires WriteOk(a, d, copy, w)
    ensures WriteOk(b, d, copy, w)
  {
  }

  lemma FactsUndisturbed(a: Store, b: Store)
    requires DeployerRelies(a, b)
    ensures forall d, ref :: AtMostRef(a, d, ref) ==> AtMostRef(b, d, ref)
    ensures forall n, c :: TargetIs(a, n, c) ==> TargetIs(b, n, c)
    ensures forall d :: Unowned(a, d) ==> Unowned(b, d)
    ensures forall c, config :: ConfigCopyOk(a, c, config) ==> ConfigCopyOk(b, c, config)
    ensures forall c :: c in a.configs ==> c in b.configs
    ensures forall m :: m in b.instances ==> m in a.instances && b.instances[m].id == a.instances[m].id
  {
  }

  lemma DeployerUndisturbed(a: Store, b: Store, w: DeploymentWorker)
    requires InstancesOk(a) && OneInstanceEach(a) && DeployerRelies(a, b)
    requires DeployerInv(a, w)
    ensures DeployerInv(b, w)
  {
    hide CopyOk, NormalPass, DeletePass, WriteOk, DeployerRelies, OneInstanceEach, InstancesOk, AtMostRef, TargetIs,
      Unowned, ConfigCopyOk;
    FactsUndisturbed(a, b);
    if !w.Idle? {
      PassParts(a, w.d, w.copy);
      if w.Choosing? || w.Drawing? || w.Writing? {
        WriteParts(a, w.d, w.copy, w.write);
      }
      CopyUndisturbed(a, b, w.d, w.copy);
      if w.Choosing? || w.Drawing? || w.Writing? {
        PassUndisturbed(a, b, w.d, w.copy);
        WriteUndisturbed(a, b, w.d, w.copy, w.write);
      } else if !w.Finishing? && (w.Fetched? ==> w.copy.deleting || w.copy.finalizer) {
        PassUndisturbed(a, b, w.d, w.copy);
      }
    }
  }

  lemma PassParts(s: Store, d: ObjectReference, copy: Deployment)
    ensures NormalPass(s, d, copy) ==> CopyOk(s, d, copy) && !copy.deleting
    ensures DeletePass(s, d, copy) ==> CopyOk(s, d, copy) && copy.deleting
  {
  }

  lemma WriteParts(s: Store, d: ObjectReference, copy: Deployment, w: Write)
    requires WriteOk(s, d, copy, w)
    ensures NormalPass(s, d, copy) && CopyOk(s, d, copy) && !copy.deleting
  {
  }

  lemma TenderUndisturbed(a: Store, b: Store, w: InstanceWorker)
    requires TenderRelies(a, b) && TenderInv(a, w)
    ensures TenderInv(b, w)
  {
  }
}
