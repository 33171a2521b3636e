// The protocol by which LandscaperDeployments own Instances and ServiceTargetConfigs list them.
//
// The store holds the objects of the core cluster. Two sequential workers, the deployment controller
// and the instance controller, read and write it one API call at a time; between any two calls users,
// other writers and the other worker may act, and either process may crash. Every write carries the
// version of the copy it is based on and is refused when the stored version differs.
module Lifecycle {
  import opened Common
  import opened References

  datatype Deployment = Deployment(
    version: nat,
    deleting: bool,
    finalizer: bool,
    instanceRef: Option<ObjectReference>)

  // `owner` is the name in the controller owner reference; the owner lives in the same namespace.
  datatype Instance = Instance(
    version: nat,
    deleting: bool,
    finalizer: bool,
    owner: string,
    id: string,
    config: ObjectReference)

  datatype Config = Config(version: nat, instanceRefs: seq<ObjectReference>)

  // The object that CreateOrUpdate is about to write: under a generated name (no target), under a
  // given name that was not found (no base), or over the object read before (the base).
  datatype Write = Write(target: Option<ObjectReference>, base: Option<Instance>, instance: Instance)

  // Where the deployment controller stands in a pass over deployment `d`. `copy` is its local object:
  // the version and metadata read last, and the status as modified locally.
  datatype DeploymentWorker =
    | Idle
    | Fetched(d: ObjectReference, copy: Deployment)
    | ListingOwned(d: ObjectReference, copy: Deployment)
    | SavingFoundRef(d: ObjectReference, copy: Deployment)
    | Choosing(d: ObjectReference, copy: Deployment, write: Write)
    | Drawing(d: ObjectReference, copy: Deployment, write: Write)
    | Writing(d: ObjectReference, copy: Deployment, write: Write)
    | Loading(d: ObjectReference, copy: Deployment, n: ObjectReference)
    | Refetching(d: ObjectReference, copy: Deployment, n: ObjectReference)
    | SavingStatus(d: ObjectReference, copy: Deployment, n: ObjectReference, c: ObjectReference)
    | LoadingConfig(d: ObjectReference, copy: Deployment, n: ObjectReference, c: ObjectReference)
    | SavingConfig(d: ObjectReference, copy: Deployment, n: ObjectReference, c: ObjectReference, config: Config)
    | CheckingInstance(d: ObjectReference, copy: Deployment, n: ObjectReference)
    | DeletingInstance(d: ObjectReference, copy: Deployment, n: ObjectReference)
    | ClearingRef(d: ObjectReference, copy: Deployment)
    | DroppingFinalizer(d: ObjectReference, copy: Deployment)
    | Finishing(d: ObjectReference, copy: Deployment)

  // Where the instance controller stands in a pass over instance `n`.
  datatype InstanceWorker =
    | Resting
    | Read(n: ObjectReference, local: Instance)
    | Tearing(n: ObjectReference, local: Instance)
    | Unlisting(n: ObjectReference, local: Instance, config: Config)
    | Releasing(n: ObjectReference, local: Instance)
    | Ending(n: ObjectReference, local: Instance)

  // `used` holds every name ever generated for an Instance, with the deployment it was generated for. The last two are
  // history variables: the Instances for which a pass over their deployment has succeeded, and those that somebody has
  // deleted directly, not by way of their deployment.
  datatype Store = Store(
    deployments: map<ObjectReference, Deployment>,
    instances: map<ObjectReference, Instance>,
    configs: map<ObjectReference, Config>,
    clock: nat,
    used: map<ObjectReference, ObjectReference>,
    registered: set<ObjectReference>,
    removed: set<ObjectReference>)

  datatype State = State(store: Store, deployer: DeploymentWorker, tender: InstanceWorker)

  // What the environment decides about one API call: its outcome, whether an optional status write
  // happens (`write`), whether the teardown chain of an Instance is through (`done`), the target
  // that scheduling picks, the drawn ID and the generated name.
  datatype Choice = Choice(
    outcome: Outcome,
    write: bool,
    done: bool,
    pick: ObjectReference,
    id: string,
    name: ObjectReference)

  datatype Event =
    | UserCreates(d: ObjectReference)
    | UserDeletes(d: ObjectReference)
    | RemoveInstance(n: ObjectReference)
    | TouchDeployment(d: ObjectReference)
    | TouchInstance(n: ObjectReference)
    | TouchConfig(c: ObjectReference)
    | AddConfig(c: ObjectReference)
    | Crash
    | StartDeployment(d: ObjectReference)
    | StepDeployment(choice: Choice)
    | StartInstance(n: ObjectReference)
    | StepInstance(choice: Choice)

  const INIT := State(Store(map[], map[], map[], 0, map[], {}, {}), Idle, Resting)

  function Owner(s: Store, n: ObjectReference): ObjectReference
    requires n in s.instances
  {
    ObjectReference(s.instances[n].owner, n.namespace)
  }

  ghost predicate Owns(s: Store, d: ObjectReference, n: ObjectReference) {
    n in s.instances && Owner(s, n) == d
  }

  // ---- The API server ----

  function PutDeployment(s: Store, d: ObjectReference, value: Deployment): Store {
    s.(deployments := s.deployments[d := value.(version := s.clock)], clock := s.clock + 1)
  }

  function PutInstance(s: Store, n: ObjectReference, value: Instance): Store {
    s.(instances := s.instances[n := value.(version := s.clock)], clock := s.clock + 1)
  }

  function PutConfig(s: Store, c: ObjectReference, refs: seq<ObjectReference>): Store {
    s.(configs := s.configs[c := Config(s.clock, refs)], clock := s.clock + 1)
  }

  function DropDeployment(s: Store, d: ObjectReference): Store {
    s.(deployments := s.deployments - {d})
  }

  function DropInstance(s: Store, n: ObjectReference): Store {
    s.(instances := s.instances - {n})
  }

  function CreateInstance(s: Store, n: ObjectReference, value: Instance): Store {
    PutInstance(s, n, value).(used := s.used[n := ObjectReference(value.owner, n.namespace)])
  }

  function Register(s: Store, n: ObjectReference): Store {
    s.(registered := s.registered + {n})
  }

  predicate CurrentDeployment(s: Store, d: ObjectReference, version: nat) {
    d in s.deployments && s.deployments[d].version == version
  }

  predicate CurrentInstance(s: Store, n: ObjectReference, version: nat) {
    n in s.instances && s.instances[n].version == version
  }

  predicate CurrentConfig(s: Store, c: ObjectReference, version: nat) {
    c in s.configs && s.configs[c].version == version
  }

  // Status().Update of a deployment writes the local status; the flag says whether the caller sees success.
  function UpdateStatus(s: Store, d: ObjectReference, copy: Deployment, o: Outcome): (r: (Store, bool)) {
    if o.Failed? || !CurrentDeployment(s, d, copy.version) then (s, false)
    else (PutDeployment(s, d, s.deployments[d].(instanceRef := copy.instanceRef)), o.Applied?)
  }

  // Status().Update of an Instance; no field of its status is part of this model.
  function UpdateInstanceStatus(s: Store, n: ObjectReference, local: Instance, o: Outcome): (r: (Store, bool)) {
    if o.Failed? || !CurrentInstance(s, n, local.version) then (s, false)
    else (PutInstance(s, n, s.instances[n]), o.Applied?)
  }

  // Delete of an Instance: without the finalizer it is gone at once, otherwise it is only marked.
  function DeleteInstance(s: Store, n: ObjectReference): Store {
    if n !in s.instances then s
    else if s.instances[n].finalizer then PutInstance(s, n, s.instances[n].(deleting := true))
    else DropInstance(s, n)
  }

  function DeleteDeployment(s: Store, d: ObjectReference): Store {
    if d !in s.deployments then s
    else if s.deployments[d].finalizer then PutDeployment(s, d, s.deployments[d].(deleting := true))
    else DropDeployment(s, d)
  }

  // ---- The deployment controller ----
  //
  // Each function is one API call of a pass (or the code between two calls): it yields the new store and
  // the place where the pass stands afterwards.

  type DeployerStep = (Store, DeploymentWorker)

  const BLANK := Instance(0, false, false, "", "", ObjectReference("", ""))

  // The status update of the observed generation, the finalizer, the dispatch.
  function StepFetched(s: Store, d: ObjectReference, copy: Deployment, ch: Choice): DeployerStep {
    if ch.write then
      var (s', ok) := UpdateStatus(s, d, copy, ch.outcome);
      (s', if ok then Fetched(d, copy.(version := s.clock)) else Idle)
    else if !copy.deleting && !copy.finalizer then
      if ch.outcome.Failed? || !CurrentDeployment(s, d, copy.version) then (s, Idle)
      else (PutDeployment(s, d, s.deployments[d].(finalizer := true)), Idle)
    else (s, WithRef(d, copy))
  }

  // Where reconcile or handleDelete goes on: with the reference, or with a look at the cluster.
  function WithRef(d: ObjectReference, copy: Deployment): DeploymentWorker {
    match copy.instanceRef
    case None => ListingOwned(d, copy)
    case Some(n) => if copy.deleting then CheckingInstance(d, copy, n) else Loading(d, copy, n)
  }

  // getInstanceRefFromCluster: `ch.name` stands for the first listed Instance of the deployment.
  ghost function StepListingOwned(s: Store, d: ObjectReference, copy: Deployment, ch: Choice): DeployerStep {
    if !ch.outcome.Applied? then (s, Finishing(d, copy))
    else if exists n :: n in s.instances && Owner(s, n) == d then
      (s, if Owns(s, d, ch.name) then SavingFoundRef(d, copy.(instanceRef := Some(ch.name))) else ListingOwned(d, copy))
    else if copy.deleting then (s, DroppingFinalizer(d, copy))
    else (s, Choosing(d, copy, Write(None, None, BLANK)))
  }

  function StepSavingFoundRef(s: Store, d: ObjectReference, copy: Deployment, ch: Choice): DeployerStep {
    var (s', ok) := UpdateStatus(s, d, copy, ch.outcome);
    (s', if ok then WithRef(d, copy.(version := s.clock)) else Finishing(d, copy))
  }

  // CreateOrUpdate of a named Instance first reads it.
  function StepLoading(s: Store, d: ObjectReference, copy: Deployment, n: ObjectReference, ch: Choice): DeployerStep {
    if !ch.outcome.Applied? then (s, Finishing(d, copy))
    else if n in s.instances then (s, Choosing(d, copy, Write(Some(n), Some(s.instances[n]), s.instances[n])))
    else (s, Choosing(d, copy, Write(Some(n), None, BLANK)))
  }

  // mutateInstance: the owner reference, and a target unless there is one.
  function StepChoosing(s: Store, d: ObjectReference, copy: Deployment, w: Write, ch: Choice): DeployerStep {
    if w.instance.owner != "" && w.instance.owner != d.name then (s, Finishing(d, copy))
    else if w.instance.config.name != "" then (s, Drawing(d, copy, w))
    else if !ch.outcome.Applied? || ch.pick !in s.configs then (s, Finishing(d, copy))
    else (s, Drawing(d, copy, w.(instance := w.instance.(config := ch.pick))))
  }

  // mutateInstance: an ID that no Instance in the namespace of the deployment has, unless there is one.
  ghost function StepDrawing(s: Store, d: ObjectReference, copy: Deployment, w: Write, ch: Choice): DeployerStep {
    if w.instance.id != "" then (s, Writing(d, copy, w.(instance := w.instance.(owner := d.name))))
    else if !ch.outcome.Applied? then (s, Finishing(d, copy))
    else if ch.id == "" || exists n :: n in s.instances && n.namespace == d.namespace && s.instances[n].id == ch.id then
      (s, Drawing(d, copy, w))
    else (s, Writing(d, copy, w.(instance := w.instance.(owner := d.name, id := ch.id))))
  }

  // CreateOrUpdate: the write itself; a create under a generated name uses a name never used before,
  // and an update that changes nothing makes no call.
  function StepWriting(s: Store, d: ObjectReference, copy: Deployment, w: Write, ch: Choice): DeployerStep {
    match w.target
    case None =>
      var n := ObjectReference(ch.name.name, d.namespace);
      if ch.outcome.Failed? then (s, Finishing(d, copy))
      else if n in s.used then (s, Writing(d, copy, w))
      else (CreateInstance(s, n, w.instance), Written(d, copy, n, ch))
    case Some(n) =>
      if w.base == Some(w.instance) && !ch.write then (s, Refetching(d, copy.(instanceRef := Some(n)), n))
      else if ch.outcome.Failed? then (s, Finishing(d, copy))
      else if w.base.Some? && !CurrentInstance(s, n, w.base.value.version) then (s, Finishing(d, copy))
      else if w.base.None? && n in s.instances then (s, Finishing(d, copy))
      else (CreateInstance(s, n, w.instance), Written(d, copy, n, ch))
  }

  function Written(d: ObjectReference, copy: Deployment, n: ObjectReference, ch: Choice): DeploymentWorker {
    if ch.outcome.Lost? then Finishing(d, copy) else Refetching(d, copy.(instanceRef := Some(n)), n)
  }

  function StepRefetching(s: Store, d: ObjectReference, copy: Deployment, n: ObjectReference,
      ch: Choice): DeployerStep {
    if !ch.outcome.Applied? || n !in s.instances then (s, Finishing(d, copy))
    else (s, SavingStatus(d, copy, n, s.instances[n].config))
  }

  function StepSavingStatus(s: Store, d: ObjectReference, copy: Deployment, n: ObjectReference, c: ObjectReference,
                            ch: Choice): DeployerStep {
    if !ch.write then (s, LoadingConfig(d, copy, n, c))
    else
      var (s', ok) := UpdateStatus(s, d, copy, ch.outcome);
      (s', if ok then LoadingConfig(d, copy.(version := s.clock), n, c) else Finishing(d, copy))
  }

  function StepLoadingConfig(s: Store, d: ObjectReference, copy: Deployment, n: ObjectReference, c: ObjectReference,
                             ch: Choice): DeployerStep {
    if !ch.outcome.Applied? || c !in s.configs then (s, Finishing(d, copy))
    else if n in s.configs[c].instanceRefs then (Register(s, n), Finishing(d, copy))
    else (s, SavingConfig(d, copy, n, c, s.configs[c]))
  }

  // The last call of a pass; the bookkeeping of the status follows as it does after an error.
  function StepSavingConfig(s: Store, d: ObjectReference, copy: Deployment, n: ObjectReference, c: ObjectReference,
                            config: Config, ch: Choice): DeployerStep {
    if ch.outcome.Failed? || !CurrentConfig(s, c, config.version) then (s, Finishing(d, copy))
    else
      var s' := PutConfig(s, c, config.instanceRefs + [n]);
      (if ch.outcome.Applied? then Register(s', n) else s', Finishing(d, copy))
  }

  // handleDelete: the Instance is observed gone, already marked, or to be deleted.
  function StepCheckingInstance(s: Store, d: ObjectReference, copy: Deployment, n: ObjectReference,
      ch: Choice): DeployerStep {
    if !ch.outcome.Applied? then (s, Finishing(d, copy))
    else if n !in s.instances then (s, ClearingRef(d, copy.(instanceRef := None)))
    else if s.instances[n].deleting then (s, Finishing(d, copy))
    else (s, DeletingInstance(d, copy, n))
  }

  function StepDeletingInstance(s: Store, d: ObjectReference, copy: Deployment, n: ObjectReference,
      ch: Choice): DeployerStep {
    (if ch.outcome.Failed? then s else DeleteInstance(s, n), Finishing(d, copy))
  }

  function StepClearingRef(s: Store, d: ObjectReference, copy: Deployment, ch: Choice): DeployerStep {
    var (s', ok) := UpdateStatus(s, d, copy, ch.outcome);
    (s', if ok then DroppingFinalizer(d, copy.(version := s.clock)) else Finishing(d, copy))
  }

  function StepDroppingFinalizer(s: Store, d: ObjectReference, copy: Deployment, ch: Choice): DeployerStep {
    (if ch.outcome.Failed? || !CurrentDeployment(s, d, copy.version) then s
     else if s.deployments[d].deleting then DropDeployment(s, d)
     else PutDeployment(s, d, s.deployments[d].(finalizer := false)),
     Finishing(d, copy))
  }

  // handleErrorFunc: the local status may be written once more; the result is ignored.
  function StepFinishing(s: Store, d: ObjectReference, copy: Deployment, ch: Choice): DeployerStep {
    (if ch.write then UpdateStatus(s, d, copy, ch.outcome).0 else s, Idle)
  }

  ghost function StepDeployer(s: Store, w: DeploymentWorker, ch: Choice): DeployerStep {
    match w
    case Idle => (s, Idle)
    case Fetched(d, copy) => StepFetched(s, d, copy, ch)
    case ListingOwned(d, copy) => StepListingOwned(s, d, copy, ch)
    case SavingFoundRef(d, copy) => StepSavingFoundRef(s, d, copy, ch)
    case Choosing(d, copy, write) => StepChoosing(s, d, copy, write, ch)
    case Drawing(d, copy, write) => StepDrawing(s, d, copy, write, ch)
    case Writing(d, copy, write) => StepWriting(s, d, copy, write, ch)
    case Loading(d, copy, n) => StepLoading(s, d, copy, n, ch)
    case Refetching(d, copy, n) => StepRefetching(s, d, copy, n, ch)
    case SavingStatus(d, copy, n, c) => StepSavingStatus(s, d, copy, n, c, ch)
    case LoadingConfig(d, copy, n, c) => StepLoadingConfig(s, d, copy, n, c, ch)
    case SavingConfig(d, copy, n, c, config) => StepSavingConfig(s, d, copy, n, c, config, ch)
    case CheckingInstance(d, copy, n) => StepCheckingInstance(s, d, copy, n, ch)
    case DeletingInstance(d, copy, n) => StepDeletingInstance(s, d, copy, n, ch)
    case ClearingRef(d, copy) => StepClearingRef(s, d, copy, ch)
    case DroppingFinalizer(d, copy) => StepDroppingFinalizer(s, d, copy, ch)
    case Finishing(d, copy) => StepFinishing(s, d, copy, ch)
  }

  // ---- The instance controller ----

  type TenderStep = (Store, InstanceWorker)

  // Observed generation, finalizer, dispatch; a pass over a live Instance only writes its status here.
  function StepRead(s: Store, n: ObjectReference, local: Instance, ch: Choice): TenderStep {
    if ch.write then
      var (s', ok) := UpdateInstanceStatus(s, n, local, ch.outcome);
      (s', if ok then Read(n, local.(version := s.clock)) else Resting)
    else if !local.deleting && !local.finalizer then
      if ch.outcome.Failed? || !CurrentInstance(s, n, local.version) then (s, Resting)
      else (PutInstance(s, n, s.instances[n].(finalizer := true)), Resting)
    else (s, if local.deleting then Tearing(n, local) else Ending(n, local))
  }

  // The teardown chain clears references in the status, stops early, or ends with a read of the config.
  function StepTearing(s: Store, n: ObjectReference, local: Instance, ch: Choice): TenderStep {
    if ch.write then
      var (s', ok) := UpdateInstanceStatus(s, n, local, ch.outcome);
      (s', if ok then Tearing(n, local.(version := s.clock)) else Ending(n, local))
    else if !ch.done || !ch.outcome.Applied? || local.config !in s.configs then (s, Ending(n, local))
    else (s, Unlisting(n, local, s.configs[local.config]))
  }

  function StepUnlisting(s: Store, n: ObjectReference, local: Instance, config: Config, ch: Choice): TenderStep {
    if ch.outcome.Failed? || !CurrentConfig(s, local.config, config.version) then (s, Ending(n, local))
    else
      (PutConfig(s, local.config, Removed(config.instanceRefs, n)),
       if ch.outcome.Applied? then Releasing(n, local) else Ending(n, local))
  }

  function StepReleasing(s: Store, n: ObjectReference, local: Instance, ch: Choice): TenderStep {
    (if ch.outcome.Failed? || !CurrentInstance(s, n, local.version) then s
     else if s.instances[n].deleting then DropInstance(s, n)
     else PutInstance(s, n, s.instances[n].(finalizer := false)),
     Ending(n, local))
  }

  function StepEnding(s: Store, n: ObjectReference, local: Instance, ch: Choice): TenderStep {
    (if ch.write then UpdateInstanceStatus(s, n, local, ch.outcome).0 else s, Resting)
  }

  function StepTender(s: Store, w: InstanceWorker, ch: Choice): TenderStep {
    match w
    case Resting => (s, Resting)
    case Read(n, local) => StepRead(s, n, local, ch)
    case Tearing(n, local) => StepTearing(s, n, local, ch)
    case Unlisting(n, local, config) => StepUnlisting(s, n, local, config, ch)
    case Releasing(n, local) => StepReleasing(s, n, local, ch)
    case Ending(n, local) => StepEnding(s, n, local, ch)
  }

  // ---- Runs ----

  function StepEnvironment(s: Store, e: Event): Store {
    match e
    case UserCreates(d) => if d in s.deployments then s else PutDeployment(s, d, Deployment(0, false, false, None))
    case UserDeletes(d) => DeleteDeployment(s, d)
    case RemoveInstance(n) => if n in s.instances then DeleteInstance(s, n).(removed := s.removed + {n}) else s
    case TouchDeployment(d) => if d in s.deployments then PutDeployment(s, d, s.deployments[d]) else s
    case TouchInstance(n) => if n in s.instances then PutInstance(s, n, s.instances[n]) else s
    case TouchConfig(c) => if c in s.configs then PutConfig(s, c, s.configs[c].instanceRefs) else s
    case AddConfig(c) => if c in s.configs || c.name == "" then s else PutConfig(s, c, [])
    case _ => s
  }

  ghost function Step(s: State, e: Event): State {
    match e
    case Crash => State(s.store, Idle, Resting)
    case StartDeployment(d) =>
      if s.deployer == Idle && d in s.store.deployments then s.(deployer := Fetched(d, s.store.deployments[d])) else s
    case StartInstance(n) =>
      if s.tender == Resting && n in s.store.instances then s.(tender := Read(n, s.store.instances[n])) else s
    case StepDeployment(ch) =>
      var (store, deployer) := StepDeployer(s.store, s.deployer, ch);
      State(store, deployer, s.tender)
    case StepInstance(ch) =>
      var (store, tender) := StepTender(s.store, s.tender, ch);
      State(store, s.deployer, tender)
    case _ => s.(store := StepEnvironment(s.store, e))
  }

  ghost function Run(s: State, events: seq<Event>): State {
    if events == [] then s else Step(Run(s, events[..|events| - 1]), events[|events| - 1])
  }
}
