// The usage lists of the ServiceTargetConfigs over all runs: when they are right, and when not.
module LifecycleUsage {
  import opened Common
  import opened References
  import opened Lifecycle
  import opened LifecycleInvariant
  import opened LifecycleTheorems

  // Every listed reference names an existing Instance that points to the config, and only once.
  ghost predicate Coherent(s: Store) {
    forall c :: c in s.configs ==>
      && NoDuplicates(s.configs[c].instanceRefs)
      && forall n :: n in s.configs[c].instanceRefs ==> n in s.instances && s.instances[n].config == c
  }

  // The deployment controller deletes a listed Instance that the instance controller has not yet given
  // its finalizer.
  ghost predicate RacyDelete(s: State, e: Event) {
    && e.StepDeployment? && s.deployer.DeletingInstance? && !e.choice.outcome.Failed?
    && s.deployer.n in s.store.instances
    && !s.store.instances[s.deployer.n].finalizer
    && Listed(s.store, s.deployer.n)
  }

  // Existing Instances stay, and only Instances that point to a config enter its list.
  ghost predicate Gentle(a: Store, b: Store) {
    && (forall n :: n in a.instances ==> n in b.instances && b.instances[n].config == a.instances[n].config)
    && (forall c, n :: c in b.configs && n in b.configs[c].instanceRefs ==>
          (c in a.configs && n in a.configs[c].instanceRefs) || (n in b.instances && b.instances[n].config == c))
  }

  lemma GentleKeepsCoherent(a: Store, b: Store)
    requires Coherent(a) && Gentle(a, b) && ConfigsOk(b)
    ensures Coherent(b)
  {
  }

  // A list loses an entry only while its Instance exists.
  ghost predicate Persistent(a: Store, b: Store) {
    forall c, n :: c in a.configs && n in a.configs[c].instanceRefs && n !in a.instances ==>
      c in b.configs && n in b.configs[c].instanceRefs
  }

  lemma PersistentKeepsStale(a: Store, b: Store)
    requires ConfigsOk(a) && ConfigsOk(b) && !Coherent(a) && Persistent(a, b) && Advances(a, b) && b.removed == {}
    ensures !Coherent(b)
  {
    var c, n :| c in a.configs && n in a.configs[c].instanceRefs && n !in a.instances;
    assert n in a.used;
    assert n !in b.instances;
  }

  lemma DropUnlistedKeepsCoherent(s: Store, n: ObjectReference)
    requires Coherent(s) && n in s.instances && !Listed(s, n)
    ensures Coherent(DropInstance(s, n))
  {
  }

  lemma DropListedBreaksCoherent(s: Store, n: ObjectReference)
    requires n in s.instances && Listed(s, n)
    ensures !Coherent(DropInstance(s, n))
  {
    var c := s.instances[n].config;
    assert n in DropInstance(s, n).configs[c].instanceRefs;
  }

  // Most calls of the controllers touch neither the lists nor the set of Instances.
  lemma DeployerQuiet(s: Store, w: DeploymentWorker, ch: Choice)
    requires !w.Writing? && !w.SavingConfig? && !w.DeletingInstance?
    ensures var b := StepDeployer(s, w, ch).0; b.instances == s.instances && b.configs == s.configs
  {
  }

  lemma DeployerWrites(s: Store, w: DeploymentWorker, ch: Choice)
    requires w.Writing? && DeployerInv(s, w) && InstancesOk(s)
    ensures var b := StepDeployer(s, w, ch).0; Gentle(s, b) && (s.removed == {} ==> Persistent(s, b))
  {
    hide SomePass, CopyOk, StepFetched, Gentle, Persistent;
    var n := if w.write.target.Some? then w.write.target.value else ObjectReference(ch.name.name, w.d.namespace);
    var b := StepWriting(s, w.d, w.copy, w.write, ch).0;
    assert StepDeployer(s, w, ch).0 == b;
    assert b == s || b == CreateInstance(s, n, w.write.instance);
    SameLists(s, s);
    if b != s {
      assert s.removed == {} && w.write.target.Some? ==> n in s.instances;
      CreateGentle(s, n, w.write.instance);
    }
  }

  lemma CreateGentle(s: Store, n: ObjectReference, v: Instance)
    requires n in s.instances ==> s.instances[n].config == v.config
    ensures Gentle(s, CreateInstance(s, n, v)) && Persistent(s, CreateInstance(s, n, v))
  {
  }

  lemma DeployerLists(s: Store, w: DeploymentWorker, ch: Choice)
    requires w.SavingConfig? && DeployerInv(s, w) && (w.n in s.instances || s.removed == {})
    ensures var b := StepDeployer(s, w, ch).0; Gentle(s, b) && Persistent(s, b)
  {
    hide CopyOk, Alive, Held, Gentle, Persistent;
    SameLists(s, s);
    if CurrentConfig(s, w.c, w.config.version) {
      AppendGentle(s, w.c, w.n);
      var b := PutConfig(s, w.c, s.configs[w.c].instanceRefs + [w.n]);
      SameChanges(s, b, Register(b, w.n));
    }
  }

  lemma AppendGentle(s: Store, c: ObjectReference, n: ObjectReference)
    requires c in s.configs && n in s.instances && s.instances[n].config == c
    ensures var b := PutConfig(s, c, s.configs[c].instanceRefs + [n]); Gentle(s, b) && Persistent(s, b)
  {
  }

  lemma SameChanges(a: Store, b: Store, b': Store)
    requires b.instances == b'.instances && b.configs == b'.configs
    ensures (Gentle(a, b) ==> Gentle(a, b')) && (Persistent(a, b) ==> Persistent(a, b'))
  {
  }

  lemma DeployerMarks(s: Store, w: DeploymentWorker, ch: Choice)
    requires w.DeletingInstance? && (w.n in s.instances ==> s.instances[w.n].finalizer)
    ensures var b := StepDeployer(s, w, ch).0; Gentle(s, b) && Persistent(s, b)
  {
  }

  lemma TenderQuiet(s: Store, w: InstanceWorker, ch: Choice)
    requires !w.Releasing? && TenderInv(s, w) && ConfigsOk(s)
    ensures var b := StepTender(s, w, ch).0; Gentle(s, b) && Persistent(s, b)
  {
    if w.Unlisting? && CurrentConfig(s, w.local.config, w.config.version) {
      RemovedOfDistinct(w.config.instanceRefs, w.n);
    }
  }

  lemma EnvironmentQuiet(s: Store, e: Event)
    requires e.RemoveInstance? && e.n in s.instances ==> s.instances[e.n].finalizer
    ensures var b := StepEnvironment(s, e); Gentle(s, b) && Persistent(s, b)
  {
  }

  lemma NothingRemoved(s: Store, e: Event)
    requires StepEnvironment(s, e).removed == {}
    ensures e.RemoveInstance? ==> e.n !in s.instances
  {
  }

  lemma TenderReleases(s: Store, w: InstanceWorker, ch: Choice)
    requires w.Releasing? && TenderInv(s, w) && s.removed == {}
    ensures var b := StepTender(s, w, ch).0; b == s || b == DropInstance(s, w.n)
    ensures w.n in s.instances && !Listed(s, w.n)
  {
  }

  lemma DeployerDeletes(s: Store, w: DeploymentWorker, ch: Choice)
    requires w.DeletingInstance? && w.n in s.instances && !s.instances[w.n].finalizer
    ensures StepDeployer(s, w, ch).0 == if ch.outcome.Failed? then s else DropInstance(s, w.n)
  {
  }

  lemma StepCoherence(s: State, e: Event)
    requires Inv(s) && Step(s, e).store.removed == {}
    ensures Coherent(Step(s, e).store) <==> Coherent(s.store) && !RacyDelete(s, e)
  {
    hide StoreInv, DeployerInv, TenderInv, InstancesOk, OneInstanceEach, ConfigsOk, Coherent, Gentle, Persistent,
      Advances, Listed, StepDeployer, StepTender, StepEnvironment;
    var a, b := s.store, Step(s, e).store;
    StepKeeps(s, e);
    RemovedGrows(s, e);
    StoreParts(a);
    StoreParts(b);
    if e.StepDeployment? && s.deployer.DeletingInstance? && s.deployer.n in a.instances &&
      !a.instances[s.deployer.n].finalizer {
      DeployerDeletes(a, s.deployer, e.choice);
      DropPersists(a, s.deployer.n);
      if Listed(a, s.deployer.n) {
        DropListedBreaksCoherent(a, s.deployer.n);
      } else if Coherent(a) {
        DropUnlistedKeepsCoherent(a, s.deployer.n);
      }
    } else if e.StepDeployment? && s.deployer.Writing? {
      DeployerWrites(a, s.deployer, e.choice);
    } else if e.StepDeployment? && s.deployer.SavingConfig? {
      DeployerLists(a, s.deployer, e.choice);
    } else if e.StepDeployment? && s.deployer.DeletingInstance? {
      DeployerMarks(a, s.deployer, e.choice);
    } else if e.StepDeployment? {
      DeployerQuiet(a, s.deployer, e.choice);
      SameLists(a, b);
    } else if e.StepInstance? && s.tender.Releasing? {
      TenderReleases(a, s.tender, e.choice);
      DropPersists(a, s.tender.n);
      if Coherent(a) {
        DropUnlistedKeepsCoherent(a, s.tender.n);
      }
    } else if e.StepInstance? {
      TenderQuiet(a, s.tender, e.choice);
    } else if e.Crash? || e.StartDeployment? || e.StartInstance? {
      SameLists(a, b);
    } else {
      NothingRemoved(a, e);
      EnvironmentQuiet(a, e);
    }
    if !Coherent(a) && Persistent(a, b) {
      PersistentKeepsStale(a, b);
    }
    if Coherent(a) && Gentle(a, b) {
      GentleKeepsCoherent(a, b);
    }
  }

  lemma SameLists(a: Store, b: Store)
    requires a.instances == b.instances && a.configs == b.configs
    ensures Gentle(a, b) && Persistent(a, b)
  {
  }

  lemma DropPersists(s: Store, n: ObjectReference)
    ensures Persistent(s, DropInstance(s, n)) && Persistent(s, s)
  {
  }

  lemma RemovedGrows(s: State, e: Event)
    requires Advances(s.store, Step(s, e).store)
    ensures s.store.removed <= Step(s, e).store.removed
  {
  }

  ghost predicate NoRacyDelete(events: seq<Event>) {
    forall i :: 0 <= i < |events| ==> !RacyDelete(Run(INIT, events[..i]), events[i])
  }

  /** If no Instance was deleted directly, the usage lists are right after a run exactly if it has no racy delete. */
  lemma {:induction false} CoherentUnlessRacyDelete(events: seq<Event>)
    requires After(events).removed == {}
    ensures Coherent(After(events)) <==> NoRacyDelete(events)
  {
    hide StoreInv, DeployerInv, TenderInv, Step, RacyDelete;
    if events != [] {
      var init, last := events[..|events| - 1], events[|events| - 1];
      AlwaysInv(init);
      StepKeeps(Run(INIT, init), last);
      RemovedGrows(Run(INIT, init), last);
      CoherentUnlessRacyDelete(init);
      StepCoherence(Run(INIT, init), last);
      assert forall i :: 0 <= i < |init| ==> events[..i] == init[..i];
    }
  }

  /** Where an Instance is listed, it is listed once, and nowhere but in the list of its own target, unless it was
      deleted directly and has been created again for another target. */
  lemma ListedOnceAtItsTarget(events: seq<Event>, c: ObjectReference, n: ObjectReference)
    requires var s := After(events); c in s.configs && n in s.configs[c].instanceRefs
    ensures var s := After(events);
            && NoDuplicates(s.configs[c].instanceRefs)
            && (n in s.instances ==> s.instances[n].config == c || n in s.removed)
  {
    AlwaysInv(events);
    assert ListOk(After(events), c);
  }

  /** From its first successful pass on, an Instance stays listed at its target until it is marked for deletion. */
  lemma RegisteredStaysListed(events: seq<Event>, n: ObjectReference)
    requires var s := After(events);
      n in s.registered && n in s.instances && !s.instances[n].deleting && n !in s.removed
    ensures Listed(After(events), n)
  {
    AlwaysInv(events);
    assert RegisteredOk(After(events));
  }

  /** Once every Instance has been through a successful pass, no delete was racy and none is being deleted, the
      list of a config holds exactly the Instances that point to it. */
  lemma ListsAreExact(events: seq<Event>, c: ObjectReference)
    requires NoRacyDelete(events) && After(events).removed == {} && c in After(events).configs
    requires var s := After(events); forall n :: n in s.instances ==> n in s.registered && !s.instances[n].deleting
    ensures var s := After(events);
            && NoDuplicates(s.configs[c].instanceRefs)
            && forall n :: n in s.configs[c].instanceRefs <==> n in s.instances && s.instances[n].config == c
  {
    var s := After(events);
    CoherentUnlessRacyDelete(events);
    forall n | n in s.instances && s.instances[n].config == c ensures n in s.configs[c].instanceRefs {
      RegisteredStaysListed(events, n);
    }
  }

  // ---- A run with a racy delete ----

  const D := ObjectReference("d", "ns")
  const N := ObjectReference("n", "ns")
  const C := ObjectReference("c", "ns")
  const CALM := Choice(Applied, false, false, C, "id", N)
  const BUSY := CALM.(write := true)

  const FRESH := Deployment(2, false, true, None)
  const MADE := Instance(3, false, false, "d", "id", C)
  const NAMED := Deployment(4, false, true, Some(N))
  const DOOMED := Deployment(6, true, true, Some(N))
  const LISTING := Store(map[D := NAMED], map[N := MADE], map[C := Config(0, [])], 5, map[N := D], {}, {})
  const SAVING := SavingConfig(D, NAMED, N, C, Config(0, []))
  const PLACED := State(LISTING.(configs := map[C := Config(5, [N])], clock := 6, registered := {N}), Idle, Resting)
  const DELETED := PLACED.store.(deployments := map[D := DOOMED], clock := 7)

  ghost predicate LeadsTo(events: seq<Event>, s: State) {
    Run(INIT, events) == s
  }

  lemma Go(events: seq<Event>, s: State, e: Event) returns (longer: seq<Event>)
    requires LeadsTo(events, s)
    ensures LeadsTo(longer, Step(s, e))
  {
    longer := events + [e];
    assert longer[..|events|] == events;
  }

  lemma Begin() returns (events: seq<Event>)
    ensures LeadsTo(events, State(
      Store(map[D := Deployment(1, false, false, None)], map[], map[C := Config(0, [])], 2, map[], {}, {}),
      Idle, Resting))
  {
    events := Go([], INIT, AddConfig(C));
    events := Go(events, Step(INIT, AddConfig(C)), UserCreates(D));
  }

  // The deployment is created and gets its finalizer.
  lemma Prepare() returns (events: seq<Event>)
    ensures LeadsTo(events, State(
      Store(map[D := FRESH], map[], map[C := Config(0, [])], 3, map[], {}, {}), Idle, Resting))
  {
    events := Begin();
    var new_ := Deployment(1, false, false, None);
    var store := Store(map[D := new_], map[], map[C := Config(0, [])], 2, map[], {}, {});
    events := Go(events, State(store, Idle, Resting), StartDeployment(D));
    events := Go(events, State(store, Fetched(D, new_), Resting), StepDeployment(CALM));
  }

  // A pass finds no Instance and picks the only config.
  lemma Choose() returns (events: seq<Event>)
    ensures LeadsTo(events, State(Store(map[D := FRESH], map[], map[C := Config(0, [])], 3, map[], {}, {}),
                                  Drawing(D, FRESH, Write(None, None, BLANK.(config := C))), Resting))
  {
    events := Prepare();
    var store := Store(map[D := FRESH], map[], map[C := Config(0, [])], 3, map[], {}, {});
    var e := StepDeployment(CALM);
    events := Go(events, State(store, Idle, Resting), StartDeployment(D));
    events := Go(events, State(store, Fetched(D, FRESH), Resting), e);
    events := Go(events, State(store, ListingOwned(D, FRESH), Resting), e);
    events := Go(events, State(store, Choosing(D, FRESH, Write(None, None, BLANK)), Resting), e);
  }

  // It draws an ID and creates the Instance.
  lemma Create() returns (events: seq<Event>)
    ensures LeadsTo(events, State(
      Store(map[D := FRESH], map[N := MADE], map[C := Config(0, [])], 4, map[N := D], {}, {}),
      Refetching(D, FRESH.(instanceRef := Some(N)), N), Resting))
  {
    events := Choose();
    var store := Store(map[D := FRESH], map[], map[C := Config(0, [])], 3, map[], {}, {});
    var w := Write(None, None, BLANK);
    var e := StepDeployment(CALM);
    events := Go(events, State(store, Drawing(D, FRESH, w.(instance := BLANK.(config := C))), Resting), e);
    var made := BLANK.(config := C, owner := "d", id := "id");
    events := Go(events, State(store, Writing(D, FRESH, w.(instance := made)), Resting), e);
  }

  // The same pass writes the status and the usage list and ends successfully.
  lemma WriteStatus() returns (events: seq<Event>)
    ensures LeadsTo(events, State(LISTING, LoadingConfig(D, NAMED, N, C), Resting))
  {
    events := Create();
    var copy := FRESH.(instanceRef := Some(N));
    var store := LISTING.(deployments := map[D := FRESH], clock := 4);
    events := Go(events, State(store, Refetching(D, copy, N), Resting), StepDeployment(CALM));
    events := Go(events, State(store, SavingStatus(D, copy, N, C), Resting), StepDeployment(BUSY));
  }

  lemma ReadList() returns (events: seq<Event>)
    ensures LeadsTo(events, State(LISTING, SAVING, Resting))
  {
    events := WriteStatus();
    events := Go(events, State(LISTING, LoadingConfig(D, NAMED, N, C), Resting), StepDeployment(CALM));
  }

  lemma WriteList() returns (events: seq<Event>)
    ensures LeadsTo(events, State(PLACED.store, Finishing(D, NAMED), Resting))
  {
    events := ReadList();
    assert Config(0, []).instanceRefs + [N] == [N] && LISTING.registered + {N} == {N};
    events := Go(events, State(LISTING, SAVING, Resting), StepDeployment(CALM));
  }

  lemma DeleteEarly() returns (events: seq<Event>)
    ensures LeadsTo(events, State(DELETED, CheckingInstance(D, DOOMED, N), Resting))
  {
    events := WriteList();
    events := Go(events, State(PLACED.store, Finishing(D, NAMED), Resting), StepDeployment(CALM));
    events := Go(events, PLACED, UserDeletes(D));
    events := Go(events, State(DELETED, Idle, Resting), StartDeployment(D));
    events := Go(events, State(DELETED, Fetched(D, DOOMED), Resting), StepDeployment(CALM));
  }

  /** A deployment that is deleted before the instance controller has seen its Instance leaves a reference
      to a vanished Instance behind. */
  lemma EarlyDeletionLeavesReference() returns (events: seq<Event>)
    ensures !Coherent(After(events))
    ensures var s := After(events); s.instances == map[] && s.configs == map[C := Config(5, [N])]
  {
    events := DeleteEarly();
    events := Go(events, State(DELETED, CheckingInstance(D, DOOMED, N), Resting), StepDeployment(CALM));
    var s := State(DELETED, DeletingInstance(D, DOOMED, N), Resting);
    events := Go(events, s, StepDeployment(CALM));
    DropListedBreaksCoherent(DELETED, N);
  }
}
