// Instances that somebody deletes directly, not by way of their deployment.
module LifecycleRemoval {
  import opened Common
  import opened References
  import opened Lifecycle
  import opened LifecycleInvariant
  import opened LifecycleTheorems
  import opened LifecycleUsage

  lemma DeployerRemovesNothing(s: Store, w: DeploymentWorker, ch: Choice)
    ensures StepDeployer(s, w, ch).0.removed == s.removed
  {
    hide StepWriting, StepDroppingFinalizer, StepFetched;
    if w.Writing? || w.DroppingFinalizer? || w.Fetched? {
      WritesRemoveNothing(s, w, ch);
    }
  }

  lemma WritesRemoveNothing(s: Store, w: DeploymentWorker, ch: Choice)
    requires w.Writing? || w.DroppingFinalizer? || w.Fetched?
    ensures StepDeployer(s, w, ch).0.removed == s.removed
  {
  }

  lemma TenderRemovesNothing(s: Store, w: InstanceWorker, ch: Choice)
    ensures StepTender(s, w, ch).0.removed == s.removed
  {
  }

  lemma StepRemoves(s: State, e: Event)
    ensures Step(s, e).store.removed
         == s.store.removed + if e.RemoveInstance? && e.n in s.store.instances then {e.n} else {}
  {
    hide StepDeployer, StepTender;
    if e.StepDeployment? {
      DeployerRemovesNothing(s.store, s.deployer, e.choice);
    } else if e.StepInstance? {
      TenderRemovesNothing(s.store, s.tender, e.choice);
    }
  }

  /** The Instances that were deleted directly are exactly those of the events that delete an existing Instance. */
  lemma {:induction false} RemovedExactly(events: seq<Event>, n: ObjectReference)
    ensures n in After(events).removed <==>
      exists i :: 0 <= i < |events| && events[i] == RemoveInstance(n) && n in After(events[..i]).instances
  {
    hide Step;
    if events != [] {
      var init, last := events[..|events| - 1], events[|events| - 1];
      RemovedExactly(init, n);
      StepRemoves(Run(INIT, init), last);
      assert forall i :: 0 <= i < |init| ==> events[..i] == init[..i];
    }
  }

  // ---- What the usage lists are worth then ----

  // A listed Instance vanishes: it is deleted before it has its finalizer, by its deployment or directly, or it is
  // listed again after the instance controller has taken it off the list. Or a vanished Instance is listed.
  ghost predicate Breaks(s: State, e: Event) {
    match e
    case StepDeployment(ch) =>
      RacyDelete(s, e) ||
      (&& s.deployer.SavingConfig? && !ch.outcome.Failed?
       && CurrentConfig(s.store, s.deployer.c, s.deployer.config.version) && s.deployer.n !in s.store.instances)
    case StepInstance(ch) =>
      && s.tender.Releasing? && !ch.outcome.Failed?
      && CurrentInstance(s.store, s.tender.n, s.tender.local.version) && Listed(s.store, s.tender.n)
    case RemoveInstance(n) =>
      n in s.store.instances && !s.store.instances[n].finalizer && Listed(s.store, n)
    case _ => false
  }

  lemma DropDecides(s: Store, n: ObjectReference)
    requires Coherent(s) && n in s.instances
    ensures Coherent(DropInstance(s, n)) <==> !Listed(s, n)
  {
    if Listed(s, n) {
      DropListedBreaksCoherent(s, n);
    } else {
      DropUnlistedKeepsCoherent(s, n);
    }
  }

  lemma DeployerBreaks(s: State, ch: Choice)
    requires Inv(s) && Coherent(s.store) && StoreInv(Step(s, StepDeployment(ch)).store)
    ensures Coherent(Step(s, StepDeployment(ch)).store) <==> !Breaks(s, StepDeployment(ch))
  {
    hide StoreInv, DeployerInv, TenderInv, InstancesOk, OneInstanceEach, ConfigsOk, Coherent, Gentle, Persistent,
      Listed, StepDeployer;
    var a, w, b := s.store, s.deployer, Step(s, StepDeployment(ch)).store;
    StoreParts(a);
    StoreParts(b);
    if w.DeletingInstance? && w.n in a.instances && !a.instances[w.n].finalizer {
      DeployerDeletes(a, w, ch);
      DropDecides(a, w.n);
    } else if w.DeletingInstance? {
      DeployerMarks(a, w, ch);
    } else if w.Writing? {
      DeployerWrites(a, w, ch);
    } else if w.SavingConfig? && w.n in a.instances {
      DeployerLists(a, w, ch);
    } else if w.SavingConfig? {
      LateListing(a, w, ch);
    } else {
      DeployerQuiet(a, w, ch);
      SameLists(a, b);
    }
    if Gentle(a, b) {
      GentleKeepsCoherent(a, b);
    }
  }

  lemma LateListing(s: Store, w: DeploymentWorker, ch: Choice)
    requires w.SavingConfig? && w.n !in s.instances && Coherent(s)
    ensures Coherent(StepDeployer(s, w, ch).0) <==> ch.outcome.Failed? || !CurrentConfig(s, w.c, w.config.version)
  {
    if !ch.outcome.Failed? && CurrentConfig(s, w.c, w.config.version) {
      var b := StepDeployer(s, w, ch).0;
      assert w.n in b.configs[w.c].instanceRefs && w.n !in b.instances;
    }
  }

  lemma TenderBreaks(s: State, ch: Choice)
    requires Inv(s) && Coherent(s.store) && StoreInv(Step(s, StepInstance(ch)).store)
    ensures Coherent(Step(s, StepInstance(ch)).store) <==> !Breaks(s, StepInstance(ch))
  {
    hide StoreInv, DeployerInv, TenderInv, ConfigsOk, Coherent, Gentle, Persistent, Listed, StepTender;
    var a, w, b := s.store, s.tender, Step(s, StepInstance(ch)).store;
    StoreParts(a);
    StoreParts(b);
    if w.Releasing? {
      ReleaseDrops(a, w, ch);
      DropDecides(a, w.n);
    } else {
      TenderQuiet(a, w, ch);
      GentleKeepsCoherent(a, b);
    }
  }

  lemma ReleaseDrops(s: Store, w: InstanceWorker, ch: Choice)
    requires w.Releasing? && TenderInv(s, w)
    ensures w.n in s.instances
    ensures StepTender(s, w, ch).0 ==
      if ch.outcome.Failed? || !CurrentInstance(s, w.n, w.local.version) then s else DropInstance(s, w.n)
  {
  }

  /** A step that anybody takes from a state with right lists makes them wrong exactly in these cases. */
  lemma StepBreaks(s: State, e: Event)
    requires Inv(s) && Coherent(s.store)
    ensures Coherent(Step(s, e).store) <==> !Breaks(s, e)
  {
    hide StoreInv, DeployerInv, TenderInv, InstancesOk, OneInstanceEach, ConfigsOk, Coherent, Gentle, Persistent,
      Advances, Listed, StepDeployer, StepTender, StepEnvironment;
    var a, b := s.store, Step(s, e).store;
    StepKeeps(s, e);
    StoreParts(b);
    if e.StepDeployment? {
      DeployerBreaks(s, e.choice);
    } else if e.StepInstance? {
      TenderBreaks(s, e.choice);
    } else if e.RemoveInstance? && e.n in a.instances && !a.instances[e.n].finalizer {
      RemovalDrops(a, e.n);
      DropDecides(a, e.n);
      SameCoherence(DropInstance(a, e.n), b);
    } else if e.Crash? || e.StartDeployment? || e.StartInstance? {
      assert b == a;
    } else {
      EnvironmentQuiet(a, e);
      GentleKeepsCoherent(a, b);
    }
  }

  lemma RemovalDrops(s: Store, n: ObjectReference)
    requires n in s.instances && !s.instances[n].finalizer
    ensures StepEnvironment(s, RemoveInstance(n)) == DropInstance(s, n).(removed := s.removed + {n})
  {
  }

  lemma SameCoherence(a: Store, b: Store)
    requires a.instances == b.instances && a.configs == b.configs
    ensures Coherent(a) <==> Coherent(b)
  {
  }

  ghost predicate AlwaysCoherent(events: seq<Event>) {
    forall i :: 0 <= i <= |events| ==> Coherent(After(events[..i]))
  }

  ghost predicate NeverBreaks(events: seq<Event>) {
    forall i :: 0 <= i < |events| ==> !Breaks(Run(INIT, events[..i]), events[i])
  }

  /** Over all runs, direct deletions included: the usage lists are right throughout the run exactly if none of its
      steps breaks them. */
  lemma {:induction false} CoherentThroughout(events: seq<Event>)
    ensures AlwaysCoherent(events) <==> NeverBreaks(events)
  {
    hide Step, Breaks, Coherent, Inv;
    if events == [] {
      EmptyIsCoherent();
      assert events[..0] == [];
    } else {
      var init, last := events[..|events| - 1], events[|events| - 1];
      CoherentThroughout(init);
      SplitLast(events);
      AlwaysInv(init);
      if Coherent(After(init)) {
        StepBreaks(Run(INIT, init), last);
      }
    }
  }

  lemma SplitLast(events: seq<Event>)
    requires events != []
    ensures var init, last := events[..|events| - 1], events[|events| - 1];
      && (AlwaysCoherent(events) <==> AlwaysCoherent(init) && Coherent(Step(Run(INIT, init), last).store))
      && (NeverBreaks(events) <==> NeverBreaks(init) && !Breaks(Run(INIT, init), last))
      && (AlwaysCoherent(init) ==> Coherent(After(init)))
  {
    hide Step, Breaks, Coherent;
    var init := events[..|events| - 1];
    assert forall i :: 0 <= i <= |init| ==> events[..i] == init[..i];
    assert init[..|init|] == init && events[..|events|] == events;
  }

  lemma EmptyIsCoherent()
    ensures Coherent(After([]))
  {
  }

  // ---- How a released Instance can be listed ----

  // A pass over its deployment lists the Instance `n` again, which was deleted directly and is about to be released.
  ghost predicate LateListed(s: State, e: Event, n: ObjectReference) {
    && e.StepDeployment? && s.deployer.SavingConfig? && s.deployer.n == n && !e.choice.outcome.Failed?
    && CurrentConfig(s.store, s.deployer.c, s.deployer.config.version)
    && s.tender.Releasing? && s.tender.n == n && n in s.store.removed
  }

  ghost predicate ReleasesListed(s: State) {
    s.tender.Releasing? && s.tender.n in s.store.instances && Listed(s.store, s.tender.n)
  }

  lemma UnlistingUnlists(s: State, ch: Choice)
    requires Inv(s) && !s.tender.Releasing?
    ensures !ReleasesListed(Step(s, StepInstance(ch)))
  {
    hide DeployerInv;
    if s.tender.Unlisting? && CurrentConfig(s.store, s.tender.local.config, s.tender.config.version) {
      RemovedOfDistinct(s.tender.config.instanceRefs, s.tender.n);
    }
  }

  lemma ReleasingEnds(s: State, ch: Choice)
    requires s.tender.Releasing?
    ensures !ReleasesListed(Step(s, StepInstance(ch)))
  {
  }

  // Only the last call of a pass puts an Instance on the list.
  lemma OnlyPassesList(s: Store, w: DeploymentWorker, ch: Choice, n: ObjectReference)
    requires DeployerInv(s, w) && InstancesOk(s) && n in s.instances && !Listed(s, n)
    requires var b := StepDeployer(s, w, ch).0; n in b.instances && Listed(b, n)
    ensures w.SavingConfig? && w.n == n && !ch.outcome.Failed? && CurrentConfig(s, w.c, w.config.version)
  {
    hide DeployerInv;
    if w.Writing? {
      WritesListNothing(s, w, ch, n);
    } else if w.SavingConfig? {
      SavingLists(s, w, ch, n);
    } else if !w.DeletingInstance? {
      DeployerQuiet(s, w, ch);
    }
  }

  lemma SavingLists(s: Store, w: DeploymentWorker, ch: Choice, n: ObjectReference)
    requires DeployerInv(s, w) && w.SavingConfig? && n in s.instances && !Listed(s, n)
    ensures var b := StepDeployer(s, w, ch).0;
      n in b.instances && Listed(b, n) ==>
        w.n == n && !ch.outcome.Failed? && CurrentConfig(s, w.c, w.config.version)
  {
  }

  lemma WritesListNothing(s: Store, w: DeploymentWorker, ch: Choice, n: ObjectReference)
    requires DeployerInv(s, w) && InstancesOk(s) && w.Writing? && n in s.instances && !Listed(s, n)
    ensures var b := StepDeployer(s, w, ch).0; n in b.instances && !Listed(b, n)
  {
  }

  lemma OthersList(s: Store, e: Event, n: ObjectReference)
    requires n in s.instances && !Listed(s, n)
    ensures var b := StepEnvironment(s, e); n in b.instances ==> !Listed(b, n)
  {
  }

  // A pass over a live deployment only comes across a marked Instance if it was deleted directly.
  lemma MarkedWasRemoved(s: State)
    requires Inv(s) && s.deployer.SavingConfig? && s.tender.Releasing? && s.tender.n == s.deployer.n
    ensures s.deployer.n in s.store.removed
  {
    assert InstanceOk(s.store, s.tender.n);
  }

  lemma ReleasingIsThere(s: State)
    requires Inv(s) && s.tender.Releasing?
    ensures s.tender.n in s.store.instances
  {
  }

  lemma StepLists(s: State, e: Event)
    requires Inv(s) && ReleasesListed(Step(s, e))
    ensures s.tender.Releasing? && s.tender == Step(s, e).tender && (ReleasesListed(s) || LateListed(s, e, s.tender.n))
  {
    hide Inv, StepDeployer, StepTender, StepEnvironment, Listed, DeployerInv;
    if e.StepInstance? {
      if s.tender.Releasing? {
        ReleasingEnds(s, e.choice);
      } else {
        UnlistingUnlists(s, e.choice);
      }
    } else {
      ReleasingIsThere(s);
      if !ReleasesListed(s) {
        if e.StepDeployment? {
          InvParts(s);
          OnlyPassesList(s.store, s.deployer, e.choice, s.tender.n);
          MarkedWasRemoved(s);
        } else {
          OthersList(s.store, e, s.tender.n);
        }
      }
    }
  }

  lemma InvParts(s: State)
    requires Inv(s)
    ensures DeployerInv(s.store, s.deployer) && InstancesOk(s.store)
  {
  }

  /** An Instance about to be released can only be on the list of its target if it was deleted directly, and a pass over
      its deployment has listed it between its removal from the list and now. */
  lemma {:induction false} ReleasedIsListedLate(events: seq<Event>)
    requires ReleasesListed(Run(INIT, events))
    ensures exists i :: 0 <= i < |events| && LateListed(Run(INIT, events[..i]), events[i], Run(INIT, events).tender.n)
  {
    hide Inv, Step, ReleasesListed, LateListed;
    if events == [] {
      StartsResting();
    } else {
      var init, last := events[..|events| - 1], events[|events| - 1];
      AlwaysInv(init);
      StepLists(Run(INIT, init), last);
      var n := Run(INIT, events).tender.n;
      if ReleasesListed(Run(INIT, init)) {
        ReleasedIsListedLate(init);
        var i :| 0 <= i < |init| && LateListed(Run(INIT, init[..i]), init[i], n);
        assert init[..i] == events[..i];
      }
    }
  }

  lemma StartsResting()
    ensures !ReleasesListed(INIT)
  {
  }

  // ---- A run in which a deleted Instance comes back ----

  const GONE := PLACED.store.(instances := map[], removed := {N})
  const TOLD := CALM.(id := "other")
  const BACK := Write(Some(N), None, BLANK)

  // The Instance is deleted before it has its finalizer.
  lemma Remove() returns (events: seq<Event>)
    ensures LeadsTo(events, State(GONE, Idle, Resting))
  {
    events := WriteList();
    events := Go(events, State(PLACED.store, Finishing(D, NAMED), Resting), StepDeployment(CALM));
    events := Go(events, PLACED, RemoveInstance(N));
    assert PLACED.store.instances - {N} == map[] && PLACED.store.removed + {N} == {N};
  }

  /** An Instance that is deleted directly before it has its finalizer stays on the list of its target. */
  lemma EarlyRemovalLeavesReference() returns (events: seq<Event>)
    ensures N in After(events).removed && !Coherent(After(events))
  {
    events := Remove();
    assert N in GONE.configs[C].instanceRefs;
  }

  const MISSED := LISTING.(instances := map[], removed := {N})

  // The Instance is deleted in the middle of a pass over its deployment.
  lemma RemoveMeanwhile() returns (events: seq<Event>)
    ensures LeadsTo(events, State(MISSED, SAVING, Resting))
  {
    events := ReadList();
    events := Go(events, State(LISTING, SAVING, Resting), RemoveInstance(N));
    assert LISTING.instances - {N} == map[] && LISTING.removed + {N} == {N};
  }

  /** Then the pass lists an Instance that has vanished. */
  lemma VanishedIsListed() returns (events: seq<Event>)
    ensures N in After(events).removed && !Coherent(After(events))
  {
    events := RemoveMeanwhile();
    LateListing(MISSED, SAVING, CALM);
    events := Go(events, State(MISSED, SAVING, Resting), StepDeployment(CALM));
  }

  // The next pass finds it gone.
  lemma Miss() returns (events: seq<Event>)
    ensures LeadsTo(events, State(GONE, Choosing(D, NAMED, BACK), Resting))
  {
    events := Remove();
    events := Go(events, State(GONE, Idle, Resting), StartDeployment(D));
    events := Go(events, State(GONE, Fetched(D, NAMED), Resting), StepDeployment(CALM));
    events := Go(events, State(GONE, Loading(D, NAMED, N), Resting), StepDeployment(CALM));
  }

  /** An Instance that is deleted directly is created again under its old name, with another ID. */
  lemma RemovedComesBack() returns (before: seq<Event>, events: seq<Event>)
    ensures N in After(before).instances && After(before).instances[N].id == "id"
    ensures N in After(events).instances && After(events).instances[N].id == "other"
  {
    before := Create();
    events := Miss();
    var w := BACK.(instance := BLANK.(config := C));
    events := Go(events, State(GONE, Choosing(D, NAMED, BACK), Resting), StepDeployment(TOLD));
    events := Go(events, State(GONE, Drawing(D, NAMED, w), Resting), StepDeployment(TOLD));
    var made := BLANK.(config := C, owner := "d", id := "other");
    events := Go(events, State(GONE, Writing(D, NAMED, BACK.(instance := made)), Resting), StepDeployment(TOLD));
  }
}
