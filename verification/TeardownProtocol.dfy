// The teardown of an Instance, call by call, is what the protocol says of the instance controller.
module TeardownProtocol {
  import opened Common
  import opened References
  import opened Lifecycle
  import opened LifecycleInvariant
  import opened LifecycleTheorems
  import TeardownTheorems
  import Teardown

  type World = Teardown.World
  type Replies = Teardown.Replies

  const STAGES := Teardown.STAGES

  // The world of the teardown shows what is stored about the marked Instance `n` with target `c`.
  ghost predicate Shows(s: Store, n: ObjectReference, c: ObjectReference, w: World) {
    && (w.finalizer <==> n in s.instances)
    && (w.config <==> c in s.configs)
    && (n in s.instances ==> s.instances[n].deleting && s.instances[n].finalizer && s.instances[n].config == c)
    && (c in s.configs ==>
          NoDuplicates(s.configs[c].instanceRefs) && (w.listed <==> n in s.configs[c].instanceRefs))
  }

  // Nothing else is touched.
  ghost predicate OnlyTouches(a: Store, b: Store, n: ObjectReference, c: ObjectReference) {
    && b.deployments == a.deployments && b.used == a.used && b.registered == a.registered && b.removed == a.removed
    && b.instances - {n} == a.instances - {n} && b.configs - {c} == a.configs - {c}
  }

  // ---- A pass as a sequence of decisions ----

  function Decide(outcome: Outcome, write: bool, done: bool): Choice {
    Choice(outcome, write, done, ObjectReference("", ""), "", ObjectReference("", ""))
  }

  function Decided(s: Store, w: InstanceWorker, choices: seq<Choice>): TenderStep
    decreases |choices|
  {
    if choices == [] then (s, w)
    else
      var (s', w') := StepTender(s, w, choices[0]);
      Decided(s', w', choices[1..])
  }

  // The pass finds dependent `k` gone and clears its reference in the status.
  predicate Clears(w: World, k: nat, replies: Replies)
    requires k < |w.chain|
  {
    && k != Teardown.NAMESPACE && w.chain[k].ref && replies(Teardown.Get(k)).outcome.Applied?
    && Teardown.Seen(w.chain[k].presence, replies(Teardown.Get(k))).Gone?
  }

  // From stage `k` on; at the end of a pass the status may be written once more.
  function Decisions(w: World, k: nat, replies: Replies): seq<Choice>
    requires Teardown.Shaped(w) && k <= STAGES
    decreases STAGES - k
  {
    var end := Decide(replies(Teardown.SaveStatus).outcome, true, false);
    if k == STAGES then
      [Decide(replies(Teardown.GetConfig).outcome, false, true),
       Decide(replies(Teardown.UpdateConfig).outcome, false, false),
       Decide(replies(Teardown.DropFinalizer).outcome, false, false),
       end]
    else
      var (w', v) := Teardown.Ensure(w, k, replies);
      var clear := Decide(replies(Teardown.Clear(k)).outcome, true, false);
      if v.Deleted? then (if Clears(w, k, replies) then [clear] else []) + Decisions(w', k + 1, replies)
      else [if Clears(w, k, replies) then clear else Decide(Applied, false, false), end]
  }

  function PassFrom(w: World, k: nat, replies: Replies): World
    requires Teardown.Shaped(w) && k <= STAGES
  {
    var (w', v) := Teardown.Chain(w, k, replies);
    if v.Deleted? then Teardown.Release(w', replies) else w'
  }

  // ---- Every pass is a run of the protocol ----

  // A stage clears the reference exactly if its dependent is gone, and goes on exactly if that succeeds.
  lemma StageFacts(w: World, k: nat, replies: Replies)
    requires Teardown.Shaped(w) && k < STAGES
    ensures var (b, v) := Teardown.Ensure(w, k, replies);
            && b.finalizer == w.finalizer && b.config == w.config && b.listed == w.listed
            && (Clears(w, k, replies) ==> (v.Deleted? <==> replies(Teardown.Clear(k)).outcome.Applied?))
  {
    hide Teardown.MarkSecrets;
    TeardownTheorems.EnsureIsLocal(w, k, replies);
  }

  // The status is written.
  lemma ClearShows(s: Store, n: ObjectReference, local: Instance, w: World, outcome: Outcome)
    requires Shows(s, n, local.config, w) && w.finalizer && CurrentInstance(s, n, local.version)
    ensures var (b, worker) := StepTender(s, Tearing(n, local), Decide(outcome, true, false));
            && Shows(b, n, local.config, w) && OnlyTouches(s, b, n, local.config)
            && (outcome.Applied? ==> worker == Tearing(n, local.(version := s.clock)) && CurrentInstance(b, n, s.clock))
            && (!outcome.Applied? ==> worker == Ending(n, local))
  {
  }

  lemma EndShows(s: Store, n: ObjectReference, local: Instance, c: ObjectReference, w: World, ch: Choice)
    requires Shows(s, n, c, w)
    ensures var (b, worker) := StepTender(s, Ending(n, local), ch);
            worker == Resting && Shows(b, n, c, w) && OnlyTouches(s, b, n, c)
  {
  }

  lemma TouchesTransitively(a: Store, b: Store, d: Store, n: ObjectReference, c: ObjectReference)
    requires OnlyTouches(a, b, n, c) && OnlyTouches(b, d, n, c)
    ensures OnlyTouches(a, d, n, c)
  {
  }

  lemma ReadShows(s: Store, n: ObjectReference, local: Instance, w: World, outcome: Outcome)
    requires Shows(s, n, local.config, w)
    ensures StepTender(s, Tearing(n, local), Decide(outcome, false, true)) ==
      if outcome.Applied? && w.config then (s, Unlisting(n, local, s.configs[local.config])) else (s, Ending(n, local))
  {
  }

  lemma UnlistShows(s: Store, n: ObjectReference, local: Instance, w: World, outcome: Outcome)
    requires Shows(s, n, local.config, w) && w.config
    ensures var (b, worker) := StepTender(s, Unlisting(n, local, s.configs[local.config]),
      Decide(outcome, false, false));
            && worker == (if outcome.Applied? then Releasing(n, local) else Ending(n, local))
            && Shows(b, n, local.config, if outcome.Failed? then w else w.(listed := false))
            && OnlyTouches(s, b, n, local.config) && b.instances == s.instances
  {
    RemovedOfDistinct(s.configs[local.config].instanceRefs, n);
  }

  lemma DropShows(s: Store, n: ObjectReference, local: Instance, w: World, outcome: Outcome)
    requires Shows(s, n, local.config, w) && w.finalizer && CurrentInstance(s, n, local.version)
    ensures var (b, worker) := StepTender(s, Releasing(n, local), Decide(outcome, false, false));
            && worker == Ending(n, local)
            && Shows(b, n, local.config, if outcome.Failed? then w else w.(finalizer := false))
            && OnlyTouches(s, b, n, local.config)
  {
  }

  lemma DecidedNext(s: Store, w: InstanceWorker, ch: Choice, rest: seq<Choice>)
    ensures var (b, worker) := StepTender(s, w, ch); Decided(s, w, [ch] + rest) == Decided(b, worker, rest)
  {
    assert ([ch] + rest)[1..] == rest;
  }

  lemma {:induction false} RestingStays(s: Store, choices: seq<Choice>)
    ensures Decided(s, Resting, choices) == (s, Resting)
    decreases |choices|
  {
    if choices != [] {
      RestingStays(s, choices[1..]);
    }
  }

  // Whatever is decided after the worker has come to the end of its pass.
  lemma EndingRests(s: Store, n: ObjectReference, local: Instance, c: ObjectReference, w: World, choices: seq<Choice>)
    requires Shows(s, n, c, w) && choices != []
    ensures var (b, worker) := Decided(s, Ending(n, local), choices);
            worker == Resting && Shows(b, n, c, w) && OnlyTouches(s, b, n, c)
  {
    hide Shows, OnlyTouches, StepTender;
    EndShows(s, n, local, c, w, choices[0]);
    RestingStays(StepTender(s, Ending(n, local), choices[0]).0, choices[1..]);
  }

  // The usage list and the finalizer.
  lemma ReleaseShows(s: Store, n: ObjectReference, local: Instance, w: World, replies: Replies)
    requires Teardown.Shaped(w) && w.finalizer && Shows(s, n, local.config, w) && CurrentInstance(s, n, local.version)
    ensures var (b, worker) := Decided(s, Tearing(n, local), Decisions(w, STAGES, replies));
            && worker == Resting && Shows(b, n, local.config, Teardown.Release(w, replies))
            && OnlyTouches(s, b, n, local.config)
  {
    hide Shows, OnlyTouches, StepTender, Decided;
    var c := local.config;
    var d := Decisions(w, STAGES, replies);
    var get, update, drop := replies(Teardown.GetConfig).outcome, replies(Teardown.UpdateConfig).outcome,
                             replies(Teardown.DropFinalizer).outcome;
    assert d == [d[0]] + d[1..] && d[1..] == [d[1]] + d[2..] && d[2..] == [d[2]] + d[3..];
    DecidedNext(s, Tearing(n, local), d[0], d[1..]);
    ReadShows(s, n, local, w, get);
    if !get.Applied? || !w.config {
      EndingRests(s, n, local, c, w, d[1..]);
    } else {
      ConfigIsThere(s, n, c, w);
      var unlisting := Unlisting(n, local, s.configs[c]);
      var t := StepTender(s, unlisting, d[1]).0;
      DecidedNext(s, unlisting, d[1], d[2..]);
      UnlistShows(s, n, local, w, update);
      var v := if update.Failed? then w else w.(listed := false);
      if !update.Applied? {
        EndingRests(t, n, local, c, v, d[2..]);
        TouchesTransitively(s, t, Decided(t, Ending(n, local), d[2..]).0, n, c);
      } else {
        var u := StepTender(t, Releasing(n, local), d[2]).0;
        DecidedNext(t, Releasing(n, local), d[2], d[3..]);
        DropShows(t, n, local, v, drop);
        EndingRests(u, n, local, c, if drop.Failed? then v else v.(finalizer := false), d[3..]);
        TouchesTransitively(s, t, u, n, c);
        TouchesTransitively(s, u, Decided(u, Ending(n, local), d[3..]).0, n, c);
      }
    }
  }

  lemma ConfigIsThere(s: Store, n: ObjectReference, c: ObjectReference, w: World)
    requires Shows(s, n, c, w) && w.config
    ensures c in s.configs
  {
  }

  // The pass from stage `k` on.
  lemma {:induction false} ChainShows(s: Store, n: ObjectReference, local: Instance, w: World, k: nat, replies: Replies)
    requires Teardown.Shaped(w) && k <= STAGES
    requires w.finalizer && Shows(s, n, local.config, w) && CurrentInstance(s, n, local.version)
    ensures var (b, worker) := Decided(s, Tearing(n, local), Decisions(w, k, replies));
            && worker == Resting && Shows(b, n, local.config, PassFrom(w, k, replies))
            && OnlyTouches(s, b, n, local.config)
    decreases STAGES - k
  {
    hide Shows, OnlyTouches, StepTender, Decided, Clears, Teardown.Ensure, Teardown.Release;
    var c := local.config;
    if k == STAGES {
      ReleaseShows(s, n, local, w, replies);
    } else {
      var (b, v) := Teardown.Ensure(w, k, replies);
      StageFacts(w, k, replies);
      SameShown(s, n, c, w, b);
      var d := Decisions(w, k, replies);
      var clear := replies(Teardown.Clear(k)).outcome;
      if v.Deleted? && !Clears(w, k, replies) {
        assert d == Decisions(b, k + 1, replies);
        ChainShows(s, n, local, b, k + 1, replies);
      } else if v.Deleted? {
        var next := local.(version := s.clock);
        ClearShows(s, n, local, b, clear);
        var t := StepTender(s, Tearing(n, local), d[0]).0;
        DecidedNext(s, Tearing(n, local), d[0], Decisions(b, k + 1, replies));
        ChainShows(t, n, next, b, k + 1, replies);
        TouchesTransitively(s, t, Decided(t, Tearing(n, next), Decisions(b, k + 1, replies)).0, n, c);
      } else {
        var t := StepTender(s, Tearing(n, local), d[0]).0;
        assert d == [d[0]] + d[1..];
        DecidedNext(s, Tearing(n, local), d[0], d[1..]);
        if Clears(w, k, replies) {
          ClearShows(s, n, local, b, clear);
        } else {
          StopShows(s, n, local, d[0]);
          NothingTouched(s, n, c);
        }
        EndingRests(t, n, local, c, b, d[1..]);
        TouchesTransitively(s, t, Decided(t, Ending(n, local), d[1..]).0, n, c);
      }
    }
  }

  lemma StopShows(s: Store, n: ObjectReference, local: Instance, ch: Choice)
    requires !ch.write && !ch.done
    ensures StepTender(s, Tearing(n, local), ch) == (s, Ending(n, local))
  {
  }

  lemma SameShown(s: Store, n: ObjectReference, c: ObjectReference, a: World, b: World)
    requires Shows(s, n, c, a) && b.finalizer == a.finalizer && b.config == a.config && b.listed == a.listed
    ensures Shows(s, n, c, b)
  {
  }

  lemma NothingTouched(s: Store, n: ObjectReference, c: ObjectReference)
    ensures OnlyTouches(s, s, n, c)
  {
  }

  // ---- In the protocol ----

  function Steps(choices: seq<Choice>): seq<Event> {
    seq(|choices|, i requires 0 <= i < |choices| => StepInstance(choices[i]))
  }

  lemma {:induction false} StepsRun(s: State, choices: seq<Choice>)
    ensures var (b, worker) := Decided(s.store, s.tender, choices);
      Run(s, Steps(choices)) == State(b, s.deployer, worker)
    decreases |choices|
  {
    hide StepTender, StepDeployer;
    if choices != [] {
      var rest := choices[1..];
      StepsRun(Step(s, StepInstance(choices[0])), rest);
      RunFrom(s, StepInstance(choices[0]), Steps(rest));
      assert Steps(choices) == [StepInstance(choices[0])] + Steps(rest);
    }
  }

  lemma {:induction false} RunFrom(s: State, e: Event, events: seq<Event>)
    ensures Run(s, [e] + events) == Run(Step(s, e), events)
    decreases |events|
  {
    hide Step;
    if events == [] {
      assert [e] + events == [e] && [e][..0] == [];
    } else {
      var init := events[..|events| - 1];
      RunFrom(s, e, init);
      assert ([e] + events)[..|events|] == [e] + init;
    }
  }

  lemma TearingFacts(s: State)
    requires Inv(s) && s.tender.Tearing?
    ensures var n, c := s.tender.n, s.tender.local.config;
            && n in s.store.instances && s.store.instances[n].deleting && s.store.instances[n].finalizer
            && s.store.instances[n].config == c
            && (c in s.store.configs ==> NoDuplicates(s.store.configs[c].instanceRefs))
  {
    assert s.tender.local.config in s.store.configs ==> ListOk(s.store, s.tender.local.config);
  }

  /** Wherever the protocol stands before the teardown of an Instance, every pass of the teardown, with whatever
      replies, is a run of the instance controller in the protocol: it ends at rest, what is stored of the Instance and
      of the list of its target is what the pass leaves, and nothing else is touched. */
  lemma PassIsRun(s: State, w: World, replies: Replies)
    requires Inv(s) && s.tender.Tearing? && CurrentInstance(s.store, s.tender.n, s.tender.local.version)
    requires Teardown.Shaped(w) && Shows(s.store, s.tender.n, s.tender.local.config, w)
    ensures var t := Run(s, Steps(Decisions(w, 0, replies)));
            && Inv(t) && t.deployer == s.deployer && t.tender == Resting
            && Shows(t.store, s.tender.n, s.tender.local.config, Teardown.Pass(w, replies))
            && OnlyTouches(s.store, t.store, s.tender.n, s.tender.local.config)
  {
    hide Inv, OnlyTouches, Decided, Decisions, Step, Teardown.Chain, Teardown.Release;
    TearingFacts(s);
    ChainShows(s.store, s.tender.n, s.tender.local, w, 0, replies);
    StepsRun(s, Decisions(w, 0, replies));
    RunKeeps(s, Steps(Decisions(w, 0, replies)));
  }

  /** The teardown can start from every such state. */
  lemma SomethingIsShown(s: State, chain: seq<Teardown.Dependent>, secrets: seq<Teardown.Presence>) returns (w: World)
    requires Inv(s) && s.tender.Tearing? && |chain| == STAGES
    ensures Teardown.Shaped(w) && w.chain == chain && w.secrets == secrets && w.finalizer
    ensures Shows(s.store, s.tender.n, s.tender.local.config, w)
  {
    hide Inv;
    TearingFacts(s);
    var n, c := s.tender.n, s.tender.local.config;
    var listed := c in s.store.configs && n in s.store.configs[c].instanceRefs;
    w := Teardown.World(chain, secrets, c in s.store.configs, listed, true);
  }
}
