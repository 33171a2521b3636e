// What the teardown of an Instance guarantees over many passes.
module TeardownTheorems {
  import opened Common
  import opened Teardown

  // Dependent `k` still holds up the teardown.
  predicate Blocking(w: World, k: nat)
    requires k < |w.chain|
  {
    w.chain[k].ref && !w.chain[k].presence.Gone?
  }

  ghost predicate ClearBelow(w: World, k: nat)
    requires k <= |w.chain|
  {
    forall j :: 0 <= j < k ==> w.chain[j].ref ==> w.chain[j].presence.Gone?
  }

  // ---- Progress, call by call ----

  // Nothing comes back to life, no reference is set, and the usage list and the finalizer are only given up.
  ghost predicate Onward(a: World, b: World) {
    && |a.chain| == |b.chain| && |a.secrets| == |b.secrets| && a.config == b.config
    && (forall k :: 0 <= k < |a.chain| ==>
      Step(a.chain[k].presence, b.chain[k].presence) && (b.chain[k].ref ==> a.chain[k].ref))
    && (forall i :: 0 <= i < |a.secrets| ==> Step(a.secrets[i], b.secrets[i]))
    && (b.listed ==> a.listed) && (b.finalizer ==> a.finalizer)
  }

  predicate Step(p: Presence, q: Presence) {
    p == q || q.Gone? || (p.Live? && q.Marked?)
  }

  // Objects are only marked if all dependents before them are out of the way, the context only after its secrets.
  ghost predicate Ordered(w: World)
    requires Shaped(w)
  {
    && (forall k :: 0 <= k < STAGES && w.chain[k].ref && w.chain[k].presence.Marked? ==> ClearBelow(w, k))
    && (w.chain[CONTEXT].ref && w.chain[CONTEXT].presence.Marked? ==> SecretsDone(w.secrets))
    && (!w.finalizer ==> !w.listed && ClearBelow(w, STAGES) && forall k :: 0 <= k < STAGES && k != NAMESPACE ==>
      !w.chain[k].ref)
  }

  ghost predicate SecretsDone(secrets: seq<Presence>) {
    forall i :: 0 <= i < |secrets| ==> !secrets[i].Live?
  }

  lemma {:induction false} MarkSecretsMarks(w: World, n: nat, replies: Replies)
    requires n <= |w.secrets|
    ensures var (b, ok) := MarkSecrets(w, n, replies);
            && (forall i :: 0 <= i < |w.secrets| ==> Step(w.secrets[i], b.secrets[i]))
            && (forall i :: n <= i < |w.secrets| ==> b.secrets[i] == w.secrets[i])
            && (ok ==> forall i :: 0 <= i < n ==> !b.secrets[i].Live?)
  {
    if n > 0 {
      MarkSecretsMarks(w, n - 1, replies);
    }
  }

  // What becomes of secret `i` depends on its own calls alone.
  predicate SecretTried(i: nat, p: Presence, q: Presence, replies: Replies) {
    if !replies(GetSecret(i)).outcome.Applied? then q == p
    else if p.Live? then q == if replies(DeleteSecret(i)).outcome.Failed? then Live else Marked
    else q == if p.Marked? && replies(GetSecret(i)).vanished then Gone else p
  }

  predicate SecretFine(i: nat, p: Presence, replies: Replies) {
    replies(GetSecret(i)).outcome.Applied? && (p.Live? ==> replies(DeleteSecret(i)).outcome.Applied?)
  }

  /** All secrets are tried, and the result is an error exactly if one of the calls that were made failed. */
  lemma {:induction false} EverySecretIsTried(w: World, n: nat, replies: Replies)
    requires n <= |w.secrets|
    ensures var (b, ok) := MarkSecrets(w, n, replies);
            && |b.secrets| == |w.secrets|
            && (forall i :: 0 <= i < n ==> SecretTried(i, w.secrets[i], b.secrets[i], replies))
            && (ok <==> forall i :: 0 <= i < n ==> SecretFine(i, w.secrets[i], replies))
  {
    hide MarkSecrets, SecretTried, SecretFine;
    if n > 0 {
      EverySecretIsTried(w, n - 1, replies);
      OneMoreSecret(w, n, replies);
    } else {
      NoSecret(w, replies);
    }
  }

  lemma NoSecret(w: World, replies: Replies)
    ensures MarkSecrets(w, 0, replies) == (w, true)
  {
  }

  lemma OneMoreSecret(w: World, n: nat, replies: Replies)
    requires 0 < n <= |w.secrets|
    ensures var ((a, before), (b, ok)) := (MarkSecrets(w, n - 1, replies), MarkSecrets(w, n, replies));
            && |a.secrets| == |b.secrets| == |w.secrets|
            && b.secrets == a.secrets[n - 1 := b.secrets[n - 1]]
            && SecretTried(n - 1, w.secrets[n - 1], b.secrets[n - 1], replies)
            && (ok <==> before && SecretFine(n - 1, w.secrets[n - 1], replies))
  {
    MarkSecretsMarks(w, n - 1, replies);
    var a := MarkSecrets(w, n - 1, replies).0;
    assert a.secrets[n - 1 := a.secrets[n - 1]] == a.secrets;
  }

  // What one stage of the chain does, whatever happens to its calls.
  // Stage `k` changes nothing but its own dependent and, for the context, the secrets.
  ghost predicate LocalTo(w: World, b: World, k: nat)
    requires Shaped(w) && k < STAGES
  {
    && b == w.(chain := b.chain, secrets := b.secrets) && Shaped(b)
    && b.chain == w.chain[k := b.chain[k]]
    && Step(w.chain[k].presence, b.chain[k].presence) && (b.chain[k].ref ==> w.chain[k].ref)
    && |b.secrets| == |w.secrets| && (forall i :: 0 <= i < |w.secrets| ==> Step(w.secrets[i], b.secrets[i]))
    && (k == CONTEXT && w.chain[k].presence.Live? && b.chain[k].presence.Marked? ==> SecretsDone(b.secrets))
  }

  lemma DeletedIsCleared(w: World, k: nat, replies: Replies)
    requires Shaped(w) && k < STAGES && k != NAMESPACE
    ensures var (b, v) := EnsureReferenced(w, k, replies); v.Deleted? ==> Shaped(b) && !b.chain[k].ref
  {
    hide MarkSecrets;
  }

  lemma ContextIsLocal(w: World, replies: Replies)
    requires Shaped(w)
    ensures var b := EnsureReferenced(w, CONTEXT, replies).0;
            Shaped(b) && LocalTo(w, b, CONTEXT)
  {
    hide MarkSecrets;
    var k := CONTEXT;
    var seen := Put(w, k, w.chain[k].(presence := Seen(w.chain[k].presence, replies(Get(k)))));
    MarkSecretsMarks(seen, |seen.secrets|, replies);
    var marked := MarkSecrets(seen, |seen.secrets|, replies).0;
    assert marked.chain == seen.chain;
    MarkingIsLocal(marked, k, replies);
  }

  lemma MarkingIsLocal(w: World, k: nat, replies: Replies)
    requires Shaped(w) && k < STAGES
    ensures var b := Marking(w, k, replies).0;
      b == w || (b == Put(w, k, w.chain[k].(presence := Marked)) && w.chain[k].presence.Live?)
  {
  }

  lemma EnsureIsLocal(w: World, k: nat, replies: Replies)
    requires Shaped(w) && k < STAGES
    ensures var (b, v) := Ensure(w, k, replies);
            LocalTo(w, b, k) && (v.Deleted? ==> !Blocking(b, k) && (k != NAMESPACE ==> !b.chain[k].ref))
  {
    hide EnsureReferenced, EnsureNamespace, LocalTo;
    if k == CONTEXT {
      ContextIsLocal(w, replies);
      DeletedIsCleared(w, k, replies);
    } else if k == NAMESPACE {
      NamespaceIsLocal(w, replies);
    } else {
      ReferencedIsLocal(w, k, replies);
    }
  }

  lemma NamespaceIsLocal(w: World, replies: Replies)
    requires Shaped(w)
    ensures var (b, v) := EnsureNamespace(w, replies);
      Shaped(b) && LocalTo(w, b, NAMESPACE) && (v.Deleted? ==> !Blocking(b, NAMESPACE))
  {
    hide SecretsDone;
    var k := NAMESPACE;
    var seen := Put(w, k, w.chain[k].(presence := Seen(w.chain[k].presence, replies(Get(k)))));
    MarkingIsLocal(seen, k, replies);
  }

  lemma ReferencedIsLocal(w: World, k: nat, replies: Replies)
    requires Shaped(w) && k < STAGES && k != CONTEXT
    ensures var (b, v) := EnsureReferenced(w, k, replies);
      Shaped(b) && LocalTo(w, b, k) && (v.Deleted? ==> !b.chain[k].ref)
  {
    hide MarkSecrets;
  }

  // ---- What exactly one stage does with its dependent ----

  // A stage with a dependent to look for reads it; for the namespace it needs a client of the target cluster first.
  predicate Reads(w: World, k: nat, replies: Replies)
    requires Shaped(w) && k < STAGES
  {
    && w.chain[k].ref && replies(Get(k)).outcome.Applied?
    && (k == NAMESPACE ==> replies(GetClient).outcome.Applied?)
  }

  predicate FindsGone(w: World, k: nat, replies: Replies)
    requires Shaped(w) && k < STAGES
  {
    Reads(w, k, replies) && (w.chain[k].presence.Gone? || (w.chain[k].presence.Marked? && replies(Get(k)).vanished))
  }

  // The secrets of the context come first.
  predicate SecretsTried(w: World, k: nat, replies: Replies) {
    k == CONTEXT ==> forall i :: 0 <= i < |w.secrets| ==> SecretFine(i, w.secrets[i], replies)
  }

  /** A dependent is marked exactly if it was found live and its delete had an effect, after all secrets in the case of
      the context; a reference is cleared exactly if its dependent was found gone and the write of the status, or the
      one after it that records the error, had an effect; the chain goes on exactly if nothing is left to do and the
      reference is cleared, and the pass fails exactly if one of the calls that were needed did. */
  lemma StageExactly(w: World, k: nat, replies: Replies)
    requires Shaped(w) && k < STAGES
    ensures var (b, v) := Ensure(w, k, replies);
      && (b.chain[k].presence.Marked? <==>
            || (w.chain[k].presence.Marked? && !FindsGone(w, k, replies))
            || (w.chain[k].presence.Live? && Reads(w, k, replies) && SecretsTried(w, k, replies) &&
                !replies(Delete(k)).outcome.Failed?))
      && (b.chain[k].presence.Gone? <==> w.chain[k].presence.Gone? || FindsGone(w, k, replies))
      && (b.chain[k].ref <==>
            && w.chain[k].ref
            && (k == NAMESPACE || !FindsGone(w, k, replies) ||
                (replies(Clear(k)).outcome.Failed? && replies(SaveStatus).outcome.Failed?)))
      && (v.Deleted? <==>
            || !w.chain[k].ref
            || (FindsGone(w, k, replies) && (k == NAMESPACE || replies(Clear(k)).outcome.Applied?)))
      && (v.Waiting? <==>
            && Reads(w, k, replies) && !FindsGone(w, k, replies) && SecretsTried(w, k, replies)
            && (w.chain[k].presence.Live? ==> replies(Delete(k)).outcome.Applied?))
  {
    hide MarkSecrets;
    var seen := Put(w, k, w.chain[k].(presence := Seen(w.chain[k].presence, replies(Get(k)))));
    EverySecretIsTried(seen, |seen.secrets|, replies);
    var marked := MarkSecrets(seen, |seen.secrets|, replies).0;
    assert marked.chain == seen.chain;
  }

  /** The Instance is taken off the list exactly if the chain has come to its end, the config was read and its update
      had an effect; it is released exactly if that update was also reported, and the one that drops the finalizer had
      an effect. */
  lemma ReleasesExactly(w: World, replies: Replies)
    requires Shaped(w) && w.finalizer
    ensures var b, ends := Pass(w, replies), Chain(w, 0, replies).1.Deleted?;
      var config := ends && replies(GetConfig).outcome.Applied? && w.config;
      && (b.listed <==> w.listed && !(config && !replies(UpdateConfig).outcome.Failed?))
      && (!b.finalizer <==>
            config && replies(UpdateConfig).outcome.Applied? && !replies(DropFinalizer).outcome.Failed?)
  {
    hide Ensure;
    ChainKeepsRest(w, 0, replies);
  }

  lemma {:induction false} ChainKeepsRest(w: World, k: nat, replies: Replies)
    requires Shaped(w) && k <= STAGES
    ensures var b := Chain(w, k, replies).0; b.config == w.config && b.listed == w.listed && b.finalizer == w.finalizer
    decreases STAGES - k
  {
    hide Ensure;
    if k < STAGES {
      EnsureIsLocal(w, k, replies);
      ChainKeepsRest(Ensure(w, k, replies).0, k + 1, replies);
    }
  }

  lemma LocalKeepsOrder(w: World, b: World, k: nat)
    requires Shaped(w) && k < STAGES && ClearBelow(w, k) && w.finalizer && Ordered(w) && LocalTo(w, b, k)
    ensures Onward(w, b) && Ordered(b) && ClearBelow(b, k)
  {
  }

  // What one stage of the chain does, whatever happens to its calls.
  lemma EnsureProgress(w: World, k: nat, replies: Replies)
    requires Shaped(w) && k < STAGES && ClearBelow(w, k) && w.finalizer && Ordered(w)
    ensures var (b, v) := Ensure(w, k, replies);
            && Onward(w, b) && Ordered(b) && b.finalizer && b.listed == w.listed
            && (v.Deleted? ==> ClearBelow(b, k + 1) && (k != NAMESPACE ==> !b.chain[k].ref))
            && (forall j :: 0 <= j < STAGES && j != k ==> b.chain[j] == w.chain[j])
  {
    hide Ensure, Ordered, Onward, Step, SecretsDone;
    EnsureIsLocal(w, k, replies);
    LocalKeepsOrder(w, Ensure(w, k, replies).0, k);
  }

  lemma OnwardReflexive(w: World)
    ensures Onward(w, w)
  {
  }

  lemma {:induction false} ChainProgress(w: World, k: nat, replies: Replies)
    requires Shaped(w) && k <= STAGES && ClearBelow(w, k) && w.finalizer && Ordered(w)
    requires forall j :: 0 <= j < k && j != NAMESPACE ==> !w.chain[j].ref
    ensures var (b, v) := Chain(w, k, replies);
            && Onward(w, b) && Ordered(b) && b.finalizer && b.listed == w.listed
            && (v.Deleted? ==> ClearBelow(b, STAGES) && forall j :: 0 <= j < STAGES && j != NAMESPACE ==>
              !b.chain[j].ref)
    decreases STAGES - k
  {
    hide Ensure, Ordered;
    if k < STAGES {
      var (b, v) := Ensure(w, k, replies);
      EnsureProgress(w, k, replies);
      if v.Deleted? {
        ChainProgress(b, k + 1, replies);
      }
    } else {
      OnwardReflexive(w);
    }
  }

  lemma ReleaseProgress(w: World, replies: Replies)
    requires Shaped(w) && Ordered(w) && w.finalizer
    requires ClearBelow(w, STAGES) && forall j :: 0 <= j < STAGES && j != NAMESPACE ==> !w.chain[j].ref
    ensures Onward(w, Release(w, replies)) && Ordered(Release(w, replies))
  {
  }

  lemma OnwardTransitive(a: World, b: World, c: World)
    requires Onward(a, b) && Onward(b, c)
    ensures Onward(a, c)
  {
  }

  /** Whatever calls fail, a pass only moves forward and keeps the order of the chain. */
  lemma PassProgress(w: World, replies: Replies)
    requires Shaped(w) && Ordered(w)
    ensures Onward(w, Pass(w, replies)) && Ordered(Pass(w, replies))
  {
    hide Chain, Ordered, Onward, Release;
    OnwardReflexive(w);
    if w.finalizer {
      var (b, v) := Chain(w, 0, replies);
      ChainProgress(w, 0, replies);
      if v.Deleted? {
        ReleaseProgress(b, replies);
        OnwardTransitive(w, b, Release(b, replies));
      }
    }
  }

  // ---- Safety over all runs ----

  // Between passes, marked objects disappear one by one.
  datatype Event = Passes(replies: Replies) | Removed(k: nat) | SecretRemoved(i: nat)

  function Happen(w: World, e: Event): (r: World)
    requires Shaped(w)
    ensures Shaped(r)
  {
    match e
    case Passes(replies) => Pass(w, replies)
    case Removed(k) =>
      if k < STAGES && w.chain[k].presence.Marked? then Put(w, k, w.chain[k].(presence := Gone)) else w
    case SecretRemoved(i) =>
      if i < |w.secrets| && w.secrets[i].Marked? then w.(secrets := w.secrets[i := Gone]) else w
  }

  function Run(w: World, events: seq<Event>): (r: World)
    requires Shaped(w)
    ensures Shaped(r)
  {
    if events == [] then w else Happen(Run(w, events[..|events| - 1]), events[|events| - 1])
  }

  // A deletion starts with the finalizer in place and nothing marked yet.
  ghost predicate Starting(w: World) {
    Shaped(w) && w.finalizer && forall k :: 0 <= k < STAGES ==> !w.chain[k].presence.Marked?
  }

  lemma RemovalKeepsOrder(w: World, e: Event)
    requires Shaped(w) && Ordered(w) && !e.Passes?
    ensures Ordered(Happen(w, e))
  {
  }

  /** In every state of every run a dependent is marked only if all earlier ones are gone, the context only after its
      secrets, and the finalizer is dropped last. */
  lemma {:induction false} TeardownIsOrdered(w: World, events: seq<Event>)
    requires Starting(w)
    ensures Ordered(Run(w, events))
  {
    hide Ordered, Pass, Onward;
    if events == [] {
      StartIsOrdered(w);
    } else {
      var before, last := Run(w, events[..|events| - 1]), events[|events| - 1];
      TeardownIsOrdered(w, events[..|events| - 1]);
      if last.Passes? {
        PassProgress(before, last.replies);
      } else {
        RemovalKeepsOrder(before, last);
      }
    }
  }

  lemma StartIsOrdered(w: World)
    requires Starting(w)
    ensures Ordered(w)
  {
  }

  // ---- Every pass that changes anything brings the end closer ----

  function Weight(p: Presence): nat {
    if p.Live? then 2 else if p.Marked? then 1 else 0
  }

  function ChainWeight(chain: seq<Dependent>): nat {
    if chain == [] then 0
    else ChainWeight(chain[..|chain| - 1]) + Weight(chain[|chain| - 1].presence) + if chain[|chain| - 1].ref then 1
      else 0
  }

  function SecretsWeight(secrets: seq<Presence>): nat {
    if secrets == [] then 0 else SecretsWeight(secrets[..|secrets| - 1]) + Weight(secrets[|secrets| - 1])
  }

  function Remaining(w: World): nat {
    ChainWeight(w.chain) + SecretsWeight(w.secrets) + (if w.listed then 1 else 0) + (if w.finalizer then 1 else 0)
  }

  lemma {:induction false} ChainWeightDrops(a: seq<Dependent>, b: seq<Dependent>)
    requires |a| == |b| && forall k :: 0 <= k < |a| ==> Step(a[k].presence, b[k].presence) && (b[k].ref ==> a[k].ref)
    ensures ChainWeight(b) < ChainWeight(a) || a == b
  {
    if a != [] {
      var n := |a| - 1;
      ChainWeightDrops(a[..n], b[..n]);
      assert a == a[..n] + [a[n]] && b == b[..n] + [b[n]];
    }
  }

  lemma {:induction false} SecretsWeightDrops(a: seq<Presence>, b: seq<Presence>)
    requires |a| == |b| && forall k :: 0 <= k < |a| ==> Step(a[k], b[k])
    ensures SecretsWeight(b) < SecretsWeight(a) || a == b
  {
    if a != [] {
      var n := |a| - 1;
      SecretsWeightDrops(a[..n], b[..n]);
      assert a == a[..n] + [a[n]] && b == b[..n] + [b[n]];
    }
  }

  /** Whatever calls fail, a pass changes nothing or reduces what remains to be done. */
  lemma PassReducesRemaining(w: World, replies: Replies)
    requires Shaped(w) && Ordered(w)
    ensures Pass(w, replies) == w || Remaining(Pass(w, replies)) < Remaining(w)
  {
    hide Pass, Ordered;
    PassProgress(w, replies);
    ChainWeightDrops(w.chain, Pass(w, replies).chain);
    SecretsWeightDrops(w.secrets, Pass(w, replies).secrets);
  }

  // ---- The exact number of passes ----

  const SMOOTH: Replies := (c: Call) => Reply(Applied, false)

  // All marked objects are gone.
  function Sweep(w: World): (r: World)
    ensures |r.chain| == |w.chain| && |r.secrets| == |w.secrets|
    ensures r == w.(chain := r.chain, secrets := r.secrets)
    ensures forall k :: 0 <= k < |w.chain| ==> r.chain[k] == SweptDependent(w.chain[k])
  {
    w.(chain := seq(|w.chain|, k requires 0 <= k < |w.chain| => SweptDependent(w.chain[k])),
       secrets := seq(|w.secrets|, i requires 0 <= i < |w.secrets| => Swept(w.secrets[i])))
  }

  function Swept(p: Presence): Presence {
    if p.Marked? then Gone else p
  }

  function SweptDependent(d: Dependent): Dependent {
    d.(presence := Swept(d.presence))
  }

  // The state after `n` passes in which every call succeeds; between passes all marked objects are removed.
  function AfterPasses(w: World, n: nat): (r: World)
    requires Shaped(w)
    ensures Shaped(r)
  {
    if n == 0 then w
    else if n == 1 then Pass(w, SMOOTH)
    else Pass(Sweep(AfterPasses(w, n - 1)), SMOOTH)
  }

  // The dependents from stage `k` on that still have to be deleted.
  function LiveCount(w: World, k: nat): nat
    requires Shaped(w) && k <= STAGES
    decreases STAGES - k
  {
    if k == STAGES then 0 else LiveCount(w, k + 1) + if w.chain[k].ref && w.chain[k].presence.Live? then 1 else 0
  }

  // The first stage from `k` on that holds up the teardown.
  function FirstBlocker(w: World, k: nat): (f: nat)
    requires Shaped(w) && k <= STAGES
    ensures k <= f <= STAGES && (f < STAGES ==> Blocking(w, f)) && forall j :: k <= j < f ==> !Blocking(w, j)
    decreases STAGES - k
  {
    if k == STAGES || Blocking(w, k) then k else FirstBlocker(w, k + 1)
  }

  // How many passes only delete or wait before one releases the Instance.
  function Delays(w: World): nat
    requires Shaped(w)
  {
    var f := FirstBlocker(w, 0);
    LiveCount(w, 0) + if f < STAGES && w.chain[f].presence.Marked? then 1 else 0
  }

  lemma {:induction false} SmoothSecrets(w: World, n: nat)
    requires n <= |w.secrets|
    ensures MarkSecrets(w, n, SMOOTH).1
    ensures (forall i :: 0 <= i < n ==> !w.secrets[i].Live?) ==> MarkSecrets(w, n, SMOOTH).0 == w
  {
    if n > 0 {
      SmoothSecrets(w, n - 1);
      assert w.secrets[n - 1 := w.secrets[n - 1]] == w.secrets;
    }
  }

  // What a stage does when all calls succeed.
  ghost predicate SmoothResult(w: World, k: nat, b: World, v: Verdict)
    requires Shaped(w) && k < STAGES
  {
    && Shaped(b)
    && b == w.(chain := b.chain, secrets := b.secrets)
    && b.chain == w.chain[k := b.chain[k]]
    && (k != CONTEXT || !Blocking(w, k) ==> b.secrets == w.secrets)
    && (if Blocking(w, k) then
          && v.Waiting? && b.chain[k] == Dependent(true, Marked)
          && (k == CONTEXT ==> SecretsDone(b.secrets) && (SecretsDone(w.secrets) ==> b.secrets == w.secrets))
        else v.Deleted? && b.chain[k] == w.chain[k].(ref := k == NAMESPACE && w.chain[k].ref))
  }

  lemma SmoothContext(w: World)
    requires Shaped(w)
    ensures var (b, v) := EnsureReferenced(w, CONTEXT, SMOOTH); SmoothResult(w, CONTEXT, b, v)
  {
    hide MarkSecrets, SecretsDone;
    var seen := Put(w, CONTEXT, w.chain[CONTEXT].(presence := Seen(w.chain[CONTEXT].presence, SMOOTH(Get(CONTEXT)))));
    SmoothAllSecrets(seen);
    assert w.chain[CONTEXT := w.chain[CONTEXT]] == w.chain;
  }

  lemma SmoothAllSecrets(w: World)
    ensures var (b, ok) := MarkSecrets(w, |w.secrets|, SMOOTH);
      ok && SecretsDone(b.secrets) && (SecretsDone(w.secrets) ==> b == w)
  {
    SmoothSecrets(w, |w.secrets|);
    MarkSecretsMarks(w, |w.secrets|, SMOOTH);
  }

  lemma SmoothStage(w: World, k: nat)
    requires Shaped(w) && k < STAGES
    ensures var (b, v) := Ensure(w, k, SMOOTH); SmoothResult(w, k, b, v)
  {
    hide MarkSecrets, SecretsDone;
    assert w.chain[k := w.chain[k]] == w.chain;
    if k == CONTEXT {
      SmoothContext(w);
    }
  }

  // The chain from stage `k` on stops at the first blocking dependent `f`, which is then marked.
  ghost predicate SmoothChainResult(w: World, k: nat, f: nat, b: World, v: Verdict)
    requires Shaped(w) && k <= f <= STAGES
  {
    && Shaped(b)
    && b == w.(chain := b.chain, secrets := b.secrets)
    && (forall j :: 0 <= j < k || f < j < STAGES ==> b.chain[j] == w.chain[j])
    && (forall j :: k <= j < f ==> b.chain[j] == w.chain[j].(ref := j == NAMESPACE && w.chain[j].ref))
    && (if f < STAGES then
          && v.Waiting? && b.chain[f] == Dependent(true, Marked)
          && (f == CONTEXT ==> SecretsDone(b.secrets) && (SecretsDone(w.secrets) ==> b.secrets == w.secrets))
          && (f != CONTEXT ==> b.secrets == w.secrets)
        else v.Deleted? && b.secrets == w.secrets)
  }

  lemma {:induction false} SmoothChain(w: World, k: nat)
    requires Shaped(w) && k <= STAGES
    ensures var (b, v) := Chain(w, k, SMOOTH); SmoothChainResult(w, k, FirstBlocker(w, k), b, v)
    decreases STAGES - k
  {
    hide Ensure, SecretsDone;
    if k < STAGES {
      SmoothStage(w, k);
      var (b, v) := Ensure(w, k, SMOOTH);
      if v.Deleted? {
        SmoothChain(b, k + 1);
        SameBlocker(w, b, k + 1);
      }
    }
  }

  lemma {:induction false} SameBlocker(w: World, b: World, k: nat)
    requires Shaped(w) && Shaped(b) && k <= STAGES && forall j :: k <= j < STAGES ==> b.chain[j] == w.chain[j]
    ensures FirstBlocker(w, k) == FirstBlocker(b, k)
    decreases STAGES - k
  {
    if k < STAGES && !Blocking(w, k) {
      SameBlocker(w, b, k + 1);
    }
  }

  // ---- Counting ----

  lemma {:induction false} LiveCountChange(w: World, b: World, k: nat, f: nat)
    requires Shaped(w) && Shaped(b) && k <= STAGES
    requires forall j :: k <= j < STAGES && j != f ==>
               (b.chain[j].ref && b.chain[j].presence.Live? <==> w.chain[j].ref && w.chain[j].presence.Live?)
    requires f < STAGES ==> !(b.chain[f].ref && b.chain[f].presence.Live?)
    ensures LiveCount(b, k) ==
      LiveCount(w, k) - if k <= f < STAGES && w.chain[f].ref && w.chain[f].presence.Live? then 1 else 0
    decreases STAGES - k
  {
    if k < STAGES {
      LiveCountChange(w, b, k + 1, f);
    }
  }

  lemma {:induction false} NoLiveNoCount(w: World, k: nat)
    requires Shaped(w) && k <= STAGES
    ensures LiveCount(w, k) == 0 <==> forall j :: k <= j < STAGES ==> !(w.chain[j].ref && w.chain[j].presence.Live?)
    decreases STAGES - k
  {
    if k < STAGES {
      NoLiveNoCount(w, k + 1);
    }
  }

  lemma NoDelaysNoBlocker(w: World)
    requires Shaped(w)
    ensures Delays(w) == 0 <==> FirstBlocker(w, 0) == STAGES
  {
    NoLiveNoCount(w, 0);
  }

  // One pass with a sweep removes one delay, or releases the Instance.
  lemma OnePass(w: World)
    requires Shaped(w) && w.finalizer && w.config
    ensures var p := Pass(w, SMOOTH);
            p.config && (p.finalizer <==> Delays(w) > 0) && (p.finalizer ==> Delays(Sweep(p)) == Delays(w) - 1)
  {
    hide Chain, SecretsDone, LiveCount;
    NoDelaysNoBlocker(w);
    SmoothChain(w, 0);
    var f := FirstBlocker(w, 0);
    var (b, v) := Chain(w, 0, SMOOTH);
    if f < STAGES {
      var s := Sweep(b);
      assert b.chain[f] == Dependent(true, Marked);
      assert forall j :: 0 <= j < STAGES ==> s.chain[j] == SweptDependent(b.chain[j]);
      LiveCountChange(w, s, 0, f);
    }
  }

  lemma ReleasedStays(w: World)
    requires Shaped(w) && !w.finalizer
    ensures !Pass(Sweep(w), SMOOTH).finalizer
  {
  }

  lemma {:induction false} PassesLeft(w: World, n: nat)
    requires Shaped(w) && w.finalizer && w.config && n >= 1
    ensures var a := AfterPasses(w, n);
            a.config && (a.finalizer <==> n <= Delays(w)) && (a.finalizer ==> Delays(Sweep(a)) == Delays(w) - n)
  {
    hide Pass, Delays;
    if n == 1 {
      OnePass(w);
    } else {
      PassesLeft(w, n - 1);
      var a := AfterPasses(w, n - 1);
      if a.finalizer {
        OnePass(Sweep(a));
      } else {
        ReleasedStays(a);
        SweptKeepsConfig(a);
      }
    }
  }

  lemma SweptKeepsConfig(w: World)
    requires Shaped(w) && !w.finalizer
    ensures Pass(Sweep(w), SMOOTH).config == w.config
  {
  }

  /** With successful calls, and marked objects removed between passes, an unmarked Instance is released by exactly the
      pass after as many passes as there are dependents: not earlier, not later. */
  lemma TeardownTakesOnePassPerDependent(w: World, n: nat)
    requires Starting(w) && w.config && n >= 1
    ensures AfterPasses(w, n).finalizer <==> n < 1 + LiveCount(w, 0)
  {
    PassesLeft(w, n);
  }

  /** In general one more pass is needed exactly if the first dependent in the way is marked already. */
  lemma TeardownPassesExactly(w: World, n: nat)
    requires Shaped(w) && w.finalizer && w.config && n >= 1
    ensures AfterPasses(w, n).finalizer <==> n < 1 + Delays(w)
  {
    PassesLeft(w, n);
  }

  // An Installation that is marked already, and nothing else.
  const HALF_WAY := World(
    [Dependent(true, Marked), Dependent(false, Gone), Dependent(false, Gone), Dependent(false, Gone),
      Dependent(false, Gone), Dependent(false, Gone)], [], true, true, true)

  /** No dependent is left to delete, but the first pass only waits, and a second one is needed. */
  lemma MarkedDependentDelays()
    ensures Shaped(HALF_WAY) && LiveCount(HALF_WAY, 0) == 0
    ensures AfterPasses(HALF_WAY, 1).finalizer && !AfterPasses(HALF_WAY, 2).finalizer
  {
    NoLiveDependents(HALF_WAY, 0);
    assert Blocking(HALF_WAY, 0);
    assert FirstBlocker(HALF_WAY, 0) == 0;
    TeardownPassesExactly(HALF_WAY, 1);
    TeardownPassesExactly(HALF_WAY, 2);
  }

  lemma {:induction false} NoLiveDependents(w: World, k: nat)
    requires Shaped(w) && k <= STAGES && forall j :: 0 <= j < STAGES ==> !w.chain[j].presence.Live?
    ensures LiveCount(w, k) == 0
    decreases STAGES - k
  {
    if k < STAGES {
      NoLiveDependents(w, k + 1);
    }
  }

  /** Without removals a second pass changes nothing: it waits. */
  lemma PassWaits(w: World)
    requires Shaped(w) && w.finalizer && Pass(w, SMOOTH).finalizer && w.config
    ensures Pass(Pass(w, SMOOTH), SMOOTH) == Pass(w, SMOOTH)
  {
    hide Chain, SecretsDone;
    SmoothChain(w, 0);
    var f := FirstBlocker(w, 0);
    var (b, v) := Chain(w, 0, SMOOTH);
    assert f < STAGES;
    SmoothChain(b, 0);
    assert FirstBlocker(b, 0) == f;
    var c := Chain(b, 0, SMOOTH).0;
    assert c.chain == b.chain;
  }
}
