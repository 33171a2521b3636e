// The deletion of an Instance: a chain of dependents, each of which must be gone before the next is touched.
module Teardown {
  import opened Common

  datatype Presence = Gone | Live | Marked

  // A dependent of the Instance: whether the Instance refers to it (in its status; for the hosting namespace,
  // whether tenant and ID are set, so that it has a name), and whether it exists.
  datatype Dependent = Dependent(ref: bool, presence: Presence)

  const INSTALLATION: nat := 0
  const NAMESPACE: nat := 1
  const TARGET: nat := 2
  const CONTEXT: nat := 3
  const SERVICE_ACCOUNT: nat := 4
  const DATA_PLANE: nat := 5
  const STAGES: nat := 6

  // `secrets` are the pull secrets of the context, `config` says whether the ServiceTargetConfig exists,
  // `listed` whether it lists the Instance, and the Instance exists as long as it has its finalizer.
  datatype World = World(chain: seq<Dependent>, secrets: seq<Presence>, config: bool, listed: bool, finalizer: bool)

  predicate Shaped(w: World) {
    |w.chain| == STAGES
  }

  // The API calls of one pass; each of them happens at most once.
  datatype Call =
    | GetClient
    | Get(k: nat) | Clear(k: nat) | Delete(k: nat)
    | GetSecret(i: nat) | DeleteSecret(i: nat)
    | GetConfig | UpdateConfig | DropFinalizer | SaveStatus

  // What happens to a call; `vanished` says that an object already marked disappears right before it is read.
  datatype Reply = Reply(outcome: Outcome, vanished: bool)
  type Replies = Call -> Reply

  datatype Verdict = Deleted | Waiting | Failure

  // ---- One pass, as a function ----

  function Put(w: World, k: nat, dep: Dependent): World
    requires k < |w.chain|
  {
    w.(chain := w.chain[k := dep])
  }

  // What a read of dependent `k` finds.
  function Seen(p: Presence, r: Reply): Presence {
    if p.Marked? && r.vanished then Gone else p
  }

  // Delete of dependent `k` unless it is marked already.
  function Marking(w: World, k: nat, replies: Replies): (r: (World, Verdict))
    requires k < |w.chain|
  {
    if !w.chain[k].presence.Live? then (w, Waiting)
    else
      var marked := Put(w, k, w.chain[k].(presence := Marked));
      match replies(Delete(k)).outcome
      case Applied => (marked, Waiting)
      case Failed => (w, Failure)
      case Lost => (marked, Failure)
  }

  // The dependents that the status refers to; a failed update of the status may be made up for by the error handler.
  function EnsureReferenced(w: World, k: nat, replies: Replies): (r: (World, Verdict))
    requires k < |w.chain|
  {
    if !w.chain[k].ref then (w, Deleted)
    else if !replies(Get(k)).outcome.Applied? then (w, Failure)
    else
      var seen := Put(w, k, w.chain[k].(presence := Seen(w.chain[k].presence, replies(Get(k)))));
      if seen.chain[k].presence.Gone? then
        var cleared := Put(seen, k, seen.chain[k].(ref := false));
        match replies(Clear(k)).outcome
        case Applied => (cleared, Deleted)
        case Lost => (cleared, Failure)
        case Failed => (if replies(SaveStatus).outcome.Failed? then seen else cleared, Failure)
      else if k == CONTEXT then
        var (w', ok) := MarkSecrets(seen, |seen.secrets|, replies);
        if ok then Marking(w', k, replies) else (w', Failure)
      else Marking(seen, k, replies)
  }

  // The first `n` pull secrets; errors are collected and the others are still deleted.
  function MarkSecrets(w: World, n: nat, replies: Replies): (r: (World, bool))
    requires n <= |w.secrets|
    ensures r.0 == w.(secrets := r.0.secrets) && |r.0.secrets| == |w.secrets|
  {
    if n == 0 then (w, true)
    else
      var i := n - 1;
      var (w', ok) := MarkSecrets(w, i, replies);
      if !replies(GetSecret(i)).outcome.Applied? then (w', false)
      else
        var seen := Seen(w'.secrets[i], replies(GetSecret(i)));
        if !seen.Live? then (w'.(secrets := w'.secrets[i := seen]), ok)
        else
          match replies(DeleteSecret(i)).outcome
          case Applied => (w'.(secrets := w'.secrets[i := Marked]), ok)
          case Failed => (w', false)
          case Lost => (w'.(secrets := w'.secrets[i := Marked]), false)
  }

  // The hosting namespace lives on another cluster and has no reference in the status.
  function EnsureNamespace(w: World, replies: Replies): (r: (World, Verdict))
    requires Shaped(w)
  {
    var k := NAMESPACE;
    if !w.chain[k].ref then (w, Deleted)
    else if !replies(GetClient).outcome.Applied? || !replies(Get(k)).outcome.Applied? then (w, Failure)
    else
      var seen := Put(w, k, w.chain[k].(presence := Seen(w.chain[k].presence, replies(Get(k)))));
      if seen.chain[k].presence.Gone? then (seen, Deleted) else Marking(seen, k, replies)
  }

  function Ensure(w: World, k: nat, replies: Replies): (r: (World, Verdict))
    requires Shaped(w) && k < STAGES
    ensures Shaped(r.0)
  {
    if k == NAMESPACE then EnsureNamespace(w, replies) else EnsureReferenced(w, k, replies)
  }

  // The chain from stage `k` on.
  function Chain(w: World, k: nat, replies: Replies): (r: (World, Verdict))
    requires Shaped(w) && k <= STAGES
    ensures Shaped(r.0)
    decreases STAGES - k
  {
    if k == STAGES then (w, Deleted)
    else
      var (w', v) := Ensure(w, k, replies);
      if v.Deleted? then Chain(w', k + 1, replies) else (w', v)
  }

  // The end of the chain: the usage list, then the finalizer.
  function Release(w: World, replies: Replies): World {
    if !replies(GetConfig).outcome.Applied? || !w.config || replies(UpdateConfig).outcome.Failed? then w
    else
      var unlisted := w.(listed := false);
      if !replies(UpdateConfig).outcome.Applied? || replies(DropFinalizer).outcome.Failed? then unlisted
      else unlisted.(finalizer := false)
  }

  function Pass(w: World, replies: Replies): (r: World)
    requires Shaped(w)
    ensures Shaped(r)
  {
    if !w.finalizer then w
    else
      var (w', v) := Chain(w, 0, replies);
      if v.Deleted? then Release(w', replies) else w'
  }

  // ---- The controller ----

  class Cluster {
    var chain: seq<Dependent>
    var secrets: seq<Presence>
    var config: bool
    var listed: bool
    var finalizer: bool

    function State(): World
      reads this
    {
      World(chain, secrets, config, listed, finalizer)
    }

    // Get of dependent `k`; it may have vanished since it was marked.
    method Find(k: nat, replies: Replies) returns (presence: Presence)
      requires k < |chain|
      modifies this`chain
      ensures presence == Seen(old(chain[k].presence), replies(Get(k)))
      ensures chain == old(chain)[k := old(chain[k]).(presence := presence)]
    {
      presence := Seen(chain[k].presence, replies(Get(k)));
      chain := chain[k := chain[k].(presence := presence)];
    }

    method MarkDependent(k: nat, replies: Replies) returns (v: Verdict)
      requires k < |chain|
      modifies this`chain
      ensures (State(), v) == Marking(old(State()), k, replies)
    {
      if chain[k].presence.Live? {
        var outcome := replies(Delete(k)).outcome;
        if !outcome.Failed? {
          chain := chain[k := chain[k].(presence := Marked)];
        }
        if !outcome.Applied? {
          return Failure;
        }
      }
      return Waiting;
    }

    method DeleteSecretsForContext(replies: Replies) returns (ok: bool)
      modifies this`secrets
      ensures (State(), ok) == MarkSecrets(old(State()), |old(secrets)|, replies)
    {
      ok := true;
      for i := 0 to |secrets|
        invariant |secrets| == |old(secrets)|
        invariant (State(), ok) == MarkSecrets(old(State()), i, replies)
      {
        if !replies(GetSecret(i)).outcome.Applied? {
          ok := false;
          continue;
        }
        var seen := Seen(secrets[i], replies(GetSecret(i)));
        if seen.Live? {
          var outcome := replies(DeleteSecret(i)).outcome;
          if !outcome.Failed? {
            secrets := secrets[i := Marked];
          }
          if !outcome.Applied? {
            ok := false;
          }
        } else {
          secrets := secrets[i := seen];
        }
      }
    }

    method EnsureDeleteReferenced(k: nat, replies: Replies) returns (v: Verdict)
      requires k < |chain|
      modifies this`chain, this`secrets
      ensures (State(), v) == EnsureReferenced(old(State()), k, replies)
    {
      if !chain[k].ref {
        return Deleted;
      }
      if !replies(Get(k)).outcome.Applied? {
        return Failure;
      }
      var presence := Find(k, replies);
      if presence.Gone? {
        var outcome := replies(Clear(k)).outcome;
        if !outcome.Failed? || !replies(SaveStatus).outcome.Failed? {
          chain := chain[k := chain[k].(ref := false)];
        }
        return if outcome.Applied? then Deleted else Failure;
      }
      if k == CONTEXT {
        var ok := DeleteSecretsForContext(replies);
        if !ok {
          return Failure;
        }
      }
      v := MarkDependent(k, replies);
    }

    method EnsureDeleteNamespace(replies: Replies) returns (v: Verdict)
      requires Shaped(State())
      modifies this`chain
      ensures (State(), v) == EnsureNamespace(old(State()), replies)
    {
      if !chain[NAMESPACE].ref {
        return Deleted;
      }
      if !replies(GetClient).outcome.Applied? || !replies(Get(NAMESPACE)).outcome.Applied? {
        return Failure;
      }
      var presence := Find(NAMESPACE, replies);
      if presence.Gone? {
        return Deleted;
      }
      v := MarkDependent(NAMESPACE, replies);
    }

    method HandleDelete(replies: Replies)
      requires Shaped(State()) && finalizer
      modifies this
      ensures State() == Pass(old(State()), replies)
    {
      var k := 0;
      while k < STAGES
        invariant k <= STAGES && Shaped(State())
        invariant Chain(old(State()), 0, replies) == Chain(State(), k, replies)
        invariant finalizer
      {
        var v;
        if k == NAMESPACE {
          v := EnsureDeleteNamespace(replies);
        } else {
          v := EnsureDeleteReferenced(k, replies);
        }
        if !v.Deleted? {
          return;
        }
        k := k + 1;
      }
      if !replies(GetConfig).outcome.Applied? || !config || replies(UpdateConfig).outcome.Failed? {
        return;
      }
      listed := false;
      if !replies(UpdateConfig).outcome.Applied? || replies(DropFinalizer).outcome.Failed? {
        return;
      }
      finalizer := false;
    }
  }
}
