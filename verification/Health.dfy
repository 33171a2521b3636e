// The health watcher: one pass over all watched Instances, and what FailedSince means over many passes.
module Health {
  import opened Common

  type Time = int

  datatype Status = Unset | StatusOk | StatusFailed

  // The part of an LsHealthCheck object that is read.
  datatype Check = Check(lastUpdate: Time, healthy: bool)

  // What a pass finds out about one Instance.
  datatype Observation =
    | InstanceNotLoaded
    | NoInstallationRef
    | InstallationMissing
    | InstallationNotLoaded
    | InstallationProgressing
    | NoTargetConfigRef
    | NoTargetClient
    | NoTargetNamespace
    | ChecksMissing
    | ChecksNotLoaded
    | Checks(checks: seq<Check>)

  // The readings of the clock while one Instance is checked: against the last update of the health check, against
  // FailedSince, and for a new FailedSince.
  datatype Clock = Clock(update: Time, streak: Time, stamp: Time)

  datatype Entry = Entry(ref: ObjectReference, status: Status, failedSince: Option<Time>)

  class AvailabilityInstance {
    const ref: ObjectReference
    var status: Status
    var failedSince: Option<Time>

    // createAvailabilityInstance: FailedSince is taken over from the first old entry for the Instance.
    constructor (ref: ObjectReference, earlier: seq<Entry>)
      ensures this.ref == ref && status == Unset && failedSince == Previous(earlier, ref)
    {
      this.ref := ref;
      status := Unset;
      failedSince := None;
      new;
      for i := 0 to |earlier|
        invariant status == Unset && failedSince == None
        invariant Previous(earlier, ref) == Previous(earlier[i..], ref)
      {
        if earlier[i].ref == ref {
          failedSince := earlier[i].failedSince;
          break;
        }
      }
    }

    function Value(): Entry
      reads this
    {
      Entry(ref, status, failedSince)
    }

    method SetStatusAndFailedSince(newStatus: Status, initOrContinueFailed: bool, now: Time)
      modifies this
      ensures status == newStatus
      ensures failedSince == if initOrContinueFailed then Some(Since(old(failedSince), now)) else None
    {
      status := newStatus;
      if initOrContinueFailed {
        if failedSince == None {
          failedSince := Some(now);
        }
      } else {
        failedSince := None;
      }
    }

    method TransferLsHealthCheckStatus(checks: seq<Check>, timeout: int, clock: Clock)
      modifies this
      ensures Some((status, failedSince)) == Recorded(Checks(checks), old(failedSince), timeout, clock)
    {
      if |checks| != 1 {
        SetStatusAndFailedSince(StatusFailed, true, clock.stamp);
        return;
      }
      var check := checks[0];
      if clock.update - check.lastUpdate > timeout {
        SetStatusAndFailedSince(StatusFailed, true, clock.stamp);
      } else if check.healthy {
        SetStatusAndFailedSince(StatusOk, false, clock.stamp);
      } else if failedSince != None && clock.streak - failedSince.value > timeout {
        SetStatusAndFailedSince(StatusFailed, true, clock.stamp);
      } else {
        SetStatusAndFailedSince(StatusOk, true, clock.stamp);
      }
    }
  }

  // The first entry for an Instance.
  function Lookup(entries: seq<Entry>, ref: ObjectReference): Option<Entry> {
    if entries == [] then None
    else if entries[0].ref == ref then Some(entries[0])
    else Lookup(entries[1..], ref)
  }

  function Previous(entries: seq<Entry>, ref: ObjectReference): Option<Time> {
    var entry := Lookup(entries, ref);
    if entry.Some? then entry.value.failedSince else None
  }

  function Since(failedSince: Option<Time>, now: Time): Time {
    if failedSince.Some? then failedSince.value else now
  }

  // The observations for which the pass goes on without an entry.
  predicate Skipped(o: Observation) {
    o.NoInstallationRef? || o.InstallationMissing? || o.InstallationProgressing? || o.ChecksMissing?
  }

  // Status and FailedSince that a pass records for an Instance, if it records an entry at all.
  function Recorded(o: Observation, before: Option<Time>, timeout: int, clock: Clock): Option<(Status, Option<Time>)> {
    if Skipped(o) || o.InstanceNotLoaded? then None
    else
      var since := Since(before, clock.stamp);
      if !o.Checks? || |o.checks| != 1 || clock.update - o.checks[0].lastUpdate > timeout then
        Some((StatusFailed, Some(since)))
      else if o.checks[0].healthy then Some((StatusOk, None))
      else Some((if before.Some? && clock.streak - since > timeout then StatusFailed else StatusOk, Some(since)))
  }

  // ---- One pass ----

  datatype Watch = Watch(ref: ObjectReference, observation: Observation, clock: Clock)

  // The new entries after the first `n` Instances; none if an Instance cannot be loaded, which aborts the pass.
  function NewEntries(watches: seq<Watch>, earlier: seq<Entry>, timeout: int, n: nat): Option<seq<Entry>>
    requires n <= |watches|
  {
    if n == 0 then Some([])
    else
      var w, entries := watches[n - 1], NewEntries(watches, earlier, timeout, n - 1);
      if entries.None? || w.observation.InstanceNotLoaded? then None
      else Some(entries.value + NewEntry(w, earlier, timeout))
  }

  // The entry that one observation leaves, if any.
  function NewEntry(w: Watch, earlier: seq<Entry>, timeout: int): seq<Entry> {
    var recorded := Recorded(w.observation, Previous(earlier, w.ref), timeout, w.clock);
    if recorded.None? then [] else [Entry(w.ref, recorded.value.0, recorded.value.1)]
  }

  // What one pass does to the stored entries: it may not be due yet, it may abort, and its result may not be written.
  function PassResult(watches: seq<Watch>, earlier: seq<Entry>, timeout: int, due: bool, update: Outcome): seq<Entry> {
    var entries := NewEntries(watches, earlier, timeout, |watches|);
    if !due || entries.None? || update.Failed? then earlier else entries.value
  }

  class AvailabilityCollection {
    var instances: seq<Entry>

    method Reconcile(watches: seq<Watch>, timeout: int, due: bool, update: Outcome)
      modifies this
      ensures instances == PassResult(watches, old(instances), timeout, due, update)
    {
      if !due {
        return;
      }
      var entries := [];
      for i := 0 to |watches|
        invariant NewEntries(watches, old(instances), timeout, i) == Some(entries)
        invariant instances == old(instances)
      {
        var w := watches[i];
        if w.observation.InstanceNotLoaded? {
          AbortedStaysAborted(watches, instances, timeout, i + 1, |watches|);
          return;
        }
        assert entries + [] == entries;
        var availability := new AvailabilityInstance(w.ref, instances);
        if w.observation.NoInstallationRef? || w.observation.InstallationMissing? ||
          w.observation.InstallationProgressing? {
          continue;
        }
        if w.observation.ChecksMissing? {
          // the status is set, but the entry is not appended
          availability.SetStatusAndFailedSince(StatusFailed, true, w.clock.stamp);
          continue;
        }
        if w.observation.Checks? {
          availability.TransferLsHealthCheckStatus(w.observation.checks, timeout, w.clock);
        } else {
          availability.SetStatusAndFailedSince(StatusFailed, true, w.clock.stamp);
        }
        assert NewEntry(w, instances, timeout) == [availability.Value()];
        entries := entries + [availability.Value()];
      }
      if !update.Failed? {
        instances := entries;
      }
    }
  }

  lemma {:induction false} AbortedStaysAborted(watches: seq<Watch>, earlier: seq<Entry>, timeout: int, i: nat, n: nat)
    requires i <= n <= |watches| && NewEntries(watches, earlier, timeout, i).None?
    ensures NewEntries(watches, earlier, timeout, n).None?
  {
    if i < n {
      AbortedStaysAborted(watches, earlier, timeout, i, n - 1);
    }
  }
}
