// What FailedSince and the reported status mean over a whole run of health passes.
module HealthHistory {
  import opened Common
  import opened Health

  datatype Pass = Pass(watches: seq<Watch>, due: bool, update: Outcome)

  // The entries stored after a run of passes over a collection that starts without any.
  function Stored(passes: seq<Pass>, timeout: int): seq<Entry> {
    if passes == [] then []
    else
      var n := |passes| - 1;
      PassResult(passes[n].watches, Stored(passes[..n], timeout), timeout, passes[n].due, passes[n].update)
  }

  // The passes that replace the stored entries.
  predicate Effective(p: Pass) {
    p.due && !p.update.Failed? && forall w :: w in p.watches ==> !w.observation.InstanceNotLoaded?
  }

  // The observations that leave an entry: everything went wrong that can, or the checks were read. An Instance without
  // a finished installation, or whose checks do not exist, is left out.
  predicate Monitored(o: Observation) {
    || o.InstallationNotLoaded? || o.NoTargetConfigRef? || o.NoTargetClient? || o.NoTargetNamespace?
    || o.ChecksNotLoaded? || o.Checks?
  }

  // The first of the first `n` watches that leaves an entry for an Instance.
  function Seen(watches: seq<Watch>, ref: ObjectReference, n: nat): Option<Watch>
    requires n <= |watches|
  {
    if n == 0 then None
    else if Seen(watches, ref, n - 1).Some? then Seen(watches, ref, n - 1)
    else if watches[n - 1].ref == ref && Monitored(watches[n - 1].observation) then Some(watches[n - 1])
    else None
  }

  // What the effective passes saw of one Instance; None for a pass that left it out.
  function History(passes: seq<Pass>, ref: ObjectReference): seq<Option<Watch>> {
    if passes == [] then []
    else
      var n := |passes| - 1;
      var before := History(passes[..n], ref);
      if Effective(passes[n]) then before + [Seen(passes[n].watches, ref, |passes[n].watches|)] else before
  }

  // Exactly one check, recently updated, in state Ok.
  predicate Healthy(w: Watch, timeout: int) {
    !HardFailure(w, timeout) && w.observation.checks[0].healthy
  }

  // No usable check: it cannot be read, there is not exactly one, or it is out of date.
  predicate HardFailure(w: Watch, timeout: int) {
    !w.observation.Checks? || |w.observation.checks| != 1 ||
      w.clock.update - w.observation.checks[0].lastUpdate > timeout
  }

  predicate Failing(o: Option<Watch>, timeout: int) {
    o.Some? && !Healthy(o.value, timeout)
  }

  // The passes from `start` to the latest all saw the Instance failing, and the one before `start` did not.
  predicate CurrentStreak(h: seq<Option<Watch>>, timeout: int, start: nat) {
    && start < |h|
    && (forall j :: start <= j < |h| ==> Failing(h[j], timeout))
    && (start > 0 ==> !Failing(h[start - 1], timeout))
  }

  // ---- One pass ----

  // `origin` picks, in increasing order, the watches that leave an entry.
  ghost predicate PicksMonitored(watches: seq<Watch>, origin: seq<nat>, n: nat)
    requires n <= |watches|
  {
    && (forall k :: 0 <= k < |origin| ==> origin[k] < n)
    && (forall k, l :: 0 <= k < l < |origin| ==> origin[k] < origin[l])
    && (forall i :: 0 <= i < n ==> (Monitored(watches[i].observation) <==> i in origin))
  }

  // The first stored entry for the Instance has this FailedSince; none if there is no entry.
  ghost predicate FirstSince(stored: seq<Entry>, ref: ObjectReference, since: Option<Time>) {
    if exists k :: 0 <= k < |stored| && stored[k].ref == ref then
      exists k: nat :: FirstAt(stored, ref, since, k)
    else since == None
  }

  ghost predicate FirstAt(stored: seq<Entry>, ref: ObjectReference, since: Option<Time>, k: nat) {
    && k < |stored| && stored[k].ref == ref && stored[k].failedSince == since
    && forall j :: 0 <= j < k ==> stored[j].ref != ref
  }

  // The entry that a watch leaves, after an entry with FailedSince `since`.
  predicate Reports(e: Entry, w: Watch, since: Option<Time>, timeout: int) {
    && e.ref == w.ref
    && if Healthy(w, timeout) then e.status == StatusOk && e.failedSince == None
       else
         && e.failedSince == Some(if since.Some? then since.value else w.clock.stamp)
         && (e.status == StatusFailed <==>
               HardFailure(w, timeout) || (since.Some? && w.clock.streak - since.value > timeout))
         && (e.status == StatusFailed || e.status == StatusOk)
  }

  // The entry is what the watch reports after the first stored entry for the Instance.
  ghost predicate IsReported(e: Entry, w: Watch, stored: seq<Entry>, timeout: int) {
    exists since :: FirstSince(stored, w.ref, since) && Reports(e, w, since, timeout)
  }

  lemma AllLoaded(p: Pass)
    requires Effective(p)
    ensures p.due && !p.update.Failed? && forall i :: 0 <= i < |p.watches| ==>
      !p.watches[i].observation.InstanceNotLoaded?
  {
    assert forall i :: 0 <= i < |p.watches| ==> p.watches[i] in p.watches;
  }

  /** A pass that is due, aborts nowhere and can be written leaves exactly one entry for each watch that is monitored,
      in the order of the watches; every entry but that of a healthy Instance has FailedSince, and the entry of an
      Instance whose checks cannot be read is Failed. */
  lemma PassEntries(p: Pass, stored: seq<Entry>, timeout: int) returns (origin: seq<nat>)
    requires Effective(p)
    ensures PicksMonitored(p.watches, origin, |p.watches|)
    ensures var result := PassResult(p.watches, stored, timeout, p.due, p.update);
      && |result| == |origin|
      && forall k :: 0 <= k < |origin| ==> IsReported(result[k], p.watches[origin[k]], stored, timeout)
  {
    hide FirstSince, Reports, NewEntries, Effective, Previous;
    AllLoaded(p);
    CompleteIffLoaded(p.watches, stored, timeout, |p.watches|);
    origin := NewEntriesFrom(p.watches, stored, timeout, |p.watches|);
    forall k | 0 <= k < |origin|
      ensures IsReported(PassResult(p.watches, stored, timeout, p.due, p.update)[k], p.watches[origin[k]], stored,
        timeout)
    {
      PreviousIsFirst(stored, p.watches[origin[k]].ref);
    }
  }

  predicate ReportsAfter(e: Entry, w: Watch, stored: seq<Entry>, timeout: int) {
    Reports(e, w, Previous(stored, w.ref), timeout)
  }

  ghost predicate AllReport(result: seq<Entry>, watches: seq<Watch>, origin: seq<nat>, stored: seq<Entry>,
      timeout: int) {
    && |result| == |origin|
    && forall k :: 0 <= k < |origin| ==>
         origin[k] < |watches| && ReportsAfter(result[k], watches[origin[k]], stored, timeout)
  }

  lemma ReportOneMore(result: seq<Entry>, watches: seq<Watch>, origin: seq<nat>, stored: seq<Entry>, timeout: int,
      n: nat)
    requires AllReport(result, watches, origin, stored, timeout) && n < |watches|
    ensures forall e :: ReportsAfter(e, watches[n], stored, timeout) ==>
      AllReport(result + [e], watches, origin + [n], stored, timeout)
  {
    hide ReportsAfter;
  }

  lemma {:induction false} NewEntriesFrom(watches: seq<Watch>, stored: seq<Entry>, timeout: int, n: nat)
      returns (origin: seq<nat>)
    requires n <= |watches| && NewEntries(watches, stored, timeout, n).Some?
    ensures PicksMonitored(watches, origin, n)
    ensures AllReport(NewEntries(watches, stored, timeout, n).value, watches, origin, stored, timeout)
  {
    hide ReportsAfter, NewEntry, PicksMonitored, Monitored, AllReport;
    if n == 0 {
      origin := [];
      NothingPicked(watches);
      NothingReported(watches, stored, timeout);
    } else {
      var before := NewEntriesFrom(watches, stored, timeout, n - 1);
      var w, entries := watches[n - 1], NewEntries(watches, stored, timeout, n - 1).value;
      NewEntryReports(w, stored, timeout);
      PickOneMore(watches, before, n);
      ReportOneMore(entries, watches, before, stored, timeout, n - 1);
      var entry := NewEntry(w, stored, timeout);
      if Monitored(w.observation) {
        assert entry == [entry[0]];
        origin := before + [n - 1];
      } else {
        assert entries + [] == entries;
        origin := before;
      }
    }
  }

  lemma NothingReported(watches: seq<Watch>, stored: seq<Entry>, timeout: int)
    ensures AllReport([], watches, [], stored, timeout)
  {
  }

  lemma NothingPicked(watches: seq<Watch>)
    ensures PicksMonitored(watches, [], 0)
  {
  }

  lemma PickOneMore(watches: seq<Watch>, before: seq<nat>, n: nat)
    requires 0 < n <= |watches| && PicksMonitored(watches, before, n - 1)
    ensures PicksMonitored(watches, if Monitored(watches[n - 1].observation) then before + [n - 1] else before, n)
  {
    hide Monitored;
    var origin := before + [n - 1];
    assert origin[|before|] == n - 1;
    assert forall i :: i in origin <==> i in before || i == n - 1;
  }

  lemma NewEntryReports(w: Watch, stored: seq<Entry>, timeout: int)
    requires !w.observation.InstanceNotLoaded?
    ensures var entry := NewEntry(w, stored, timeout);
      if Monitored(w.observation) then |entry| == 1 && ReportsAfter(entry[0], w, stored, timeout)
      else entry == []
  {
  }

  lemma {:induction false} PreviousIsFirst(stored: seq<Entry>, ref: ObjectReference)
    ensures FirstSince(stored, ref, Previous(stored, ref))
  {
    if stored != [] && stored[0].ref == ref {
      assert FirstAt(stored, ref, Previous(stored, ref), 0);
    } else if stored != [] {
      var rest := stored[1..];
      PreviousIsFirst(rest, ref);
      assert forall j :: 0 <= j < |rest| ==> stored[j + 1] == rest[j];
      if k: nat :| FirstAt(rest, ref, Previous(rest, ref), k) {
        assert forall j :: 1 <= j < k + 1 ==> stored[j] == rest[j - 1];
        assert FirstAt(stored, ref, Previous(stored, ref), k + 1);
      }
    }
  }

  // ---- Whole runs ----

  /** The stored entry of an Instance is a summary of everything the passes ever saw of it: FailedSince is empty
      exactly if the latest pass saw one fresh check in state Ok, and otherwise is the time of the first pass of the
      current streak; the status is Failed exactly if the latest pass saw no usable check, or a fresh failing check in
      a streak that began in an earlier pass, longer ago than the timeout. */
  lemma EntrySummarizesHistory(passes: seq<Pass>, timeout: int, ref: ObjectReference)
    ensures var h, entry := History(passes, ref), Lookup(Stored(passes, timeout), ref);
      && (entry.Some? <==> h != [] && h[|h| - 1].Some?)
      && (entry.Some? ==> (entry.value.failedSince == None <==> Healthy(h[|h| - 1].value, timeout)))
      && (entry.Some? && Healthy(h[|h| - 1].value, timeout) ==> entry.value.status == StatusOk)
      && (entry.Some? && !Healthy(h[|h| - 1].value, timeout) ==> exists start: nat :: CurrentStreak(h, timeout, start))
      && (forall start: nat :: CurrentStreak(h, timeout, start) ==>
            && entry.Some?
            && entry.value.failedSince == Some(h[start].value.clock.stamp)
            && (entry.value.status == StatusFailed <==>
                  || HardFailure(h[|h| - 1].value, timeout)
                  || (start < |h| - 1 && h[|h| - 1].value.clock.streak - h[start].value.clock.stamp > timeout)))
  {
    hide Stored, History, FailedSince, StreakStart, CurrentStreak, Lookup;
    var h := History(passes, ref);
    EntryIsLatest(passes, timeout, ref);
    NoStreakNoTime(h, timeout);
    forall start: nat | CurrentStreak(h, timeout, start)
      ensures start < |h| && Failing(h[start], timeout) && Failing(h[|h| - 1], timeout)
      ensures FailedSince(h, timeout) == Some(h[start].value.clock.stamp)
      ensures FailedSince(h[..|h| - 1], timeout) == if start < |h| - 1 then Some(h[start].value.clock.stamp) else None
    {
      StreakGivesTime(h, timeout, start);
    }
  }

  lemma NoStreakNoTime(h: seq<Option<Watch>>, timeout: int)
    ensures FailedSince(h, timeout).Some? <==> h != [] && Failing(h[|h| - 1], timeout)
    ensures FailedSince(h, timeout).Some? ==> exists start: nat :: CurrentStreak(h, timeout, start)
  {
    if h != [] && Failing(h[|h| - 1], timeout) {
      StreakStartIsStart(h, timeout);
    }
  }

  lemma StreakGivesTime(h: seq<Option<Watch>>, timeout: int, start: nat)
    requires CurrentStreak(h, timeout, start)
    ensures start < |h| && Failing(h[start], timeout) && Failing(h[|h| - 1], timeout)
    ensures FailedSince(h, timeout) == Some(h[start].value.clock.stamp)
    ensures FailedSince(h[..|h| - 1], timeout) == if start < |h| - 1 then Some(h[start].value.clock.stamp) else None
  {
    StreakIsUnique(h, timeout, start);
    if start < |h| - 1 {
      StreakIsUnique(h[..|h| - 1], timeout, start);
    }
  }

  // The first pass of the current streak, computed backwards.
  function StreakStart(h: seq<Option<Watch>>, timeout: int): nat
    requires h != [] && Failing(h[|h| - 1], timeout)
  {
    var n := |h| - 1;
    if n == 0 || !Failing(h[n - 1], timeout) then n else StreakStart(h[..n], timeout)
  }

  lemma {:induction false} StreakStartIsStart(h: seq<Option<Watch>>, timeout: int)
    requires h != [] && Failing(h[|h| - 1], timeout)
    ensures CurrentStreak(h, timeout, StreakStart(h, timeout))
  {
    var n := |h| - 1;
    if n > 0 && Failing(h[n - 1], timeout) {
      StreakStartIsStart(h[..n], timeout);
    }
  }

  lemma {:induction false} StreakIsUnique(h: seq<Option<Watch>>, timeout: int, start: nat)
    requires CurrentStreak(h, timeout, start)
    ensures Failing(h[|h| - 1], timeout) && start == StreakStart(h, timeout)
  {
    var n := |h| - 1;
    if start < n {
      assert Failing(h[n - 1], timeout);
      StreakIsUnique(h[..n], timeout, start);
    }
  }

  // FailedSince as the history defines it.
  function FailedSince(h: seq<Option<Watch>>, timeout: int): Option<Time> {
    if h == [] || !Failing(h[|h| - 1], timeout) then None
    else
      assert StreakStart(h, timeout) < |h| && h[StreakStart(h, timeout)].Some? by { StreakStartIsStart(h, timeout); }
      Some(h[StreakStart(h, timeout)].value.clock.stamp)
  }

  lemma {:induction false} FailedSinceGrows(h: seq<Option<Watch>>, w: Watch, timeout: int)
    requires !Healthy(w, timeout)
    ensures FailedSince(h + [Some(w)], timeout) == Some(Since(FailedSince(h, timeout), w.clock.stamp))
  {
    var g := h + [Some(w)];
    assert g[..|h|] == h;
    StreakStartIsStart(g, timeout);
    if h != [] && Failing(h[|h| - 1], timeout) {
      StreakStartIsStart(h, timeout);
    }
  }

  // The entry after a run is the one recorded for the last item of the history.
  lemma {:induction false} EntryIsLatest(passes: seq<Pass>, timeout: int, ref: ObjectReference)
    ensures var h, entry := History(passes, ref), Lookup(Stored(passes, timeout), ref);
      && Previous(Stored(passes, timeout), ref) == FailedSince(h, timeout)
      && (h == [] || h[|h| - 1].None? ==> entry.None?)
      && (h != [] && h[|h| - 1].Some? ==>
            var w := h[|h| - 1].value;
            var recorded := Recorded(w.observation, FailedSince(h[..|h| - 1], timeout), timeout, w.clock);
            recorded.Some? && entry == Some(Entry(ref, recorded.value.0, recorded.value.1)))
  {
    hide PassResult, NewEntries, Effective, Seen, StreakStart, Lookup;
    if passes == [] {
      assert Lookup(Stored(passes, timeout), ref) == None by { NothingStored(ref); }
    } else {
      var n := |passes| - 1;
      var p, stored, before := passes[n], Stored(passes[..n], timeout), History(passes[..n], ref);
      EntryIsLatest(passes[..n], timeout, ref);
      LookupPassResult(p, stored, timeout, ref);
      if Effective(p) {
        var seen := Seen(p.watches, ref, |p.watches|);
        assert (before + [seen])[..|before|] == before;
        if seen.Some? && !Healthy(seen.value, timeout) {
          FailedSinceGrows(before, seen.value, timeout);
        }
      }
    }
  }

  lemma NothingStored(ref: ObjectReference)
    ensures Lookup([], ref) == None
  {
  }

  lemma LookupPassResult(p: Pass, stored: seq<Entry>, timeout: int, ref: ObjectReference)
    ensures var result, seen := PassResult(p.watches, stored, timeout, p.due, p.update),
      Seen(p.watches, ref, |p.watches|);
      if !Effective(p) then result == stored
      else if seen.None? then Lookup(result, ref) == None
      else
        var recorded := Recorded(seen.value.observation, Previous(stored, ref), timeout, seen.value.clock);
        recorded.Some? && Lookup(result, ref) == Some(Entry(ref, recorded.value.0, recorded.value.1))
  {
    CompleteIffLoaded(p.watches, stored, timeout, |p.watches|);
    if Effective(p) {
      assert forall i :: 0 <= i < |p.watches| ==> p.watches[i] in p.watches;
      LookupNewEntries(p.watches, stored, timeout, ref, |p.watches|);
    }
  }

  lemma {:induction false} CompleteIffLoaded(watches: seq<Watch>, earlier: seq<Entry>, timeout: int, n: nat)
    requires n <= |watches|
    ensures NewEntries(watches, earlier, timeout, n).Some?
      <==> forall i :: 0 <= i < n ==> !watches[i].observation.InstanceNotLoaded?
  {
    if n > 0 {
      CompleteIffLoaded(watches, earlier, timeout, n - 1);
    }
  }

  lemma {:induction false} LookupNewEntries(watches: seq<Watch>, earlier: seq<Entry>, timeout: int,
      ref: ObjectReference, n: nat)
    requires n <= |watches| && NewEntries(watches, earlier, timeout, n).Some?
    ensures var seen := Seen(watches, ref, n);
      && (seen.Some? ==>
            && seen.value in watches[..n] && seen.value.ref == ref
            && Monitored(seen.value.observation))
      && Lookup(NewEntries(watches, earlier, timeout, n).value, ref)
         == if seen.None? then None else Some(NewEntry(seen.value, earlier, timeout)[0])
  {
    if n > 0 {
      LookupNewEntries(watches, earlier, timeout, ref, n - 1);
      var w := watches[n - 1];
      LookupConcat(NewEntries(watches, earlier, timeout, n - 1).value, NewEntry(w, earlier, timeout), ref);
      assert watches[..n] == watches[..n - 1] + [w];
    }
  }

  lemma {:induction false} LookupConcat(a: seq<Entry>, b: seq<Entry>, ref: ObjectReference)
    ensures Lookup(a + b, ref) == if Lookup(a, ref).Some? then Lookup(a, ref) else Lookup(b, ref)
  {
    if a == [] {
      assert a + b == b;
    } else {
      assert (a + b)[1..] == a[1..] + b;
      LookupConcat(a[1..], b, ref);
    }
  }

  /** While the clock does not run backwards, an Instance that is reported as Failed because of the age of its streak
      is reported as Failed again by every pass that sees it failing. */
  lemma FailedUntilSeenHealthy(passes: seq<Pass>, next: Pass, timeout: int, ref: ObjectReference)
    requires var h, entry := History(passes, ref), Lookup(Stored(passes, timeout), ref);
      && entry.Some? && entry.value.status == StatusFailed
      && h != [] && h[|h| - 1].Some? && !HardFailure(h[|h| - 1].value, timeout)
      && Effective(next)
      && var seen := Seen(next.watches, ref, |next.watches|);
         && Failing(seen, timeout)
         && h[|h| - 1].value.clock.streak <= seen.value.clock.streak
    ensures var entry := Lookup(Stored(passes + [next], timeout), ref);
      entry.Some? && entry.value.status == StatusFailed
  {
    var h, seen := History(passes, ref), Seen(next.watches, ref, |next.watches|);
    NextHistory(passes, next, ref);
    EntrySummarizesHistory(passes, timeout, ref);
    EntrySummarizesHistory(passes + [next], timeout, ref);
    var start: nat :| CurrentStreak(h, timeout, start);
    StreakGoesOn(h, seen, timeout, start);
  }

  lemma NextHistory(passes: seq<Pass>, next: Pass, ref: ObjectReference)
    requires Effective(next)
    ensures History(passes + [next], ref) == History(passes, ref) + [Seen(next.watches, ref, |next.watches|)]
  {
    assert (passes + [next])[..|passes|] == passes;
  }

  lemma StreakGoesOn(h: seq<Option<Watch>>, seen: Option<Watch>, timeout: int, start: nat)
    requires CurrentStreak(h, timeout, start) && Failing(seen, timeout)
    ensures CurrentStreak(h + [seen], timeout, start)
  {
  }

  // A pass over one Instance at time `t`.
  function At(ref: ObjectReference, t: Time, o: Observation): Pass {
    Pass([Watch(ref, o, Clock(t, t, t))], true, Applied)
  }

  function FailingAt(ref: ObjectReference, t: Time): Pass {
    At(ref, t, Checks([Check(t, false)]))
  }

  /** A pass that leaves an Instance out, here because its Installation is progressing, ends its streak: an Instance
      that has been failing for longer than the timeout, and was reported as Failed, is reported as Ok again. */
  lemma ProgressForgetsTheStreak(ref: ObjectReference)
    ensures var run := [FailingAt(ref, 0), FailingAt(ref, 100)];
      Lookup(Stored(run, 60), ref) == Some(Entry(ref, StatusFailed, Some(0)))
    ensures var run := [FailingAt(ref, 0), FailingAt(ref, 100), At(ref, 200, InstallationProgressing),
      FailingAt(ref, 300)];
      Lookup(Stored(run, 60), ref) == Some(Entry(ref, StatusOk, Some(300)))
  {
    hide Stored, PassResult, NewEntries, Effective;
    OnePass([], ref, 0, Checks([Check(0, false)]));
    var run := [] + [FailingAt(ref, 0)];
    NoneStored();
    OnePass(run, ref, 100, Checks([Check(100, false)]));
    assert run + [FailingAt(ref, 100)] == [FailingAt(ref, 0), FailingAt(ref, 100)];
    run := run + [FailingAt(ref, 100)];
    OnePass(run, ref, 200, InstallationProgressing);
    run := run + [At(ref, 200, InstallationProgressing)];
    OnePass(run, ref, 300, Checks([Check(300, false)]));
    assert run + [FailingAt(ref, 300)]
      == [FailingAt(ref, 0), FailingAt(ref, 100), At(ref, 200, InstallationProgressing), FailingAt(ref, 300)];
  }

  lemma NoneStored()
    ensures Stored([], 60) == []
  {
  }

  lemma OnePass(run: seq<Pass>, ref: ObjectReference, t: Time, o: Observation)
    requires !o.InstanceNotLoaded?
    ensures Stored(run + [At(ref, t, o)], 60) == NewEntry(Watch(ref, o, Clock(t, t, t)), Stored(run, 60), 60)
  {
    var p, before := At(ref, t, o), Stored(run, 60);
    assert (run + [p])[..|run|] == run;
    assert NewEntries(p.watches, before, 60, 0) == Some([]);
    assert NewEntries(p.watches, before, 60, 1) == Some([] + NewEntry(p.watches[0], before, 60));
  }
}
