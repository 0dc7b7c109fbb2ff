// A direct, batch definition of what a history is, read off the complete observation log from
// left to right, and the proof that folding AppendStatus over the log computes it.
module Compaction {
  import opened Statuses

  // ---------------------------------------------------------------- the batch definition

  // Length of the leading stretch of observations that share one version.
  function RunLength(log: seq<DeploymentStatus>): (n: nat)
    ensures n <= |log| && (log != [] ==> n > 0)
  {
    if |log| <= 1 then |log|
    else if log[0].version == log[1].version then 1 + RunLength(log[1..])
    else 1
  }

  function LeadingPendings(run: seq<DeploymentStatus>): (n: nat)
    ensures n <= |run|
    ensures forall i :: 0 <= i < n ==> run[i].state.Pending?
    ensures n < |run| ==> !run[n].state.Pending?
  {
    if run == [] || !run[0].state.Pending? then 0 else 1 + LeadingPendings(run[1..])
  }

  // Length of the longest prefix that consists of Pendings and observations in `state`, and ends
  // with one in `state`.
  function StretchLength(run: seq<DeploymentStatus>, state: HealthState): (n: nat)
    ensures n <= |run|
  {
    if run == [] || !(run[0].state.Pending? || run[0].state == state) then 0
    else
      var n := StretchLength(run[1..], state);
      if n > 0 then 1 + n else if run[0].state == state then 1 else 0
  }

  // One entry per stretch of a single-version run. Pendings inside the run leave no entry, only a
  // trailing block of them leaves one, which starts with the block. A Healthy stretch starts at
  // its first Healthy observation; any other stretch starts right where the previous one ended.
  function CompactRun(run: seq<DeploymentStatus>): History {
    if run == [] then []
    else
      var p := LeadingPendings(run);
      if p == |run| then [run[0]]
      else
        var state := run[p].state;
        var n := StretchLength(run, state);
        StretchIsLonger(run, state);
        [StretchEntry(run, p)] + CompactRun(run[n..])
  }

  // The entry of a stretch whose first conclusive observation is the one at `p`.
  function StretchEntry(run: seq<DeploymentStatus>, p: nat): DeploymentStatus
    requires p < |run|
  {
    DeploymentStatus(run[0].version, run[p].state, if run[p].state.Healthy? then run[p].start else run[0].start)
  }

  function Compact(log: seq<DeploymentStatus>): History {
    if log == [] then []
    else CompactRun(log[..RunLength(log)]) + Compact(log[RunLength(log)..])
  }

  lemma {:induction false} StretchIsLonger(run: seq<DeploymentStatus>, state: HealthState)
    requires LeadingPendings(run) < |run| && run[LeadingPendings(run)].state == state
    ensures StretchLength(run, state) > LeadingPendings(run)
  {
    if run[0].state.Pending? {
      StretchIsLonger(run[1..], state);
    }
  }

  // ---------------------------------------------------------------- one more observation

  ghost predicate AllPending(run: seq<DeploymentStatus>) {
    forall i :: 0 <= i < |run| ==> run[i].state.Pending?
  }

  lemma {:induction false} PendingsThen(run: seq<DeploymentStatus>, s: DeploymentStatus)
    ensures LeadingPendings(run) < |run| ==> LeadingPendings(run + [s]) == LeadingPendings(run)
    ensures LeadingPendings(run) == |run| ==>
              LeadingPendings(run + [s]) == if s.state.Pending? then |run| + 1 else |run|
  {
    if run != [] && run[0].state.Pending? {
      assert (run + [s])[1..] == run[1..] + [s];
      PendingsThen(run[1..], s);
    } else if run == [] {
      assert (run + [s])[1..] == [];
    }
  }

  lemma AllPendingTail(run: seq<DeploymentStatus>)
    requires run != [] && run[0].state.Pending?
    ensures AllPending(run[1..]) <==> AllPending(run)
  {
    if AllPending(run[1..]) {
      forall i | 0 <= i < |run| ensures run[i].state.Pending? {
        assert i > 0 ==> run[i] == run[1..][i - 1];
      }
    }
  }

  lemma StretchUnfold(run: seq<DeploymentStatus>, state: HealthState, tail: seq<DeploymentStatus>)
    requires run != [] && (run[0].state.Pending? || run[0].state == state) && tail == run[1..]
    ensures var m := StretchLength(tail, state);
            StretchLength(run, state) == if m > 0 then 1 + m else if run[0].state == state then 1 else 0
  {
  }

  ghost predicate StretchThenHolds(run: seq<DeploymentStatus>, s: DeploymentStatus, state: HealthState, n: nat)
    requires n <= |run|
  {
    && StretchLength(run + [s], state) == (if s.state == state && AllPending(run[n..]) then |run| + 1 else n)
    && (n < |run| ==> run[n].state != state)
  }

  lemma StretchThenStep(run: seq<DeploymentStatus>, s: DeploymentStatus, state: HealthState, m: nat,
                        tail: seq<DeploymentStatus>)
    requires run != [] && (run[0].state.Pending? || run[0].state == state) && !state.Pending?
    requires tail == run[1..] && m == StretchLength(tail, state) && StretchThenHolds(tail, s, state, m)
    ensures StretchThenHolds(run, s, state, StretchLength(run, state))
  {
    hide StretchLength, AllPending;
    var n := StretchLength(run, state);
    StretchUnfold(run, state, tail);
    assert (run + [s])[1..] == tail + [s];
    StretchUnfold(run + [s], state, tail + [s]);
    if n > 0 {
      assert run[n..] == tail[m..];
    } else {
      assert run[n..] == run && tail[m..] == tail;
      AllPendingTail(run);
    }
  }

  lemma {:induction false} StretchThen(run: seq<DeploymentStatus>, s: DeploymentStatus, state: HealthState)
    requires !state.Pending?
    ensures StretchThenHolds(run, s, state, StretchLength(run, state))
  {
    if run == [] {
      assert (run + [s])[1..] == [];
    } else if run[0].state.Pending? || run[0].state == state {
      hide StretchThenHolds;
      StretchThen(run[1..], s, state);
      StretchThenStep(run, s, state, StretchLength(run[1..], state), run[1..]);
    } else {
      assert run[0..][0] == run[0];
    }
  }

  lemma RewriteIsLocal(a: History, b: History, s: DeploymentStatus)
    requires EndsPending(b, s.version)
    ensures EndsPending(a + b, s.version) && Rewrite(a + b, s) == a + Rewrite(b, s)
    ensures (a + b)[..|a + b| - 1] == a + b[..|b| - 1]
  {
    assert Last(a + b) == Last(b);
  }

  lemma AppendIsLocalAtPending(a: History, b: History, s: DeploymentStatus)
    requires EndsPending(b, s.version)
    requires |b| >= 2 || a == [] || !SameCondition(Last(a), s)
    ensures Append(a + b, s) == a + Append(b, s)
  {
    hide Append, Rewrite;
    var ab, n := a + b, |a + b|;
    RewriteIsLocal(a, b, s);
    AppendAtPending(ab, s);
    AppendAtPending(b, s);
    assert |b| >= 2 ==> ab[n - 2] == b[|b| - 2];
    assert |b| == 1 && a != [] ==> ab[n - 2] == Last(a);
  }

  lemma AppendIsLocalElsewhere(a: History, b: History, s: DeploymentStatus)
    requires b != [] && !EndsPending(b, s.version)
    ensures Append(a + b, s) == a + Append(b, s)
  {
    hide Append;
    var ab := a + b;
    assert Last(ab) == Last(b);
    AppendElsewhere(ab, s);
    AppendElsewhere(b, s);
    assert ab + [s] == a + (b + [s]);
  }

  // AppendStatus looks no further back than two entries.
  lemma AppendIsLocal(a: History, b: History, s: DeploymentStatus)
    requires b != []
    requires |b| >= 2 || !EndsPending(b, s.version) || a == [] || !SameCondition(Last(a), s)
    ensures Append(a + b, s) == a + Append(b, s)
  {
    hide Append;
    if EndsPending(b, s.version) {
      AppendIsLocalAtPending(a, b, s);
    } else {
      AppendIsLocalElsewhere(a, b, s);
    }
  }

  ghost predicate OfVersion(run: seq<DeploymentStatus>, version: string) {
    forall i :: 0 <= i < |run| ==> run[i].version == version
  }

  lemma {:induction false} CompactRunShape(run: seq<DeploymentStatus>, version: string)
    requires OfVersion(run, version)
    ensures OfVersion(CompactRun(run), version)
    ensures run != [] ==> CompactRun(run) != []
    ensures run != [] && !AllPending(run) ==> !CompactRun(run)[0].state.Pending?
    ensures run != [] && AllPending(run) ==> CompactRun(run) == [run[0]]
  {
    if run != [] && LeadingPendings(run) < |run| {
      var state := run[LeadingPendings(run)].state;
      StretchIsLonger(run, state);
      CompactRunShape(run[StretchLength(run, state)..], version);
    }
  }

  lemma CompactRunOfPendings(run: seq<DeploymentStatus>, s: DeploymentStatus)
    requires run != [] && AllPending(run) && OfVersion(run, s.version)
    ensures CompactRun(run + [s]) == Append(CompactRun(run), s)
  {
    hide Append, CompactRun;
    CompactRunShape(run, s.version);
    PendingsThen(run, s);
    AppendAtPending([run[0]], s);
    assert LeadingPendings(run) == |run|;
    if s.state.Pending? {
      assert OfVersion(run + [s], s.version) && AllPending(run + [s]);
      CompactRunShape(run + [s], s.version);
    } else {
      assert AllPending(run[StretchLength(run, s.state)..]);
      StretchThen(run, s, s.state);
      assert (run + [s])[|run| + 1..] == [];
      UnfoldRun(run + [s], |run|, |run| + 1, []);
      CompactRunOfNone();
    }
  }

  lemma {:induction false} CompactRunThen(run: seq<DeploymentStatus>, s: DeploymentStatus)
    requires run != [] && OfVersion(run, s.version)
    ensures CompactRun(run + [s]) == Append(CompactRun(run), s)
    decreases |run|
  {
    hide Append;
    if LeadingPendings(run) == |run| {
      CompactRunOfPendings(run, s);
    } else {
      var p := LeadingPendings(run);
      var n := StretchLength(run, run[p].state);
      var rest := run[n..];
      StretchIsLonger(run, run[p].state);
      if s.state == run[p].state && AllPending(rest) {
        StretchGoesOn(run, s, p, n, rest);
      } else {
        if rest == [] {
          CompactRunOfOne(s);
          AppendCases([], s);
        } else {
          CompactRunThen(rest, s);
        }
        StretchIsOver(run, s, p, n, rest);
      }
    }
  }

  lemma UnfoldRun(run: seq<DeploymentStatus>, p: nat, n: nat, rest: seq<DeploymentStatus>)
    requires p == LeadingPendings(run) && p < |run|
    requires n == StretchLength(run, run[p].state) && rest == run[n..]
    ensures CompactRun(run) == [StretchEntry(run, p)] + CompactRun(rest)
  {
    StretchIsLonger(run, run[p].state);
  }

  lemma EntryThenPendings(e: DeploymentStatus, rest: seq<DeploymentStatus>, s: DeploymentStatus)
    requires SameCondition(e, s) && !s.state.Pending?
    requires OfVersion(rest, s.version) && AllPending(rest)
    ensures Append([e] + CompactRun(rest), s) == [e]
  {
    hide Append, CompactRun;
    CompactRunShape(rest, s.version);
    if rest == [] {
      assert CompactRun(rest) == [] by { CompactRunOfNone(); }
      assert [e] + [] == [e];
      AppendElsewhere([e], s);
    } else {
      var h := [e] + [rest[0]];
      AppendAtPending(h, s);
      assert h[..1] == [e];
    }
  }

  lemma CompactRunOfNone()
    ensures CompactRun([]) == []
  {
  }

  lemma StretchGoesOn(run: seq<DeploymentStatus>, s: DeploymentStatus, p: nat, n: nat, rest: seq<DeploymentStatus>)
    requires p == LeadingPendings(run) && p < |run|
    requires n == StretchLength(run, run[p].state) && rest == run[n..]
    requires OfVersion(run, s.version)
    requires s.state == run[p].state && AllPending(rest)
    ensures CompactRun(run + [s]) == Append(CompactRun(run), s)
  {
    hide Append, CompactRun;
    UnfoldRun(run, p, n, rest);
    PendingsThen(run, s);
    StretchThen(run, s, s.state);
    assert (run + [s])[|run| + 1..] == [];
    UnfoldRun(run + [s], p, |run| + 1, []);
    CompactRunOfNone();
    EntryThenPendings(StretchEntry(run, p), rest, s);
  }

  lemma UnfoldAfterStretch(run: seq<DeploymentStatus>, s: DeploymentStatus, p: nat, n: nat, rest: seq<DeploymentStatus>)
    requires p == LeadingPendings(run) && p < |run|
    requires n == StretchLength(run, run[p].state) && rest == run[n..]
    requires !(s.state == run[p].state && AllPending(rest))
    ensures CompactRun(run + [s]) == [StretchEntry(run, p)] + CompactRun(rest + [s])
  {
    PendingsThen(run, s);
    StretchThen(run, s, run[p].state);
    assert (run + [s])[n..] == rest + [s];
    UnfoldRun(run + [s], p, n, rest + [s]);
  }

  lemma StretchIsOver(run: seq<DeploymentStatus>, s: DeploymentStatus, p: nat, n: nat, rest: seq<DeploymentStatus>)
    requires p == LeadingPendings(run) && p < |run|
    requires n == StretchLength(run, run[p].state) && rest == run[n..]
    requires OfVersion(run, s.version)
    requires !(s.state == run[p].state && AllPending(rest))
    requires CompactRun(rest + [s]) == Append(CompactRun(rest), s)
    ensures CompactRun(run + [s]) == Append(CompactRun(run), s)
  {
    UnfoldRun(run, p, n, rest);
    UnfoldAfterStretch(run, s, p, n, rest);
    PrependEntry(StretchEntry(run, p), rest, s, run[p].state);
  }

  lemma PrependEntry(e: DeploymentStatus, rest: seq<DeploymentStatus>, s: DeploymentStatus, state: HealthState)
    requires OfVersion(rest, s.version) && e.state == state && !state.Pending?
    requires !(s.state == state && AllPending(rest))
    ensures Append([e] + CompactRun(rest), s) == [e] + Append(CompactRun(rest), s)
  {
    hide Append;
    if rest == [] {
      AppendCases([e], s);
      AppendCases([], s);
      assert [e] + [] == [e];
    } else {
      CompactRunShape(rest, s.version);
      RestNeedsNoEarlierEntry(rest, e, s, state);
      AppendIsLocal([e], CompactRun(rest), s);
    }
  }

  lemma RestNeedsNoEarlierEntry(rest: seq<DeploymentStatus>, e: DeploymentStatus, s: DeploymentStatus,
                                state: HealthState)
    requires rest != [] && OfVersion(rest, s.version) && e.state == state
    requires !(s.state == state && AllPending(rest))
    ensures var b := CompactRun(rest);
            b != [] && (|b| >= 2 || !EndsPending(b, s.version) || !SameCondition(Last([e]), s))
  {
    CompactRunShape(rest, s.version);
  }

  lemma CompactRunOfOne(s: DeploymentStatus)
    ensures CompactRun([] + [s]) == [s] == CompactRun([s])
  {
    assert [] + [s] == [s];
    assert [s][1..] == [];
    assert CompactRun([s][1..]) == [];
  }

  lemma {:induction false} RunLengthThen(log: seq<DeploymentStatus>, s: DeploymentStatus)
    requires log != []
    ensures OfVersion(log[..RunLength(log)], log[0].version)
    ensures var n := RunLength(log);
            n < |log| ==> log[n].version != log[0].version
    ensures RunLength(log + [s]) ==
            if RunLength(log) == |log| && s.version == log[0].version then |log| + 1 else RunLength(log)
  {
    if |log| > 1 && log[0].version == log[1].version {
      assert (log + [s])[1..] == log[1..] + [s];
      RunLengthThen(log[1..], s);
      var n := RunLength(log);
      forall i | 0 <= i < n ensures log[..n][i].version == log[0].version {
        if i > 0 { assert log[i] == log[1..][..n - 1][i - 1]; }
      }
    } else if |log| == 1 {
      assert (log + [s])[1..] == [s];
    }
  }

  lemma UnfoldCompact(log: seq<DeploymentStatus>, n: nat, run: seq<DeploymentStatus>, rest: seq<DeploymentStatus>)
    requires log != [] && n == RunLength(log) && run == log[..n] && rest == log[n..]
    ensures Compact(log) == CompactRun(run) + Compact(rest)
  {
    hide CompactRun;
  }

  lemma CompactThenInLaterRun(log: seq<DeploymentStatus>, s: DeploymentStatus, n: nat, run: seq<DeploymentStatus>,
                              rest: seq<DeploymentStatus>)
    requires log != [] && n == RunLength(log) < |log| && run == log[..n] && rest == log[n..]
    requires Compact(rest + [s]) == Append(Compact(rest), s)
    ensures Compact(log + [s]) == Append(Compact(log), s)
  {
    hide Append, CompactRun, Compact;
    RunLengthThen(log, s);
    CompactRunShape(run, log[0].version);
    UnfoldCompact(log, n, run, rest);
    assert (log + [s])[..n] == run && (log + [s])[n..] == rest + [s];
    UnfoldCompact(log + [s], n, run, rest + [s]);
    CompactShape(rest);
    RunsDoNotInteract(CompactRun(run), Compact(rest), s);
  }

  lemma RunsDoNotInteract(a: History, b: History, s: DeploymentStatus)
    requires a != [] && b != [] && Last(a).version != b[0].version
    ensures Append(a + b, s) == a + Append(b, s)
  {
    hide Append;
    AppendIsLocal(a, b, s);
  }

  lemma CompactThenInLastRun(log: seq<DeploymentStatus>, s: DeploymentStatus)
    requires log != [] && RunLength(log) == |log|
    ensures Compact(log + [s]) == Append(Compact(log), s)
  {
    hide Append, CompactRun, Compact;
    var n := |log|;
    RunLengthThen(log, s);
    CompactRunShape(log, log[0].version) by {
      assert log[..n] == log;
    }
    UnfoldCompact(log, n, log, []);
    CompactOfNone();
    assert Compact(log) == CompactRun(log);
    if s.version == log[0].version {
      assert log[..n] == log;
      UnfoldCompact(log + [s], n + 1, log + [s], []);
      CompactRunThen(log, s);
    } else {
      UnfoldCompact(log + [s], n, log, [s]);
      CompactOfOne(s);
      AppendElsewhere(CompactRun(log), s);
    }
  }

  lemma {:induction false} CompactThen(log: seq<DeploymentStatus>, s: DeploymentStatus)
    ensures Compact(log + [s]) == Append(Compact(log), s)
    decreases |log|
  {
    hide Append, CompactRun, Compact;
    var n := RunLength(log);
    if log == [] {
      CompactOfOne(s);
    } else if n < |log| {
      CompactThen(log[n..], s);
      CompactThenInLaterRun(log, s, n, log[..n], log[n..]);
    } else {
      CompactThenInLastRun(log, s);
    }
  }

  lemma CompactOfNone()
    ensures Compact([]) == []
  {
  }

  lemma CompactOfOne(s: DeploymentStatus)
    ensures Compact([s]) == [s] && Compact([] + [s]) == [s]
    ensures Append(Compact([]), s) == [s]
  {
    hide Append;
    assert [] + [s] == [s] && [s][..1] == [s] && [s][1..] == [];
    CompactRunOfOne(s);
    AppendCases([], s);
  }

  lemma CompactShape(log: seq<DeploymentStatus>)
    requires log != []
    ensures Compact(log) != [] && Compact(log)[0].version == log[0].version
  {
    RunLengthThen(log, log[0]);
    CompactRunShape(log[..RunLength(log)], log[0].version);
  }

  // Folding AppendStatus over any observation log computes the batch definition.
  lemma {:induction false} HistoryIsCompaction(log: seq<DeploymentStatus>)
    ensures HistoryOf(log) == Compact(log)
  {
    hide Append, Compact;
    if log == [] {
      CompactOfNone();
    } else {
      hide HistoryOf;
      var front, s := log[..|log| - 1], Last(log);
      assert log == front + [s];
      HistoryIsCompaction(front);
      HistoryOfOneMore(front, s);
      CompactThen(front, s);
    }
  }

  // ---------------------------------------------------------------- history against raw log

  // No conclusive observation is ever lost.
  lemma {:induction false} ConclusiveIsRecorded(log: seq<DeploymentStatus>, i: nat)
    requires i < |log| && !log[i].state.Pending?
    ensures exists k :: 0 <= k < |HistoryOf(log)| && SameCondition(HistoryOf(log)[k], log[i])
  {
    hide Append;
    var front := log[..|log| - 1];
    if i == |log| - 1 {
      AppendEndsWithObserved(HistoryOf(front), Last(log));
      assert SameCondition(HistoryOf(log)[|HistoryOf(log)| - 1], log[i]);
    } else {
      ConclusiveIsRecorded(front, i);
      var k :| 0 <= k < |HistoryOf(front)| && SameCondition(HistoryOf(front)[k], front[i]);
      NormalForm(front);
      ConclusiveEntryStays(HistoryOf(front), Last(log), k);
      assert SameCondition(HistoryOf(log)[k], log[i]);
    }
  }

  lemma ConclusiveEntryStays(h: History, s: DeploymentStatus, k: nat)
    requires PendingYields(h) && k < |h| && !h[k].state.Pending?
    ensures k < |Append(h, s)| && Append(h, s)[k] == h[k]
  {
    hide Append, PendingYields;
    var g := Append(h, s);
    SettledSurvivesAppend(h, s);
    assert k < |Settled(h)| && Settled(h)[k] == h[k];
    assert k < |Settled(g)| <= |g| && Settled(g)[k] == g[k];
  }

  // Every Healthy entry is one of the observations, with that observation's own time.
  lemma {:induction false} HealthyIsObserved(log: seq<DeploymentStatus>, k: nat)
    requires k < |HistoryOf(log)| && HistoryOf(log)[k].state.Healthy?
    ensures HistoryOf(log)[k] in log
  {
    hide Append;
    if log != [] {
      var front := log[..|log| - 1];
      var h := HistoryOf(front);
      AppendCases(h, Last(log));
      if k < |h| && HistoryOf(log)[k] == h[k] {
        HealthyIsObserved(front, k);
      } else {
        assert HistoryOf(log)[k] == Last(log);
      }
    }
  }

  lemma {:induction false} VersionIsObserved(log: seq<DeploymentStatus>, k: nat)
    requires k < |HistoryOf(log)|
    ensures exists i :: 0 <= i < |log| && log[i].version == HistoryOf(log)[k].version
  {
    hide Append;
    if log != [] {
      var front := log[..|log| - 1];
      var h := HistoryOf(front);
      AppendCases(h, Last(log));
      if k < |h| && HistoryOf(log)[k].version == h[k].version {
        VersionIsObserved(front, k);
        var i :| 0 <= i < |front| && front[i].version == h[k].version;
        assert log[i].version == HistoryOf(log)[k].version;
      } else {
        assert log[|log| - 1].version == HistoryOf(log)[k].version;
      }
    }
  }
}
