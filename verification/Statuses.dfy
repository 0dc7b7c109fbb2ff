// The history that one deployment keeps of another one: the spec functions of
// DeploymentStatusesReport.AppendStatus and what every run of it keeps.
module Statuses {

  // HealthState is a string type in the source, so values besides the three named constants
  // exist; the zero value is Other("").
  datatype HealthState = Healthy | Pending | Unhealthy | Other(name: string)

  datatype DeploymentStatus = DeploymentStatus(version: string, state: HealthState, start: int)

  type History = seq<DeploymentStatus>

  predicate SameCondition(a: DeploymentStatus, b: DeploymentStatus) {
    a.version == b.version && a.state == b.state
  }

  function Last(h: History): DeploymentStatus
    requires h != []
  {
    h[|h| - 1]
  }

  predicate EndsPending(h: History, version: string) {
    h != [] && Last(h).version == version && Last(h).state.Pending?
  }

  // The slice a caller still holds through the old header once AppendStatus has run: a Pending
  // tail of the same version is overwritten through a pointer into the shared array.
  function Rewrite(h: History, s: DeploymentStatus): History {
    if EndsPending(h, s.version) then
      h[..|h| - 1] + [DeploymentStatus(s.version, s.state, if s.state.Healthy? then s.start else Last(h).start)]
    else
      h
  }

  // The statuses of the report itself once AppendStatus has run.
  function Append(h: History, s: DeploymentStatus): History {
    DropRepeat(if EndsPending(h, s.version) then Rewrite(h, s) else h + [s], s)
  }

  // The closing step of AppendStatus: the new tail goes when the entry before it says the same.
  function DropRepeat(h: History, s: DeploymentStatus): History {
    if |h| >= 2 && SameCondition(h[|h| - 2], s) then h[..|h| - 1] else h
  }

  // AppendStatus on a Pending tail of the same version collapses or rewrites it.
  lemma AppendAtPending(h: History, s: DeploymentStatus)
    requires EndsPending(h, s.version)
    ensures var collapses := |h| >= 2 && SameCondition(h[|h| - 2], s);
            Append(h, s) == if collapses then h[..|h| - 1] else Rewrite(h, s)
  {
    assert Rewrite(h, s)[..|h| - 1] == h[..|h| - 1];
  }

  // Anywhere else it drops a repeat or appends.
  lemma AppendElsewhere(h: History, s: DeploymentStatus)
    requires !EndsPending(h, s.version)
    ensures var repeats := h != [] && SameCondition(Last(h), s);
            Append(h, s) == if repeats then h else h + [s]
  {
    assert (h + [s])[..|h|] == h;
  }

  lemma AppendCases(h: History, s: DeploymentStatus)
    ensures EndsPending(h, s.version) ==>
              var collapses := |h| >= 2 && SameCondition(h[|h| - 2], s);
              Append(h, s) == if collapses then h[..|h| - 1] else Rewrite(h, s)
    ensures !EndsPending(h, s.version) ==>
              var repeats := h != [] && SameCondition(Last(h), s);
              Append(h, s) == if repeats then h else h + [s]
  {
    hide Append;
    if EndsPending(h, s.version) {
      AppendAtPending(h, s);
    } else {
      AppendElsewhere(h, s);
    }
  }

  function AppendAll(h: History, log: seq<DeploymentStatus>): History {
    if log == [] then h else Append(AppendAll(h, log[..|log| - 1]), Last(log))
  }

  // The history that a whole observation log leaves behind.
  function HistoryOf(log: seq<DeploymentStatus>): History {
    AppendAll([], log)
  }

  lemma HistoryOfOneMore(log: seq<DeploymentStatus>, s: DeploymentStatus)
    ensures HistoryOf(log + [s]) == Append(HistoryOf(log), s)
  {
    hide Append;
    assert (log + [s])[..|log|] == log;
  }

  lemma {:induction false} AppendAllConcat(h: History, a: seq<DeploymentStatus>, b: seq<DeploymentStatus>)
    ensures AppendAll(h, a + b) == AppendAll(AppendAll(h, a), b)
  {
    hide Append;
    if b == [] {
      assert a + b == a;
    } else {
      AppendAllConcat(h, a, b[..|b| - 1]);
      assert (a + b)[..|a + b| - 1] == a + b[..|b| - 1];
    }
  }

  // ---------------------------------------------------------------- normal form

  ghost predicate NoRepeats(h: History) {
    forall i, j :: 0 <= i < j < |h| && j == i + 1 ==> !SameCondition(h[i], h[j])
  }

  // A Pending entry is never followed by an entry of its own version.
  ghost predicate PendingYields(h: History) {
    forall i, j :: 0 <= i < j < |h| && j == i + 1 && h[i].state.Pending? ==> h[j].version != h[i].version
  }

  ghost predicate Sorted(h: History) {
    forall i, j :: 0 <= i < j < |h| ==> h[i].start <= h[j].start
  }

  ghost predicate NotAfter(h: History, t: int) {
    forall i :: 0 <= i < |h| ==> h[i].start <= t
  }

  lemma AppendEndsWithObserved(h: History, s: DeploymentStatus)
    ensures Append(h, s) != [] && SameCondition(Last(Append(h, s)), s)
  {
    hide Append;
    AppendCases(h, s);
  }

  lemma AppendKeepsPendingYields(h: History, s: DeploymentStatus)
    requires PendingYields(h)
    ensures PendingYields(Append(h, s)) && PendingYields(Rewrite(h, s))
  {
    hide Append;
    AppendCases(h, s);
  }

  lemma AppendKeepsNoRepeats(h: History, s: DeploymentStatus)
    requires NoRepeats(h)
    ensures NoRepeats(Append(h, s))
  {
    hide Append;
    AppendCases(h, s);
  }

  lemma SortedExtends(h: History, x: DeploymentStatus, t: int)
    requires Sorted(h) && NotAfter(h, x.start) && x.start <= t
    ensures Sorted(h + [x]) && NotAfter(h + [x], t)
  {
    var g := h + [x];
    forall i, j | 0 <= i < j < |g| ensures g[i].start <= g[j].start {
      assert g[i] == h[i];
    }
    forall i | 0 <= i < |g| ensures g[i].start <= t {
      if i < |h| { assert g[i] == h[i]; }
    }
  }

  lemma SortedFront(h: History)
    requires Sorted(h) && h != []
    ensures Sorted(h[..|h| - 1]) && NotAfter(h[..|h| - 1], Last(h).start)
  {
    var f := h[..|h| - 1];
    forall i | 0 <= i < |f| ensures f[i].start <= Last(h).start {
      assert f[i] == h[i];
    }
  }

  lemma NotAfterWeakens(h: History, t: int, u: int)
    requires NotAfter(h, t) && t <= u
    ensures NotAfter(h, u)
  {
  }

  lemma AppendKeepsSorted(h: History, s: DeploymentStatus)
    requires Sorted(h) && NotAfter(h, s.start)
    ensures Sorted(Append(h, s)) && NotAfter(Append(h, s), s.start)
    ensures Sorted(Rewrite(h, s)) && NotAfter(Rewrite(h, s), s.start)
  {
    hide Append;
    AppendCases(h, s);
    if EndsPending(h, s.version) {
      SortedFront(h);
      NotAfterWeakens(h[..|h| - 1], Last(h).start, s.start);
      SortedExtends(h[..|h| - 1], Last(Rewrite(h, s)), s.start);
    } else {
      SortedExtends(h, s, s.start);
    }
  }

  // Every run of AppendStatus from the empty history ends in normal form: neighbours differ in
  // version or state, a Pending entry is never followed by its own version, Starts are sorted
  // when the clock is monotone, and the last entry carries what was just observed.
  lemma {:induction false} NormalForm(log: seq<DeploymentStatus>)
    ensures NoRepeats(HistoryOf(log)) && PendingYields(HistoryOf(log))
    ensures log != [] ==> HistoryOf(log) != [] && SameCondition(Last(HistoryOf(log)), Last(log))
    ensures Sorted(log) ==> Sorted(HistoryOf(log)) && (log != [] ==> NotAfter(HistoryOf(log), Last(log).start))
  {
    if log != [] {
      var front := log[..|log| - 1];
      NormalForm(front);
      AppendEndsWithObserved(HistoryOf(front), Last(log));
      AppendKeepsPendingYields(HistoryOf(front), Last(log));
      AppendKeepsNoRepeats(HistoryOf(front), Last(log));
      if Sorted(log) {
        assert NotAfter(HistoryOf(front), Last(log).start) by {
          if front != [] {
            assert Last(front).start <= Last(log).start;
          }
        }
        AppendKeepsSorted(HistoryOf(front), Last(log));
      }
    }
  }

  // Within one version's stretch of the history only the last entry may be Pending.
  lemma SameVersionNeighbours(log: seq<DeploymentStatus>, i: int)
    requires 0 < i < |HistoryOf(log)| && HistoryOf(log)[i - 1].version == HistoryOf(log)[i].version
    ensures !HistoryOf(log)[i - 1].state.Pending?
    ensures HistoryOf(log)[i].state != HistoryOf(log)[i - 1].state
  {
    NormalForm(log);
  }

  // ---------------------------------------------------------------- poll-rate independence

  function Destutter(log: seq<DeploymentStatus>): seq<DeploymentStatus> {
    if |log| <= 1 then log
    else if SameCondition(log[|log| - 2], log[|log| - 1]) then Destutter(log[..|log| - 1])
    else Destutter(log[..|log| - 1]) + [Last(log)]
  }

  lemma RepeatIsDropped(h: History, s: DeploymentStatus)
    requires h != [] && SameCondition(Last(h), s)
    requires NoRepeats(h) && PendingYields(h)
    ensures Append(h, s) == h
  {
    hide Append;
    AppendCases(h, s);
    if s.state.Pending? {
      assert Rewrite(h, s) == h;
    }
  }

  // Polling more often changes nothing: repeated observations leave no trace in the history.
  lemma {:induction false} PollRateIndependence(log: seq<DeploymentStatus>)
    ensures HistoryOf(Destutter(log)) == HistoryOf(log)
  {
    if |log| > 1 {
      var front := log[..|log| - 1];
      PollRateIndependence(front);
      if SameCondition(log[|log| - 2], log[|log| - 1]) {
        NormalForm(front);
        RepeatIsDropped(HistoryOf(front), Last(log));
      } else {
        assert (Destutter(front) + [Last(log)])[..|Destutter(front)|] == Destutter(front);
      }
    }
  }

  // No two neighbours say the same once repeats are gone.
  lemma {:induction false} DestutteredHasNoRepeats(log: seq<DeploymentStatus>)
    ensures NoRepeats(Destutter(log))
    ensures log != [] ==> Destutter(log) != [] && SameCondition(Last(Destutter(log)), Last(log))
  {
    if |log| > 1 {
      DestutteredHasNoRepeats(log[..|log| - 1]);
    }
  }

  // So one repeat more or less, anywhere in a log, makes no difference to the history.
  lemma {:induction false} RepeatLeavesNoTrace(before: seq<DeploymentStatus>, s: DeploymentStatus,
                                               repeat: DeploymentStatus, after: seq<DeploymentStatus>)
    requires SameCondition(s, repeat)
    ensures HistoryOf(before + [s] + [repeat] + after) == HistoryOf(before + [s] + after)
  {
    hide Append;
    var seen := before + [s];
    NormalForm(seen);
    HistoryOfOneMore(before, s);
    HistoryOfOneMore(seen, repeat);
    AppendEndsWithObserved(HistoryOf(before), s);
    RepeatIsDropped(HistoryOf(seen), repeat);
    AppendAllConcat([], seen + [repeat], after);
    AppendAllConcat([], seen, after);
  }

  lemma {:induction false} PendingsLeaveOneTail(h: History, blip: seq<DeploymentStatus>)
    requires h != [] && Last(h).state.Healthy? && blip != []
    requires forall s <- blip :: s.version == Last(h).version && s.state.Pending?
    ensures AppendAll(h, blip) == h + [blip[0]]
  {
    hide Append;
    var front := blip[..|blip| - 1];
    if front != [] {
      PendingsLeaveOneTail(h, front);
      AppendCases(h + [blip[0]], Last(blip));
    } else {
      AppendCases(h, blip[0]);
      assert AppendAll(h, front) == h;
    }
  }

  // A Healthy deployment that turns Pending for any number of polls and comes back Healthy
  // gets exactly its old history back, so its bake clock is not reset.
  lemma {:induction false} BlipRestoresHistory(h: History, blip: seq<DeploymentStatus>, back: DeploymentStatus)
    requires h != [] && Last(h).state.Healthy?
    requires forall s <- blip :: s.version == Last(h).version && s.state.Pending?
    requires back.version == Last(h).version && back.state.Healthy?
    ensures AppendAll(h, blip + [back]) == h
  {
    hide Append;
    assert (blip + [back])[..|blip|] == blip;
    AppendCases(h, back);
    if blip != [] {
      PendingsLeaveOneTail(h, blip);
      AppendCases(h + [blip[0]], back);
    }
  }

  // ---------------------------------------------------------------- permanence

  // What no later poll can take back: everything but a Pending last entry.
  function Settled(h: History): History {
    if h != [] && Last(h).state.Pending? then h[..|h| - 1] else h
  }

  // One reconcile's effect on one persisted history: the whole poll succeeded; or this fetch
  // succeeded and another one failed, so that the old slice is persisted after its tail was
  // rewritten; or this fetch failed.
  datatype PollOutcome = Fetched(status: DeploymentStatus) | OtherFetchFailed(status: DeploymentStatus) | FetchFailed

  function AfterPoll(h: History, p: PollOutcome): History {
    match p
    case Fetched(s) => Append(h, s)
    case OtherFetchFailed(s) => Rewrite(h, s)
    case FetchFailed => h
  }

  function AfterPolls(h: History, polls: seq<PollOutcome>): History
    decreases polls
  {
    if polls == [] then h else AfterPolls(AfterPoll(h, polls[0]), polls[1..])
  }

  // The polls carry the times of a clock that started at `now` and never ran backwards.
  ghost predicate ClockedFrom(polls: seq<PollOutcome>, now: int) {
    polls != [] ==>
      && (polls[0].FetchFailed? || now <= polls[0].status.start)
      && ClockedFrom(polls[1..], if polls[0].FetchFailed? then now else polls[0].status.start)
  }

  lemma SettledOfExtension(c: History, x: DeploymentStatus)
    ensures c <= Settled(c + [x]) && Settled(c + [x]) <= c + [x]
  {
    assert (c + [x])[..|c|] == c;
  }

  lemma FrontOfPending(h: History)
    requires h != [] && Last(h).state.Pending? && PendingYields(h)
    requires |h| >= 2 && h[|h| - 2].version == Last(h).version
    ensures Settled(h[..|h| - 1]) == h[..|h| - 1]
  {
    var i, j := |h| - 2, |h| - 1;
    assert h[j].version == h[i].version;
  }

  lemma SettledSurvivesAppend(h: History, s: DeploymentStatus)
    requires PendingYields(h)
    ensures Settled(h) <= Settled(Append(h, s))
  {
    hide Append;
    AppendCases(h, s);
    if EndsPending(h, s.version) {
      var c := h[..|h| - 1];
      if |h| >= 2 && SameCondition(h[|h| - 2], s) {
        FrontOfPending(h);
      } else {
        SettledOfExtension(c, Last(Rewrite(h, s)));
      }
    } else {
      SettledOfExtension(h, s);
    }
  }

  lemma SettledSurvivesRewrite(h: History, s: DeploymentStatus)
    ensures Settled(h) <= Settled(Rewrite(h, s))
  {
    if EndsPending(h, s.version) {
      SettledOfExtension(h[..|h| - 1], Last(Rewrite(h, s)));
    }
  }

  lemma SettledSurvivesPoll(h: History, p: PollOutcome)
    requires PendingYields(h)
    ensures PendingYields(AfterPoll(h, p))
    ensures Settled(h) <= Settled(AfterPoll(h, p))
  {
    hide Append, Rewrite, Settled, PendingYields;
    match p
    case Fetched(s) =>
      AppendKeepsPendingYields(h, s);
      SettledSurvivesAppend(h, s);
    case OtherFetchFailed(s) =>
      AppendKeepsPendingYields(h, s);
      SettledSurvivesRewrite(h, s);
    case FetchFailed =>
  }

  // Whatever fetches fail, the settled part of a history is a prefix of every later history.
  lemma {:induction false} SettledIsPermanent(h: History, polls: seq<PollOutcome>)
    requires PendingYields(h)
    ensures Settled(h) <= Settled(AfterPolls(h, polls)) <= AfterPolls(h, polls)
    ensures PendingYields(AfterPolls(h, polls))
    decreases polls
  {
    hide AfterPoll, PendingYields;
    if polls != [] {
      SettledSurvivesPoll(h, polls[0]);
      SettledIsPermanent(AfterPoll(h, polls[0]), polls[1..]);
    }
  }

  // Starts stay sorted over any polls, including those where some fetch failed.
  lemma {:induction false} SortedIsPermanent(h: History, polls: seq<PollOutcome>, now: int)
    requires PendingYields(h) && Sorted(h) && NotAfter(h, now) && ClockedFrom(polls, now)
    ensures Sorted(AfterPolls(h, polls))
    decreases polls
  {
    if polls != [] {
      var p := polls[0];
      if !p.FetchFailed? {
        AppendKeepsPendingYields(h, p.status);
        AppendKeepsSorted(h, p.status);
      }
      SortedIsPermanent(AfterPoll(h, p), polls[1..], if p.FetchFailed? then now else p.status.start);
    }
  }
}
