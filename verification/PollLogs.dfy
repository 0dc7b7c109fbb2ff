// The complete log of one deployment's polls, with those in which this or another fetch failed, against
// the history that is kept of them.
module PollLogs {
  import opened Wrappers
  import opened Statuses
  import opened Selection

  // A poll that succeeds records what it fetched. When another fetch failed, only a Pending last entry
  // of the version takes it in.
  predicate Records(h: History, p: PollOutcome) {
    match p
    case Fetched(_) => true
    case OtherFetchFailed(s) => EndsPending(h, s.version)
    case FetchFailed => false
  }

  ghost predicate RecordedAt(polls: seq<PollOutcome>, k: nat) {
    k < |polls| && Records(AfterPolls([], polls[..k]), polls[k])
  }

  ghost predicate ObservedBy(polls: seq<PollOutcome>, t: int) {
    forall k :: 0 <= k < |polls| && !polls[k].FetchFailed? ==> polls[k].status.start <= t
  }

  lemma {:induction false} AfterPollsThen(h: History, polls: seq<PollOutcome>, p: PollOutcome)
    ensures AfterPolls(h, polls + [p]) == AfterPoll(AfterPolls(h, polls), p)
    decreases polls
  {
    hide AfterPoll;
    var all := polls + [p];
    if polls == [] {
      assert all[1..] == [];
    } else {
      assert all[0] == polls[0] && all[1..] == polls[1..] + [p];
      AfterPollsThen(AfterPoll(h, polls[0]), polls[1..], p);
    }
  }

  lemma LastPoll(polls: seq<PollOutcome>)
    requires polls != []
    ensures var front, p := polls[..|polls| - 1], polls[|polls| - 1];
            && polls == front + [p]
            && AfterPolls([], polls) == AfterPoll(AfterPolls([], front), p)
  {
    var front, p := polls[..|polls| - 1], polls[|polls| - 1];
    assert polls == front + [p];
    AfterPollsThen([], front, p);
  }

  lemma FrontRecords(polls: seq<PollOutcome>, k: nat)
    requires k < |polls|
    ensures k < |polls| - 1 ==> (RecordedAt(polls, k) <==> RecordedAt(polls[..|polls| - 1], k))
    ensures k == |polls| - 1 ==> (RecordedAt(polls, k) <==> Records(AfterPolls([], polls[..|polls| - 1]), polls[k]))
  {
    assert k < |polls| - 1 ==> polls[..|polls| - 1][..k] == polls[..k];
  }

  // What a poll that was recorded leaves as the last entry.
  lemma RecordedIsLast(h: History, p: PollOutcome)
    requires Records(h, p)
    ensures AfterPoll(h, p) != [] && SameCondition(Last(AfterPoll(h, p)), p.status)
  {
    hide Append;
    AppendEndsWithObserved(h, p.status);
  }

  // Every entry is an old one, or what was just recorded.
  lemma HealthyEntryIsOldOrNew(h: History, p: PollOutcome, k: nat)
    requires k < |AfterPoll(h, p)| && AfterPoll(h, p)[k].state.Healthy?
    ensures (k < |h| && AfterPoll(h, p)[k] == h[k]) || (Records(h, p) && AfterPoll(h, p)[k] == p.status)
  {
    hide Append;
    if !p.FetchFailed? {
      AppendCases(h, p.status);
    }
  }

  lemma {:induction false} EntriesAreObserved(polls: seq<PollOutcome>, t: int)
    requires ObservedBy(polls, t)
    ensures NotAfter(AfterPolls([], polls), t)
  {
    hide AfterPoll;
    if polls != [] {
      LastPoll(polls);
      var front := polls[..|polls| - 1];
      assert forall k :: 0 <= k < |front| ==> front[k] == polls[k];
      EntriesAreObserved(front, t);
      PollKeepsNotAfter(AfterPolls([], front), polls[|polls| - 1], t);
    }
  }

  lemma PollKeepsNotAfter(h: History, p: PollOutcome, t: int)
    requires NotAfter(h, t) && (!p.FetchFailed? ==> p.status.start <= t)
    ensures NotAfter(AfterPoll(h, p), t)
  {
    hide Append;
    if !p.FetchFailed? {
      AppendCases(h, p.status);
      var g := AfterPoll(h, p);
      forall i | 0 <= i < |g| ensures g[i].start <= t {
        if i < |h| - 1 {
          assert g[i] == h[i];
        }
      }
    }
  }

  // Every Healthy entry is the observation of a recorded poll.
  lemma {:induction false} HealthyWasRecorded(polls: seq<PollOutcome>, k: nat) returns (i: nat)
    requires k < |AfterPolls([], polls)| && AfterPolls([], polls)[k].state.Healthy?
    ensures RecordedAt(polls, i) && polls[i].status == AfterPolls([], polls)[k]
  {
    hide AfterPoll, Records;
    assert polls != [];
    LastPoll(polls);
    var front := polls[..|polls| - 1];
    var h, p := AfterPolls([], front), polls[|polls| - 1];
    HealthyEntryIsOldOrNew(h, p, k);
    if k < |h| && AfterPoll(h, p)[k] == h[k] {
      i := HealthyWasRecorded(front, k);
    } else {
      i := |polls| - 1;
    }
    FrontRecords(polls, i);
  }

  // No recorded observation but a Pending one is ever lost.
  lemma {:induction false} RecordedIsKept(polls: seq<PollOutcome>, i: nat)
    requires RecordedAt(polls, i) && !polls[i].status.state.Pending?
    ensures exists k :: 0 <= k < |AfterPolls([], polls)| && SameCondition(AfterPolls([], polls)[k], polls[i].status)
  {
    var upTo, later := polls[..i + 1], polls[i + 1..];
    assert upTo[..i] == polls[..i] && polls == upTo + later;
    LastPoll(upTo);
    var h := AfterPolls([], polls[..i]);
    var g := AfterPolls([], upTo);
    RecordedIsLast(h, polls[i]);
    SettledIsPermanent([], upTo);
    SettledIsPermanent(g, later);
    AfterPollsConcat([], upTo, later);
    var k := |g| - 1;
    assert Settled(g) == g;
    assert AfterPolls([], polls)[k] == g[k];
  }

  lemma {:induction false} AfterPollsConcat(h: History, a: seq<PollOutcome>, b: seq<PollOutcome>)
    ensures AfterPolls(h, a + b) == AfterPolls(AfterPolls(h, a), b)
    decreases a
  {
    hide AfterPoll;
    if a == [] {
      assert a + b == b;
    } else {
      assert (a + b)[0] == a[0] && (a + b)[1..] == a[1..] + b;
      AfterPollsConcat(AfterPoll(h, a[0]), a[1..], b);
    }
  }

  // `version` was seen Healthy at least `bake` before `now` by a recorded poll, and no recorded poll,
  // so none that succeeded, ever saw it in any state but Healthy and Pending.
  ghost predicate BakedInLog(polls: seq<PollOutcome>, version: string, bake: int, now: int) {
    && (exists k: nat :: RecordedAt(polls, k) && polls[k].status.version == version && polls[k].status.state.Healthy?
                    && polls[k].status.start + bake <= now)
    && (forall k: nat :: RecordedAt(polls, k) && polls[k].status.version == version ==>
          polls[k].status.state.Healthy? || polls[k].status.state.Pending?)
  }

  lemma {:induction false} DurationIsBackedByLog(polls: seq<PollOutcome>, version: string, bake: int, now: int)
    requires ObservedBy(polls, now)
    requires 0 < bake <= HealthyDuration(AfterPolls([], polls), version, now)
    ensures BakedInLog(polls, version, bake, now)
  {
    hide AfterPolls, FirstIndex, HealthyDuration;
    var h := AfterPolls([], polls);
    EntriesAreObserved(polls, now);
    PositiveDuration(h, version, now);
    var first := FirstIndex(h, version);
    assert h[first].version == version;
    var i := HealthyWasRecorded(polls, first);
    forall k: nat | RecordedAt(polls, k) && polls[k].status.version == version
      ensures polls[k].status.state.Healthy? || polls[k].status.state.Pending?
    {
      if !polls[k].status.state.Pending? {
        RecordedIsKept(polls, k);
        var e :| 0 <= e < |h| && SameCondition(h[e], polls[k].status);
        assert h[e].version == version;
      }
    }
  }

  // When another fetch of the poll failed, an observation ends up in the history exactly when a Pending
  // last entry of its version takes it in or the history ended like it before; otherwise nothing
  // changes.
  lemma FailedPollRecordsExactly(h: History, s: DeploymentStatus)
    ensures var g := AfterPoll(h, OtherFetchFailed(s));
            && ((g != [] && SameCondition(Last(g), s)) <==>
                  Records(h, OtherFetchFailed(s)) || (h != [] && SameCondition(Last(h), s)))
            && (!Records(h, OtherFetchFailed(s)) ==> g == h)
            && (Records(h, OtherFetchFailed(s)) ==>
                  var was := h[|h| - 1];
                  g == h[..|h| - 1] + [DeploymentStatus(was.version, s.state,
                                                        if s.state == Healthy then s.start else was.start)])
  {
  }

  // So a failed poll that sees a version unhealthy vetoes it for good exactly when it records that, or
  // the version was vetoed before.
  lemma FailedPollVetoesExactly(h: History, s: DeploymentStatus)
    requires PendingYields(h) && !s.state.Healthy? && !s.state.Pending?
    ensures Vetoed(Settled(AfterPoll(h, OtherFetchFailed(s))), s.version) <==>
              Records(h, OtherFetchFailed(s)) || Vetoed(Settled(h), s.version)
  {
    hide PendingYields;
    var p := OtherFetchFailed(s);
    var g := AfterPoll(h, p);
    if Records(h, p) {
      assert Settled(g) == g && g[|g| - 1].version == s.version && !g[|g| - 1].state.Healthy?;
    }
  }

  lemma OneHealthyEntryIsChosen(s: DeploymentStatus, bake: int, now: int)
    requires s.state.Healthy? && bake <= now - s.start
    ensures Choice([Report("d", [s])], DeployAfter(["d"], bake), now) == Some(s.version)
  {
    hide Choice, FirstIndex, LastIndex;
    var h, reports, after := [s], [Report("d", [s])], DeployAfter(["d"], bake);
    assert h[0].version == s.version;
    UntilIsLastFault(h, 0, now);
    ChoiceIsNewestQualifying(reports, 0, after, now);
    assert Qualifies(reports, after, s.version, now);
  }

  // A choice need not have been healthy all along: an Unhealthy observation is lost when the fetch of
  // another deployment fails in the same poll.
  lemma UnhealthyCanBeLost()
    ensures var polls := [Fetched(DeploymentStatus("1", Healthy, 0)),
                          OtherFetchFailed(DeploymentStatus("1", Unhealthy, 5))];
            && !RecordedAt(polls, 1)
            && Choice([Report("d", AfterPolls([], polls))], DeployAfter(["d"], 10), 10) == Some("1")
  {
    hide Append, Choice, AfterPolls;
    var seen, lost := DeploymentStatus("1", Healthy, 0), DeploymentStatus("1", Unhealthy, 5);
    var polls := [Fetched(seen), OtherFetchFailed(lost)];
    AppendCases([], seen);
    AfterPollsOfNone([]);
    assert polls == [Fetched(seen)] + [OtherFetchFailed(lost)] && polls[..1] == [Fetched(seen)];
    assert [] + [Fetched(seen)] == [Fetched(seen)] && [] + [seen] == [seen];
    AfterPollsThen([], [], Fetched(seen));
    AfterPollsThen([], [Fetched(seen)], OtherFetchFailed(lost));
    FailedPollRecordsExactly([seen], lost);
    OneHealthyEntryIsChosen(seen, 10, 10);
  }

  lemma AfterPollsOfNone(h: History)
    ensures AfterPolls(h, []) == h
  {
  }
}
