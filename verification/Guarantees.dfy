// What the choice of a version means in terms of everything that was ever observed: soundness
// against the raw log, the exact moment a rollout settles, no regression, permanent vetoes.
module Guarantees {
  import opened Wrappers
  import opened Statuses
  import opened Compaction
  import opened Selection
  import opened PollLogs

  // ---------------------------------------------------------------- raw log

  lemma AppendKeepsNotAfter(h: History, s: DeploymentStatus, t: int)
    requires NotAfter(h, t) && s.start <= t
    ensures NotAfter(Append(h, s), t)
  {
    hide Append;
    AppendCases(h, s);
    var g := Append(h, s);
    forall i | 0 <= i < |g| ensures g[i].start <= t {
      if i < |h| - 1 {
        assert g[i] == h[i];
      }
    }
  }

  lemma {:induction false} EntriesAreNotAfter(log: seq<DeploymentStatus>, t: int)
    requires NotAfter(log, t)
    ensures NotAfter(HistoryOf(log), t)
  {
    if log != [] {
      var front := log[..|log| - 1];
      assert NotAfter(front, t);
      EntriesAreNotAfter(front, t);
      AppendKeepsNotAfter(HistoryOf(front), Last(log), t);
    }
  }

  // End to end: a chosen version has baked in the complete log of every listed report's polls, of
  // those that succeeded and of those that did not.
  lemma {:induction false} ChoiceIsBakedInEveryLog(reports: seq<Report>, logs: seq<seq<PollOutcome>>,
                                                   after: DeployAfter, now: int, i: nat)
    requires |logs| == |reports|
    requires forall j :: 0 <= j < |reports| ==>
               reports[j].statuses == AfterPolls([], logs[j]) && ObservedBy(logs[j], now)
    requires after.deployments != [] && after.bakeTime > 0
    requires Choice(reports, after, now).Some?
    requires i < |reports| && reports[i].deploymentName in after.deployments
    ensures BakedInLog(logs[i], Choice(reports, after, now).value, after.bakeTime, now)
  {
    DurationIsBackedByLog(logs[i], Choice(reports, after, now).value, after.bakeTime, now);
  }

  // ---------------------------------------------------------------- settling time

  // The log of a deployment that moves to a version it never ran before: some Pending observations
  // of it, then only Healthy ones.
  datatype Move = Move(before: seq<DeploymentStatus>, pendings: seq<DeploymentStatus>, healthy: seq<DeploymentStatus>) {
    function Log(): seq<DeploymentStatus> {
      before + pendings + healthy
    }

    function FirstHealthyAt(): int {
      if healthy == [] then 0 else healthy[0].start
    }

    ghost predicate To(version: string) {
      && (forall s <- before :: s.version != version)
      && (forall s <- pendings :: s.version == version && s.state.Pending?)
      && (forall s <- healthy :: s.version == version && s.state.Healthy?)
      && healthy != []
    }
  }

  lemma {:induction false} HealthyRepeats(h: History, x: DeploymentStatus, healthy: seq<DeploymentStatus>)
    requires x.state.Healthy?
    requires forall s <- healthy :: SameCondition(s, x)
    ensures AppendAll(h + [x], healthy) == h + [x]
  {
    hide Append;
    if healthy != [] {
      assert Last(healthy) in healthy;
      HealthyRepeats(h, x, healthy[..|healthy| - 1]);
      AppendCases(h + [x], Last(healthy));
    }
  }

  lemma {:induction false} PendingsOfNewVersion(h: History, version: string, pendings: seq<DeploymentStatus>)
    requires h != [] ==> Last(h).version != version
    requires forall s <- pendings :: s.version == version && s.state.Pending?
    ensures AppendAll(h, pendings) == if pendings == [] then h else h + [pendings[0]]
  {
    hide Append;
    if pendings != [] {
      var front := pendings[..|pendings| - 1];
      PendingsOfNewVersion(h, version, front);
      if front == [] {
        AppendElsewhere(h, pendings[0]);
      } else {
        PendingOnPending(h, pendings[0], Last(pendings));
      }
    }
  }

  lemma PendingOnPending(h: History, p: DeploymentStatus, q: DeploymentStatus)
    requires h != [] ==> Last(h).version != p.version
    requires p.state.Pending? && q.state.Pending? && p.version == q.version
    ensures Append(h + [p], q) == h + [p]
  {
    hide Append;
    AppendAtPending(h + [p], q);
  }

  lemma NewVersionIsAbsent(log: seq<DeploymentStatus>, version: string)
    requires forall s <- log :: s.version != version
    ensures !Occurs(HistoryOf(log), version)
    ensures HistoryOf(log) != [] ==> Last(HistoryOf(log)).version != version
  {
    var h := HistoryOf(log);
    forall k | 0 <= k < |h| ensures h[k].version != version {
      VersionIsObserved(log, k);
    }
  }

  lemma FirstHealthyEntry(h: History, x: DeploymentStatus, pending: History)
    requires h != [] ==> Last(h).version != x.version
    requires pending == h || exists p :: pending == h + [p] && p.version == x.version && p.state.Pending?
    requires x.state.Healthy?
    ensures Append(pending, x) == h + [x]
  {
    hide Append;
    AppendCases(pending, x);
    if pending != h {
      assert pending[..|pending| - 1] == h;
    }
  }

  lemma MoveLeavesOneEntry(m: Move, version: string)
    requires m.To(version)
    ensures HistoryOf(m.Log()) == HistoryOf(m.before) + [m.healthy[0]]
    ensures !Occurs(HistoryOf(m.before), version)
  {
    hide Append;
    var h := HistoryOf(m.before);
    NewVersionIsAbsent(m.before, version);
    PendingsOfNewVersion(h, version, m.pendings);
    HealthyAfterPendings(h, AppendAll(h, m.pendings), m.healthy, version);
    AppendAllConcat([], m.before + m.pendings, m.healthy);
    AppendAllConcat([], m.before, m.pendings);
  }

  lemma HealthyAfterPendings(h: History, pending: History, healthy: seq<DeploymentStatus>, version: string)
    requires healthy != [] && forall s <- healthy :: s.version == version && s.state.Healthy?
    requires h != [] ==> Last(h).version != version
    requires pending == h || exists p :: pending == h + [p] && p.version == version && p.state.Pending?
    ensures AppendAll(pending, healthy) == h + [healthy[0]]
  {
    hide Append;
    var x, others := healthy[0], healthy[1..];
    FirstHealthyEntry(h, x, pending);
    AppendAllOfOne(pending, x);
    HealthyRepeats(h, x, others);
    assert healthy == [x] + others;
    AppendAllConcat(pending, [x], others);
  }

  lemma AppendAllOfOne(h: History, s: DeploymentStatus)
    ensures AppendAll(h, [s]) == Append(h, s)
  {
    hide Append;
    assert [s][..0] == [];
    assert AppendAll(h, [s][..0]) == h;
  }

  lemma {:induction false} NewEntryIsFirst(h: History, x: DeploymentStatus)
    requires !Occurs(h, x.version)
    ensures FirstIndex(h + [x], x.version) == |h|
  {
    var g := h + [x];
    assert g[|h|] == x;
    assert forall i :: 0 <= i < |h| ==> g[i] == h[i];
  }

  lemma DurationOfNewEntry(h: History, x: DeploymentStatus, now: int)
    requires !Occurs(h, x.version) && x.state.Healthy?
    ensures HealthyDuration(h + [x], x.version, now) == now - x.start
    ensures LastIndex(h + [x], x.version) == |h|
  {
    var g := h + [x];
    NewEntryIsFirst(h, x);
    assert g[|h|].version == x.version;
    assert !Vetoed(g, x.version) by {
      assert forall i :: 0 <= i < |h| ==> g[i] == h[i];
    }
    UntilIsLastFault(g, |h|, now);
  }

  lemma DurationAfterMove(m: Move, version: string, now: int)
    requires m.To(version)
    ensures HealthyDuration(HistoryOf(m.Log()), version, now) == now - m.FirstHealthyAt()
    ensures var h := HistoryOf(m.Log());
            h != [] && Last(h).version == version
  {
    MoveLeavesOneEntry(m, version);
    DurationOfNewEntry(HistoryOf(m.before), m.healthy[0], now);
  }

  lemma NewestQualifyingIsChosen(reports: seq<Report>, k: nat, after: DeployAfter, version: string, now: int)
    requires k < |reports| && UniqueNames(reports)
    requires after.deployments != [] && reports[k].deploymentName == after.deployments[0]
    requires reports[k].statuses != [] && Last(reports[k].statuses).version == version
    ensures Choice(reports, after, now) == Some(version) <==> Qualifies(reports, after, version, now)
  {
    var h := reports[k].statuses;
    ChoiceIsNewestQualifying(reports, k, after, now);
    assert h[|h| - 1].version == version;
    assert LastIndex(h, version) == |h| - 1;
    if Qualifies(reports, after, version, now) {
      var v := Choice(reports, after, now).value;
      assert LastIndex(h, v) >= LastIndex(h, version);
    }
  }

  // The moment a rollout settles is exact: the new version is chosen from the largest first Healthy
  // observation plus the bake time on, and not before.
  lemma {:induction false} SettlingTime(reports: seq<Report>, moves: seq<Move>, after: DeployAfter, version: string,
                                        now: int)
    requires |moves| == |reports| && UniqueNames(reports)
    requires after.deployments != [] && HasReport(reports, after.deployments[0])
    requires forall i :: 0 <= i < |reports| && reports[i].deploymentName in after.deployments ==>
               moves[i].To(version) && reports[i].statuses == HistoryOf(moves[i].Log())
    ensures Choice(reports, after, now) == Some(version) <==>
              forall i :: 0 <= i < |reports| && reports[i].deploymentName in after.deployments ==>
                moves[i].FirstHealthyAt() + after.bakeTime <= now
  {
    forall i | 0 <= i < |reports| && reports[i].deploymentName in after.deployments
      ensures HealthyDuration(reports[i].statuses, version, now) == now - moves[i].FirstHealthyAt()
      ensures reports[i].statuses != [] && Last(reports[i].statuses).version == version
    {
      DurationAfterMove(moves[i], version, now);
    }
    var k :| 0 <= k < |reports| && reports[k].deploymentName == after.deployments[0];
    assert reports[k].deploymentName in after.deployments;
    NewestQualifyingIsChosen(reports, k, after, version, now);
  }

  // ---------------------------------------------------------------- no regression

  ghost predicate AllHealthy(h: History) {
    forall i :: 0 <= i < |h| ==> h[i].state.Healthy?
  }

  lemma {:induction false} HealthyPollsOnlyExtend(h: History, news: seq<DeploymentStatus>, t: int)
    requires AllHealthy(h) && AllHealthy(news) && NotAfter(h, t) && NotAfter(news, t)
    ensures h <= AppendAll(h, news) && AllHealthy(AppendAll(h, news)) && NotAfter(AppendAll(h, news), t)
  {
    hide Append;
    if news != [] {
      var front := news[..|news| - 1];
      assert AllHealthy(front) && NotAfter(front, t);
      HealthyPollsOnlyExtend(h, front, t);
      AppendCases(AppendAll(h, front), Last(news));
      AppendKeepsNotAfter(AppendAll(h, front), Last(news), t);
    }
  }

  lemma HealthyDurationOnlyGrows(h: History, g: History, version: string, now: int, later: int)
    requires h <= g && AllHealthy(g) && NotAfter(g, later) && now <= later
    ensures HealthyDuration(h, version, now) <= HealthyDuration(g, version, later)
    ensures LastIndex(h, version) <= LastIndex(g, version)
  {
    assert forall i :: 0 <= i < |h| ==> h[i] == g[i];
    UntilIsLastFault(g, FirstIndex(g, version), later);
    UntilIsLastFault(h, FirstIndex(h, version), now);
    assert !Vetoed(h, version) && !Vetoed(g, version);
    if Occurs(h, version) {
      assert g[FirstIndex(h, version)].version == version;
      assert FirstIndex(g, version) == FirstIndex(h, version);
    }
    var l := LastIndex(h, version);
    if l >= 0 { assert g[l].version == version; }
  }

  // When only Healthy statuses are ever observed, later polls and ticks keep an answer, and the
  // answer never moves back in the first listed deployment's history.
  lemma {:induction false} NoRegression(reports: seq<Report>, news: seq<seq<DeploymentStatus>>, grown: seq<Report>,
                                        k: nat, after: DeployAfter, now: int, later: int)
    requires UniqueNames(reports) && |reports| == |news| == |grown| && now <= later
    requires forall i :: 0 <= i < |reports| ==>
               && AllHealthy(reports[i].statuses) && NotAfter(reports[i].statuses, later)
               && AllHealthy(news[i]) && NotAfter(news[i], later)
               && grown[i] == Report(reports[i].deploymentName, AppendAll(reports[i].statuses, news[i]))
    requires after.deployments != [] && k < |reports| && reports[k].deploymentName == after.deployments[0]
    requires Choice(reports, after, now).Some?
    ensures Choice(grown, after, later).Some?
    ensures LastIndex(reports[k].statuses, Choice(reports, after, now).value)
            <= LastIndex(grown[k].statuses, Choice(grown, after, later).value)
  {
    var v := Choice(reports, after, now).value;
    forall i | 0 <= i < |reports|
      ensures HealthyDuration(reports[i].statuses, v, now) <= HealthyDuration(grown[i].statuses, v, later)
      ensures LastIndex(reports[i].statuses, v) <= LastIndex(grown[i].statuses, v)
    {
      HealthyPollsOnlyExtend(reports[i].statuses, news[i], later);
      HealthyDurationOnlyGrows(reports[i].statuses, grown[i].statuses, v, now, later);
    }
    assert Qualifies(grown, after, v, later);
    ChoiceIsNewestQualifying(reports, k, after, now);
    ChoiceIsNewestQualifying(grown, k, after, later);
    assert LastIndex(reports[k].statuses, v) >= 0;
    assert grown[k].statuses[LastIndex(grown[k].statuses, v)].version == v;
    assert Occurs(grown[k].statuses, v);
  }

  // ---------------------------------------------------------------- permanent veto

  // Once the settled part of a history holds anything but Healthy about a version, the version has
  // no healthy duration ever again, whatever is polled and whichever fetches fail.
  lemma {:induction false} VetoIsPermanent(h: History, version: string, polls: seq<PollOutcome>, now: int)
    requires PendingYields(h) && Vetoed(Settled(h), version)
    ensures Vetoed(AfterPolls(h, polls), version)
    ensures HealthyDuration(AfterPolls(h, polls), version, now) == 0
  {
    SettledIsPermanent(h, polls);
    var i :| 0 <= i < |Settled(h)| && Settled(h)[i].version == version && !Settled(h)[i].state.Healthy?;
    assert AfterPolls(h, polls)[i] == Settled(h)[i];
  }

  lemma {:induction false} VetoedIsNeverChosen(reports: seq<Report>, i: nat, h: History, polls: seq<PollOutcome>,
                            after: DeployAfter, version: string, now: int)
    requires PendingYields(h) && Vetoed(Settled(h), version)
    requires i < |reports| && reports[i].statuses == AfterPolls(h, polls)
    requires reports[i].deploymentName in after.deployments && after.bakeTime > 0
    ensures after.deployments != [] && Choice(reports, after, now) != Some(version)
  {
    VetoIsPermanent(h, version, polls, now);
  }

  // Without a positive bake time none of this protects: on sorted histories the newest entry is
  // taken, whatever its state and whatever the other deployments report.
  lemma ZeroBakeTakesTheNewest(reports: seq<Report>, k: nat, after: DeployAfter, now: int)
    requires after.bakeTime <= 0 && after.deployments != [] && UniqueNames(reports)
    requires forall i :: 0 <= i < |reports| ==> Sorted(reports[i].statuses) && NotAfter(reports[i].statuses, now)
    requires k < |reports| && reports[k].deploymentName == after.deployments[0] && reports[k].statuses != []
    ensures Choice(reports, after, now) == Some(Last(reports[k].statuses).version)
  {
    forall v, i | 0 <= i < |reports| ensures 0 <= HealthyDuration(reports[i].statuses, v, now) {
      DurationBounds(reports[i].statuses, v, now);
    }
    NewestQualifyingIsChosen(reports, k, after, Last(reports[k].statuses).version, now);
  }
}
