// A bake time counts from the first time a version was seen, not for as long as it kept running.
// When the two differ, the report says so.
module Soaking {
  import opened Wrappers
  import opened Statuses
  import opened Selection
  import opened Guarantees

  // When the observation or entry before position `j` ended, as far as was seen.
  function EndAt(s: seq<DeploymentStatus>, j: nat, now: int): int {
    if j < |s| then s[j].start else now
  }

  ghost predicate Only(s: seq<DeploymentStatus>, i: nat, j: nat, version: string) {
    i < j <= |s| && forall k :: i <= k < j ==> s[k].version == version
  }

  // Over some stretch of at least `bake` the version was observed and no other version in between.
  ghost predicate SoakedInLog(log: seq<DeploymentStatus>, version: string, bake: int, now: int) {
    exists i: nat, j: nat :: Only(log, i, j, version) && EndAt(log, j, now) - log[i].start >= bake
  }

  // Some entry of the version lasted that long.
  predicate SoakedEntry(h: History, version: string, bake: int, now: int) {
    exists k :: 0 <= k < |h| && h[k].version == version && EndAt(h, k + 1, now) - h[k].start >= bake
  }

  // Entry `k` stands for the observations from `i` to `j`.
  ghost predicate StandsFor(h: History, k: nat, log: seq<DeploymentStatus>, i: nat, j: nat, now: int) {
    && k < |h| && Only(log, i, j, h[k].version) && log[i] == h[k]
    && EndAt(log, j, now) == EndAt(h, k + 1, now)
    && (k == |h| - 1 ==> j == |log|)
  }

  // Entry `k` covers the observations from `i` to `j`.
  ghost predicate Covers(h: History, k: nat, log: seq<DeploymentStatus>, i: nat, j: nat, version: string, now: int) {
    && k < |h| && i < |log| && h[k].version == version && h[k].start <= log[i].start
    && EndAt(log, j, now) <= EndAt(h, k + 1, now)
    && (j == |log| ==> k == |h| - 1)
  }

  // An all-Healthy history gets an entry when the version changes, and only then.
  lemma HealthyStep(front: seq<DeploymentStatus>, s: DeploymentStatus)
    requires AllHealthy(front) && s.state.Healthy?
    ensures var h := HistoryOf(front);
            HistoryOf(front + [s]) == if h != [] && Last(h).version == s.version then h else h + [s]
  {
    hide Append;
    AllHealthyHistory(front);
    HistoryOfOneMore(front, s);
    AppendCases(HistoryOf(front), s);
  }

  lemma NoHistoryOfNothing()
    ensures HistoryOf([]) == []
  {
  }

  lemma HealthyFront(log: seq<DeploymentStatus>)
    requires AllHealthy(log) && log != []
    ensures AllHealthy(log[..|log| - 1]) && Last(log).state.Healthy?
    ensures log == log[..|log| - 1] + [Last(log)]
  {
  }

  lemma AllHealthyHistory(log: seq<DeploymentStatus>)
    requires AllHealthy(log)
    ensures AllHealthy(HistoryOf(log))
  {
    HealthyPollsOnlyExtend([], log, LatestStart(log));
  }

  function LatestStart(log: seq<DeploymentStatus>): (t: int)
    ensures NotAfter(log, t)
  {
    if log == [] then 0
    else
      var t := LatestStart(log[..|log| - 1]);
      if Last(log).start > t then Last(log).start else t
  }

  // One more observation lengthens the stretch of the last entry or ends it.
  lemma StandsForThen(h: History, k: nat, front: seq<DeploymentStatus>, s: DeploymentStatus, i: nat, j: nat, now: int)
    requires StandsFor(h, k, front, i, j, s.start)
    ensures h[|h| - 1].version != s.version ==> StandsFor(h + [s], k, front + [s], i, j, now)
    ensures h[|h| - 1].version == s.version ==>
              StandsFor(h, k, front + [s], i, if k == |h| - 1 then |front| + 1 else j, now)
  {
    var log := front + [s];
    assert forall m :: 0 <= m < |front| ==> log[m] == front[m];
    assert k < |h| - 1 ==> (h + [s])[k + 1] == h[k + 1];
  }

  lemma {:induction false} EntryStandsForStretch(log: seq<DeploymentStatus>, k: nat, now: int) returns (i: nat, j: nat)
    requires AllHealthy(log) && k < |HistoryOf(log)|
    ensures StandsFor(HistoryOf(log), k, log, i, j, now)
  {
    hide HistoryOf, StandsFor, AllHealthy, Only;
    NoHistoryOfNothing();
    var front, s := log[..|log| - 1], log[|log| - 1];
    HealthyFront(log);
    HealthyStep(front, s);
    var h := HistoryOf(front);
    if k < |h| {
      i, j := EntryStandsForStretch(front, k, s.start);
      StandsForThen(h, k, front, s, i, j, now);
      if k == |h| - 1 && h[k].version == s.version {
        j := |log|;
      }
    } else {
      i, j := |log| - 1, |log|;
      StandsForItself(h, front, s, now);
    }
  }

  lemma StandsForItself(h: History, front: seq<DeploymentStatus>, s: DeploymentStatus, now: int)
    ensures StandsFor(h + [s], |h|, front + [s], |front|, |front| + 1, now)
  {
  }

  lemma {:induction false} StretchIsCovered(log: seq<DeploymentStatus>, i: nat, j: nat, version: string, now: int)
    returns (k: nat)
    requires AllHealthy(log) && Sorted(log) && NotAfter(log, now) && Only(log, i, j, version)
    ensures Covers(HistoryOf(log), k, log, i, j, version, now)
  {
    hide HistoryOf;
    var front, s := log[..|log| - 1], log[|log| - 1];
    assert log == front + [s] && AllHealthy(front) && Sorted(front) && NotAfter(front, s.start);
    HealthyStep(front, s);
    var h := HistoryOf(front);
    if i == |front| {
      k := |HistoryOf(log)| - 1;
      EntriesAreNotAfter(front, s.start);
    } else {
      k := StretchIsCovered(front, i, if j <= |front| then j else |front|, version, s.start);
    }
  }

  // Whether a version soaked without interruption can be read off the report.
  lemma SoakedExactly(log: seq<DeploymentStatus>, version: string, bake: int, now: int)
    requires AllHealthy(log) && Sorted(log) && NotAfter(log, now)
    ensures SoakedInLog(log, version, bake, now) <==> SoakedEntry(HistoryOf(log), version, bake, now)
  {
    hide HistoryOf;
    var h := HistoryOf(log);
    if i: nat, j: nat :| Only(log, i, j, version) && EndAt(log, j, now) - log[i].start >= bake {
      var k := StretchIsCovered(log, i, j, version, now);
    }
    if k :| 0 <= k < |h| && h[k].version == version && EndAt(h, k + 1, now) - h[k].start >= bake {
      var i, j := EntryStandsForStretch(log, k, now);
    }
  }

  lemma HistoryOfTwo(a: DeploymentStatus, b: DeploymentStatus)
    requires a.state.Healthy? && b.state.Healthy? && a.version != b.version
    ensures HistoryOf([a, b]) == [a, b]
  {
    HealthyStep([], a);
    assert [] + [a] == [a];
    HealthyStep([a], b);
    assert [a] + [b] == [a, b];
  }

  // A choice need not have soaked: version 1 ran for one time unit before version 2 replaced it, and is
  // chosen at time 50 for a bake time of 50.
  lemma BakedNeedNotHaveSoaked()
    ensures var log := [DeploymentStatus("1", Healthy, 0), DeploymentStatus("2", Healthy, 1)];
            && Choice([Report("d", HistoryOf(log))], DeployAfter(["d"], 50), 50) == Some("1")
            && !SoakedInLog(log, "1", 50, 50)
  {
    hide HistoryOf, Choice, HealthyDuration, FirstIndex, LastIndex;
    var a, b := DeploymentStatus("1", Healthy, 0), DeploymentStatus("2", Healthy, 1);
    var reports, after := [Report("d", [a, b])], DeployAfter(["d"], 50);
    HistoryOfTwo(a, b);
    SoakedExactly([a, b], "1", 50, 50);
    DurationsOfTwo(a, b, 50);
    ChoiceIsNewestQualifying(reports, 0, after, 50);
    assert [a, b][0].version == "1";
    assert Qualifies(reports, after, "1", 50) && !Qualifies(reports, after, "2", 50) by {
      assert reports[0].deploymentName in after.deployments;
    }
  }

  lemma DurationsOfTwo(a: DeploymentStatus, b: DeploymentStatus, now: int)
    requires a.state.Healthy? && b.state.Healthy? && a.version != b.version
    ensures HealthyDuration([a, b], a.version, now) == now - a.start
    ensures HealthyDuration([a, b], b.version, now) == now - b.start
  {
    hide FirstIndex;
    var h := [a, b];
    assert h[0] == a && h[1] == b;
    var i, j := FirstIndex(h, a.version), FirstIndex(h, b.version);
    assert h[i] == a && h[j] == b;
    UntilIsLastFault(h, i, now);
    UntilIsLastFault(h, j, now);
  }
}
