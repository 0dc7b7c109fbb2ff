// The Propagation object while it is being reconciled: its reports live on the heap and may share
// arrays. Looking a report up, choosing the next version, and polling are proved against the
// value-level spec functions.
module Propagation {
  import opened Wrappers
  import opened Statuses
  import opened Selection
  import opened StatusReport

  predicate AllValid(reports: seq<DeploymentStatusesReport>)
    reads reports
  {
    forall i :: 0 <= i < |reports| ==> reports[i].Valid()
  }

  ghost function Arrays(reports: seq<DeploymentStatusesReport>): set<object>
    reads reports
  {
    set r | r in reports :: r.data
  }

  ghost function Values(reports: seq<DeploymentStatusesReport>): (values: seq<Report>)
    requires AllValid(reports)
    reads reports, Arrays(reports)
    ensures |values| == |reports|
    ensures forall i :: 0 <= i < |reports| ==> values[i] == reports[i].Value()
  {
    if reports == [] then []
    else
      assert AllValid(reports[1..]) by {
        forall i | 0 <= i < |reports| - 1 ensures reports[1..][i].Valid() {
          assert reports[1..][i] == reports[i + 1];
        }
      }
      [reports[0].Value()] + Values(reports[1..])
  }

  // Index of the first report about `deployment`, or |reports|.
  function ReportIndex(reports: seq<Report>, deployment: string): (i: nat)
    ensures i <= |reports|
    ensures i < |reports| ==> reports[i].deploymentName == deployment
    ensures forall j :: 0 <= j < i ==> reports[j].deploymentName != deployment
  {
    if reports == [] || reports[0].deploymentName == deployment then 0 else 1 + ReportIndex(reports[1..], deployment)
  }

  function StatusesOf(reports: seq<Report>, deployment: string): History {
    var i := ReportIndex(reports, deployment);
    if i < |reports| then reports[i].statuses else []
  }

  method FindDeploymentStatusReport(reports: seq<DeploymentStatusesReport>, deployment: string)
    returns (found: Option<nat>)
    requires AllValid(reports)
    ensures found == var i := ReportIndex(Values(reports), deployment);
                     if i < |reports| then Some(i) else None
  {
    hide ReportIndex;
    for i := 0 to |reports|
      invariant forall j :: 0 <= j < i ==> reports[j].deploymentName != deployment
    {
      if reports[i].deploymentName == deployment {
        assert Values(reports)[i].deploymentName == deployment;
        return Some(i);
      }
    }
    return None;
  }

  // ---------------------------------------------------------------- NextVersion

  method VersionsOf(report: DeploymentStatusesReport, found: seq<string>) returns (versions: seq<string>)
    requires report.Valid()
    ensures versions == NewestFirst(report.Contents(), found)
  {
    versions := found;
    ghost var h := report.Contents();
    var i := report.len;
    assert h[..i] == h;
    while i > 0
      invariant i <= |h|
      invariant NewestFirst(h[..i], versions) == NewestFirst(h, found)
    {
      i := i - 1;
      assert h[..i + 1][..i] == h[..i];
      var version := report.data[i].version;
      if version !in versions {
        versions := versions + [version];
      }
    }
  }

  lemma CandidatesFrom(values: seq<Report>, i: nat, deployment: string, found: seq<string>)
    requires i < |values|
    ensures Candidates(values[i..], deployment, found) ==
            Candidates(values[i + 1..], deployment,
                       if values[i].deploymentName == deployment then NewestFirst(values[i].statuses, found) else found)
  {
    assert values[i..][0] == values[i] && values[i..][1..] == values[i + 1..];
  }

  lemma CandidatesFromEnd(values: seq<Report>, deployment: string, found: seq<string>)
    ensures Candidates(values[|values|..], deployment, found) == found
    ensures Candidates(values[0..], deployment, found) == Candidates(values, deployment, found)
  {
    assert values[0..] == values;
  }

  method NextVersionFor(reports: seq<DeploymentStatusesReport>, after: DeployAfter, now: int) returns (version: string)
    requires AllValid(reports)
    ensures version == NextVersion(Values(reports), after, now)
  {
    hide Values, Candidates, NewestFirst, FirstQualifying;
    if |after.deployments| == 0 {
      return DEFAULT_TAG;
    }
    ghost var values := Values(reports);
    var first := after.deployments[0];
    var versions := [];
    CandidatesFromEnd(values, first, []);
    for i := 0 to |reports|
      invariant AllValid(reports) && Values(reports) == values
      invariant Candidates(values[i..], first, versions) == Candidates(values, first, [])
    {
      CandidatesFrom(values, i, first, versions);
      assert values[i] == reports[i].Value();
      if reports[i].deploymentName == first {
        versions := VersionsOf(reports[i], versions);
      }
    }
    CandidatesFromEnd(values, first, versions);
    assert Choice(values, after, now) == FirstQualifying(versions, values, after, now);
    version := FirstBaked(versions, reports, after, now);
    assert Values(reports) == values;
  }

  lemma CandidateStep(versions: seq<string>, k: nat, values: seq<Report>, after: DeployAfter, now: int)
    requires k < |versions|
    ensures FirstQualifying(versions[k..], values, after, now) ==
            if Qualifies(values, after, versions[k], now) then Some(versions[k])
            else FirstQualifying(versions[k + 1..], values, after, now)
  {
    hide Qualifies;
    assert versions[k..][0] == versions[k] && versions[k..][1..] == versions[k + 1..];
  }

  lemma CandidatesEnd(versions: seq<string>, values: seq<Report>, after: DeployAfter, now: int)
    ensures FirstQualifying(versions[|versions|..], values, after, now) == None
    ensures FirstQualifying(versions[0..], values, after, now) == FirstQualifying(versions, values, after, now)
  {
    assert versions[0..] == versions;
  }

  ghost predicate BakedIn(value: Report, after: DeployAfter, version: string, now: int) {
    value.deploymentName in after.deployments ==> after.bakeTime <= HealthyDuration(value.statuses, version, now)
  }

  lemma QualifiesIsBakedInAll(values: seq<Report>, after: DeployAfter, version: string, now: int)
    ensures Qualifies(values, after, version, now) <==>
              forall i :: 0 <= i < |values| ==> BakedIn(values[i], after, version, now)
  {
    hide HealthyDuration;
  }

  // The labelled loop of NextVersion.
  method FirstBaked(versions: seq<string>, reports: seq<DeploymentStatusesReport>, after: DeployAfter, now: int)
    returns (version: string)
    requires AllValid(reports)
    ensures version == match FirstQualifying(versions, Values(reports), after, now) case Some(v) => v case None => ""
  {
    hide Values, HealthyDuration, Qualifies, FirstQualifying;
    ghost var values := Values(reports);
    CandidatesEnd(versions, values, after, now);
    label versions: for k := 0 to |versions|
      invariant AllValid(reports) && Values(reports) == values
      invariant FirstQualifying(versions[k..], values, after, now) == FirstQualifying(versions, values, after, now)
    {
      var v := versions[k];
      CandidateStep(versions, k, values, after, now);
      QualifiesIsBakedInAll(values, after, v, now);
      for i := 0 to |reports|
        invariant AllValid(reports) && Values(reports) == values
        invariant forall j :: 0 <= j < i ==> BakedIn(values[j], after, v, now)
      {
        assert values[i] == reports[i].Value();
        if reports[i].deploymentName !in after.deployments {
          continue;
        }
        var duration := reports[i].VersionHealthyDuration(v, now);
        if after.bakeTime > duration {
          continue versions;
        }
      }
      return v;
    }
    return "";
  }

  // ---------------------------------------------------------------- one poll

  // What the poll fetched, per required deployment; None where the fetch failed.
  type Fetched = map<string, Option<DeploymentStatus>>

  // GetStatus succeeds when the registry answers and holds a status; Start is when it was observed.
  function FetchOne(registry: map<string, DeploymentStatus>, deployment: string, reachable: bool,
                    now: int): Option<DeploymentStatus> {
    if reachable && deployment in registry then Some(registry[deployment].(start := now)) else None
  }

  function FetchAll(required: seq<string>, registry: map<string, DeploymentStatus>, reachable: set<string>,
                    now: int): Fetched {
    map d | d in required :: FetchOne(registry, d, d in reachable, now)
  }

  predicate AllFetched(required: seq<string>, fetched: Fetched) {
    forall d <- required :: d in fetched && fetched[d].Some?
  }

  function Observe(h: History, status: Option<DeploymentStatus>): History {
    match status case Some(s) => Append(h, s) case None => h
  }

  function ObserveAliased(h: History, status: Option<DeploymentStatus>): History {
    match status case Some(s) => Rewrite(h, s) case None => h
  }

  function FetchedOf(fetched: Fetched, deployment: string): Option<DeploymentStatus> {
    if deployment in fetched then fetched[deployment] else None
  }

  // The new reports: one per required deployment, its old history with the observation folded in.
  function PolledReports(required: seq<string>, reports: seq<Report>, fetched: Fetched): (r: seq<Report>)
    ensures |r| == |required|
  {
    seq(|required|, i requires 0 <= i < |required| =>
      Report(required[i], Observe(StatusesOf(reports, required[i]), FetchedOf(fetched, required[i]))))
  }

  // The old reports once the poll has run: the header copies share their arrays.
  function AliasedReports(reports: seq<Report>, fetched: Fetched): (r: seq<Report>)
    ensures |r| == |reports|
  {
    seq(|reports|, k requires 0 <= k < |reports| => AliasedReport(reports, k, fetched))
  }

  function AliasedReport(reports: seq<Report>, k: nat, fetched: Fetched): Report
    requires k < |reports|
  {
    var name := reports[k].deploymentName;
    if ReportIndex(reports, name) == k then
      Report(name, ObserveAliased(reports[k].statuses, FetchedOf(fetched, name)))
    else
      reports[k]
  }

  // A required deployment is fetched when it is in reach and has published, and then as of now.
  lemma FetchedExactly(required: seq<string>, registry: map<string, DeploymentStatus>, reachable: set<string>, now: int,
                       d: string)
    ensures var fetched := FetchAll(required, registry, reachable, now);
            && (d in fetched <==> d in required)
            && (d in required ==>
                  (fetched[d].Some? <==> d in reachable && d in registry)
                  && (fetched[d].Some? ==>
                        fetched[d].value == DeploymentStatus(registry[d].version, registry[d].state, now)))
    ensures AllFetched(required, FetchAll(required, registry, reachable, now)) <==>
              forall s <- required :: s in reachable && s in registry
  {
  }

  // Of the old reports only the first about a deployment is touched, and only when it was fetched.
  lemma OnlyFirstIsAliased(reports: seq<Report>, fetched: Fetched, j: nat, k: nat)
    requires k < |reports| && AliasedReports(reports, fetched)[k] != reports[k]
    ensures reports[k].deploymentName in fetched && fetched[reports[k].deploymentName].Some?
    ensures j < k ==> reports[j].deploymentName != reports[k].deploymentName
  {
  }

  ghost predicate Separate(reports: seq<DeploymentStatusesReport>)
    reads reports
  {
    forall i, j :: 0 <= i < j < |reports| ==> reports[i] != reports[j] && reports[i].data != reports[j].data
  }

  method CopyHeader(reports: seq<DeploymentStatusesReport>, deployment: string) returns (copy: DeploymentStatusesReport)
    requires AllValid(reports)
    ensures fresh(copy) && copy.Valid() && copy.deploymentName == deployment
    ensures copy.Contents() == StatusesOf(Values(reports), deployment)
    ensures var k := ReportIndex(Values(reports), deployment);
            if k < |reports| then copy.data == reports[k].data && copy.len == reports[k].len else fresh(copy.data)
  {
    hide Values, ReportIndex;
    ghost var values := Values(reports);
    var found := FindDeploymentStatusReport(reports, deployment);
    if found.None? {
      var none := new DeploymentStatus[0];
      copy := new DeploymentStatusesReport(deployment, none, 0);
    } else {
      copy := new DeploymentStatusesReport(deployment, reports[found.value].data, reports[found.value].len);
    }
    assert Values(reports) == values;
  }

  // The old report at `k` while the deployments in `polled` have been dealt with.
  function OldReport(before: seq<Report>, k: nat, fetched: Fetched, polled: seq<string>): Report
    requires k < |before|
  {
    if before[k].deploymentName in polled then AliasedReport(before, k, fetched) else before[k]
  }

  function NewReport(before: seq<Report>, deployment: string, fetched: Fetched): Report {
    Report(deployment, Observe(StatusesOf(before, deployment), FetchedOf(fetched, deployment)))
  }

  ghost predicate SameNames(reports: seq<DeploymentStatusesReport>, before: seq<Report>) {
    |reports| == |before| && forall k :: 0 <= k < |reports| ==> reports[k].deploymentName == before[k].deploymentName
  }

  lemma {:induction false} IndexByNames(a: seq<Report>, b: seq<Report>, deployment: string)
    requires |a| == |b| && forall k :: 0 <= k < |a| ==> a[k].deploymentName == b[k].deploymentName
    ensures ReportIndex(a, deployment) == ReportIndex(b, deployment)
  {
    hide ReportIndex;
    var i, j := ReportIndex(a, deployment), ReportIndex(b, deployment);
    assert i < |a| ==> b[i].deploymentName == deployment;
    assert j < |b| ==> a[j].deploymentName == deployment;
  }

  // Where the array of the report about `deployment` is, if there is one.
  ghost function ArrayOf(reports: seq<DeploymentStatusesReport>, before: seq<Report>, deployment: string): set<object>
    requires |reports| == |before|
    reads reports
  {
    var k := ReportIndex(before, deployment);
    if k < |reports| then {reports[k].data} else {}
  }

  // One goroutine of the poll: copy the header, fetch, append.
  method PollOne(deployment: string, reports: seq<DeploymentStatusesReport>, ghost before: seq<Report>,
                 status: Option<DeploymentStatus>)
    returns (copy: DeploymentStatusesReport)
    requires AllValid(reports) && SameNames(reports, before)
    requires var k := ReportIndex(before, deployment);
             k < |reports| ==> reports[k].Value() == before[k]
    modifies ArrayOf(reports, before, deployment)
    ensures fresh(copy) && copy.Valid() && AllValid(reports)
    ensures copy.Value() == Report(deployment, Observe(StatusesOf(before, deployment), status))
    ensures copy.data in ArrayOf(reports, before, deployment) || fresh(copy.data)
    ensures var k := ReportIndex(before, deployment);
            k < |reports| ==> reports[k].Contents() == ObserveAliased(before[k].statuses, status)
  {
    hide Values, Append, Rewrite, ReportIndex;
    ghost var k := ReportIndex(before, deployment);
    IndexByNames(Values(reports), before, deployment);
    copy := CopyHeader(reports, deployment);
    if status.Some? {
      copy.AppendStatus(status.value);
    }
  }

  lemma OldReportStep(before: seq<Report>, k: nat, fetched: Fetched, required: seq<string>, i: nat)
    requires k < |before| && i < |required|
    ensures before[k].deploymentName != required[i] ==>
              OldReport(before, k, fetched, required[..i + 1]) == OldReport(before, k, fetched, required[..i])
    ensures ReportIndex(before, required[i]) == k && required[i] in fetched ==>
              OldReport(before, k, fetched, required[..i + 1]) ==
              Report(required[i], ObserveAliased(before[k].statuses, fetched[required[i]]))
    ensures before[k].deploymentName == required[i] && ReportIndex(before, required[i]) != k ==>
              OldReport(before, k, fetched, required[..i + 1]) == before[k]
    ensures required[i] !in required[..i] && before[k].deploymentName == required[i] ==>
              OldReport(before, k, fetched, required[..i]) == before[k]
  {
    hide ReportIndex, ObserveAliased;
    assert required[..i + 1] == required[..i] + [required[i]];
  }

  // The poll has dealt with the first |copies| required deployments: what the old headers show by
  // now, what the copies hold, and that a copy shares no array but that of its own old report.
  ghost predicate Polling(required: seq<string>, reports: seq<DeploymentStatusesReport>,
                          copies: seq<DeploymentStatusesReport>, before: seq<Report>, fetched: Fetched)
    reads reports, copies, Arrays(reports), Arrays(copies)
  {
    && |copies| <= |required|
    && AllValid(reports) && Separate(reports) && SameNames(reports, before) && AllValid(copies)
    && OldOnes(reports, before, fetched, required[..|copies|])
    && NewOnes(required, copies, before, fetched)
    && ShareOnlyTheirOwn(required, reports, copies, before)
  }

  ghost predicate OldOnes(reports: seq<DeploymentStatusesReport>, before: seq<Report>, fetched: Fetched,
                          polled: seq<string>)
    requires AllValid(reports) && |reports| == |before|
    reads reports, Arrays(reports)
  {
    forall k :: 0 <= k < |reports| ==> reports[k].Value() == OldReport(before, k, fetched, polled)
  }

  ghost predicate NewOnes(required: seq<string>, copies: seq<DeploymentStatusesReport>, before: seq<Report>,
                          fetched: Fetched)
    requires AllValid(copies) && |copies| <= |required|
    reads copies, Arrays(copies)
  {
    forall j :: 0 <= j < |copies| ==> copies[j].Value() == NewReport(before, required[j], fetched)
  }

  ghost predicate ShareOnlyTheirOwn(required: seq<string>, reports: seq<DeploymentStatusesReport>,
                                    copies: seq<DeploymentStatusesReport>, before: seq<Report>)
    requires |copies| <= |required|
    reads reports, copies
  {
    forall j, k :: 0 <= j < |copies| && 0 <= k < |reports| && copies[j].data == reports[k].data ==>
      k == ReportIndex(before, required[j])
  }

  lemma OneMoreCopy(required: seq<string>, reports: seq<DeploymentStatusesReport>,
                    copies: seq<DeploymentStatusesReport>, before: seq<Report>, fetched: Fetched,
                    copy: DeploymentStatusesReport)
    requires |copies| < |required| && AllValid(copies) && copy.Valid() && |reports| == |before| && Separate(reports)
    requires NewOnes(required, copies, before, fetched) && ShareOnlyTheirOwn(required, reports, copies, before)
    requires copy.Value() == NewReport(before, required[|copies|], fetched)
    requires copy.data in ArrayOf(reports, before, required[|copies|]) || forall r <- reports :: copy.data != r.data
    ensures AllValid(copies + [copy]) && NewOnes(required, copies + [copy], before, fetched)
    ensures ShareOnlyTheirOwn(required, reports, copies + [copy], before)
  {
    hide ReportIndex, NewReport;
    var more := copies + [copy];
    assert forall j :: 0 <= j < |copies| ==> more[j] == copies[j];
  }

  lemma NotPolledYet(before: seq<Report>, k: nat, fetched: Fetched, required: seq<string>, i: nat)
    requires Distinct(required) && i < |required| && k < |before| && k == ReportIndex(before, required[i])
    ensures OldReport(before, k, fetched, required[..i]) == before[k]
    ensures forall j :: 0 <= j < i ==> k != ReportIndex(before, required[j])
  {
    hide ReportIndex;
    assert before[k].deploymentName == required[i];
  }

  // PollOne beside the copies made before: nothing but its own report's array changes.
  method PollBeside(deployment: string, reports: seq<DeploymentStatusesReport>, copies: seq<DeploymentStatusesReport>,
                    ghost before: seq<Report>, status: Option<DeploymentStatus>)
    returns (copy: DeploymentStatusesReport)
    requires AllValid(reports) && SameNames(reports, before) && Separate(reports) && AllValid(copies)
    requires var k := ReportIndex(before, deployment);
             k < |reports| ==> reports[k].Value() == before[k]
    requires forall j :: 0 <= j < |copies| ==> copies[j].data !in ArrayOf(reports, before, deployment)
    modifies ArrayOf(reports, before, deployment)
    ensures fresh(copy) && copy.Valid() && AllValid(reports) && AllValid(copies)
    ensures copy.Value() == Report(deployment, Observe(StatusesOf(before, deployment), status))
    ensures copy.data in ArrayOf(reports, before, deployment) || fresh(copy.data)
    ensures forall m :: 0 <= m < |reports| ==>
              reports[m].Value() == if m == ReportIndex(before, deployment)
                                    then Report(deployment, ObserveAliased(before[m].statuses, status))
                                    else old(reports[m].Value())
    ensures forall j :: 0 <= j < |copies| ==> copies[j].Value() == old(copies[j].Value())
  {
    hide ReportIndex, Observe, ObserveAliased, StatusesOf;
    copy := PollOne(deployment, reports, before, status);
  }

  lemma OldOnesMove(required: seq<string>, i: nat, reports: seq<DeploymentStatusesReport>, before: seq<Report>,
                    fetched: Fetched, was: seq<Report>)
    requires i < |required| && required[i] !in required[..i] && required[i] in fetched
    requires AllValid(reports) && SameNames(reports, before) && |was| == |reports|
    requires forall m :: 0 <= m < |was| ==> was[m] == OldReport(before, m, fetched, required[..i])
    requires forall m :: 0 <= m < |reports| ==>
               reports[m].Value() == if m == ReportIndex(before, required[i])
                                     then Report(required[i], ObserveAliased(before[m].statuses, fetched[required[i]]))
                                     else was[m]
    ensures OldOnes(reports, before, fetched, required[..i + 1])
  {
    hide ReportIndex, OldReport, ObserveAliased;
    forall m | 0 <= m < |reports| ensures reports[m].Value() == OldReport(before, m, fetched, required[..i + 1]) {
      OldReportStep(before, m, fetched, required, i);
    }
  }

  // Nobody has touched the report that the next copy is made of.
  lemma NextIsUntouched(required: seq<string>, reports: seq<DeploymentStatusesReport>,
                        copies: seq<DeploymentStatusesReport>, before: seq<Report>, fetched: Fetched)
    requires Polling(required, reports, copies, before, fetched) && |copies| < |required| && Distinct(required)
    ensures var k := ReportIndex(before, required[|copies|]); k < |reports| ==> reports[k].Value() == before[k]
    ensures forall j :: 0 <= j < |copies| ==> copies[j].data !in ArrayOf(reports, before, required[|copies|])
  {
    hide ReportIndex, NewOnes;
    var k := ReportIndex(before, required[|copies|]);
    if k < |reports| {
      NotPolledYet(before, k, fetched, required, |copies|);
      forall j | 0 <= j < |copies| ensures copies[j].data != reports[k].data {
        assert required[j] != required[|copies|];
        assert k < |before| ==> before[k].deploymentName == required[|copies|];
      }
    }
  }

  method PollNext(required: seq<string>, reports: seq<DeploymentStatusesReport>,
                  copies: seq<DeploymentStatusesReport>, ghost before: seq<Report>, ghost fetched: Fetched,
                  status: Option<DeploymentStatus>)
    returns (copy: DeploymentStatusesReport)
    requires Polling(required, reports, copies, before, fetched) && |copies| < |required| && Distinct(required)
    requires required[|copies|] in fetched && status == fetched[required[|copies|]]
    modifies ArrayOf(reports, before, required[|copies|])
    ensures Polling(required, reports, copies + [copy], before, fetched)
    ensures fresh(copy)
  {
    hide ReportIndex, OldReport, Observe, ObserveAliased, StatusesOf, ShareOnlyTheirOwn, Values;
    ghost var was, wereCopies := Values(reports), Values(copies);
    NextIsUntouched(required, reports, copies, before, fetched);
    copy := PollBeside(required[|copies|], reports, copies, before, status);
    OldOnesMove(required, |copies|, reports, before, fetched, was);
    assert forall j :: 0 <= j < |copies| ==> copies[j].Value() == wereCopies[j];
    OneMoreCopy(required, reports, copies, before, fetched, copy);
  }

  lemma AllPolled(reports: seq<DeploymentStatusesReport>, copies: seq<DeploymentStatusesReport>,
                  required: seq<string>, before: seq<Report>, fetched: Fetched)
    requires Polling(required, reports, copies, before, fetched) && |copies| == |required|
    requires fetched.Keys == set d | d in required
    ensures AllValid(reports) && AllValid(copies)
    ensures Values(reports) == AliasedReports(before, fetched)
    ensures Values(copies) == PolledReports(required, before, fetched)
  {
    hide ReportIndex, Observe, StatusesOf, Values;
    assert required[..|copies|] == required;
    forall k | 0 <= k < |reports| ensures Values(reports)[k] == AliasedReport(before, k, fetched) {
      assert Values(reports)[k] == reports[k].Value();
    }
    forall j | 0 <= j < |copies| ensures Values(copies)[j] == NewReport(before, required[j], fetched) {
      assert Values(copies)[j] == copies[j].Value();
    }
  }

  // Fetches every required status and appends it to a copy of the old report's header.
  method Poll(required: seq<string>, reports: seq<DeploymentStatusesReport>,
              registry: map<string, DeploymentStatus>, reachable: set<string>, now: int)
    returns (copies: seq<DeploymentStatusesReport>, failed: bool)
    requires AllValid(reports) && Separate(reports) && Distinct(required)
    modifies Arrays(reports)
    ensures AllValid(reports) && AllValid(copies)
    ensures failed <==> !AllFetched(required, FetchAll(required, registry, reachable, now))
    ensures Values(reports) == AliasedReports(old(Values(reports)), FetchAll(required, registry, reachable, now))
    ensures Values(copies) == PolledReports(required, old(Values(reports)),
                                            FetchAll(required, registry, reachable, now))
  {
    hide Values, Polling, ReportIndex, FetchOne, AliasedReports, PolledReports;
    ghost var before := Values(reports);
    ghost var fetched := FetchAll(required, registry, reachable, now);
    copies, failed := [], false;
    StartPolling(required, reports, before, fetched);
    for i := 0 to |required|
      invariant |copies| == i && Polling(required, reports, copies, before, fetched)
      invariant forall r <- copies :: fresh(r)
      invariant forall k :: 0 <= k < |reports| ==> reports[k].data == old(reports[k].data)
      invariant failed <==> exists j :: 0 <= j < i && fetched[required[j]].None?
    {
      var status := FetchOne(registry, required[i], required[i] in reachable, now);
      if status.None? {
        failed := true;
      }
      var copy := PollNext(required, reports, copies, before, fetched, status);
      copies := copies + [copy];
    }
    AllPolled(reports, copies, required, before, fetched);
  }

  lemma StartPolling(required: seq<string>, reports: seq<DeploymentStatusesReport>, before: seq<Report>,
                     fetched: Fetched)
    requires AllValid(reports) && Separate(reports) && before == Values(reports)
    ensures Polling(required, reports, [], before, fetched)
  {
    hide Values, ReportIndex;
  }
}
