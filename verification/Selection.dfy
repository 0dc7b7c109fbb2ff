// How long a version has been healthy, and which version is propagated next: the spec functions
// of VersionHealthyDuration and NextVersion, in closed form, and what they guarantee.
module Selection {
  import opened Wrappers
  import opened Statuses

  const DEFAULT_TAG := "latest"

  datatype Report = Report(deploymentName: string, statuses: History)

  datatype DeployAfter = DeployAfter(deployments: seq<string>, bakeTime: int)

  // ---------------------------------------------------------------- healthy duration

  // Index of the first entry of `version`, or |h| when there is none.
  function FirstIndex(h: History, version: string): (i: nat)
    ensures i <= |h|
    ensures i < |h| ==> h[i].version == version
    ensures forall j :: 0 <= j < i ==> h[j].version != version
  {
    if h == [] || h[0].version == version then 0 else 1 + FirstIndex(h[1..], version)
  }

  // Index of the last entry of `version`, or -1 when there is none.
  function LastIndex(h: History, version: string): (i: int)
    ensures -1 <= i < |h|
    ensures i >= 0 ==> h[i].version == version
    ensures forall j :: i < j < |h| ==> h[j].version != version
  {
    if h == [] then -1
    else if Last(h).version == version then |h| - 1
    else LastIndex(h[..|h| - 1], version)
  }

  predicate Occurs(h: History, version: string) {
    exists i :: 0 <= i < |h| && h[i].version == version
  }

  predicate Vetoed(h: History, version: string) {
    exists i :: 0 <= i < |h| && h[i].version == version && !h[i].state.Healthy?
  }

  // The Start of the last entry at or after `from` that is not Healthy, or `now`.
  function Until(h: History, from: nat, now: int): int {
    if |h| <= from then now
    else if !Last(h).state.Healthy? then Last(h).start
    else Until(h[..|h| - 1], from, now)
  }

  function HealthyDuration(h: History, version: string, now: int): int {
    if !Occurs(h, version) || Vetoed(h, version) then 0
    else Until(h, FirstIndex(h, version), now) - h[FirstIndex(h, version)].start
  }

  ghost predicate IsLastFault(h: History, from: nat, k: int) {
    from <= k < |h| && !h[k].state.Healthy? && forall j :: k < j < |h| ==> h[j].state.Healthy?
  }

  lemma {:induction false} LastFault(h: History, from: nat, i: nat) returns (k: nat)
    requires from <= i < |h| && !h[i].state.Healthy?
    ensures IsLastFault(h, from, k)
  {
    if Last(h).state.Healthy? {
      var front := h[..|h| - 1];
      k := LastFault(front, from, i);
      assert forall j :: 0 <= j < |front| ==> h[j] == front[j];
    } else {
      k := |h| - 1;
    }
  }

  lemma {:induction false} UntilAt(h: History, from: nat, k: nat, now: int)
    requires IsLastFault(h, from, k)
    ensures Until(h, from, now) == h[k].start
  {
    if Last(h).state.Healthy? {
      var front := h[..|h| - 1];
      assert forall j :: 0 <= j < |front| ==> h[j] == front[j];
      UntilAt(front, from, k, now);
    } else {
      assert k == |h| - 1;
    }
  }

  lemma {:induction false} UntilNow(h: History, from: nat, now: int)
    requires forall i :: from <= i < |h| ==> h[i].state.Healthy?
    ensures Until(h, from, now) == now
  {
    if |h| > from {
      assert h[|h| - 1].state.Healthy?;
      UntilNow(h[..|h| - 1], from, now);
    }
  }

  lemma UntilIsLastFault(h: History, from: nat, now: int)
    ensures (exists i :: from <= i < |h| && !h[i].state.Healthy?) ==>
              exists i :: from <= i < |h| && !h[i].state.Healthy? && Until(h, from, now) == h[i].start
                          && forall j :: i < j < |h| ==> h[j].state.Healthy?
    ensures (forall i :: from <= i < |h| ==> h[i].state.Healthy?) ==> Until(h, from, now) == now
  {
    hide Until;
    if i :| from <= i < |h| && !h[i].state.Healthy? {
      var k := LastFault(h, from, i);
      UntilAt(h, from, k, now);
    } else {
      UntilNow(h, from, now);
    }
  }

  // On a sorted history the duration lies between 0 and the time since the version first came up.
  lemma DurationBounds(h: History, version: string, now: int)
    requires Sorted(h) && NotAfter(h, now)
    ensures 0 <= HealthyDuration(h, version, now)
    ensures Occurs(h, version) ==> HealthyDuration(h, version, now) <= now - h[FirstIndex(h, version)].start
  {
    hide FirstIndex, Until;
    if Occurs(h, version) {
      var from := FirstIndex(h, version);
      if i :| from <= i < |h| && !h[i].state.Healthy? {
        var k := LastFault(h, from, i);
        UntilAt(h, from, k, now);
        assert h[from].start <= h[k].start <= now;
      } else {
        UntilNow(h, from, now);
      }
    }
  }

  lemma FirstIs(h: History, version: string, i: nat)
    requires i < |h| && h[i].version == version && forall j :: 0 <= j < i ==> h[j].version != version
    ensures FirstIndex(h, version) == i
  {
    hide FirstIndex;
  }

  // The duration of a version, none of whose entries is anything but Healthy, runs from its first entry to
  // the last later entry that is not Healthy,
  lemma DurationEndsAtLastFault(h: History, version: string, i: nat, k: nat, now: int)
    requires i < k < |h| && h[i].version == version
    requires forall j :: 0 <= j < i ==> h[j].version != version
    requires forall j :: 0 <= j < |h| && h[j].version == version ==> h[j].state == Healthy
    requires h[k].state != Healthy && forall j :: k < j < |h| ==> h[j].state == Healthy
    ensures HealthyDuration(h, version, now) == h[k].start - h[i].start
  {
    hide FirstIndex;
    FirstIs(h, version, i);
    UntilIsLastFault(h, i, now);
    assert !h[k].state.Healthy?;
  }

  // or to now when there is none,
  lemma DurationRunsToNow(h: History, version: string, i: nat, now: int)
    requires i < |h| && h[i].version == version
    requires forall j :: 0 <= j < i ==> h[j].version != version
    requires forall j :: i <= j < |h| ==> h[j].state == Healthy
    ensures HealthyDuration(h, version, now) == now - h[i].start
  {
    hide FirstIndex;
    FirstIs(h, version, i);
    UntilIsLastFault(h, i, now);
    assert !Vetoed(h, version);
  }

  // and is nothing for a version that never came up or was ever seen in another state.
  lemma NoDuration(h: History, version: string, now: int)
    requires || (forall j :: 0 <= j < |h| ==> h[j].version != version)
             || (exists j :: 0 <= j < |h| && h[j].version == version && h[j].state != Healthy)
    ensures HealthyDuration(h, version, now) == 0
  {
  }

  lemma {:induction false} UntilMonotone(h: History, from: nat, now: int, later: int)
    requires now <= later
    ensures Until(h, from, now) <= Until(h, from, later)
  {
    if |h| > from && Last(h).state.Healthy? {
      UntilMonotone(h[..|h| - 1], from, now, later);
    }
  }

  lemma DurationMonotone(h: History, version: string, now: int, later: int)
    requires now <= later
    ensures HealthyDuration(h, version, now) <= HealthyDuration(h, version, later)
  {
    UntilMonotone(h, FirstIndex(h, version), now, later);
  }

  // With a new entry of another version that is not Healthy, the end point moves to that entry,
  // wherever earlier faults were: the last fault counts, not the first.
  lemma LaterFaultMovesTheEnd(h: History, version: string, fault: DeploymentStatus, now: int)
    requires Occurs(h, version) && !Vetoed(h, version)
    requires fault.version != version && !fault.state.Healthy?
    ensures HealthyDuration(h + [fault], version, now) == fault.start - h[FirstIndex(h, version)].start
  {
    var g := h + [fault];
    var i := FirstIndex(h, version);
    assert g[i].version == version && FirstIndex(g, version) == i by {
      assert forall j :: 0 <= j < |h| ==> g[j] == h[j];
    }
  }

  // A positive duration is evidence: the version came up Healthy, no entry of it says otherwise,
  // and that first entry is at least as old as the duration.
  lemma PositiveDuration(h: History, version: string, now: int)
    requires HealthyDuration(h, version, now) > 0
    ensures Occurs(h, version) && !Vetoed(h, version)
    ensures h[FirstIndex(h, version)].state.Healthy?
    ensures NotAfter(h, now) ==> h[FirstIndex(h, version)].start + HealthyDuration(h, version, now) <= now
  {
    UntilIsLastFault(h, FirstIndex(h, version), now);
  }

  // ---------------------------------------------------------------- choice of a version

  // The versions of a history, newest first and without repeats, after those already in `found`.
  function NewestFirst(h: History, found: seq<string>): seq<string> {
    if h == [] then found
    else NewestFirst(h[..|h| - 1], if Last(h).version in found then found else found + [Last(h).version])
  }

  function Candidates(reports: seq<Report>, deployment: string, found: seq<string>): seq<string>
    decreases reports
  {
    if reports == [] then found
    else Candidates(reports[1..], deployment,
                    if reports[0].deploymentName == deployment then NewestFirst(reports[0].statuses, found) else found)
  }

  predicate Qualifies(reports: seq<Report>, after: DeployAfter, version: string, now: int) {
    forall i :: 0 <= i < |reports| && reports[i].deploymentName in after.deployments ==>
      after.bakeTime <= HealthyDuration(reports[i].statuses, version, now)
  }

  function FirstQualifying(candidates: seq<string>, reports: seq<Report>, after: DeployAfter,
                           now: int): (r: Option<string>)
    ensures r.Some? ==> r.value in candidates && Qualifies(reports, after, r.value, now)
    ensures r.None? ==> forall v <- candidates :: !Qualifies(reports, after, v, now)
  {
    if candidates == [] then None
    else if Qualifies(reports, after, candidates[0], now) then Some(candidates[0])
    else FirstQualifying(candidates[1..], reports, after, now)
  }

  function Choice(reports: seq<Report>, after: DeployAfter, now: int): Option<string>
    requires after.deployments != []
  {
    FirstQualifying(Candidates(reports, after.deployments[0], []), reports, after, now)
  }

  function NextVersion(reports: seq<Report>, after: DeployAfter, now: int): string {
    if after.deployments == [] then DEFAULT_TAG
    else match Choice(reports, after, now) case Some(v) => v case None => ""
  }

  // ---------------------------------------------------------------- candidates

  lemma {:induction false} NewestFirstMembers(h: History, found: seq<string>)
    ensures found <= NewestFirst(h, found)
    ensures forall v :: v in NewestFirst(h, found) <==> v in found || Occurs(h, v)
    decreases |h|
  {
    if h != [] {
      var front := h[..|h| - 1];
      var found' := if Last(h).version in found then found else found + [Last(h).version];
      NewestFirstMembers(front, found');
      forall v ensures v in NewestFirst(h, found) <==> v in found || Occurs(h, v) {
        if Occurs(h, v) && v != Last(h).version {
          var i :| 0 <= i < |h| && h[i].version == v;
          assert front[i].version == v;
        }
        if Occurs(front, v) {
          var i :| 0 <= i < |front| && front[i].version == v;
          assert h[i].version == v;
        }
        if v == Last(h).version {
          assert h[|h| - 1].version == v;
        }
      }
    }
  }

  lemma {:induction false} CandidatesMembers(reports: seq<Report>, deployment: string, found: seq<string>)
    ensures forall v :: v in Candidates(reports, deployment, found) <==>
                        v in found || exists i :: 0 <= i < |reports| && reports[i].deploymentName == deployment
                                                  && Occurs(reports[i].statuses, v)
    decreases reports
  {
    if reports != [] {
      var r := reports[0];
      var found' := if r.deploymentName == deployment then NewestFirst(r.statuses, found) else found;
      NewestFirstMembers(r.statuses, found);
      CandidatesMembers(reports[1..], deployment, found');
      forall v ensures v in Candidates(reports, deployment, found) <==>
                       v in found || exists i :: 0 <= i < |reports| && reports[i].deploymentName == deployment
                                                 && Occurs(reports[i].statuses, v) {
        if i :| 0 <= i < |reports| && reports[i].deploymentName == deployment && Occurs(reports[i].statuses, v) {
          if i > 0 { assert reports[1..][i - 1] == reports[i]; }
        }
        if i :| && 0 <= i < |reports| - 1
                && reports[1..][i].deploymentName == deployment && Occurs(reports[1..][i].statuses, v) {
          assert reports[i + 1] == reports[1..][i];
        }
      }
    }
  }

  // Position by position, candidates get older: an earlier candidate occurs later in the history.
  ghost predicate NewerFirst(h: History, versions: seq<string>) {
    forall i, j :: 0 <= i < j < |versions| ==> LastIndex(h, versions[i]) > LastIndex(h, versions[j])
  }

  // `found` holds the versions of all entries from `n` on, newest first.
  ghost predicate FoundFrom(h: History, n: nat, found: seq<string>) {
    && NewerFirst(h, found)
    && (forall i :: 0 <= i < |found| ==> LastIndex(h, found[i]) >= n)
    && (forall i :: n <= i < |h| ==> h[i].version in found)
  }

  lemma LastIndexOfUnfound(h: History, n: nat, found: seq<string>)
    requires n < |h| && FoundFrom(h, n + 1, found) && h[n].version !in found
    ensures LastIndex(h, h[n].version) == n
  {
    hide LastIndex, NewerFirst;
    var v := h[n].version;
    forall j | n < j < |h| ensures h[j].version != v {
      assert h[j].version in found;
    }
  }

  lemma OneOlderCandidate(h: History, found: seq<string>, v: string)
    requires NewerFirst(h, found) && forall i :: 0 <= i < |found| ==> LastIndex(h, found[i]) > LastIndex(h, v)
    ensures NewerFirst(h, found + [v])
  {
    hide LastIndex;
    var found' := found + [v];
    forall i, j | 0 <= i < j < |found'| ensures LastIndex(h, found'[i]) > LastIndex(h, found'[j]) {
      assert found'[i] == found[i];
    }
  }

  lemma NewestFirstStep(h: History, n: nat, found: seq<string>)
    requires n < |h| && FoundFrom(h, n + 1, found)
    ensures FoundFrom(h, n, if h[n].version in found then found else found + [h[n].version])
  {
    hide LastIndex, NewerFirst;
    var v := h[n].version;
    if v !in found {
      LastIndexOfUnfound(h, n, found);
      OneOlderCandidate(h, found, v);
      forall i | n <= i < |h| ensures h[i].version in found + [v] {
        assert i > n ==> h[i].version in found;
      }
    }
  }

  lemma {:induction false} NewestFirstOrder(h: History, n: nat, found: seq<string>)
    requires n <= |h| && FoundFrom(h, n, found)
    ensures NewerFirst(h, NewestFirst(h[..n], found))
    decreases n
  {
    hide LastIndex, NewerFirst;
    if n == 0 {
      assert h[..0] == [];
    } else {
      var v := h[n - 1].version;
      assert h[..n][..n - 1] == h[..n - 1] && Last(h[..n]) == h[n - 1];
      NewestFirstStep(h, n - 1, found);
      NewestFirstOrder(h, n - 1, if v in found then found else found + [v]);
    }
  }

  predicate Distinct(names: seq<string>) {
    forall i, j :: 0 <= i < j < |names| ==> names[i] != names[j]
  }

  predicate UniqueNames(reports: seq<Report>) {
    forall i, j :: 0 <= i < j < |reports| ==> reports[i].deploymentName != reports[j].deploymentName
  }

  lemma {:induction false} CandidatesOfOnlyReport(reports: seq<Report>, k: nat, found: seq<string>)
    requires k < |reports| && UniqueNames(reports)
    ensures Candidates(reports, reports[k].deploymentName, found) == NewestFirst(reports[k].statuses, found)
    decreases reports
  {
    if k > 0 {
      CandidatesOfOnlyReport(reports[1..], k - 1, found);
    } else {
      CandidatesOfOthers(reports[1..], reports[k].deploymentName, NewestFirst(reports[k].statuses, found));
    }
  }

  lemma {:induction false} CandidatesOfOthers(reports: seq<Report>, deployment: string, found: seq<string>)
    requires forall i :: 0 <= i < |reports| ==> reports[i].deploymentName != deployment
    ensures Candidates(reports, deployment, found) == found
    decreases reports
  {
    if reports != [] {
      CandidatesOfOthers(reports[1..], deployment, found);
    }
  }

  // ---------------------------------------------------------------- soundness, completeness, newest

  lemma {:induction false} FirstQualifyingIsFirst(candidates: seq<string>, reports: seq<Report>, after: DeployAfter,
                                                  now: int, j: nat)
    requires FirstQualifying(candidates, reports, after, now).Some?
    requires j < |candidates| && Qualifies(reports, after, candidates[j], now)
    ensures exists i :: 0 <= i <= j && candidates[i] == FirstQualifying(candidates, reports, after, now).value
  {
    if Qualifies(reports, after, candidates[0], now) {
      assert candidates[0] == FirstQualifying(candidates, reports, after, now).value;
    } else {
      FirstQualifyingIsFirst(candidates[1..], reports, after, now, j - 1);
      var i :| 0 <= i <= j - 1 && candidates[1..][i] == FirstQualifying(candidates, reports, after, now).value;
      assert candidates[i + 1] == candidates[1..][i];
    }
  }

  // A chosen version meets the bake time in every listed report and occurs in the first one, where
  // nothing that occurs later qualifies; no choice means that no version of that report qualifies.
  lemma ChoiceIsNewestQualifying(reports: seq<Report>, k: nat, after: DeployAfter, now: int)
    requires k < |reports| && UniqueNames(reports)
    requires after.deployments != [] && reports[k].deploymentName == after.deployments[0]
    ensures var h := reports[k].statuses;
            match Choice(reports, after, now)
            case Some(v) =>
              && Occurs(h, v) && Qualifies(reports, after, v, now)
              && forall w :: Occurs(h, w) && LastIndex(h, w) > LastIndex(h, v) ==> !Qualifies(reports, after, w, now)
            case None => forall w :: Occurs(h, w) ==> !Qualifies(reports, after, w, now)
  {
    var h := reports[k].statuses;
    var candidates := Candidates(reports, after.deployments[0], []);
    CandidatesOfOnlyReport(reports, k, []);
    NewestFirstMembers(h, []);
    assert h[..|h|] == h;
    NewestFirstOrder(h, |h|, []);
    if Choice(reports, after, now).Some? {
      var v := Choice(reports, after, now).value;
      forall w | Occurs(h, w) && Qualifies(reports, after, w, now) ensures LastIndex(h, w) <= LastIndex(h, v) {
        var j :| 0 <= j < |candidates| && candidates[j] == w;
        FirstQualifyingIsFirst(candidates, reports, after, now, j);
        var i :| 0 <= i <= j && candidates[i] == v;
        assert i < j ==> LastIndex(h, candidates[i]) > LastIndex(h, candidates[j]);
      }
    }
  }

  // What has no wave before it takes the latest release, whatever has been reported.
  lemma NothingPrecedesTheFront(reports: seq<Report>, bakeTime: int, now: int)
    ensures NextVersion(reports, DeployAfter([], bakeTime), now) == "latest"
  {
  }

  // Everything else takes a version of the first listed report that was healthy everywhere for the bake
  // time, and that nothing later in that report was; or nothing, when there is no such version.
  lemma NextVersionIsNewestBaked(reports: seq<Report>, k: nat, after: DeployAfter, now: int)
    requires k < |reports| && UniqueNames(reports)
    requires after.deployments != [] && reports[k].deploymentName == after.deployments[0]
    ensures var h, next := reports[k].statuses, NextVersion(reports, after, now);
            || (exists j :: 0 <= j < |h| && h[j].version == next
                  && (forall i :: 0 <= i < |reports| && reports[i].deploymentName in after.deployments ==>
                        HealthyDuration(reports[i].statuses, next, now) >= after.bakeTime)
                  && (forall l :: j < l < |h| && h[l].version != next ==>
                        exists i :: 0 <= i < |reports| && reports[i].deploymentName in after.deployments
                                    && HealthyDuration(reports[i].statuses, h[l].version, now) < after.bakeTime))
            || (next == "" && forall l :: 0 <= l < |h| ==>
                  exists i :: 0 <= i < |reports| && reports[i].deploymentName in after.deployments
                              && HealthyDuration(reports[i].statuses, h[l].version, now) < after.bakeTime)
  {
    hide HealthyDuration, FirstQualifying, Candidates, LastIndex;
    ChoiceIsNewestQualifying(reports, k, after, now);
    var h, next := reports[k].statuses, NextVersion(reports, after, now);
    if Choice(reports, after, now).Some? {
      var j := LastIndex(h, next);
      assert h[j].version == next;
      forall l | j < l < |h| && h[l].version != next
        ensures exists i :: 0 <= i < |reports| && reports[i].deploymentName in after.deployments
                            && HealthyDuration(reports[i].statuses, h[l].version, now) < after.bakeTime
      {
        assert Occurs(h, h[l].version) && LastIndex(h, h[l].version) >= l;
        assert !Qualifies(reports, after, h[l].version, now);
      }
    } else {
      forall l | 0 <= l < |h|
        ensures exists i :: 0 <= i < |reports| && reports[i].deploymentName in after.deployments
                            && HealthyDuration(reports[i].statuses, h[l].version, now) < after.bakeTime
      {
        assert Occurs(h, h[l].version);
        assert !Qualifies(reports, after, h[l].version, now);
      }
    }
  }

  ghost predicate HasReport(reports: seq<Report>, deployment: string) {
    exists i :: 0 <= i < |reports| && reports[i].deploymentName == deployment
  }

  // Looking for candidates in the first listed report only loses nothing: there is a choice
  // exactly when some version at all qualifies everywhere.
  lemma ChoiceExists(reports: seq<Report>, after: DeployAfter, now: int)
    requires after.deployments != [] && after.bakeTime > 0
    requires HasReport(reports, after.deployments[0])
    ensures Choice(reports, after, now).Some? <==> exists v :: Qualifies(reports, after, v, now)
  {
    CandidatesMembers(reports, after.deployments[0], []);
    if v :| Qualifies(reports, after, v, now) {
      var i :| 0 <= i < |reports| && reports[i].deploymentName == after.deployments[0];
      PositiveDuration(reports[i].statuses, v, now);
      assert v in Candidates(reports, after.deployments[0], []);
    }
  }

  // So the order in which a wave lists its deployments never decides whether there is an answer.
  lemma OrderOfDeploymentsIsIrrelevant(reports: seq<Report>, a: DeployAfter, b: DeployAfter, now: int)
    requires a.deployments != [] && b.deployments != [] && a.bakeTime == b.bakeTime > 0
    requires multiset(a.deployments) == multiset(b.deployments)
    requires forall d <- a.deployments :: HasReport(reports, d)
    ensures Choice(reports, a, now).Some? <==> Choice(reports, b, now).Some?
  {
    assert forall d :: d in a.deployments <==> d in multiset(a.deployments);
    assert forall d :: d in b.deployments <==> d in multiset(b.deployments);
    assert b.deployments[0] in a.deployments && a.deployments[0] in a.deployments;
    ChoiceExists(reports, a, now);
    ChoiceExists(reports, b, now);
    assert forall v :: Qualifies(reports, a, v, now) <==> Qualifies(reports, b, v, now);
  }
}
