// PropagationReconciler.Reconcile in its own form: fields updated step by step, the reports on the
// heap with their shared arrays, every call with its early return. Proved to do exactly what the
// value-level pass does.
module Reconciler {
  import opened Wrappers
  import opened Statuses
  import opened Selection
  import opened Topology
  import opened StatusReport
  import opened Propagation
  import opened Reconciliation

  // Reads stored reports back into memory, each with an array of its own.
  method Decode(stored: seq<Report>) returns (reports: seq<DeploymentStatusesReport>)
    ensures AllValid(reports) && Separate(reports) && Values(reports) == stored
    ensures forall r <- reports :: fresh(r) && fresh(r.data)
  {
    hide Values;
    reports := [];
    for i := 0 to |stored|
      invariant |reports| == i && AllValid(reports) && Separate(reports)
      invariant forall k :: 0 <= k < i ==> reports[k].Value() == stored[k]
      invariant forall r <- reports :: fresh(r) && fresh(r.data)
    {
      var report := DecodeOne(stored[i]);
      reports := reports + [report];
    }
    assert forall k :: 0 <= k < |stored| ==> Values(reports)[k] == stored[k];
  }

  method DecodeOne(stored: Report) returns (report: DeploymentStatusesReport)
    ensures fresh(report) && fresh(report.data) && report.Valid() && report.Value() == stored
  {
    var statuses := stored.statuses;
    var data := new DeploymentStatus[|statuses|](i requires 0 <= i < |statuses| => statuses[i]);
    report := new DeploymentStatusesReport(stored.deploymentName, data, |statuses|);
    assert data[..|statuses|] == statuses;
  }

  // Writes the reports out as the API server stores them.
  method Encode(reports: seq<DeploymentStatusesReport>) returns (stored: seq<Report>)
    requires AllValid(reports)
    ensures AllValid(reports) && stored == Values(reports) == old(Values(reports))
  {
    hide Values;
    stored := [];
    for i := 0 to |reports|
      invariant stored == Values(reports)[..i]
    {
      stored := stored + [Report(reports[i].deploymentName, reports[i].data[..reports[i].len])];
      assert Values(reports)[i] == reports[i].Value();
    }
  }

  lemma BlockerStep(with: seq<string>, i: nat, reports: seq<Report>, config: Config, version: string, now: int)
    requires i < |with|
    ensures FirstBlocker(with[i..], reports, config, version, now) ==
            if HoldsOpen(reports, config, version, with[i], now)
            then FirstBlocker(with[i + 1..], reports, config, version, now)
            else Some(with[i])
  {
    hide HoldsOpen;
    assert with[i..][0] == with[i] && with[i..][1..] == with[i + 1..];
  }

  lemma BlockerEnds(with: seq<string>, reports: seq<Report>, config: Config, version: string, now: int)
    ensures FirstBlocker(with[|with|..], reports, config, version, now) == None
    ensures FirstBlocker(with[0..], reports, config, version, now) == FirstBlocker(with, reports, config, version, now)
  {
    hide HoldsOpen;
    assert with[0..] == with;
  }

  class PropagationReconciler {
    const deployment: string
    var stored: PropagationStatus
    var backend: Backend

    constructor (name: string, registry: Backend)
      ensures deployment == name && backend == registry && stored == NO_STATUS
    {
      deployment := name;
      backend := registry;
      stored := NO_STATUS;
    }

    // Blocks on the first DeployWith deployment that does not hold the gate open.
    method WaitFor(with: seq<string>, reports: seq<DeploymentStatusesReport>, config: Config, version: string, now: int)
      returns (waiting: Option<string>)
      requires AllValid(reports)
      requires forall d <- with :: StatusesOf(Values(reports), d) != []
      ensures waiting == FirstBlocker(with, Values(reports), config, version, now)
    {
      hide Values, StatusesOf, FirstBlocker, HoldsOpen;
      ghost var values := Values(reports);
      BlockerEnds(with, values, config, version, now);
      for i := 0 to |with|
        invariant AllValid(reports) && Values(reports) == values
        invariant FirstBlocker(with[i..], values, config, version, now)
                  == FirstBlocker(with, values, config, version, now)
      {
        BlockerStep(with, i, values, config, version, now);
        var open := IsOpen(with[i], reports, config, version, now);
        assert Values(reports) == values;
        if !open {
          return Some(with[i]);
        }
      }
      return None;
    }

    // The condition of the gate: LastStatus is never nil here, so it is dereferenced safely.
    method IsOpen(d: string, reports: seq<DeploymentStatusesReport>, config: Config, version: string, now: int)
      returns (open: bool)
      requires AllValid(reports) && StatusesOf(Values(reports), d) != []
      ensures open <==> HoldsOpen(Values(reports), config, version, d, now)
    {
      hide Values, ReportIndex, DeploymentBakeTime, HealthyDuration;
      ghost var values := Values(reports);
      var found := FindDeploymentStatusReport(reports, d);
      if found.None? {
        return false;
      }
      var report := reports[found.value];
      assert values[found.value] == report.Value();
      var last := report.LastStatus();
      if report.data[last.value].version != version || report.data[last.value].state != Healthy {
        return false;
      }
      var duration := report.VersionHealthyDuration(version, now);
      open := duration >= DeploymentBakeTime(config.environments, d);
    }

    // The second half of Reconcile: poll, persist the reports, gate, choose, propagate.
    method PollAndPropagate(mem: PropagationStatus, config: Config, version: string, calls: Calls, now: int)
      returns (outcome: Outcome)
      requires stored == mem && Distinct(Required(mem.deployConditions))
      modifies this`stored, this`backend
      ensures var polls := FetchesAll(Controller(mem, Polls(config, mem, version, map[])), old(backend),
                                      calls.reachable, now);
              var decided := Decide(EndPoll(polls, calls.reportsPersisted), now);
              var (ctl, b) := Deploy(deployment, Pull(deployment, decided, old(backend), calls.manifestReachable),
                                     old(backend), calls.deployPublished);
              stored == ctl.stored && backend == b && ctl.local == Idle(outcome)
    {
      hide Values, EndPoll, Decide, Pull, Deploy, FetchAll, Required;
      ghost var polls := FetchesAll(Controller(mem, Polls(config, mem, version, map[])), backend, calls.reachable, now);
      var required := mem.deployConditions.deployWith + mem.deployConditions.deployAfter.deployments;
      RequiredIs(mem.deployConditions);
      EndOfPoll(polls, backend, calls.reachable, now, calls.reportsPersisted);
      var reports := Decode(mem.reports);
      var copies, failed := Poll(required, reports, backend.statuses, calls.reachable, now);
      if failed {
        if calls.reportsPersisted {
          var aliased := Encode(reports);
          stored := mem.(reports := aliased);
        }
        StoppedPoll(deployment, Controller(stored, Idle(Failed)), backend, calls, now);
        return Failed;
      }
      var polled := Encode(copies);
      if !calls.reportsPersisted {
        StoppedPoll(deployment, Controller(stored, Idle(Failed)), backend, calls, now);
        return Failed;
      }
      stored := mem.(reports := polled);
      assert EndPoll(polls, true) == Controller(stored, Deciding(config, stored, version));
      PollsAreNonEmpty(polls);
      outcome := DecideAndPropagate(copies, config, version, calls, now);
    }

    method DecideAndPropagate(copies: seq<DeploymentStatusesReport>, config: Config, version: string, calls: Calls,
                              now: int)
      returns (outcome: Outcome)
      requires AllValid(copies) && Values(copies) == stored.reports
      requires forall d <- Required(stored.deployConditions) :: StatusesOf(stored.reports, d) != []
      modifies this`backend
      ensures var decided := Decide(Controller(stored, Deciding(config, stored, version)), now);
              var (ctl, b) := Deploy(deployment, Pull(deployment, decided, old(backend), calls.manifestReachable),
                                     old(backend), calls.deployPublished);
              stored == ctl.stored && backend == b && ctl.local == Idle(outcome)
    {
      hide Values, StatusesOf, FirstBlocker, NextVersion, Pull, Deploy, Decide;
      ghost var ctl := Controller(stored, Deciding(config, stored, version));
      DecideIs(ctl, now);
      var waiting := WaitFor(stored.deployConditions.deployWith, copies, config, version, now);
      assert Values(copies) == stored.reports;
      if waiting.Some? {
        StoppedDecision(deployment, Controller(stored, Idle(WaitingFor(waiting.value))), backend, calls);
        return WaitingFor(waiting.value);
      }
      var next := NextVersionFor(copies, stored.deployConditions.deployAfter, now);
      assert Values(copies) == stored.reports;
      if next == "" {
        StoppedDecision(deployment, Controller(stored, Idle(NoCandidate)), backend, calls);
        return NoCandidate;
      }
      outcome := Propagate(next, calls, version);
    }

    // PropagationClient.Propagate.
    method Propagate(version: string, calls: Calls, ghost running: string) returns (outcome: Outcome)
      modifies this`backend
      ensures var (ctl, b) := Deploy(deployment, Pull(deployment, Controller(stored, Pulling(running, version)),
                                                      old(backend), calls.manifestReachable),
                                     old(backend), calls.deployPublished);
              backend == b && ctl == Controller(stored, Idle(outcome))
    {
      var tag := ManifestTag(deployment, version);
      if !calls.manifestReachable || tag !in backend.manifests {
        return Failed;
      }
      var manifest := backend.manifests[tag];
      if !calls.deployPublished {
        return Failed;
      }
      backend := backend.(deploys := backend.deploys[deployment := manifest]);
      return Propagated(version);
    }

    method Reconcile(calls: Calls, now: int) returns (outcome: Outcome)
      requires calls.config.Some? && ConditionsOf(calls.config.value, deployment).Some? ==>
                 Distinct(Required(ConditionsOf(calls.config.value, deployment).value))
      modifies this
      ensures var (ctl, b) := Pass(deployment, Controller(old(stored), Idle(Never)), old(backend), calls, now);
              stored == ctl.stored && backend == b && ctl.local == Idle(outcome)
    {
      hide ConditionsOf, FetchesAll, EndPoll, Decide, Pull, Deploy;
      if calls.config.None? {
        StoppedPass(deployment, Controller(stored, Idle(Failed)), backend, calls, now);
        return Failed;
      }
      var config := calls.config.value;
      var conditions := DeployConditionsFromConfig(deployment, config);
      if conditions.Err? || !calls.conditionsPersisted {
        StoppedPass(deployment, Controller(stored, Idle(Failed)), backend, calls, now);
        return Failed;
      }
      var mem := stored.(deployConditions := conditions.value);
      stored := mem;
      if calls.running.None? || !calls.readied {
        StoppedPass(deployment, Controller(stored, Idle(Failed)), backend, calls, now);
        return Failed;
      }
      var version := calls.running.value;
      if mem.deploymentStatus.version != version || mem.deploymentStatus.state != Healthy {
        mem := mem.(deploymentStatus := DeploymentStatus(version, Healthy, 0));
        if !calls.published {
          StoppedPass(deployment, Controller(stored, Idle(Failed)), backend, calls, now);
          return Failed;
        }
        backend := backend.(statuses := backend.statuses[deployment := mem.deploymentStatus]);
        if !calls.statusPersisted {
          StoppedPass(deployment, Controller(stored, Idle(StatusNotPersisted)), backend, calls, now);
          return StatusNotPersisted;
        }
        stored := mem;
      }
      outcome := PollAndPropagate(mem, config, version, calls, now);
    }
  }

  lemma RequiredIs(conditions: DeployConditions)
    ensures Required(conditions) == conditions.deployWith + conditions.deployAfter.deployments
  {
  }

  lemma DecideIs(ctl: Controller, now: int)
    requires ctl.local.Deciding?
    ensures var l := ctl.local;
            Decide(ctl, now) ==
            match FirstBlocker(l.mem.deployConditions.deployWith, l.mem.reports, l.config, l.version, now)
            case Some(d) => Controller(ctl.stored, Idle(WaitingFor(d)))
            case None =>
              var next := NextVersion(l.mem.reports, l.mem.deployConditions.deployAfter, now);
              Controller(ctl.stored, if next == "" then Idle(NoCandidate) else Pulling(ctl.local.version, next))
  {
    hide FirstBlocker, NextVersion;
  }

  lemma StoppedDecision(name: string, ctl: Controller, backend: Backend, calls: Calls)
    requires ctl.local.Idle?
    ensures Deploy(name, Pull(name, ctl, backend, calls.manifestReachable), backend, calls.deployPublished)
            == (ctl, backend)
  {
  }

  lemma PollsAreNonEmpty(polls: Controller)
    requires polls.local.Polls? && EndPoll(polls, true).local.Deciding?
    requires Distinct(Required(polls.local.mem.deployConditions))
    ensures forall d <- Required(polls.local.mem.deployConditions) ::
            StatusesOf(EndPoll(polls, true).local.mem.reports, d) != []
  {
    hide EndPoll, StatusesOf;
    forall d <- Required(polls.local.mem.deployConditions)
      ensures StatusesOf(EndPoll(polls, true).local.mem.reports, d) != []
    {
      PollGivesOneReportEach(polls, true, d);
    }
  }
}
