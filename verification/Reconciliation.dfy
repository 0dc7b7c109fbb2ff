// One reconcile of a Propagation, cut into the steps between which other controllers may act:
// load, publish, poll, gate and decide, pull the manifest, deploy. Every backend call and every
// status update may fail.
module Reconciliation {
  import opened Wrappers
  import opened Statuses
  import opened Selection
  import opened Topology
  import opened Propagation

  datatype PropagationStatus = PropagationStatus(
    deploymentStatus: DeploymentStatus,
    deployConditions: DeployConditions,
    reports: seq<Report>)

  datatype ManifestTag = ManifestTag(deployment: string, tag: string)

  // The registry: published statuses, manifests by tag, and what each deployment is to run. A
  // manifest is represented by the version it installs.
  datatype Backend = Backend(
    statuses: map<string, DeploymentStatus>,
    manifests: map<ManifestTag, string>,
    deploys: map<string, string>)

  datatype Outcome =
    | Never
    | Failed
    | StatusNotPersisted
    | WaitingFor(deployment: string)
    | NoCandidate
    | Propagated(version: string)

  datatype Local =
    | Idle(last: Outcome)
    | Loaded(config: Config, mem: PropagationStatus, version: string)
    | Polls(config: Config, mem: PropagationStatus, version: string, fetched: Fetched)
    | Deciding(config: Config, mem: PropagationStatus, version: string)
    | Pulling(version: string, target: string)
    | Deploying(version: string, target: string, manifest: string)

  // `stored` is what the API server holds; the rest lives in the memory of the running reconcile.
  datatype Controller = Controller(stored: PropagationStatus, local: Local) {
    function Stop(outcome: Outcome): Controller {
      this.(local := Idle(outcome))
    }
  }

  const NO_STATUS := PropagationStatus(DeploymentStatus("", Other(""), 0), DeployConditions(DeployAfter([], 0), []), [])

  function Required(conditions: DeployConditions): seq<string> {
    conditions.deployWith + conditions.deployAfter.deployments
  }

  function HealthyNow(version: string): DeploymentStatus {
    DeploymentStatus(version, Healthy, 0)
  }

  predicate Reports(status: DeploymentStatus, version: string) {
    status.version == version && status.state.Healthy?
  }

  // ---------------------------------------------------------------- the steps

  // Fetch the config, derive and persist the conditions, read the running version, set Ready.
  function Load(name: string, ctl: Controller, config: Option<Config>, running: Option<string>,
                persisted: bool, readied: bool): Controller {
    if config.None? || ConditionsOf(config.value, name).None? || !persisted then ctl.Stop(Failed)
    else
      var mem := ctl.stored.(deployConditions := ConditionsOf(config.value, name).value);
      var saved := ctl.(stored := mem);
      if running.None? || !readied then saved.Stop(Failed)
      else saved.(local := Loaded(config.value, mem, running.value))
  }

  // Publish the own status when it differs from the stored one, then persist it.
  function PublishOwn(name: string, ctl: Controller, backend: Backend, published: bool, persisted: bool):
    (Controller, Backend)
  {
    if !ctl.local.Loaded? then (ctl, backend)
    else
      var l := ctl.local;
      if Reports(l.mem.deploymentStatus, l.version) then
        (ctl.(local := Polls(l.config, l.mem, l.version, map[])), backend)
      else if !published then (ctl.Stop(Failed), backend)
      else
        var mem := l.mem.(deploymentStatus := HealthyNow(l.version));
        var backend' := backend.(statuses := backend.statuses[name := HealthyNow(l.version)]);
        if !persisted then (ctl.Stop(StatusNotPersisted), backend')
        else (Controller(mem, Polls(l.config, mem, l.version, map[])), backend')
  }

  // One fetch of the poll, in any order.
  function Fetch(ctl: Controller, backend: Backend, deployment: string, reachable: bool, now: int): Controller {
    if || !ctl.local.Polls?
       || deployment !in Required(ctl.local.mem.deployConditions)
       || deployment in ctl.local.fetched
    then ctl
    else
      var fetched := FetchOne(backend.statuses, deployment, reachable, now);
      ctl.(local := ctl.local.(fetched := ctl.local.fetched[deployment := fetched]))
  }

  // All fetches are in: persist the new reports, or the old ones, as their arrays are by now, when
  // some fetch failed.
  function EndPoll(ctl: Controller, persisted: bool): Controller {
    if !ctl.local.Polls? || !(forall d <- Required(ctl.local.mem.deployConditions) :: d in ctl.local.fetched) then ctl
    else
      var l := ctl.local;
      var required := Required(l.mem.deployConditions);
      if !AllFetched(required, l.fetched) then
        var aliased := l.mem.(reports := AliasedReports(l.mem.reports, l.fetched));
        Controller(if persisted then aliased else ctl.stored, Idle(Failed))
      else if !persisted then ctl.Stop(Failed)
      else
        var mem := l.mem.(reports := PolledReports(required, l.mem.reports, l.fetched));
        Controller(mem, Deciding(l.config, mem, l.version))
  }

  // A DeployWith deployment holds the gate open when its latest record is the running version,
  // Healthy, and baked for its own wave.
  predicate HoldsOpen(reports: seq<Report>, config: Config, version: string, deployment: string, now: int) {
    var h := StatusesOf(reports, deployment);
    && h != [] && Reports(Last(h), version)
    && DeploymentBakeTime(config.environments, deployment) <= HealthyDuration(h, version, now)
  }

  function FirstBlocker(with: seq<string>, reports: seq<Report>, config: Config, version: string,
                        now: int): (r: Option<string>)
    ensures r.None? <==> forall d <- with :: HoldsOpen(reports, config, version, d, now)
    ensures r.Some? ==>
              exists i :: 0 <= i < |with| && with[i] == r.value && !HoldsOpen(reports, config, version, with[i], now)
                          && forall j :: 0 <= j < i ==> HoldsOpen(reports, config, version, with[j], now)
  {
    if with == [] then None
    else if !HoldsOpen(reports, config, version, with[0], now) then Some(with[0])
    else FirstBlocker(with[1..], reports, config, version, now)
  }

  function Decide(ctl: Controller, now: int): Controller {
    if !ctl.local.Deciding? then ctl
    else
      var l := ctl.local;
      match FirstBlocker(l.mem.deployConditions.deployWith, l.mem.reports, l.config, l.version, now)
      case Some(d) => ctl.Stop(WaitingFor(d))
      case None =>
        var next := NextVersion(l.mem.reports, l.mem.deployConditions.deployAfter, now);
        if next == "" then ctl.Stop(NoCandidate) else ctl.(local := Pulling(l.version, next))
  }

  // Propagate, first half: fetch the manifest of the target version.
  function Pull(name: string, ctl: Controller, backend: Backend, reachable: bool): Controller {
    if !ctl.local.Pulling? then ctl
    else
      var tag := ManifestTag(name, ctl.local.target);
      if reachable && tag in backend.manifests then
        ctl.(local := Deploying(ctl.local.version, ctl.local.target, backend.manifests[tag]))
      else ctl.Stop(Failed)
  }

  // Propagate, second half: publish it as what the deployment is to run.
  function Deploy(name: string, ctl: Controller, backend: Backend, published: bool): (Controller, Backend) {
    if !ctl.local.Deploying? then (ctl, backend)
    else if !published then (ctl.Stop(Failed), backend)
    else (ctl.Stop(Propagated(ctl.local.target)), backend.(deploys := backend.deploys[name := ctl.local.manifest]))
  }

  // ---------------------------------------------------------------- a whole pass

  // What the calls of one reconcile return: which succeed, and what is read.
  datatype Calls = Calls(
    config: Option<Config>, conditionsPersisted: bool, running: Option<string>, readied: bool,
    published: bool, statusPersisted: bool, reachable: set<string>, reportsPersisted: bool,
    manifestReachable: bool, deployPublished: bool)

  function FetchesAll(ctl: Controller, backend: Backend, reachable: set<string>, now: int): Controller {
    if !ctl.local.Polls? then ctl
    else
      var required := Required(ctl.local.mem.deployConditions);
      ctl.(local := ctl.local.(fetched := FetchAll(required, backend.statuses, reachable, now)))
  }

  // The first half of a reconcile, up to where it polls or gives up.
  function Start(name: string, ctl: Controller, backend: Backend, calls: Calls): (Controller, Backend) {
    var loaded := Load(name, ctl, calls.config, calls.running, calls.conditionsPersisted, calls.readied);
    PublishOwn(name, loaded, backend, calls.published, calls.statusPersisted)
  }

  // The second half, from the end of the poll on, given what was fetched.
  function Finish(name: string, polls: Controller, registry: Backend, calls: Calls, now: int): (Controller, Backend) {
    var decided := Decide(EndPoll(FetchesAll(polls, registry, calls.reachable, now), calls.reportsPersisted), now);
    Deploy(name, Pull(name, decided, registry, calls.manifestReachable), registry, calls.deployPublished)
  }

  // A reconcile nobody interleaves with.
  function Pass(name: string, ctl: Controller, backend: Backend, calls: Calls, now: int): (Controller, Backend) {
    var (polls, registry) := Start(name, ctl, backend, calls);
    Finish(name, polls, registry, calls, now)
  }

  // Once a step has stopped the pass, the later steps do nothing.
  lemma StoppedPass(name: string, ctl: Controller, backend: Backend, calls: Calls, now: int)
    requires ctl.local.Idle?
    ensures Finish(name, ctl, backend, calls, now) == (ctl, backend)
  {
  }

  lemma StoppedPoll(name: string, ctl: Controller, backend: Backend, calls: Calls, now: int)
    requires ctl.local.Idle?
    ensures Deploy(name, Pull(name, Decide(ctl, now), backend, calls.manifestReachable), backend, calls.deployPublished)
            == (ctl, backend)
  {
  }

  // The end of a poll in which everything was fetched that could be.
  lemma EndOfPoll(polls: Controller, backend: Backend, reachable: set<string>, now: int, persisted: bool)
    requires polls.local.Polls?
    ensures var l := polls.local;
            var required := Required(l.mem.deployConditions);
            var fetched := FetchAll(required, backend.statuses, reachable, now);
            EndPoll(FetchesAll(polls, backend, reachable, now), persisted) ==
            if !AllFetched(required, fetched) then
              var aliased := l.mem.(reports := AliasedReports(l.mem.reports, fetched));
              Controller(if persisted then aliased else polls.stored, Idle(Failed))
            else if !persisted then Controller(polls.stored, Idle(Failed))
            else
              var mem := l.mem.(reports := PolledReports(required, l.mem.reports, fetched));
              Controller(mem, Deciding(l.config, mem, l.version))
  {
    hide FetchOne, AllFetched, Required, AliasedReports, PolledReports;
  }

  // ---------------------------------------------------------------- poll and gate

  lemma {:induction false} ReportIndexOfDistinct(reports: seq<Report>, i: nat)
    requires i < |reports| && UniqueNames(reports)
    ensures ReportIndex(reports, reports[i].deploymentName) == i
    ensures StatusesOf(reports, reports[i].deploymentName) == reports[i].statuses
  {
    hide ReportIndex;
    var k := ReportIndex(reports, reports[i].deploymentName);
    assert k <= i;
  }

  lemma StatusesOfPolled(required: seq<string>, reports: seq<Report>, fetched: Fetched, d: string)
    requires Distinct(required) && d in required
    ensures StatusesOf(PolledReports(required, reports, fetched), d)
            == Observe(StatusesOf(reports, d), FetchedOf(fetched, d))
  {
    hide ReportIndex, Observe;
    var polled := PolledReports(required, reports, fetched);
    assert forall i :: 0 <= i < |polled| ==> polled[i].deploymentName == required[i];
    var i :| 0 <= i < |required| && required[i] == d;
    ReportIndexOfDistinct(polled, i);
  }

  // The polled reports are one for each required deployment, in their order.
  lemma OneReportEach(required: seq<string>, reports: seq<Report>, fetched: Fetched)
    ensures var polled := PolledReports(required, reports, fetched);
            && (forall i :: 0 <= i < |polled| ==> polled[i].deploymentName == required[i])
            && (forall d <- required :: HasReport(polled, d))
            && (Distinct(required) ==> UniqueNames(polled))
  {
    hide Observe, StatusesOf;
    var polled := PolledReports(required, reports, fetched);
    assert forall i :: 0 <= i < |polled| ==> polled[i].deploymentName == required[i];
    forall d <- required ensures HasReport(polled, d) {
      var i :| 0 <= i < |required| && required[i] == d;
      assert polled[i].deploymentName == d;
    }
  }

  // A poll that gets to deciding leaves exactly one non-empty report per required deployment: its old
  // history with the fetched observation appended, ending in what was just observed.
  lemma PollGivesOneReportEach(ctl: Controller, persisted: bool, d: string)
    requires ctl.local.Polls? && EndPoll(ctl, persisted).local.Deciding?
    requires Distinct(Required(ctl.local.mem.deployConditions)) && d in Required(ctl.local.mem.deployConditions)
    ensures var after := EndPoll(ctl, persisted).local.mem;
            var reports, before := after.reports, ctl.local.mem.reports;
            && UniqueNames(reports) && |reports| == |Required(ctl.local.mem.deployConditions)|
            && HasReport(reports, d)
            && d in ctl.local.fetched && ctl.local.fetched[d].Some?
            && StatusesOf(reports, d) == Append(StatusesOf(before, d), ctl.local.fetched[d].value)
            && StatusesOf(reports, d) != []
            && SameCondition(Last(StatusesOf(reports, d)), ctl.local.fetched[d].value)
            && EndPoll(ctl, persisted).stored == after
  {
    hide Append, ReportIndex;
    var l := ctl.local;
    var required := Required(l.mem.deployConditions);
    var reports := PolledReports(required, l.mem.reports, l.fetched);
    assert UniqueNames(reports) by {
      assert forall i :: 0 <= i < |reports| ==> reports[i].deploymentName == required[i];
    }
    var i :| 0 <= i < |required| && required[i] == d;
    assert reports[i].deploymentName == d;
    ReportIndexOfDistinct(reports, i);
    AppendEndsWithObserved(StatusesOf(l.mem.reports, d), l.fetched[d].value);
  }

  // ---------------------------------------------------------------- publish before persist

  predicate Succeeds(name: string, calls: Calls) {
    && calls.config.Some? && ConditionsOf(calls.config.value, name).Some?
    && calls.conditionsPersisted && calls.running.Some? && calls.readied
    && calls.published && calls.statusPersisted
  }

  // What the steps after publishing do not touch.
  lemma LaterStepsKeepStatus(name: string, ctl: Controller, backend: Backend, calls: Calls, now: int)
    requires ctl.local.Polls? ==> ctl.local.mem.deploymentStatus == ctl.stored.deploymentStatus
    requires !ctl.local.Loaded? && !ctl.local.Deciding?
    ensures var decided := Decide(EndPoll(FetchesAll(ctl, backend, calls.reachable, now), calls.reportsPersisted), now);
            var (ctl', backend') := Deploy(name, Pull(name, decided, backend, calls.manifestReachable), backend,
                                           calls.deployPublished);
            && ctl'.stored.deploymentStatus == ctl.stored.deploymentStatus
            && backend'.statuses == backend.statuses
  {
    hide ReportIndex, NextVersion, FirstBlocker, AliasedReports, PolledReports;
  }

  // The status that a reconcile gets published, if it gets that far, has to, and may.
  function Publishes(name: string, stored: PropagationStatus, calls: Calls): Option<DeploymentStatus> {
    if && calls.config.Some? && ConditionsOf(calls.config.value, name).Some?
       && calls.conditionsPersisted && calls.running.Some? && calls.readied
       && !Reports(stored.deploymentStatus, calls.running.value) && calls.published
    then Some(HealthyNow(calls.running.value))
    else None
  }

  // What one reconcile does to the two copies of a deployment's own status: a new status is persisted
  // only in the reconcile that published it, and nothing else is ever published.
  lemma {:induction false} PassOnOwnStatus(name: string, stored: PropagationStatus, last: Outcome, backend: Backend,
                                           calls: Calls, now: int)
    ensures var (ctl', backend') := Pass(name, Controller(stored, Idle(last)), backend, calls, now);
            match Publishes(name, stored, calls)
            case Some(s) =>
              && backend'.statuses == backend.statuses[name := s]
              && ctl'.stored.deploymentStatus == if calls.statusPersisted then s else stored.deploymentStatus
            case None =>
              && backend'.statuses == backend.statuses
              && ctl'.stored.deploymentStatus == stored.deploymentStatus
  {
    hide ReportIndex, NextVersion, FirstBlocker, AliasedReports, PolledReports, ConditionsOf, EndPoll, FetchesAll,
      Decide, Pull, Deploy;
    var ctl := Controller(stored, Idle(last));
    var loaded := Load(name, ctl, calls.config, calls.running, calls.conditionsPersisted, calls.readied);
    var (polls, backend1) := PublishOwn(name, loaded, backend, calls.published, calls.statusPersisted);
    LaterStepsKeepStatus(name, polls, backend1, calls, now);
  }

  // What is published is the running version, Healthy, without a time; the observer sets that.
  lemma PublishedStatusIs(name: string, stored: PropagationStatus, calls: Calls)
    ensures Publishes(name, stored, calls).Some? ==>
              Publishes(name, stored, calls).value == DeploymentStatus(calls.running.value, Healthy, 0)
  {
    hide ConditionsOf;
  }

  // A run of one controller: reconciles with any outcomes of their calls, and anything others do to
  // the registry in between except to this deployment's status.
  datatype OwnRun = OwnRun(stored: PropagationStatus, backend: Backend, published: seq<DeploymentStatus>)

  datatype OwnEvent = Reconciled(calls: Calls, now: int) | Elsewhere(backend: Backend)

  predicate SameOwnStatus(name: string, a: Backend, b: Backend) {
    (name in a.statuses <==> name in b.statuses) && (name in a.statuses ==> a.statuses[name] == b.statuses[name])
  }

  function OwnStep(name: string, run: OwnRun, ev: OwnEvent): OwnRun {
    match ev
    case Elsewhere(backend) => if SameOwnStatus(name, run.backend, backend) then run.(backend := backend) else run
    case Reconciled(calls, now) =>
      var (ctl, backend) := Pass(name, Controller(run.stored, Idle(Never)), run.backend, calls, now);
      OwnRun(ctl.stored, backend,
             run.published + match Publishes(name, run.stored, calls) case Some(s) => [s] case None => [])
  }

  function OwnSteps(name: string, run: OwnRun, events: seq<OwnEvent>): OwnRun {
    if events == [] then run else OwnStep(name, OwnSteps(name, run, events[..|events| - 1]), events[|events| - 1])
  }

  // Every status ever persisted had been published, so the stored status can only lag behind the
  // registry, which always shows the latest published one.
  ghost predicate PublishedFirst(name: string, run: OwnRun) {
    && (run.stored.deploymentStatus == NO_STATUS.deploymentStatus || run.stored.deploymentStatus in run.published)
    && (run.published != [] ==>
          && name in run.backend.statuses
          && run.backend.statuses[name] == run.published[|run.published| - 1])
  }

  lemma {:induction false} PublishBeforePersist(name: string, backend: Backend, events: seq<OwnEvent>)
    ensures PublishedFirst(name, OwnSteps(name, OwnRun(NO_STATUS, backend, []), events))
  {
    if events != [] {
      var run := OwnSteps(name, OwnRun(NO_STATUS, backend, []), events[..|events| - 1]);
      PublishBeforePersist(name, backend, events[..|events| - 1]);
      match events[|events| - 1]
      case Elsewhere(_) =>
      case Reconciled(calls, now) =>
        hide Pass, ConditionsOf;
        PassOnOwnStatus(name, run.stored, Never, run.backend, calls, now);
    }
  }

  // Does a reconcile whose calls all succeed leave the registry showing the running version? Exactly
  // when the stored status called for publishing, or the registry showed it already.
  lemma {:induction false} RegistryAgreesExactly(name: string, stored: PropagationStatus, last: Outcome,
                                                 backend: Backend, calls: Calls, now: int)
    requires Succeeds(name, calls)
    ensures var (ctl', backend') := Pass(name, Controller(stored, Idle(last)), backend, calls, now);
            var version := calls.running.value;
            && Reports(ctl'.stored.deploymentStatus, version)
            && ((name in backend'.statuses && Reports(backend'.statuses[name], version)) <==>
                  !Reports(stored.deploymentStatus, version)
                  || (name in backend.statuses && Reports(backend.statuses[name], version)))
  {
    hide Pass, ConditionsOf;
    PassOnOwnStatus(name, stored, last, backend, calls, now);
  }

  ghost predicate InSync(name: string, stored: PropagationStatus, backend: Backend) {
    if name in backend.statuses then stored.deploymentStatus == backend.statuses[name]
    else stored.deploymentStatus == NO_STATUS.deploymentStatus
  }

  // Only a status update that fails after its publish went through lets the two copies part.
  lemma {:induction false} SyncIsKept(name: string, stored: PropagationStatus, last: Outcome, backend: Backend,
                                      calls: Calls, now: int)
    requires InSync(name, stored, backend) && calls.statusPersisted
    ensures var (ctl', backend') := Pass(name, Controller(stored, Idle(last)), backend, calls, now);
            InSync(name, ctl'.stored, backend')
  {
    hide Pass, ConditionsOf;
    PassOnOwnStatus(name, stored, last, backend, calls, now);
  }

  function AllGood(config: Config, running: string): Calls {
    Calls(Some(config), true, Some(running), true, true, true, {}, true, true, true)
  }

  // The promise that a successful reconcile publishes the running version is false: version 1 is
  // stored, version 2 is published but its status update fails, the deployment rolls back to 1, and
  // the next reconcile succeeds without publishing. The registry keeps showing 2.
  lemma RollbackAfterFailedUpdateIsNotPublished(config: Config, name: string, backend: Backend)
    requires ConditionsOf(config, name).Some?
    ensures var first := AllGood(config, "1");
            var second := AllGood(config, "2").(statusPersisted := false);
            var third := AllGood(config, "1");
            var (c1, b1) := Pass(name, Controller(NO_STATUS, Idle(Never)), backend, first, 0);
            var (c2, b2) := Pass(name, Controller(c1.stored, Idle(Never)), b1, second, 1);
            var (c3, b3) := Pass(name, Controller(c2.stored, Idle(Never)), b2, third, 2);
            && Succeeds(name, third)
            && Reports(c3.stored.deploymentStatus, "1")
            && name in b3.statuses && Reports(b3.statuses[name], "2")
  {
    hide Pass, ConditionsOf;
    var (c1, b1) := Pass(name, Controller(NO_STATUS, Idle(Never)), backend, AllGood(config, "1"), 0);
    var second := AllGood(config, "2").(statusPersisted := false);
    var (c2, b2) := Pass(name, Controller(c1.stored, Idle(Never)), b1, second, 1);
    PassOnOwnStatus(name, NO_STATUS, Never, backend, AllGood(config, "1"), 0);
    PassOnOwnStatus(name, c1.stored, Never, b1, second, 1);
    PassOnOwnStatus(name, c2.stored, Never, b2, AllGood(config, "1"), 2);
  }
}
