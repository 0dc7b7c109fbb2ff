// A fleet of controllers over one registry, with every step of every reconcile interleaved in any
// order with the others, with clock ticks, releases, rollouts and crashes; and the safety of it.
module Fleet {
  import opened Wrappers
  import opened Statuses
  import opened Selection
  import opened Topology
  import opened Propagation
  import R = Reconciliation

  // History variables: who published which version when, and who recorded it in a poll when.
  datatype Publication = Publication(deployment: string, version: string, at: int)

  datatype Observation = Observation(observer: string, subject: string, version: string, at: int)

  datatype Evidence = Evidence(published: set<Publication>, recorded: set<Observation>)

  datatype Fleet = Fleet(
    clock: int,
    running: map<string, string>,
    backend: R.Backend,
    controllers: map<string, R.Controller>,
    evidence: Evidence)

  datatype Event =
    | Tick(elapsed: nat)
    // The cluster makes a deployment run what its deploy artifact holds.
    | Apply(deployment: string)
    // A new version's manifest is pushed under its own tag, which is immutable, and under "latest".
    | Release(deployment: string, version: string)
    | Crash(deployment: string)
    | Load(deployment: string, configFetched: bool, persisted: bool, readied: bool)
    | Publish(deployment: string, published: bool, persisted: bool)
    | Fetch(deployment: string, subject: string, reachable: bool)
    | EndPoll(deployment: string, persisted: bool)
    | Decide(deployment: string)
    | Pull(deployment: string, reachable: bool)
    | Deploy(deployment: string, published: bool)

  // Version labels; the default tag is no version, and versions are not empty.
  predicate Proper(version: string) {
    version != DEFAULT_TAG && version != ""
  }

  function ReleaseManifest(b: R.Backend, d: string, version: string): R.Backend {
    var own, latest := R.ManifestTag(d, version), R.ManifestTag(d, DEFAULT_TAG);
    if !Proper(version) then b
    else b.(manifests := b.manifests[own := version][latest := version])
  }

  function OwnVersion(f: Fleet, d: string): Option<string> {
    if d in f.running then Some(f.running[d]) else None
  }

  function WithController(f: Fleet, d: string, ctl: R.Controller): Fleet {
    f.(controllers := f.controllers[d := ctl])
  }

  // Publishing went through, now.
  predicate Goes(ctl: R.Controller, published: bool) {
    ctl.local.Loaded? && published && !R.Reports(ctl.local.mem.deploymentStatus, ctl.local.version)
  }

  function NotePublication(e: Evidence, d: string, ctl: R.Controller, published: bool, now: int): Evidence {
    if Goes(ctl, published) then e.(published := e.published + {Publication(d, ctl.local.version, now)}) else e
  }

  // What a fetch brought in just now, if anything.
  function NewlyFetched(before: R.Controller, after: R.Controller, subject: string): Option<DeploymentStatus> {
    if before.local.Polls? && after.local.Polls? && subject !in before.local.fetched
    then FetchedOf(after.local.fetched, subject)
    else None
  }

  function NoteObservation(e: Evidence, d: string, subject: string, seen: Option<DeploymentStatus>): Evidence {
    match seen
    case Some(s) => e.(recorded := e.recorded + {Observation(d, subject, s.version, s.start)})
    case None => e
  }

  function ControllerStep(c: Config, f: Fleet, d: string, ev: Event): Fleet
    requires d in f.controllers
  {
    var ctl := f.controllers[d];
    match ev
    case Load(_, configFetched, persisted, readied) =>
      if ctl.local.Idle? then
        var config := if configFetched then Some(c) else None;
        WithController(f, d, R.Load(d, ctl, config, OwnVersion(f, d), persisted, readied))
      else f
    case Publish(_, published, persisted) =>
      var (ctl', backend) := R.PublishOwn(d, ctl, f.backend, published, persisted);
      var evidence := NotePublication(f.evidence, d, ctl, published, f.clock);
      WithController(f, d, ctl').(backend := backend, evidence := evidence)
    case Fetch(_, subject, reachable) =>
      var ctl' := R.Fetch(ctl, f.backend, subject, reachable, f.clock);
      WithController(f, d, ctl').(evidence := NoteObservation(f.evidence, d, subject, NewlyFetched(ctl, ctl', subject)))
    case EndPoll(_, persisted) => WithController(f, d, R.EndPoll(ctl, persisted))
    case Decide(_) => WithController(f, d, R.Decide(ctl, f.clock))
    case Pull(_, reachable) => WithController(f, d, R.Pull(d, ctl, f.backend, reachable))
    case Deploy(_, published) =>
      var (ctl', backend) := R.Deploy(d, ctl, f.backend, published);
      WithController(f, d, ctl').(backend := backend)
    case Crash(_) => WithController(f, d, ctl.Stop(R.Failed))
    case _ => f
  }

  function Step(c: Config, f: Fleet, ev: Event): Fleet {
    match ev
    case Tick(elapsed) => f.(clock := f.clock + elapsed)
    case Apply(d) => if d in f.backend.deploys then f.(running := f.running[d := f.backend.deploys[d]]) else f
    case Release(d, version) => f.(backend := ReleaseManifest(f.backend, d, version))
    case _ => if ev.deployment in f.controllers then ControllerStep(c, f, ev.deployment, ev) else f
  }

  function Run(c: Config, f: Fleet, events: seq<Event>): Fleet {
    if events == [] then f else Step(c, Run(c, f, events[..|events| - 1]), events[|events| - 1])
  }

  function After(c: Config, d: string): DeployAfter {
    match AfterOf(c, d) case Some(after) => after case None => DeployAfter([], 0)
  }

  function With(c: Config, d: string): seq<string> {
    match WithOf(c, d) case Some(with) => with case None => []
  }

  // ---------------------------------------------------------------- what justifies a version

  // Why `d` may be at `version` at time `t`: it started with it, nothing precedes its wave, or every
  // deployment of the preceding wave was once recorded by d's own controller to run it, at least that
  // wave's bake time before, had published it before that, and was itself justified when it did.
  ghost predicate Justified(c: Config, initial: map<string, string>, e: Evidence, d: string, version: string, t: int)
    decreases WaveIndex(Flat(c), d)
  {
    || (d in initial && initial[d] == version)
    || forall s <- After(c, d).deployments ::
         && WaveIndex(Flat(c), s) < WaveIndex(Flat(c), d)
         && exists seen, published ::
              && Observation(d, s, version, seen) in e.recorded && seen + After(c, d).bakeTime <= t
              && Publication(s, version, published) in e.published && published <= seen
              && Justified(c, initial, e, s, version, published)
  }

  ghost predicate Extends(e: Evidence, e': Evidence) {
    e.published <= e'.published && e.recorded <= e'.recorded
  }

  lemma {:induction false} JustificationLasts(c: Config, initial: map<string, string>, e: Evidence, e': Evidence,
                                              d: string, version: string, t: int, t': int)
    requires Justified(c, initial, e, d, version, t) && Extends(e, e') && t <= t'
    ensures Justified(c, initial, e', d, version, t')
    decreases WaveIndex(Flat(c), d)
  {
    hide Flatten, WaveIndex, After;
    if !(d in initial && initial[d] == version) {
      var after := After(c, d);
      forall s <- after.deployments
        ensures WaveIndex(Flat(c), s) < WaveIndex(Flat(c), d)
        ensures exists seen, published ::
              && Observation(d, s, version, seen) in e'.recorded && seen + after.bakeTime <= t'
              && Publication(s, version, published) in e'.published && published <= seen
              && Justified(c, initial, e', s, version, published)
      {
        var seen, published :|
              && Observation(d, s, version, seen) in e.recorded && seen + after.bakeTime <= t
              && Publication(s, version, published) in e.published && published <= seen
              && Justified(c, initial, e, s, version, published);
        JustificationLasts(c, initial, e, e', s, version, published, published);
        assert Observation(d, s, version, seen) in e'.recorded && Publication(s, version, published) in e'.published;
      }
    }
  }

  // ---------------------------------------------------------------- the invariant

  // Every entry is Healthy and stands for an observation of its own time.
  ghost predicate Recorded(e: Evidence, observer: string, subject: string, h: History) {
    forall k :: 0 <= k < |h| ==>
      && h[k].state.Healthy?
      && Observation(observer, subject, h[k].version, h[k].start) in e.recorded
  }

  ghost predicate AllRecorded(e: Evidence, observer: string, reports: seq<Report>) {
    forall i :: 0 <= i < |reports| ==> Recorded(e, observer, reports[i].deploymentName, reports[i].statuses)
  }

  ghost predicate FetchesRecorded(e: Evidence, observer: string, fetched: Fetched) {
    forall d :: d in fetched && fetched[d].Some? ==>
      && fetched[d].value.state.Healthy?
      && Observation(observer, d, fetched[d].value.version, fetched[d].value.start) in e.recorded
  }

  ghost predicate Loads(c: Config, d: string, config: Config, mem: R.PropagationStatus) {
    config == c && ConditionsOf(c, d) == Some(mem.deployConditions)
  }

  ghost predicate Fit(c: Config, initial: map<string, string>, e: Evidence, d: string, version: string, t: int) {
    Proper(version) && Justified(c, initial, e, d, version, t)
  }

  // Everyone that `d` waits for had published `version`, and was recorded by d's controller to run it at
  // least the bake time of its own wave before `t`.
  ghost predicate Gated(c: Config, e: Evidence, d: string, version: string, t: int) {
    forall s <- With(c, d) ::
      exists seen, published ::
        && Observation(d, s, version, seen) in e.recorded && seen + DeploymentBakeTime(c.environments, s) <= t
        && Publication(s, version, published) in e.published && published <= seen
  }

  ghost predicate LocalInv(c: Config, initial: map<string, string>, e: Evidence, d: string, local: R.Local, t: int) {
    match local
    case Idle(_) => true
    case Loaded(config, mem, version) =>
      Loads(c, d, config, mem) && AllRecorded(e, d, mem.reports) && Fit(c, initial, e, d, version, t)
    case Polls(config, mem, _, fetched) =>
      Loads(c, d, config, mem) && AllRecorded(e, d, mem.reports) && FetchesRecorded(e, d, fetched)
    case Deciding(config, mem, _) =>
      && Loads(c, d, config, mem) && AllRecorded(e, d, mem.reports)
      && forall s <- R.Required(mem.deployConditions) :: HasReport(mem.reports, s)
    case Pulling(version, target) =>
      Gated(c, e, d, version, t) && (After(c, d).deployments != [] ==> Fit(c, initial, e, d, target, t))
    case Deploying(version, _, manifest) => Gated(c, e, d, version, t) && Fit(c, initial, e, d, manifest, t)
  }

  ghost predicate ControllerInv(c: Config, initial: map<string, string>, e: Evidence, d: string, ctl: R.Controller,
                                t: int) {
    AllRecorded(e, d, ctl.stored.reports) && LocalInv(c, initial, e, d, ctl.local, t)
  }

  ghost predicate PublicationsInv(c: Config, initial: map<string, string>, e: Evidence, t: int) {
    forall p <- e.published :: p.at <= t && Fit(c, initial, e, p.deployment, p.version, p.at)
  }

  ghost predicate PublishedBy(e: Evidence, d: string, version: string, t: int) {
    exists at :: at <= t && Publication(d, version, at) in e.published
  }

  ghost predicate ObservationsInv(e: Evidence, t: int) {
    forall o <- e.recorded :: o.at <= t && PublishedBy(e, o.subject, o.version, o.at)
  }

  ghost predicate StatusesInv(e: Evidence, statuses: map<string, DeploymentStatus>, t: int) {
    forall d <- statuses :: statuses[d].state.Healthy? && PublishedBy(e, d, statuses[d].version, t)
  }

  ghost predicate VersionsInv(c: Config, initial: map<string, string>, e: Evidence, versions: map<string, string>,
                              t: int) {
    forall d <- versions :: Fit(c, initial, e, d, versions[d], t)
  }

  ghost predicate ManifestsInv(manifests: map<R.ManifestTag, string>) {
    forall m <- manifests :: Proper(manifests[m]) && (m.tag != DEFAULT_TAG ==> manifests[m] == m.tag)
  }

  ghost predicate ControllersInv(c: Config, initial: map<string, string>, e: Evidence,
                                 controllers: map<string, R.Controller>, t: int) {
    forall d <- controllers :: ControllerInv(c, initial, e, d, controllers[d], t)
  }

  ghost predicate Inv(c: Config, initial: map<string, string>, f: Fleet) {
    && PublicationsInv(c, initial, f.evidence, f.clock)
    && ObservationsInv(f.evidence, f.clock)
    && StatusesInv(f.evidence, f.backend.statuses, f.clock)
    && VersionsInv(c, initial, f.evidence, f.running, f.clock)
    && VersionsInv(c, initial, f.evidence, f.backend.deploys, f.clock)
    && ManifestsInv(f.backend.manifests)
    && ControllersInv(c, initial, f.evidence, f.controllers, f.clock)
  }

  // A freshly installed fleet: something runs everywhere, nothing was published or recorded yet.
  ghost predicate Installed(f: Fleet) {
    && (forall d <- f.running :: Proper(f.running[d]))
    && (forall d <- f.backend.deploys :: d in f.running && f.backend.deploys[d] == f.running[d])
    && f.backend.statuses == map[] && ManifestsInv(f.backend.manifests)
    && (forall d <- f.controllers :: f.controllers[d] == R.Controller(R.NO_STATUS, R.Idle(R.Never)))
    && f.evidence == Evidence({}, {})
  }

  ghost predicate PositiveBakes(c: Config) {
    forall i :: 0 <= i < |Flat(c)| ==> Flat(c)[i].bakeTime > 0
  }

  // ---------------------------------------------------------------- evidence only grows

  lemma FitLasts(c: Config, initial: map<string, string>, e: Evidence, e': Evidence, d: string, version: string, t: int,
                 t': int)
    requires Fit(c, initial, e, d, version, t) && Extends(e, e') && t <= t'
    ensures Fit(c, initial, e', d, version, t')
  {
    JustificationLasts(c, initial, e, e', d, version, t, t');
  }

  lemma VersionsLast(c: Config, initial: map<string, string>, e: Evidence, e': Evidence, versions: map<string, string>,
                     t: int, t': int)
    requires VersionsInv(c, initial, e, versions, t) && Extends(e, e') && t <= t'
    ensures VersionsInv(c, initial, e', versions, t')
  {
    hide Fit;
    forall d <- versions ensures Fit(c, initial, e', d, versions[d], t') {
      FitLasts(c, initial, e, e', d, versions[d], t, t');
    }
  }

  lemma GatedLasts(c: Config, e: Evidence, e': Evidence, d: string, version: string, t: int, t': int)
    requires Gated(c, e, d, version, t) && Extends(e, e') && t <= t'
    ensures Gated(c, e', d, version, t')
  {
    hide With, DeploymentBakeTime;
    forall s <- With(c, d)
      ensures exists seen, published ::
                && Observation(d, s, version, seen) in e'.recorded && seen + DeploymentBakeTime(c.environments, s) <= t'
                && Publication(s, version, published) in e'.published && published <= seen
    {
      var seen, published :|
        && Observation(d, s, version, seen) in e.recorded && seen + DeploymentBakeTime(c.environments, s) <= t
        && Publication(s, version, published) in e.published && published <= seen;
      assert Observation(d, s, version, seen) in e'.recorded && Publication(s, version, published) in e'.published;
    }
  }

  lemma RecordsLast(e: Evidence, e': Evidence, observer: string, reports: seq<Report>)
    requires AllRecorded(e, observer, reports) && Extends(e, e')
    ensures AllRecorded(e', observer, reports)
  {
    forall i | 0 <= i < |reports| ensures Recorded(e', observer, reports[i].deploymentName, reports[i].statuses) {
      assert Recorded(e, observer, reports[i].deploymentName, reports[i].statuses);
    }
  }

  lemma ControllerLasts(c: Config, initial: map<string, string>, e: Evidence, e': Evidence, d: string,
                        ctl: R.Controller, t: int, t': int)
    requires ControllerInv(c, initial, e, d, ctl, t) && Extends(e, e') && t <= t'
    ensures ControllerInv(c, initial, e', d, ctl, t')
  {
    hide Fit, AllRecorded, Loads, Gated;
    RecordsLast(e, e', d, ctl.stored.reports);
    match ctl.local
    case Idle(_) =>
    case Loaded(_, mem, version) =>
      RecordsLast(e, e', d, mem.reports);
      FitLasts(c, initial, e, e', d, version, t, t');
    case Polls(_, mem, _, fetched) => RecordsLast(e, e', d, mem.reports);
    case Deciding(_, mem, _) => RecordsLast(e, e', d, mem.reports);
    case Pulling(version, target) =>
      GatedLasts(c, e, e', d, version, t, t');
      if After(c, d).deployments != [] { FitLasts(c, initial, e, e', d, target, t, t'); }
    case Deploying(version, _, manifest) =>
      GatedLasts(c, e, e', d, version, t, t');
      FitLasts(c, initial, e, e', d, manifest, t, t');
  }

  lemma ControllersLast(c: Config, initial: map<string, string>, e: Evidence, e': Evidence,
                        controllers: map<string, R.Controller>, t: int, t': int)
    requires ControllersInv(c, initial, e, controllers, t) && Extends(e, e') && t <= t'
    ensures ControllersInv(c, initial, e', controllers, t')
  {
    hide ControllerInv;
    forall d <- controllers ensures ControllerInv(c, initial, e', d, controllers[d], t') {
      ControllerLasts(c, initial, e, e', d, controllers[d], t, t');
    }
  }

  lemma PublishedByLasts(e: Evidence, e': Evidence, d: string, version: string, t: int, t': int)
    requires PublishedBy(e, d, version, t) && Extends(e, e') && t <= t'
    ensures PublishedBy(e', d, version, t')
  {
    var at :| at <= t && Publication(d, version, at) in e.published;
    assert Publication(d, version, at) in e'.published;
  }

  lemma StatusesLast(e: Evidence, e': Evidence, statuses: map<string, DeploymentStatus>, t: int, t': int)
    requires StatusesInv(e, statuses, t) && Extends(e, e') && t <= t'
    ensures StatusesInv(e', statuses, t')
  {
    hide PublishedBy;
    forall d <- statuses ensures PublishedBy(e', d, statuses[d].version, t') {
      PublishedByLasts(e, e', d, statuses[d].version, t, t');
    }
  }
}
