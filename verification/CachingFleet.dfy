// The fleet as it is deployed: every access of a controller to the registry goes through a caching
// client of its own. Step by step it is a run of the fleet that uses the registry directly.
module CachingFleet {
  import opened Wrappers
  import opened Statuses
  import opened Selection
  import opened Topology
  import opened Artifacts
  import opened CachedClient
  import opened ClientSimulation
  import opened ClientFleet
  import opened FleetRegistry
  import opened Propagation
  import R = Reconciliation
  import F = Fleet
  import S = FleetSafety

  // What is fixed: the configuration, the registry, and how statuses and manifests are written and read.
  datatype Setup = Setup(
    c: Config,
    ground: Ground,
    reading: Reading,
    status: DeploymentStatus -> Image,
    manifest: (string, string) -> Image)

  datatype CachingFleet = CachingFleet(
    clock: int,
    running: map<string, string>,
    tags: Tags,
    caches: map<string, Cache>,
    controllers: map<string, R.Controller>,
    // The manifests that controllers have pulled and not yet deployed.
    hands: map<string, Image>,
    evidence: F.Evidence)

  // A step of the fleet, in which what its registry accesses return is up to the client.
  datatype Step = Step(ev: F.Event, reach: Reach)

  const NO_BACKEND := R.Backend(map[], map[], map[])

  function CacheOf(g: CachingFleet, d: string): Cache {
    if d in g.caches then g.caches[d] else NO_CACHE
  }

  function WithController(g: CachingFleet, d: string, ctl: R.Controller): CachingFleet {
    g.(controllers := g.controllers[d := ctl])
  }

  // ---------------------------------------------------------------- accesses

  predicate HasToPublish(ctl: R.Controller) {
    ctl.local.Loaded? && !R.Reports(ctl.local.mem.deploymentStatus, ctl.local.version)
  }

  function PublishAccess(u: Setup, g: CachingFleet, d: string, version: string, reach: Reach): PublishOutcome {
    CachedPublish(u.ground.repository, CacheOf(g, d), g.tags, StatusOf(d), u.status(R.HealthyNow(version)), reach)
  }

  function LoadedVersion(ctl: R.Controller): string {
    if ctl.local.Loaded? then ctl.local.version else ""
  }

  predicate HasToFetch(ctl: R.Controller, subject: string) {
    ctl.local.Polls? && subject in R.Required(ctl.local.mem.deployConditions) && subject !in ctl.local.fetched
  }

  function FetchAccess(u: Setup, g: CachingFleet, d: string, subject: string, reach: Reach): FetchOutcome {
    CachedFetch(u.ground.repository, CacheOf(g, d), g.tags, StatusOf(subject), reach)
  }

  function StatusIn(u: Setup, image: Option<Image>): Option<DeploymentStatus> {
    match image case Some(i) => u.reading.status(i.content) case None => None
  }

  function PullAccess(u: Setup, g: CachingFleet, d: string, target: string, reach: Reach): FetchOutcome {
    CachedFetch(u.ground.repository, CacheOf(g, d), g.tags, ManifestOf(d, target), reach)
  }

  function DeployAccess(u: Setup, g: CachingFleet, d: string, image: Image, reach: Reach): PublishOutcome {
    CachedPublish(u.ground.repository, CacheOf(g, d), g.tags, DeployOf(d), image, reach)
  }

  // ---------------------------------------------------------------- steps

  function PublishStep(u: Setup, g: CachingFleet, d: string, persisted: bool, reach: Reach): CachingFleet
    requires d in g.controllers
  {
    var ctl := g.controllers[d];
    if !HasToPublish(ctl) then WithController(g, d, R.PublishOwn(d, ctl, NO_BACKEND, false, persisted).0)
    else
      var p := PublishAccess(u, g, d, LoadedVersion(ctl), reach);
      var ctl' := R.PublishOwn(d, ctl, NO_BACKEND, p.done, persisted).0;
      WithController(g, d, ctl').(tags := p.tags, caches := g.caches[d := p.cache],
                                  evidence := F.NotePublication(g.evidence, d, ctl, p.done, g.clock))
  }

  function FetchStep(u: Setup, g: CachingFleet, d: string, subject: string, reach: Reach): CachingFleet
    requires d in g.controllers
  {
    var ctl := g.controllers[d];
    if !HasToFetch(ctl, subject) then g
    else
      var fetched := FetchAccess(u, g, d, subject, reach);
      var seen := StatusIn(u, fetched.image);
      var shown := if seen.Some? then NO_BACKEND.(statuses := map[subject := seen.value]) else NO_BACKEND;
      var ctl' := R.Fetch(ctl, shown, subject, seen.Some?, g.clock);
      var newly := F.NewlyFetched(ctl, ctl', subject);
      WithController(g, d, ctl').(caches := g.caches[d := fetched.cache],
                                  evidence := F.NoteObservation(g.evidence, d, subject, newly))
  }

  function PullStep(u: Setup, g: CachingFleet, d: string, reach: Reach): CachingFleet
    requires d in g.controllers
  {
    var ctl := g.controllers[d];
    if !ctl.local.Pulling? then g
    else
      var pulled := PullAccess(u, g, d, ctl.local.target, reach);
      var tag := R.ManifestTag(d, ctl.local.target);
      match pulled.image
      case None => WithController(g, d, R.Pull(d, ctl, NO_BACKEND, false)).(caches := g.caches[d := pulled.cache])
      case Some(image) =>
        var shown := NO_BACKEND.(manifests := map[tag := u.reading.installs(image.content)]);
        WithController(g, d, R.Pull(d, ctl, shown, true)).(caches := g.caches[d := pulled.cache],
                                                           hands := g.hands[d := image])
  }

  function DeployStep(u: Setup, g: CachingFleet, d: string, reach: Reach): CachingFleet
    requires d in g.controllers
  {
    var ctl := g.controllers[d];
    if !ctl.local.Deploying? || d !in g.hands then g
    else
      var p := DeployAccess(u, g, d, g.hands[d], reach);
      WithController(g, d, R.Deploy(d, ctl, NO_BACKEND, p.done).0).(tags := p.tags, caches := g.caches[d := p.cache])
  }

  function OwnVersion(g: CachingFleet, d: string): Option<string> {
    if d in g.running then Some(g.running[d]) else None
  }

  function ControllerStep(u: Setup, g: CachingFleet, d: string, step: Step): CachingFleet
    requires d in g.controllers
  {
    var ctl := g.controllers[d];
    match step.ev
    case Load(_, configFetched, persisted, readied) =>
      var config := if configFetched then Some(u.c) else None;
      if ctl.local.Idle? then WithController(g, d, R.Load(d, ctl, config, OwnVersion(g, d), persisted, readied)) else g
    case Publish(_, _, persisted) => PublishStep(u, g, d, persisted, step.reach)
    case Fetch(_, subject, _) => FetchStep(u, g, d, subject, step.reach)
    case EndPoll(_, persisted) => WithController(g, d, R.EndPoll(ctl, persisted))
    case Decide(_) => WithController(g, d, R.Decide(ctl, g.clock))
    case Pull(_, _) => PullStep(u, g, d, step.reach)
    case Deploy(_, _) => DeployStep(u, g, d, step.reach)
    // A controller that starts anew has lost its caches.
    case Crash(_) => WithController(g, d, ctl.Stop(R.Failed)).(caches := g.caches[d := NO_CACHE])
    case _ => g
  }

  function ReleaseTags(u: Setup, tags: Tags, d: string, version: string): Tags {
    var image := u.manifest(d, version);
    if !F.Proper(version) then tags
    else
      tags[OciTag(u.ground.repository, ManifestOf(d, version)) := image]
          [OciTag(u.ground.repository, ManifestOf(d, DEFAULT_TAG)) := image]
  }

  function CachingStep(u: Setup, g: CachingFleet, step: Step): CachingFleet {
    match step.ev
    case Tick(elapsed) => g.(clock := g.clock + elapsed)
    case Apply(d) =>
      var tag := OciTag(u.ground.repository, DeployOf(d));
      if tag in g.tags then g.(running := g.running[d := u.reading.installs(g.tags[tag].content)]) else g
    case Release(d, version) => g.(tags := ReleaseTags(u, g.tags, d, version))
    case _ => if step.ev.deployment in g.controllers then ControllerStep(u, g, step.ev.deployment, step) else g
  }

  function CachingRun(u: Setup, g: CachingFleet, steps: seq<Step>): CachingFleet {
    if steps == [] then g else CachingStep(u, CachingRun(u, g, steps[..|steps| - 1]), steps[|steps| - 1])
  }

  // ---------------------------------------------------------------- as steps of the direct fleet

  // The event of the direct fleet, with what the client answered for its registry access.
  function Direct(u: Setup, g: CachingFleet, step: Step): F.Event {
    match step.ev
    case Publish(d, _, persisted) =>
      var done := d in g.controllers && HasToPublish(g.controllers[d])
                  && PublishAccess(u, g, d, LoadedVersion(g.controllers[d]), step.reach).done;
      F.Publish(d, done, persisted)
    case Fetch(d, subject, _) =>
      var seen := d in g.controllers && HasToFetch(g.controllers[d], subject)
                  && StatusIn(u, FetchAccess(u, g, d, subject, step.reach).image).Some?;
      F.Fetch(d, subject, seen)
    case Pull(d, _) =>
      var pulled := d in g.controllers && g.controllers[d].local.Pulling?
                    && PullAccess(u, g, d, g.controllers[d].local.target, step.reach).image.Some?;
      F.Pull(d, pulled)
    case Deploy(d, _) =>
      var done := d in g.controllers && g.controllers[d].local.Deploying? && d in g.hands
                  && DeployAccess(u, g, d, g.hands[d], step.reach).done;
      F.Deploy(d, done)
    case _ => step.ev
  }

  function DirectRun(u: Setup, g: CachingFleet, steps: seq<Step>): (events: seq<F.Event>)
    ensures |events| == |steps|
  {
    if steps == [] then []
    else
      var front := steps[..|steps| - 1];
      DirectRun(u, g, front) + [Direct(u, CachingRun(u, g, front), steps[|steps| - 1])]
  }

  // ---------------------------------------------------------------- the relation

  ghost predicate Sensible(u: Setup) {
    && (forall version :: u.reading.status(u.status(R.HealthyNow(version)).content) == Some(R.HealthyNow(version)))
    && (forall s :: u.ground.content(u.status(s).digest) == u.status(s).content)
    && (forall d, version :: u.reading.installs(u.manifest(d, version).content) == version)
    && (forall d, version :: u.ground.content(u.manifest(d, version).digest) == u.manifest(d, version).content)
    && (forall d, version | F.Proper(version) ::
          u.manifest(d, version).content == u.ground.released(ManifestOf(d, version)))
    && (forall d, s | ConditionsOf(u.c, d).Some? && s in R.Required(ConditionsOf(u.c, d).value) :: Plain(s))
  }

  ghost predicate Allowed(step: Step) {
    && step.reach.Honest()
    && match step.ev
       case Tick(_) => true
       case _ => Plain(step.ev.deployment)
  }

  // The controller polls plain names only, and has in hand what it is about to deploy.
  ghost predicate InHand(u: Setup, g: CachingFleet, d: string, ctl: R.Controller) {
    match ctl.local
    case Loaded(_, mem, _) => forall s <- R.Required(mem.deployConditions) :: Plain(s)
    case Polls(_, mem, _, _) => forall s <- R.Required(mem.deployConditions) :: Plain(s)
    case Deploying(_, _, manifest) =>
      && d in g.hands && u.reading.installs(g.hands[d].content) == manifest
      && u.ground.content(g.hands[d].digest) == g.hands[d].content
    case _ => true
  }

  ghost predicate Mirrors(u: Setup, g: CachingFleet, f: F.Fleet) {
    && f.clock == g.clock && f.running == g.running && f.controllers == g.controllers && f.evidence == g.evidence
    && StandsFor(u.reading, u.ground.repository, g.tags, f.backend)
    && AllCoherent(u.ground, Clients(g.caches, g.tags), g.tags)
    && forall d <- g.controllers :: InHand(u, g, d, g.controllers[d])
  }

  // ---------------------------------------------------------------- one access

  lemma Reground(g: Ground, s: Clients, direct: Tags)
    requires AllCoherent(g, s, direct)
    ensures AllCoherent(g, s, s.tags)
  {
    hide OciTag, Canonical, Immutable, FetchedInv, PublishedInv;
    forall d <- s.caches ensures Coherent(WorldOf(g, d), State(s.caches[d], s.tags), s.tags) {
      assert Coherent(WorldOf(g, d), State(s.caches[d], s.tags), direct);
    }
  }

  lemma OwnCoherent(u: Setup, g: CachingFleet, d: string)
    requires AllCoherent(u.ground, Clients(g.caches, g.tags), g.tags)
    ensures Coherent(WorldOf(u.ground, d), State(CacheOf(g, d), g.tags), g.tags)
  {
    hide Grounded, PublishedInv;
    if d !in g.caches {
      EmptyIsCoherent(u.ground, "", NO_CACHE, g.tags, g.tags, d);
    }
  }

  lemma CallStaysCoherent(u: Setup, g: CachingFleet, d: string, call: Call)
    requires AllCoherent(u.ground, Clients(g.caches, g.tags), g.tags) && Proper(u.ground, Calls(d, call))
    ensures var after := CachedStep(u.ground.repository, State(CacheOf(g, d), g.tags), call).0;
            AllCoherent(u.ground, Clients(g.caches[d := after.cache], after.tags), after.tags)
  {
    hide AllCoherent, Proper, CachedStep, DirectStep, Served;
    var s := Clients(g.caches, g.tags);
    CallAgrees(u.ground, s, g.tags, d, call);
    Reground(u.ground, CachedEvent(u.ground.repository, s, Calls(d, call)).0,
             DirectEvent(u.ground.repository, g.tags, ServedEvent(u.ground.repository, s, Calls(d, call))).0);
  }

  // Publishing through the client writes the registry, or finds it written.
  lemma PublishWrites(u: Setup, g: CachingFleet, d: string, m: ArtifactMetadata, image: Image, reach: Reach)
    requires AllCoherent(u.ground, Clients(g.caches, g.tags), g.tags) && Canonical(m) && m in Own(d)
    requires u.ground.content(image.digest) == image.content && reach.Honest()
    ensures var p := CachedPublish(u.ground.repository, CacheOf(g, d), g.tags, m, image, reach);
            var tag := OciTag(u.ground.repository, m);
            && (!p.done ==> p.tags == g.tags)
            && (p.done ==> p.tags == g.tags[tag := image]
                           || (p.tags == g.tags && tag in g.tags && g.tags[tag].content == image.content))
  {
    hide OciTag, Canonical, AllCoherent, Grounded, PublishedInv;
    OwnCoherent(u, g, d);
    HonestOrNot(u, g, d, m, image, reach);
  }

  lemma HonestOrNot(u: Setup, g: CachingFleet, d: string, m: ArtifactMetadata, image: Image, reach: Reach)
    requires Coherent(WorldOf(u.ground, d), State(CacheOf(g, d), g.tags), g.tags) && Canonical(m) && m in Own(d)
    requires u.ground.content(image.digest) == image.content && reach.Honest()
    ensures HarmlessPublish(u.ground.repository, State(CacheOf(g, d), g.tags), m, image)
  {
    hide OciTag, Canonical, Grounded, PublishedInv, HarmlessPublish, CachedPublish;
    HonestPublishIsHarmless(WorldOf(u.ground, d), State(CacheOf(g, d), g.tags), g.tags, m, image, reach);
  }

  // Fetching through the client reads the registry.
  lemma FetchReads(u: Setup, g: CachingFleet, d: string, m: ArtifactMetadata, reach: Reach)
    requires AllCoherent(u.ground, Clients(g.caches, g.tags), g.tags) && Canonical(m)
    ensures var fetched := CachedFetch(u.ground.repository, CacheOf(g, d), g.tags, m, reach);
            var tag := OciTag(u.ground.repository, m);
            fetched.image.Some? ==>
              && tag in g.tags && fetched.image.value.content == g.tags[tag].content
              && u.ground.content(fetched.image.value.digest) == fetched.image.value.content
  {
    hide OciTag, Canonical, AllCoherent, Grounded, PublishedInv, CachedFetch;
    OwnCoherent(u, g, d);
    FetchAgrees(WorldOf(u.ground, d), State(CacheOf(g, d), g.tags), g.tags, m, reach);
  }

  // ---------------------------------------------------------------- what steps need of the registry

  lemma PublishOwnIgnores(d: string, ctl: R.Controller, a: R.Backend, b: R.Backend, published: bool, persisted: bool)
    ensures R.PublishOwn(d, ctl, a, published, persisted).0 == R.PublishOwn(d, ctl, b, published, persisted).0
    ensures !HasToPublish(ctl) ==>
              R.PublishOwn(d, ctl, b, published, persisted) == (R.PublishOwn(d, ctl, a, false, persisted).0, b)
    ensures HasToPublish(ctl) ==>
              R.PublishOwn(d, ctl, b, published, persisted).1 ==
              if published then b.(statuses := b.statuses[d := R.HealthyNow(ctl.local.version)]) else b
  {
  }

  lemma OwnStatusWritten(u: Setup, tags: Tags, tags': Tags, b: R.Backend, d: string, image: Image,
                         status: DeploymentStatus)
    requires StandsFor(u.reading, u.ground.repository, tags, b) && Plain(d)
    requires u.reading.status(image.content) == Some(status)
    requires var tag := OciTag(u.ground.repository, StatusOf(d));
             tags' == tags[tag := image] || (tags' == tags && tag in tags && tags[tag].content == image.content)
    ensures StandsFor(u.reading, u.ground.repository, tags', b.(statuses := b.statuses[d := status]))
  {
    hide OciTag, Plain, ManifestShown, DeployShown;
    var tag := OciTag(u.ground.repository, StatusOf(d));
    if tags' == tags[tag := image] {
      StatusWritten(u.reading, u.ground.repository, tags, b, d, image, status);
    } else {
      assert StatusShown(u.reading, u.ground.repository, tags, b, d);
      assert b.statuses[d := status] == b.statuses;
    }
  }

  lemma OwnDeployWritten(u: Setup, tags: Tags, tags': Tags, b: R.Backend, d: string, image: Image)
    requires StandsFor(u.reading, u.ground.repository, tags, b) && Plain(d)
    requires var tag := OciTag(u.ground.repository, DeployOf(d));
             tags' == tags[tag := image] || (tags' == tags && tag in tags && tags[tag].content == image.content)
    ensures StandsFor(u.reading, u.ground.repository, tags',
                      b.(deploys := b.deploys[d := u.reading.installs(image.content)]))
  {
    hide OciTag, Plain, ManifestShown, StatusShown;
    var tag := OciTag(u.ground.repository, DeployOf(d));
    if tags' == tags[tag := image] {
      DeployWritten(u.reading, u.ground.repository, tags, b, d, image);
    } else {
      assert DeployShown(u.reading, u.ground.repository, tags, b, d);
      assert b.deploys[d := u.reading.installs(image.content)] == b.deploys;
    }
  }

  // ---------------------------------------------------------------- steps mirror steps

  // Everything but one controller, its caches and hand, the tags and the evidence is as before.
  lemma MirrorsAgain(u: Setup, g: CachingFleet, f: F.Fleet, d: string, g': CachingFleet, f': F.Fleet)
    requires Mirrors(u, g, f) && d in g'.controllers
    requires g'.clock == g.clock && g'.running == g.running && g'.controllers == g.controllers[d := g'.controllers[d]]
    requires forall e :: e != d && e in g.hands ==> e in g'.hands && g'.hands[e] == g.hands[e]
    requires f'.clock == g'.clock && f'.running == g'.running && f'.controllers == g'.controllers
    requires f'.evidence == g'.evidence
    requires StandsFor(u.reading, u.ground.repository, g'.tags, f'.backend)
    requires AllCoherent(u.ground, Clients(g'.caches, g'.tags), g'.tags)
    requires InHand(u, g', d, g'.controllers[d])
    ensures Mirrors(u, g', f')
  {
    hide StandsFor, AllCoherent, Plain, R.Required;
    forall e <- g'.controllers ensures InHand(u, g', e, g'.controllers[e]) {
      if e != d {
        assert InHand(u, g, e, g.controllers[e]);
      }
    }
  }

  lemma MirrorsParts(u: Setup, g: CachingFleet, f: F.Fleet, d: string)
    requires Mirrors(u, g, f) && d in g.controllers
    ensures f.clock == g.clock && f.running == g.running && f.controllers == g.controllers && f.evidence == g.evidence
    ensures StandsFor(u.reading, u.ground.repository, g.tags, f.backend)
    ensures AllCoherent(u.ground, Clients(g.caches, g.tags), g.tags) && InHand(u, g, d, g.controllers[d])
  {
    hide StandsFor, AllCoherent, InHand;
  }

  lemma PublishStepIs(u: Setup, g: CachingFleet, f: F.Fleet, d: string, persisted: bool, reach: Reach, ev: F.Event)
    requires d in g.controllers && d in f.controllers && f.controllers[d] == g.controllers[d]
    requires f.evidence == g.evidence && f.clock == g.clock
    requires ev.Publish? && ev.persisted == persisted
    requires ev.published == (HasToPublish(g.controllers[d])
                              && PublishAccess(u, g, d, LoadedVersion(g.controllers[d]), reach).done)
    ensures var ctl := g.controllers[d];
            var g', f' := PublishStep(u, g, d, persisted, reach), F.ControllerStep(u.c, f, d, ev);
            var p := PublishAccess(u, g, d, LoadedVersion(ctl), reach);
            && d in g'.controllers && g'.controllers == g.controllers[d := g'.controllers[d]]
            && g'.controllers[d] == R.PublishOwn(d, ctl, NO_BACKEND, ev.published, persisted).0
            && f'.clock == f.clock && f'.running == f.running
            && f'.controllers == f.controllers[d := g'.controllers[d]] && f'.evidence == g'.evidence
            && g'.clock == g.clock && g'.running == g.running && g'.hands == g.hands
            && g'.tags == (if HasToPublish(ctl) then p.tags else g.tags)
            && g'.caches == (if HasToPublish(ctl) then g.caches[d := p.cache] else g.caches)
            && f'.backend == if ev.published
                             then f.backend.(statuses := f.backend.statuses[d := R.HealthyNow(LoadedVersion(ctl))])
                             else f.backend
  {
    hide R.PublishOwn, PublishAccess;
    PublishOwnIgnores(d, g.controllers[d], NO_BACKEND, f.backend, ev.published, persisted);
  }

  // What publishing leaves, when there is something to publish.
  lemma PublishedMirrors(u: Setup, g: CachingFleet, f: F.Fleet, d: string, reach: Reach)
    requires Sensible(u) && Plain(d) && reach.Honest() && d in g.controllers && HasToPublish(g.controllers[d])
    requires StandsFor(u.reading, u.ground.repository, g.tags, f.backend)
    requires AllCoherent(u.ground, Clients(g.caches, g.tags), g.tags)
    ensures var version := LoadedVersion(g.controllers[d]);
            var p := PublishAccess(u, g, d, version, reach);
            && AllCoherent(u.ground, Clients(g.caches[d := p.cache], p.tags), p.tags)
            && StandsFor(u.reading, u.ground.repository, p.tags,
                         if p.done then f.backend.(statuses := f.backend.statuses[d := R.HealthyNow(version)])
                         else f.backend)
  {
    hide OciTag, AllCoherent, StandsFor, CachedPublish, Plain, Sensible;
    var version := LoadedVersion(g.controllers[d]);
    var image := u.status(R.HealthyNow(version));
    PublishedProperly(u, d, version, reach);
    CallStaysCoherent(u, g, d, Call(Op.PublishStatus(d, image), reach));
    PublishWrites(u, g, d, StatusOf(d), image, reach);
    var p := PublishAccess(u, g, d, version, reach);
    if p.done {
      OwnStatusWritten(u, g.tags, p.tags, f.backend, d, image, R.HealthyNow(version));
    }
  }

  lemma PublishMirrors(u: Setup, g: CachingFleet, f: F.Fleet, d: string, persisted: bool, step: Step)
    requires Sensible(u) && Mirrors(u, g, f) && Allowed(step) && d in g.controllers
    requires step.ev.Publish? && step.ev.deployment == d && step.ev.persisted == persisted
    ensures Mirrors(u, PublishStep(u, g, d, persisted, step.reach), F.ControllerStep(u.c, f, d, Direct(u, g, step)))
  {
    hide AllCoherent, StandsFor, R.PublishOwn, PublishAccess, Mirrors, InHand, PublishStep, F.ControllerStep, Plain,
      Sensible;
    MirrorsParts(u, g, f, d);
    var ctl := g.controllers[d];
    var ev := Direct(u, g, step);
    PublishStepIs(u, g, f, d, persisted, step.reach, ev);
    var g' := PublishStep(u, g, d, persisted, step.reach);
    if HasToPublish(ctl) {
      PublishedMirrors(u, g, f, d, step.reach);
    }
    PublishKeepsInHand(u, g, g', d, ctl, ev.published, persisted);
    MirrorsAgain(u, g, f, d, g', F.ControllerStep(u.c, f, d, ev));
  }

  lemma PublishedProperly(u: Setup, d: string, version: string, reach: Reach)
    requires Sensible(u) && Plain(d) && reach.Honest()
    ensures var image := u.status(R.HealthyNow(version));
            && Proper(u.ground, Calls(d, Call(Op.PublishStatus(d, image), reach)))
            && Canonical(StatusOf(d)) && u.ground.content(image.digest) == image.content
            && u.reading.status(image.content) == Some(R.HealthyNow(version))
  {
  }

  lemma PublishKeepsInHand(u: Setup, g: CachingFleet, g': CachingFleet, d: string, ctl: R.Controller,
                           published: bool, persisted: bool)
    requires InHand(u, g, d, ctl) && g'.hands == g.hands
    ensures InHand(u, g', d, R.PublishOwn(d, ctl, NO_BACKEND, published, persisted).0)
  {
    hide Plain, R.Required;
  }

  // ---------------------------------------------------------------- fetching

  lemma FetchIs(ctl: R.Controller, subject: string, seen: Option<DeploymentStatus>, b: R.Backend, now: int)
    requires HasToFetch(ctl, subject)
    requires seen.Some? ==> subject in b.statuses && b.statuses[subject] == seen.value
    ensures var shown := if seen.Some? then NO_BACKEND.(statuses := map[subject := seen.value]) else NO_BACKEND;
            R.Fetch(ctl, b, subject, seen.Some?, now) == R.Fetch(ctl, shown, subject, seen.Some?, now)
  {
    hide R.Required;
  }

  // What a fetch through the client finds is what the registry shows.
  lemma FetchSees(u: Setup, g: CachingFleet, f: F.Fleet, d: string, subject: string, reach: Reach)
    requires AllCoherent(u.ground, Clients(g.caches, g.tags), g.tags)
    requires StandsFor(u.reading, u.ground.repository, g.tags, f.backend) && Plain(subject)
    ensures var seen := StatusIn(u, FetchAccess(u, g, d, subject, reach).image);
            seen.Some? ==> subject in f.backend.statuses && f.backend.statuses[subject] == seen.value
  {
    hide OciTag, AllCoherent, CachedFetch, ManifestShown, DeployShown, Plain;
    assert Canonical(StatusOf(subject)) by { hide *; StatusIsCanonical(subject); }
    FetchReads(u, g, d, StatusOf(subject), reach);
    assert StatusShown(u.reading, u.ground.repository, g.tags, f.backend, subject);
  }

  lemma StatusIsCanonical(d: string)
    requires Plain(d)
    ensures Canonical(StatusOf(d))
  {
  }

  lemma FetchProperly(u: Setup, d: string, subject: string, reach: Reach)
    requires Plain(d) && Plain(subject) && reach.Honest()
    ensures Proper(u.ground, Calls(d, Call(Op.GetStatus(subject), reach)))
  {
  }

  lemma FetchStepIs(u: Setup, g: CachingFleet, f: F.Fleet, d: string, subject: string, reach: Reach, ev: F.Event)
    requires d in g.controllers && d in f.controllers && f.controllers[d] == g.controllers[d]
    requires f.evidence == g.evidence && f.clock == g.clock && HasToFetch(g.controllers[d], subject)
    requires ev == F.Fetch(d, subject, StatusIn(u, FetchAccess(u, g, d, subject, reach).image).Some?)
    requires var seen := StatusIn(u, FetchAccess(u, g, d, subject, reach).image);
             seen.Some? ==> subject in f.backend.statuses && f.backend.statuses[subject] == seen.value
    ensures var g', f' := FetchStep(u, g, d, subject, reach), F.ControllerStep(u.c, f, d, ev);
            && d in g'.controllers && g'.controllers == g.controllers[d := g'.controllers[d]]
            && g'.controllers[d] == R.Fetch(g.controllers[d], f.backend, subject, ev.reachable, g.clock)
            && f' == f.(controllers := f.controllers[d := g'.controllers[d]], evidence := g'.evidence)
            && g'.clock == g.clock && g'.running == g.running && g'.hands == g.hands && g'.tags == g.tags
            && g'.caches == g.caches[d := FetchAccess(u, g, d, subject, reach).cache]
  {
    hide R.Fetch, FetchAccess, StatusIn, F.NoteObservation, F.NewlyFetched, HasToFetch;
    FetchIs(g.controllers[d], subject, StatusIn(u, FetchAccess(u, g, d, subject, reach).image), f.backend, g.clock);
  }

  lemma FetchKeepsInHand(u: Setup, g: CachingFleet, g': CachingFleet, d: string, ctl: R.Controller, b: R.Backend,
                         subject: string, reachable: bool, now: int)
    requires InHand(u, g, d, ctl) && g'.hands == g.hands
    ensures InHand(u, g', d, R.Fetch(ctl, b, subject, reachable, now))
  {
    hide Plain, R.Required, FetchOne;
  }

  lemma NoFetch(c: Config, f: F.Fleet, d: string, ev: F.Event)
    requires ev.Fetch? && d in f.controllers && !HasToFetch(f.controllers[d], ev.subject)
    ensures F.ControllerStep(c, f, d, ev) == f
  {
    assert f.controllers[d := f.controllers[d]] == f.controllers;
  }

  lemma FetchMirrors(u: Setup, g: CachingFleet, f: F.Fleet, d: string, step: Step)
    requires Mirrors(u, g, f) && Allowed(step) && d in g.controllers && step.ev.Fetch? && step.ev.deployment == d
    ensures Mirrors(u, FetchStep(u, g, d, step.ev.subject, step.reach), F.ControllerStep(u.c, f, d, Direct(u, g, step)))
  {
    hide OciTag, AllCoherent, StandsFor, R.Fetch, CachedFetch, Mirrors, StatusIn, F.ControllerStep, Plain, R.Required;
    MirrorsParts(u, g, f, d);
    var ctl, subject := g.controllers[d], step.ev.subject;
    var ev := Direct(u, g, step);
    if HasToFetch(ctl, subject) {
      assert Plain(subject);
      FetchSees(u, g, f, d, subject, step.reach);
      FetchStepIs(u, g, f, d, subject, step.reach, ev);
      FetchProperly(u, d, subject, step.reach);
      CallStaysCoherent(u, g, d, Call(Op.GetStatus(subject), step.reach));
      var g' := FetchStep(u, g, d, subject, step.reach);
      FetchKeepsInHand(u, g, g', d, ctl, f.backend, subject, ev.reachable, g.clock);
      MirrorsAgain(u, g, f, d, g', F.ControllerStep(u.c, f, d, ev));
    } else {
      NoFetch(u.c, f, d, ev);
    }
  }

  // ---------------------------------------------------------------- pulling and deploying

  lemma PullIs(d: string, ctl: R.Controller, manifest: Option<string>, b: R.Backend)
    requires ctl.local.Pulling?
    requires var tag := R.ManifestTag(d, ctl.local.target);
             manifest.Some? ==> tag in b.manifests && b.manifests[tag] == manifest.value
    ensures var tag := R.ManifestTag(d, ctl.local.target);
            var shown := if manifest.Some? then NO_BACKEND.(manifests := map[tag := manifest.value]) else NO_BACKEND;
            R.Pull(d, ctl, b, manifest.Some?) == R.Pull(d, ctl, shown, manifest.Some?)
    ensures R.Pull(d, ctl, b, manifest.Some?).local ==
            if manifest.Some? then R.Deploying(ctl.local.version, ctl.local.target, manifest.value)
            else R.Idle(R.Failed)
  {
  }

  function ManifestIn(u: Setup, image: Option<Image>): Option<string> {
    match image case Some(i) => Some(u.reading.installs(i.content)) case None => None
  }

  lemma PullSees(u: Setup, g: CachingFleet, f: F.Fleet, d: string, target: string, reach: Reach)
    requires AllCoherent(u.ground, Clients(g.caches, g.tags), g.tags)
    requires StandsFor(u.reading, u.ground.repository, g.tags, f.backend) && Plain(d)
    ensures var pulled := PullAccess(u, g, d, target, reach).image;
            var tag := R.ManifestTag(d, target);
            pulled.Some? ==>
              && tag in f.backend.manifests && f.backend.manifests[tag] == u.reading.installs(pulled.value.content)
              && u.ground.content(pulled.value.digest) == pulled.value.content
  {
    hide OciTag, AllCoherent, CachedFetch, StandsFor, Plain;
    assert Canonical(ManifestOf(d, target)) by { hide *; ManifestIsCanonical(d, target); }
    FetchReads(u, g, d, ManifestOf(d, target), reach);
    ShownManifest(u.reading, u.ground.repository, g.tags, f.backend, d, target);
  }

  lemma ManifestIsCanonical(d: string, target: string)
    requires Plain(d)
    ensures Canonical(ManifestOf(d, target))
  {
  }

  lemma PulledStaysCoherent(u: Setup, g: CachingFleet, d: string, target: string, reach: Reach)
    requires AllCoherent(u.ground, Clients(g.caches, g.tags), g.tags) && Plain(d) && reach.Honest()
    ensures AllCoherent(u.ground, Clients(g.caches[d := PullAccess(u, g, d, target, reach).cache], g.tags), g.tags)
  {
    hide AllCoherent, CachedFetch, OciTag;
    CallStaysCoherent(u, g, d, Call(Op.Pull(d, target), reach));
  }

  lemma PullStepIs(u: Setup, g: CachingFleet, f: F.Fleet, d: string, reach: Reach, ev: F.Event)
    requires d in g.controllers && d in f.controllers && f.controllers[d] == g.controllers[d]
    requires g.controllers[d].local.Pulling? && f.evidence == g.evidence && f.clock == g.clock
    requires ev == F.Pull(d, PullAccess(u, g, d, g.controllers[d].local.target, reach).image.Some?)
    requires var pulled := PullAccess(u, g, d, g.controllers[d].local.target, reach).image;
             var tag := R.ManifestTag(d, g.controllers[d].local.target);
             pulled.Some? ==>
               tag in f.backend.manifests && f.backend.manifests[tag] == u.reading.installs(pulled.value.content)
    ensures var g', f' := PullStep(u, g, d, reach), F.ControllerStep(u.c, f, d, ev);
            var pulled := PullAccess(u, g, d, g.controllers[d].local.target, reach);
            && d in g'.controllers && g'.controllers == g.controllers[d := g'.controllers[d]]
            && f' == f.(controllers := f.controllers[d := g'.controllers[d]])
            && g'.clock == g.clock && g'.running == g.running && g'.tags == g.tags && g'.evidence == g.evidence
            && g'.caches == g.caches[d := pulled.cache]
            && g'.hands == (if pulled.image.Some? then g.hands[d := pulled.image.value] else g.hands)
            && g'.controllers[d].local ==
               match pulled.image
               case Some(image) =>
                 var l := g.controllers[d].local;
                 R.Deploying(l.version, l.target, u.reading.installs(image.content))
               case None => R.Idle(R.Failed)
  {
    hide R.Pull, PullAccess;
    var pulled := PullAccess(u, g, d, g.controllers[d].local.target, reach);
    PullIs(d, g.controllers[d], ManifestIn(u, pulled.image), f.backend);
  }

  lemma NoPull(u: Setup, g: CachingFleet, f: F.Fleet, d: string, reach: Reach, ev: F.Event)
    requires ev.Pull? && d in f.controllers && d in g.controllers && g.controllers[d] == f.controllers[d]
    requires !f.controllers[d].local.Pulling?
    ensures F.ControllerStep(u.c, f, d, ev) == f && PullStep(u, g, d, reach) == g
  {
    assert f.controllers[d := f.controllers[d]] == f.controllers;
  }

  lemma PullFillsHand(u: Setup, g': CachingFleet, d: string, image: Option<Image>)
    requires d in g'.controllers
    requires match image
             case None => g'.controllers[d].local.Idle?
             case Some(i) =>
               && g'.controllers[d].local.Deploying? && d in g'.hands && g'.hands[d] == i
               && g'.controllers[d].local.manifest == u.reading.installs(i.content)
               && u.ground.content(i.digest) == i.content
    ensures InHand(u, g', d, g'.controllers[d])
  {
  }

  lemma PullMirrors(u: Setup, g: CachingFleet, f: F.Fleet, d: string, step: Step)
    requires Mirrors(u, g, f) && Allowed(step) && d in g.controllers && step.ev.Pull? && step.ev.deployment == d
    ensures Mirrors(u, PullStep(u, g, d, step.reach), F.ControllerStep(u.c, f, d, Direct(u, g, step)))
  {
    hide OciTag, AllCoherent, StandsFor, R.Pull, PullAccess, CachedFetch, Mirrors, F.ControllerStep, Plain, InHand,
      PullStep;
    MirrorsParts(u, g, f, d);
    var ctl := g.controllers[d];
    var ev := Direct(u, g, step);
    if ctl.local.Pulling? {
      PullSees(u, g, f, d, ctl.local.target, step.reach);
      PullStepIs(u, g, f, d, step.reach, ev);
      PulledStaysCoherent(u, g, d, ctl.local.target, step.reach);
      var g' := PullStep(u, g, d, step.reach);
      PullFillsHand(u, g', d, PullAccess(u, g, d, ctl.local.target, step.reach).image);
      MirrorsAgain(u, g, f, d, g', F.ControllerStep(u.c, f, d, ev));
    } else {
      NoPull(u, g, f, d, step.reach, ev);
    }
  }

  lemma DeployIs(d: string, ctl: R.Controller, a: R.Backend, b: R.Backend, published: bool)
    requires ctl.local.Deploying?
    ensures R.Deploy(d, ctl, a, published).0 == R.Deploy(d, ctl, b, published).0
    ensures R.Deploy(d, ctl, a, published).0.local.Idle?
    ensures R.Deploy(d, ctl, b, published).1 ==
            if published then b.(deploys := b.deploys[d := ctl.local.manifest]) else b
  {
  }

  lemma DeployProperly(u: Setup, d: string, image: Image, reach: Reach)
    requires Plain(d) && reach.Honest() && u.ground.content(image.digest) == image.content
    ensures Proper(u.ground, Calls(d, Call(Op.Deploy(d, image), reach))) && Canonical(DeployOf(d))
  {
  }

  lemma DeployStepIs(u: Setup, g: CachingFleet, f: F.Fleet, d: string, reach: Reach, ev: F.Event)
    requires d in g.controllers && d in f.controllers && f.controllers[d] == g.controllers[d]
    requires g.controllers[d].local.Deploying? && d in g.hands && f.evidence == g.evidence && f.clock == g.clock
    requires ev == F.Deploy(d, DeployAccess(u, g, d, g.hands[d], reach).done)
    ensures var g', f' := DeployStep(u, g, d, reach), F.ControllerStep(u.c, f, d, ev);
            var p := DeployAccess(u, g, d, g.hands[d], reach);
            && d in g'.controllers && g'.controllers == g.controllers[d := g'.controllers[d]]
            && g'.controllers[d].local.Idle?
            && f' == f.(controllers := f.controllers[d := g'.controllers[d]], backend := f'.backend)
            && g'.clock == g.clock && g'.running == g.running && g'.hands == g.hands && g'.evidence == g.evidence
            && g'.tags == p.tags && g'.caches == g.caches[d := p.cache]
            && f'.backend == if ev.published
                             then f.backend.(deploys := f.backend.deploys[d := g.controllers[d].local.manifest])
                             else f.backend
  {
    hide R.Deploy, DeployAccess;
    DeployIs(d, g.controllers[d], NO_BACKEND, f.backend, ev.published);
  }

  lemma NoDeploy(c: Config, f: F.Fleet, d: string, ev: F.Event)
    requires ev.Deploy? && d in f.controllers && !f.controllers[d].local.Deploying?
    ensures F.ControllerStep(c, f, d, ev) == f
  {
    assert f.controllers[d := f.controllers[d]] == f.controllers;
  }

  lemma DeployMirrors(u: Setup, g: CachingFleet, f: F.Fleet, d: string, step: Step)
    requires Mirrors(u, g, f) && Allowed(step) && d in g.controllers && step.ev.Deploy? && step.ev.deployment == d
    ensures Mirrors(u, DeployStep(u, g, d, step.reach), F.ControllerStep(u.c, f, d, Direct(u, g, step)))
  {
    hide OciTag, AllCoherent, StandsFor, R.Deploy, CachedPublish, Mirrors, F.ControllerStep, Plain, R.Required;
    MirrorsParts(u, g, f, d);
    var ctl := g.controllers[d];
    var ev := Direct(u, g, step);
    if ctl.local.Deploying? {
      var image := g.hands[d];
      DeployStepIs(u, g, f, d, step.reach, ev);
      DeployProperly(u, d, image, step.reach);
      CallStaysCoherent(u, g, d, Call(Op.Deploy(d, image), step.reach));
      PublishWrites(u, g, d, DeployOf(d), image, step.reach);
      var g' := DeployStep(u, g, d, step.reach);
      if ev.published {
        OwnDeployWritten(u, g.tags, g'.tags, f.backend, d, image);
      }
      MirrorsAgain(u, g, f, d, g', F.ControllerStep(u.c, f, d, ev));
    } else {
      NoDeploy(u.c, f, d, ev);
    }
  }

  // ---------------------------------------------------------------- steps without an access

  lemma LocalKeepsInHand(u: Setup, g: CachingFleet, d: string, ctl: R.Controller, running: Option<string>,
                         fetched: bool, persisted: bool, readied: bool, now: int)
    requires Sensible(u) && InHand(u, g, d, ctl)
    ensures var config := if fetched then Some(u.c) else None;
            ctl.local.Idle? ==> InHand(u, g, d, R.Load(d, ctl, config, running, persisted, readied))
    ensures InHand(u, g, d, R.EndPoll(ctl, persisted)) && InHand(u, g, d, R.Decide(ctl, now))
    ensures InHand(u, g, d, ctl.Stop(R.Failed))
  {
    hide Plain, R.Required, ConditionsOf, AllFetched, AliasedReports, PolledReports, R.FirstBlocker, NextVersion;
  }

  lemma LocalMirrors(u: Setup, g: CachingFleet, f: F.Fleet, d: string, step: Step)
    requires Sensible(u) && Mirrors(u, g, f) && d in g.controllers
    requires step.ev.Load? || step.ev.EndPoll? || step.ev.Decide? || step.ev.Crash?
    ensures Mirrors(u, ControllerStep(u, g, d, step), F.ControllerStep(u.c, f, d, step.ev))
  {
    hide AllCoherent, StandsFor, R.Load, R.EndPoll, R.Decide, Mirrors, InHand, Sensible, Plain;
    MirrorsParts(u, g, f, d);
    var ctl := g.controllers[d];
    var g', f' := ControllerStep(u, g, d, step), F.ControllerStep(u.c, f, d, step.ev);
    match step.ev
    case Load(_, fetched, persisted, readied) =>
      LocalKeepsInHand(u, g, d, ctl, OwnVersion(g, d), fetched, persisted, readied, g.clock);
      if ctl.local.Idle? {
        HandsAreAll(u, g, g', d, g'.controllers[d]);
        MirrorsAgain(u, g, f, d, g', f');
      }
    case EndPoll(_, persisted) =>
      LocalKeepsInHand(u, g, d, ctl, None, true, persisted, true, g.clock);
      HandsAreAll(u, g, g', d, g'.controllers[d]);
      MirrorsAgain(u, g, f, d, g', f');
    case Decide(_) =>
      LocalKeepsInHand(u, g, d, ctl, None, true, true, true, g.clock);
      HandsAreAll(u, g, g', d, g'.controllers[d]);
      MirrorsAgain(u, g, f, d, g', f');
    case Crash(_) =>
      LocalKeepsInHand(u, g, d, ctl, None, true, true, true, g.clock);
      HandsAreAll(u, g, g', d, g'.controllers[d]);
      CrashStaysCoherent(u, g, d);
      MirrorsAgain(u, g, f, d, g', f');
  }

  lemma HandsAreAll(u: Setup, g: CachingFleet, g': CachingFleet, d: string, ctl: R.Controller)
    requires InHand(u, g, d, ctl) && g'.hands == g.hands
    ensures InHand(u, g', d, ctl)
  {
    hide Plain, R.Required;
  }

  lemma CrashStaysCoherent(u: Setup, g: CachingFleet, d: string)
    requires AllCoherent(u.ground, Clients(g.caches, g.tags), g.tags)
    ensures AllCoherent(u.ground, Clients(g.caches[d := NO_CACHE], g.tags), g.tags)
  {
    hide Grounded, PublishedInv;
    EmptyIsCoherent(u.ground, "", NO_CACHE, g.tags, g.tags, d);
  }

  lemma ApplyReads(u: Setup, g: CachingFleet, f: F.Fleet, d: string)
    requires StandsFor(u.reading, u.ground.repository, g.tags, f.backend) && Plain(d)
    ensures var tag := OciTag(u.ground.repository, DeployOf(d));
            && (tag in g.tags <==> d in f.backend.deploys)
            && (tag in g.tags ==> u.reading.installs(g.tags[tag].content) == f.backend.deploys[d])
  {
    hide OciTag, Plain, ManifestShown, StatusShown;
    assert DeployShown(u.reading, u.ground.repository, g.tags, f.backend, d);
  }

  lemma ReleaseProperly(u: Setup, d: string, version: string)
    requires Sensible(u) && Plain(d) && F.Proper(version)
    ensures var image := u.manifest(d, version);
            && Proper(u.ground, Outside(ManifestOf(d, version), image))
            && Proper(u.ground, Outside(ManifestOf(d, DEFAULT_TAG), image))
            && u.reading.installs(image.content) == version
  {
  }

  lemma OutsideStaysCoherent(u: Setup, g: CachingFleet, m: ArtifactMetadata, image: Image)
    requires AllCoherent(u.ground, Clients(g.caches, g.tags), g.tags) && Proper(u.ground, Outside(m, image))
    ensures var tags := g.tags[OciTag(u.ground.repository, m) := image];
            AllCoherent(u.ground, Clients(g.caches, tags), tags)
  {
    hide OciTag, AllCoherent, Proper;
    OutsideAgrees(u.ground, Clients(g.caches, g.tags), g.tags, m, image);
  }

  lemma ReleaseStaysCoherent(u: Setup, g: CachingFleet, f: F.Fleet, d: string, version: string)
    requires Sensible(u) && Plain(d) && AllCoherent(u.ground, Clients(g.caches, g.tags), g.tags)
    requires StandsFor(u.reading, u.ground.repository, g.tags, f.backend)
    ensures var tags := ReleaseTags(u, g.tags, d, version);
            && AllCoherent(u.ground, Clients(g.caches, tags), tags)
            && StandsFor(u.reading, u.ground.repository, tags, F.ReleaseManifest(f.backend, d, version))
  {
    hide OciTag, AllCoherent, StandsFor, Proper, Plain, Sensible;
    if F.Proper(version) {
      var image := u.manifest(d, version);
      ReleaseProperly(u, d, version);
      OutsideStaysCoherent(u, g, ManifestOf(d, version), image);
      var g1 := g.(tags := g.tags[OciTag(u.ground.repository, ManifestOf(d, version)) := image]);
      OutsideStaysCoherent(u, g1, ManifestOf(d, DEFAULT_TAG), image);
      ReleasingIsRelease(u.reading, u.ground.repository, g.tags, f.backend, d, version, image, IN_REACH);
    }
  }

  lemma HandsOnly(u: Setup, g: CachingFleet, f: F.Fleet, g': CachingFleet, f': F.Fleet)
    requires Mirrors(u, g, f) && g'.controllers == g.controllers && g'.hands == g.hands
    requires f'.clock == g'.clock && f'.running == g'.running && f'.controllers == g'.controllers
    requires f'.evidence == g'.evidence
    requires StandsFor(u.reading, u.ground.repository, g'.tags, f'.backend)
    requires AllCoherent(u.ground, Clients(g'.caches, g'.tags), g'.tags)
    ensures Mirrors(u, g', f')
  {
    hide StandsFor, AllCoherent, Plain, R.Required;
    forall e <- g'.controllers ensures InHand(u, g', e, g'.controllers[e]) {
      assert InHand(u, g, e, g.controllers[e]);
    }
  }

  lemma MirrorsWhole(u: Setup, g: CachingFleet, f: F.Fleet)
    requires Mirrors(u, g, f)
    ensures f.clock == g.clock && f.running == g.running && f.controllers == g.controllers && f.evidence == g.evidence
    ensures StandsFor(u.reading, u.ground.repository, g.tags, f.backend)
    ensures AllCoherent(u.ground, Clients(g.caches, g.tags), g.tags)
  {
    hide StandsFor, AllCoherent, InHand;
  }

  lemma OutsideMirrors(u: Setup, g: CachingFleet, f: F.Fleet, step: Step)
    requires Sensible(u) && Mirrors(u, g, f) && Allowed(step)
    requires step.ev.Tick? || step.ev.Apply? || step.ev.Release?
    ensures Mirrors(u, CachingStep(u, g, step), F.Step(u.c, f, step.ev))
  {
    hide OciTag, AllCoherent, StandsFor, Mirrors, Sensible, Plain, ReleaseTags, F.ReleaseManifest;
    MirrorsWhole(u, g, f);
    match step.ev {
      case Tick(_) =>
      case Apply(d) => ApplyReads(u, g, f, d);
      case Release(d, version) => ReleaseStaysCoherent(u, g, f, d, version);
    }
    HandsOnly(u, g, f, CachingStep(u, g, step), F.Step(u.c, f, step.ev));
  }

  // What a controller asks for first after a crash it has to pull.
  lemma CrashLosesCaches(u: Setup, g: CachingFleet, step: Step, d: string, m: ArtifactMetadata, reach: Reach)
    requires step.ev == F.Crash(d) && d in g.controllers
    ensures var after := CachingStep(u, g, step);
            var tag := OciTag(u.ground.repository, m);
            CachedFetch(u.ground.repository, CacheOf(after, d), after.tags, m, reach).requests == [Request.Pull(tag)]
  {
    hide OciTag;
  }

  // ---------------------------------------------------------------- runs

  // Every step of the caching fleet is a step of the direct fleet.
  lemma StepMirrors(u: Setup, g: CachingFleet, f: F.Fleet, step: Step)
    requires Sensible(u) && Mirrors(u, g, f) && Allowed(step)
    ensures Mirrors(u, CachingStep(u, g, step), F.Step(u.c, f, Direct(u, g, step)))
  {
    hide Mirrors, Sensible, PublishStep, FetchStep, PullStep, DeployStep, F.ControllerStep, F.ReleaseManifest,
      ReleaseTags, Plain;
    MirrorsWhole(u, g, f);
    if step.ev.Tick? || step.ev.Apply? || step.ev.Release? {
      OutsideMirrors(u, g, f, step);
    } else if step.ev.deployment in g.controllers {
      var d := step.ev.deployment;
      match step.ev
      case Publish(_, _, persisted) => PublishMirrors(u, g, f, d, persisted, step);
      case Fetch(_, _, _) => FetchMirrors(u, g, f, d, step);
      case Pull(_, _) => PullMirrors(u, g, f, d, step);
      case Deploy(_, _) => DeployMirrors(u, g, f, d, step);
      case _ => LocalMirrors(u, g, f, d, step);
    }
  }

  // However the controllers interleave, whichever calls fail and whenever caches are lost: a fleet of
  // caching clients is, step by step, the fleet that uses the registry directly, where exactly the
  // accesses fail that fail for the clients.
  lemma {:induction false} CachingRunIsDirectRun(u: Setup, g: CachingFleet, f: F.Fleet, steps: seq<Step>)
    requires Sensible(u) && Mirrors(u, g, f) && forall k :: 0 <= k < |steps| ==> Allowed(steps[k])
    ensures Mirrors(u, CachingRun(u, g, steps), F.Run(u.c, f, DirectRun(u, g, steps)))
  {
    hide Mirrors, Sensible, Allowed, CachingStep, F.Step, Direct;
    if steps != [] {
      var front := steps[..|steps| - 1];
      CachingRunIsDirectRun(u, g, f, front);
      var events := DirectRun(u, g, steps);
      assert events[..|events| - 1] == DirectRun(u, g, front);
      StepMirrors(u, CachingRun(u, g, front), F.Run(u.c, f, DirectRun(u, g, front)), steps[|steps| - 1]);
    }
  }

  // So the safety of the fleet holds of the fleet as it is deployed.
  lemma {:induction false} OnlyBakedVersionsRunBehindCaches(u: Setup, g: CachingFleet, f: F.Fleet, steps: seq<Step>,
                                                            d: string, s: string)
    requires Sensible(u) && Mirrors(u, g, f) && forall k :: 0 <= k < |steps| ==> Allowed(steps[k])
    requires WellFormed(u.c) && F.PositiveBakes(u.c) && F.Installed(f)
    requires d in CachingRun(u, g, steps).running && s in F.After(u.c, d).deployments
    requires !(d in g.running && g.running[d] == CachingRun(u, g, steps).running[d])
    ensures var after := CachingRun(u, g, steps);
            var version := after.running[d];
            exists seen, published ::
              && F.Observation(d, s, version, seen) in after.evidence.recorded
              && seen + DeploymentBakeTime(u.c.environments, s) <= after.clock
              && F.Publication(s, version, published) in after.evidence.published && published <= seen
  {
    hide Mirrors, Sensible, Allowed, CachingRun, F.Run, DirectRun, WellFormed, F.PositiveBakes, F.Installed, F.After,
      DeploymentBakeTime;
    CachingRunIsDirectRun(u, g, f, steps);
    MirrorsWhole(u, g, f);
    MirrorsWhole(u, CachingRun(u, g, steps), F.Run(u.c, f, DirectRun(u, g, steps)));
    S.OnlyBakedVersionsRun(u.c, f, DirectRun(u, g, steps), d, s);
  }

  // A fresh fleet of caching clients mirrors an installed fleet whose registry its tags stand for.
  lemma InstalledMirrors(u: Setup, g: CachingFleet, f: F.Fleet)
    requires F.Installed(f) && g.caches == map[]
    requires f.clock == g.clock && f.running == g.running && f.controllers == g.controllers && f.evidence == g.evidence
    requires StandsFor(u.reading, u.ground.repository, g.tags, f.backend) && TagsInv(WorldOf(u.ground, ""), g.tags)
    ensures Mirrors(u, g, f)
  {
    hide StandsFor, TagsInv, F.ManifestsInv;
    FreshIsCoherent(u.ground, g.tags);
  }

  lemma FreshIsCoherent(g: Ground, tags: Tags)
    requires TagsInv(WorldOf(g, ""), tags)
    ensures Coherent(WorldOf(g, ""), State(NO_CACHE, tags), tags)
  {
    hide TagsInv;
    assert OwnNoManifests(WorldOf(g, ""));
    StartsCoherent(WorldOf(g, ""), tags);
  }
}
