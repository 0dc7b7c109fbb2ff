// Where versions come from: a deployment of the very first wave takes the latest release, and what it
// deploys is what was released last.
module FleetReleases {
  import opened Selection
  import opened Topology
  import R = Reconciliation
  import opened Fleet
  import opened FleetSteps

  lemma FrontChoosesLatest(c: Config, d: string, reports: seq<Report>, now: int)
    requires Known(c, d)
    ensures WaveIndex(Flat(c), d) == 0 ==> NextVersion(reports, After(c, d), now) == "latest"
  {
    hide WaveIndex, Flatten, After, NextVersion;
    AfterValue(c, d);
    NothingPrecedesTheFront(reports, 0, now);
  }

  // The front's gate open, it goes for the latest release, whatever it has recorded.
  lemma FrontDecides(c: Config, d: string, ctl: R.Controller, now: int)
    requires ctl.local.Deciding? && Loads(c, d, ctl.local.config, ctl.local.mem)
    requires Known(c, d) && WaveIndex(Flat(c), d) == 0
    requires forall s <- With(c, d) :: R.HoldsOpen(ctl.local.mem.reports, c, ctl.local.version, s, now)
    ensures R.Decide(ctl, now) == R.Controller(ctl.stored, R.Pulling(ctl.local.version, "latest"))
  {
    hide WaveIndex, Flatten, With, NextVersion, R.HoldsOpen, After, Loads;
    LoadsConditions(c, d, ctl.local.config, ctl.local.mem);
    FrontChoosesLatest(c, d, ctl.local.mem.reports, now);
  }

  predicate ReleasesTo(ev: Event, d: string) {
    ev.Release? && ev.deployment == d && Proper(ev.version)
  }

  lemma ManifestsStand(c: Config, f: Fleet, ev: Event, tag: R.ManifestTag)
    requires !ReleasesTo(ev, tag.deployment) && tag in f.backend.manifests
    ensures var b := Step(c, f, ev).backend; tag in b.manifests && b.manifests[tag] == f.backend.manifests[tag]
  {
    hide R.Load, R.Fetch, R.EndPoll, R.Decide, R.Pull, NotePublication, NoteObservation;
  }

  // The latest release stays the latest until the next one.
  lemma {:induction false} LatestStands(c: Config, f: Fleet, events: seq<Event>, tag: R.ManifestTag)
    requires tag in f.backend.manifests && forall ev <- events :: !ReleasesTo(ev, tag.deployment)
    ensures var b := Run(c, f, events).backend; tag in b.manifests && b.manifests[tag] == f.backend.manifests[tag]
  {
    hide Step, ReleasesTo;
    if events != [] {
      var front, last := events[..|events| - 1], events[|events| - 1];
      assert last in events;
      LatestStands(c, f, front, tag);
      ManifestsStand(c, Run(c, f, front), last, tag);
    }
  }

  // A release is found under its own tag and under "latest".
  lemma ReleaseIsLatest(c: Config, f: Fleet, d: string, version: string)
    requires Proper(version)
    ensures var manifests := Step(c, f, Release(d, version)).backend.manifests;
            manifests == f.backend.manifests[R.ManifestTag(d, version) := version][R.ManifestTag(d,
              "latest") := version]
  {
  }

  // Nobody else touches a reconcile under way.
  lemma {:induction false} LeftAlone(c: Config, f: Fleet, events: seq<Event>, d: string)
    requires d in f.controllers && forall ev <- events :: !By(ev, d)
    ensures var g := Run(c, f, events); d in g.controllers && g.controllers[d] == f.controllers[d]
  {
    hide Step, By;
    if events != [] {
      var front, last := events[..|events| - 1], events[|events| - 1];
      assert last in events;
      LeftAlone(c, f, front, d);
      OthersUntouched(c, Run(c, f, front), last, d);
    }
  }

  lemma PullTakes(c: Config, f: Fleet, d: string, manifest: string)
    requires d in f.controllers && f.controllers[d].local.Pulling?
    requires var tag := R.ManifestTag(d, f.controllers[d].local.target);
             tag in f.backend.manifests && f.backend.manifests[tag] == manifest
    ensures var l := f.controllers[d].local;
            var g := Step(c, f, Pull(d, true));
            d in g.controllers && g.controllers[d].local == R.Deploying(l.version, l.target, manifest)
  {
  }

  lemma DeployPuts(c: Config, f: Fleet, d: string)
    requires d in f.controllers && f.controllers[d].local.Deploying?
    ensures var l := f.controllers[d].local;
            var g := Step(c, f, Deploy(d, true));
            && d in g.controllers && g.controllers[d].local == R.Idle(R.Propagated(l.target))
            && g.backend.deploys == f.backend.deploys[d := l.manifest]
  {
  }

  // From release to rollout: when the front pulls "latest" after a release and before the next one, then
  // whatever others do in between, its deploy makes it run that release once it is applied.
  lemma {:induction false} ReleaseReachesTheFront(c: Config, f: Fleet, d: string, version: string, before: seq<Event>,
                                                  between: seq<Event>)
    requires Proper(version) && forall ev <- before :: !ReleasesTo(ev, d)
    requires forall ev <- between :: !By(ev, d)
    requires var g := Run(c, Step(c, f, Release(d, version)), before);
             d in g.controllers && g.controllers[d].local.Pulling? && g.controllers[d].local.target == "latest"
    ensures var g := Run(c, Step(c, f, Release(d, version)), before);
            var h := Step(c, Run(c, Step(c, g, Pull(d, true)), between), Deploy(d, true));
            && d in h.controllers && h.controllers[d].local == R.Idle(R.Propagated("latest"))
            && d in h.backend.deploys && h.backend.deploys[d] == version
            && d in Step(c, h, Apply(d)).running && Step(c, h, Apply(d)).running[d] == version
  {
    hide Step, Run, ReleasesTo, By;
    var released := Step(c, f, Release(d, version));
    var g := Run(c, released, before);
    ReleaseIsLatest(c, f, d, version);
    LatestStands(c, released, before, R.ManifestTag(d, "latest"));
    PullTakes(c, g, d, version);
    var pulled := Step(c, g, Pull(d, true));
    LeftAlone(c, pulled, between, d);
    var h := Run(c, pulled, between);
    DeployPuts(c, h, d);
    NothingIsLost(c, Step(c, h, Deploy(d, true)), Apply(d));
  }
}
