// Every step of the fleet keeps its invariant, so a version reaches a deployment only by the ladder
// of waves: safety over every interleaving.
module FleetSafety {
  import opened Wrappers
  import opened Statuses
  import opened Selection
  import opened Topology
  import opened Propagation
  import R = Reconciliation
  import opened Fleet

  // ---------------------------------------------------------------- evidence

  lemma PublicationKeepsEvidence(c: Config, initial: map<string, string>, e: Evidence, d: string, version: string,
                                 t: int)
    requires PublicationsInv(c, initial, e, t) && ObservationsInv(e, t) && Fit(c, initial, e, d, version, t)
    ensures var e' := e.(published := e.published + {Publication(d, version, t)});
            && PublicationsInv(c, initial, e', t) && ObservationsInv(e', t) && Extends(e, e')
            && PublishedBy(e', d, version, t)
  {
    hide Fit, PublishedBy;
    var e' := e.(published := e.published + {Publication(d, version, t)});
    forall p <- e'.published ensures p.at <= t && Fit(c, initial, e', p.deployment, p.version, p.at) {
      FitLasts(c, initial, e, e', p.deployment, p.version, p.at, p.at);
    }
    forall o <- e'.recorded ensures PublishedBy(e', o.subject, o.version, o.at) {
      PublishedByLasts(e, e', o.subject, o.version, o.at, o.at);
    }
    PublishedNow(e', d, version, t);
  }

  lemma PublishedNow(e: Evidence, d: string, version: string, t: int)
    requires Publication(d, version, t) in e.published
    ensures PublishedBy(e, d, version, t)
  {
  }

  lemma ObservationKeepsEvidence(c: Config, initial: map<string, string>, e: Evidence, o: Observation, t: int)
    requires PublicationsInv(c, initial, e, t) && ObservationsInv(e, t)
    requires o.at == t && PublishedBy(e, o.subject, o.version, t)
    ensures var e' := e.(recorded := e.recorded + {o});
            PublicationsInv(c, initial, e', t) && ObservationsInv(e', t) && Extends(e, e')
  {
    hide Fit, PublishedBy;
    var e' := e.(recorded := e.recorded + {o});
    forall p <- e'.published ensures Fit(c, initial, e', p.deployment, p.version, p.at) {
      FitLasts(c, initial, e, e', p.deployment, p.version, p.at, p.at);
    }
    forall x <- e'.recorded ensures PublishedBy(e', x.subject, x.version, x.at) {
      PublishedByLasts(e, e', x.subject, x.version, x.at, x.at);
    }
  }

  // ---------------------------------------------------------------- reports

  lemma AppendKeepsRecorded(e: Evidence, observer: string, subject: string, h: History, s: DeploymentStatus)
    requires Recorded(e, observer, subject, h)
    requires s.state.Healthy? && Observation(observer, subject, s.version, s.start) in e.recorded
    ensures Recorded(e, observer, subject, Append(h, s)) && Rewrite(h, s) == h
  {
    AppendCases(h, s);
    hide Append;
  }

  lemma StatusesOfRecorded(e: Evidence, observer: string, reports: seq<Report>, d: string)
    requires AllRecorded(e, observer, reports)
    ensures Recorded(e, observer, d, StatusesOf(reports, d))
  {
    hide ReportIndex, Recorded;
    var i := ReportIndex(reports, d);
    if i == |reports| {
      NothingRecorded(e, observer, d);
    }
  }

  lemma NothingRecorded(e: Evidence, observer: string, d: string)
    ensures Recorded(e, observer, d, [])
  {
  }

  lemma ObserveKeepsRecorded(e: Evidence, observer: string, d: string, h: History, fetched: Fetched)
    requires Recorded(e, observer, d, h) && FetchesRecorded(e, observer, fetched)
    ensures Recorded(e, observer, d, Observe(h, FetchedOf(fetched, d)))
    ensures ObserveAliased(h, FetchedOf(fetched, d)) == h
  {
    hide Append, Rewrite, Recorded;
    if d in fetched && fetched[d].Some? {
      AppendKeepsRecorded(e, observer, d, h, fetched[d].value);
    }
  }

  lemma PolledRecorded(e: Evidence, observer: string, required: seq<string>, reports: seq<Report>, fetched: Fetched)
    requires AllRecorded(e, observer, reports) && FetchesRecorded(e, observer, fetched)
    ensures AllRecorded(e, observer, PolledReports(required, reports, fetched))
    ensures AliasedReports(reports, fetched) == reports
  {
    hide ReportIndex, Recorded, FetchesRecorded, Observe, ObserveAliased, StatusesOf, FetchedOf;
    forall i | 0 <= i < |required|
      ensures Recorded(e, observer, required[i], Observe(StatusesOf(reports, required[i]),
                                                         FetchedOf(fetched, required[i])))
    {
      StatusesOfRecorded(e, observer, reports, required[i]);
      ObserveKeepsRecorded(e, observer, required[i], StatusesOf(reports, required[i]), fetched);
    }
    forall k | 0 <= k < |reports| ensures AliasedReport(reports, k, fetched) == reports[k] {
      ObserveKeepsRecorded(e, observer, reports[k].deploymentName, reports[k].statuses, fetched);
    }
  }

  // ---------------------------------------------------------------- the decision

  lemma EntryJustifies(c: Config, initial: map<string, string>, e: Evidence, d: string, s: string, h: History,
                       bake: int, version: string, t: int)
    requires PublicationsInv(c, initial, e, t) && ObservationsInv(e, t) && Recorded(e, d, s, h)
    requires 0 < bake <= HealthyDuration(h, version, t)
    ensures exists seen, published ::
              && Observation(d, s, version, seen) in e.recorded && seen + bake <= t
              && Publication(s, version, published) in e.published && published <= seen
              && Fit(c, initial, e, s, version, published)
  {
    hide Fit, HealthyDuration;
    PositiveDuration(h, version, t);
    var first := FirstIndex(h, version);
    var seen := h[first].start;
    assert Observation(d, s, version, seen) in e.recorded;
    assert NotAfter(h, t) by {
      forall k | 0 <= k < |h| ensures h[k].start <= t {
        assert Observation(d, s, h[k].version, h[k].start) in e.recorded;
      }
    }
    assert PublishedBy(e, s, version, seen);
    var published :| published <= seen && Publication(s, version, published) in e.published;
  }

  // What the whole mechanism is for: a target chosen from recorded histories is justified.
  lemma DecisionIsFit(c: Config, initial: map<string, string>, e: Evidence, d: string, mem: R.PropagationStatus, t: int)
    requires WellFormed(c) && PositiveBakes(c)
    requires PublicationsInv(c, initial, e, t) && ObservationsInv(e, t) && AllRecorded(e, d, mem.reports)
    requires ConditionsOf(c, d) == Some(mem.deployConditions)
    requires forall s <- R.Required(mem.deployConditions) :: HasReport(mem.reports, s)
    requires After(c, d).deployments != []
    requires var target := NextVersion(mem.reports, mem.deployConditions.deployAfter, t); target != ""
    ensures Fit(c, initial, e, d, NextVersion(mem.reports, mem.deployConditions.deployAfter, t), t)
  {
    hide WellFormed, WaveIndex, Flatten, Recorded, HealthyDuration, FirstQualifying, Candidates, Qualifies, Fit;
    var after := After(c, d);
    assert after == mem.deployConditions.deployAfter;
    var target := NextVersion(mem.reports, after, t);
    assert Choice(mem.reports, after, t) == Some(target);
    assert Qualifies(mem.reports, after, target, t);
    AfterIsSome(c, d);
    assert after.bakeTime > 0;
    forall s <- after.deployments
      ensures WaveIndex(Flat(c), s) < WaveIndex(Flat(c), d)
      ensures exists seen, published ::
              && Observation(d, s, target, seen) in e.recorded && seen + after.bakeTime <= t
              && Publication(s, target, published) in e.published && published <= seen
              && Fit(c, initial, e, s, target, published)
    {
      AfterGoesBackOneWave(c, d, s);
      assert s in R.Required(mem.deployConditions);
      var i :| 0 <= i < |mem.reports| && mem.reports[i].deploymentName == s;
      QualifiesAt(mem.reports, after, target, t, i);
      EntryJustifies(c, initial, e, d, s, mem.reports[i].statuses, after.bakeTime, target, t);
    }
    FitFromWave(c, initial, e, d, target, t);
  }

  lemma QualifiesAt(reports: seq<Report>, after: DeployAfter, version: string, now: int, i: nat)
    requires Qualifies(reports, after, version, now) && i < |reports| && reports[i].deploymentName in after.deployments
    ensures after.bakeTime <= HealthyDuration(reports[i].statuses, version, now)
  {
    hide HealthyDuration;
  }

  lemma FitFromWave(c: Config, initial: map<string, string>, e: Evidence, d: string, version: string, t: int)
    requires After(c, d).deployments != []
    requires forall s <- After(c, d).deployments ::
         && WaveIndex(Flat(c), s) < WaveIndex(Flat(c), d)
         && exists seen, published ::
              && Observation(d, s, version, seen) in e.recorded && seen + After(c, d).bakeTime <= t
              && Publication(s, version, published) in e.published && published <= seen
              && Fit(c, initial, e, s, version, published)
    ensures Fit(c, initial, e, d, version, t)
  {
    hide WaveIndex, Flatten, After;
    var s0 := After(c, d).deployments[0];
    assert Proper(version) by {
      assert s0 in After(c, d).deployments;
      var seen, published :| Observation(d, s0, version, seen) in e.recorded
        && Publication(s0, version, published) in e.published
                             && Fit(c, initial, e, s0, version, published);
    }
    forall s <- After(c, d).deployments
      ensures exists seen, published ::
              && Observation(d, s, version, seen) in e.recorded && seen + After(c, d).bakeTime <= t
              && Publication(s, version, published) in e.published && published <= seen
              && Justified(c, initial, e, s, version, published)
    {
      var seen, published :|
              && Observation(d, s, version, seen) in e.recorded && seen + After(c, d).bakeTime <= t
              && Publication(s, version, published) in e.published && published <= seen
              && Fit(c, initial, e, s, version, published);
      assert Justified(c, initial, e, s, version, published);
    }
  }

  // ---------------------------------------------------------------- controller steps

  ghost predicate World(c: Config, initial: map<string, string>, f: Fleet, d: string) {
    Inv(c, initial, f) && d in f.controllers
  }

  lemma LoadKeeps(c: Config, initial: map<string, string>, e: Evidence, d: string, ctl: R.Controller,
                  configFetched: bool, running: Option<string>, persisted: bool, readied: bool, t: int)
    requires ControllerInv(c, initial, e, d, ctl, t)
    requires running.Some? ==> Fit(c, initial, e, d, running.value, t)
    ensures ControllerInv(c, initial, e, d, R.Load(d, ctl, if configFetched then Some(c) else None, running, persisted,
                                                   readied), t)
  {
    hide Fit, AllRecorded, ConditionsOf;
  }

  lemma PublishKeeps(c: Config, initial: map<string, string>, f: Fleet, d: string, published: bool, persisted: bool)
    requires World(c, initial, f, d)
    ensures var ctl := f.controllers[d];
            var e' := NotePublication(f.evidence, d, ctl, published, f.clock);
            var (ctl', backend) := R.PublishOwn(d, ctl, f.backend, published, persisted);
            && Extends(f.evidence, e')
            && PublicationsInv(c, initial, e', f.clock) && ObservationsInv(e', f.clock)
            && StatusesInv(e', backend.statuses, f.clock)
            && ControllerInv(c, initial, e', d, ctl', f.clock)
            && backend == f.backend.(statuses := backend.statuses)
  {
    hide Fit, AllRecorded, ConditionsOf, PublicationsInv, ObservationsInv, PublishedBy, VersionsInv, ManifestsInv;
    var ctl := f.controllers[d];
    assert ControllerInv(c, initial, f.evidence, d, ctl, f.clock);
    var e' := NotePublication(f.evidence, d, ctl, published, f.clock);
    if Goes(ctl, published) {
      PublicationKeepsEvidence(c, initial, f.evidence, d, ctl.local.version, f.clock);
    }
    ControllerLasts(c, initial, f.evidence, e', d, ctl, f.clock, f.clock);
    StatusesLast(f.evidence, e', f.backend.statuses, f.clock, f.clock);
    NoFetches(e', d);
  }

  lemma NoFetches(e: Evidence, d: string)
    ensures FetchesRecorded(e, d, map[])
  {
  }

  lemma FetchKeeps(c: Config, initial: map<string, string>, f: Fleet, d: string, subject: string, reachable: bool)
    requires World(c, initial, f, d)
    ensures var ctl := f.controllers[d];
            var ctl' := R.Fetch(ctl, f.backend, subject, reachable, f.clock);
            var e' := NoteObservation(f.evidence, d, subject, NewlyFetched(ctl, ctl', subject));
            && Extends(f.evidence, e')
            && PublicationsInv(c, initial, e', f.clock) && ObservationsInv(e', f.clock)
            && ControllerInv(c, initial, e', d, ctl', f.clock)
  {
    hide Fit, AllRecorded, ConditionsOf, PublicationsInv, ObservationsInv, PublishedBy, VersionsInv, ManifestsInv,
      R.Required;
    var ctl := f.controllers[d];
    assert ControllerInv(c, initial, f.evidence, d, ctl, f.clock);
    var ctl' := R.Fetch(ctl, f.backend, subject, reachable, f.clock);
    var seen := NewlyFetched(ctl, ctl', subject);
    var e' := NoteObservation(f.evidence, d, subject, seen);
    if seen.Some? {
      ObservationKeepsEvidence(c, initial, f.evidence, Observation(d, subject, seen.value.version, seen.value.start),
                               f.clock);
    }
    ControllerLasts(c, initial, f.evidence, e', d, ctl, f.clock, f.clock);
  }

  lemma EndPollKeeps(c: Config, initial: map<string, string>, e: Evidence, d: string, ctl: R.Controller,
                     persisted: bool, t: int)
    requires ControllerInv(c, initial, e, d, ctl, t)
    ensures ControllerInv(c, initial, e, d, R.EndPoll(ctl, persisted), t)
  {
    hide Fit, AllRecorded, ConditionsOf, AliasedReports, FetchesRecorded, AllFetched;
    if ctl.local.Polls? {
      var l := ctl.local;
      var required := R.Required(l.mem.deployConditions);
      PolledRecorded(e, d, required, l.mem.reports, l.fetched);
      R.OneReportEach(required, l.mem.reports, l.fetched);
    }
  }

  // An open gate is evidence about everyone it waits for.
  lemma OpenGateIsGated(c: Config, initial: map<string, string>, e: Evidence, d: string, reports: seq<Report>,
                        version: string, t: int)
    requires WellFormed(c) && PositiveBakes(c) && Known(c, d)
    requires PublicationsInv(c, initial, e, t) && ObservationsInv(e, t) && AllRecorded(e, d, reports)
    requires forall s <- With(c, d) :: R.HoldsOpen(reports, c, version, s, t)
    ensures Gated(c, e, d, version, t)
  {
    hide WellFormed, PositiveBakes, PublicationsInv, ObservationsInv, AllRecorded, Recorded, Fit, WaveIndex, Flatten,
      With, HealthyDuration, DeploymentBakeTime, StatusesOf;
    forall s <- With(c, d)
      ensures exists seen, published ::
                && Observation(d, s, version, seen) in e.recorded && seen + DeploymentBakeTime(c.environments, s) <= t
                && Publication(s, version, published) in e.published && published <= seen
    {
      AwaitedBakeIsPositive(c, d, s);
      StatusesOfRecorded(e, d, reports, s);
      assert R.HoldsOpen(reports, c, version, s, t);
      EntryJustifies(c, initial, e, d, s, StatusesOf(reports, s), DeploymentBakeTime(c.environments, s), version, t);
    }
  }

  lemma AwaitedBakeIsPositive(c: Config, d: string, s: string)
    requires WellFormed(c) && PositiveBakes(c) && Known(c, d) && s in With(c, d)
    ensures DeploymentBakeTime(c.environments, s) > 0
  {
    hide WellFormed, WaveIndex, Flatten, EnvIndex, DeploymentBakeTime, WithOf;
    WithIsLaterWaves(c, d, s);
    SearchesAgree(c, d);
    SearchesAgree(c, s);
  }

  lemma LoadsIsKnown(c: Config, d: string, config: Config, mem: R.PropagationStatus)
    requires Loads(c, d, config, mem)
    ensures config == c && Known(c, d) && mem.deployConditions.deployWith == With(c, d)
  {
    hide WithOf, WaveIndex, Flatten;
    AfterIsSome(c, d);
  }

  lemma DecideIsGated(c: Config, initial: map<string, string>, f: Fleet, d: string)
    requires WellFormed(c) && PositiveBakes(c) && World(c, initial, f, d) && f.controllers[d].local.Deciding?
    ensures R.Decide(f.controllers[d], f.clock).local.Pulling? ==>
              Gated(c, f.evidence, d, f.controllers[d].local.version, f.clock)
  {
    hide WellFormed, PositiveBakes, Fit, AllRecorded, PublicationsInv, ObservationsInv, VersionsInv, ManifestsInv,
      StatusesInv, NextVersion, R.HoldsOpen, R.FirstBlocker, After, With, Loads, R.Required, Gated;
    var ctl := f.controllers[d];
    assert ControllerInv(c, initial, f.evidence, d, ctl, f.clock);
    LoadsIsKnown(c, d, ctl.local.config, ctl.local.mem);
    if R.Decide(ctl, f.clock).local.Pulling? {
      OpenGateIsGated(c, initial, f.evidence, d, ctl.local.mem.reports, ctl.local.version, f.clock);
    }
  }

  lemma DecideKeeps(c: Config, initial: map<string, string>, f: Fleet, d: string)
    requires WellFormed(c) && PositiveBakes(c) && World(c, initial, f, d)
    ensures ControllerInv(c, initial, f.evidence, d, R.Decide(f.controllers[d], f.clock), f.clock)
  {
    hide WellFormed, PositiveBakes, Fit, AllRecorded, PublicationsInv, ObservationsInv, VersionsInv, ManifestsInv,
      StatusesInv, NextVersion, R.FirstBlocker, After, ConditionsOf, R.Required, Gated;
    var ctl := f.controllers[d];
    assert ControllerInv(c, initial, f.evidence, d, ctl, f.clock);
    if ctl.local.Deciding? {
      DecideIsGated(c, initial, f, d);
      var mem := ctl.local.mem;
      if After(c, d).deployments != [] && NextVersion(mem.reports, mem.deployConditions.deployAfter, f.clock) != "" {
        DecisionIsFit(c, initial, f.evidence, d, mem, f.clock);
      }
    }
  }

  lemma PullKeeps(c: Config, initial: map<string, string>, f: Fleet, d: string, reachable: bool)
    requires World(c, initial, f, d)
    ensures ControllerInv(c, initial, f.evidence, d, R.Pull(d, f.controllers[d], f.backend, reachable), f.clock)
  {
    hide AllRecorded, Justified, PublicationsInv, ObservationsInv, VersionsInv, StatusesInv;
    var ctl := f.controllers[d];
    assert ControllerInv(c, initial, f.evidence, d, ctl, f.clock);
    if ctl.local.Pulling? && After(c, d).deployments == [] {
      FreeFromTheStart(c, initial, f.evidence, d, f.clock);
    }
  }

  lemma FreeFromTheStart(c: Config, initial: map<string, string>, e: Evidence, d: string, t: int)
    requires After(c, d).deployments == []
    ensures forall version :: Justified(c, initial, e, d, version, t)
  {
    hide Flatten, WaveIndex, After;
  }

  lemma DeployKeeps(c: Config, initial: map<string, string>, f: Fleet, d: string, published: bool)
    requires World(c, initial, f, d)
    ensures var (ctl', backend) := R.Deploy(d, f.controllers[d], f.backend, published);
            && ControllerInv(c, initial, f.evidence, d, ctl', f.clock)
            && VersionsInv(c, initial, f.evidence, backend.deploys, f.clock)
            && backend == f.backend.(deploys := backend.deploys)
  {
    hide Fit, AllRecorded, PublicationsInv, ObservationsInv, ManifestsInv, StatusesInv;
    assert ControllerInv(c, initial, f.evidence, d, f.controllers[d], f.clock);
  }

  // ---------------------------------------------------------------- all steps

  // Everything but the evidence, one controller and the two touched maps of the registry is as before.
  lemma Reassemble(c: Config, initial: map<string, string>, f: Fleet, f': Fleet, d: string)
    requires Inv(c, initial, f) && d in f.controllers
    requires Extends(f.evidence, f'.evidence) && f'.clock == f.clock && f'.running == f.running
    requires f'.backend.manifests == f.backend.manifests
    requires d in f'.controllers && f'.controllers == f.controllers[d := f'.controllers[d]]
    requires PublicationsInv(c, initial, f'.evidence, f'.clock) && ObservationsInv(f'.evidence, f'.clock)
    requires StatusesInv(f'.evidence, f'.backend.statuses, f'.clock)
    requires f'.backend.deploys == f.backend.deploys
             || VersionsInv(c, initial, f'.evidence, f'.backend.deploys, f'.clock)
    requires ControllerInv(c, initial, f'.evidence, d, f'.controllers[d], f'.clock)
    ensures Inv(c, initial, f')
  {
    hide PublicationsInv, ObservationsInv, StatusesInv, VersionsInv, ManifestsInv, ControllerInv;
    VersionsLast(c, initial, f.evidence, f'.evidence, f.running, f.clock, f.clock);
    VersionsLast(c, initial, f.evidence, f'.evidence, f.backend.deploys, f.clock, f.clock);
    ControllersLast(c, initial, f.evidence, f'.evidence, f.controllers, f.clock, f.clock);
  }

  lemma NothingNew(e: Evidence)
    ensures Extends(e, e)
  {
  }

  lemma ControllerStepKeeps(c: Config, initial: map<string, string>, f: Fleet, d: string, ev: Event)
    requires WellFormed(c) && PositiveBakes(c) && World(c, initial, f, d)
    ensures Inv(c, initial, ControllerStep(c, f, d, ev))
  {
    hide WellFormed, PositiveBakes, PublicationsInv, ObservationsInv, StatusesInv, VersionsInv, ManifestsInv,
      ControllerInv, Fit, Extends, NotePublication, NoteObservation, R.Load, R.PublishOwn, R.Fetch, R.EndPoll, R.Decide,
        R.Pull, R.Deploy;
    var ctl := f.controllers[d];
    assert ControllerInv(c, initial, f.evidence, d, ctl, f.clock);
    NothingNew(f.evidence);
    match ev
    case Load(_, configFetched, persisted, readied) =>
      if ctl.local.Idle? {
        RunningIsFit(c, initial, f, d);
        LoadKeeps(c, initial, f.evidence, d, ctl, configFetched, OwnVersion(f, d), persisted, readied, f.clock);
        Reassemble(c, initial, f, ControllerStep(c, f, d, ev), d);
      }
    case Publish(_, published, persisted) =>
      PublishKeeps(c, initial, f, d, published, persisted);
      Reassemble(c, initial, f, ControllerStep(c, f, d, ev), d);
    case Fetch(_, subject, reachable) =>
      FetchKeeps(c, initial, f, d, subject, reachable);
      StatusesLast(f.evidence, ControllerStep(c, f, d, ev).evidence, f.backend.statuses, f.clock, f.clock);
      Reassemble(c, initial, f, ControllerStep(c, f, d, ev), d);
    case EndPoll(_, persisted) =>
      EndPollKeeps(c, initial, f.evidence, d, ctl, persisted, f.clock);
      Reassemble(c, initial, f, ControllerStep(c, f, d, ev), d);
    case Decide(_) =>
      DecideKeeps(c, initial, f, d);
      Reassemble(c, initial, f, ControllerStep(c, f, d, ev), d);
    case Pull(_, reachable) =>
      PullKeeps(c, initial, f, d, reachable);
      Reassemble(c, initial, f, ControllerStep(c, f, d, ev), d);
    case Deploy(_, published) =>
      DeployKeeps(c, initial, f, d, published);
      Reassemble(c, initial, f, ControllerStep(c, f, d, ev), d);
    case Crash(_) =>
      StopKeeps(c, initial, f.evidence, d, ctl, f.clock);
      Reassemble(c, initial, f, ControllerStep(c, f, d, ev), d);
    case Tick(_) =>
    case Apply(_) =>
    case Release(_, _) =>
  }

  lemma StopKeeps(c: Config, initial: map<string, string>, e: Evidence, d: string, ctl: R.Controller, t: int)
    requires ControllerInv(c, initial, e, d, ctl, t)
    ensures ControllerInv(c, initial, e, d, ctl.Stop(R.Failed), t)
  {
    hide AllRecorded;
  }

  lemma RunningIsFit(c: Config, initial: map<string, string>, f: Fleet, d: string)
    requires VersionsInv(c, initial, f.evidence, f.running, f.clock)
    ensures OwnVersion(f, d).Some? ==> Fit(c, initial, f.evidence, d, OwnVersion(f, d).value, f.clock)
  {
    hide Fit;
  }

  lemma TickKeeps(c: Config, initial: map<string, string>, f: Fleet, elapsed: nat)
    requires Inv(c, initial, f)
    ensures Inv(c, initial, f.(clock := f.clock + elapsed))
  {
    hide Fit, VersionsInv, StatusesInv, ManifestsInv, ControllersInv;
    var t := f.clock + elapsed;
    NothingNew(f.evidence);
    VersionsLast(c, initial, f.evidence, f.evidence, f.running, f.clock, t);
    VersionsLast(c, initial, f.evidence, f.evidence, f.backend.deploys, f.clock, t);
    StatusesLast(f.evidence, f.evidence, f.backend.statuses, f.clock, t);
    ControllersLast(c, initial, f.evidence, f.evidence, f.controllers, f.clock, t);
  }

  lemma ApplyKeeps(c: Config, initial: map<string, string>, f: Fleet, d: string)
    requires Inv(c, initial, f) && d in f.backend.deploys
    ensures Inv(c, initial, f.(running := f.running[d := f.backend.deploys[d]]))
  {
    hide Fit, PublicationsInv, ObservationsInv, StatusesInv, ManifestsInv, ControllersInv;
  }

  lemma ReleaseKeeps(c: Config, initial: map<string, string>, f: Fleet, d: string, version: string)
    requires Inv(c, initial, f)
    ensures Inv(c, initial, f.(backend := ReleaseManifest(f.backend, d, version)))
  {
    hide Fit, PublicationsInv, ObservationsInv, StatusesInv, VersionsInv, ControllersInv;
  }

  lemma StepKeeps(c: Config, initial: map<string, string>, f: Fleet, ev: Event)
    requires WellFormed(c) && PositiveBakes(c) && Inv(c, initial, f)
    ensures Inv(c, initial, Step(c, f, ev))
  {
    hide WellFormed, PositiveBakes, Inv, ControllerStep, ReleaseManifest;
    match ev
    case Tick(elapsed) => TickKeeps(c, initial, f, elapsed);
    case Apply(d) => if d in f.backend.deploys { ApplyKeeps(c, initial, f, d); }
    case Release(d, version) => ReleaseKeeps(c, initial, f, d, version);
    case _ => if ev.deployment in f.controllers { ControllerStepKeeps(c, initial, f, ev.deployment, ev); }
  }

  lemma InstalledIsSafe(c: Config, f: Fleet)
    requires Installed(f)
    ensures Inv(c, f.running, f)
  {
    hide ManifestsInv, WaveIndex, Flatten;
  }

  lemma {:induction false} RunKeeps(c: Config, f: Fleet, events: seq<Event>)
    requires WellFormed(c) && PositiveBakes(c) && Installed(f)
    ensures Inv(c, f.running, Run(c, f, events))
  {
    hide WellFormed, PositiveBakes, Inv, Step, Installed;
    if events == [] {
      InstalledIsSafe(c, f);
    } else {
      RunKeeps(c, f, events[..|events| - 1]);
      StepKeeps(c, f.running, Run(c, f, events[..|events| - 1]), events[|events| - 1]);
    }
  }

  // ---------------------------------------------------------------- safety of every run

  // In every run of an installed fleet, whatever interleaves and whatever fails: a deployment that has
  // left its initial version runs one that every deployment of the preceding wave had published, and
  // that its own controller had recorded there at least the wave's bake time before now.
  lemma {:induction false} OnlyBakedVersionsRun(c: Config, f: Fleet, events: seq<Event>, d: string, s: string)
    requires WellFormed(c) && PositiveBakes(c) && Installed(f)
    requires d in Run(c, f, events).running && s in After(c, d).deployments
    requires !(d in f.running && f.running[d] == Run(c, f, events).running[d])
    ensures var g := Run(c, f, events);
            var version := g.running[d];
            exists seen, published ::
              && Observation(d, s, version, seen) in g.evidence.recorded
                 && seen + DeploymentBakeTime(c.environments, s) <= g.clock
              && Publication(s, version, published) in g.evidence.published && published <= seen
  {
    hide WellFormed, PositiveBakes, Installed, Run, WaveIndex, Flatten, DeploymentBakeTime;
    RunKeeps(c, f, events);
    var g := Run(c, f, events);
    assert Fit(c, f.running, g.evidence, d, g.running[d], g.clock);
    AfterIsSome(c, d);
    AfterGoesBackOneWave(c, d, s);
  }

  // The bake times of waves i..n-1 together.
  function BakesBetween(c: Config, i: nat, n: nat): int
    requires i <= n <= |Flat(c)|
    decreases n - i
  {
    if i == n then 0 else BakesBetween(c, i, n - 1) + Flat(c)[n - 1].bakeTime
  }

  // A justified version that nothing started with went through every earlier wave, all of each, and
  // the bake times on the way add up.
  lemma {:induction false} PublishedInEveryEarlierWave(c: Config, initial: map<string, string>, e: Evidence,
                                                    d: string, version: string, t: int, i: nat, s: string)
    requires WellFormed(c) && Justified(c, initial, e, d, version, t)
    requires forall x <- initial :: initial[x] != version
    requires Known(c, d) && i < WaveIndex(Flat(c), d) && s in Flat(c)[i].deployments
    ensures exists published :: Publication(s, version, published) in e.published
                                && published + BakesBetween(c, i, WaveIndex(Flat(c), d)) <= t
    decreases WaveIndex(Flat(c), d)
  {
    hide WellFormed, WaveIndex, Flatten;
    var n := WaveIndex(Flat(c), d);
    assert After(c, d) == DeployAfter(Flat(c)[n - 1].deployments, Flat(c)[n - 1].bakeTime);
    AfterOfWave(c, n - 1);
    var m := if i == n - 1 then s else Flat(c)[n - 1].deployments[0];
    assert m in After(c, d).deployments;
    AfterGoesBackOneWave(c, d, m);
    var seen, published :|
      && Observation(d, m, version, seen) in e.recorded && seen + After(c, d).bakeTime <= t
      && Publication(m, version, published) in e.published && published <= seen
      && Justified(c, initial, e, m, version, published);
    if i < n - 1 {
      PublishedInEveryEarlierWave(c, initial, e, m, version, published, i, s);
      var first :| Publication(s, version, first) in e.published && first + BakesBetween(c, i, n - 1) <= published;
      assert Publication(s, version, first) in e.published && first + BakesBetween(c, i, n) <= t;
    } else {
      assert BakesBetween(c, i, i) == 0;
      assert Publication(s, version, published) in e.published && published + BakesBetween(c, i, n) <= t;
    }
  }

  // Safety carried back wave by wave: in every run, a version that no deployment started with runs in a
  // deployment only when every deployment of every earlier wave, across environments, published it at
  // least the sum of the bake times of the waves in between ago.
  lemma NewVersionsClimbTheLadder(c: Config, f: Fleet, events: seq<Event>, d: string, i: nat, s: string)
    requires WellFormed(c) && PositiveBakes(c) && Installed(f)
    requires d in Run(c, f, events).running && Known(c, d)
    requires forall x <- f.running :: f.running[x] != Run(c, f, events).running[d]
    requires i < WaveIndex(Flat(c), d) && s in Flat(c)[i].deployments
    ensures var g := Run(c, f, events);
            exists published :: Publication(s, g.running[d], published) in g.evidence.published
                                && published + BakesBetween(c, i, WaveIndex(Flat(c), d)) <= g.clock
  {
    hide WellFormed, PositiveBakes, Installed, Run, WaveIndex, Flatten, Justified, BakesBetween;
    RunKeeps(c, f, events);
    var g := Run(c, f, events);
    assert Fit(c, f.running, g.evidence, d, g.running[d], g.clock);
    PublishedInEveryEarlierWave(c, f.running, g.evidence, d, g.running[d], g.clock, i, s);
  }

  // In every run, a controller of a first wave that is about to propagate has recorded its own loaded
  // version at every deployment of the environment's later waves, at least the bake time of that
  // deployment's wave before, after that deployment had published it.
  lemma FirstWavesWaitForTheRest(c: Config, f: Fleet, events: seq<Event>, d: string, s: string)
    requires WellFormed(c) && PositiveBakes(c) && Installed(f)
    requires d in Run(c, f, events).controllers && s in With(c, d)
    requires var local := Run(c, f, events).controllers[d].local; local.Pulling? || local.Deploying?
    ensures var g := Run(c, f, events);
            var version := g.controllers[d].local.version;
            exists seen, published ::
              && Observation(d, s, version, seen) in g.evidence.recorded
                 && seen + DeploymentBakeTime(c.environments, s) <= g.clock
              && Publication(s, version, published) in g.evidence.published && published <= seen
  {
    hide WellFormed, PositiveBakes, Installed, Run, With, DeploymentBakeTime, Fit, AllRecorded, PublicationsInv,
      ObservationsInv, StatusesInv, VersionsInv, ManifestsInv;
    RunKeeps(c, f, events);
    var g := Run(c, f, events);
    assert ControllerInv(c, f.running, g.evidence, d, g.controllers[d], g.clock);
  }
}
