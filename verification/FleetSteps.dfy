// What single steps do to the rollout of one version: what each controller shows, has seen, and was told,
// its reconcile under way included, is kept by every step of every controller.
module FleetSteps {
  import opened Wrappers
  import opened Statuses
  import opened Selection
  import opened Guarantees
  import opened Topology
  import opened Propagation
  import R = Reconciliation
  import opened Fleet
  import opened FleetSafety
  import opened FleetSchedule

  // The environment whose progress is followed, and the version its first wave is on.
  datatype Goal = Goal(c: Config, initial: map<string, string>, env: nat, version: string) {
    predicate InRange() {
      env < |c.environments| && c.environments[env].waves != []
    }

    // The environment's first and last wave in the flattened order.
    function FirstWave(): nat
      requires InRange()
    {
      Offset(c, env)
    }

    function LastWave(): nat
      requires InRange()
    {
      Offset(c, env) + |c.environments[env].waves| - 1
    }
  }

  ghost predicate Sound(w: Goal) {
    && WellFormed(w.c) && PositiveBakes(w.c) && w.InRange() && Proper(w.version)
    && w.LastWave() < |Flat(w.c)|
  }

  function Members(w: Goal, i: nat): seq<string> {
    if i < |Flat(w.c)| then Flat(w.c)[i].deployments else []
  }

  lemma MembersKnown(w: Goal, i: nat, d: string)
    requires Sound(w) && w.FirstWave() <= i <= w.LastWave() && d in Members(w, i)
    ensures Known(w.c, d) && ConditionsOf(w.c, d).Some? && WaveIndex(Flat(w.c), d) == i
    ensures i > w.FirstWave() ==> With(w.c, d) == []
    ensures i > w.FirstWave() ==> After(w.c, d) == DeployAfter(Members(w, i - 1), Flat(w.c)[i - 1].bakeTime)
    ensures i == w.FirstWave() ==>
              forall e :: e in With(w.c, d) ==> exists j :: w.FirstWave() < j <= w.LastWave() && e in Members(w, j)
    ensures forall e :: e in After(w.c, d).deployments ==> i > 0 && e in Members(w, i - 1)
  {
    hide WaveIndex, EnvIndex, Flatten, AfterOf, AllDeployments;
    var c, waves := w.c, w.c.environments[w.env].waves;
    var k := i - w.FirstWave();
    FlattenAt(c.environments, w.env);
    assert Flat(c)[i] == waves[k];
    MemberCoordinates(c, w.env, k, d);
    SearchesAgree(c, d);
    AfterIsSome(c, d);
    if i == w.FirstWave() {
      forall e | e in With(c, d) ensures exists j :: w.FirstWave() < j <= w.LastWave() && e in Members(w, j) {
        WithIsLaterWaves(c, d, e);
        Coordinates(c, e);
        var j := WaveIndex(Flat(c), e);
        assert w.FirstWave() < j <= w.LastWave() && e in Members(w, j);
      }
    }
    forall e | e in After(c, d).deployments ensures i > 0 && e in Members(w, i - 1) {
      AfterGoesBackOneWave(c, d, e);
    }
    AfterValue(c, d);
  }

  lemma AfterValue(c: Config, d: string)
    requires Known(c, d)
    ensures var i := WaveIndex(Flat(c), d);
            After(c, d) == if i == 0 then DeployAfter([], 0)
                           else DeployAfter(Flat(c)[i - 1].deployments, Flat(c)[i - 1].bakeTime)
  {
    hide WaveIndex, Flatten;
  }

  // A deployment behind the first wave waits for nobody, and polls the wave before.
  lemma BehindTheFirstWave(w: Goal, i: nat, d: string)
    requires Sound(w) && w.FirstWave() < i <= w.LastWave() && d in Members(w, i)
    ensures Known(w.c, d) && With(w.c, d) == [] && After(w.c, d).deployments != []
    ensures RequiredBy(w.c, d) == After(w.c, d).deployments
  {
    hide WaveIndex, Flatten, WellFormed, PositiveBakes, ConditionsOf;
    MembersKnown(w, i, d);
    ConditionsAre(w.c, d);
    AfterOfWave(w.c, i - 1);
  }

  lemma RequiredIsOnce(w: Goal, d: string)
    requires Sound(w) && Known(w.c, d)
    ensures Distinct(RequiredBy(w.c, d)) && ConditionsOf(w.c, d).Some?
  {
    hide WaveIndex, Flatten, ConditionsOf, WellFormed, PositiveBakes;
    RequiredOnce(w.c, d);
  }

  // ---------------------------------------------------------------- what is true of every state

  ghost predicate Managed(f: Fleet, d: string) {
    d in f.controllers && d in f.running
  }

  // A reconcile under way works on what is stored.
  ghost predicate Tidy(c: Config, d: string, ctl: R.Controller) {
    match ctl.local
    case Loaded(_, mem, _) => mem == ctl.stored
    case Polls(_, mem, _, _) => mem == ctl.stored
    case Deciding(_, mem, _) =>
      && mem == ctl.stored && UniqueNames(mem.reports)
      && forall i :: 0 <= i < |mem.reports| ==> mem.reports[i].deploymentName in RequiredBy(c, d)
    case _ => true
  }

  ghost predicate AllTidy(w: Goal, f: Fleet) {
    forall d <- f.controllers :: Tidy(w.c, d, f.controllers[d])
  }

  // A stored status of the version is published.
  ghost predicate InSync(w: Goal, d: string, stored: R.PropagationStatus, b: R.Backend) {
    R.Reports(stored.deploymentStatus, w.version) ==> d in b.statuses && R.Reports(b.statuses[d], w.version)
  }

  ghost predicate AllInSync(w: Goal, f: Fleet) {
    forall d <- f.controllers :: InSync(w, d, f.controllers[d].stored, f.backend)
  }

  ghost predicate Equipped(w: Goal, f: Fleet)
    requires w.InRange()
  {
    && (forall i, d :: w.FirstWave() <= i <= w.LastWave() && d in Members(w, i) ==> Managed(f, d))
    && (forall i, d :: w.FirstWave() < i <= w.LastWave() && d in Members(w, i) ==>
          R.ManifestTag(d, w.version) in f.backend.manifests)
    && (w.FirstWave() > 0 ==> forall d <- Members(w, w.FirstWave() - 1) :: d in f.backend.statuses)
  }

  ghost predicate Good(w: Goal, f: Fleet) {
    Sound(w) && Inv(w.c, w.initial, f) && AllTidy(w, f) && AllInSync(w, f) && Equipped(w, f)
  }

  // All that is not allowed for is a status update that fails after a publish went through and that was to
  // replace a stored status of the version.
  ghost predicate Lossless(w: Goal, f: Fleet, ev: Event) {
    ev.Publish? && ev.published && !ev.persisted && ev.deployment in f.controllers ==>
      !R.Reports(f.controllers[ev.deployment].stored.deploymentStatus, w.version)
      || LoadsIt(w, f.controllers[ev.deployment])
  }

  // A reconcile under way has not loaded another version.
  predicate LoadsIt(w: Goal, ctl: R.Controller) {
    !ctl.local.Idle? ==> ctl.local.version == w.version
  }

  lemma GoodParts(w: Goal, f: Fleet, d: string)
    requires Good(w, f)
    ensures Sound(w) && Inv(w.c, w.initial, f) && w.version != "" && w.version != DEFAULT_TAG
    ensures d in f.controllers ==>
              && Tidy(w.c, d, f.controllers[d]) && InSync(w, d, f.controllers[d].stored, f.backend)
              && ControllerInv(w.c, w.initial, f.evidence, d, f.controllers[d], f.clock)
  {
    hide WellFormed, PositiveBakes, Equipped, Tidy, InSync, ControllerInv, PublicationsInv, ObservationsInv,
      StatusesInv, VersionsInv, ManifestsInv, Flatten;
  }

  // ---------------------------------------------------------------- who does what

  predicate By(ev: Event, d: string) {
    !ev.Tick? && !ev.Apply? && !ev.Release? && ev.deployment == d
  }

  // The controller of `d` after a step.
  function StepOf(c: Config, f: Fleet, d: string, ev: Event): R.Controller
    requires d in f.controllers
  {
    var g := ControllerStep(c, f, d, ev);
    if d in g.controllers then g.controllers[d] else f.controllers[d]
  }

  lemma OthersUntouched(c: Config, f: Fleet, ev: Event, d: string)
    requires !By(ev, d)
    ensures var g := Step(c, f, ev);
            && (d in g.controllers <==> d in f.controllers)
            && (d in f.controllers ==> g.controllers[d] == f.controllers[d])
            && (d in g.backend.statuses <==> d in f.backend.statuses)
            && (d in f.backend.statuses ==> g.backend.statuses[d] == f.backend.statuses[d])
            && (d in g.backend.deploys <==> d in f.backend.deploys)
            && (d in f.backend.deploys ==> g.backend.deploys[d] == f.backend.deploys[d])
  {
    hide R.Load, R.Fetch, R.EndPoll, R.Decide, R.Pull, NotePublication, NoteObservation;
  }

  lemma OwnStepIs(c: Config, f: Fleet, ev: Event, d: string)
    requires By(ev, d) && d in f.controllers
    ensures Step(c, f, ev) == ControllerStep(c, f, d, ev)
  {
    hide ControllerStep;
  }

  lemma NothingIsLost(c: Config, f: Fleet, ev: Event)
    ensures var g := Step(c, f, ev);
            && f.clock <= g.clock && g.controllers.Keys == f.controllers.Keys && f.running.Keys <= g.running.Keys
            && f.backend.statuses.Keys <= g.backend.statuses.Keys
               && f.backend.manifests.Keys <= g.backend.manifests.Keys
            && g.running == if ev.Apply? && ev.deployment in f.backend.deploys
                            then f.running[ev.deployment := f.backend.deploys[ev.deployment]] else f.running
  {
    hide R.Load, R.Fetch, R.EndPoll, R.Decide, R.Pull, NotePublication, NoteObservation;
  }

  // ---------------------------------------------------------------- every step keeps it

  lemma LoadIsTidy(c: Config, d: string, ctl: R.Controller, config: Option<Config>, running: Option<string>,
                   persisted: bool, readied: bool)
    requires ctl.local.Idle?
    ensures var ctl' := R.Load(d, ctl, config, running, persisted, readied);
            && Tidy(c, d, ctl') && ctl'.stored.reports == ctl.stored.reports
            && ctl'.stored.deploymentStatus == ctl.stored.deploymentStatus
            && (ctl'.local.Loaded? || ctl'.local.Idle?)
            && (ctl'.local.Loaded? ==> running == Some(ctl'.local.version))
  {
    hide ConditionsOf;
  }

  lemma PublishIsTidy(c: Config, d: string, ctl: R.Controller, b: R.Backend, published: bool, persisted: bool)
    requires Tidy(c, d, ctl)
    ensures var (ctl', b') := R.PublishOwn(d, ctl, b, published, persisted);
            && Tidy(c, d, ctl') && ctl'.stored.reports == ctl.stored.reports
            && ctl'.stored.deployConditions == ctl.stored.deployConditions
            && (!ctl.local.Loaded? ==> ctl' == ctl && b' == b)
            && (ctl.local.Loaded? ==> ctl'.local.Idle? || (ctl'.local.Polls? && ctl'.local.fetched == map[]))
  {
  }

  lemma FetchIsTidy(c: Config, d: string, ctl: R.Controller, b: R.Backend, subject: string, reachable: bool, now: int)
    requires Tidy(c, d, ctl)
    ensures var ctl' := R.Fetch(ctl, b, subject, reachable, now);
            && Tidy(c, d, ctl') && ctl'.stored == ctl.stored
            && (!ctl.local.Polls? ==> ctl' == ctl)
            && (ctl.local.Polls? ==> ctl'.local.Polls? && ctl'.local.mem == ctl.local.mem
                                     && (ctl'.local.fetched == ctl.local.fetched
                                         || ctl'.local.fetched
                                            == ctl.local.fetched[subject := FetchOne(b.statuses, subject, reachable,
                                              now)]))
  {
    hide FetchOne, R.Required;
  }

  // The end of a poll, in its three outcomes.
  lemma EndPollIsTidy(w: Goal, d: string, ctl: R.Controller, persisted: bool, e: Evidence, t: int)
    requires Sound(w) && Tidy(w.c, d, ctl) && ControllerInv(w.c, w.initial, e, d, ctl, t)
    ensures var ctl' := R.EndPoll(ctl, persisted);
            && Tidy(w.c, d, ctl') && ctl'.stored.deploymentStatus == ctl.stored.deploymentStatus
            && (!ctl.local.Polls? ==> ctl' == ctl)
            && (ctl.local.Polls? ==>
                  || (ctl' == ctl && exists s <- RequiredBy(w.c, d) :: s !in ctl.local.fetched)
                  || (ctl'.local.Idle? && ctl'.stored.reports == ctl.stored.reports
                      && (forall s <- RequiredBy(w.c, d) :: s in ctl.local.fetched)
                      && !(persisted && AllFetched(RequiredBy(w.c, d), ctl.local.fetched)))
                  || (ctl'.local.Deciding? && AllFetched(RequiredBy(w.c, d), ctl.local.fetched)
                      && ctl'.stored.reports == PolledReports(RequiredBy(w.c, d), ctl.stored.reports,
                                                              ctl.local.fetched)))
  {
    hide Fit, WellFormed, PositiveBakes, AllFetched, PolledReports, AliasedReports, ConditionsOf, WaveIndex, Flatten,
      R.Required, AllRecorded, FetchesRecorded;
    if ctl.local.Polls? {
      var l := ctl.local;
      LoadsIsKnown(w.c, d, l.config, l.mem);
      RequiredIsOnce(w, d);
      PolledRecorded(e, d, RequiredBy(w.c, d), l.mem.reports, l.fetched);
      R.OneReportEach(RequiredBy(w.c, d), l.mem.reports, l.fetched);
    }
  }

  lemma LaterIsTidy(c: Config, d: string, ctl: R.Controller, b: R.Backend, ok: bool, now: int)
    requires Tidy(c, d, ctl)
    ensures var ctl' := R.Decide(ctl, now);
            Tidy(c, d, ctl') && ctl'.stored == ctl.stored && (ctl' == ctl || ctl'.local.Pulling? || ctl'.local.Idle?)
    ensures var ctl' := R.Pull(d, ctl, b, ok);
            Tidy(c, d, ctl') && ctl'.stored == ctl.stored && (ctl' == ctl || ctl'.local.Deploying? || ctl'.local.Idle?)
    ensures var (ctl', b') := R.Deploy(d, ctl, b, ok);
            && Tidy(c, d, ctl') && ctl'.stored == ctl.stored && (ctl' == ctl || ctl'.local.Idle?)
            && b'.statuses == b.statuses
    ensures Tidy(c, d, ctl.Stop(R.Failed))
  {
    hide NextVersion, R.FirstBlocker;
  }

  lemma OwnStepIsTidy(w: Goal, f: Fleet, d: string, ev: Event)
    requires Sound(w) && By(ev, d) && d in f.controllers && Tidy(w.c, d, f.controllers[d])
    requires ControllerInv(w.c, w.initial, f.evidence, d, f.controllers[d], f.clock)
    ensures var g := ControllerStep(w.c, f, d, ev);
            && d in g.controllers && Tidy(w.c, d, g.controllers[d])
            && (Lossless(w, f, ev) && InSync(w, d, f.controllers[d].stored, f.backend) ==>
                  InSync(w, d, g.controllers[d].stored, g.backend))
  {
    hide Sound, Tidy, ControllerInv, R.Load, R.Fetch, R.EndPoll, R.Decide, R.Pull, R.Deploy, R.PublishOwn,
      NotePublication, NoteObservation;
    var ctl := f.controllers[d];
    match ev
    case Load(_, configFetched, persisted, readied) =>
      if ctl.local.Idle? {
        LoadIsTidy(w.c, d, ctl, if configFetched then Some(w.c) else None, OwnVersion(f, d), persisted, readied);
      }
    case Publish(_, published, persisted) =>
      PublishIsTidy(w.c, d, ctl, f.backend, published, persisted);
      if Lossless(w, f, ev) && InSync(w, d, ctl.stored, f.backend) {
        PublishSyncs(w, d, ctl, f.backend, published, persisted);
      }
    case Fetch(_, subject, reachable) => FetchIsTidy(w.c, d, ctl, f.backend, subject, reachable, f.clock);
    case EndPoll(_, persisted) => EndPollIsTidy(w, d, ctl, persisted, f.evidence, f.clock);
    case Decide(_) => LaterIsTidy(w.c, d, ctl, f.backend, true, f.clock);
    case Pull(_, reachable) => LaterIsTidy(w.c, d, ctl, f.backend, reachable, f.clock);
    case Deploy(_, published) => LaterIsTidy(w.c, d, ctl, f.backend, published, f.clock);
    case Crash(_) => LaterIsTidy(w.c, d, ctl, f.backend, true, f.clock);
  }

  lemma PublishSyncs(w: Goal, d: string, ctl: R.Controller, b: R.Backend, published: bool, persisted: bool)
    requires Tidy(w.c, d, ctl) && InSync(w, d, ctl.stored, b)
    requires published && !persisted ==> !R.Reports(ctl.stored.deploymentStatus, w.version) || LoadsIt(w, ctl)
    ensures var (ctl', b') := R.PublishOwn(d, ctl, b, published, persisted); InSync(w, d, ctl'.stored, b')
  {
  }

  lemma EquippedStays(w: Goal, f: Fleet, ev: Event)
    requires w.InRange() && Equipped(w, f)
    ensures Equipped(w, Step(w.c, f, ev))
  {
    hide Step, Members, Flatten;
    NothingIsLost(w.c, f, ev);
    var g := Step(w.c, f, ev);
    forall i, d | w.FirstWave() <= i <= w.LastWave() && d in Members(w, i) ensures Managed(g, d) {
      assert Managed(f, d);
      assert d in f.controllers.Keys && d in f.running.Keys;
    }
    forall i, d | w.FirstWave() < i <= w.LastWave() && d in Members(w, i)
      ensures R.ManifestTag(d, w.version) in g.backend.manifests
    {
      assert R.ManifestTag(d, w.version) in f.backend.manifests.Keys;
    }
    if w.FirstWave() > 0 {
      forall d <- Members(w, w.FirstWave() - 1) ensures d in g.backend.statuses {
        assert d in f.backend.statuses.Keys;
      }
    }
  }

  lemma SyncStays(w: Goal, f: Fleet, ev: Event, d: string)
    requires Good(w, f) && Lossless(w, f, ev) && d in f.controllers
    ensures var g := Step(w.c, f, ev);
            d in g.controllers && Tidy(w.c, d, g.controllers[d]) && InSync(w, d, g.controllers[d].stored, g.backend)
  {
    hide Sound, Tidy, PublicationsInv, ObservationsInv, StatusesInv, VersionsInv, ManifestsInv, Equipped, Step,
      ControllerStep, ControllerInv;
    if By(ev, d) {
      OwnStepIs(w.c, f, ev, d);
      OwnStepIsTidy(w, f, d, ev);
    } else {
      OthersUntouched(w.c, f, ev, d);
    }
  }

  lemma GoodStays(w: Goal, f: Fleet, ev: Event)
    requires Good(w, f) && Lossless(w, f, ev)
    ensures Good(w, Step(w.c, f, ev))
  {
    assert w.InRange() && WellFormed(w.c) && PositiveBakes(w.c) && Equipped(w, f);
    hide Sound, WellFormed, PositiveBakes, Inv, Equipped, Step, Tidy, InSync;
    StepKeeps(w.c, w.initial, f, ev);
    EquippedStays(w, f, ev);
    NothingIsLost(w.c, f, ev);
    var g := Step(w.c, f, ev);
    forall d <- g.controllers ensures Tidy(w.c, d, g.controllers[d])
      && InSync(w, d, g.controllers[d].stored, g.backend) {
      assert d in f.controllers.Keys;
      SyncStays(w, f, ev, d);
    }
  }

  // Reconciles are tidy in every run.
  lemma {:induction false} RunIsTidy(w: Goal, installed: Fleet, events: seq<Event>)
    requires Sound(w) && Installed(installed) && w.initial == installed.running
    ensures AllTidy(w, Run(w.c, installed, events))
  {
    hide Sound, Inv, Step, Tidy, ControllerInv;
    assert WellFormed(w.c) && PositiveBakes(w.c) by { hide *; SoundParts(w); }
    if events == [] {
      InstalledIsTidy(w, installed);
    } else {
      var front, last := events[..|events| - 1], events[|events| - 1];
      var f := Run(w.c, installed, front);
      RunIsTidy(w, installed, front);
      RunKeeps(w.c, installed, front);
      NothingIsLost(w.c, f, last);
      forall d <- Step(w.c, f, last).controllers ensures Tidy(w.c, d, Step(w.c, f, last).controllers[d]) {
        assert d in f.controllers.Keys;
        TidyStays(w, f, last, d);
      }
    }
  }

  lemma SoundParts(w: Goal)
    requires Sound(w)
    ensures WellFormed(w.c) && PositiveBakes(w.c)
  {
  }

  lemma InstalledIsTidy(w: Goal, f: Fleet)
    requires Installed(f)
    ensures AllTidy(w, f)
  {
  }

  lemma TidyStays(w: Goal, f: Fleet, ev: Event, d: string)
    requires Sound(w) && Inv(w.c, w.initial, f) && d in f.controllers && Tidy(w.c, d, f.controllers[d])
    ensures var g := Step(w.c, f, ev); d in g.controllers && Tidy(w.c, d, g.controllers[d])
  {
    hide Sound, Tidy, PublicationsInv, ObservationsInv, StatusesInv, VersionsInv, ManifestsInv, Step, ControllerStep,
      ControllerInv;
    if By(ev, d) {
      OwnStepIs(w.c, f, ev, d);
      OwnStepIsTidy(w, f, d, ev);
    } else {
      OthersUntouched(w.c, f, ev, d);
    }
  }

  // ---------------------------------------------------------------- showing

  ghost predicate Shows(f: Fleet, d: string, version: string) {
    d in f.backend.statuses && R.Reports(f.backend.statuses[d], version)
  }

  ghost predicate Runs(f: Fleet, d: string, version: string) {
    d in f.running && f.running[d] == version
  }

  // The deployment shows the version, and is not about to publish another one.
  ghost predicate ShowsFirmly(w: Goal, f: Fleet, d: string) {
    Shows(f, d, w.version) && d in f.controllers && LoadsIt(w, f.controllers[d])
  }

  // Only publishing changes what is shown.
  lemma OthersShowNothing(c: Config, f: Fleet, d: string, ev: Event)
    requires By(ev, d) && d in f.controllers && !ev.Publish?
    ensures ControllerStep(c, f, d, ev).backend.statuses == f.backend.statuses
  {
    hide R.Load, R.Fetch, R.EndPoll, R.Decide, R.Pull, NotePublication, NoteObservation;
  }

  lemma PublishShows(w: Goal, d: string, ctl: R.Controller, b: R.Backend, published: bool, persisted: bool)
    requires Tidy(w.c, d, ctl) && InSync(w, d, ctl.stored, b) && w.version != "" && LoadsIt(w, ctl)
    ensures var (ctl', b') := R.PublishOwn(d, ctl, b, published, persisted);
            && (d in b.statuses && R.Reports(b.statuses[d], w.version) ==>
                  d in b'.statuses && R.Reports(b'.statuses[d], w.version))
            && (ctl.local.Loaded? && published ==> d in b'.statuses && R.Reports(b'.statuses[d], w.version))
            && !ctl'.local.Loaded?
  {
  }

  lemma LaterStepsKeepVersion(d: string, ctl: R.Controller, b: R.Backend, subject: string, ok: bool, persisted: bool,
                              now: int)
    ensures KeepsVersion(ctl, R.PublishOwn(d, ctl, b, ok, persisted).0)
    ensures KeepsVersion(ctl, R.Fetch(ctl, b, subject, ok, now)) && KeepsVersion(ctl, R.EndPoll(ctl, persisted))
    ensures KeepsVersion(ctl, R.Decide(ctl, now)) && KeepsVersion(ctl, R.Pull(d, ctl, b, ok))
    ensures KeepsVersion(ctl, R.Deploy(d, ctl, b, ok).0)
  {
    hide R.Required, FetchOne, AllFetched, AliasedReports, PolledReports, R.FirstBlocker, NextVersion;
  }

  predicate KeepsVersion(ctl: R.Controller, ctl': R.Controller) {
    ctl'.local.Idle? || (!ctl.local.Idle? && ctl'.local.version == ctl.local.version)
  }

  // What a reconcile under way loaded stays, and a new one loads what runs.
  lemma OwnStepLoads(w: Goal, f: Fleet, d: string, ev: Event)
    requires By(ev, d) && d in f.controllers && Runs(f, d, w.version) && LoadsIt(w, f.controllers[d])
    ensures var g := ControllerStep(w.c, f, d, ev); d in g.controllers && LoadsIt(w, g.controllers[d])
  {
    hide R.Load, R.Fetch, R.EndPoll, R.Decide, R.Pull, R.Deploy, R.PublishOwn, NotePublication, NoteObservation;
    var ctl := f.controllers[d];
    match ev
    case Load(_, configFetched, persisted, readied) =>
      if ctl.local.Idle? {
        LoadIsTidy(w.c, d, ctl, if configFetched then Some(w.c) else None, OwnVersion(f, d), persisted, readied);
      }
    case Publish(_, published, persisted) =>
      LaterStepsKeepVersion(d, ctl, f.backend, "", published, persisted, f.clock);
    case Fetch(_, subject, reachable) =>
      LaterStepsKeepVersion(d, ctl, f.backend, subject, reachable, true, f.clock);
    case EndPoll(_, persisted) => LaterStepsKeepVersion(d, ctl, f.backend, "", true, persisted, f.clock);
    case Decide(_) => LaterStepsKeepVersion(d, ctl, f.backend, "", true, true, f.clock);
    case Pull(_, reachable) => LaterStepsKeepVersion(d, ctl, f.backend, "", reachable, true, f.clock);
    case Deploy(_, published) => LaterStepsKeepVersion(d, ctl, f.backend, "", published, true, f.clock);
    case Crash(_) =>
  }

  lemma OwnStepShows(w: Goal, f: Fleet, d: string, ev: Event)
    requires Good(w, f) && By(ev, d) && d in f.controllers && LoadsIt(w, f.controllers[d])
    ensures var g := ControllerStep(w.c, f, d, ev);
            && (Shows(f, d, w.version) ==> Shows(g, d, w.version))
            && (ev.Publish? && ev.published && f.controllers[d].local.Loaded? ==> Shows(g, d, w.version))
  {
    hide Good, Tidy, R.Load, R.Fetch, R.EndPoll, R.Decide, R.Pull, R.Deploy, R.PublishOwn, NotePublication,
      NoteObservation, InSync;
    GoodParts(w, f, d);
    if ev.Publish? {
      PublishShows(w, d, f.controllers[d], f.backend, ev.published, ev.persisted);
    } else {
      OthersShowNothing(w.c, f, d, ev);
    }
  }

  lemma ShowsStays(w: Goal, f: Fleet, ev: Event, d: string)
    requires Good(w, f) && Runs(f, d, w.version) && ShowsFirmly(w, f, d)
    ensures ShowsFirmly(w, Step(w.c, f, ev), d)
  {
    hide Good, Step, ControllerStep;
    if By(ev, d) {
      OwnStepIs(w.c, f, ev, d);
      OwnStepLoads(w, f, d, ev);
      OwnStepShows(w, f, d, ev);
    } else {
      OthersUntouched(w.c, f, ev, d);
    }
  }

  // ---------------------------------------------------------------- seeing

  // The history ends on `version`, which first came up no later than `limit`.
  ghost predicate SeenIn(h: History, version: string, limit: int) {
    h != [] && Statuses.Last(h).version == version && FirstIndex(h, version) < |h|
      && h[FirstIndex(h, version)].start <= limit
  }

  function HistoryAt(f: Fleet, d: string, e: string): History
    requires d in f.controllers
  {
    StatusesOf(f.controllers[d].stored.reports, e)
  }

  ghost predicate Seen(f: Fleet, d: string, e: string, version: string, limit: int) {
    d in f.controllers && SeenIn(HistoryAt(f, d, e), version, limit)
  }

  // What a poll under way has fetched of `e`, if anything, is the version.
  predicate FetchedIt(w: Goal, ctl: R.Controller, e: string) {
    ctl.local.Polls? && FetchedOf(ctl.local.fetched, e).Some? ==>
      FetchedOf(ctl.local.fetched, e).value.version == w.version
  }

  // `d` has seen `e` on the version since `limit` at the latest, and its poll will not see it elsewhere.
  ghost predicate SeenFirmly(w: Goal, f: Fleet, d: string, e: string, limit: int) {
    Seen(f, d, e, w.version, limit) && FetchedIt(w, f.controllers[d], e)
  }

  lemma {:induction false} HistoryFacts(w: Goal, f: Fleet, d: string, e: string)
    requires Inv(w.c, w.initial, f) && d in f.controllers
    ensures AllHealthy(HistoryAt(f, d, e)) && NotAfter(HistoryAt(f, d, e), f.clock)
  {
    hide PublicationsInv, StatusesInv, VersionsInv, ManifestsInv, LocalInv, StatusesOf;
    assert ControllerInv(w.c, w.initial, f.evidence, d, f.controllers[d], f.clock);
    StatusesOfRecorded(f.evidence, d, f.controllers[d].stored.reports, e);
    var h := HistoryAt(f, d, e);
    forall k | 0 <= k < |h| ensures h[k].start <= f.clock && h[k].state.Healthy? {
      assert Observation(d, e, h[k].version, h[k].start) in f.evidence.recorded;
    }
  }

  lemma FetchedFacts(w: Goal, f: Fleet, d: string, e: string)
    requires Inv(w.c, w.initial, f) && d in f.controllers && f.controllers[d].local.Polls?
    ensures var s := FetchedOf(f.controllers[d].local.fetched, e);
            s.Some? ==> s.value.state.Healthy? && s.value.start <= f.clock
  {
    hide PublicationsInv, StatusesInv, VersionsInv, ManifestsInv, AllRecorded, Loads;
    assert ControllerInv(w.c, w.initial, f.evidence, d, f.controllers[d], f.clock);
    var s := FetchedOf(f.controllers[d].local.fetched, e);
    if s.Some? {
      assert Observation(d, e, s.value.version, s.value.start) in f.evidence.recorded;
    }
  }

  lemma ObservingSees(h: History, s: DeploymentStatus, now: int)
    requires AllHealthy(h) && NotAfter(h, now) && s.state.Healthy? && s.start <= now
    ensures SeenIn(Append(h, s), s.version, now)
    ensures forall limit :: SeenIn(h, s.version, limit) ==> SeenIn(Append(h, s), s.version, limit)
  {
    hide FirstIndex, Append;
    AppendCases(h, s);
    AppendEndsWithObserved(h, s);
    var g := Append(h, s);
    assert g[|g| - 1].version == s.version;
    assert FirstIndex(g, s.version) < |g|;
    if g != h {
      assert g == h + [s];
      var first := FirstIndex(g, s.version);
      assert first < |h| ==> g[first] == h[first];
      assert !(h != [] && Statuses.Last(h).version == s.version);
    }
  }

  // A poll that ends well sees what it fetched.
  lemma PolledSees(w: Goal, f: Fleet, d: string, e: string)
    requires Inv(w.c, w.initial, f) && d in f.controllers && f.controllers[d].local.Polls?
    requires Distinct(RequiredBy(w.c, d)) && e in RequiredBy(w.c, d) && FetchedIt(w, f.controllers[d], e)
    ensures var fetched := f.controllers[d].local.fetched;
            var h := StatusesOf(PolledReports(RequiredBy(w.c, d), f.controllers[d].stored.reports, fetched), e);
            && (FetchedOf(fetched, e).Some? ==> SeenIn(h, w.version, f.clock))
            && (forall limit :: SeenIn(HistoryAt(f, d, e), w.version, limit) ==> SeenIn(h, w.version, limit))
  {
    hide Inv, StatusesOf, RequiredBy, PolledReports, Append, SeenIn;
    var fetched := f.controllers[d].local.fetched;
    HistoryFacts(w, f, d, e);
    FetchedFacts(w, f, d, e);
    R.StatusesOfPolled(RequiredBy(w.c, d), f.controllers[d].stored.reports, fetched, e);
    if FetchedOf(fetched, e).Some? {
      ObservingSees(HistoryAt(f, d, e), FetchedOf(fetched, e).value, f.clock);
    }
  }

  // What ending a poll leaves of what was seen, in each of its outcomes.
  lemma OutcomeSees(w: Goal, f: Fleet, d: string, ctl': R.Controller, e: string)
    requires Inv(w.c, w.initial, f) && d in f.controllers && f.controllers[d].local.Polls?
    requires Distinct(RequiredBy(w.c, d)) && e in RequiredBy(w.c, d) && FetchedIt(w, f.controllers[d], e)
    requires var ctl := f.controllers[d];
             || ctl' == ctl
             || (ctl'.local.Idle? && ctl'.stored.reports == ctl.stored.reports)
             || (ctl'.local.Deciding? && AllFetched(RequiredBy(w.c, d), ctl.local.fetched)
                 && ctl'.stored.reports == PolledReports(RequiredBy(w.c, d), ctl.stored.reports, ctl.local.fetched))
    ensures FetchedIt(w, ctl', e)
    ensures var h := StatusesOf(ctl'.stored.reports, e);
            && (forall limit :: SeenIn(HistoryAt(f, d, e), w.version, limit) ==> SeenIn(h, w.version, limit))
            && (ctl'.local.Deciding? ==> SeenIn(h, w.version, f.clock))
  {
    hide Inv, StatusesOf, SeenIn, AllFetched, PolledReports, RequiredBy;
    PolledSees(w, f, d, e);
    AllFetchedHas(RequiredBy(w.c, d), f.controllers[d].local.fetched, e);
  }

  lemma EndPollStepIs(c: Config, f: Fleet, d: string, ev: Event)
    requires ev.EndPoll? && ev.deployment == d && d in f.controllers
    ensures var g := ControllerStep(c, f, d, ev);
            d in g.controllers && g.controllers[d] == R.EndPoll(f.controllers[d], ev.persisted)
  {
    hide R.EndPoll;
  }

  lemma EndPollSees(w: Goal, f: Fleet, d: string, ev: Event, e: string)
    requires Good(w, f) && ev.EndPoll? && ev.deployment == d && d in f.controllers && Known(w.c, d)
    requires e in RequiredBy(w.c, d) && FetchedIt(w, f.controllers[d], e)
    ensures var g := ControllerStep(w.c, f, d, ev);
            && d in g.controllers && FetchedIt(w, g.controllers[d], e)
            && (forall limit :: Seen(f, d, e, w.version, limit) ==> Seen(g, d, e, w.version, limit))
            && (f.controllers[d].local.Polls? && g.controllers[d].local.Deciding? ==> Seen(g, d, e, w.version, f.clock))
  {
    hide Good, Sound, Inv, ControllerInv, Tidy, R.EndPoll, StatusesOf, SeenIn, AllFetched, PolledReports, RequiredBy,
      ControllerStep, FetchedIt, WaveIndex, Flatten, InSync;
    GoodParts(w, f, d);
    var ctl := f.controllers[d];
    EndPollStepIs(w.c, f, d, ev);
    EndPollIsTidy(w, d, ctl, ev.persisted, f.evidence, f.clock);
    RequiredIsOnce(w, d);
    if ctl.local.Polls? {
      OutcomeSees(w, f, d, R.EndPoll(ctl, ev.persisted), e);
    }
  }

  lemma AllFetchedHas(required: seq<string>, fetched: Fetched, e: string)
    requires e in required
    ensures AllFetched(required, fetched) ==> FetchedOf(fetched, e).Some?
  {
  }

  lemma FetchSees(w: Goal, f: Fleet, ctl: R.Controller, subject: string, reachable: bool, e: string)
    requires FetchedIt(w, ctl, e) && Shows(f, e, w.version)
    ensures FetchedIt(w, R.Fetch(ctl, f.backend, subject, reachable, f.clock), e)
  {
    hide R.Required;
  }

  // Only polling changes what has been seen.
  lemma OthersStoreNothing(c: Config, f: Fleet, d: string, ev: Event)
    requires By(ev, d) && d in f.controllers && Tidy(c, d, f.controllers[d]) && !ev.Fetch? && !ev.EndPoll?
    ensures var g := ControllerStep(c, f, d, ev);
            && d in g.controllers && g.controllers[d].stored.reports == f.controllers[d].stored.reports
            && (g.controllers[d].local.Polls? ==>
                  g.controllers[d] == f.controllers[d] || g.controllers[d].local.fetched == map[])
  {
    hide Tidy, R.Load, R.Decide, R.Pull, R.Deploy, R.PublishOwn, NotePublication, NoteObservation;
    var ctl := f.controllers[d];
    match ev
    case Load(_, configFetched, persisted, readied) =>
      if ctl.local.Idle? {
        LoadIsTidy(c, d, ctl, if configFetched then Some(c) else None, OwnVersion(f, d), persisted, readied);
      }
    case Publish(_, published, persisted) => PublishIsTidy(c, d, ctl, f.backend, published, persisted);
    case Decide(_) => LaterIsTidy(c, d, ctl, f.backend, true, f.clock);
    case Pull(_, reachable) => LaterIsTidy(c, d, ctl, f.backend, reachable, f.clock);
    case Deploy(_, published) => LaterIsTidy(c, d, ctl, f.backend, published, f.clock);
    case Crash(_) =>
  }

  lemma FetchStepSees(w: Goal, f: Fleet, d: string, ev: Event, e: string)
    requires By(ev, d) && ev.Fetch? && d in f.controllers && Tidy(w.c, d, f.controllers[d])
    requires FetchedIt(w, f.controllers[d], e) && Shows(f, e, w.version)
    ensures var g := ControllerStep(w.c, f, d, ev);
            d in g.controllers && g.controllers[d].stored == f.controllers[d].stored
              && FetchedIt(w, g.controllers[d], e)
  {
    hide Tidy, R.Fetch, NoteObservation, Shows, FetchedIt;
    FetchIsTidy(w.c, d, f.controllers[d], f.backend, ev.subject, ev.reachable, f.clock);
    FetchSees(w, f, f.controllers[d], ev.subject, ev.reachable, e);
  }

  lemma OwnStepSees(w: Goal, f: Fleet, d: string, ev: Event, e: string, limit: int)
    requires Good(w, f) && By(ev, d) && Known(w.c, d) && e in RequiredBy(w.c, d)
    requires Shows(f, e, w.version) && SeenFirmly(w, f, d, e, limit)
    ensures SeenFirmly(w, ControllerStep(w.c, f, d, ev), d, e, limit)
  {
    hide Good, Tidy, ControllerStep, SeenIn, StatusesOf, RequiredBy, Shows;
    GoodParts(w, f, d);
    if ev.EndPoll? {
      EndPollSees(w, f, d, ev, e);
    } else if ev.Fetch? {
      FetchStepSees(w, f, d, ev, e);
    } else {
      OthersStoreNothing(w.c, f, d, ev);
    }
  }

  lemma SeenStays(w: Goal, f: Fleet, ev: Event, d: string, e: string, limit: int)
    requires Good(w, f) && Known(w.c, d) && e in RequiredBy(w.c, d)
    requires Shows(f, e, w.version) && SeenFirmly(w, f, d, e, limit)
    ensures SeenFirmly(w, Step(w.c, f, ev), d, e, limit)
  {
    hide Good, Step, ControllerStep, SeenIn, StatusesOf, RequiredBy, Shows;
    if By(ev, d) {
      OwnStepIs(w.c, f, ev, d);
      OwnStepSees(w, f, d, ev, e, limit);
    } else {
      OthersUntouched(w.c, f, ev, d);
    }
  }

  lemma SeenLater(w: Goal, f: Fleet, d: string, e: string, limit: int, later: int)
    requires SeenFirmly(w, f, d, e, limit) && limit <= later
    ensures SeenFirmly(w, f, d, e, later)
  {
    hide FirstIndex, StatusesOf;
  }

  // ---------------------------------------------------------------- being ripe, and being told

  ghost predicate Deploys(f: Fleet, d: string, version: string) {
    d in f.backend.deploys && f.backend.deploys[d] == version
  }

  // Everything the wave before shows has been seen for its bake time.
  ghost predicate Ripe(w: Goal, f: Fleet, d: string) {
    forall e <- After(w.c, d).deployments :: SeenFirmly(w, f, d, e, f.clock - After(w.c, d).bakeTime)
  }

  // A reconcile under way is not about to deploy another version.
  predicate TargetsIt(w: Goal, ctl: R.Controller) {
    && (ctl.local.Pulling? ==> ctl.local.target == w.version)
    && (ctl.local.Deploying? ==> ctl.local.manifest == w.version)
  }

  // The deployment was told to run the version, and is not about to be told otherwise.
  ghost predicate DeploysFirmly(w: Goal, f: Fleet, d: string) {
    Deploys(f, d, w.version) && d in f.controllers && TargetsIt(w, f.controllers[d])
  }

  lemma SeenDuration(h: History, version: string, limit: int, now: int)
    requires AllHealthy(h) && SeenIn(h, version, limit)
    ensures now - limit <= HealthyDuration(h, version, now)
  {
    hide FirstIndex;
    UntilIsLastFault(h, FirstIndex(h, version), now);
    assert h[FirstIndex(h, version)].version == version;
    assert !Vetoed(h, version);
  }

  lemma EndsOn(h: History, version: string, limit: int)
    requires SeenIn(h, version, limit)
    ensures h != [] && Statuses.Last(h).version == version
  {
  }

  lemma RipeChoice(reports: seq<Report>, after: DeployAfter, version: string, now: int)
    requires after.deployments != [] && UniqueNames(reports) && version != ""
    requires HasReport(reports, after.deployments[0])
    requires forall i :: 0 <= i < |reports| && reports[i].deploymentName in after.deployments ==>
               AllHealthy(reports[i].statuses) && SeenIn(reports[i].statuses, version, now - after.bakeTime)
    ensures NextVersion(reports, after, now) == version
  {
    hide SeenIn, HealthyDuration, Candidates, FirstQualifying;
    forall i | 0 <= i < |reports| && reports[i].deploymentName in after.deployments
      ensures after.bakeTime <= HealthyDuration(reports[i].statuses, version, now)
    {
      SeenDuration(reports[i].statuses, version, now - after.bakeTime, now);
    }
    var k :| 0 <= k < |reports| && reports[k].deploymentName == after.deployments[0];
    assert reports[k].deploymentName in after.deployments;
    EndsOn(reports[k].statuses, version, now - after.bakeTime);
    NewestQualifyingIsChosen(reports, k, after, version, now);
  }

  // A ripe deployment that decides chooses the version.
  lemma RipeDecides(w: Goal, f: Fleet, d: string)
    requires Good(w, f) && d in f.controllers && f.controllers[d].local.Deciding?
    requires With(w.c, d) == [] && After(w.c, d).deployments != [] && Ripe(w, f, d)
    ensures var ctl := R.Decide(f.controllers[d], f.clock); ctl.local.Pulling? && ctl.local.target == w.version
  {
    hide Good, Inv, AllRecorded, SeenIn, NextVersion, HistoryAt, With, After, RequiredBy, Loads, R.Required;
    GoodParts(w, f, d);
    var l, reports := f.controllers[d].local, f.controllers[d].stored.reports;
    LoadsConditions(w.c, d, l.config, l.mem);
    forall i | 0 <= i < |reports| && reports[i].deploymentName in After(w.c, d).deployments
      ensures AllHealthy(reports[i].statuses)
      ensures SeenIn(reports[i].statuses, w.version, f.clock - After(w.c, d).bakeTime)
    {
      var e := reports[i].deploymentName;
      ReportIsHistory(f, d, i);
      HistoryFacts(w, f, d, e);
      assert SeenFirmly(w, f, d, e, f.clock - After(w.c, d).bakeTime);
    }
    RequiredHasAfter(w.c, d, l.mem);
    RipeChoice(reports, After(w.c, d), w.version, f.clock);
  }

  lemma ReportIsHistory(f: Fleet, d: string, i: nat)
    requires d in f.controllers && i < |f.controllers[d].stored.reports| && UniqueNames(f.controllers[d].stored.reports)
    ensures var report := f.controllers[d].stored.reports[i]; report.statuses == HistoryAt(f, d, report.deploymentName)
  {
    hide StatusesOf;
    R.ReportIndexOfDistinct(f.controllers[d].stored.reports, i);
  }

  lemma LoadsConditions(c: Config, d: string, config: Config, mem: R.PropagationStatus)
    requires Loads(c, d, config, mem)
    ensures config == c && mem.deployConditions.deployWith == With(c, d)
            && mem.deployConditions.deployAfter == After(c, d)
    ensures R.Required(mem.deployConditions) == RequiredBy(c, d)
  {
    hide AfterOf, WithOf;
  }

  lemma RequiredHasAfter(c: Config, d: string, mem: R.PropagationStatus)
    requires mem.deployConditions.deployAfter == After(c, d) && After(c, d).deployments != []
    ensures After(c, d).deployments[0] in R.Required(mem.deployConditions)
  {
    hide After;
  }

  lemma ManifestOf(w: Goal, f: Fleet, d: string, i: nat)
    requires Good(w, f) && w.FirstWave() < i <= w.LastWave() && d in Members(w, i)
    ensures var tag := R.ManifestTag(d, w.version);
            tag in f.backend.manifests && f.backend.manifests[tag] == w.version
  {
    hide PublicationsInv, ObservationsInv, StatusesInv, VersionsInv, ControllersInv, AllTidy, AllInSync, WellFormed,
      PositiveBakes, Flatten;
    assert R.ManifestTag(d, w.version).tag != DEFAULT_TAG;
  }

  lemma RipeStays(w: Goal, f: Fleet, ev: Event, d: string)
    requires Good(w, f) && Known(w.c, d) && Ripe(w, f, d)
    requires forall e <- After(w.c, d).deployments :: e in RequiredBy(w.c, d) && Shows(f, e, w.version)
    ensures Ripe(w, Step(w.c, f, ev), d)
  {
    hide Good, Step, SeenFirmly, Shows, After, RequiredBy, WaveIndex, Flatten;
    var g, bake := Step(w.c, f, ev), After(w.c, d).bakeTime;
    NothingIsLost(w.c, f, ev);
    forall e <- After(w.c, d).deployments ensures SeenFirmly(w, g, d, e, g.clock - bake) {
      SeenStays(w, f, ev, d, e, f.clock - bake);
      SeenLater(w, g, d, e, f.clock - bake, g.clock - bake);
    }
  }

  // Only the last steps of a reconcile decide what to deploy.
  lemma OthersTargetNothing(c: Config, f: Fleet, d: string, ev: Event)
    requires By(ev, d) && d in f.controllers && !ev.Decide? && !ev.Pull? && !ev.Deploy?
    ensures var g := ControllerStep(c, f, d, ev);
            && d in g.controllers && g.backend.deploys == f.backend.deploys
            && (g.controllers[d].local.Pulling? || g.controllers[d].local.Deploying? ==>
                  g.controllers[d].local == f.controllers[d].local)
  {
    hide FetchOne, AllFetched, AliasedReports, PolledReports, ConditionsOf, NotePublication, NoteObservation,
      R.Required;
  }

  // Pulling and deploying the version.
  lemma PullTargets(w: Goal, f: Fleet, d: string, ctl: R.Controller, reachable: bool)
    requires TargetsIt(w, ctl)
    requires var tag := R.ManifestTag(d, w.version); tag in f.backend.manifests && f.backend.manifests[tag] == w.version
    ensures TargetsIt(w, R.Pull(d, ctl, f.backend, reachable))
  {
  }

  lemma DeployTargets(w: Goal, d: string, ctl: R.Controller, b: R.Backend, published: bool)
    requires TargetsIt(w, ctl)
    ensures var (ctl', b') := R.Deploy(d, ctl, b, published);
            && TargetsIt(w, ctl')
            && (d in b.deploys && b.deploys[d] == w.version ==> d in b'.deploys && b'.deploys[d] == w.version)
            && (ctl.local.Deploying? && published ==> d in b'.deploys && b'.deploys[d] == w.version)
  {
  }

  lemma DecideTargets(w: Goal, f: Fleet, d: string)
    requires Good(w, f) && d in f.controllers && TargetsIt(w, f.controllers[d])
    requires With(w.c, d) == [] && After(w.c, d).deployments != [] && Ripe(w, f, d)
    ensures TargetsIt(w, R.Decide(f.controllers[d], f.clock))
  {
    hide Good, With, After, Ripe, NextVersion, R.FirstBlocker;
    if f.controllers[d].local.Deciding? {
      RipeDecides(w, f, d);
    }
  }

  // What a step of a ripe deployment behind the first wave does to what it is told.
  lemma OwnStepTargets(w: Goal, f: Fleet, d: string, ev: Event, i: nat)
    requires Good(w, f) && By(ev, d) && d in f.controllers && TargetsIt(w, f.controllers[d])
    requires w.FirstWave() < i <= w.LastWave() && d in Members(w, i) && Ripe(w, f, d)
    ensures var g := ControllerStep(w.c, f, d, ev);
            && d in g.controllers && TargetsIt(w, g.controllers[d])
            && (Deploys(f, d, w.version) ==> Deploys(g, d, w.version))
            && (ev.Deploy? && ev.published && f.controllers[d].local.Deploying? ==> Deploys(g, d, w.version))
  {
    hide Good, Sound, Inv, ControllerInv, Tidy, InSync, Ripe, R.Decide, R.Pull, R.Deploy, R.PublishOwn, R.Load,
      R.EndPoll, R.Fetch, NotePublication, NoteObservation, Members, TargetsIt, With, After, Flatten;
    GoodParts(w, f, d);
    if ev.Decide? {
      BehindTheFirstWave(w, i, d);
      DecideTargets(w, f, d);
    } else if ev.Pull? {
      ManifestOf(w, f, d, i);
      PullTargets(w, f, d, f.controllers[d], ev.reachable);
    } else if ev.Deploy? {
      DeployTargets(w, d, f.controllers[d], f.backend, ev.published);
    } else {
      OthersTargetNothing(w.c, f, d, ev);
      SameTargets(w, f.controllers[d], ControllerStep(w.c, f, d, ev).controllers[d]);
    }
  }

  lemma SameTargets(w: Goal, ctl: R.Controller, ctl': R.Controller)
    requires TargetsIt(w, ctl) && (ctl'.local.Pulling? || ctl'.local.Deploying? ==> ctl'.local == ctl.local)
    ensures TargetsIt(w, ctl')
  {
  }

  lemma DeploysStays(w: Goal, f: Fleet, ev: Event, d: string, i: nat)
    requires Good(w, f) && w.FirstWave() < i <= w.LastWave() && d in Members(w, i)
    requires Ripe(w, f, d) && DeploysFirmly(w, f, d)
    ensures DeploysFirmly(w, Step(w.c, f, ev), d)
  {
    hide Good, Step, ControllerStep, Ripe, Members, TargetsIt, Flatten;
    if By(ev, d) {
      OwnStepIs(w.c, f, ev, d);
      OwnStepTargets(w, f, d, ev, i);
    } else {
      OthersUntouched(w.c, f, ev, d);
    }
  }

  lemma RunsStays(w: Goal, f: Fleet, ev: Event, d: string)
    requires Deploys(f, d, w.version)
    ensures Runs(f, d, w.version) || ev == Apply(d) ==> Runs(Step(w.c, f, ev), d, w.version)
  {
    hide Step;
    NothingIsLost(w.c, f, ev);
  }
}
