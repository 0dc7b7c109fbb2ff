// The stages of a rollout: how the version spreads from the first wave to the last, one reconcile of each
// deployment at a time, while all other steps go on.
module FleetProgress {
  import opened Wrappers
  import opened Topology
  import opened Propagation
  import R = Reconciliation
  import opened Fleet
  import opened FleetSchedule
  import opened FleetSteps

  // ---------------------------------------------------------------- reconciles in which no call fails

  // No call of the step fails. What a call finds is another matter.
  predicate Clean(ev: Event) {
    match ev
    case Load(_, configFetched, persisted, readied) => configFetched && persisted && readied
    case Publish(_, published, persisted) => published && persisted
    case Fetch(_, _, reachable) => reachable
    case EndPoll(_, persisted) => persisted
    case Pull(_, reachable) => reachable
    case Deploy(_, published) => published
    case Crash(_) => false
    case _ => true
  }

  // All that is required is published.
  ghost predicate Available(w: Goal, f: Fleet, d: string) {
    forall s <- RequiredBy(w.c, d) :: s in f.backend.statuses
  }

  // The poll under way, if there is one, has met no failure.
  ghost predicate PollsWell(w: Goal, d: string, ctl: R.Controller) {
    ctl.local.Polls? ==> forall s <- RequiredBy(w.c, d) :: s in ctl.local.fetched ==> ctl.local.fetched[s].Some?
  }

  lemma FetchGoesWell(w: Goal, f: Fleet, d: string, ctl: R.Controller, subject: string)
    requires PollsWell(w, d, ctl) && Available(w, f, d)
    ensures PollsWell(w, d, R.Fetch(ctl, f.backend, subject, true, f.clock))
  {
    hide R.Required, RequiredBy;
  }

  // Where a clean step takes a reconcile under way.
  lemma CleanStepGoes(w: Goal, f: Fleet, d: string, ev: Event)
    requires Good(w, f) && By(ev, d) && Clean(ev) && d in f.controllers && !f.controllers[d].local.Idle?
    requires PollsWell(w, d, f.controllers[d]) && Available(w, f, d)
    ensures var ctl, ctl' := f.controllers[d], StepOf(w.c, f, d, ev);
            || ctl' == ctl
            || (ctl.local.Loaded? && ev.Publish? && ctl'.local.Polls? && ctl'.local.fetched == map[])
            || (ctl.local.Polls? && ev.Fetch? && ctl'.local.Polls? && PollsWell(w, d, ctl'))
            || (ctl.local.Polls? && ev.EndPoll? && ctl'.local.Deciding?)
            || (ctl.local.Deciding? && ev.Decide? && ctl' == R.Decide(ctl, f.clock)
                && (ctl'.local.Pulling? || ctl'.local.Idle?))
            || (ctl.local.Pulling? && ev.Pull? && ctl' == R.Pull(d, ctl, f.backend, true))
            || (ctl.local.Deploying? && ev.Deploy? && ctl'.local.Idle?)
  {
    hide Good, Sound, Tidy, ControllerInv, Available, PollsWell, R.Fetch, R.EndPoll, R.PublishOwn, R.Load, R.Decide,
      R.Pull, R.Deploy, NotePublication, NoteObservation;
    GoodParts(w, f, d);
    var ctl := f.controllers[d];
    match ev
    case Load(_, _, _, _) =>
    case Publish(_, _, _) => CleanPublishGoes(d, ctl, f.backend);
    case Fetch(_, subject, _) =>
      FetchIsTidy(w.c, d, ctl, f.backend, subject, true, f.clock);
      FetchGoesWell(w, f, d, ctl, subject);
    case EndPoll(_, _) =>
      EndPollIsTidy(w, d, ctl, true, f.evidence, f.clock);
      WellPolledIsFetched(w, d, ctl);
    case Decide(_) => LaterIsTidy(w.c, d, ctl, f.backend, true, f.clock);
      DecideGoes(ctl, f.clock);
    case Pull(_, _) => PullGoes(d, ctl, f.backend);
    case Deploy(_, _) => DeployGoes(d, ctl, f.backend);
  }

  lemma CleanPublishGoes(d: string, ctl: R.Controller, b: R.Backend)
    ensures var ctl' := R.PublishOwn(d, ctl, b, true, true).0;
            ctl' == ctl || (ctl.local.Loaded? && ctl'.local.Polls? && ctl'.local.fetched == map[])
  {
  }

  lemma WellPolledIsFetched(w: Goal, d: string, ctl: R.Controller)
    requires PollsWell(w, d, ctl)
    ensures ctl.local.Polls? && (forall s <- RequiredBy(w.c, d) :: s in ctl.local.fetched) ==>
              AllFetched(RequiredBy(w.c, d), ctl.local.fetched)
  {
    hide RequiredBy;
  }

  lemma DecideGoes(ctl: R.Controller, now: int)
    ensures !ctl.local.Deciding? ==> R.Decide(ctl, now) == ctl
    ensures ctl.local.Deciding? ==> R.Decide(ctl, now).local.Pulling? || R.Decide(ctl, now).local.Idle?
  {
    hide R.FirstBlocker;
  }

  lemma PullGoes(d: string, ctl: R.Controller, b: R.Backend)
    ensures !ctl.local.Pulling? ==> R.Pull(d, ctl, b, true) == ctl
  {
  }

  lemma DeployGoes(d: string, ctl: R.Controller, b: R.Backend)
    ensures !ctl.local.Deploying? ==> R.Deploy(d, ctl, b, true).0 == ctl
    ensures ctl.local.Deploying? ==> R.Deploy(d, ctl, b, true).0.local.Idle?
  {
  }

  // ---------------------------------------------------------------- stages

  ghost predicate WaveShows(w: Goal, f: Fleet, i: nat) {
    forall d <- Members(w, i) :: ShowsFirmly(w, f, d)
  }

  ghost predicate WaveRuns(w: Goal, f: Fleet, i: nat) {
    forall d <- Members(w, i) :: Runs(f, d, w.version)
  }

  // The wave runs the goal's version for good.
  ghost predicate WaveOn(w: Goal, f: Fleet, i: nat)
    requires w.InRange()
  {
    WaveRuns(w, f, i) && (i > w.FirstWave() ==> forall d <- Members(w, i) :: Ripe(w, f, d) && DeploysFirmly(w, f, d))
  }

  // So do all waves up to `i`, and those before it show it.
  ghost predicate UpTo(w: Goal, f: Fleet, i: nat) {
    && w.InRange() && w.FirstWave() <= i <= w.LastWave()
    && (forall j :: w.FirstWave() <= j <= i ==> WaveOn(w, f, j))
    && (forall j :: w.FirstWave() <= j < i ==> WaveShows(w, f, j))
  }

  ghost predicate ShownUpTo(w: Goal, f: Fleet, i: nat) {
    UpTo(w, f, i) && WaveShows(w, f, i)
  }

  datatype Stage =
    // Wave i gets to show the version; wave i to see it in the wave before, be told to run it, and run it;
    // and in the end the first wave sees it everywhere.
    | Publishing(i: nat)
    | Observing(i: nat)
    | Choosing(i: nat)
    | RollingOut(i: nat)
    | Watching

  predicate StageFits(w: Goal, stage: Stage) {
    && w.InRange()
    && match stage
       case Publishing(i) => w.FirstWave() <= i <= w.LastWave()
       case Watching => true
       case _ => w.FirstWave() < stage.i <= w.LastWave()
  }

  function Crew(w: Goal, stage: Stage): seq<string>
    requires w.InRange()
  {
    if stage.Watching? then Members(w, w.FirstWave()) else Members(w, stage.i)
  }

  predicate Watches(stage: Stage) {
    stage.Observing? || stage.Watching?
  }

  function Listed(w: Goal, stage: Stage, d: string): seq<string> {
    if stage.Watching? then With(w.c, d) else After(w.c, d).deployments
  }

  ghost predicate SeenAll(w: Goal, f: Fleet, stage: Stage, d: string, limit: int) {
    forall e <- Listed(w, stage, d) :: SeenFirmly(w, f, d, e, limit)
  }

  ghost predicate Underway(w: Goal, f: Fleet, stage: Stage) {
    && StageFits(w, stage)
    && match stage
       case Publishing(i) => UpTo(w, f, i)
       case Observing(i) => ShownUpTo(w, f, i - 1)
       case Choosing(i) => ShownUpTo(w, f, i - 1) && forall d <- Members(w, i) :: Ripe(w, f, d)
       case RollingOut(i) =>
         ShownUpTo(w, f, i - 1) && forall d <- Members(w, i) :: Ripe(w, f, d) && DeploysFirmly(w, f, d)
       case Watching => ShownUpTo(w, f, w.LastWave())
  }

  // What each deployment of the stage's wave has to get done.
  ghost predicate Done(w: Goal, f: Fleet, stage: Stage, d: string) {
    match stage
    case Publishing(_) => ShowsFirmly(w, f, d)
    case Choosing(_) => DeploysFirmly(w, f, d)
    case RollingOut(_) => Runs(f, d, w.version)
    case _ => SeenAll(w, f, stage, d, f.clock)
  }

  // ---------------------------------------------------------------- stages under way stay so

  lemma WaveRunsMember(w: Goal, f: Fleet, i: nat, d: string)
    requires WaveRuns(w, f, i) && d in Members(w, i)
    ensures Runs(f, d, w.version)
  {
  }

  lemma SoundOf(w: Goal, f: Fleet)
    requires Good(w, f)
    ensures Sound(w)
  {
    hide Sound, Inv, AllTidy, AllInSync, Equipped;
  }

  lemma WaveShowsStays(w: Goal, f: Fleet, ev: Event, i: nat)
    requires Good(w, f) && WaveRuns(w, f, i) && WaveShows(w, f, i)
    ensures WaveShows(w, Step(w.c, f, ev), i)
  {
    hide Good, ShowsFirmly, Runs, Members, Step;
    forall d <- Members(w, i) ensures ShowsFirmly(w, Step(w.c, f, ev), d) {
      ShowsStays(w, f, ev, d);
    }
  }

  // A ripe member of a later wave stays ripe, and told what it is told.
  lemma MemberStaysRipe(w: Goal, f: Fleet, ev: Event, i: nat, d: string)
    requires w.InRange() && Good(w, f) && w.FirstWave() < i <= w.LastWave() && d in Members(w, i)
    requires WaveShows(w, f, i - 1) && Ripe(w, f, d)
    ensures Ripe(w, Step(w.c, f, ev), d)
    ensures DeploysFirmly(w, f, d) ==> DeploysFirmly(w, Step(w.c, f, ev), d)
  {
    hide Good, Sound, Ripe, DeploysFirmly, Members, Step, With, After, RequiredBy, WaveIndex, Flatten, ConditionsOf,
      Shows;
    SoundOf(w, f);
    MembersKnown(w, i, d);
    BehindTheFirstWave(w, i, d);
    forall e <- After(w.c, d).deployments ensures e in RequiredBy(w.c, d) && Shows(f, e, w.version) {
      assert ShowsFirmly(w, f, e);
    }
    RipeStays(w, f, ev, d);
    if DeploysFirmly(w, f, d) {
      DeploysStays(w, f, ev, d, i);
    }
  }

  lemma WaveOnStays(w: Goal, f: Fleet, ev: Event, i: nat)
    requires w.InRange() && Good(w, f) && w.FirstWave() <= i <= w.LastWave() && WaveOn(w, f, i)
    requires WaveRuns(w, Step(w.c, f, ev), w.FirstWave())
    requires i > w.FirstWave() ==> WaveShows(w, f, i - 1)
    ensures WaveOn(w, Step(w.c, f, ev), i)
  {
    hide Good, WaveShows, Ripe, DeploysFirmly, Runs, Members, Flatten, Step;
    if i > w.FirstWave() {
      var g := Step(w.c, f, ev);
      forall d <- Members(w, i) ensures Ripe(w, g, d) && DeploysFirmly(w, g, d) && Runs(g, d, w.version) {
        MemberStaysRipe(w, f, ev, i, d);
        RunsOn(w, f, ev, d);
      }
    }
  }

  lemma RunsOn(w: Goal, f: Fleet, ev: Event, d: string)
    requires DeploysFirmly(w, f, d)
    ensures Runs(f, d, w.version) || ev == Apply(d) ==> Runs(Step(w.c, f, ev), d, w.version)
  {
    hide Step, Runs;
    RunsStays(w, f, ev, d);
  }

  lemma UpToStays(w: Goal, f: Fleet, ev: Event, i: nat)
    requires w.InRange() && Good(w, f) && UpTo(w, f, i) && WaveRuns(w, Step(w.c, f, ev), w.FirstWave())
    ensures UpTo(w, Step(w.c, f, ev), i)
    ensures WaveShows(w, f, i) ==> WaveShows(w, Step(w.c, f, ev), i)
  {
    hide Good, WaveShows, WaveRuns, Ripe, DeploysFirmly, Members, Flatten, Step;
    var g := Step(w.c, f, ev);
    forall j | w.FirstWave() <= j <= i ensures WaveOn(w, g, j) {
      assert WaveOn(w, f, j);
      WaveOnStays(w, f, ev, j);
    }
    forall j | w.FirstWave() <= j <= i && WaveShows(w, f, j) ensures WaveShows(w, g, j) {
      assert WaveOn(w, f, j);
      WaveShowsStays(w, f, ev, j);
    }
  }

  lemma UnderwayStays(w: Goal, f: Fleet, ev: Event, stage: Stage)
    requires w.InRange() && Good(w, f) && Underway(w, f, stage) && WaveRuns(w, Step(w.c, f, ev), w.FirstWave())
    ensures Underway(w, Step(w.c, f, ev), stage)
  {
    hide Good, UpTo, WaveShows, WaveRuns, Ripe, DeploysFirmly, Members, Flatten, Step;
    match stage
    case Publishing(i) => UpToStays(w, f, ev, i);
    case Watching => UpToStays(w, f, ev, w.LastWave());
    case _ =>
      UpToStays(w, f, ev, stage.i - 1);
      var g := Step(w.c, f, ev);
      forall d | d in Members(w, stage.i) && Ripe(w, f, d)
        ensures Ripe(w, g, d) && (DeploysFirmly(w, f, d) ==> DeploysFirmly(w, g, d))
      {
        MemberStaysRipe(w, f, ev, stage.i, d);
      }
  }

  lemma MemberListed(w: Goal, f: Fleet, i: nat, d: string)
    requires Sound(w) && w.FirstWave() < i <= w.LastWave() && d in Members(w, i) && WaveShows(w, f, i - 1)
    ensures Known(w.c, d) && ConditionsOf(w.c, d).Some? && Available(w, f, d)
    ensures forall e <- After(w.c, d).deployments :: e in RequiredBy(w.c, d) && Shows(f, e, w.version)
  {
    hide WellFormed, PositiveBakes, WaveIndex, Flatten, Shows, Members, After, With, ConditionsOf, RequiredBy;
    MembersKnown(w, i, d);
    BehindTheFirstWave(w, i, d);
    forall e <- After(w.c, d).deployments ensures Shows(f, e, w.version) && e in f.backend.statuses {
      assert ShowsFirmly(w, f, e);
      ShownIsThere(f, e, w.version);
    }
  }

  lemma WatcherListed(w: Goal, f: Fleet, d: string)
    requires Sound(w) && d in Members(w, w.FirstWave())
    requires forall j :: w.FirstWave() < j <= w.LastWave() ==> WaveShows(w, f, j)
    requires w.FirstWave() > 0 ==> forall e <- Members(w, w.FirstWave() - 1) :: e in f.backend.statuses
    ensures Known(w.c, d) && ConditionsOf(w.c, d).Some? && Available(w, f, d)
    ensures forall e <- With(w.c, d) :: e in RequiredBy(w.c, d) && Shows(f, e, w.version)
  {
    hide WellFormed, PositiveBakes, WaveIndex, Flatten, Shows, Members, After, With, ConditionsOf, RequiredBy;
    MembersKnown(w, w.FirstWave(), d);
    ConditionsAre(w.c, d);
    forall e <- With(w.c, d) ensures Shows(f, e, w.version) && e in f.backend.statuses {
      var j :| w.FirstWave() < j <= w.LastWave() && e in Members(w, j);
      assert WaveShows(w, f, j);
      assert ShowsFirmly(w, f, e);
      ShownIsThere(f, e, w.version);
    }
    forall e <- After(w.c, d).deployments ensures e in f.backend.statuses {
      assert e in Members(w, w.FirstWave() - 1);
    }
  }

  // Everyone listed is polled and shows the version; the others that are polled have published.
  lemma ListedShow(w: Goal, f: Fleet, stage: Stage, d: string)
    requires w.InRange() && Good(w, f) && Underway(w, f, stage) && d in Crew(w, stage)
    requires Watches(stage) || stage.Choosing?
    ensures Known(w.c, d) && ConditionsOf(w.c, d).Some? && Available(w, f, d) && Managed(f, d)
    ensures forall e <- Listed(w, stage, d) :: e in RequiredBy(w.c, d) && Shows(f, e, w.version)
  {
    hide Sound, Inv, AllTidy, AllInSync, Flatten, Ripe, Shows, Members, After, With, WaveOn, WaveShows, RequiredBy,
      Available;
    SoundOf(w, f);
    if stage.Watching? {
      WatcherListed(w, f, d);
    } else {
      MemberListed(w, f, stage.i, d);
    }
  }

  lemma ShownIsThere(f: Fleet, d: string, version: string)
    requires Shows(f, d, version)
    ensures d in f.backend.statuses
  {
  }

  lemma SightsStay(w: Goal, f: Fleet, ev: Event, stage: Stage, d: string, limit: int)
    requires w.InRange() && Good(w, f) && Underway(w, f, stage) && Watches(stage) && d in Crew(w, stage)
    requires SeenAll(w, f, stage, d, limit)
    ensures SeenAll(w, Step(w.c, f, ev), stage, d, limit)
  {
    hide Good, Shows, SeenFirmly, RequiredBy, WaveIndex, Flatten, Members, Underway, Crew, Step, Listed, Available;
    ListedShow(w, f, stage, d);
    forall e <- Listed(w, stage, d) ensures SeenFirmly(w, Step(w.c, f, ev), d, e, limit) {
      SeenStays(w, f, ev, d, e, limit);
    }
  }

  lemma SightsAge(w: Goal, f: Fleet, stage: Stage, d: string, limit: int, later: int)
    requires SeenAll(w, f, stage, d, limit) && limit <= later
    ensures SeenAll(w, f, stage, d, later)
  {
    hide SeenFirmly, Listed;
    forall e <- Listed(w, stage, d) ensures SeenFirmly(w, f, d, e, later) {
      SeenLater(w, f, d, e, limit, later);
    }
  }

  lemma DoneStays(w: Goal, f: Fleet, ev: Event, stage: Stage, d: string)
    requires w.InRange() && Good(w, f) && Underway(w, f, stage) && d in Crew(w, stage) && Done(w, f, stage, d)
    ensures Done(w, Step(w.c, f, ev), stage, d)
  {
    hide Good, ShowsFirmly, DeploysFirmly, Runs, SeenAll, WaveIndex, Flatten, Members, WaveShows, Ripe, Step;
    match stage
    case Publishing(i) =>
      assert WaveOn(w, f, i);
      WaveRunsMember(w, f, i, d);
      ShowsStays(w, f, ev, d);
    case Choosing(i) => MemberStaysRipe(w, f, ev, i, d);
    case RollingOut(i) => RunsOn(w, f, ev, d);
    case _ =>
      SightsStay(w, f, ev, stage, d, f.clock);
      NothingIsLost(w.c, f, ev);
      SightsAge(w, Step(w.c, f, ev), stage, d, f.clock, Step(w.c, f, ev).clock);
  }

  // ---------------------------------------------------------------- one reconcile within a stage

  // What holds of a deployment whose reconcile started in the stage and met no failure since; once the
  // reconcile has ended, it has done what the stage asks for.
  ghost predicate OnTrack(w: Goal, f: Fleet, stage: Stage, d: string) {
    d in f.controllers &&
    var ctl := f.controllers[d];
    match stage
    case Publishing(_) => LoadsIt(w, ctl) && (!ctl.local.Loaded? ==> ShowsFirmly(w, f, d))
    case Choosing(_) => TargetsIt(w, ctl) && PollsWell(w, d, ctl) && (ctl.local.Idle? ==> DeploysFirmly(w, f, d))
    case RollingOut(_) => true
    case _ =>
      && PollsWell(w, d, ctl)
      && (ctl.local.Polls? ==> forall e <- Listed(w, stage, d) :: FetchedIt(w, ctl, e))
      && (!ctl.local.Loaded? && !ctl.local.Polls? ==> SeenAll(w, f, stage, d, f.clock))
  }

  lemma EndsDone(w: Goal, f: Fleet, stage: Stage, d: string)
    requires OnTrack(w, f, stage, d) && f.controllers[d].local.Idle? && !stage.RollingOut?
    ensures Done(w, f, stage, d)
  {
    hide SeenAll, PollsWell;
  }

  // It starts on track,
  lemma StartsOnTrack(w: Goal, f: Fleet, ev: Event, stage: Stage, d: string)
    requires w.InRange() && Good(w, f) && Underway(w, f, stage) && d in Crew(w, stage)
    requires By(ev, d) && ev.Load? && d in f.controllers && f.controllers[d].local.Idle?
    requires StepOf(w.c, f, d, ev).local.Loaded?
    ensures OnTrack(w, ControllerStep(w.c, f, d, ev), stage, d)
  {
    hide Good, Inv, R.Load, SeenAll, Members, WaveShows, Ripe, DeploysFirmly, Flatten, PollsWell;
    var ctl := f.controllers[d];
    LoadIsTidy(w.c, d, ctl, if ev.configFetched then Some(w.c) else None, OwnVersion(f, d), ev.persisted, ev.readied);
    LoadedPollsNothing(w, d, StepOf(w.c, f, d, ev));
    if stage.Publishing? {
      assert WaveOn(w, f, stage.i);
      WaveRunsMember(w, f, stage.i, d);
    }
  }

  lemma LoadedPollsNothing(w: Goal, d: string, ctl: R.Controller)
    ensures !ctl.local.Polls? ==> PollsWell(w, d, ctl)
    ensures ctl.local.Polls? && ctl.local.fetched == map[] ==> PollsWell(w, d, ctl) && forall e :: FetchedIt(w, ctl, e)
  {
  }

  // stays so while others act,
  lemma OthersLeaveOnTrack(w: Goal, f: Fleet, ev: Event, stage: Stage, d: string)
    requires w.InRange() && Good(w, f) && Underway(w, f, stage) && d in Crew(w, stage)
    requires OnTrack(w, f, stage, d) && !By(ev, d)
    ensures OnTrack(w, Step(w.c, f, ev), stage, d)
  {
    hide Good, SeenAll, Members, WaveShows, Ripe, Flatten, PollsWell, Step, Shows, Deploys, LoadsIt, TargetsIt,
      FetchedIt, Underway;
    OthersUntouched(w.c, f, ev, d);
    var g := Step(w.c, f, ev);
    if Watches(stage) && SeenAll(w, f, stage, d, f.clock) {
      DoneStays(w, f, ev, stage, d);
    }
    ShownElsewhere(f, g, d, w.version);
  }

  lemma ShownElsewhere(f: Fleet, g: Fleet, d: string, version: string)
    requires d in g.backend.statuses <==> d in f.backend.statuses
    requires d in f.backend.statuses ==> g.backend.statuses[d] == f.backend.statuses[d]
    requires d in g.backend.deploys <==> d in f.backend.deploys
    requires d in f.backend.deploys ==> g.backend.deploys[d] == f.backend.deploys[d]
    ensures Shows(f, d, version) <==> Shows(g, d, version)
    ensures Deploys(f, d, version) <==> Deploys(g, d, version)
  {
  }

  // and through each clean step of its own: first when it is to show the version,
  lemma PublisherOnTrack(w: Goal, f: Fleet, ev: Event, i: nat, d: string)
    requires w.InRange() && Good(w, f) && Underway(w, f, Publishing(i)) && d in Members(w, i)
    requires OnTrack(w, f, Publishing(i), d) && By(ev, d) && Clean(ev)
    ensures OnTrack(w, ControllerStep(w.c, f, d, ev), Publishing(i), d)
  {
    hide Good, Members, WaveShows, Ripe, DeploysFirmly, Flatten, ControllerStep, Shows, LoadsIt;
    assert WaveOn(w, f, i);
    WaveRunsMember(w, f, i, d);
    OwnStepLoads(w, f, d, ev);
    OwnStepShows(w, f, d, ev);
    if f.controllers[d].local.Loaded? {
      OnlyPublishLeavesLoaded(w.c, f, d, ev);
    }
  }

  lemma OnlyPublishLeavesLoaded(c: Config, f: Fleet, d: string, ev: Event)
    requires By(ev, d) && Clean(ev) && d in f.controllers && f.controllers[d].local.Loaded?
    ensures var g := ControllerStep(c, f, d, ev);
            d in g.controllers && (!g.controllers[d].local.Loaded? ==> ev.Publish?)
  {
    hide R.Load, NotePublication, NoteObservation;
  }

  // then when it is to see it,
  lemma WatcherOnTrack(w: Goal, f: Fleet, ev: Event, stage: Stage, d: string)
    requires w.InRange() && Good(w, f) && Underway(w, f, stage) && Watches(stage) && d in Crew(w, stage)
    requires OnTrack(w, f, stage, d) && By(ev, d) && Clean(ev) && !f.controllers[d].local.Idle?
    ensures OnTrack(w, ControllerStep(w.c, f, d, ev), stage, d)
  {
    hide Good, SeenAll, Members, Flatten, PollsWell, Step, ControllerStep, Shows, FetchedIt, Underway, Available,
      Listed, RequiredBy, Crew, R.Decide, R.Pull;
    var g := ControllerStep(w.c, f, d, ev);
    var ctl := f.controllers[d];
    ListedShow(w, f, stage, d);
    OwnStepIs(w.c, f, ev, d);
    NothingIsLost(w.c, f, ev);
    KeysStay(f, g, d);
    CleanStepGoes(w, f, d, ev);
    var ctl' := g.controllers[d];
    LoadedPollsNothing(w, d, ctl');
    if !ctl.local.Loaded? && !ctl.local.Polls? {
      DoneStays(w, f, ev, stage, d);
      DecidedIsPast(d, ctl, f.backend, f.clock);
    } else if ctl'.local.Deciding? {
      PolledIsSeen(w, f, ev, stage, d);
    } else if ctl'.local.Polls? && ctl.local.Polls? {
      FetchesAreIt(w, f, ev, stage, d);
    }
  }

  lemma KeysStay(f: Fleet, g: Fleet, d: string)
    requires g.controllers.Keys == f.controllers.Keys && d in f.controllers
    ensures d in g.controllers
  {
  }

  lemma DecidedIsPast(d: string, ctl: R.Controller, b: R.Backend, now: int)
    ensures ctl.local.Deciding? ==> !R.Decide(ctl, now).local.Loaded? && !R.Decide(ctl, now).local.Polls?
    ensures ctl.local.Pulling? ==> !R.Pull(d, ctl, b, true).local.Loaded? && !R.Pull(d, ctl, b, true).local.Polls?
  {
    hide R.FirstBlocker;
  }

  lemma PolledIsSeen(w: Goal, f: Fleet, ev: Event, stage: Stage, d: string)
    requires Good(w, f) && Known(w.c, d) && By(ev, d) && ev.EndPoll? && d in f.controllers
    requires forall e <- Listed(w, stage, d) :: e in RequiredBy(w.c, d) && FetchedIt(w, f.controllers[d], e)
    requires f.controllers[d].local.Polls? && StepOf(w.c, f, d, ev).local.Deciding?
    ensures var g := ControllerStep(w.c, f, d, ev); SeenAll(w, g, stage, d, g.clock) && g.clock == f.clock
  {
    hide Good, ControllerStep, Seen, FetchedIt, RequiredBy, Listed, WaveIndex, Flatten;
    var g := ControllerStep(w.c, f, d, ev);
    ClockStands(w.c, f, d, ev);
    forall e <- Listed(w, stage, d) ensures SeenFirmly(w, g, d, e, g.clock) {
      EndPollSees(w, f, d, ev, e);
    }
  }

  lemma ClockStands(c: Config, f: Fleet, d: string, ev: Event)
    requires By(ev, d) && d in f.controllers
    ensures ControllerStep(c, f, d, ev).clock == f.clock
  {
    hide R.Load, R.Fetch, R.EndPoll, R.Decide, R.Pull, R.Deploy, R.PublishOwn, NotePublication, NoteObservation;
  }

  lemma FetchesAreIt(w: Goal, f: Fleet, ev: Event, stage: Stage, d: string)
    requires Good(w, f) && By(ev, d) && d in f.controllers && d in ControllerStep(w.c, f, d, ev).controllers
    requires ev.Fetch? || StepOf(w.c, f, d, ev) == f.controllers[d]
    requires forall e <- Listed(w, stage, d) :: Shows(f, e, w.version) && FetchedIt(w, f.controllers[d], e)
    ensures forall e <- Listed(w, stage, d) :: FetchedIt(w, StepOf(w.c, f, d, ev), e)
  {
    hide Good, Sound, Inv, ControllerInv, Tidy, InSync, ControllerStep, Shows, FetchedIt, Listed;
    GoodParts(w, f, d);
    forall e <- Listed(w, stage, d) ensures FetchedIt(w, StepOf(w.c, f, d, ev), e) {
      if ev.Fetch? {
        FetchStepSees(w, f, d, ev, e);
      }
    }
  }

  // and when it is to be told to run it.
  lemma ChooserOnTrack(w: Goal, f: Fleet, ev: Event, i: nat, d: string)
    requires w.InRange() && Good(w, f) && Underway(w, f, Choosing(i)) && d in Members(w, i)
    requires OnTrack(w, f, Choosing(i), d) && By(ev, d) && Clean(ev) && !f.controllers[d].local.Idle?
    ensures OnTrack(w, ControllerStep(w.c, f, d, ev), Choosing(i), d)
  {
    hide Good, Sound, Members, Flatten, PollsWell, ControllerStep, Shows, Deploys, TargetsIt, Available, Ripe,
      WaveShows, WaveOn, R.Decide, R.Pull, With, After, Listed, RequiredBy;
    SoundOf(w, f);
    assert Ripe(w, f, d);
    BehindTheFirstWave(w, i, d);
    ListedShow(w, f, Choosing(i), d);
    OwnStepIs(w.c, f, ev, d);
    NothingIsLost(w.c, f, ev);
    var g := ControllerStep(w.c, f, d, ev);
    KeysStay(f, g, d);
    OwnStepTargets(w, f, d, ev, i);
    CleanStepGoes(w, f, d, ev);
    LoadedPollsNothing(w, d, g.controllers[d]);
    if f.controllers[d].local.Deciding? {
      RipeDecides(w, f, d);
    } else if f.controllers[d].local.Pulling? {
      ManifestOf(w, f, d, i);
      TargetPulls(w, f, d, f.controllers[d]);
    }
  }

  lemma TargetPulls(w: Goal, f: Fleet, d: string, ctl: R.Controller)
    requires ctl.local.Pulling? && TargetsIt(w, ctl)
    requires R.ManifestTag(d, w.version) in f.backend.manifests
    ensures R.Pull(d, ctl, f.backend, true).local.Deploying?
  {
  }

  lemma StaysOnTrack(w: Goal, f: Fleet, ev: Event, stage: Stage, d: string)
    requires w.InRange() && Good(w, f) && Underway(w, f, stage) && d in Crew(w, stage)
    requires OnTrack(w, f, stage, d) && (By(ev, d) ==> Clean(ev) && !f.controllers[d].local.Idle?)
    ensures OnTrack(w, Step(w.c, f, ev), stage, d)
  {
    hide Good, Underway, Members, Flatten, Step, ControllerStep, PollsWell, ShowsFirmly, DeploysFirmly, SeenAll, Listed;
    if By(ev, d) {
      OwnStepIs(w.c, f, ev, d);
      NothingIsLost(w.c, f, ev);
      KeysStay(f, Step(w.c, f, ev), d);
      match stage
      case Publishing(i) => PublisherOnTrack(w, f, ev, i, d);
      case Choosing(i) => ChooserOnTrack(w, f, ev, i, d);
      case RollingOut(_) =>
      case _ => WatcherOnTrack(w, f, ev, stage, d);
    } else {
      OthersLeaveOnTrack(w, f, ev, stage, d);
    }
  }
}
