// Rounds: how long it takes. A version the first wave of an environment keeps running reaches the
// wave at distance n within 5 n fair rounds, and 3 rounds after it reached the last one the first
// wave waits for nobody any more. Reconciles interleave in any way, and calls may fail.
module FleetRounds {
  import opened Selection
  import opened Guarantees
  import opened Topology
  import opened Propagation
  import R = Reconciliation
  import P = Reconciles
  import opened Fleet
  import opened FleetSafety
  import opened FleetSchedule
  import opened FleetSteps
  import L = FleetReleases
  import opened FleetProgress

  // ---------------------------------------------------------------- which reconciles got through

  // Of one deployment: whether it started a reconcile and met no failed call since, and whether such a
  // reconcile has ended.
  datatype Phase = Waiting | Started | Completed

  function Next(c: Config, f: Fleet, ev: Event, d: string, phase: Phase): Phase {
    if !By(ev, d) || phase.Completed? || d !in f.controllers then phase
    else
      var local, local' := f.controllers[d].local, ControllerStep(c, f, d, ev).controllers[d].local;
      if phase.Waiting? then if ev.Load? && local.Idle? && local'.Loaded? then Started else Waiting
      else if !Clean(ev) then Waiting
      else if local'.Idle? then Completed else Started
  }

  function PhaseFrom(c: Config, f: Fleet, events: seq<Event>, d: string, phase: Phase): Phase {
    if events == [] then phase
    else
      var front := events[..|events| - 1];
      Next(c, Run(c, f, front), events[|events| - 1], d, PhaseFrom(c, f, front, d, phase))
  }

  function PhaseAfter(c: Config, f: Fleet, events: seq<Event>, d: string): Phase {
    PhaseFrom(c, f, events, d, Waiting)
  }

  // The first wave runs the goal's version throughout, and no status update fails that is to replace the
  // version by another one that was published.
  ghost predicate Kept(w: Goal, f: Fleet, events: seq<Event>)
    requires w.InRange()
  {
    && WaveRuns(w, Run(w.c, f, events), w.FirstWave())
    && (events != [] ==>
          var front := events[..|events| - 1];
          Kept(w, f, front) && Lossless(w, Run(w.c, f, front), events[|events| - 1]))
  }

  // ---------------------------------------------------------------- a stage over many steps

  // How far a deployment has got.
  ghost predicate Along(w: Goal, f: Fleet, stage: Stage, d: string, phase: Phase) {
    && (phase.Started? ==> OnTrack(w, f, stage, d) && d in f.controllers && !f.controllers[d].local.Idle?)
    && (phase.Completed? && !stage.RollingOut? ==> Done(w, f, stage, d))
  }

  lemma StaysAlong(w: Goal, f: Fleet, ev: Event, stage: Stage, d: string, phase: Phase)
    requires w.InRange() && Good(w, f) && Underway(w, f, stage) && d in Crew(w, stage) && Along(w, f, stage, d, phase)
    ensures Along(w, Step(w.c, f, ev), stage, d, Next(w.c, f, ev, d, phase))
  {
    hide Good, Underway, OnTrack, Done, Step, ControllerStep, Members, Flatten, Crew;
    var next := Next(w.c, f, ev, d, phase);
    if phase.Completed? {
      if !stage.RollingOut? { DoneStays(w, f, ev, stage, d); }
    } else if !By(ev, d) {
      if phase.Started? {
        StaysOnTrack(w, f, ev, stage, d);
        OthersUntouched(w.c, f, ev, d);
      }
    } else if d in f.controllers {
      OwnStepIs(w.c, f, ev, d);
      NothingIsLost(w.c, f, ev);
      KeysStay(f, Step(w.c, f, ev), d);
      if next.Started? && phase.Waiting? {
        StartsOnTrack(w, f, ev, stage, d);
      } else if phase.Started? && !next.Waiting? {
        StaysOnTrack(w, f, ev, stage, d);
        if next.Completed? && !stage.RollingOut? {
          EndsDone(w, Step(w.c, f, ev), stage, d);
        }
      }
    }
  }

  // A stage under way stays so; who was done stays done, and so is who completed a reconcile, or was
  // rolled out when that is what the stage asks for.
  ghost predicate Advanced(w: Goal, f: Fleet, g: Fleet, events: seq<Event>, stage: Stage, d: string) {
    && Along(w, g, stage, d, PhaseAfter(w.c, f, events, d))
    && (Done(w, f, stage, d) ==> Done(w, g, stage, d))
    && (stage.RollingOut? && Apply(d) in events ==> Done(w, g, stage, d))
  }

  lemma {:induction false} StageRuns(w: Goal, f: Fleet, events: seq<Event>, stage: Stage)
    requires w.InRange() && Good(w, f) && Kept(w, f, events) && Underway(w, f, stage)
    ensures var g := Run(w.c, f, events);
            && Good(w, g) && Underway(w, g, stage) && f.clock <= g.clock
            && forall d <- Crew(w, stage) :: Advanced(w, f, g, events, stage, d)
  {
    hide Good, Underway, Done, WaveRuns, Step, Flatten, Crew, Along, Next, Lossless;
    var g := Run(w.c, f, events);
    if events == [] {
      forall d <- Crew(w, stage) ensures Advanced(w, f, g, events, stage, d) {
        NobodyAlong(w, f, stage, d);
      }
    } else {
      var front, last := events[..|events| - 1], events[|events| - 1];
      assert events == front + [last];
      var h := Run(w.c, f, front);
      StageRuns(w, f, front, stage);
      GoodStays(w, h, last);
      UnderwayStays(w, h, last, stage);
      NothingIsLost(w.c, h, last);
      forall d <- Crew(w, stage) ensures Advanced(w, f, g, events, stage, d) {
        assert Advanced(w, f, h, front, stage, d);
        StaysAlong(w, h, last, stage, d, PhaseAfter(w.c, f, front, d));
        StaysDone(w, h, last, stage, d);
      }
    }
  }

  lemma NobodyAlong(w: Goal, f: Fleet, stage: Stage, d: string)
    ensures Along(w, f, stage, d, Waiting)
  {
  }

  lemma StaysDone(w: Goal, f: Fleet, ev: Event, stage: Stage, d: string)
    requires w.InRange() && Good(w, f) && Underway(w, f, stage) && d in Crew(w, stage)
    ensures Done(w, f, stage, d) || (stage.RollingOut? && ev == Apply(d)) ==> Done(w, Step(w.c, f, ev), stage, d)
  {
    hide Good, Runs, DeploysFirmly, Members, Flatten, Step, Ripe, WaveShows, UpTo, SeenAll;
    if stage.RollingOut? && ev == Apply(d) {
      RunsOn(w, f, ev, d);
    } else if Done(w, f, stage, d) {
      DoneStays(w, f, ev, stage, d);
    }
  }

  // What was seen by some time counts as seen by that time from then on.
  ghost predicate SeenByAll(w: Goal, f: Fleet, stage: Stage, limit: int)
    requires w.InRange()
  {
    forall d <- Crew(w, stage) :: SeenAll(w, f, stage, d, limit)
  }

  lemma {:induction false} SightsLast(w: Goal, f: Fleet, events: seq<Event>, stage: Stage, limit: int)
    requires w.InRange() && Good(w, f) && Kept(w, f, events) && Underway(w, f, stage) && Watches(stage)
    requires SeenByAll(w, f, stage, limit)
    ensures var g := Run(w.c, f, events);
            Good(w, g) && Underway(w, g, stage) && f.clock <= g.clock && SeenByAll(w, g, stage, limit)
  {
    hide Good, Underway, SeenAll, WaveRuns, Step, Flatten, Crew, Watches, Lossless;
    if events != [] {
      var front, last := events[..|events| - 1], events[|events| - 1];
      var h := Run(w.c, f, front);
      SightsLast(w, f, front, stage, limit);
      GoodStays(w, h, last);
      UnderwayStays(w, h, last, stage);
      NothingIsLost(w.c, h, last);
      forall d <- Crew(w, stage) ensures SeenAll(w, Step(w.c, h, last), stage, d, limit) {
        assert SeenAll(w, h, stage, d, limit);
        SightsStay(w, h, last, stage, d, limit);
      }
    }
  }

  lemma AllSightsAge(w: Goal, f: Fleet, stage: Stage, limit: int, later: int)
    requires w.InRange() && SeenByAll(w, f, stage, limit) && limit <= later
    ensures SeenByAll(w, f, stage, later)
  {
    hide SeenAll, Crew;
    forall d <- Crew(w, stage) ensures SeenAll(w, f, stage, d, later) {
      assert SeenAll(w, f, stage, d, limit);
      SightsAge(w, f, stage, d, limit, later);
    }
  }

  // ---------------------------------------------------------------- rounds

  // In a round every deployment of the environment gets one reconcile through in which no call fails,
  // every one behind the first wave is rolled out, and the longest bake time of the environment passes.
  // Anything else may happen too, in any order.
  ghost predicate Round(w: Goal, f: Fleet, events: seq<Event>)
    requires w.InRange()
  {
    && (forall i, d :: w.FirstWave() <= i <= w.LastWave() && d in Members(w, i) ==>
          PhaseAfter(w.c, f, events, d).Completed?)
    && (forall i, d :: w.FirstWave() < i <= w.LastWave() && d in Members(w, i) ==> Apply(d) in events)
    && (forall i :: w.FirstWave() <= i <= w.LastWave() && i < |Flat(w.c)| ==>
          f.clock + Flat(w.c)[i].bakeTime <= Run(w.c, f, events).clock)
  }

  function AfterRounds(c: Config, f: Fleet, rounds: seq<seq<Event>>): Fleet {
    if rounds == [] then f else Run(c, AfterRounds(c, f, rounds[..|rounds| - 1]), rounds[|rounds| - 1])
  }

  ghost predicate Fair(w: Goal, f: Fleet, rounds: seq<seq<Event>>)
    requires w.InRange()
  {
    rounds != [] ==>
      var front, last := rounds[..|rounds| - 1], rounds[|rounds| - 1];
      && Fair(w, f, front)
      && Kept(w, AfterRounds(w.c, f, front), last) && Round(w, AfterRounds(w.c, f, front), last)
  }

  lemma RoundTakes(w: Goal, f: Fleet, events: seq<Event>, i: nat)
    requires w.InRange() && Round(w, f, events) && w.FirstWave() <= i <= w.LastWave() && i < |Flat(w.c)|
    ensures f.clock + Flat(w.c)[i].bakeTime <= Run(w.c, f, events).clock
  {
    hide Members, Run, Flatten, PhaseAfter;
  }

  lemma RoundFinishes(w: Goal, f: Fleet, events: seq<Event>, stage: Stage)
    requires w.InRange() && Good(w, f) && Kept(w, f, events) && Round(w, f, events) && Underway(w, f, stage)
    ensures var g := Run(w.c, f, events);
            && Good(w, g) && Underway(w, g, stage) && f.clock <= g.clock
            && forall d <- Crew(w, stage) :: Done(w, g, stage, d)
  {
    hide Good, Kept, Done, UpTo, ShownUpTo, Ripe, DeploysFirmly, Members, Run, Flatten, PhaseAfter, OnTrack;
    StageRuns(w, f, events, stage);
    var g := Run(w.c, f, events);
    forall d <- Crew(w, stage) ensures Done(w, g, stage, d) {
      assert Advanced(w, f, g, events, stage, d);
    }
  }

  // ---------------------------------------------------------------- from stage to stage

  lemma PublishRound(w: Goal, f: Fleet, events: seq<Event>, i: nat)
    requires w.InRange() && Good(w, f) && Kept(w, f, events) && Round(w, f, events) && UpTo(w, f, i)
    ensures var g := Run(w.c, f, events); Good(w, g) && ShownUpTo(w, g, i)
  {
    hide Good, Kept, Round, WaveOn, Members, Run, Flatten, ShowsFirmly;
    RoundFinishes(w, f, events, Publishing(i));
    var g := Run(w.c, f, events);
    forall d <- Members(w, i) ensures ShowsFirmly(w, g, d) {
      assert d in Crew(w, Publishing(i));
      assert Done(w, g, Publishing(i), d);
    }
  }

  lemma WatchRound(w: Goal, f: Fleet, events: seq<Event>, stage: Stage)
    requires w.InRange() && Good(w, f) && Kept(w, f, events) && Round(w, f, events) && Underway(w, f, stage)
    requires Watches(stage)
    ensures var g := Run(w.c, f, events); Good(w, g) && Underway(w, g, stage) && SeenByAll(w, g, stage, g.clock)
  {
    hide Good, Kept, Round, UpTo, ShownUpTo, Members, Run, Flatten, SeenAll, Underway;
    RoundFinishes(w, f, events, stage);
    var g := Run(w.c, f, events);
    forall d <- Crew(w, stage) ensures SeenAll(w, g, stage, d, g.clock) {
      assert Done(w, g, stage, d);
    }
  }

  lemma BakeRound(w: Goal, f: Fleet, events: seq<Event>, stage: Stage, i: nat)
    requires w.InRange() && Good(w, f) && Kept(w, f, events) && Round(w, f, events) && Underway(w, f, stage)
    requires Watches(stage) && SeenByAll(w, f, stage, f.clock)
    requires w.FirstWave() <= i <= w.LastWave() && i < |Flat(w.c)|
    ensures var g := Run(w.c, f, events);
            Good(w, g) && Underway(w, g, stage) && SeenByAll(w, g, stage, g.clock - Flat(w.c)[i].bakeTime)
  {
    hide Good, Kept, Run, Flatten, SeenByAll, Underway, Watches, Round;
    var g := Run(w.c, f, events);
    RoundTakes(w, f, events, i);
    SightsLast(w, f, events, stage, f.clock);
    AllSightsAge(w, g, stage, f.clock, g.clock - Flat(w.c)[i].bakeTime);
  }

  // First seen the preceding wave's bake time ago is ripe.
  lemma SeenLongAgoIsRipe(w: Goal, f: Fleet, i: nat)
    requires w.InRange() && Good(w, f) && Underway(w, f, Observing(i))
    requires SeenByAll(w, f, Observing(i), f.clock - Flat(w.c)[i - 1].bakeTime)
    ensures Underway(w, f, Choosing(i))
  {
    assert StageFits(w, Observing(i)) && StageFits(w, Choosing(i));
    hide Good, Sound, UpTo, WaveShows, Members, Flatten, SeenAll, Ripe;
    SoundOf(w, f);
    forall d <- Members(w, i) ensures Ripe(w, f, d) {
      assert d in Crew(w, Observing(i));
      MemberRipens(w, f, i, d);
    }
  }

  lemma MemberRipens(w: Goal, f: Fleet, i: nat, d: string)
    requires Sound(w) && w.FirstWave() < i <= w.LastWave() && d in Members(w, i)
    requires SeenAll(w, f, Observing(i), d, f.clock - Flat(w.c)[i - 1].bakeTime)
    ensures Ripe(w, f, d)
  {
    hide WellFormed, PositiveBakes, Members, Flatten, SeenFirmly, WaveIndex, After, ConditionsOf, With;
    MembersKnown(w, i, d);
  }

  lemma ChooseRound(w: Goal, f: Fleet, events: seq<Event>, i: nat)
    requires w.InRange() && Good(w, f) && Kept(w, f, events) && Round(w, f, events) && Underway(w, f, Choosing(i))
    ensures var g := Run(w.c, f, events); Good(w, g) && Underway(w, g, RollingOut(i))
  {
    hide Good, Kept, Round, UpTo, ShownUpTo, Ripe, DeploysFirmly, Members, Run, Flatten;
    RoundFinishes(w, f, events, Choosing(i));
    var g := Run(w.c, f, events);
    forall d <- Members(w, i) ensures DeploysFirmly(w, g, d) {
      assert d in Crew(w, Choosing(i));
      assert Done(w, g, Choosing(i), d);
    }
  }

  lemma RollOutRound(w: Goal, f: Fleet, events: seq<Event>, i: nat)
    requires w.InRange() && Good(w, f) && Kept(w, f, events) && Round(w, f, events) && Underway(w, f, RollingOut(i))
    ensures var g := Run(w.c, f, events); Good(w, g) && UpTo(w, g, i)
  {
    hide Good, Kept, Round, WaveShows, Ripe, DeploysFirmly, Runs, Members, Run, Flatten;
    RoundFinishes(w, f, events, RollingOut(i));
    var g := Run(w.c, f, events);
    forall d <- Members(w, i) ensures Runs(g, d, w.version) {
      assert d in Crew(w, RollingOut(i));
      assert Done(w, g, RollingOut(i), d);
    }
    assert WaveOn(w, g, i);
  }

  // ---------------------------------------------------------------- wave after wave

  // The first wave needs no rounds.
  lemma {:induction false} RoundsKeepGood(w: Goal, f: Fleet, rounds: seq<seq<Event>>)
    requires w.InRange() && Good(w, f) && WaveRuns(w, f, w.FirstWave()) && Fair(w, f, rounds)
    ensures var g := AfterRounds(w.c, f, rounds); Good(w, g) && UpTo(w, g, w.FirstWave())
  {
    hide Good, Kept, Round, WaveRuns, Run, Flatten;
    if rounds == [] {
      assert WaveOn(w, f, w.FirstWave());
    } else {
      var front, last := rounds[..|rounds| - 1], rounds[|rounds| - 1];
      var g := AfterRounds(w.c, f, front);
      RoundsKeepGood(w, f, front);
      StageRuns(w, g, last, Publishing(w.FirstWave()));
    }
  }

  // Three more rounds make the next wave ripe,
  lemma WaveRipens(w: Goal, f: Fleet, rounds: seq<seq<Event>>, i: nat)
    requires w.InRange() && |rounds| >= 3 && Fair(w, f, rounds) && w.FirstWave() < i <= w.LastWave()
    requires var g := AfterRounds(w.c, f, rounds[..|rounds| - 3]); Good(w, g) && UpTo(w, g, i - 1)
    ensures var g := AfterRounds(w.c, f, rounds); Good(w, g) && Underway(w, g, Choosing(i))
  {
    hide Good, Kept, Round, UpTo, Run, Flatten, Underway, Fair, AfterRounds, SeenByAll, WaveShows;
    var f0 := AfterRounds(w.c, f, rounds[..|rounds| - 3]);
    var f1 := OneMore(w, f, rounds, |rounds| - 3);
    PublishRound(w, f0, rounds[|rounds| - 3], i - 1);
    var f2 := OneMore(w, f, rounds, |rounds| - 2);
    Begins(w, f1, i);
    WatchRound(w, f1, rounds[|rounds| - 2], Observing(i));
    var f3 := OneMore(w, f, rounds, |rounds| - 1);
    SoundOf(w, f2);
    BakeRound(w, f2, rounds[|rounds| - 1], Observing(i), i - 1);
    SeenLongAgoIsRipe(w, f3, i);
    assert rounds[..|rounds|] == rounds;
  }

  // and two more make it run the version.
  lemma WaveTakes(w: Goal, f: Fleet, rounds: seq<seq<Event>>, i: nat)
    requires w.InRange() && |rounds| >= 2 && Fair(w, f, rounds) && w.FirstWave() < i <= w.LastWave()
    requires var g := AfterRounds(w.c, f, rounds[..|rounds| - 2]); Good(w, g) && Underway(w, g, Choosing(i))
    ensures var g := AfterRounds(w.c, f, rounds); Good(w, g) && UpTo(w, g, i)
  {
    hide Good, Kept, Round, UpTo, Run, Flatten, Underway, Fair, AfterRounds;
    var f0 := AfterRounds(w.c, f, rounds[..|rounds| - 2]);
    var f1 := OneMore(w, f, rounds, |rounds| - 2);
    ChooseRound(w, f0, rounds[|rounds| - 2], i);
    var f2 := OneMore(w, f, rounds, |rounds| - 1);
    RollOutRound(w, f1, rounds[|rounds| - 1], i);
    assert rounds[..|rounds|] == rounds;
  }

  lemma Begins(w: Goal, f: Fleet, i: nat)
    requires w.InRange() && w.FirstWave() < i <= w.LastWave() && ShownUpTo(w, f, i - 1)
    ensures Underway(w, f, Observing(i))
  {
  }

  lemma BeginsToWatch(w: Goal, f: Fleet)
    requires w.InRange() && ShownUpTo(w, f, w.LastWave())
    ensures Underway(w, f, Watching)
  {
  }

  // The state after k + 1 of the rounds, by way of the state after k.
  lemma OneMore(w: Goal, f: Fleet, rounds: seq<seq<Event>>, k: nat) returns (g: Fleet)
    requires w.InRange() && k < |rounds| && Fair(w, f, rounds)
    ensures g == AfterRounds(w.c, f, rounds[..k + 1]) == Run(w.c, AfterRounds(w.c, f, rounds[..k]), rounds[k])
    ensures Kept(w, AfterRounds(w.c, f, rounds[..k]), rounds[k])
            && Round(w, AfterRounds(w.c, f, rounds[..k]), rounds[k])
  {
    hide Kept, Round, Run, Flatten;
    FairFront(w, f, rounds, k + 1);
    assert rounds[..k + 1][..k] == rounds[..k];
    g := AfterRounds(w.c, f, rounds[..k + 1]);
  }

  lemma {:induction false} FairFront(w: Goal, f: Fleet, rounds: seq<seq<Event>>, k: nat)
    requires w.InRange() && k <= |rounds| && Fair(w, f, rounds)
    ensures Fair(w, f, rounds[..k])
  {
    hide Kept, Round, Run, Flatten;
    if k < |rounds| {
      var front := rounds[..|rounds| - 1];
      FairFront(w, f, front, k);
      assert front[..k] == rounds[..k];
    } else {
      assert rounds[..k] == rounds;
    }
  }

  // One more wave takes five more rounds.
  lemma WaveFollows(w: Goal, f: Fleet, rounds: seq<seq<Event>>, i: nat)
    requires w.InRange() && |rounds| >= 5 && Fair(w, f, rounds) && w.FirstWave() < i <= w.LastWave()
    requires var g := AfterRounds(w.c, f, rounds[..|rounds| - 5]); Good(w, g) && UpTo(w, g, i - 1)
    ensures var g := AfterRounds(w.c, f, rounds); Good(w, g) && UpTo(w, g, i)
  {
    hide Good, UpTo, Flatten, Underway, Fair, AfterRounds;
    var three := rounds[..|rounds| - 2];
    FairFront(w, f, rounds, |rounds| - 2);
    assert three[..|three| - 3] == rounds[..|rounds| - 5];
    WaveRipens(w, f, three, i);
    WaveTakes(w, f, rounds, i);
  }

  lemma {:induction false} WavesFollow(w: Goal, f: Fleet, rounds: seq<seq<Event>>, i: nat)
    requires w.InRange() && Good(w, f) && WaveRuns(w, f, w.FirstWave()) && Fair(w, f, rounds)
    requires w.FirstWave() <= i <= w.LastWave() && 5 * (i - w.FirstWave()) <= |rounds|
    ensures var g := AfterRounds(w.c, f, rounds); Good(w, g) && UpTo(w, g, i)
    decreases i
  {
    hide Good, WaveRuns, Fair, AfterRounds, UpTo, Flatten;
    if i == w.FirstWave() {
      RoundsKeepGood(w, f, rounds);
    } else {
      FairFront(w, f, rounds, |rounds| - 5);
      WavesFollow(w, f, rounds[..|rounds| - 5], i - 1);
      WaveFollows(w, f, rounds, i);
    }
  }

  // ---------------------------------------------------------------- the gate

  // The first wave has seen the version everywhere for each wave's bake time.
  ghost predicate AllClear(w: Goal, f: Fleet) {
    && Underway(w, f, Watching)
    && forall i :: w.FirstWave() <= i <= w.LastWave() && i < |Flat(w.c)| ==>
         SeenByAll(w, f, Watching, f.clock - Flat(w.c)[i].bakeTime)
  }

  lemma FirstWaveIsListed(w: Goal)
    requires Sound(w)
    ensures w.FirstWave() <= w.LastWave() < |Flat(w.c)|
  {
    hide WellFormed, PositiveBakes, Flatten;
  }

  lemma GateRounds(w: Goal, f: Fleet, rounds: seq<seq<Event>>)
    requires w.InRange() && |rounds| >= 3 && Fair(w, f, rounds)
    requires var g := AfterRounds(w.c, f, rounds[..|rounds| - 3]); Good(w, g) && UpTo(w, g, w.LastWave())
    ensures var g := AfterRounds(w.c, f, rounds); Good(w, g) && AllClear(w, g)
  {
    hide Good, Kept, Round, UpTo, Run, Flatten, SeenByAll, Underway, Fair, AfterRounds, WaveShows;
    var f0 := AfterRounds(w.c, f, rounds[..|rounds| - 3]);
    var f1 := OneMore(w, f, rounds, |rounds| - 3);
    PublishRound(w, f0, rounds[|rounds| - 3], w.LastWave());
    var f2 := OneMore(w, f, rounds, |rounds| - 2);
    BeginsToWatch(w, f1);
    WatchRound(w, f1, rounds[|rounds| - 2], Watching);
    var f3 := OneMore(w, f, rounds, |rounds| - 1);
    assert rounds[..|rounds|] == rounds;
    SoundOf(w, f2);
    FirstWaveIsListed(w);
    BakeRound(w, f2, rounds[|rounds| - 1], Watching, w.FirstWave());
    forall i | w.FirstWave() <= i <= w.LastWave() && i < |Flat(w.c)|
      ensures Good(w, f3) && Underway(w, f3, Watching) && SeenByAll(w, f3, Watching, f3.clock - Flat(w.c)[i].bakeTime)
    {
      BakeRound(w, f2, rounds[|rounds| - 1], Watching, i);
    }
  }

  lemma GetsClear(w: Goal, f: Fleet, rounds: seq<seq<Event>>)
    requires w.InRange() && Good(w, f) && WaveRuns(w, f, w.FirstWave()) && Fair(w, f, rounds)
    requires 5 * (w.LastWave() - w.FirstWave()) + 3 <= |rounds|
    ensures var g := AfterRounds(w.c, f, rounds); Good(w, g) && AllClear(w, g)
  {
    hide Good, WaveRuns, Fair, AfterRounds, UpTo, Flatten, AllClear;
    var k := |rounds| - 3;
    FairFront(w, f, rounds, k);
    WavesFollow(w, f, rounds[..k], w.LastWave());
    GateRounds(w, f, rounds);
  }

  // Clear it stays, whatever happens next.
  lemma StaysClear(w: Goal, f: Fleet, events: seq<Event>)
    requires w.InRange() && Good(w, f) && AllClear(w, f) && Kept(w, f, events)
    ensures var g := Run(w.c, f, events); Good(w, g) && AllClear(w, g)
  {
    hide Good, Kept, Run, Flatten, SeenByAll, Underway;
    var g := Run(w.c, f, events);
    SoundOf(w, f);
    FirstWaveIsListed(w);
    SightsLast(w, f, events, Watching, f.clock - Flat(w.c)[w.FirstWave()].bakeTime);
    forall i | w.FirstWave() <= i <= w.LastWave() && i < |Flat(w.c)|
      ensures Good(w, g) && Underway(w, g, Watching) && SeenByAll(w, g, Watching, g.clock - Flat(w.c)[i].bakeTime)
    {
      var bake := Flat(w.c)[i].bakeTime;
      SightsLast(w, f, events, Watching, f.clock - bake);
      AllSightsAge(w, g, Watching, f.clock - bake, g.clock - bake);
    }
  }

  // Everyone a first-wave deployment waits for is a member of a later wave, whose bake time counts.
  lemma AwaitedMember(w: Goal, d: string, e: string) returns (j: nat)
    requires Sound(w) && d in Members(w, w.FirstWave()) && e in With(w.c, d)
    ensures Known(w.c, d) && w.FirstWave() < j <= w.LastWave() && e in Members(w, j)
    ensures DeploymentBakeTime(w.c.environments, e) == Flat(w.c)[j].bakeTime
  {
    hide WellFormed, PositiveBakes, Flatten, WaveIndex, With, After, Members, DeploymentBakeTime, ConditionsOf,
      EnvIndex;
    MembersKnown(w, w.FirstWave(), d);
    j :| w.FirstWave() < j <= w.LastWave() && e in Members(w, j);
    MembersKnown(w, j, e);
    SearchesAgree(w.c, e);
  }

  lemma ClearSees(w: Goal, f: Fleet, d: string, e: string, j: nat)
    requires AllClear(w, f) && w.FirstWave() <= j <= w.LastWave() && j < |Flat(w.c)|
    requires d in Members(w, w.FirstWave()) && e in With(w.c, d)
    ensures SeenFirmly(w, f, d, e, f.clock - Flat(w.c)[j].bakeTime)
  {
    assert w.InRange();
    hide Underway, SeenFirmly, With, Members, Flatten;
    var limit := f.clock - Flat(w.c)[j].bakeTime;
    assert d in Crew(w, Watching);
    assert SeenAll(w, f, Watching, d, limit);
    assert e in Listed(w, Watching, d);
  }

  // Clear of everyone it waits for, a first-wave deployment finds its gate open.
  lemma ClearMeansOpen(w: Goal, f: Fleet, d: string, e: string)
    requires Good(w, f) && AllClear(w, f) && d in Members(w, w.FirstWave()) && e in With(w.c, d)
    ensures d in f.controllers && R.HoldsOpen(f.controllers[d].stored.reports, w.c, w.version, e, f.clock)
  {
    SoundOf(w, f);
    assert Inv(w.c, w.initial, f);
    hide Good, Inv, AllClear, Sound, SeenIn, Flatten, With, Members, HealthyDuration, DeploymentBakeTime, StatusesOf;
    var j := AwaitedMember(w, d, e);
    FirstWaveIsListed(w);
    ClearSees(w, f, d, e, j);
    HistoryFacts(w, f, d, e);
    SeenMeansOpen(f, d, e, w.c, w.version, f.clock - Flat(w.c)[j].bakeTime, f.clock);
  }

  lemma SeenMeansOpen(g: Fleet, d: string, e: string, c: Config, version: string, limit: int, now: int)
    requires Seen(g, d, e, version, limit) && AllHealthy(HistoryAt(g, d, e))
    requires limit + DeploymentBakeTime(c.environments, e) <= now
    ensures R.HoldsOpen(g.controllers[d].stored.reports, c, version, e, now)
  {
    hide HealthyDuration, DeploymentBakeTime, FirstIndex, StatusesOf;
    var h := HistoryAt(g, d, e);
    SeenDuration(h, version, limit, now);
    assert h[|h| - 1].state.Healthy?;
  }

  lemma ClearLoads(w: Goal, f: Fleet, d: string)
    requires AllClear(w, f) && d in Members(w, w.FirstWave()) && d in f.controllers
    ensures LoadsIt(w, f.controllers[d])
  {
    hide WaveOn, Flatten, Members, SeenByAll, Shows;
    assert WaveShows(w, f, w.FirstWave());
    assert ShowsFirmly(w, f, d);
  }

  lemma ClearDecides(w: Goal, f: Fleet, d: string)
    requires Good(w, f) && AllClear(w, f) && d in Members(w, w.FirstWave()) && d in f.controllers
    requires f.controllers[d].local.Deciding?
    ensures var next := NextVersion(f.controllers[d].stored.reports, After(w.c, d), f.clock);
            R.Decide(f.controllers[d], f.clock).local ==
            if next == "" then R.Idle(R.NoCandidate) else R.Pulling(w.version, next)
  {
    hide Good, AllClear, AllRecorded, Members, Flatten, With, After, NextVersion, R.HoldsOpen, Loads;
    GoodParts(w, f, d);
    var l := f.controllers[d].local;
    ClearLoads(w, f, d);
    LoadsConditions(w.c, d, l.config, l.mem);
    forall e <- With(w.c, d) ensures R.HoldsOpen(l.mem.reports, w.c, w.version, e, f.clock) {
      ClearMeansOpen(w, f, d, e);
    }
  }

  // ---------------------------------------------------------------- the theorems

  // A fleet that was installed and ran in any way until the registry showed the version wherever it was
  // stored, with manifests of it for every deployment behind the first wave, and the first wave running
  // it. Reconciles may be under way.
  ghost predicate Ready(w: Goal, installed: Fleet, before: seq<Event>)
    requires w.InRange()
  {
    && WellFormed(w.c) && PositiveBakes(w.c) && Proper(w.version)
    && Installed(installed) && w.initial == installed.running
    && var f := Run(w.c, installed, before);
       AllInSync(w, f) && Equipped(w, f) && WaveRuns(w, f, w.FirstWave())
  }

  lemma SoundGoal(w: Goal)
    requires w.InRange() && WellFormed(w.c) && PositiveBakes(w.c) && Proper(w.version)
    ensures Sound(w)
  {
    hide WellFormed, PositiveBakes, Flatten;
    FlattenAt(w.c.environments, w.env);
  }

  lemma ReadyIsGood(w: Goal, installed: Fleet, before: seq<Event>)
    requires w.InRange() && Ready(w, installed, before)
    ensures Good(w, Run(w.c, installed, before)) && WaveRuns(w, Run(w.c, installed, before), w.FirstWave())
  {
    hide WellFormed, PositiveBakes, Installed, AllInSync, AllTidy, Equipped, Inv, WaveRuns, Run, Flatten;
    SoundGoal(w);
    RunKeeps(w.c, installed, before);
    RunIsTidy(w, installed, before);
  }

  lemma WaveMember(w: Goal, i: nat, d: string)
    requires w.InRange() && i < |w.c.environments[w.env].waves| && d in w.c.environments[w.env].waves[i].deployments
    ensures d in Members(w, w.FirstWave() + i) && w.FirstWave() + i <= w.LastWave()
  {
    hide Flatten;
    FlattenAt(w.c.environments, w.env);
  }

  lemma MemberRuns(w: Goal, f: Fleet, i: nat, d: string)
    requires UpTo(w, f, i) && d in Members(w, i)
    ensures Runs(f, d, w.version)
  {
    hide Members, Runs, Ripe, DeploysFirmly, WaveShows, Flatten;
    assert WaveOn(w, f, i);
  }

  // While the first wave stays on the version, the wave at distance n runs it after 5 n rounds and
  // keeps running it, however reconciles interleave and whichever other calls fail.
  lemma {:induction false} LaterWavesFollow(w: Goal, installed: Fleet, before: seq<Event>, rounds: seq<seq<Event>>,
                                            i: nat, d: string)
    requires w.InRange() && Ready(w, installed, before) && Fair(w, Run(w.c, installed, before), rounds)
    requires i < |w.c.environments[w.env].waves| && d in w.c.environments[w.env].waves[i].deployments
    requires 5 * i <= |rounds|
    ensures Runs(AfterRounds(w.c, Run(w.c, installed, before), rounds), d, w.version)
  {
    hide Ready, Good, UpTo, WaveRuns, Run, Flatten, Fair, AfterRounds, Members, Runs;
    var f := Run(w.c, installed, before);
    ReadyIsGood(w, installed, before);
    WaveMember(w, i, d);
    WavesFollow(w, f, rounds, w.FirstWave() + i);
    MemberRuns(w, AfterRounds(w.c, f, rounds), w.FirstWave() + i, d);
  }

  lemma FirstWaveIsKnown(w: Goal, f: Fleet, d: string)
    requires w.InRange() && Good(w, f) && d in Members(w, w.FirstWave())
    ensures Known(w.c, d)
  {
    hide Good, Sound, WaveIndex, Flatten, With, After, ConditionsOf, Members;
    SoundOf(w, f);
    MembersKnown(w, w.FirstWave(), d);
  }

  // And from three rounds after the last wave got there on, a first-wave deployment waits for nobody:
  // whenever one of its reconciles decides, it goes for the version it chooses, if there is one.
  lemma {:induction false} FirstWaveIsReleased(w: Goal, installed: Fleet, before: seq<Event>, rounds: seq<seq<Event>>,
                                               more: seq<Event>, d: string)
    requires w.InRange() && Ready(w, installed, before) && Fair(w, Run(w.c, installed, before), rounds)
    requires 5 * (|w.c.environments[w.env].waves| - 1) + 3 <= |rounds|
    requires Kept(w, AfterRounds(w.c, Run(w.c, installed, before), rounds), more)
    requires d in w.c.environments[w.env].waves[0].deployments
    requires var g := Run(w.c, AfterRounds(w.c, Run(w.c, installed, before), rounds), more);
             d in g.controllers && g.controllers[d].local.Deciding?
    ensures var g := Run(w.c, AfterRounds(w.c, Run(w.c, installed, before), rounds), more);
            var next := NextVersion(g.controllers[d].stored.reports, After(w.c, d), g.clock);
            && (R.Decide(g.controllers[d], g.clock).local ==
                if next == "" then R.Idle(R.NoCandidate) else R.Pulling(w.version, next))
            && (WaveIndex(Flat(w.c), d) == 0 ==>
                  R.Decide(g.controllers[d], g.clock).local == R.Pulling(w.version, "latest"))
  {
    hide Ready, Good, UpTo, WaveRuns, Run, Flatten, Fair, AfterRounds, Members, AllClear, Kept, R.Decide, NextVersion,
      After, WaveIndex;
    var f := Run(w.c, installed, before);
    ReadyIsGood(w, installed, before);
    WaveMember(w, 0, d);
    GetsClear(w, f, rounds);
    var clear := AfterRounds(w.c, f, rounds);
    StaysClear(w, clear, more);
    var g := Run(w.c, clear, more);
    ClearDecides(w, g, d);
    FirstWaveIsKnown(w, g, d);
    L.FrontChoosesLatest(w.c, d, g.controllers[d].stored.reports, g.clock);
  }

  // ---------------------------------------------------------------- fair rounds exist

  function LongestBake(waves: seq<Wave>): (n: nat)
    ensures forall i :: 0 <= i < |waves| ==> waves[i].bakeTime <= n
  {
    if waves == [] then 0
    else
      var n := LongestBake(waves[1..]);
      if waves[0].bakeTime > n then waves[0].bakeTime else n
  }

  // Restart the controller, and let it reconcile.
  function Turn(c: Config, d: string): seq<Event> {
    [Crash(d)] + FullReconcile(c, d)
  }

  function Turns(c: Config, names: seq<string>): seq<Event> {
    if names == [] then [] else Turn(c, names[0]) + Turns(c, names[1..])
  }

  function Rollouts(names: seq<string>): (r: seq<Event>)
    ensures forall ev <- r :: ev.Apply? && ev.deployment in names
    ensures forall d <- names :: Apply(d) in r
  {
    if names == [] then [] else [Apply(names[0])] + Rollouts(names[1..])
  }

  // Wait for the longest bake time; reconcile everybody; roll out everybody behind the first wave.
  function UsualRound(w: Goal): seq<Event>
    requires w.InRange()
  {
    var waves := w.c.environments[w.env].waves;
    [Tick(LongestBake(waves))] + (Turns(w.c, AllDeployments(waves)) + Rollouts(AllDeployments(waves[1..])))
  }

  lemma {:induction false} PhaseConcat(c: Config, f: Fleet, a: seq<Event>, b: seq<Event>, d: string, phase: Phase)
    ensures PhaseFrom(c, f, a + b, d, phase) == PhaseFrom(c, Run(c, f, a), b, d, PhaseFrom(c, f, a, d, phase))
  {
    hide Next, Step;
    if b == [] {
      assert a + b == a;
    } else {
      var front := b[..|b| - 1];
      PhaseConcat(c, f, a, front, d, phase);
      RunConcat(c, f, a, front);
      assert (a + b)[..|a + b| - 1] == a + front;
    }
  }

  lemma {:induction false} CompletedStays(c: Config, f: Fleet, events: seq<Event>, d: string)
    ensures PhaseFrom(c, f, events, d, Completed) == Completed
  {
    hide ControllerStep, Clean, Run;
    if events != [] {
      CompletedStays(c, f, events[..|events| - 1], d);
    }
  }

  lemma {:induction false} RunLosesNothing(c: Config, f: Fleet, events: seq<Event>)
    ensures var g := Run(c, f, events);
            f.clock <= g.clock && g.controllers.Keys == f.controllers.Keys && f.running.Keys <= g.running.Keys
  {
    hide Step;
    if events != [] {
      RunLosesNothing(c, f, events[..|events| - 1]);
      NothingIsLost(c, Run(c, f, events[..|events| - 1]), events[|events| - 1]);
    }
  }

  // While clean steps follow each other, a started reconcile goes on or completes.
  ghost predicate Going(f: Fleet, d: string, phase: Phase) {
    d in f.controllers && (phase.Completed? || (phase.Started? && !f.controllers[d].local.Idle?))
  }

  lemma {:induction false} CleanStepsGoOn(c: Config, f: Fleet, events: seq<Event>, d: string, phase: Phase)
    requires Going(f, d, phase) && forall ev <- events :: By(ev, d) && Clean(ev)
    ensures Going(Run(c, f, events), d, PhaseFrom(c, f, events, d, phase))
  {
    hide ControllerStep, Clean, By, Step;
    if events != [] {
      var front, last := events[..|events| - 1], events[|events| - 1];
      assert last in events;
      CleanStepsGoOn(c, f, front, d, phase);
      var g := Run(c, f, front);
      OwnStepIs(c, g, last, d);
      NothingIsLost(c, g, last);
      KeysStay(g, Step(c, g, last), d);
    }
  }

  lemma {:induction false} FetchesAreClean(d: string, required: seq<string>)
    ensures forall ev <- Fetches(d, required) :: By(ev, d) && Clean(ev)
  {
    if required != [] {
      FetchesAreClean(d, required[..|required| - 1]);
    }
  }

  lemma LoadStarts(c: Config, f: Fleet, d: string)
    requires ConditionsOf(c, d).Some? && d in f.controllers && d in f.running && f.controllers[d].local.Idle?
    ensures var load := Load(d, true, true, true);
            Next(c, f, load, d, Waiting) == Started && Going(Step(c, f, load), d, Started)
  {
    hide ConditionsOf;
  }

  lemma CrashStops(c: Config, f: Fleet, d: string, phase: Phase)
    requires d in f.controllers && d in f.running
    ensures var g := Step(c, f, Crash(d));
            && d in g.controllers && d in g.running && g.controllers[d].local.Idle?
            && !Next(c, f, Crash(d), d, phase).Started?
  {
  }

  lemma PhaseOfOne(c: Config, f: Fleet, ev: Event, d: string, phase: Phase)
    ensures PhaseFrom(c, f, [ev], d, phase) == Next(c, f, ev, d, phase)
  {
    hide Next, Step;
    assert [ev][..0] == [];
    assert PhaseFrom(c, f, [ev][..0], d, phase) == phase;
    RunNothing(c, f);
  }

  // A reconcile that starts idle and meets no failed call completes.
  lemma FullReconcileCompletes(c: Config, f: Fleet, d: string)
    requires WellFormed(c) && Known(c, d) && d in f.controllers && d in f.running && f.controllers[d].local.Idle?
    ensures PhaseFrom(c, f, FullReconcile(c, d), d, Waiting) == Completed
  {
    hide WellFormed, Flatten, WaveIndex, ConditionsOf, Fetches, Next, PhaseFrom, Run, Step, R.Pass, By, Clean;
    RequiredOnce(c, d);
    var load := Load(d, true, true, true);
    var rest := [Publish(d, true, true)] + Fetches(d, RequiredBy(c, d))
                + [EndPoll(d, true), Decide(d), Pull(d, true), Deploy(d, true)];
    assert FullReconcile(c, d) == [load] + rest;
    PhaseConcat(c, f, [load], rest, d, Waiting);
    PhaseOfOne(c, f, load, d, Waiting);
    RunOne(c, f, load);
    LoadStarts(c, f, d);
    RestIsClean(c, d, rest);
    CleanStepsGoOn(c, Step(c, f, load), rest, d, Started);
    RunConcat(c, f, [load], rest);
    FullReconcileIsPass(c, f, d);
    P.PassEnds(d, f.controllers[d], f.backend, FullCalls(c, d, f.running[d]), f.clock);
  }

  lemma RestIsClean(c: Config, d: string, rest: seq<Event>)
    requires rest == [Publish(d, true, true)] + Fetches(d, RequiredBy(c, d))
                     + [EndPoll(d, true), Decide(d), Pull(d, true), Deploy(d, true)]
    ensures forall ev <- rest :: By(ev, d) && Clean(ev)
  {
    hide Fetches, RequiredBy;
    FetchesAreClean(d, RequiredBy(c, d));
  }

  lemma TurnCompletes(c: Config, f: Fleet, d: string, phase: Phase)
    requires WellFormed(c) && Known(c, d) && d in f.controllers && d in f.running
    ensures PhaseFrom(c, f, Turn(c, d), d, phase) == Completed
  {
    hide WellFormed, Flatten, WaveIndex, FullReconcile, Next, PhaseFrom, Run, Step;
    PhaseConcat(c, f, [Crash(d)], FullReconcile(c, d), d, phase);
    PhaseOfOne(c, f, Crash(d), d, phase);
    RunOne(c, f, Crash(d));
    CrashStops(c, f, d, phase);
    var g := Step(c, f, Crash(d));
    FullReconcileCompletes(c, g, d);
    CompletedStays(c, g, FullReconcile(c, d), d);
  }

  lemma {:induction false} TurnsComplete(c: Config, f: Fleet, names: seq<string>, d: string, phase: Phase)
    requires WellFormed(c) && Known(c, d) && d in f.controllers && d in f.running && d in names
    ensures PhaseFrom(c, f, Turns(c, names), d, phase) == Completed
    decreases names
  {
    hide WellFormed, Flatten, WaveIndex, Turn, PhaseFrom, Run;
    var first, rest := Turn(c, names[0]), Turns(c, names[1..]);
    PhaseConcat(c, f, first, rest, d, phase);
    RunLosesNothing(c, f, first);
    var g := Run(c, f, first);
    assert d in f.controllers.Keys && d in f.running.Keys;
    if names[0] == d {
      TurnCompletes(c, f, d, phase);
      CompletedStays(c, g, rest, d);
    } else {
      TurnsComplete(c, g, names[1..], d, PhaseFrom(c, f, first, d, phase));
    }
  }

  ghost predicate MemberFrom(w: Goal, from: nat, d: string)
    requires w.InRange()
  {
    exists i :: from <= i <= w.LastWave() && d in Members(w, i)
  }

  // Events that leave the first wave running what it runs, and lose nothing.
  ghost predicate Harmless(w: Goal, ev: Event)
    requires w.InRange()
  {
    (ev.Publish? ==> ev.persisted) && (ev.Apply? ==> MemberFrom(w, w.FirstWave() + 1, ev.deployment))
  }

  lemma FirstWaveStays(w: Goal, f: Fleet, ev: Event)
    requires w.InRange() && WellFormed(w.c) && WaveRuns(w, f, w.FirstWave()) && Harmless(w, ev)
    ensures WaveRuns(w, Step(w.c, f, ev), w.FirstWave())
  {
    hide Step, Flatten;
    NothingIsLost(w.c, f, ev);
    if ev.Apply? {
      var i :| w.FirstWave() + 1 <= i <= w.LastWave() && ev.deployment in Members(w, i);
      assert ev.deployment !in Members(w, w.FirstWave());
    }
  }

  lemma {:induction false} HarmlessIsKept(w: Goal, f: Fleet, events: seq<Event>)
    requires w.InRange() && WellFormed(w.c) && WaveRuns(w, f, w.FirstWave()) && forall ev <- events :: Harmless(w, ev)
    ensures Kept(w, f, events)
  {
    hide WellFormed, WaveRuns, Flatten, Step, MemberFrom, LoadsIt;
    if events != [] {
      var front, last := events[..|events| - 1], events[|events| - 1];
      assert last in events;
      HarmlessIsKept(w, f, front);
      FirstWaveStays(w, Run(w.c, f, front), last);
    }
  }

  lemma {:induction false} TurnsAreHarmless(w: Goal, names: seq<string>)
    requires w.InRange()
    ensures forall ev <- Turns(w.c, names) :: Harmless(w, ev)
    decreases names
  {
    hide MemberFrom, Flatten, RequiredBy, Fetches;
    if names != [] {
      FetchesAreClean(names[0], RequiredBy(w.c, names[0]));
      TurnsAreHarmless(w, names[1..]);
    }
  }

  lemma MembersAre(w: Goal, k: nat)
    requires w.InRange() && k < |w.c.environments[w.env].waves|
    ensures var i := w.FirstWave() + k;
            && i <= w.LastWave() && i < |Flat(w.c)| && Flat(w.c)[i] == w.c.environments[w.env].waves[k]
            && Members(w, i) == w.c.environments[w.env].waves[k].deployments
  {
    hide Flatten;
    FlattenAt(w.c.environments, w.env);
  }

  lemma ListedFrom(w: Goal, k: nat, d: string)
    requires w.InRange() && k <= |w.c.environments[w.env].waves|
    ensures d in AllDeployments(w.c.environments[w.env].waves[k..]) <==> MemberFrom(w, w.FirstWave() + k, d)
  {
    hide Flatten, Members, AllDeployments;
    var waves := w.c.environments[w.env].waves;
    AllDeploymentsMembers(waves[k..], d);
    if d in AllDeployments(waves[k..]) {
      var j :| 0 <= j < |waves[k..]| && d in waves[k..][j].deployments;
      MembersAre(w, k + j);
      assert d in Members(w, w.FirstWave() + (k + j));
    }
    if i :| w.FirstWave() + k <= i <= w.LastWave() && d in Members(w, i) {
      MembersAre(w, i - w.FirstWave());
      assert d in waves[k..][i - w.FirstWave() - k].deployments;
    }
  }

  lemma UsualRoundIsKept(w: Goal, f: Fleet)
    requires w.InRange() && Good(w, f) && WaveRuns(w, f, w.FirstWave())
    ensures Kept(w, f, UsualRound(w))
  {
    hide Good, WaveRuns, Flatten, Turns, Rollouts, LongestBake, Members, MemberFrom, Kept, AllDeployments;
    var waves, events := w.c.environments[w.env].waves, UsualRound(w);
    SoundOf(w, f);
    SoundParts(w);
    TurnsAreHarmless(w, AllDeployments(waves));
    forall ev <- events ensures Harmless(w, ev) {
      if ev.Apply? { ListedFrom(w, 1, ev.deployment); }
    }
    HarmlessIsKept(w, f, events);
  }

  lemma UsualRoundCompletes(w: Goal, f: Fleet, i: nat, d: string)
    requires w.InRange() && Good(w, f) && w.FirstWave() <= i <= w.LastWave() && d in Members(w, i)
    ensures PhaseAfter(w.c, f, UsualRound(w), d).Completed?
    ensures i > w.FirstWave() ==> Apply(d) in UsualRound(w)
  {
    assert Equipped(w, f);
    assert Managed(f, d);
    hide Good, Sound, Flatten, WaveIndex, Turns, Rollouts, LongestBake, Members, AllDeployments, PhaseFrom, Run,
      ConditionsOf, With, After;
    SoundOf(w, f);
    SoundParts(w);
    MembersKnown(w, i, d);
    var waves := w.c.environments[w.env].waves;
    var names, later := AllDeployments(waves), AllDeployments(waves[1..]);
    assert waves[0..] == waves;
    assert MemberFrom(w, w.FirstWave() + 0, d) && (i > w.FirstWave() ==> MemberFrom(w, w.FirstWave() + 1, d));
    ListedFrom(w, 0, d);
    ListedFrom(w, 1, d);
    var tick, turns, rollouts := [Tick(LongestBake(waves))], Turns(w.c, names), Rollouts(later);
    var g := Run(w.c, f, tick);
    PhaseConcat(w.c, f, tick, turns + rollouts, d, Waiting);
    PhaseConcat(w.c, g, turns, rollouts, d, PhaseFrom(w.c, f, tick, d, Waiting));
    RunLosesNothing(w.c, f, tick);
    assert d in f.controllers.Keys && d in f.running.Keys;
    TurnsComplete(w.c, g, names, d, PhaseFrom(w.c, f, tick, d, Waiting));
    CompletedStays(w.c, Run(w.c, g, turns), rollouts, d);
  }

  lemma UsualRoundTakes(w: Goal, f: Fleet, i: nat)
    requires w.InRange() && w.FirstWave() <= i <= w.LastWave() && i < |Flat(w.c)|
    ensures f.clock + Flat(w.c)[i].bakeTime <= Run(w.c, f, UsualRound(w)).clock
  {
    hide Flatten, Turns, Rollouts, AllDeployments, Run, Members;
    var waves := w.c.environments[w.env].waves;
    var rest := Turns(w.c, AllDeployments(waves)) + Rollouts(AllDeployments(waves[1..]));
    RunConcat(w.c, f, [Tick(LongestBake(waves))], rest);
    RunOne(w.c, f, Tick(LongestBake(waves)));
    RunLosesNothing(w.c, Run(w.c, f, [Tick(LongestBake(waves))]), rest);
    MembersAre(w, i - w.FirstWave());
  }

  // In every good state whose first wave runs the version the usual round is a fair one,
  lemma UsualRoundIsFair(w: Goal, f: Fleet)
    requires w.InRange() && Good(w, f) && WaveRuns(w, f, w.FirstWave())
    ensures Kept(w, f, UsualRound(w)) && Round(w, f, UsualRound(w))
  {
    hide Good, WaveRuns, Flatten, Run, Members, UsualRound, Kept, PhaseAfter;
    UsualRoundIsKept(w, f);
    forall i, d | w.FirstWave() <= i <= w.LastWave() && d in Members(w, i)
      ensures PhaseAfter(w.c, f, UsualRound(w), d).Completed?
      ensures i > w.FirstWave() ==> Apply(d) in UsualRound(w)
    {
      UsualRoundCompletes(w, f, i, d);
    }
    forall i | w.FirstWave() <= i <= w.LastWave() && i < |Flat(w.c)|
      ensures f.clock + Flat(w.c)[i].bakeTime <= Run(w.c, f, UsualRound(w)).clock
    {
      UsualRoundTakes(w, f, i);
    }
  }

  function UsualRounds(w: Goal, n: nat): seq<seq<Event>>
    requires w.InRange()
  {
    if n == 0 then [] else UsualRounds(w, n - 1) + [UsualRound(w)]
  }

  // so any number of fair rounds is possible, and the progress above does happen.
  lemma {:induction false} FairRoundsExist(w: Goal, f: Fleet, n: nat)
    requires w.InRange() && Good(w, f) && WaveRuns(w, f, w.FirstWave())
    ensures |UsualRounds(w, n)| == n && Fair(w, f, UsualRounds(w, n))
  {
    hide Good, WaveRuns, Flatten, Run, UsualRound, Kept, Round, UpTo;
    if n > 0 {
      FairRoundsExist(w, f, n - 1);
      var front := UsualRounds(w, n - 1);
      var g := AfterRounds(w.c, f, front);
      RoundsKeepGood(w, f, front);
      FirstWaveRuns(w, g);
      UsualRoundIsFair(w, g);
      assert UsualRounds(w, n)[..n - 1] == front;
    }
  }

  lemma FirstWaveRuns(w: Goal, f: Fleet)
    requires w.InRange() && UpTo(w, f, w.FirstWave())
    ensures WaveRuns(w, f, w.FirstWave())
  {
    hide WaveRuns, Ripe, DeploysFirmly, WaveShows, Flatten;
    assert WaveOn(w, f, w.FirstWave());
  }

  function Flattened(rounds: seq<seq<Event>>): seq<Event> {
    if rounds == [] then [] else Flattened(rounds[..|rounds| - 1]) + rounds[|rounds| - 1]
  }

  // Rounds are runs of the fleet like any other.
  lemma {:induction false} RoundsAreRuns(c: Config, f: Fleet, rounds: seq<seq<Event>>)
    ensures Run(c, f, Flattened(rounds)) == AfterRounds(c, f, rounds)
  {
    hide Run;
    if rounds == [] {
      RunNothing(c, f);
    } else {
      var front, last := rounds[..|rounds| - 1], rounds[|rounds| - 1];
      RunConcat(c, f, Flattened(front), last);
      RoundsAreRuns(c, f, front);
    }
  }

  // From every fleet that is ready there is a run that brings the version to all waves.
  lemma EveryWaveCanFollow(w: Goal, installed: Fleet, before: seq<Event>, i: nat, d: string)
    requires w.InRange() && Ready(w, installed, before)
    requires i < |w.c.environments[w.env].waves| && d in w.c.environments[w.env].waves[i].deployments
    ensures exists events :: Runs(Run(w.c, installed, before + events), d, w.version)
  {
    hide Ready, Good, WaveRuns, Flatten, Fair, AfterRounds, Runs, Run;
    var f := Run(w.c, installed, before);
    var rounds := UsualRounds(w, 5 * i);
    ReadyIsGood(w, installed, before);
    FairRoundsExist(w, f, 5 * i);
    LaterWavesFollow(w, installed, before, rounds, i, d);
    RoundsAreRuns(w.c, f, rounds);
    RunConcat(w.c, installed, before, Flattened(rounds));
  }

  // Freshly installed, the first environment is ready for any version its first wave runs.
  lemma InstalledIsReady(w: Goal, installed: Fleet)
    requires w.InRange() && w.FirstWave() == 0 && w.initial == installed.running
    requires WellFormed(w.c) && PositiveBakes(w.c) && Proper(w.version) && Installed(installed)
    requires Equipped(w, installed) && WaveRuns(w, installed, 0)
    ensures Ready(w, installed, [])
  {
    hide WellFormed, PositiveBakes, Equipped, WaveRuns, Flatten, Run;
    RunNothing(w.c, installed);
  }
}
