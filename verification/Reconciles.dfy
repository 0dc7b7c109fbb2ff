// What a whole reconcile does, and what any number of them keep: a controller over any sequence of
// reconciles, with any calls failing and anything happening to the registry in between.
module Reconciles {
  import opened Wrappers
  import opened Statuses
  import opened Selection
  import opened PollLogs
  import opened Guarantees
  import opened Topology
  import opened Propagation
  import opened Reconciliation

  // ---------------------------------------------------------------- one history through one poll

  lemma StatusesOfAliased(reports: seq<Report>, fetched: Propagation.Fetched, d: string)
    ensures StatusesOf(AliasedReports(reports, fetched), d)
            == ObserveAliased(StatusesOf(reports, d), FetchedOf(fetched, d))
  {
    hide ReportIndex;
    IndexByNames(reports, AliasedReports(reports, fetched), d);
  }

  // What one poll means for the history of one deployment.
  function OutcomeOf(required: seq<string>, fetched: Propagation.Fetched, persisted: bool, d: string): PollOutcome {
    match FetchedOf(fetched, d)
    case None => FetchFailed
    case Some(s) =>
      if !persisted then FetchFailed
      else if AllFetched(required, fetched) then PollOutcome.Fetched(s) else OtherFetchFailed(s)
  }

  // The end of a poll, whatever was fetched, whenever it was, and whether it is persisted or not.
  lemma EndPollIsPoll(ctl: Controller, persisted: bool, d: string)
    requires ctl.local.Polls? && ctl.stored.reports == ctl.local.mem.reports
    requires var required := Required(ctl.local.mem.deployConditions);
             && Distinct(required) && d in required
             && forall s <- required :: s in ctl.local.fetched
    ensures var p := OutcomeOf(Required(ctl.local.mem.deployConditions), ctl.local.fetched, persisted, d);
            StatusesOf(EndPoll(ctl, persisted).stored.reports, d) == AfterPoll(StatusesOf(ctl.stored.reports, d), p)
  {
    hide ReportIndex, StatusesOf, Append, Rewrite, AliasedReports, PolledReports, Required;
    var l := ctl.local;
    StatusesOfAliased(l.mem.reports, l.fetched, d);
    StatusesOfPolled(Required(l.mem.deployConditions), l.mem.reports, l.fetched, d);
  }

  // ---------------------------------------------------------------- one reconcile

  // The reconcile gets as far as polling.
  predicate Polling(name: string, stored: PropagationStatus, calls: Calls) {
    && calls.config.Some? && ConditionsOf(calls.config.value, name).Some?
    && calls.conditionsPersisted && calls.running.Some? && calls.readied
    && (Reports(stored.deploymentStatus, calls.running.value) || (calls.published && calls.statusPersisted))
  }

  lemma StartPolls(name: string, stored: PropagationStatus, last: Outcome, backend: Backend, calls: Calls)
    ensures var (polls, registry) := Start(name, Controller(stored, Idle(last)), backend, calls);
            && polls.stored.reports == stored.reports
            && registry.deploys == backend.deploys && registry.manifests == backend.manifests
            && (polls.local.Polls? <==> Polling(name, stored, calls))
            && (!polls.local.Polls? ==>
                  polls.local.Idle? && (polls.local.last.Failed? || polls.local.last.StatusNotPersisted?))
            && (polls.local.Polls? ==>
                  && polls.local.config == calls.config.value && polls.local.version == calls.running.value
                  && polls.local.fetched == map[] && polls.stored == polls.local.mem
                  && ConditionsOf(calls.config.value, name) == Some(polls.local.mem.deployConditions))
  {
    hide ConditionsOf;
  }

  // Deciding, pulling and deploying change neither what is stored nor what is published.
  lemma DecisionKeeps(name: string, ctl: Controller, backend: Backend, calls: Calls, now: int)
    ensures var (ctl', backend') :=
              Deploy(name, Pull(name, Decide(ctl, now), backend, calls.manifestReachable), backend,
                     calls.deployPublished);
            ctl'.stored == ctl.stored && backend'.statuses == backend.statuses
              && backend'.manifests == backend.manifests
  {
    hide NextVersion, FirstBlocker;
  }

  // What a reconcile means for the history of one deployment.
  function PollOf(name: string, stored: PropagationStatus, turn: Turn, d: string): PollOutcome {
    var (polls, registry) := Start(name, Controller(stored, Idle(Never)), turn.backend, turn.calls);
    if !polls.local.Polls? then FetchFailed
    else
      var required := Required(polls.local.mem.deployConditions);
      OutcomeOf(required, FetchAll(required, registry.statuses, turn.calls.reachable, turn.now),
                turn.calls.reportsPersisted, d)
  }

  // One reconcile: the registry it finds, what its calls return, and when.
  datatype Turn = Turn(backend: Backend, calls: Calls, now: int)

  function After(name: string, stored: PropagationStatus, turn: Turn): PropagationStatus {
    Pass(name, Controller(stored, Idle(Never)), turn.backend, turn.calls, turn.now).0.stored
  }

  // The configuration, when it is fetched at all, is `c`, and it makes `name` poll `d`, once.
  ghost predicate Polled(c: Config, name: string, d: string) {
    && ConditionsOf(c, name).Some?
    && Distinct(Required(ConditionsOf(c, name).value)) && d in Required(ConditionsOf(c, name).value)
  }

  ghost predicate Uses(turn: Turn, c: Config) {
    turn.calls.config.Some? ==> turn.calls.config.value == c
  }

  lemma TurnIsPoll(c: Config, name: string, stored: PropagationStatus, turn: Turn, d: string)
    requires Polled(c, name, d) && Uses(turn, c)
    ensures var p := PollOf(name, stored, turn, d);
            && StatusesOf(After(name, stored, turn).reports, d) == AfterPoll(StatusesOf(stored.reports, d), p)
            && (p.FetchFailed? || p.status.start == turn.now)
  {
    hide ReportIndex, StatusesOf, ConditionsOf, Required, Append, Rewrite, AliasedReports, PolledReports, Load,
      PublishOwn, EndPoll, Decide, Pull, Deploy, FetchAll, AllFetched;
    var (polls, registry) := Start(name, Controller(stored, Idle(Never)), turn.backend, turn.calls);
    StartPolls(name, stored, Never, turn.backend, turn.calls);
    var fetched := FetchesAll(polls, registry, turn.calls.reachable, turn.now);
    DecisionKeeps(name, EndPoll(fetched, turn.calls.reportsPersisted), registry, turn.calls, turn.now);
    if polls.local.Polls? {
      FetchedNow(Required(polls.local.mem.deployConditions), registry.statuses, turn.calls.reachable, turn.now);
      EndPollIsPoll(fetched, turn.calls.reportsPersisted, d);
    } else {
      EndPollOfIdle(fetched, turn.calls.reportsPersisted);
    }
  }

  lemma EndPollOfIdle(ctl: Controller, persisted: bool)
    requires !ctl.local.Polls?
    ensures EndPoll(ctl, persisted) == ctl
  {
  }

  lemma FetchedNow(required: seq<string>, registry: map<string, DeploymentStatus>, reachable: set<string>, now: int)
    ensures var fetched := FetchAll(required, registry, reachable, now);
            && (forall s <- required :: s in fetched)
            && (forall s :: FetchedOf(fetched, s).Some? ==> FetchedOf(fetched, s).value.start == now)
  {
  }

  // ---------------------------------------------------------------- any number of reconciles

  function StoredAfter(name: string, stored: PropagationStatus, turns: seq<Turn>): PropagationStatus {
    if turns == [] then stored
    else After(name, StoredAfter(name, stored, turns[..|turns| - 1]), turns[|turns| - 1])
  }

  // The complete log of the polls of one deployment.
  function PollsOf(name: string, stored: PropagationStatus, turns: seq<Turn>, d: string): (polls: seq<PollOutcome>)
    ensures |polls| == |turns|
  {
    if turns == [] then []
    else
      var front := turns[..|turns| - 1];
      PollsOf(name, stored, front, d) + [PollOf(name, StoredAfter(name, stored, front), turns[|turns| - 1], d)]
  }

  ghost predicate AllUse(turns: seq<Turn>, c: Config) {
    forall t <- turns :: Uses(t, c)
  }

  ghost predicate Between(turns: seq<Turn>, from: int, to: int) {
    && from <= to
    && (forall t <- turns :: from <= t.now <= to)
    && (forall i, j :: 0 <= i < j < |turns| ==> turns[i].now <= turns[j].now)
  }

  // The history that is kept is the fold of the log.
  lemma {:induction false} HistoryIsFoldOfPolls(c: Config, name: string, stored: PropagationStatus, turns: seq<Turn>,
                                                d: string)
    requires Polled(c, name, d) && AllUse(turns, c)
    ensures StatusesOf(StoredAfter(name, stored, turns).reports, d)
            == AfterPolls(StatusesOf(stored.reports, d), PollsOf(name, stored, turns, d))
    ensures var polls := PollsOf(name, stored, turns, d);
            forall k :: 0 <= k < |polls| ==> polls[k].FetchFailed? || polls[k].status.start == turns[k].now
  {
    hide StatusesOf, After, PollOf, Polled, AfterPoll;
    if turns != [] {
      var front, turn := turns[..|turns| - 1], turns[|turns| - 1];
      HistoryIsFoldOfPolls(c, name, stored, front, d);
      TurnIsPoll(c, name, StoredAfter(name, stored, front), turn, d);
      AfterPollsThen(StatusesOf(stored.reports, d), PollsOf(name, stored, front, d),
                     PollOf(name, StoredAfter(name, stored, front), turn, d));
    }
  }

  lemma {:induction false} ClockedFromThen(polls: seq<PollOutcome>, p: PollOutcome, now: int, t: int)
    requires ClockedFrom(polls, now) && now <= t && ObservedBy(polls, t) && (p.FetchFailed? || t <= p.status.start)
    ensures ClockedFrom(polls + [p], now)
    decreases polls
  {
    var all := polls + [p];
    if polls == [] {
      assert all[1..] == [];
    } else {
      assert all[1..] == polls[1..] + [p];
      assert forall k :: 0 <= k < |polls[1..]| ==> polls[1..][k] == polls[k + 1];
      ClockedFromThen(polls[1..], p, if polls[0].FetchFailed? then now else polls[0].status.start, t);
    }
  }

  lemma {:induction false} PollsAreClocked(c: Config, name: string, stored: PropagationStatus, turns: seq<Turn>,
                                           d: string, from: int, to: int)
    requires Polled(c, name, d) && AllUse(turns, c) && Between(turns, from, to)
    ensures var polls := PollsOf(name, stored, turns, d); ClockedFrom(polls, from) && ObservedBy(polls, to)
  {
    hide StatusesOf, PollOf, Polled, AfterPolls, StoredAfter, ClockedFrom;
    HistoryIsFoldOfPolls(c, name, stored, turns, d);
    if turns == [] {
      NoPollsAreClocked(from);
    } else {
      var front, turn := turns[..|turns| - 1], turns[|turns| - 1];
      assert Between(front, from, turn.now);
      PollsAreClocked(c, name, stored, front, d, from, turn.now);
      ClockedFromThen(PollsOf(name, stored, front, d), PollOf(name, StoredAfter(name, stored, front), turn, d), from,
                      turn.now);
    }
  }

  lemma NoPollsAreClocked(now: int)
    ensures ClockedFrom([], now)
  {
  }

  // Whatever fails, the settled part of a history is a prefix of the history after any reconciles.
  lemma {:induction false} SettledSurvivesReconciles(c: Config, name: string, stored: PropagationStatus,
                                                     turns: seq<Turn>, d: string)
    requires Polled(c, name, d) && AllUse(turns, c) && PendingYields(StatusesOf(stored.reports, d))
    ensures var h, g := StatusesOf(stored.reports, d), StatusesOf(StoredAfter(name, stored, turns).reports, d);
            Settled(h) <= Settled(g) <= g && PendingYields(g)
  {
    hide StatusesOf, PollsOf, StoredAfter, Polled, PendingYields, AfterPolls, Settled;
    HistoryIsFoldOfPolls(c, name, stored, turns, d);
    SettledIsPermanent(StatusesOf(stored.reports, d), PollsOf(name, stored, turns, d));
  }

  // Starts stay sorted over any reconciles under a clock that does not run backwards.
  lemma {:induction false} SortedSurvivesReconciles(c: Config, name: string, stored: PropagationStatus,
                                                    turns: seq<Turn>, d: string, from: int, to: int)
    requires Polled(c, name, d) && AllUse(turns, c) && Between(turns, from, to)
    requires var h := StatusesOf(stored.reports, d); PendingYields(h) && Sorted(h) && NotAfter(h, from)
    ensures Sorted(StatusesOf(StoredAfter(name, stored, turns).reports, d))
  {
    hide StatusesOf, PollsOf, StoredAfter, Polled, PendingYields, AfterPolls, Sorted, ClockedFrom;
    HistoryIsFoldOfPolls(c, name, stored, turns, d);
    PollsAreClocked(c, name, stored, turns, d, from, to);
    SortedIsPermanent(StatusesOf(stored.reports, d), PollsOf(name, stored, turns, d), from);
  }

  // ---------------------------------------------------------------- what is stored of the configuration

  // The reconcile gets the configuration, finds its deployment there, and persists what follows from it.
  predicate GetsConditions(name: string, calls: Calls) {
    calls.config.Some? && ConditionsOf(calls.config.value, name).Some? && calls.conditionsPersisted
  }

  // The derived conditions are stored first, and stay whatever fails afterwards; before that nothing is.
  lemma ConditionsArePersisted(name: string, stored: PropagationStatus, last: Outcome, backend: Backend, calls: Calls,
                               now: int)
    ensures var (ctl', backend') := Pass(name, Controller(stored, Idle(last)), backend, calls, now);
            && (GetsConditions(name, calls) ==>
                  Some(ctl'.stored.deployConditions) == ConditionsOf(calls.config.value, name))
            && (!GetsConditions(name, calls) ==>
                  ctl' == Controller(stored, Idle(Failed)) && backend' == backend)
  {
    hide ConditionsOf, EndPoll, Decide, Pull, Deploy, FetchesAll;
    var (polls, registry) := Start(name, Controller(stored, Idle(last)), backend, calls);
    if polls.local.Polls? {
      PollKeepsConditions(polls, registry, calls, now);
      var ended := EndPoll(FetchesAll(polls, registry, calls.reachable, now), calls.reportsPersisted);
      DecisionKeeps(name, ended, registry, calls, now);
    } else {
      StoppedPass(name, polls, registry, calls, now);
    }
  }

  lemma PollKeepsConditions(polls: Controller, registry: Backend, calls: Calls, now: int)
    requires polls.local.Polls? && polls.stored.deployConditions == polls.local.mem.deployConditions
    ensures EndPoll(FetchesAll(polls, registry, calls.reachable, now), calls.reportsPersisted).stored.deployConditions
            == polls.stored.deployConditions
  {
    hide PolledReports, AliasedReports, FetchAll, AllFetched;
    EndOfPoll(polls, registry, calls.reachable, now, calls.reportsPersisted);
  }

  // Over any reconciles the stored conditions are those of the last one that got that far,
  lemma {:induction false} LastConditionsAreStored(name: string, stored: PropagationStatus, turns: seq<Turn>, k: nat)
    requires k < |turns| && GetsConditions(name, turns[k].calls)
    requires forall j :: k < j < |turns| ==> !GetsConditions(name, turns[j].calls)
    ensures Some(StoredAfter(name, stored, turns).deployConditions) == ConditionsOf(turns[k].calls.config.value, name)
  {
    hide ConditionsOf, Pass, GetsConditions;
    var front, turn := turns[..|turns| - 1], turns[|turns| - 1];
    var before := StoredAfter(name, stored, front);
    ConditionsArePersisted(name, before, Never, turn.backend, turn.calls, turn.now);
    if k < |turns| - 1 {
      LastConditionsAreStored(name, stored, front, k);
    }
  }

  // and until one did nothing is stored at all.
  lemma {:induction false} NothingStoredBefore(name: string, stored: PropagationStatus, turns: seq<Turn>)
    requires forall t <- turns :: !GetsConditions(name, t.calls)
    ensures StoredAfter(name, stored, turns) == stored
  {
    hide ConditionsOf, Pass, GetsConditions;
    if turns != [] {
      var front, turn := turns[..|turns| - 1], turns[|turns| - 1];
      assert turn in turns;
      NothingStoredBefore(name, stored, front);
      ConditionsArePersisted(name, stored, Never, turn.backend, turn.calls, turn.now);
    }
  }

  // ---------------------------------------------------------------- the gate of a whole reconcile

  // What the registry and the kept history have to say about a DeployWith deployment at a reconcile.
  ghost predicate SeesOpen(reports: seq<Report>, registry: map<string, DeploymentStatus>, c: Config, version: string,
                           d: string, now: int) {
    && d in registry && Reports(registry[d], version)
    && DeploymentBakeTime(c.environments, d)
       <= HealthyDuration(Append(StatusesOf(reports, d), registry[d].(start := now)), version, now)
  }

  lemma PolledHoldsOpen(required: seq<string>, reports: seq<Report>, registry: map<string, DeploymentStatus>,
                        reachable: set<string>, c: Config, version: string, d: string, now: int)
    requires Distinct(required) && d in required && AllFetched(required, FetchAll(required, registry, reachable, now))
    ensures var polled := PolledReports(required, reports, FetchAll(required, registry, reachable, now));
            HoldsOpen(polled, c, version, d, now) <==> SeesOpen(reports, registry, c, version, d, now)
  {
    hide StatusesOf, Append, HealthyDuration, DeploymentBakeTime, PolledReports;
    var fetched := FetchAll(required, registry, reachable, now);
    StatusesOfPolled(required, reports, fetched, d);
    assert fetched[d] == Some(registry[d].(start := now));
    AppendEndsWithObserved(StatusesOf(reports, d), registry[d].(start := now));
  }

  // The target that a reconcile which polled everything would choose.
  function Chosen(conditions: DeployConditions, reports: seq<Report>, registry: map<string, DeploymentStatus>,
                  reachable: set<string>, now: int): string {
    var required := Required(conditions);
    NextVersion(PolledReports(required, reports, FetchAll(required, registry, reachable, now)), conditions.deployAfter,
                now)
  }

  // What has to hold at a reconcile for it to propagate `target`.
  ghost predicate MayPropagate(name: string, stored: PropagationStatus, backend: Backend, calls: Calls, now: int,
                               target: string) {
    && Polling(name, stored, calls)
    && var c, conditions := calls.config.value, ConditionsOf(calls.config.value, name).value;
    && AllFetched(Required(conditions), FetchAll(Required(conditions), backend.statuses, calls.reachable, now))
    && calls.reportsPersisted
    && (forall d <- conditions.deployWith :: SeesOpen(stored.reports, backend.statuses, c, calls.running.value, d, now))
    && Chosen(conditions, stored.reports, backend.statuses, calls.reachable, now) == target != ""
    && calls.manifestReachable && ManifestTag(name, target) in backend.manifests && calls.deployPublished
  }

  lemma DecisionCases(name: string, mem: PropagationStatus, c: Config, version: string, backend: Backend, calls: Calls,
                      now: int, target: string)
    ensures var decided := Decide(Controller(mem, Deciding(c, mem, version)), now);
            var (ctl', backend') := Deploy(name, Pull(name, decided, backend, calls.manifestReachable), backend,
                                           calls.deployPublished);
            var goes :=
              && FirstBlocker(mem.deployConditions.deployWith, mem.reports, c, version, now).None?
              && NextVersion(mem.reports, mem.deployConditions.deployAfter, now) == target != ""
              && calls.manifestReachable && ManifestTag(name, target) in backend.manifests && calls.deployPublished;
            && (ctl'.local == Idle(Propagated(target)) <==> goes)
            && (goes ==> backend'.deploys == backend.deploys[name := backend.manifests[ManifestTag(name, target)]])
            && ((forall v :: ctl'.local != Idle(Propagated(v))) ==> backend'.deploys == backend.deploys)
  {
    hide FirstBlocker, NextVersion;
  }

  lemma GateOfPolled(required: seq<string>, with: seq<string>, reports: seq<Report>,
                     registry: map<string, DeploymentStatus>, reachable: set<string>, c: Config, version: string,
                     now: int)
    requires Distinct(required) && AllFetched(required, FetchAll(required, registry, reachable, now))
    requires forall d <- with :: d in required
    ensures FirstBlocker(with, PolledReports(required, reports, FetchAll(required, registry, reachable, now)), c,
                         version, now).None?
            <==> forall d <- with :: SeesOpen(reports, registry, c, version, d, now)
  {
    hide HoldsOpen, SeesOpen, FirstBlocker, PolledReports, FetchAll, AllFetched;
    forall d <- with
      ensures var polled := PolledReports(required, reports, FetchAll(required, registry, reachable, now));
              HoldsOpen(polled, c, version, d, now) <==> SeesOpen(reports, registry, c, version, d, now)
    {
      PolledHoldsOpen(required, reports, registry, reachable, c, version, d, now);
    }
  }

  lemma RequiredHasWith(conditions: DeployConditions)
    ensures forall d <- conditions.deployWith :: d in Required(conditions)
    ensures forall d <- conditions.deployAfter.deployments :: d in Required(conditions)
  {
  }

  // The second half of a reconcile that polls.
  lemma FinishCases(name: string, polls: Controller, registry: Backend, calls: Calls, now: int, target: string)
    requires polls.local.Polls? && polls.local.fetched == map[] && polls.stored == polls.local.mem
    requires Distinct(Required(polls.local.mem.deployConditions))
    ensures var (ctl', backend') := Finish(name, polls, registry, calls, now);
            var l := polls.local;
            var conditions := l.mem.deployConditions;
            var required := Required(conditions);
            var fetched := FetchAll(required, registry.statuses, calls.reachable, now);
            var goes :=
              && AllFetched(required, fetched)
              && calls.reportsPersisted
              && (forall d <- conditions.deployWith ::
                  SeesOpen(l.mem.reports, registry.statuses, l.config, l.version, d, now))
              && Chosen(conditions, l.mem.reports, registry.statuses, calls.reachable, now) == target != ""
              && calls.manifestReachable && ManifestTag(name, target) in registry.manifests && calls.deployPublished;
            && backend'.statuses == registry.statuses && backend'.manifests == registry.manifests
            && (ctl'.local == Idle(Propagated(target)) <==> goes)
            && (goes ==> backend'.deploys == registry.deploys[name := registry.manifests[ManifestTag(name, target)]])
            && (goes ==> ctl'.stored.reports == PolledReports(required, l.mem.reports, fetched))
            && ((forall v :: ctl'.local != Idle(Propagated(v))) ==> backend'.deploys == registry.deploys)
  {
    hide EndPoll, Decide, Pull, Deploy, FetchesAll, FetchAll, AllFetched, PolledReports, FirstBlocker, NextVersion,
      SeesOpen, Required, Distinct;
    var l := polls.local;
    var required := Required(l.mem.deployConditions);
    var ended := EndPoll(FetchesAll(polls, registry, calls.reachable, now), calls.reportsPersisted);
    EndOfPoll(polls, registry, calls.reachable, now, calls.reportsPersisted);
    DecisionKeeps(name, ended, registry, calls, now);
    if ended.local.Deciding? {
      RequiredHasWith(l.mem.deployConditions);
      GateOfPolled(required, l.mem.deployConditions.deployWith, l.mem.reports, registry.statuses, calls.reachable,
                   l.config, l.version, now);
      DecisionCases(name, ended.stored, l.config, l.version, registry, calls, now, target);
    } else {
      StoppedPoll(name, ended, registry, calls, now);
    }
  }

  // A reconcile propagates a version exactly when it gets to poll, every fetch succeeds, the registry
  // shows every DeployWith deployment at the running version, Healthy, and baked with this observation
  // included, and the version is the choice over all the polled histories; only then, and only so,
  // does it change what is deployed.
  lemma {:induction false} PropagatesExactly(name: string, stored: PropagationStatus, last: Outcome, backend: Backend,
                                             calls: Calls, now: int, target: string)
    requires calls.config.Some? && ConditionsOf(calls.config.value, name).Some? ==>
               Distinct(Required(ConditionsOf(calls.config.value, name).value))
    ensures var (ctl', backend') := Pass(name, Controller(stored, Idle(last)), backend, calls, now);
            && (ctl'.local == Idle(Propagated(target)) <==> MayPropagate(name, stored, backend', calls, now, target))
            && (ctl'.local == Idle(Propagated(target)) ==>
                  backend'.deploys == backend.deploys[name := backend.manifests[ManifestTag(name, target)]])
            && ((forall v :: ctl'.local != Idle(Propagated(v))) ==> backend'.deploys == backend.deploys)
  {
    hide ConditionsOf, Load, PublishOwn, Finish, FetchAll, AllFetched, SeesOpen, Chosen, Required, Distinct;
    var (polls, registry) := Start(name, Controller(stored, Idle(last)), backend, calls);
    StartPolls(name, stored, last, backend, calls);
    if polls.local.Polls? {
      FinishCases(name, polls, registry, calls, now, target);
    } else {
      StoppedPass(name, polls, registry, calls, now);
    }
  }

  // ---------------------------------------------------------------- how a reconcile ends

  // The reconcile polls, every fetch succeeds, and the reports are persisted.
  ghost predicate Decides(name: string, stored: PropagationStatus, backend: Backend, calls: Calls, now: int) {
    && Polling(name, stored, calls) && calls.reportsPersisted
    && var required := Required(ConditionsOf(calls.config.value, name).value);
       AllFetched(required, FetchAll(required, backend.statuses, calls.reachable, now))
  }

  // Up to where it decides, a reconcile ends in failure, but without an error when it is the update of a
  // status just published that fails.
  lemma EndsBeforeDeciding(name: string, stored: PropagationStatus, last: Outcome, backend: Backend, calls: Calls,
                           now: int)
    ensures var (ctl', backend') := Pass(name, Controller(stored, Idle(last)), backend, calls, now);
            !Decides(name, stored, backend', calls, now) ==>
              ctl'.local == Idle(if GetsConditions(name, calls) && calls.running.Some? && calls.readied
                                 && calls.published
                                    && !(stored.deploymentStatus.version == calls.running.value
                                         && stored.deploymentStatus.state == Healthy)
                                    && !calls.statusPersisted
                                 then StatusNotPersisted else Failed)
  {
    hide ConditionsOf, FetchAll, AllFetched, Required, EndPoll, Decide, Pull, Deploy, FetchesAll, PolledReports,
      AliasedReports;
    var (polls, registry) := Start(name, Controller(stored, Idle(last)), backend, calls);
    StartPolls(name, stored, last, backend, calls);
    if polls.local.Polls? {
      EndOfPoll(polls, registry, calls.reachable, now, calls.reportsPersisted);
      var ended := EndPoll(FetchesAll(polls, registry, calls.reachable, now), calls.reportsPersisted);
      DecisionKeeps(name, ended, registry, calls, now);
      if ended.local.Idle? {
        StoppedPoll(name, ended, registry, calls, now);
      }
    } else {
      StoppedPass(name, polls, registry, calls, now);
    }
  }

  // From there on it waits for the first DeployWith deployment that is not open, or for a candidate, or
  // propagates its choice, or fails to.
  lemma EndsDecided(name: string, stored: PropagationStatus, last: Outcome, backend: Backend, calls: Calls, now: int)
    requires calls.config.Some? && ConditionsOf(calls.config.value, name).Some? ==>
               Distinct(Required(ConditionsOf(calls.config.value, name).value))
    ensures var (ctl', backend') := Pass(name, Controller(stored, Idle(last)), backend, calls, now);
            Decides(name, stored, backend', calls, now) ==>
              var c, conditions := calls.config.value, ConditionsOf(calls.config.value, name).value;
              var target := Chosen(conditions, stored.reports, backend'.statuses, calls.reachable, now);
              if exists i :: IsFirstShut(stored.reports, backend'.statuses, c, calls.running.value,
                                         conditions.deployWith, i, now)
              then exists i :: IsFirstShut(stored.reports, backend'.statuses, c, calls.running.value,
                                           conditions.deployWith, i, now)
                               && ctl'.local == Idle(WaitingFor(conditions.deployWith[i]))
              else ctl'.local == Idle(if target == "" then NoCandidate
                                      else if calls.manifestReachable && ManifestTag(name, target) in backend'.manifests
                                              && calls.deployPublished
                                      then Propagated(target) else Failed)
  {
    hide ConditionsOf, FetchAll, AllFetched, Required, EndPoll, Decide, Pull, Deploy, FetchesAll, PolledReports,
      AliasedReports, SeesOpen, Load, PublishOwn, FirstBlocker, NextVersion, Distinct;
    var (polls, registry) := Start(name, Controller(stored, Idle(last)), backend, calls);
    StartPolls(name, stored, last, backend, calls);
    if polls.local.Polls? {
      EndOfPoll(polls, registry, calls.reachable, now, calls.reportsPersisted);
      var ended := EndPoll(FetchesAll(polls, registry, calls.reachable, now), calls.reportsPersisted);
      DecisionKeeps(name, ended, registry, calls, now);
      if ended.local.Deciding? {
        var l := polls.local;
        RequiredHasWith(l.mem.deployConditions);
        BlockerOfPolled(Required(l.mem.deployConditions), l.mem.deployConditions.deployWith, l.mem.reports,
                        registry.statuses,
                        calls.reachable, l.config, l.version, now);
        DecidedOutcome(name, ended.stored, l.config, l.version, registry, calls, now);
      }
    } else {
      StoppedPass(name, polls, registry, calls, now);
    }
  }

  ghost predicate IsFirstShut(reports: seq<Report>, registry: map<string, DeploymentStatus>, c: Config, version: string,
                              with: seq<string>, i: int, now: int) {
    && 0 <= i < |with| && !SeesOpen(reports, registry, c, version, with[i], now)
    && forall j :: 0 <= j < i ==> SeesOpen(reports, registry, c, version, with[j], now)
  }

  lemma BlockerOfPolled(required: seq<string>, with: seq<string>, reports: seq<Report>,
                        registry: map<string, DeploymentStatus>, reachable: set<string>, c: Config, version: string,
                        now: int)
    requires Distinct(required) && AllFetched(required, FetchAll(required, registry, reachable, now))
    requires forall d <- with :: d in required
    ensures var polled := PolledReports(required, reports, FetchAll(required, registry, reachable, now));
            var blocker := FirstBlocker(with, polled, c, version, now);
            && (blocker.Some? ==>
                  exists i ::
                    IsFirstShut(reports, registry, c, version, with, i, now) && blocker.value == with[i])
            && (blocker.None? ==> forall i :: !IsFirstShut(reports, registry, c, version, with, i, now))
  {
    hide HoldsOpen, SeesOpen, FirstBlocker, PolledReports, FetchAll, AllFetched;
    var polled := PolledReports(required, reports, FetchAll(required, registry, reachable, now));
    forall d <- with
      ensures HoldsOpen(polled, c, version, d, now) <==> SeesOpen(reports, registry, c, version, d, now)
    {
      PolledHoldsOpen(required, reports, registry, reachable, c, version, d, now);
    }
    var blocker := FirstBlocker(with, polled, c, version, now);
    if blocker.Some? {
      var i :| 0 <= i < |with| && with[i] == blocker.value && !HoldsOpen(polled, c, version, with[i], now)
               && forall j :: 0 <= j < i ==> HoldsOpen(polled, c, version, with[j], now);
      assert IsFirstShut(reports, registry, c, version, with, i, now);
    }
  }

  lemma DecidedOutcome(name: string, mem: PropagationStatus, c: Config, version: string, backend: Backend, calls: Calls,
                       now: int)
    ensures var decided := Decide(Controller(mem, Deciding(c, mem, version)), now);
            var (ctl', _) := Deploy(name, Pull(name, decided, backend, calls.manifestReachable), backend,
                                    calls.deployPublished);
            var target := NextVersion(mem.reports, mem.deployConditions.deployAfter, now);
            ctl'.local == Idle(match FirstBlocker(mem.deployConditions.deployWith, mem.reports, c, version, now)
                               case Some(d) => WaitingFor(d)
                               case None =>
                                 if target == "" then NoCandidate
                                 else if calls.manifestReachable && ManifestTag(name, target) in backend.manifests
                                         && calls.deployPublished
                                 then Propagated(target) else Failed)
  {
    hide FirstBlocker, NextVersion;
  }

  // ---------------------------------------------------------------- what reconciles never do

  // After a reconcile that propagated a version there is one report for each polled deployment, and the
  // version is the choice over them.
  lemma PropagatedIsChoice(c: Config, name: string, stored: PropagationStatus, turn: Turn, version: string)
    requires ConditionsOf(c, name).Some? && Distinct(Required(ConditionsOf(c, name).value)) && Uses(turn, c)
    requires Pass(name, Controller(stored, Idle(Never)), turn.backend, turn.calls, turn.now).0.local
             == Idle(Propagated(version))
    ensures var reports, conditions := After(name, stored, turn).reports, ConditionsOf(c, name).value;
            && UniqueNames(reports) && (forall d <- Required(conditions) :: HasReport(reports, d))
            && NextVersion(reports, conditions.deployAfter, turn.now) == version != ""
  {
    hide ConditionsOf, Load, PublishOwn, Finish, FetchAll, AllFetched, SeesOpen, NextVersion, PolledReports;
    var (polls, registry) := Start(name, Controller(stored, Idle(Never)), turn.backend, turn.calls);
    StartPolls(name, stored, Never, turn.backend, turn.calls);
    if polls.local.Polls? {
      FinishCases(name, polls, registry, turn.calls, turn.now, version);
      var required := Required(polls.local.mem.deployConditions);
      OneReportEach(required, polls.local.mem.reports,
                    FetchAll(required, registry.statuses, turn.calls.reachable, turn.now));
    } else {
      StoppedPass(name, polls, registry, turn.calls, turn.now);
    }
  }

  // A choice has baked in the history of every listed deployment.
  lemma ChoiceIsBakedInReport(reports: seq<Report>, after: DeployAfter, now: int, d: string)
    requires UniqueNames(reports) && HasReport(reports, d) && d in after.deployments
    requires NextVersion(reports, after, now) != ""
    ensures Choice(reports, after, now) == Some(NextVersion(reports, after, now))
    ensures after.bakeTime <= HealthyDuration(StatusesOf(reports, d), NextVersion(reports, after, now), now)
  {
    hide HealthyDuration, Candidates, ReportIndex, FirstQualifying;
    assert Qualifies(reports, after, NextVersion(reports, after, now), now);
    var i :| 0 <= i < |reports| && reports[i].deploymentName == d;
    ReportIndexOfDistinct(reports, i);
  }

  lemma OneMoreTurn(c: Config, name: string, stored: PropagationStatus, turns: seq<Turn>, turn: Turn)
    ensures StoredAfter(name, stored, turns + [turn]) == After(name, StoredAfter(name, stored, turns), turn)
    ensures AllUse(turns, c) && Uses(turn, c) ==> AllUse(turns + [turn], c)
  {
    assert (turns + [turn])[..|turns|] == turns;
  }

  // A veto in the settled part of a polled history holds through any reconciles: none of them ever
  // propagates the version while that deployment is listed with a positive bake time.
  lemma {:induction false} VetoedIsNeverPropagated(c: Config, name: string, stored: PropagationStatus, turns: seq<Turn>,
                                                   turn: Turn, d: string, version: string)
    requires Polled(c, name, d) && AllUse(turns, c) && Uses(turn, c)
    requires var after := ConditionsOf(c, name).value.deployAfter; d in after.deployments && after.bakeTime > 0
    requires var h := StatusesOf(stored.reports, d); PendingYields(h) && Vetoed(Settled(h), version)
    ensures var last := Controller(StoredAfter(name, stored, turns), Idle(Never));
            Pass(name, last, turn.backend, turn.calls, turn.now).0.local != Idle(Propagated(version))
  {
    hide Pass, StatusesOf, StoredAfter, ConditionsOf, PendingYields, Settled, NextVersion, HealthyDuration, Required,
      Uses, AllUse;
    var before := StoredAfter(name, stored, turns);
    OneMoreTurn(c, name, stored, turns, turn);
    SettledSurvivesReconciles(c, name, stored, turns + [turn], d);
    var h, g := StatusesOf(stored.reports, d), StatusesOf(After(name, before, turn).reports, d);
    PrefixVetoes(Settled(h), g, version, turn.now);
    if Pass(name, Controller(before, Idle(Never)), turn.backend, turn.calls, turn.now).0.local
      == Idle(Propagated(version)) {
      PropagatedIsChoice(c, name, before, turn, version);
      ChoiceIsBakedInReport(After(name, before, turn).reports, ConditionsOf(c, name).value.deployAfter, turn.now, d);
      assert false;
    }
  }

  lemma PrefixVetoes(h: History, g: History, version: string, now: int)
    requires h <= g && Vetoed(h, version)
    ensures HealthyDuration(g, version, now) == 0
  {
    var i :| 0 <= i < |h| && h[i].version == version && !h[i].state.Healthy?;
    assert g[i] == h[i];
  }

  // End to end: what a controller that started from nothing ever propagates has baked in the complete
  // log of its polls of every deployment it comes after.
  lemma {:induction false} WhatIsPropagatedIsBaked(c: Config, name: string, turns: seq<Turn>, turn: Turn, from: int,
                                                   d: string, version: string)
    requires Polled(c, name, d) && AllUse(turns, c) && Uses(turn, c) && Between(turns + [turn], from, turn.now)
    requires var after := ConditionsOf(c, name).value.deployAfter; d in after.deployments && after.bakeTime > 0
    requires var last := Controller(StoredAfter(name, NO_STATUS, turns), Idle(Never));
             Pass(name, last, turn.backend, turn.calls, turn.now).0.local == Idle(Propagated(version))
    ensures var bake := ConditionsOf(c, name).value.deployAfter.bakeTime;
            BakedInLog(PollsOf(name, NO_STATUS, turns + [turn], d), version, bake, turn.now)
  {
    hide Pass, StatusesOf, StoredAfter, PollsOf, ConditionsOf, NextVersion, HealthyDuration, Required, Uses, AllUse,
      Between, BakedInLog;
    var before, all := StoredAfter(name, NO_STATUS, turns), turns + [turn];
    OneMoreTurn(c, name, NO_STATUS, turns, turn);
    PropagatedIsChoice(c, name, before, turn, version);
    ChoiceIsBakedInReport(After(name, before, turn).reports, ConditionsOf(c, name).value.deployAfter, turn.now, d);
    HistoryIsFoldOfPolls(c, name, NO_STATUS, all, d);
    PollsAreClocked(c, name, NO_STATUS, all, d, from, turn.now);
    NothingKeptYet(d);
    DurationIsBackedByLog(PollsOf(name, NO_STATUS, all, d), version, ConditionsOf(c, name).value.deployAfter.bakeTime,
                          turn.now);
  }

  lemma NothingKeptYet(d: string)
    ensures StatusesOf(NO_STATUS.reports, d) == []
  {
  }

  // ---------------------------------------------------------------- no regression

  // The registry holds only what controllers publish, which is Healthy.
  ghost predicate OnlyHealthy(turns: seq<Turn>) {
    forall t <- turns :: forall d <- t.backend.statuses :: t.backend.statuses[d].state.Healthy?
  }

  ghost predicate AllHealthyPolls(polls: seq<PollOutcome>) {
    forall p <- polls :: p.FetchFailed? || p.status.state.Healthy?
  }

  function Successes(polls: seq<PollOutcome>): seq<DeploymentStatus> {
    if polls == [] then []
    else
      var front, p := polls[..|polls| - 1], polls[|polls| - 1];
      Successes(front) + if p.Fetched? then [p.status] else []
  }

  // When all is Healthy a failed poll leaves no trace.
  lemma {:induction false} HealthyPollsAppend(h: History, polls: seq<PollOutcome>, t: int)
    requires AllHealthy(h) && AllHealthyPolls(polls) && ObservedBy(polls, t) && NotAfter(h, t)
    ensures AllHealthy(Successes(polls)) && NotAfter(Successes(polls), t)
    ensures AfterPolls(h, polls) == AppendAll(h, Successes(polls))
    ensures AllHealthy(AfterPolls(h, polls)) && NotAfter(AfterPolls(h, polls), t)
  {
    hide Append;
    if polls != [] {
      var front, p := polls[..|polls| - 1], polls[|polls| - 1];
      assert polls == front + [p] && p in polls;
      assert forall x <- front :: x in polls;
      assert ObservedBy(front, t);
      HealthyPollsAppend(h, front, t);
      AfterPollsThen(h, front, p);
      HealthyAppendAll(h, Successes(front), p, t);
    }
  }

  lemma HealthyAppendAll(h: History, news: seq<DeploymentStatus>, p: PollOutcome, t: int)
    requires AllHealthy(h) && NotAfter(h, t) && AllHealthy(news) && NotAfter(news, t)
    requires p.FetchFailed? || (p.status.state.Healthy? && p.status.start <= t)
    ensures var all := news + if p.Fetched? then [p.status] else [];
            && AfterPoll(AppendAll(h, news), p) == AppendAll(h, all)
            && AllHealthy(AppendAll(h, all)) && NotAfter(AppendAll(h, all), t)
  {
    hide Append;
    var all := news + if p.Fetched? then [p.status] else [];
    HealthyPollsOnlyExtend(h, news, t);
    HealthyPollsOnlyExtend(h, all, t);
    if p.Fetched? {
      assert all[..|all| - 1] == news;
    } else {
      assert all == news;
    }
  }

  // One report for each polled deployment, in their order.
  ghost predicate Aligned(required: seq<string>, reports: seq<Report>) {
    |reports| == |required| && forall i :: 0 <= i < |reports| ==> reports[i].deploymentName == required[i]
  }

  lemma EndPollAligns(ctl: Controller, persisted: bool)
    requires ctl.local.Polls? && ctl.stored.reports == ctl.local.mem.reports
    ensures var required := Required(ctl.local.mem.deployConditions);
            var before, after := ctl.stored.reports, EndPoll(ctl, persisted).stored.reports;
            || Aligned(required, after)
            || (|after| == |before| && forall i :: 0 <= i < |after| ==>
                after[i].deploymentName == before[i].deploymentName)
  {
    hide ReportIndex, StatusesOf, AllFetched, Required;
  }

  lemma TurnAligns(c: Config, name: string, stored: PropagationStatus, turn: Turn)
    requires ConditionsOf(c, name).Some? && Uses(turn, c)
    ensures var required := Required(ConditionsOf(c, name).value);
            var after := After(name, stored, turn).reports;
            && (Aligned(required, stored.reports) ==> Aligned(required, after))
            && (stored.reports == [] ==> after == [] || Aligned(required, after))
  {
    hide ConditionsOf, Required, Load, PublishOwn, EndPoll, Decide, Pull, Deploy, FetchAll;
    var (polls, registry) := Start(name, Controller(stored, Idle(Never)), turn.backend, turn.calls);
    StartPolls(name, stored, Never, turn.backend, turn.calls);
    var fetched := FetchesAll(polls, registry, turn.calls.reachable, turn.now);
    DecisionKeeps(name, EndPoll(fetched, turn.calls.reportsPersisted), registry, turn.calls, turn.now);
    if polls.local.Polls? {
      EndPollAligns(fetched, turn.calls.reportsPersisted);
    } else {
      EndPollOfIdle(fetched, turn.calls.reportsPersisted);
    }
  }

  lemma {:induction false} RunAligns(c: Config, name: string, stored: PropagationStatus, turns: seq<Turn>)
    requires ConditionsOf(c, name).Some? && AllUse(turns, c)
    ensures var required := Required(ConditionsOf(c, name).value);
            var after := StoredAfter(name, stored, turns).reports;
            && (Aligned(required, stored.reports) ==> Aligned(required, after))
            && (stored.reports == [] ==> after == [] || Aligned(required, after))
  {
    hide ConditionsOf, Required, After, Aligned, Uses;
    if turns != [] {
      assert turns[|turns| - 1] in turns;
      RunAligns(c, name, stored, turns[..|turns| - 1]);
      TurnAligns(c, name, StoredAfter(name, stored, turns[..|turns| - 1]), turns[|turns| - 1]);
    }
  }

  lemma PollIsHealthy(name: string, stored: PropagationStatus, turn: Turn, d: string)
    requires forall d <- turn.backend.statuses :: turn.backend.statuses[d].state.Healthy?
    ensures var p := PollOf(name, stored, turn, d); p.FetchFailed? || p.status.state.Healthy?
  {
    hide Load;
  }

  lemma {:induction false} PollsAreHealthy(name: string, stored: PropagationStatus, turns: seq<Turn>, d: string)
    requires OnlyHealthy(turns)
    ensures AllHealthyPolls(PollsOf(name, stored, turns, d))
  {
    hide PollOf;
    if turns != [] {
      assert turns[|turns| - 1] in turns;
      PollsAreHealthy(name, stored, turns[..|turns| - 1], d);
      PollIsHealthy(name, StoredAfter(name, stored, turns[..|turns| - 1]), turns[|turns| - 1], d);
    }
  }

  // What holds of a controller that has polled Healthy statuses only.
  ghost predicate Sane(c: Config, name: string, stored: PropagationStatus, t: int) {
    && ConditionsOf(c, name).Some? && Distinct(Required(ConditionsOf(c, name).value))
    && (stored.reports == [] || Aligned(Required(ConditionsOf(c, name).value), stored.reports))
    && forall i :: 0 <= i < |stored.reports| ==>
         AllHealthy(stored.reports[i].statuses) && NotAfter(stored.reports[i].statuses, t)
  }

  lemma SaneHistory(c: Config, name: string, stored: PropagationStatus, t: int, d: string)
    requires Sane(c, name, stored, t)
    ensures AllHealthy(StatusesOf(stored.reports, d)) && NotAfter(StatusesOf(stored.reports, d), t)
  {
    hide ReportIndex, ConditionsOf, Required;
  }

  // Over further reconciles every report grows by what the successful polls saw.
  lemma RunGrows(c: Config, name: string, stored: PropagationStatus, turns: seq<Turn>, from: int, to: int, d: string)
    requires Sane(c, name, stored, from) && AllUse(turns, c) && Between(turns, from, to) && OnlyHealthy(turns)
    requires d in Required(ConditionsOf(c, name).value)
    ensures var h, news := StatusesOf(stored.reports, d), Successes(PollsOf(name, stored, turns, d));
            && AllHealthy(news) && NotAfter(news, to) && NotAfter(h, to) && AllHealthy(h)
            && StatusesOf(StoredAfter(name, stored, turns).reports, d) == AppendAll(h, news)
            && AllHealthy(AppendAll(h, news)) && NotAfter(AppendAll(h, news), to)
  {
    SaneHistory(c, name, stored, from, d);
    hide StatusesOf, ConditionsOf, Required, PollsOf, StoredAfter, AppendAll, AfterPolls, Uses, AllHealthy;
    HistoryIsFoldOfPolls(c, name, stored, turns, d);
    PollsAreClocked(c, name, stored, turns, d, from, to);
    PollsAreHealthy(name, stored, turns, d);
    HealthyPollsAppend(StatusesOf(stored.reports, d), PollsOf(name, stored, turns, d), to);
  }

  lemma AlignedReport(required: seq<string>, reports: seq<Report>, i: nat)
    requires Aligned(required, reports) && Distinct(required) && i < |required|
    ensures StatusesOf(reports, required[i]) == reports[i].statuses && UniqueNames(reports)
  {
    ReportIndexOfDistinct(reports, i);
  }

  lemma StaysSane(c: Config, name: string, stored: PropagationStatus, turns: seq<Turn>, from: int, to: int)
    requires Sane(c, name, stored, from) && AllUse(turns, c) && Between(turns, from, to) && OnlyHealthy(turns)
    ensures Sane(c, name, StoredAfter(name, stored, turns), to)
  {
    hide StatusesOf, ConditionsOf, Required, PollsOf, StoredAfter, AppendAll, Uses, AllHealthy, NotAfter, Between;
    var required := Required(ConditionsOf(c, name).value);
    var reports := StoredAfter(name, stored, turns).reports;
    RunAligns(c, name, stored, turns);
    forall i | 0 <= i < |reports| ensures AllHealthy(reports[i].statuses) && NotAfter(reports[i].statuses, to) {
      AlignedReport(required, reports, i);
      RunGrows(c, name, stored, turns, from, to, required[i]);
    }
  }

  lemma NothingIsSane(c: Config, name: string, t: int)
    requires ConditionsOf(c, name).Some? && Distinct(Required(ConditionsOf(c, name).value))
    ensures Sane(c, name, NO_STATUS, t)
  {
  }

  // When the registry holds only Healthy statuses, an answer stays an answer through any further
  // reconciles, whichever fail, and never moves back in the first listed deployment's history.
  lemma {:induction false} NoRegressionOverReconciles(c: Config, name: string, turns: seq<Turn>, more: seq<Turn>,
                                                      from: int, now: int, later: int)
    requires ConditionsOf(c, name).Some? && Distinct(Required(ConditionsOf(c, name).value))
    requires AllUse(turns + more, c) && OnlyHealthy(turns + more) && Between(turns, from, now)
             && Between(more, now, later)
    requires var after := ConditionsOf(c, name).value.deployAfter;
             after.deployments != [] && Choice(StoredAfter(name, NO_STATUS, turns).reports, after, now).Some?
    ensures var after := ConditionsOf(c, name).value.deployAfter;
            var before := StoredAfter(name, NO_STATUS, turns).reports;
            var grown := StoredAfter(name, StoredAfter(name, NO_STATUS, turns), more).reports;
            && Choice(grown, after, later).Some?
            && LastIndex(StatusesOf(before, after.deployments[0]), Choice(before, after, now).value)
               <= LastIndex(StatusesOf(grown, after.deployments[0]), Choice(grown, after, later).value)
  {
    hide StatusesOf, ConditionsOf, PollsOf, StoredAfter, AppendAll, Uses, AllHealthy, NotAfter, Between, LastIndex,
      Choice, Sane, Required;
    assert forall t <- turns :: t in turns + more;
    assert forall t <- more :: t in turns + more;
    var middle := StoredAfter(name, NO_STATUS, turns);
    NothingIsSane(c, name, from);
    StaysSane(c, name, NO_STATUS, turns, from, now);
    NoRegressionFrom(c, name, middle, more, now, later);
  }

  lemma NoRegressionFrom(c: Config, name: string, stored: PropagationStatus, turns: seq<Turn>, now: int, later: int)
    requires Sane(c, name, stored, now) && AllUse(turns, c) && OnlyHealthy(turns) && Between(turns, now, later)
    requires var after := ConditionsOf(c, name).value.deployAfter;
             after.deployments != [] && Choice(stored.reports, after, now).Some?
    ensures var after := ConditionsOf(c, name).value.deployAfter;
            var grown := StoredAfter(name, stored, turns).reports;
            && Choice(grown, after, later).Some?
            && LastIndex(StatusesOf(stored.reports, after.deployments[0]), Choice(stored.reports, after, now).value)
               <= LastIndex(StatusesOf(grown, after.deployments[0]), Choice(grown, after, later).value)
  {
    hide StatusesOf, ConditionsOf, PollsOf, StoredAfter, AppendAll, Uses, AllHealthy, NotAfter, Between, LastIndex,
      Choice;
    var conditions := ConditionsOf(c, name).value;
    var required, after := Required(conditions), conditions.deployAfter;
    var reports, grown := stored.reports, StoredAfter(name, stored, turns).reports;
    NoReportNoChoice(after, now);
    RunAligns(c, name, stored, turns);
    assert Aligned(required, reports) && Aligned(required, grown);
    var news := seq(|required|, i requires 0 <= i < |required| => Successes(PollsOf(name, stored, turns, required[i])));
    forall i | 0 <= i < |required|
      ensures AllHealthy(reports[i].statuses) && NotAfter(reports[i].statuses, later) && AllHealthy(news[i])
              && NotAfter(news[i], later)
      ensures grown[i] == Report(reports[i].deploymentName, AppendAll(reports[i].statuses, news[i]))
    {
      AlignedReport(required, reports, i);
      AlignedReport(required, grown, i);
      RunGrows(c, name, stored, turns, now, later, required[i]);
    }
    RequiredHasWith(conditions);
    var first := after.deployments[0];
    assert first in required;
    var k :| 0 <= k < |required| && required[k] == first;
    AlignedReport(required, reports, k);
    AlignedReport(required, grown, k);
    assert now <= later by { hide *; BetweenGrows(turns, now, later); }
    NoRegression(reports, news, grown, k, after, now, later);
  }

  lemma BetweenGrows(turns: seq<Turn>, from: int, to: int)
    requires Between(turns, from, to)
    ensures from <= to
  {
  }

  lemma NoReportNoChoice(after: DeployAfter, now: int)
    requires after.deployments != []
    ensures Choice([], after, now).None?
  {
  }

  // ---------------------------------------------------------------- every reconcile ends

  lemma DecisionEnds(name: string, ctl: Controller, backend: Backend, calls: Calls, now: int)
    requires ctl.local.Deciding? || ctl.local.Idle?
    ensures Deploy(name, Pull(name, Decide(ctl, now), backend, calls.manifestReachable), backend,
                   calls.deployPublished).0.local.Idle?
  {
    hide FirstBlocker, NextVersion;
  }

  lemma PassEnds(name: string, ctl: Controller, backend: Backend, calls: Calls, now: int)
    requires ctl.local.Idle?
    ensures Pass(name, ctl, backend, calls, now).0.local.Idle?
  {
    hide ConditionsOf, Load, PublishOwn, EndPoll, Decide, Pull, Deploy, FetchesAll, FetchAll, AllFetched, PolledReports;
    var (polls, registry) := Start(name, ctl, backend, calls);
    StartPolls(name, ctl.stored, ctl.local.last, backend, calls);
    var fetched := FetchesAll(polls, registry, calls.reachable, now);
    if polls.local.Polls? {
      EndOfPoll(polls, registry, calls.reachable, now, calls.reportsPersisted);
    } else {
      NotFetching(polls, registry, calls.reachable, now);
      EndPollOfIdle(fetched, calls.reportsPersisted);
    }
    DecisionEnds(name, EndPoll(fetched, calls.reportsPersisted), registry, calls, now);
  }

  lemma NotFetching(ctl: Controller, backend: Backend, reachable: set<string>, now: int)
    requires !ctl.local.Polls?
    ensures FetchesAll(ctl, backend, reachable, now) == ctl
  {
  }
}
