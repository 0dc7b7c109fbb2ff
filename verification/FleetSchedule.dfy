// Schedules in which a reconcile runs through without interruption: as events of the fleet such a
// reconcile does what the value-level pass does, and what that pass leaves behind.
module FleetSchedule {
  import opened Wrappers
  import opened Statuses
  import opened Selection
  import opened Topology
  import opened Propagation
  import R = Reconciliation
  import opened Fleet

  lemma {:induction false} RunConcat(c: Config, f: Fleet, a: seq<Event>, b: seq<Event>)
    ensures Run(c, f, a + b) == Run(c, Run(c, f, a), b)
  {
    hide Step;
    if b == [] {
      assert a + b == a;
    } else {
      var front := b[..|b| - 1];
      RunConcat(c, f, a, front);
      assert (a + b)[..|a + b| - 1] == a + front;
    }
  }

  lemma RunOne(c: Config, f: Fleet, ev: Event)
    ensures Run(c, f, [ev]) == Step(c, f, ev)
  {
    hide Step;
    assert [ev][..0] == [];
    assert Run(c, f, [ev][..0]) == f;
  }

  function RequiredBy(c: Config, d: string): seq<string> {
    match ConditionsOf(c, d) case Some(conditions) => R.Required(conditions) case None => []
  }

  function SetOf(names: seq<string>): set<string> {
    set s | s in names
  }

  function Fetches(d: string, required: seq<string>): seq<Event> {
    if required == [] then [] else Fetches(d, required[..|required| - 1]) + [Fetch(d, required[|required| - 1], true)]
  }

  // A reconcile of `d` that nothing interrupts and in which no call fails.
  function FullReconcile(c: Config, d: string): seq<Event> {
    [Load(d, true, true, true), Publish(d, true, true)] + Fetches(d, RequiredBy(c, d))
    + [EndPoll(d, true), Decide(d), Pull(d, true), Deploy(d, true)]
  }

  function FullCalls(c: Config, d: string, running: string): R.Calls {
    R.Calls(Some(c), true, Some(running), true, true, true, SetOf(RequiredBy(c, d)), true, true, true)
  }

  // What holds between a controller and the fleet around it while the reconcile of `d` goes on.
  ghost predicate Beside(f: Fleet, g: Fleet, d: string, ctl: R.Controller, backend: R.Backend) {
    && g.clock == f.clock && g.running == f.running && d in f.controllers
    && g.backend == backend && g.controllers == f.controllers[d := ctl]
  }

  function WithFetched(ctl: R.Controller, fetched: Fetched): R.Controller
    requires ctl.local.Polls?
  {
    ctl.(local := ctl.local.(fetched := fetched))
  }

  lemma FetchAllGrows(front: seq<string>, s: string, registry: map<string, DeploymentStatus>, now: int)
    ensures var all := front + [s];
            FetchAll(all, registry, SetOf(all), now)
              == FetchAll(front, registry, SetOf(front), now)[s := FetchOne(registry, s, true, now)]
    ensures FetchAll([], registry, SetOf([]), now) == map[]
  {
    hide FetchOne;
    var all := front + [s];
    assert forall x :: x in all <==> x in front || x == s;
  }

  lemma FetchGoes(c: Config, f: Fleet, g: Fleet, d: string, ctl: R.Controller, backend: R.Backend, s: string)
    requires Beside(f, g, d, ctl, backend) && ctl.local.Polls?
    requires s !in ctl.local.fetched && s in R.Required(ctl.local.mem.deployConditions)
    ensures Beside(f, Step(c, g, Fetch(d, s, true)), d,
                   WithFetched(ctl, ctl.local.fetched[s := FetchOne(backend.statuses, s, true, f.clock)]), backend)
  {
    hide FetchOne, R.Required;
  }

  lemma {:induction false} FetchesGo(c: Config, f: Fleet, g: Fleet, d: string, ctl: R.Controller, backend: R.Backend,
                                     required: seq<string>)
    requires Beside(f, g, d, ctl, backend) && ctl.local.Polls? && ctl.local.fetched == map[]
    requires Distinct(required) && forall s <- required :: s in R.Required(ctl.local.mem.deployConditions)
    ensures Beside(f, Run(c, g, Fetches(d, required)), d,
                   WithFetched(ctl, FetchAll(required, backend.statuses, SetOf(required), f.clock)), backend)
  {
    hide FetchOne, FetchAll, SetOf, Step, Beside, R.Required;
    if required == [] {
      FetchAllGrows([], "", backend.statuses, f.clock);
      assert WithFetched(ctl, map[]) == ctl;
      RunNothing(c, g);
    } else {
      var front, s := required[..|required| - 1], required[|required| - 1];
      FetchesGo(c, f, g, d, ctl, backend, front);
      var h := Run(c, g, Fetches(d, front));
      var before := FetchAll(front, backend.statuses, SetOf(front), f.clock);
      FetchAllKeys(front, backend.statuses, f.clock);
      assert s !in front && s in required;
      FetchGoes(c, f, h, d, WithFetched(ctl, before), backend, s);
      assert required == front + [s];
      FetchAllGrows(front, s, backend.statuses, f.clock);
      RunConcat(c, g, Fetches(d, front), [Fetch(d, s, true)]);
      RunOne(c, h, Fetch(d, s, true));
    }
  }

  lemma FetchAllKeys(required: seq<string>, registry: map<string, DeploymentStatus>, now: int)
    ensures FetchAll(required, registry, SetOf(required), now).Keys == SetOf(required)
    ensures forall s :: s in SetOf(required) <==> s in required
  {
    hide FetchOne;
  }

  lemma RunNothing(c: Config, f: Fleet)
    ensures Run(c, f, []) == f
  {
  }

  // Interleaving aside, the event semantics and the pass agree.
  lemma FullReconcileIsPass(c: Config, f: Fleet, d: string)
    requires WellFormed(c) && Known(c, d)
    requires d in f.controllers && f.controllers[d].local.Idle? && d in f.running
    ensures var g := Run(c, f, FullReconcile(c, d));
            var (ctl, backend) := R.Pass(d, f.controllers[d], f.backend, FullCalls(c, d, f.running[d]), f.clock);
            Beside(f, g, d, ctl, backend)
  {
    hide WellFormed, WaveIndex, Flatten, ConditionsOf, FetchAll, Fetches, R.EndPoll, R.Decide, R.Pull, R.Deploy,
      Distinct;
    RequiredOnce(c, d);
    var calls := FullCalls(c, d, f.running[d]);
    var required := RequiredBy(c, d);
    var ctl0 := f.controllers[d];
    var ctl1 := R.Load(d, ctl0, Some(c), Some(f.running[d]), true, true);
    var (ctl2, backend) := R.PublishOwn(d, ctl1, f.backend, true, true);
    var ctl3 := R.FetchesAll(ctl2, backend, calls.reachable, f.clock);
    var head := [Load(d, true, true, true), Publish(d, true, true)];
    var tail := [EndPoll(d, true), Decide(d), Pull(d, true), Deploy(d, true)];
    StartGoes(c, f, d);
    var f2 := Run(c, f, head);
    FetchesGo(c, f, f2, d, ctl2, backend, required);
    var f3 := Run(c, f2, Fetches(d, required));
    RunConcat(c, f, head, Fetches(d, required));
    RunConcat(c, f, head + Fetches(d, required), tail);
    EndGoes(c, f, f3, d, ctl3, backend);
  }

  lemma StartGoes(c: Config, f: Fleet, d: string)
    requires ConditionsOf(c, d).Some?
    requires d in f.controllers && f.controllers[d].local.Idle? && d in f.running
    ensures var ctl1 := R.Load(d, f.controllers[d], Some(c), Some(f.running[d]), true, true);
            var (ctl2, backend) := R.PublishOwn(d, ctl1, f.backend, true, true);
            && Beside(f, Run(c, f, [Load(d, true, true, true), Publish(d, true, true)]), d, ctl2, backend)
            && ctl2.local.Polls? && ctl2.local.fetched == map[]
            && ctl2.local.mem.deployConditions == ConditionsOf(c, d).value
  {
    hide ConditionsOf, R.Load, R.PublishOwn;
    var load, publish := Load(d, true, true, true), Publish(d, true, true);
    assert [load] + [publish] == [load, publish];
    RunConcat(c, f, [load], [publish]);
    RunOne(c, f, load);
    RunOne(c, Step(c, f, load), publish);
    StartPolls(c, d, f.controllers[d], f.backend, f.running[d]);
  }

  lemma StartPolls(c: Config, d: string, ctl: R.Controller, backend: R.Backend, running: string)
    requires ConditionsOf(c, d).Some?
    ensures var (ctl', _) := R.PublishOwn(d, R.Load(d, ctl, Some(c), Some(running), true, true), backend, true, true);
            && ctl'.local.Polls? && ctl'.local.fetched == map[]
            && ctl'.local.mem.deployConditions == ConditionsOf(c, d).value
  {
    hide ConditionsOf;
  }

  lemma EndGoes(c: Config, f: Fleet, g: Fleet, d: string, ctl: R.Controller, backend: R.Backend)
    requires Beside(f, g, d, ctl, backend)
    ensures var decided := R.Decide(R.EndPoll(ctl, true), f.clock);
            var (ctl', backend') := R.Deploy(d, R.Pull(d, decided, backend, true), backend, true);
            Beside(f, Run(c, g, [EndPoll(d, true), Decide(d), Pull(d, true), Deploy(d, true)]), d, ctl', backend')
  {
    hide R.EndPoll, R.Decide, R.Pull, R.Deploy;
    var e, de, p, dp := EndPoll(d, true), Decide(d), Pull(d, true), Deploy(d, true);
    assert [e, de, p, dp] == [e] + ([de] + ([p] + [dp]));
    RunConcat(c, g, [e], [de] + ([p] + [dp]));
    RunOne(c, g, e);
    var g1 := Step(c, g, e);
    RunConcat(c, g1, [de], [p] + [dp]);
    RunOne(c, g1, de);
    var g2 := Step(c, g1, de);
    RunConcat(c, g2, [p], [dp]);
    RunOne(c, g2, p);
    RunOne(c, Step(c, g2, p), dp);
  }

  lemma ConditionsAre(c: Config, d: string)
    requires ConditionsOf(c, d).Some?
    ensures ConditionsOf(c, d).value == DeployConditions(After(c, d), With(c, d))
    ensures RequiredBy(c, d) == With(c, d) + After(c, d).deployments
  {
    hide AfterOf, WithOf;
  }
}
