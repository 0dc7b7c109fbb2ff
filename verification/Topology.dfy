// The wave topology of a config: which deployments precede which, and which a first wave waits for.
// Three independent searches of one nested config, and the order on deployments they agree on.
module Topology {
  import opened Wrappers
  import opened Selection

  datatype Wave = Wave(bakeTime: int, deployments: seq<string>)

  datatype Environment = Environment(name: string, waves: seq<Wave>)

  datatype Config = Config(environments: seq<Environment>)

  datatype DeployConditions = DeployConditions(deployAfter: DeployAfter, deployWith: seq<string>)

  // ---------------------------------------------------------------- closed forms

  function Flatten(envs: seq<Environment>): seq<Wave> {
    if envs == [] then [] else envs[0].waves + Flatten(envs[1..])
  }

  function Flat(c: Config): seq<Wave> {
    Flatten(c.environments)
  }

  // Index of the first wave that lists `name`, or |waves|.
  function WaveIndex(waves: seq<Wave>, name: string): (i: nat)
    ensures i <= |waves|
    ensures i < |waves| ==> name in waves[i].deployments
    ensures forall j :: 0 <= j < i ==> name !in waves[j].deployments
  {
    if waves == [] || name in waves[0].deployments then 0 else 1 + WaveIndex(waves[1..], name)
  }

  predicate Lists(env: Environment, name: string) {
    WaveIndex(env.waves, name) < |env.waves|
  }

  // Index of the first environment that lists `name`, or |envs|.
  function EnvIndex(envs: seq<Environment>, name: string): (i: nat)
    ensures i <= |envs|
    ensures i < |envs| ==> Lists(envs[i], name)
    ensures forall j :: 0 <= j < i ==> !Lists(envs[j], name)
  {
    if envs == [] || Lists(envs[0], name) then 0 else 1 + EnvIndex(envs[1..], name)
  }

  function AllDeployments(waves: seq<Wave>): seq<string> {
    if waves == [] then [] else waves[0].deployments + AllDeployments(waves[1..])
  }

  // The deployments and the bake time of the wave before the one that lists `name`, across the
  // border of environments; nothing precedes the very first wave.
  function AfterOf(c: Config, name: string): Option<DeployAfter> {
    var i := WaveIndex(Flat(c), name);
    if i == |Flat(c)| then None
    else if i == 0 then Some(DeployAfter([], 0))
    else Some(DeployAfter(Flat(c)[i - 1].deployments, Flat(c)[i - 1].bakeTime))
  }

  // All deployments of the later waves of the same environment, for a first wave; none for others.
  function WithOf(c: Config, name: string): Option<seq<string>> {
    var e := EnvIndex(c.environments, name);
    if e == |c.environments| then None
    else if WaveIndex(c.environments[e].waves, name) == 0 then Some(AllDeployments(c.environments[e].waves[1..]))
    else Some([])
  }

  function ConditionsOf(c: Config, name: string): Option<DeployConditions> {
    match (AfterOf(c, name), WithOf(c, name))
    case (Some(after), Some(with)) => Some(DeployConditions(after, with))
    case _ => None
  }

  function WaveBakeTime(waves: seq<Wave>, name: string): Option<int> {
    if waves == [] then None
    else if name in waves[0].deployments then Some(waves[0].bakeTime)
    else WaveBakeTime(waves[1..], name)
  }

  function DeploymentBakeTime(envs: seq<Environment>, name: string): int {
    if envs == [] then 0
    else match WaveBakeTime(envs[0].waves, name)
      case Some(bakeTime) => bakeTime
      case None => DeploymentBakeTime(envs[1..], name)
  }

  // ---------------------------------------------------------------- flattening

  lemma {:induction false} FlattenConcat(a: seq<Environment>, b: seq<Environment>)
    ensures Flatten(a + b) == Flatten(a) + Flatten(b)
  {
    if a == [] {
      assert a + b == b;
    } else {
      assert (a + b)[1..] == a[1..] + b;
      FlattenConcat(a[1..], b);
    }
  }

  lemma FlattenOne(env: Environment)
    ensures Flatten([env]) == env.waves
  {
    assert [env][1..] == [];
    assert Flatten([env]) == env.waves + Flatten([env][1..]);
  }

  lemma FlattenAt(envs: seq<Environment>, e: nat)
    requires e < |envs|
    ensures Flatten(envs) == Flatten(envs[..e]) + envs[e].waves + Flatten(envs[e + 1..])
    ensures Flatten(envs[..e + 1]) == Flatten(envs[..e]) + envs[e].waves
  {
    hide *;
    FlattenUpTo(envs, e, envs[..e + 1]);
    assert envs == envs[..e + 1] + envs[e + 1..];
    FlattenConcat(envs[..e + 1], envs[e + 1..]);
  }

  lemma FlattenUpTo(envs: seq<Environment>, e: nat, upTo: seq<Environment>)
    requires e < |envs| && upTo == envs[..e + 1]
    ensures Flatten(upTo) == Flatten(envs[..e]) + envs[e].waves
  {
    hide *;
    assert upTo == envs[..e] + [envs[e]];
    FlattenConcat(envs[..e], [envs[e]]);
    FlattenOne(envs[e]);
  }

  ghost predicate Absent(waves: seq<Wave>, name: string) {
    forall i :: 0 <= i < |waves| ==> name !in waves[i].deployments
  }

  lemma FirstHit(waves: seq<Wave>, before: seq<Wave>, w: Wave, rest: seq<Wave>, name: string)
    requires waves == before + [w] + rest && Absent(before, name) && name in w.deployments
    ensures WaveIndex(waves, name) == |before|
  {
    hide WaveIndex;
    assert waves[|before|] == w;
    assert forall i :: 0 <= i < |before| ==> waves[i] == before[i];
  }

  lemma {:induction false} NoEnvLists(envs: seq<Environment>, name: string)
    requires forall j :: 0 <= j < |envs| ==> !Lists(envs[j], name)
    ensures Absent(Flatten(envs), name)
  {
    if envs != [] {
      NoEnvLists(envs[1..], name);
      assert !Lists(envs[0], name);
    }
  }

  // Where the first occurrence is: the environment's offset plus the wave's index in it.
  function Offset(c: Config, e: nat): nat
    requires e <= |c.environments|
  {
    |Flatten(c.environments[..e])|
  }

  predicate Known(c: Config, name: string) {
    WaveIndex(Flat(c), name) < |Flat(c)|
  }

  // Index of the wave of `name` within its own environment.
  function WaveInEnv(c: Config, name: string): nat
    requires EnvIndex(c.environments, name) < |c.environments|
  {
    WaveIndex(c.environments[EnvIndex(c.environments, name)].waves, name)
  }

  lemma Coordinates(c: Config, name: string)
    ensures Known(c, name) <==> EnvIndex(c.environments, name) < |c.environments|
    ensures Known(c, name) ==>
              var e, w, i := EnvIndex(c.environments, name), WaveInEnv(c, name), WaveIndex(Flat(c), name);
              && i == Offset(c, e) + w
              && w < |c.environments[e].waves|
              && Flat(c)[i] == c.environments[e].waves[w]
  {
    hide WaveIndex, EnvIndex, Flatten;
    var envs := c.environments;
    var e := EnvIndex(c.environments, name);
    if e < |envs| {
      var waves := envs[e].waves;
      var w := WaveInEnv(c, name);
      FlattenAt(envs, e);
      NoEnvLists(envs[..e], name);
      var before := Flatten(envs[..e]) + waves[..w];
      var rest := waves[w + 1..] + Flatten(envs[e + 1..]);
      assert Flat(c) == before + [waves[w]] + rest;
      FirstHit(Flat(c), before, waves[w], rest, name);
    } else {
      NoEnvLists(envs, name);
    }
  }

  lemma {:induction false} WaveBakeTimeOf(waves: seq<Wave>, name: string)
    ensures var i := WaveIndex(waves, name);
            WaveBakeTime(waves, name) == if i < |waves| then Some(waves[i].bakeTime) else None
  {
    if waves != [] && name !in waves[0].deployments {
      WaveBakeTimeOf(waves[1..], name);
    }
  }

  lemma {:induction false} BakeTimeOf(envs: seq<Environment>, name: string)
    ensures var e := EnvIndex(envs, name);
            DeploymentBakeTime(envs, name) ==
            if e < |envs| then envs[e].waves[WaveIndex(envs[e].waves, name)].bakeTime else 0
  {
    if envs != [] {
      WaveBakeTimeOf(envs[0].waves, name);
      if !Lists(envs[0], name) {
        BakeTimeOf(envs[1..], name);
      }
    }
  }

  // The three searches find the same wave, and the first two fail together.
  lemma SearchesAgree(c: Config, name: string)
    ensures AfterOf(c, name).None? <==> WithOf(c, name).None?
    ensures AfterOf(c, name).None? <==> Absent(Flat(c), name)
    ensures Known(c, name) ==>
              var e, w, i := EnvIndex(c.environments, name), WaveInEnv(c, name), WaveIndex(Flat(c), name);
              && i == Offset(c, e) + w < |Flat(c)|
              && Flat(c)[i] == c.environments[e].waves[w]
              && DeploymentBakeTime(c.environments, name) == Flat(c)[i].bakeTime
    ensures !Known(c, name) ==> DeploymentBakeTime(c.environments, name) == 0
  {
    hide WaveIndex, EnvIndex, Flatten, DeploymentBakeTime;
    Coordinates(c, name);
    BakeTimeOf(c.environments, name);
  }

  // ---------------------------------------------------------------- the order on deployments

  // Every name is listed once.
  ghost predicate EachOnce(waves: seq<Wave>) {
    && (forall i, j, d ::
          0 <= i < |waves| && 0 <= j < |waves| && d in waves[i].deployments && d in waves[j].deployments ==> i == j)
    && (forall i :: 0 <= i < |waves| ==> Distinct(waves[i].deployments))
  }

  // No wave is empty, and every deployment name occurs once.
  ghost predicate WellFormed(c: Config) {
    (forall i :: 0 <= i < |Flat(c)| ==> Flat(c)[i].deployments != []) && EachOnce(Flat(c))
  }

  lemma IndexOfMember(c: Config, i: nat, d: string)
    requires WellFormed(c) && i < |Flat(c)| && d in Flat(c)[i].deployments
    ensures WaveIndex(Flat(c), d) == i
  {
    hide WaveIndex, Flatten;
    var j := WaveIndex(Flat(c), d);
    assert d in Flat(c)[i].deployments;
  }

  // DeployAfter goes back exactly one wave in the flattened order, so it is acyclic and every chain
  // of it ends; its bake time is the bake time of the members it waits for.
  lemma AfterGoesBackOneWave(c: Config, name: string, d: string)
    requires WellFormed(c) && Known(c, name)
    ensures d in AfterOf(c, name).value.deployments <==>
              Known(c, d) && WaveIndex(Flat(c), d) + 1 == WaveIndex(Flat(c), name)
    ensures d in AfterOf(c, name).value.deployments ==>
              AfterOf(c, name).value.bakeTime == DeploymentBakeTime(c.environments, d)
  {
    hide WaveIndex, Flatten, DeploymentBakeTime;
    var i := WaveIndex(Flat(c), name);
    if d in AfterOf(c, name).value.deployments {
      IndexOfMember(c, i - 1, d);
    }
    SearchesAgree(c, d);
  }

  lemma {:induction false} AllDeploymentsMembers(waves: seq<Wave>, d: string)
    ensures d in AllDeployments(waves) <==> exists i :: 0 <= i < |waves| && d in waves[i].deployments
  {
    if waves != [] {
      AllDeploymentsMembers(waves[1..], d);
      if i :| 0 <= i < |waves| && d in waves[i].deployments {
        assert i > 0 ==> waves[1..][i - 1] == waves[i];
      }
      if i :| 0 <= i < |waves| - 1 && d in waves[1..][i].deployments {
        assert waves[i + 1] == waves[1..][i];
      }
    }
  }

  // They come in the order of the configuration.
  lemma {:induction false} AllDeploymentsInOrder(before: seq<Wave>, wave: Wave, later: seq<Wave>)
    ensures AllDeployments(before + [wave] + later) == AllDeployments(before) + wave.deployments + AllDeployments(later)
    ensures AllDeployments([]) == []
    decreases before
  {
    var all := before + [wave] + later;
    if before == [] {
      assert all[0] == wave && all[1..] == later;
    } else {
      assert all[0] == before[0] && all[1..] == before[1..] + [wave] + later;
      AllDeploymentsInOrder(before[1..], wave, later);
    }
  }

  lemma OffsetsGrow(c: Config, e: nat, f: nat)
    requires e < f <= |c.environments|
    ensures Offset(c, e) + |c.environments[e].waves| <= Offset(c, f)
  {
    var envs := c.environments;
    FlattenAt(envs, e);
    assert envs[..f] == envs[..e + 1] + envs[e + 1..f];
    FlattenConcat(envs[..e + 1], envs[e + 1..f]);
  }

  lemma MemberCoordinates(c: Config, e: nat, w: nat, d: string)
    requires WellFormed(c) && e < |c.environments| && w < |c.environments[e].waves|
    requires d in c.environments[e].waves[w].deployments
    ensures Known(c, d) && EnvIndex(c.environments, d) == e && WaveInEnv(c, d) == w
    ensures WaveIndex(Flat(c), d) == Offset(c, e) + w
  {
    hide WaveIndex, EnvIndex, Flatten;
    FlattenAt(c.environments, e);
    var i := Offset(c, e) + w;
    assert Flat(c)[i] == c.environments[e].waves[w];
    IndexOfMember(c, i, d);
    Coordinates(c, d);
    if EnvIndex(c.environments, d) < e {
      OffsetsGrow(c, EnvIndex(c.environments, d), e);
    }
  }

  // What a first wave waits for: exactly the later waves of its own environment.
  lemma WithIsLaterWaves(c: Config, a: string, b: string)
    requires WellFormed(c) && Known(c, a)
    ensures WithOf(c, a).Some?
    ensures b in WithOf(c, a).value <==>
              Known(c, b) && EnvIndex(c.environments, a) == EnvIndex(c.environments, b) < |c.environments|
                && WaveInEnv(c, a) == 0 < WaveInEnv(c, b)
  {
    hide WaveIndex, EnvIndex, Flatten, AllDeployments;
    Coordinates(c, a);
    Coordinates(c, b);
    var e := EnvIndex(c.environments, a);
    var waves := c.environments[e].waves;
    AllDeploymentsMembers(waves[1..], b);
    if WaveInEnv(c, a) == 0 {
      if i :| 0 <= i < |waves| - 1 && b in waves[1..][i].deployments {
        MemberCoordinates(c, e, i + 1, b);
      }
      if Known(c, b) && EnvIndex(c.environments, b) == e && WaveInEnv(c, b) > 0 {
        assert b in waves[1..][WaveInEnv(c, b) - 1].deployments;
      }
    }
  }

  // Nobody waits both for and with the same deployment.
  lemma AfterAndWithAreDisjoint(c: Config, name: string, d: string)
    requires WellFormed(c) && Known(c, name)
    ensures WithOf(c, name).Some?
    ensures !(d in AfterOf(c, name).value.deployments && d in WithOf(c, name).value)
    ensures d != name || (d !in AfterOf(c, name).value.deployments && d !in WithOf(c, name).value)
  {
    hide WaveIndex, EnvIndex, Flatten, AfterOf, WithOf;
    WithIsLaterWaves(c, name, d);
    AfterIsSome(c, name);
    AfterGoesBackOneWave(c, name, d);
    Coordinates(c, name);
    Coordinates(c, d);
  }

  lemma AfterIsSome(c: Config, name: string)
    ensures AfterOf(c, name).Some? <==> Known(c, name)
  {
    hide WaveIndex, Flatten;
  }

  // The wave reached by following DeployAfter `n` times from `name`.
  function AfterChain(c: Config, name: string, n: nat): seq<string> {
    if n == 0 then
      if Known(c, name) then Flat(c)[WaveIndex(Flat(c), name)].deployments else []
    else
      var later := AfterChain(c, name, n - 1);
      if later == [] then []
      else match AfterOf(c, later[0]) case Some(after) => after.deployments case None => []
  }

  lemma AfterOfWave(c: Config, i: nat)
    requires WellFormed(c) && i < |Flat(c)|
    ensures var wave := Flat(c)[i].deployments;
            && wave != []
            && AfterOf(c, wave[0]) == Some(if i == 0 then DeployAfter([], 0)
                                           else DeployAfter(Flat(c)[i - 1].deployments, Flat(c)[i - 1].bakeTime))
  {
    hide WaveIndex, Flatten;
    IndexOfMember(c, i, Flat(c)[i].deployments[0]);
  }

  lemma {:induction false} ChainWalksBack(c: Config, name: string, n: nat)
    requires WellFormed(c) && Known(c, name)
    ensures var i := WaveIndex(Flat(c), name);
            AfterChain(c, name, n) == if n <= i then Flat(c)[i - n].deployments else []
  {
    hide WaveIndex, Flatten, WellFormed, AfterOf;
    var i := WaveIndex(Flat(c), name);
    if n > 0 {
      ChainWalksBack(c, name, n - 1);
      if n - 1 <= i {
        AfterOfWave(c, i - (n - 1));
      }
    }
  }

  // DeployWith and DeployAfter describe the same ladder: b is among those a waits with exactly when
  // a is in the first wave of its environment, b is in a later one, and as many DeployAfter steps as
  // b's wave index lead from b to a's wave.
  lemma WithIsAfterReversed(c: Config, a: string, b: string)
    requires WellFormed(c) && Known(c, a) && Known(c, b)
    ensures EnvIndex(c.environments, a) < |c.environments| && EnvIndex(c.environments, b) < |c.environments|
            && WithOf(c, a).Some?
    ensures b in WithOf(c, a).value <==>
              WaveInEnv(c, a) == 0 < WaveInEnv(c, b) && a in AfterChain(c, b, WaveInEnv(c, b))
  {
    hide WaveIndex, EnvIndex, Flatten, AfterChain, WithOf;
    Coordinates(c, a);
    Coordinates(c, b);
    WithIsLaterWaves(c, a, b);
    var n := WaveInEnv(c, b);
    ChainWalksBack(c, b, n);
    var start := Offset(c, EnvIndex(c.environments, b));
    if a in Flat(c)[start].deployments {
      IndexOfMember(c, start, a);
      if WaveInEnv(c, a) == 0 && EnvIndex(c.environments, a) < EnvIndex(c.environments, b) {
        OffsetsGrow(c, EnvIndex(c.environments, a), EnvIndex(c.environments, b));
      } else if WaveInEnv(c, a) == 0 && EnvIndex(c.environments, b) < EnvIndex(c.environments, a) {
        OffsetsGrow(c, EnvIndex(c.environments, b), EnvIndex(c.environments, a));
      }
    }
  }

  // ---------------------------------------------------------------- nobody is polled twice

  lemma {:induction false} AllDeploymentsDistinct(waves: seq<Wave>)
    requires EachOnce(waves)
    ensures Distinct(AllDeployments(waves))
  {
    if waves != [] {
      var first, rest := waves[0].deployments, AllDeployments(waves[1..]);
      EachOnceTail(waves);
      AllDeploymentsDistinct(waves[1..]);
      forall d | d in first ensures d !in rest {
        AllDeploymentsMembers(waves[1..], d);
        assert forall i :: 0 <= i < |waves| - 1 ==> waves[1..][i] == waves[i + 1];
      }
      DistinctConcat(first, rest);
    }
  }

  lemma EachOnceTail(waves: seq<Wave>)
    requires EachOnce(waves) && waves != []
    ensures EachOnce(waves[1..])
  {
    forall i, j, d | 0 <= i < |waves| - 1 && 0 <= j < |waves| - 1 && d in waves[1..][i].deployments
      && d in waves[1..][j].deployments
      ensures i == j
    {
      assert d in waves[i + 1].deployments && d in waves[j + 1].deployments;
    }
  }

  lemma DistinctConcat(a: seq<string>, b: seq<string>)
    requires Distinct(a) && Distinct(b) && forall d :: d in a ==> d !in b
    ensures Distinct(a + b)
  {
    var ab := a + b;
    forall i, j | 0 <= i < j < |ab| ensures ab[i] != ab[j] {
      assert ab[i] in a || ab[i] in b;
      if i < |a| <= j {
        assert ab[i] in a && ab[j] in b;
      }
    }
  }

  lemma LaterWavesEachOnce(c: Config, e: nat)
    requires WellFormed(c) && e < |c.environments| && c.environments[e].waves != []
    ensures EachOnce(c.environments[e].waves[1..])
  {
    hide Flatten;
    var waves := c.environments[e].waves[1..];
    var from := Offset(c, e) + 1;
    FlattenAt(c.environments, e);
    assert forall i :: 0 <= i < |waves| ==> waves[i] == Flat(c)[from + i];
    forall i, j, d | 0 <= i < |waves| && 0 <= j < |waves| && d in waves[i].deployments
      && d in waves[j].deployments ensures i == j {
      assert d in Flat(c)[from + i].deployments && d in Flat(c)[from + j].deployments;
    }
    forall i | 0 <= i < |waves| ensures Distinct(waves[i].deployments) {
      assert waves[i] == Flat(c)[from + i];
    }
  }

  // With unique names a reconcile never requires the same status twice.
  lemma RequiredOnce(c: Config, name: string)
    requires WellFormed(c) && Known(c, name)
    ensures ConditionsOf(c, name).Some?
    ensures var conditions := ConditionsOf(c, name).value;
            Distinct(conditions.deployWith + conditions.deployAfter.deployments)
  {
    hide WaveIndex, EnvIndex, Flatten, AllDeployments;
    SearchesAgree(c, name);
    AfterIsSome(c, name);
    var after, with := AfterOf(c, name).value, WithOf(c, name).value;
    forall d | d in with ensures d !in after.deployments {
      AfterAndWithAreDisjoint(c, name, d);
    }
    var e := EnvIndex(c.environments, name);
    Coordinates(c, name);
    if WaveInEnv(c, name) == 0 {
      LaterWavesEachOnce(c, e);
      AllDeploymentsDistinct(c.environments[e].waves[1..]);
    }
    assert Distinct(after.deployments);
    DistinctConcat(with, after.deployments);
  }

  // ---------------------------------------------------------------- the searches themselves

  // The waves a search has passed when it stands before wave `w` of environment `e`.
  function Visited(c: Config, e: nat, w: nat): seq<Wave>
    requires e < |c.environments| && w <= |c.environments[e].waves|
  {
    Flatten(c.environments[..e]) + c.environments[e].waves[..w]
  }

  function LastOf(visited: seq<Wave>): Wave {
    if visited == [] then Wave(0, []) else visited[|visited| - 1]
  }

  lemma HitAt(c: Config, e: nat, w: nat, name: string)
    requires e < |c.environments| && w < |c.environments[e].waves|
    requires Absent(Visited(c, e, w), name) && name in c.environments[e].waves[w].deployments
    ensures AfterOf(c, name) == Some(DeployAfter(LastOf(Visited(c, e, w)).deployments,
                                                 LastOf(Visited(c, e, w)).bakeTime))
  {
    hide WaveIndex, Flatten;
    var env, visited := c.environments[e], Visited(c, e, w);
    var rest := env.waves[w + 1..] + Flatten(c.environments[e + 1..]);
    FlattenAt(c.environments, e);
    assert Flat(c) == visited + [env.waves[w]] + rest;
    FirstHit(Flat(c), visited, env.waves[w], rest, name);
  }

  lemma NoHit(c: Config, name: string)
    requires Absent(Flatten(c.environments[..|c.environments|]), name)
    ensures AfterOf(c, name).None?
  {
    hide WaveIndex, Flatten;
    assert c.environments[..|c.environments|] == c.environments;
  }

  method DeployAfterFromConfig(name: string, c: Config) returns (r: Result<DeployAfter, string>)
    ensures r.Err? ==> r.error == "failed to find the config for '" + name + "' deployment"
    ensures r.Ok? <==> AfterOf(c, name).Some?
    ensures r.Ok? ==> r.value == AfterOf(c, name).value
  {
    hide WaveIndex, Flatten, AfterOf;
    var lastWave := Wave(0, []);
    NothingVisited(c);
    for e := 0 to |c.environments|
      invariant Absent(Flatten(c.environments[..e]), name)
      invariant lastWave == LastOf(Flatten(c.environments[..e]))
    {
      var env := c.environments[e];
      FlattenAt(c.environments, e);
      assert Visited(c, e, 0) == Flatten(c.environments[..e]);
      for w := 0 to |env.waves|
        invariant Absent(Visited(c, e, w), name)
        invariant lastWave == LastOf(Visited(c, e, w))
      {
        var wave := env.waves[w];
        for d := 0 to |wave.deployments|
          invariant name !in wave.deployments[..d]
        {
          if wave.deployments[d] == name {
            HitAt(c, e, w, name);
            return Ok(DeployAfter(lastWave.deployments, lastWave.bakeTime));
          }
        }
        assert Visited(c, e, w + 1) == Visited(c, e, w) + [wave];
        lastWave := wave;
      }
      assert Visited(c, e, |env.waves|) == Flatten(c.environments[..e + 1]);
    }
    NoHit(c, name);
    return Err("failed to find the config for '" + name + "' deployment");
  }

  lemma NothingVisited(c: Config)
    ensures Flatten(c.environments[..0]) == []
  {
  }

  method DeployWithFromConfig(name: string, c: Config) returns (r: Result<seq<string>, string>)
    ensures r.Err? ==> r.error == "failed to find the config for '" + name + "' deployment"
    ensures r.Ok? <==> WithOf(c, name).Some?
    ensures r.Ok? ==> r.value == WithOf(c, name).value
  {
    var deployments := [];
    for e := 0 to |c.environments|
      invariant deployments == []
      invariant forall j :: 0 <= j < e ==> !Lists(c.environments[j], name)
    {
      var waves := c.environments[e].waves;
      for waveIdx := 0 to |waves|
        invariant deployments == []
        invariant forall j :: 0 <= j < waveIdx ==> name !in waves[j].deployments
      {
        if name in waves[waveIdx].deployments {
          assert WaveIndex(waves, name) == waveIdx;
          assert EnvIndex(c.environments, name) == e;
          if waveIdx == 0 {
            var later := waves[waveIdx + 1..];
            assert later[..0] == [];
            for i := 0 to |later|
              invariant deployments + AllDeployments(later[i..]) == AllDeployments(later)
            {
              assert later[i..][1..] == later[i + 1..];
              deployments := deployments + later[i].deployments;
            }
            return Ok(deployments);
          }
          return Ok([]);
        }
      }
      assert WaveIndex(waves, name) == |waves|;
    }
    assert EnvIndex(c.environments, name) == |c.environments|;
    return Err("failed to find the config for '" + name + "' deployment");
  }

  method DeployConditionsFromConfig(name: string, c: Config) returns (r: Result<DeployConditions, string>)
    ensures r.Err? ==> r.error == "failed to find the config for '" + name + "' deployment"
    ensures r.Ok? <==> ConditionsOf(c, name).Some?
    ensures r.Ok? ==> ConditionsOf(c, name) == Some(r.value)
  {
    var after := DeployAfterFromConfig(name, c);
    if after.Err? {
      return Err(after.error);
    }
    var with := DeployWithFromConfig(name, c);
    if with.Err? {
      return Err(with.error);
    }
    return Ok(DeployConditions(after.value, with.value));
  }
}
