// The cached client does what a client without caches does, over any sequence of operations with
// failing calls and with writes of others in between; and what the caches save.
module ClientSimulation {
  import opened Wrappers
  import opened Artifacts
  import opened CachedClient

  datatype Op =
    | GetStatus(deployment: string)
    | GetConfig
    | PublishStatus(deployment: string, image: Image)
    | PublishConfig(image: Image)
    | Propagate(deployment: string, version: string)
    // The two halves of it, as calls of their own.
    | Pull(deployment: string, version: string)
    | Deploy(deployment: string, image: Image)
    // Somebody else writes.
    | Foreign(m: ArtifactMetadata, image: Image)

  predicate Publishes(op: Op) {
    op.PublishStatus? || op.PublishConfig? || op.Deploy?
  }

  datatype Call = Call(op: Op, reach: Reach)

  datatype Answer = Contents(content: Content) | Done | Failed

  datatype State = State(cache: Cache, tags: Tags)

  function AnswerOf(image: Option<Image>): Answer {
    match image case Some(i) => Contents(i.content) case None => Failed
  }

  function Finished(done: bool): Answer {
    if done then Done else Failed
  }

  function Target(op: Op): ArtifactMetadata {
    match op
    case GetStatus(d) => StatusOf(d)
    case PublishStatus(d, _) => StatusOf(d)
    case GetConfig => ConfigOf()
    case PublishConfig(_) => ConfigOf()
    case Propagate(d, _) => DeployOf(d)
    case Pull(d, v) => ManifestOf(d, v)
    case Deploy(d, _) => DeployOf(d)
    case Foreign(m, _) => m
  }

  // Where each operation reads or writes.
  lemma OperationsTouch(r: string, d: string, version: string, image: Image)
    requires d != ""
    ensures OciTag(r, Target(GetStatus(d))) == OciTag(r, Target(PublishStatus(d, image)))
            == r + "/statuses/" + d + ":latest"
    ensures OciTag(r, Target(GetConfig)) == OciTag(r, Target(PublishConfig(image))) == r + "/config:latest"
    ensures OciTag(r, Target(Op.Pull(d, version))) == r + "/manifests/" + d + ":" + version
    ensures OciTag(r, Target(Propagate(d, version))) == OciTag(r, Target(Deploy(d, image)))
            == r + "/deploy/" + d + ":latest"
  {
    hide OciTag;
    StatusTag(r, d);
    ConfigTag(r);
    ManifestTag(r, d, version);
    DeployTag(r, d);
  }

  // ---------------------------------------------------------------- with and without caches

  function FetchStep(repository: string, s: State, m: ArtifactMetadata, reach: Reach): (State, Answer) {
    var fetched := CachedFetch(repository, s.cache, s.tags, m, reach);
    (State(fetched.cache, s.tags), AnswerOf(fetched.image))
  }

  function Published(p: PublishOutcome): (State, Answer) {
    (State(p.cache, p.tags), Finished(p.done))
  }

  function CachedStep(repository: string, s: State, call: Call): (State, Answer) {
    match call.op
    case Propagate(d, v) => Published(CachedPropagate(repository, s.cache, s.tags, d, v, call.reach))
    case Foreign(m, image) => (s.(tags := s.tags[OciTag(repository, m) := image]), Done)
    case _ =>
      if Publishes(call.op) then
        Published(CachedPublish(repository, s.cache, s.tags, Target(call.op), call.op.image, call.reach))
      else FetchStep(repository, s, Target(call.op), call.reach)
  }

  function Pushed(tags: Tags, tag: string, image: Image, reach: Reach): (Tags, Answer) {
    (if reach.Pushes() then tags[tag := image] else tags, Finished(reach.publish))
  }

  function DirectStep(repository: string, tags: Tags, call: Call): (Tags, Answer) {
    var tag := OciTag(repository, Target(call.op));
    match call.op
    case Propagate(d, v) =>
      (match Pulled(tags, OciTag(repository, ManifestOf(d, v)), call.reach.fetch)
       case Some(image) => Pushed(tags, tag, image, call.reach)
       case None => (tags, Failed))
    case Foreign(_, image) => (tags[tag := image], Done)
    case _ =>
      if Publishes(call.op) then Pushed(tags, tag, call.op.image, call.reach)
      else (tags, AnswerOf(Pulled(tags, tag, call.reach.fetch)))
  }

  function CachedRun(repository: string, s: State, calls: seq<Call>): (State, seq<Answer>) {
    if calls == [] then (s, [])
    else
      var (before, answers) := CachedRun(repository, s, calls[..|calls| - 1]);
      var (after, answer) := CachedStep(repository, before, calls[|calls| - 1]);
      (after, answers + [answer])
  }

  function DirectRun(repository: string, tags: Tags, calls: seq<Call>): (Tags, seq<Answer>) {
    if calls == [] then (tags, [])
    else
      var (before, answers) := DirectRun(repository, tags, calls[..|calls| - 1]);
      var (after, answer) := DirectStep(repository, before, calls[|calls| - 1]);
      (after, answers + [answer])
  }

  // What an operation got from its fetch, cached or not.
  function Gets(repository: string, s: State, call: Call): bool {
    match call.op
    case Propagate(d, v) => CachedFetch(repository, s.cache, s.tags, ManifestOf(d, v), call.reach).image.Some?
    case _ => CachedStep(repository, s, call).1.Contents?
  }

  // The same call, with what the caches answered for a backend out of reach going through.
  function Served(repository: string, s: State, call: Call): Call {
    var reach := call.reach.(fetch := call.reach.fetch || Gets(repository, s, call),
                             publish := call.reach.publish || CachedStep(repository, s, call).1.Done?);
    call.(reach := reach)
  }

  function AllServed(repository: string, s: State, calls: seq<Call>): (r: seq<Call>)
    ensures |r| == |calls|
    ensures forall k :: 0 <= k < |r| ==> r[k].op == calls[k].op && r[k].reach.digest == calls[k].reach.digest
                                         && r[k].reach.taken == calls[k].reach.taken
                                         && (calls[k].reach.fetch ==> r[k].reach.fetch)
                                         && (calls[k].reach.publish ==> r[k].reach.publish)
  {
    if calls == [] then []
    else
      var front, last := calls[..|calls| - 1], calls[|calls| - 1];
      AllServed(repository, s, front) + [Served(repository, CachedRun(repository, s, front).0, last)]
  }

  // ---------------------------------------------------------------- the assumptions

  // Where it runs: a digest determines the content, a released manifest never changes, and nobody
  // else writes what this client publishes.
  datatype World = World(
    repository: string,
    content: string -> Content,
    released: ArtifactMetadata -> Content,
    own: set<ArtifactMetadata>)

  ghost predicate Genuine(w: World, image: Image) {
    w.content(image.digest) == image.content
  }

  ghost predicate Admissible(w: World, op: Op) {
    && Canonical(Target(op))
    && (op.Propagate? ==> Canonical(ManifestOf(op.deployment, op.version)))
    && (Publishes(op) || op.Foreign? ==> Genuine(w, op.image))
    && (Publishes(op) || op.Propagate? ==> Target(op) in w.own)
    && (op.Foreign? ==> op.m !in w.own && (Immutable(op.m) ==> op.image.content == w.released(op.m)))
  }

  ghost predicate AllGenuine<K>(w: World, images: map<K, Image>) {
    forall k <- images :: Genuine(w, images[k])
  }

  ghost predicate TagsInv(w: World, tags: Tags) {
    && AllGenuine(w, tags)
    && forall m :: Canonical(m) && Immutable(m) && OciTag(w.repository, m) in tags ==>
         tags[OciTag(w.repository, m)].content == w.released(m)
  }

  ghost predicate PublishedInv(w: World, published: map<ArtifactMetadata, Image>, tags: Tags) {
    && AllGenuine(w, published)
    && forall m <- published ::
         && Canonical(m) && m in w.own && OciTag(w.repository, m) in tags
         && tags[OciTag(w.repository, m)].content == published[m].content
  }

  ghost predicate FetchedInv(w: World, fetched: map<ArtifactMetadata, Image>, tags: Tags) {
    && AllGenuine(w, fetched)
    && forall m <- fetched ::
         && Canonical(m)
         && (Immutable(m) ==> OciTag(w.repository, m) in tags && fetched[m].content == w.released(m))
  }

  ghost predicate SameContents(a: Tags, b: Tags) {
    a.Keys == b.Keys && forall t <- a :: t in b && a[t].content == b[t].content
  }

  ghost predicate OwnNoManifests(w: World) {
    forall m <- w.own :: !m.kind.ManifestArtifact?
  }

  // What holds whether pushes report what they did or not.
  ghost predicate Grounded(w: World, s: State, tags: Tags) {
    && OwnNoManifests(w) && TagsInv(w, s.tags) && FetchedInv(w, s.cache.fetched, s.tags)
    && AllGenuine(w, tags) && SameContents(s.tags, tags)
  }

  // And while they do, the registry holds what the client published last.
  ghost predicate Coherent(w: World, s: State, tags: Tags) {
    Grounded(w, s, tags) && PublishedInv(w, s.cache.published, s.tags)
  }

  // What a publish suppresses is under its tag.
  predicate HarmlessPublish(repository: string, s: State, m: ArtifactMetadata, image: Image) {
    Suppressed(s.cache, m, image) ==>
      var tag := OciTag(repository, m); tag in s.tags && s.tags[tag].content == image.content
  }

  // So no call leaves the registry with something else than it says.
  predicate Harmless(repository: string, s: State, call: Call) {
    if call.op.Propagate? then
      var m := ManifestOf(call.op.deployment, call.op.version);
      var fetched := CachedFetch(repository, s.cache, s.tags, m, call.reach);
      fetched.image.Some? ==>
        HarmlessPublish(repository, State(fetched.cache, s.tags), Target(call.op), fetched.image.value)
    else if Publishes(call.op) then HarmlessPublish(repository, s, Target(call.op), call.op.image)
    else true
  }

  // ---------------------------------------------------------------- one call

  lemma FetchAgrees(w: World, s: State, tags: Tags, m: ArtifactMetadata, reach: Reach)
    requires Grounded(w, s, tags) && Canonical(m)
    ensures var fetched := CachedFetch(w.repository, s.cache, s.tags, m, reach);
            var pulled := Pulled(tags, OciTag(w.repository, m), reach.fetch || fetched.image.Some?);
            && Grounded(w, State(fetched.cache, s.tags), tags) && fetched.cache.published == s.cache.published
            && (fetched.image.Some? <==> pulled.Some?)
            && (fetched.image.Some? ==> fetched.image.value.content == pulled.value.content
                                        && Genuine(w, fetched.image.value) && Genuine(w, pulled.value))
  {
    hide OciTag;
    var tag := OciTag(w.repository, m);
    if m in s.cache.fetched {
      assert Genuine(w, s.cache.fetched[m]);
    }
    if tag in s.tags {
      assert Genuine(w, s.tags[tag]) && Genuine(w, tags[tag]);
    }
  }

  // One more image under a tag keeps what is known of the others.
  lemma WriteIsGrounded(w: World, s: State, m: ArtifactMetadata, image: Image)
    requires TagsInv(w, s.tags) && FetchedInv(w, s.cache.fetched, s.tags)
    requires Canonical(m) && Genuine(w, image) && (Immutable(m) ==> image.content == w.released(m))
    ensures var tags := s.tags[OciTag(w.repository, m) := image];
            TagsInv(w, tags) && FetchedInv(w, s.cache.fetched, tags)
  {
    hide OciTag, Genuine, Canonical, Immutable;
    forall x | Canonical(x) ensures OciTag(w.repository, x) == OciTag(w.repository, m) ==> x == m {
      CanonicalTags(w.repository, x, m);
    }
  }

  // It keeps what the client published, when it is the client's own or nothing of the client's.
  lemma WriteKeepsPublished(w: World, s: State, m: ArtifactMetadata, image: Image)
    requires PublishedInv(w, s.cache.published, s.tags) && Canonical(m) && Genuine(w, image)
    ensures var tags := s.tags[OciTag(w.repository, m) := image];
            && (m in w.own ==> PublishedInv(w, s.cache.published[m := image], tags))
            && (m !in w.own ==> PublishedInv(w, s.cache.published, tags))
  {
    hide OciTag, Genuine, Canonical;
    forall x | Canonical(x) ensures OciTag(w.repository, x) == OciTag(w.repository, m) ==> x == m {
      CanonicalTags(w.repository, x, m);
    }
  }

  lemma SameWrite(a: Tags, b: Tags, tag: string, i: Image, j: Image)
    requires SameContents(a, b) && i.content == j.content
    ensures SameContents(a[tag := i], b[tag := j])
    ensures SameContents(a, b[tag := j]) <==> tag in a && a[tag].content == j.content
  {
    assert a[tag := i].Keys == a.Keys + {tag};
    assert b[tag := j].Keys == b.Keys + {tag};
    assert tag in b[tag := j];
    assert tag in a ==> a.Keys == a.Keys + {tag};
  }

  // A publish agrees with a publish without caches exactly when what it suppresses, if it does, is
  // under the tag.
  lemma PublishAgrees(w: World, s: State, tags: Tags, m: ArtifactMetadata, i: Image, j: Image, reach: Reach)
    requires Grounded(w, s, tags) && Canonical(m) && m in w.own
    requires i.content == j.content && Genuine(w, i) && Genuine(w, j)
    ensures var p := CachedPublish(w.repository, s.cache, s.tags, m, i, reach);
            var pushed := Pushed(tags, OciTag(w.repository, m), j, reach.(publish := reach.publish || p.done));
            && (Grounded(w, State(p.cache, p.tags), pushed.0) <==> HarmlessPublish(w.repository, s, m, i))
            && (SameContents(p.tags, pushed.0) <==> HarmlessPublish(w.repository, s, m, i))
            && pushed.1 == Finished(p.done)
  {
    hide OciTag, Genuine, Canonical, TagsInv, FetchedInv;
    var tag := OciTag(w.repository, m);
    SameWrite(s.tags, tags, tag, i, j);
    WriteIsGrounded(w, s, m, i);
  }

  // An honest one is harmless, and stays so.
  lemma HonestPublishIsHarmless(w: World, s: State, tags: Tags, m: ArtifactMetadata, i: Image, reach: Reach)
    requires Coherent(w, s, tags) && Canonical(m) && m in w.own && Genuine(w, i)
    requires reach.Honest() || Suppressed(s.cache, m, i)
    ensures HarmlessPublish(w.repository, s, m, i)
    ensures var p := CachedPublish(w.repository, s.cache, s.tags, m, i, reach);
            PublishedInv(w, p.cache.published, p.tags)
  {
    hide OciTag, Genuine, Canonical, TagsInv, FetchedInv;
    WriteKeepsPublished(w, s, m, i);
  }

  lemma PropagateAgrees(w: World, s: State, tags: Tags, call: Call)
    requires Grounded(w, s, tags) && Admissible(w, call.op) && call.op.Propagate?
    ensures var (s', answer) := CachedStep(w.repository, s, call);
            var (tags', answer') := DirectStep(w.repository, tags, Served(w.repository, s, call));
            && answer == answer'
            && (Grounded(w, s', tags') <==> Harmless(w.repository, s, call))
            && (SameContents(s'.tags, tags') <==> Harmless(w.repository, s, call))
            && (Coherent(w, s, tags) && call.reach.Honest() ==>
                  Harmless(w.repository, s, call) && PublishedInv(w, s'.cache.published, s'.tags))
  {
    hide OciTag, Genuine, Canonical, CachedFetch, CachedPublish, Pulled, TagsInv, FetchedInv, HarmlessPublish,
      PublishedInv, SameContents;
    var m := ManifestOf(call.op.deployment, call.op.version);
    FetchAgrees(w, s, tags, m, call.reach);
    var fetched := CachedFetch(w.repository, s.cache, s.tags, m, call.reach);
    if fetched.image.Some? {
      var s1 := State(fetched.cache, s.tags);
      var pulled := Pulled(tags, OciTag(w.repository, m), true);
      PublishAgrees(w, s1, tags, Target(call.op), fetched.image.value, pulled.value, call.reach);
      if Coherent(w, s, tags) && call.reach.Honest() {
        HonestPublishIsHarmless(w, s1, tags, Target(call.op), fetched.image.value, call.reach);
      }
    }
  }

  // With and without caches a call gives the same answer, and leaves the same contents exactly when it
  // is harmless; which it is while pushes report what they did.
  lemma StepAgrees(w: World, s: State, tags: Tags, call: Call)
    requires Grounded(w, s, tags) && Admissible(w, call.op)
    ensures var (s', answer) := CachedStep(w.repository, s, call);
            var (tags', answer') := DirectStep(w.repository, tags, Served(w.repository, s, call));
            && answer == answer'
            && (Grounded(w, s', tags') <==> Harmless(w.repository, s, call))
            && (SameContents(s'.tags, tags') <==> Harmless(w.repository, s, call))
            && (Coherent(w, s, tags) && call.reach.Honest() ==> Coherent(w, s', tags'))
  {
    hide OciTag, Genuine, Canonical, CachedFetch, CachedPublish, CachedPropagate, Pulled, TagsInv, FetchedInv,
      HarmlessPublish, PublishedInv, SameContents;
    var m := Target(call.op);
    if call.op.Propagate? {
      PropagateAgrees(w, s, tags, call);
    } else if call.op.Foreign? {
      WriteIsGrounded(w, s, m, call.op.image);
      SameWrite(s.tags, tags, OciTag(w.repository, m), call.op.image, call.op.image);
      if Coherent(w, s, tags) { WriteKeepsPublished(w, s, m, call.op.image); }
    } else if Publishes(call.op) {
      PublishAgrees(w, s, tags, m, call.op.image, call.op.image, call.reach);
      if Coherent(w, s, tags) && call.reach.Honest() {
        HonestPublishIsHarmless(w, s, tags, m, call.op.image, call.reach);
      }
    } else {
      FetchAgrees(w, s, tags, m, call.reach);
    }
  }

  // ---------------------------------------------------------------- any run

  ghost predicate AllAdmissible(w: World, calls: seq<Call>) {
    forall k :: 0 <= k < |calls| ==> Admissible(w, calls[k].op)
  }

  // While pushes report what they did, the cached run answers what the direct run answers and leaves the
  // same contents under every tag, when the direct run is granted the calls that the caches made
  // unnecessary.
  lemma {:induction false} CachedRunIsDirectRun(w: World, s: State, tags: Tags, calls: seq<Call>)
    requires Coherent(w, s, tags) && AllAdmissible(w, calls)
    requires forall k :: 0 <= k < |calls| ==> calls[k].reach.Honest()
    ensures var (s', answers) := CachedRun(w.repository, s, calls);
            var (tags', answers') := DirectRun(w.repository, tags, AllServed(w.repository, s, calls));
            Coherent(w, s', tags') && answers == answers'
  {
    hide Grounded, PublishedInv, Admissible, CachedStep, DirectStep, Served, Harmless;
    if calls != [] {
      var front, last := calls[..|calls| - 1], calls[|calls| - 1];
      CachedRunIsDirectRun(w, s, tags, front);
      var served := AllServed(w.repository, s, calls);
      assert served[..|served| - 1] == AllServed(w.repository, s, front);
      StepAgrees(w, CachedRun(w.repository, s, front).0,
                 DirectRun(w.repository, tags, AllServed(w.repository, s, front)).0, last);
    }
  }

  predicate AllHarmless(repository: string, s: State, calls: seq<Call>) {
    calls != [] ==>
      var front, last := calls[..|calls| - 1], calls[|calls| - 1];
      AllHarmless(repository, s, front) && Harmless(repository, CachedRun(repository, s, front).0, last)
  }

  // After every call the two registries hold the same contents.
  ghost predicate AgreesThroughout(repository: string, s: State, tags: Tags, calls: seq<Call>) {
    && SameContents(CachedRun(repository, s, calls).0.tags,
                    DirectRun(repository, tags, AllServed(repository, s, calls)).0)
    && (calls != [] ==> AgreesThroughout(repository, s, tags, calls[..|calls| - 1]))
  }

  // When a push may also report failure although the registry took it, the two agree throughout a run
  // exactly when no publish in it suppresses what is not under its tag; then the answers agree, too.
  lemma {:induction false} AgreesExactlyWhenHarmless(w: World, s: State, tags: Tags, calls: seq<Call>)
    requires Grounded(w, s, tags) && AllAdmissible(w, calls)
    ensures AgreesThroughout(w.repository, s, tags, calls) <==> AllHarmless(w.repository, s, calls)
    ensures AllHarmless(w.repository, s, calls) ==>
              && Grounded(w, CachedRun(w.repository, s, calls).0,
                          DirectRun(w.repository, tags, AllServed(w.repository, s, calls)).0)
              && CachedRun(w.repository, s, calls).1
                 == DirectRun(w.repository, tags, AllServed(w.repository, s, calls)).1
  {
    hide TagsInv, FetchedInv, AllGenuine, SameContents, Admissible, CachedStep, DirectStep, Served, Harmless;
    if calls != [] {
      var front, last := calls[..|calls| - 1], calls[|calls| - 1];
      AgreesExactlyWhenHarmless(w, s, tags, front);
      var served := AllServed(w.repository, s, calls);
      assert served[..|served| - 1] == AllServed(w.repository, s, front);
      if AllHarmless(w.repository, s, front) {
        StepAgrees(w, CachedRun(w.repository, s, front).0,
                   DirectRun(w.repository, tags, AllServed(w.repository, s, front)).0, last);
      }
    }
  }

  // So a client that starts with empty caches cannot be told from one without any while the backend is
  // in reach.
  lemma {:induction false} CachesAreInvisible(w: World, tags: Tags, calls: seq<Call>)
    requires OwnNoManifests(w) && TagsInv(w, tags) && AllAdmissible(w, calls)
    requires forall k :: 0 <= k < |calls| ==> calls[k].reach == IN_REACH
    ensures var (s, answers) := CachedRun(w.repository, State(NO_CACHE, tags), calls);
            var (direct, answers') := DirectRun(w.repository, tags, calls);
            && answers == answers' && s.tags.Keys == direct.Keys
            && forall t <- direct :: s.tags[t].content == direct[t].content
  {
    hide TagsInv, Admissible, CachedRun, DirectRun, OciTag;
    var s := State(NO_CACHE, tags);
    assert Coherent(w, s, tags) by { hide *; StartsCoherent(w, tags); }
    CachedRunIsDirectRun(w, s, tags, calls);
    var served := AllServed(w.repository, s, calls);
    assert forall k :: 0 <= k < |calls| ==> served[k] == calls[k];
    assert served == calls;
  }

  lemma StartsCoherent(w: World, tags: Tags)
    requires OwnNoManifests(w) && TagsInv(w, tags)
    ensures Coherent(w, State(NO_CACHE, tags), tags)
  {
  }
}
