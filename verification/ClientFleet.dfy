// One caching client for each controller, all on one registry, with any interleaving of their calls,
// caches lost when a controller restarts, and manifests and configurations published from outside.
// That nobody else writes what a client publishes is a fact here.
module ClientFleet {
  import opened Artifacts
  import opened CachedClient
  import opened ClientSimulation

  datatype Event =
    | Calls(client: string, call: Call)
    // The controller is started anew, with empty caches.
    | Restarts(client: string)
    | Outside(m: ArtifactMetadata, image: Image)

  datatype Clients = Clients(caches: map<string, Cache>, tags: Tags)

  // The registry all clients share.
  datatype Ground = Ground(repository: string, content: string -> Content, released: ArtifactMetadata -> Content)

  function Own(d: string): set<ArtifactMetadata> {
    {StatusOf(d), DeployOf(d)}
  }

  function WorldOf(g: Ground, d: string): World {
    World(g.repository, g.content, g.released, Own(d))
  }

  function CachedEvent(repository: string, s: Clients, ev: Event): (Clients, Answer) {
    match ev
    case Calls(d, call) =>
      var cache := if d in s.caches then s.caches[d] else NO_CACHE;
      var (after, answer) := CachedStep(repository, State(cache, s.tags), call);
      (Clients(s.caches[d := after.cache], after.tags), answer)
    case Restarts(d) => (s.(caches := s.caches[d := NO_CACHE]), Done)
    case Outside(m, image) => (s.(tags := s.tags[OciTag(repository, m) := image]), Done)
  }

  function DirectEvent(repository: string, tags: Tags, ev: Event): (Tags, Answer) {
    match ev
    case Calls(_, call) => DirectStep(repository, tags, call)
    case Restarts(_) => (tags, Done)
    case Outside(m, image) => (tags[OciTag(repository, m) := image], Done)
  }

  // What caches answered for a backend out of reach goes through.
  function ServedEvent(repository: string, s: Clients, ev: Event): Event {
    match ev
    case Calls(d, call) =>
      var cache := if d in s.caches then s.caches[d] else NO_CACHE;
      Calls(d, Served(repository, State(cache, s.tags), call))
    case _ => ev
  }

  // What controllers do: read anything, publish their own status, propagate to their own deployment, as
  // one call or with others acting between its halves.
  // What happens outside: manifests are released, the configuration is published.
  ghost predicate Proper(g: Ground, ev: Event) {
    match ev
    case Calls(d, call) =>
      && Plain(d) && Canonical(Target(call.op))
      && (Publishes(call.op) ==> g.content(call.op.image.digest) == call.op.image.content)
      && (call.op.PublishStatus? || call.op.Propagate? || call.op.Deploy? ==> call.op.deployment == d)
      && !call.op.PublishConfig? && !call.op.Foreign? && call.reach.Honest()
    case Restarts(_) => true
    case Outside(m, image) =>
      && Canonical(m) && (m.kind.ManifestArtifact? || m.kind.PropagationConfigArtifact?)
      && g.content(image.digest) == image.content && (Immutable(m) ==> image.content == g.released(m))
  }

  // Every client is coherent with the registry, as if it were alone.
  ghost predicate AllCoherent(g: Ground, s: Clients, tags: Tags) {
    && (forall d <- s.caches :: Coherent(WorldOf(g, d), State(s.caches[d], s.tags), tags))
    && Coherent(WorldOf(g, ""), State(NO_CACHE, s.tags), tags)
  }

  // ---------------------------------------------------------------- what a client's call does to others

  lemma ProperIsAdmissible(g: Ground, d: string, call: Call)
    requires Proper(g, Calls(d, call))
    ensures Admissible(WorldOf(g, d), call.op)
  {
  }

  // A call writes its own target, or nothing.
  lemma CallWrites(g: Ground, d: string, s: State, tags: Tags, call: Call) returns (image: Image)
    requires Coherent(WorldOf(g, d), s, tags) && Proper(g, Calls(d, call))
    ensures var after := CachedStep(g.repository, s, call).0.tags;
            || after == s.tags
            || (after == s.tags[OciTag(g.repository, Target(call.op)) := image] && Target(call.op) in Own(d)
                && Genuine(WorldOf(g, d), image))
  {
    hide OciTag, Canonical, CachedFetch, Grounded, PublishedInv;
    image := Image("", []);
    match call.op
    case PublishStatus(_, i) => image := i;
    case Deploy(_, i) => image := i;
    case Propagate(_, v) =>
      FetchAgrees(WorldOf(g, d), s, tags, ManifestOf(d, v), call.reach) by { ProperIsAdmissible(g, d, call); }
      var fetched := CachedFetch(g.repository, s.cache, s.tags, ManifestOf(d, v), call.reach);
      if fetched.image.Some? {
        image := fetched.image.value;
      }
    case _ =>
  }

  // Another client stays coherent when somebody writes what is not its own.
  lemma OtherStaysCoherent(g: Ground, d: string, cache: Cache, tags: Tags, direct: Tags, m: ArtifactMetadata,
                           image: Image, direct': Tags)
    requires Coherent(WorldOf(g, d), State(cache, tags), direct)
    requires Canonical(m) && m !in Own(d) && g.content(image.digest) == image.content
    requires Immutable(m) ==> image.content == g.released(m)
    requires var w := WorldOf(g, d);
             AllGenuine(w, direct') && SameContents(tags[OciTag(g.repository, m) := image], direct')
    ensures Coherent(WorldOf(g, d), State(cache, tags[OciTag(g.repository, m) := image]), direct')
  {
    hide OciTag, Canonical, TagsInv, FetchedInv, PublishedInv, AllGenuine, SameContents, Immutable;
    WriteIsGrounded(WorldOf(g, d), State(cache, tags), m, image);
    WriteKeepsPublished(WorldOf(g, d), State(cache, tags), m, image);
  }

  // Nothing changes for it when the others write the registry's contents anew.
  lemma OtherIsNotConcerned(g: Ground, d: string, cache: Cache, tags: Tags, direct: Tags, direct': Tags)
    requires Coherent(WorldOf(g, d), State(cache, tags), direct)
    requires AllGenuine(WorldOf(g, d), direct') && SameContents(tags, direct')
    ensures Coherent(WorldOf(g, d), State(cache, tags), direct')
  {
    hide OciTag, Canonical, TagsInv, FetchedInv, PublishedInv, AllGenuine, SameContents;
  }

  // Empty caches are coherent with whatever a client is coherent with.
  lemma EmptyIsCoherent(g: Ground, d: string, cache: Cache, tags: Tags, direct: Tags, e: string)
    requires Coherent(WorldOf(g, d), State(cache, tags), direct)
    ensures Coherent(WorldOf(g, e), State(NO_CACHE, tags), direct)
  {
    hide OciTag, Canonical, Immutable, SameContents;
  }

  lemma GroundOf(g: Ground, d: string, s: State, tags: Tags, e: string)
    requires Coherent(WorldOf(g, d), s, tags)
    ensures AllGenuine(WorldOf(g, e), tags) && SameContents(s.tags, tags)
  {
    hide OciTag, Canonical, TagsInv, FetchedInv, PublishedInv, SameContents;
  }

  // ---------------------------------------------------------------- one event

  lemma OthersStayCoherent(g: Ground, d: string, cache: Cache, before: State, direct: Tags, call: Call, e: string,
                           direct': Tags)
    requires e != d && Coherent(WorldOf(g, e), State(cache, before.tags), direct)
    requires Coherent(WorldOf(g, d), before, direct) && Proper(g, Calls(d, call))
    requires Coherent(WorldOf(g, d), CachedStep(g.repository, before, call).0, direct')
    ensures Coherent(WorldOf(g, e), State(cache, CachedStep(g.repository, before, call).0.tags), direct')
  {
    hide OciTag, Canonical, Coherent, CachedStep, AllGenuine, SameContents, Genuine;
    var after := CachedStep(g.repository, before, call).0;
    GroundOf(g, d, after, direct', e);
    var image := CallWrites(g, d, before, direct, call);
    if after.tags == before.tags {
      OtherIsNotConcerned(g, e, cache, before.tags, direct, direct');
    } else {
      ImageIsGenuine(g, d, image);
      OtherStaysCoherent(g, e, cache, before.tags, direct, Target(call.op), image, direct');
    }
  }

  lemma ImageIsGenuine(g: Ground, d: string, image: Image)
    requires Genuine(WorldOf(g, d), image)
    ensures g.content(image.digest) == image.content
  {
  }

  lemma CallAgrees(g: Ground, s: Clients, tags: Tags, d: string, call: Call)
    requires AllCoherent(g, s, tags) && Proper(g, Calls(d, call))
    ensures var (s', answer) := CachedEvent(g.repository, s, Calls(d, call));
            var (tags', answer') := DirectEvent(g.repository, tags, ServedEvent(g.repository, s, Calls(d, call)));
            AllCoherent(g, s', tags') && answer == answer'
  {
    hide OciTag, Canonical, Grounded, PublishedInv, CachedStep, DirectStep, Served, Harmless;
    var cache := if d in s.caches then s.caches[d] else NO_CACHE;
    var before := State(cache, s.tags);
    if d !in s.caches {
      EmptyIsCoherent(g, "", NO_CACHE, s.tags, tags, d);
    }
    ProperIsAdmissible(g, d, call);
    StepAgrees(WorldOf(g, d), before, tags, call);
    var after := CachedStep(g.repository, before, call).0;
    var direct' := DirectStep(g.repository, tags, Served(g.repository, before, call)).0;
    EmptyIsCoherent(g, d, after.cache, after.tags, direct', "");
    forall e <- s.caches | e != d ensures Coherent(WorldOf(g, e), State(s.caches[e], after.tags), direct') {
      OthersStayCoherent(g, d, s.caches[e], before, tags, call, e, direct');
    }
  }

  lemma OutsideAgrees(g: Ground, s: Clients, tags: Tags, m: ArtifactMetadata, image: Image)
    requires AllCoherent(g, s, tags) && Proper(g, Outside(m, image))
    ensures var tag := OciTag(g.repository, m);
            AllCoherent(g, s.(tags := s.tags[tag := image]), tags[tag := image])
  {
    hide OciTag, Canonical, Coherent;
    var tag := OciTag(g.repository, m);
    OutsideIsGrounded(g, s.tags, tags, tag, image);
    OtherStaysCoherent(g, "", NO_CACHE, s.tags, tags, m, image, tags[tag := image]);
    forall d <- s.caches ensures Coherent(WorldOf(g, d), State(s.caches[d], s.tags[tag := image]), tags[tag := image]) {
      OtherStaysCoherent(g, d, s.caches[d], s.tags, tags, m, image, tags[tag := image]);
    }
  }

  lemma OutsideIsGrounded(g: Ground, tags: Tags, direct: Tags, tag: string, image: Image)
    requires Coherent(WorldOf(g, ""), State(NO_CACHE, tags), direct) && g.content(image.digest) == image.content
    ensures forall d :: AllGenuine(WorldOf(g, d), direct[tag := image])
    ensures SameContents(tags[tag := image], direct[tag := image])
  {
    hide OciTag, TagsInv, FetchedInv, PublishedInv;
    SameWrite(tags, direct, tag, image, image);
  }

  lemma EventAgrees(g: Ground, s: Clients, tags: Tags, ev: Event)
    requires AllCoherent(g, s, tags) && Proper(g, ev)
    ensures var (s', answer) := CachedEvent(g.repository, s, ev);
            var (tags', answer') := DirectEvent(g.repository, tags, ServedEvent(g.repository, s, ev));
            AllCoherent(g, s', tags') && answer == answer'
  {
    hide OciTag, Canonical, Coherent, CachedStep, DirectStep, Served;
    match ev
    case Calls(d, call) => CallAgrees(g, s, tags, d, call);
    case Restarts(d) => EmptyIsCoherent(g, "", NO_CACHE, s.tags, tags, d);
    case Outside(m, image) => OutsideAgrees(g, s, tags, m, image);
  }

  // ---------------------------------------------------------------- any run

  function CachedEvents(repository: string, s: Clients, events: seq<Event>): (Clients, seq<Answer>) {
    if events == [] then (s, [])
    else
      var (before, answers) := CachedEvents(repository, s, events[..|events| - 1]);
      var (after, answer) := CachedEvent(repository, before, events[|events| - 1]);
      (after, answers + [answer])
  }

  function DirectEvents(repository: string, tags: Tags, events: seq<Event>): (Tags, seq<Answer>) {
    if events == [] then (tags, [])
    else
      var (before, answers) := DirectEvents(repository, tags, events[..|events| - 1]);
      var (after, answer) := DirectEvent(repository, before, events[|events| - 1]);
      (after, answers + [answer])
  }

  ghost predicate NoMoreFaults(ev: Event, served: Event) {
    match ev
    case Calls(d, call) =>
      && served.Calls? && served.client == d && served.call.op == call.op
      && served.call.reach.digest == call.reach.digest && served.call.reach.taken == call.reach.taken
      && (call.reach.fetch ==> served.call.reach.fetch) && (call.reach.publish ==> served.call.reach.publish)
    case _ => served == ev
  }

  function ServedEvents(repository: string, s: Clients, events: seq<Event>): (r: seq<Event>)
    ensures |r| == |events| && forall k :: 0 <= k < |r| ==> NoMoreFaults(events[k], r[k])
  {
    if events == [] then []
    else
      var front, last := events[..|events| - 1], events[|events| - 1];
      ServedEvents(repository, s, front) + [ServedEvent(repository, CachedEvents(repository, s, front).0, last)]
  }

  // However the calls of all clients interleave, whichever fail, whenever caches are lost: every client
  // gets the answers, and the registry the contents, of a fleet without caches in which no more calls
  // fail.
  lemma {:induction false} CachingFleetIsDirectFleet(g: Ground, s: Clients, tags: Tags, events: seq<Event>)
    requires AllCoherent(g, s, tags) && forall k :: 0 <= k < |events| ==> Proper(g, events[k])
    ensures var (s', answers) := CachedEvents(g.repository, s, events);
            var (tags', answers') := DirectEvents(g.repository, tags, ServedEvents(g.repository, s, events));
            AllCoherent(g, s', tags') && answers == answers'
  {
    hide AllCoherent, Proper, CachedEvent, DirectEvent, ServedEvent;
    if events != [] {
      var front, last := events[..|events| - 1], events[|events| - 1];
      CachingFleetIsDirectFleet(g, s, tags, front);
      var served := ServedEvents(g.repository, s, events);
      assert served[..|served| - 1] == ServedEvents(g.repository, s, front);
      EventAgrees(g, CachedEvents(g.repository, s, front).0,
                  DirectEvents(g.repository, tags, ServedEvents(g.repository, s, front)).0, last);
    }
  }

  // So from empty caches on, with the registry in reach, nobody can tell.
  lemma {:induction false} CachingFleetIsInvisible(g: Ground, tags: Tags, events: seq<Event>)
    requires TagsInv(WorldOf(g, ""), tags)
    requires forall k :: 0 <= k < |events| ==>
               Proper(g, events[k]) && (events[k].Calls? ==> events[k].call.reach == IN_REACH)
    ensures var (s, answers) := CachedEvents(g.repository, Clients(map[], tags), events);
            var (direct, answers') := DirectEvents(g.repository, tags, events);
            answers == answers' && SameContents(s.tags, direct)
  {
    hide TagsInv, Proper, CachedEvents, DirectEvents, OciTag;
    var s := Clients(map[], tags);
    StartsCoherent(WorldOf(g, ""), tags);
    CachingFleetIsDirectFleet(g, s, tags, events);
    var served := ServedEvents(g.repository, s, events);
    assert forall k :: 0 <= k < |events| ==> NoMoreFaults(events[k], served[k]) && served[k] == events[k];
    assert served == events;
  }
}
