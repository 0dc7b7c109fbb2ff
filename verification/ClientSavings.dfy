// What the caches save, and when suppressing a write is wrong.
module ClientSavings {
  import opened Wrappers
  import opened Selection
  import opened Artifacts
  import opened CachedClient
  import opened ClientSimulation

  // Propagating `version` is all in the caches.
  ghost predicate Remembered(cache: Cache, d: string, version: string) {
    && ManifestOf(d, version) in cache.fetched && DeployOf(d) in cache.published
    && cache.published[DeployOf(d)].content == cache.fetched[ManifestOf(d, version)].content
  }

  lemma PropagateRemembers(repository: string, cache: Cache, tags: Tags, d: string, version: string, reach: Reach)
    requires CachedPropagate(repository, cache, tags, d, version, reach).done
    ensures Remembered(CachedPropagate(repository, cache, tags, d, version, reach).cache, d, version)
  {
    hide OciTag;
  }

  lemma RememberedIsSilent(repository: string, cache: Cache, tags: Tags, d: string, version: string, reach: Reach)
    requires Remembered(cache, d, version) && version != DEFAULT_TAG
    ensures CachedPropagate(repository, cache, tags, d, version, reach) == PublishOutcome(cache, tags, true, [])
  {
    hide OciTag;
  }

  // Only propagating another version to the same deployment makes it forget.
  predicate Retargets(op: Op, d: string, version: string) {
    (op.Propagate? && op.deployment == d && op.version != version) || (op.Deploy? && op.deployment == d)
  }

  lemma FetchKeepsRemembered(repository: string, cache: Cache, tags: Tags, m: ArtifactMetadata, reach: Reach, d: string,
                             version: string)
    requires Remembered(cache, d, version) && version != DEFAULT_TAG
    ensures Remembered(CachedFetch(repository, cache, tags, m, reach).cache, d, version)
  {
    hide OciTag;
  }

  lemma PublishKeepsRemembered(repository: string, cache: Cache, tags: Tags, m: ArtifactMetadata, image: Image,
                               reach: Reach, d: string, version: string)
    requires Remembered(cache, d, version) && m != DeployOf(d)
    ensures Remembered(CachedPublish(repository, cache, tags, m, image, reach).cache, d, version)
  {
    hide OciTag;
  }

  lemma StaysRemembered(repository: string, s: State, call: Call, d: string, version: string)
    requires Remembered(s.cache, d, version) && version != DEFAULT_TAG && !Retargets(call.op, d, version)
    ensures Remembered(CachedStep(repository, s, call).0.cache, d, version)
  {
    hide OciTag, Remembered, CachedFetch, CachedPublish;
    var m := Target(call.op);
    if call.op.Propagate? && call.op.deployment == d {
      RememberedIsSilent(repository, s.cache, s.tags, d, version, call.reach);
    } else if call.op.Propagate? {
      var fetched := CachedFetch(repository, s.cache, s.tags, ManifestOf(call.op.deployment, call.op.version),
                                 call.reach);
      FetchKeepsRemembered(repository, s.cache, s.tags, ManifestOf(call.op.deployment, call.op.version), call.reach, d,
                           version);
      if fetched.image.Some? {
        PublishKeepsRemembered(repository, fetched.cache, s.tags, m, fetched.image.value, call.reach, d, version);
      }
    } else if Publishes(call.op) {
      PublishKeepsRemembered(repository, s.cache, s.tags, m, call.op.image, call.reach, d, version);
    } else {
      FetchKeepsRemembered(repository, s.cache, s.tags, m, call.reach, d, version);
    }
  }

  lemma {:induction false} StaysRememberedThrough(repository: string, s: State, calls: seq<Call>, d: string,
                                                  version: string)
    requires Remembered(s.cache, d, version) && version != DEFAULT_TAG
    requires forall k :: 0 <= k < |calls| ==> !Retargets(calls[k].op, d, version)
    ensures Remembered(CachedRun(repository, s, calls).0.cache, d, version)
  {
    hide Remembered, CachedStep;
    if calls != [] {
      StaysRememberedThrough(repository, s, calls[..|calls| - 1], d, version);
      StaysRemembered(repository, CachedRun(repository, s, calls[..|calls| - 1]).0, calls[|calls| - 1], d, version);
    }
  }

  // Once a version was propagated, propagating it again makes no request at all and succeeds, whatever
  // the registry holds and whichever calls would fail, until another version is propagated there.
  lemma {:induction false} RepeatedPropagateIsSilent(repository: string, s: State, d: string, version: string,
                                                     first: Reach, between: seq<Call>, again: Reach)
    requires version != DEFAULT_TAG
    requires CachedPropagate(repository, s.cache, s.tags, d, version, first).done
    requires forall k :: 0 <= k < |between| ==> !Retargets(between[k].op, d, version)
    ensures var (s', _) := CachedRun(repository, CachedStep(repository, s, Call(Propagate(d, version), first)).0,
                                     between);
            CachedPropagate(repository, s'.cache, s'.tags, d, version, again)
              == PublishOutcome(s'.cache, s'.tags, true, [])
  {
    hide Remembered, CachedRun, CachedPropagate;
    var start := CachedStep(repository, s, Call(Propagate(d, version), first)).0;
    PropagateRemembers(repository, s.cache, s.tags, d, version, first);
    StaysRememberedThrough(repository, start, between, d, version);
    var s' := CachedRun(repository, start, between).0;
    RememberedIsSilent(repository, s'.cache, s'.tags, d, version, again);
  }

  // ---------------------------------------------------------------- what a fetch costs

  // What was fetched is still under its tag.
  predicate Current(repository: string, cache: Cache, tags: Tags, m: ArtifactMetadata) {
    var tag := OciTag(repository, m);
    m in cache.fetched && tag in tags && tags[tag].digest == cache.fetched[m].digest
  }

  // A released manifest that was fetched once is never asked for again.
  lemma ReleasedManifestIsFree(repository: string, cache: Cache, tags: Tags, m: ArtifactMetadata, reach: Reach)
    requires m in cache.fetched && m.kind == ManifestArtifact && m.version != "latest"
    ensures var fetched := CachedFetch(repository, cache, tags, m, reach);
            fetched.image == Some(cache.fetched[m]) && fetched.cache == cache && fetched.requests == []
  {
    hide OciTag;
  }

  // Anything else that is current costs one digest request and is answered from the cache, whether it
  // could be pulled or not.
  lemma CurrentIsNotPulled(repository: string, cache: Cache, tags: Tags, m: ArtifactMetadata, reach: Reach)
    requires Current(repository, cache, tags, m) && reach.digest
    requires m.kind != ManifestArtifact || m.version == "latest"
    ensures var fetched := CachedFetch(repository, cache, tags, m, reach);
            && fetched.image == Some(cache.fetched[m]) && fetched.cache == cache
            && fetched.requests == [GetDigest(OciTag(repository, m))]
  {
    hide OciTag;
  }

  // What is not current, or not known to be, is pulled and remembered; what was never fetched is not asked
  // the digest of.
  lemma OthersArePulled(repository: string, cache: Cache, tags: Tags, m: ArtifactMetadata, reach: Reach)
    requires m !in cache.fetched || (!(Current(repository, cache, tags, m) && reach.digest)
                                     && (m.kind != ManifestArtifact || m.version == "latest"))
    ensures var tag := OciTag(repository, m);
            var fetched := CachedFetch(repository, cache, tags, m, reach);
            && fetched.requests == (if m in cache.fetched then [GetDigest(tag),
                                                                Request.Pull(tag)] else [Request.Pull(tag)])
            && (if reach.fetch && tag in tags
                then fetched.image == Some(tags[tag])
                  && fetched.cache == cache.(fetched := cache.fetched[m := tags[tag]])
                else fetched.image == None && fetched.cache == cache)
  {
    hide OciTag;
  }

  // ---------------------------------------------------------------- what a publish costs

  // Content published last is not pushed again; anything else is, once.
  lemma PublishPushesOnce(repository: string, cache: Cache, tags: Tags, m: ArtifactMetadata, image: Image, reach: Reach)
    ensures var tag := OciTag(repository, m);
            var p := CachedPublish(repository, cache, tags, m, image, reach);
            if m in cache.published && cache.published[m].content == image.content
            then p == PublishOutcome(cache, tags, true, [])
            else
              && p.requests == [Push(tag)] && p.done == reach.publish
              && p.tags == (if reach.publish || reach.taken then tags[tag := image] else tags)
              && p.cache.fetched == cache.fetched
              && p.cache.published == if reach.publish then cache.published[m := image] else cache.published
  {
    hide OciTag;
  }

  lemma FetchAsksForItsTag(repository: string, cache: Cache, tags: Tags, m: ArtifactMetadata, reach: Reach)
    ensures var tag := OciTag(repository, m);
            forall q <- CachedFetch(repository, cache, tags, m, reach).requests :: q == GetDigest(tag)
              || q == Request.Pull(tag)
  {
    hide OciTag;
  }

  lemma PublishWritesItsTag(repository: string, cache: Cache, tags: Tags, m: ArtifactMetadata, image: Image,
                            reach: Reach)
    ensures var tag := OciTag(repository, m);
            var p := CachedPublish(repository, cache, tags, m, image, reach);
            (p.requests == [] || p.requests == [Push(tag)]) && (p.tags == tags || p.tags == tags[tag := image])
  {
    hide OciTag;
  }

  // Propagating asks for the manifest of that version, and pushes only to what that deployment is to run.
  lemma PropagateTouchesTwoTags(repository: string, cache: Cache, tags: Tags, d: string, version: string, reach: Reach)
    requires d != ""
    ensures var manifest := repository + "/manifests/" + d + ":" + version;
            var deploy := repository + "/deploy/" + d + ":latest";
            var p := CachedPropagate(repository, cache, tags, d, version, reach);
            && (forall q <- p.requests :: q == GetDigest(manifest) || q == Request.Pull(manifest) || q == Push(deploy))
            && (forall tag | tag != deploy ::
                  (tag in p.tags <==> tag in tags) && (tag in tags ==> p.tags[tag] == tags[tag]))
  {
    hide OciTag, CachedFetch, CachedPublish;
    ManifestTag(repository, d, version);
    DeployTag(repository, d);
    FetchAsksForItsTag(repository, cache, tags, ManifestOf(d, version), reach);
    var fetched := CachedFetch(repository, cache, tags, ManifestOf(d, version), reach);
    if fetched.image.Some? {
      PublishWritesItsTag(repository, fetched.cache, tags, DeployOf(d), fetched.image.value, reach);
    }
  }

  // A first propagate pulls the manifest and pushes it; without a manifest nothing is pushed; and what was
  // released and fetched before is not asked for again.
  lemma PropagateCosts(repository: string, cache: Cache, tags: Tags, d: string, version: string, reach: Reach)
    requires d != "" && version != "latest" && DeployOf(d) !in cache.published
    ensures var manifest := repository + "/manifests/" + d + ":" + version;
            var deploy := repository + "/deploy/" + d + ":latest";
            var p := CachedPropagate(repository, cache, tags, d, version, reach);
            && (ManifestOf(d, version) in cache.fetched ==> p.requests == [Push(deploy)] && p.done == reach.publish)
            && (ManifestOf(d, version) !in cache.fetched ==>
                  if reach.fetch && manifest in tags
                  then p.requests == [Request.Pull(manifest), Push(deploy)] && p.done == reach.publish
                  else p.requests == [Request.Pull(manifest)] && !p.done && p.tags == tags && p.cache == cache)
  {
    hide OciTag;
    ManifestTag(repository, d, version);
    DeployTag(repository, d);
  }

  // And when it succeeds, what the deployment is to run is that manifest.
  lemma PropagatedIsToRun(w: World, s: State, direct: Tags, d: string, version: string, reach: Reach)
    requires Coherent(w, s, direct) && Plain(d) && d != "" && DeployOf(d) in w.own && reach.Honest()
    requires CachedPropagate(w.repository, s.cache, s.tags, d, version, reach).done
    ensures var manifest := w.repository + "/manifests/" + d + ":" + version;
            var deploy := w.repository + "/deploy/" + d + ":latest";
            var p := CachedPropagate(w.repository, s.cache, s.tags, d, version, reach);
            manifest in s.tags && deploy in p.tags && p.tags[deploy].content == s.tags[manifest].content
  {
    hide OciTag, Genuine, Grounded, PublishedInv, CachedFetch;
    ManifestTag(w.repository, d, version);
    DeployTag(w.repository, d);
    var fetched := CachedFetch(w.repository, s.cache, s.tags, ManifestOf(d, version), reach);
    var image := fetched.image.value;
    ItsContents(w, s, direct);
    FetchAgrees(w, s, s.tags, ManifestOf(d, version), reach);
    HonestPublishIsHarmless(w, State(fetched.cache, s.tags), s.tags, DeployOf(d), image, reach);
  }

  lemma ItsContents(w: World, s: State, direct: Tags)
    requires Coherent(w, s, direct)
    ensures Coherent(w, s, s.tags)
  {
    hide OciTag, FetchedInv, PublishedInv;
  }

  // ---------------------------------------------------------------- over runs

  // The call writes the artifact, or may.
  predicate Writes(op: Op, m: ArtifactMetadata) {
    (Publishes(op) || op.Propagate? || op.Foreign?) && Target(op) == m
  }

  lemma FetchStaysCurrent(repository: string, cache: Cache, tags: Tags, m: ArtifactMetadata, other: ArtifactMetadata,
                          reach: Reach)
    requires Current(repository, cache, tags, m)
    ensures Current(repository, CachedFetch(repository, cache, tags, other, reach).cache, tags, m)
  {
    hide OciTag;
  }

  lemma PublishStaysCurrent(repository: string, cache: Cache, tags: Tags, m: ArtifactMetadata, other: ArtifactMetadata,
                            image: Image, reach: Reach)
    requires Current(repository, cache, tags, m) && Canonical(m) && Canonical(other) && other != m
    ensures var p := CachedPublish(repository, cache, tags, other, image, reach); Current(repository, p.cache, p.tags,
            m)
  {
    hide OciTag, Canonical;
    CanonicalTags(repository, m, other);
  }

  lemma StaysCurrent(repository: string, s: State, call: Call, m: ArtifactMetadata)
    requires Current(repository, s.cache, s.tags, m) && Canonical(m) && Canonical(Target(call.op))
             && !Writes(call.op, m)
    ensures var after := CachedStep(repository, s, call).0; Current(repository, after.cache, after.tags, m)
  {
    hide OciTag, Canonical, CachedFetch, CachedPublish, Current;
    var other := Target(call.op);
    if call.op.Propagate? {
      var manifest := ManifestOf(call.op.deployment, call.op.version);
      var fetched := CachedFetch(repository, s.cache, s.tags, manifest, call.reach);
      FetchStaysCurrent(repository, s.cache, s.tags, m, manifest, call.reach);
      if fetched.image.Some? {
        PublishStaysCurrent(repository, fetched.cache, s.tags, m, other, fetched.image.value, call.reach);
      }
    } else if call.op.Foreign? {
      ForeignStaysCurrent(repository, s.cache, s.tags, m, other, call.op.image);
    } else if Publishes(call.op) {
      PublishStaysCurrent(repository, s.cache, s.tags, m, other, call.op.image, call.reach);
    } else {
      FetchStaysCurrent(repository, s.cache, s.tags, m, other, call.reach);
    }
  }

  lemma ForeignStaysCurrent(repository: string, cache: Cache, tags: Tags, m: ArtifactMetadata, other: ArtifactMetadata,
                            image: Image)
    requires Current(repository, cache, tags, m) && Canonical(m) && Canonical(other) && other != m
    ensures Current(repository, cache, tags[OciTag(repository, other) := image], m)
  {
    hide OciTag, Canonical;
    CanonicalTags(repository, m, other);
  }

  lemma {:induction false} StaysCurrentThrough(repository: string, s: State, calls: seq<Call>, m: ArtifactMetadata)
    requires Current(repository, s.cache, s.tags, m) && Canonical(m)
    requires forall k :: 0 <= k < |calls| ==> Canonical(Target(calls[k].op)) && !Writes(calls[k].op, m)
    ensures var after := CachedRun(repository, s, calls).0; Current(repository, after.cache, after.tags, m)
  {
    hide OciTag, Canonical, CachedStep, Current, Writes;
    if calls != [] {
      StaysCurrentThrough(repository, s, calls[..|calls| - 1], m);
      StaysCurrent(repository, CachedRun(repository, s, calls[..|calls| - 1]).0, calls[|calls| - 1], m);
    }
  }

  // Reading in its own right, not by way of propagating.
  predicate Reads(op: Op) {
    op.GetStatus? || op.GetConfig?
  }

  lemma FetchedIsCurrent(repository: string, s: State, m: ArtifactMetadata, reach: Reach)
    requires CachedFetch(repository, s.cache, s.tags, m, reach).image.Some? && !Immutable(m)
    ensures Current(repository, CachedFetch(repository, s.cache, s.tags, m, reach).cache, s.tags, m)
  {
    hide OciTag;
  }

  // Once a status or the configuration was read, reading it again costs one digest request and succeeds,
  // whichever pulls fail, until somebody writes it.
  lemma {:induction false} RepeatedReadIsOneDigest(repository: string, s: State, op: Op, first: Reach,
                                                   between: seq<Call>, again: Reach)
    requires Reads(op) && Canonical(Target(op)) && CachedStep(repository, s, Call(op, first)).1.Contents?
             && again.digest
    requires forall k :: 0 <= k < |between| ==> Canonical(Target(between[k].op)) && !Writes(between[k].op, Target(op))
    ensures var (s', _) := CachedRun(repository, CachedStep(repository, s, Call(op, first)).0, between);
            var fetched := CachedFetch(repository, s'.cache, s'.tags, Target(op), again);
            var tag := OciTag(repository, Target(op));
            && fetched.requests == [GetDigest(tag)] && fetched.cache == s'.cache
            && CachedStep(repository, s', Call(op, again)) == (s', AnswerOf(fetched.image)) && fetched.image.Some?
            && tag in s'.tags && fetched.image.value.digest == s'.tags[tag].digest
  {
    hide OciTag, Canonical, CachedRun, CachedFetch;
    var m := Target(op);
    var start := CachedStep(repository, s, Call(op, first)).0;
    FetchedIsCurrent(repository, s, m, first);
    StaysCurrentThrough(repository, start, between, m);
    var s' := CachedRun(repository, start, between).0;
    CurrentIsNotPulled(repository, s'.cache, s'.tags, m, again);
  }

  // What a client published it fetches back.
  lemma PublishedIsFetched(w: World, s: State, tags: Tags, m: ArtifactMetadata, image: Image, reach: Reach)
    requires Coherent(w, s, tags) && Canonical(m) && m in w.own && Genuine(w, image)
    requires CachedPublish(w.repository, s.cache, s.tags, m, image, reach).done
    ensures var p := CachedPublish(w.repository, s.cache, s.tags, m, image, reach);
            var fetched := CachedFetch(w.repository, p.cache, p.tags, m, IN_REACH);
            fetched.image.Some? && fetched.image.value.content == image.content
  {
    hide OciTag, Genuine, Canonical, Grounded, PublishedInv;
    var p := CachedPublish(w.repository, s.cache, s.tags, m, image, reach);
    var pushed := Pushed(tags, OciTag(w.repository, m), image, reach.(publish := true)).0;
    HonestPublishIsHarmless(w, s, tags, m, image, reach);
    PublishAgrees(w, s, tags, m, image, image, reach);
    FetchAgrees(w, State(p.cache, p.tags), pushed, m, IN_REACH);
    PublishedIsThere(w, p, m);
  }

  lemma PublishedIsThere(w: World, p: PublishOutcome, m: ArtifactMetadata)
    requires PublishedInv(w, p.cache.published, p.tags) && m in p.cache.published
    ensures var tag := OciTag(w.repository, m); tag in p.tags && p.tags[tag].content == p.cache.published[m].content
  {
    hide OciTag, Canonical, Genuine;
  }

  // ---------------------------------------------------------------- when it is wrong

  // A publish that reports success leaves its content under the tag exactly when it was not suppressed
  // or the content was there already.
  lemma PublishTakesEffectExactly(repository: string, cache: Cache, tags: Tags, m: ArtifactMetadata, image: Image,
                                  reach: Reach)
    requires CachedPublish(repository, cache, tags, m, image, reach).done
    ensures var tag := OciTag(repository, m);
            var after := CachedPublish(repository, cache, tags, m, image, reach).tags;
            (tag in after && after[tag].content == image.content) <==>
            (!Suppressed(cache, m, image) || (tag in tags && tags[tag].content == image.content))
  {
    hide OciTag;
  }

  // It does not after the backend of a client was replaced: the clientset keeps the caches.
  lemma ReplacedBackendIsNotWritten(m: ArtifactMetadata, image: Image, before: string, after: string)
    ensures var reach := IN_REACH;
            var published := CachedPublish(before, NO_CACHE, map[], m, image, reach);
            var again := CachedPublish(after, published.cache, map[], m, image, reach);
            published.done && again.done && again.tags == map[]
  {
  }

  // Nor when a push reported failure although the registry took it: content 1 is published, content 2 is
  // taken without acknowledgement, and publishing content 1 again is suppressed.
  lemma LostAcknowledgementIsNotRepaired(repository: string, m: ArtifactMetadata, one: Image, two: Image)
    requires one.content != two.content
    ensures var lost := Reach(true, true, false, true);
            var first := CachedPublish(repository, NO_CACHE, map[], m, one, IN_REACH);
            var second := CachedPublish(repository, first.cache, first.tags, m, two, lost);
            var third := CachedPublish(repository, second.cache, second.tags, m, one, IN_REACH);
            && first.done && !second.done && third.done
            && third.tags[OciTag(repository, m)] == two
            && !HarmlessPublish(repository, State(second.cache, second.tags), m, one)
  {
  }
}
