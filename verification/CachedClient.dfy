// The client a controller talks to the backend through: an OCI registry, the cache in front of it,
// and the operations of the propagation client. The functions say what one call does on values; the
// classes do it in place.
module CachedClient {
  import opened Wrappers
  import opened Artifacts

  // ---------------------------------------------------------------- on values

  datatype Request = GetDigest(tag: string) | Pull(tag: string) | Push(tag: string)

  type Tags = map<string, Image>

  datatype Cache = Cache(fetched: map<ArtifactMetadata, Image>, published: map<ArtifactMetadata, Image>)

  const NO_CACHE := Cache(map[], map[])

  // Which backend calls of one operation go through; `taken` is for a push that reports failure although
  // the registry took it.
  datatype Reach = Reach(digest: bool, fetch: bool, publish: bool, taken: bool) {
    // Whether a push changes the registry.
    predicate Pushes() {
      publish || taken
    }

    // Whether it reports what it did.
    predicate Honest() {
      taken ==> publish
    }
  }

  const IN_REACH := Reach(true, true, true, false)

  datatype FetchOutcome = FetchOutcome(cache: Cache, image: Option<Image>, requests: seq<Request>)

  datatype PublishOutcome = PublishOutcome(cache: Cache, tags: Tags, done: bool, requests: seq<Request>)

  function Pulled(tags: Tags, tag: string, reachable: bool): Option<Image> {
    if reachable && tag in tags then Some(tags[tag]) else None
  }

  // The cached image is still the one under the tag.
  predicate Fresh(cache: Cache, tags: Tags, tag: string, m: ArtifactMetadata, reach: Reach) {
    m in cache.fetched && reach.digest && tag in tags && tags[tag].digest == cache.fetched[m].digest
  }

  function CachedFetch(repository: string, cache: Cache, tags: Tags, m: ArtifactMetadata, reach: Reach): FetchOutcome {
    var tag := OciTag(repository, m);
    var asked := if m in cache.fetched then [GetDigest(tag)] else [];
    if m in cache.fetched && Immutable(m) then FetchOutcome(cache, Some(cache.fetched[m]), [])
    else if Fresh(cache, tags, tag, m, reach) then FetchOutcome(cache, Some(cache.fetched[m]), asked)
    else
      var pulled := Pulled(tags, tag, reach.fetch);
      var cache' := if pulled.Some? then cache.(fetched := cache.fetched[m := pulled.value]) else cache;
      FetchOutcome(cache', pulled, asked + [Pull(tag)])
  }

  predicate Suppressed(cache: Cache, m: ArtifactMetadata, image: Image) {
    m in cache.published && cache.published[m].content == image.content
  }

  function CachedPublish(repository: string, cache: Cache, tags: Tags, m: ArtifactMetadata, image: Image,
                         reach: Reach): PublishOutcome {
    var tag := OciTag(repository, m);
    if Suppressed(cache, m, image) then PublishOutcome(cache, tags, true, [])
    else
      var cache' := if reach.publish then cache.(published := cache.published[m := image]) else cache;
      PublishOutcome(cache', if reach.Pushes() then tags[tag := image] else tags, reach.publish, [Push(tag)])
  }

  function StatusOf(deployment: string): ArtifactMetadata {
    ArtifactMetadata(deployment, DeployStatusArtifact, "")
  }

  function ManifestOf(deployment: string, version: string): ArtifactMetadata {
    ArtifactMetadata(deployment, ManifestArtifact, version)
  }

  function DeployOf(deployment: string): ArtifactMetadata {
    ArtifactMetadata(deployment, DeployArtifact, "")
  }

  function ConfigOf(): ArtifactMetadata {
    ArtifactMetadata("", PropagationConfigArtifact, "")
  }

  lemma Joined(r: string, a: string, b: string, x: string, y: string)
    requires x == "/" + a + "/" && y == ":" + b
    ensures forall d: string :: r + "/" + a + "/" + d + ":" + b == r + x + d + y
  {
    forall d: string ensures r + "/" + a + "/" + d + ":" + b == r + x + d + y {
      assert r + "/" + a + "/" == r + x;
    }
  }

  // Where everything is: statuses, manifests by version, what is to run, and the configuration.
  lemma StatusTag(r: string, d: string)
    requires d != ""
    ensures OciTag(r, StatusOf(d)) == r + "/statuses/" + d + ":latest"
  {
    hide OciTag;
    TagParts(r, StatusOf(d));
    Joined(r, "statuses", "latest", "/statuses/", ":latest");
  }

  lemma ManifestTag(r: string, d: string, version: string)
    requires d != ""
    ensures OciTag(r, ManifestOf(d, version)) == r + "/manifests/" + d + ":" + version
  {
    hide OciTag;
    TagParts(r, ManifestOf(d, version));
    Joined(r, "manifests", version, "/manifests/", ":" + version);
    assert r + "/manifests/" + d + (":" + version) == r + "/manifests/" + d + ":" + version;
  }

  lemma DeployTag(r: string, d: string)
    requires d != ""
    ensures OciTag(r, DeployOf(d)) == r + "/deploy/" + d + ":latest"
  {
    hide OciTag;
    TagParts(r, DeployOf(d));
    Joined(r, "deploy", "latest", "/deploy/", ":latest");
  }

  lemma ConfigTag(r: string)
    ensures OciTag(r, ConfigOf()) == r + "/config:latest"
  {
    hide OciTag;
    TagParts(r, ConfigOf());
    assert r + "/" + "config" + ":" + "latest" == r + "/config:latest";
  }

  // Fetch the manifest; publish it as what the deployment is to run.
  function CachedPropagate(repository: string, cache: Cache, tags: Tags, deployment: string, version: string,
                           reach: Reach): PublishOutcome {
    var manifest := CachedFetch(repository, cache, tags, ManifestOf(deployment, version), reach);
    match manifest.image
    case None => PublishOutcome(manifest.cache, tags, false, manifest.requests)
    case Some(image) =>
      var deploy := CachedPublish(repository, manifest.cache, tags, DeployOf(deployment), image, reach);
      deploy.(requests := manifest.requests + deploy.requests)
  }

  // ---------------------------------------------------------------- in place

  // The registry, with a log of the requests it got.
  class Registry {
    var tags: Tags
    var requests: seq<Request>

    constructor ()
      ensures tags == map[] && requests == []
    {
      tags, requests := map[], [];
    }
  }

  class OciArtifact {
    const image: Image
    var data: Content

    // `data` is empty until the image was exported.
    ghost predicate Valid()
      reads this
    {
      data == [] || data == image.content
    }

    constructor (image: Image)
      ensures Valid() && this.image == image && data == []
    {
      this.image := image;
      data := [];
    }

    method DigestString() returns (digest: string)
      ensures digest == image.digest
    {
      digest := image.digest;
    }

    // The content, exported once.
    method Bytes() returns (content: Content)
      requires Valid()
      modifies this`data
      ensures Valid() && content == image.content && data == image.content
    {
      if data != [] {
        return data;
      }
      data := image.content;
      return data;
    }
  }

  class OciBackendClient {
    const repository: string
    const registry: Registry

    constructor (repository: string, registry: Registry)
      ensures this.repository == repository && this.registry == registry
    {
      this.repository := repository;
      this.registry := registry;
    }

    method Digest(m: ArtifactMetadata, reachable: bool) returns (digest: Option<string>)
      modifies registry`requests
      ensures var tag := OciTag(repository, m);
              digest == if reachable && tag in registry.tags then Some(registry.tags[tag].digest) else None
      ensures registry.requests == old(registry.requests) + [GetDigest(OciTag(repository, m))]
    {
      var tag := OciTag(repository, m);
      registry.requests := registry.requests + [GetDigest(tag)];
      digest := if reachable && tag in registry.tags then Some(registry.tags[tag].digest) else None;
    }

    method Fetch(m: ArtifactMetadata, reachable: bool) returns (a: Option<OciArtifact>)
      modifies registry`requests
      ensures a.Some? <==> Pulled(registry.tags, OciTag(repository, m), reachable).Some?
      ensures a.Some? ==>
                && fresh(a.value) && a.value.Valid()
                && Pulled(registry.tags, OciTag(repository, m), reachable) == Some(a.value.image)
      ensures registry.requests == old(registry.requests) + [Pull(OciTag(repository, m))]
    {
      var tag := OciTag(repository, m);
      registry.requests := registry.requests + [Pull(tag)];
      if !reachable || tag !in registry.tags {
        return None;
      }
      var artifact := new OciArtifact(registry.tags[tag]);
      return Some(artifact);
    }

    method Publish(m: ArtifactMetadata, a: OciArtifact, reach: Reach) returns (done: bool)
      modifies registry
      ensures done == reach.publish
      ensures registry.tags == if reach.Pushes() then old(registry.tags)[OciTag(repository, m) := a.image]
                               else old(registry.tags)
      ensures registry.requests == old(registry.requests) + [Push(OciTag(repository, m))]
    {
      var tag := OciTag(repository, m);
      registry.requests := registry.requests + [Push(tag)];
      if reach.Pushes() {
        registry.tags := registry.tags[tag := a.image];
      }
      return reach.publish;
    }
  }

  function ImagesOf(artifacts: map<ArtifactMetadata, OciArtifact>): map<ArtifactMetadata, Image> {
    map m | m in artifacts :: artifacts[m].image
  }

  ghost predicate AllReadable(artifacts: map<ArtifactMetadata, OciArtifact>)
    reads artifacts.Values
  {
    forall a <- artifacts.Values :: a.Valid()
  }

  // Caching one more artifact, and reading artifacts that are cached.
  lemma CachedOneMore(artifacts: map<ArtifactMetadata, OciArtifact>, m: ArtifactMetadata, a: OciArtifact)
    ensures ImagesOf(artifacts[m := a]) == ImagesOf(artifacts)[m := a.image]
    ensures AllReadable(artifacts) && a.Valid() ==> AllReadable(artifacts[m := a])
  {
  }

  class CachedPropagationBackendClient {
    var backend: OciBackendClient
    var fetchCache: map<ArtifactMetadata, OciArtifact>
    var publishCache: map<ArtifactMetadata, OciArtifact>

    ghost predicate Valid()
      reads this, fetchCache.Values, publishCache.Values
    {
      AllReadable(fetchCache) && AllReadable(publishCache)
    }

    // The caches, by the images they hold.
    function Contents(): Cache
      reads this
    {
      Cache(ImagesOf(fetchCache), ImagesOf(publishCache))
    }

    constructor (backend: OciBackendClient)
      ensures Valid() && Contents() == NO_CACHE && this.backend == backend
    {
      this.backend := backend;
      fetchCache, publishCache := map[], map[];
    }

    method Fetch(m: ArtifactMetadata, reach: Reach) returns (a: Option<OciArtifact>)
      requires Valid()
      modifies this`fetchCache, backend.registry`requests
      ensures Valid() && (a.Some? ==> a.value.Valid())
      ensures a.Some? ==> fresh(a.value) || a.value in old(fetchCache.Values)
      ensures var outcome := CachedFetch(backend.repository, old(Contents()), backend.registry.tags, m, reach);
              && Contents() == outcome.cache
              && outcome.image == (match a case Some(artifact) => Some(artifact.image) case None => None)
              && backend.registry.requests == old(backend.registry.requests) + outcome.requests
    {
      hide OciTag;
      if m in fetchCache {
        var cached := fetchCache[m];
        assert cached in fetchCache.Values;
        if Immutable(m) {
          return Some(cached);
        }
        var cachedDigest := cached.DigestString();
        var remoteDigest := backend.Digest(m, reach.digest);
        if remoteDigest == Some(cachedDigest) {
          return Some(cached);
        }
      }
      a := backend.Fetch(m, reach.fetch);
      if a.None? {
        return;
      }
      CachedOneMore(fetchCache, m, a.value);
      fetchCache := fetchCache[m := a.value];
    }

    method Publish(m: ArtifactMetadata, a: OciArtifact, reach: Reach) returns (done: bool)
      requires Valid() && a.Valid()
      modifies this`publishCache, backend.registry, a`data, publishCache.Values
      ensures Valid() && a.Valid()
      ensures var outcome := CachedPublish(backend.repository, old(Contents()), old(backend.registry.tags), m, a.image,
                                           reach);
              && Contents() == outcome.cache && done == outcome.done
              && backend.registry.tags == outcome.tags
              && backend.registry.requests == old(backend.registry.requests) + outcome.requests
    {
      hide OciTag;
      if m in publishCache {
        var cached := publishCache[m];
        assert cached in publishCache.Values;
        var cachedBytes := cached.Bytes();
        var publishBytes := a.Bytes();
        if cachedBytes == publishBytes {
          return true;
        }
      }
      done := backend.Publish(m, a, reach);
      if !done {
        return;
      }
      CachedOneMore(publishCache, m, a);
      publishCache := publishCache[m := a];
    }
  }

  class PropagationClient {
    const client: CachedPropagationBackendClient

    ghost predicate Valid()
      reads this, client, client.fetchCache.Values, client.publishCache.Values
    {
      client.Valid()
    }

    constructor (backend: OciBackendClient)
      ensures Valid() && fresh(client) && client.Contents() == NO_CACHE && client.backend == backend
    {
      client := new CachedPropagationBackendClient(backend);
    }

    method PublishArtifact(m: ArtifactMetadata, image: Image, reach: Reach) returns (done: bool)
      requires Valid()
      modifies client`publishCache, client.backend.registry, client.publishCache.Values
      ensures Valid()
      ensures var outcome := CachedPublish(client.backend.repository, old(client.Contents()),
                                           old(client.backend.registry.tags), m, image, reach);
              && client.Contents() == outcome.cache && done == outcome.done
              && client.backend.registry.tags == outcome.tags
              && client.backend.registry.requests == old(client.backend.registry.requests) + outcome.requests
    {
      var artifact := new OciArtifact(image);
      done := client.Publish(m, artifact, reach);
    }

    method FetchArtifact(m: ArtifactMetadata, reach: Reach) returns (content: Option<Content>)
      requires Valid()
      modifies client`fetchCache, client.backend.registry`requests, client.fetchCache.Values
      ensures Valid()
      ensures var outcome := CachedFetch(client.backend.repository, old(client.Contents()),
                                         client.backend.registry.tags, m, reach);
              && client.Contents() == outcome.cache
              && content == (match outcome.image case Some(image) => Some(image.content) case None => None)
              && client.backend.registry.requests == old(client.backend.registry.requests) + outcome.requests
    {
      var a := client.Fetch(m, reach);
      if a.None? {
        return None;
      }
      var bytes := a.value.Bytes();
      return Some(bytes);
    }

    method Propagate(deployment: string, version: string, reach: Reach) returns (done: bool)
      requires Valid()
      modifies client`fetchCache, client`publishCache, client.backend.registry, client.fetchCache.Values,
        client.publishCache.Values
      ensures Valid()
      ensures var outcome := CachedPropagate(client.backend.repository, old(client.Contents()),
                                             old(client.backend.registry.tags),
                                             deployment, version, reach);
              && client.Contents() == outcome.cache && done == outcome.done
              && client.backend.registry.tags == outcome.tags
              && client.backend.registry.requests == old(client.backend.registry.requests) + outcome.requests
    {
      hide OciTag, CachedFetch, CachedPublish, ImagesOf;
      var a := client.Fetch(ManifestOf(deployment, version), reach);
      if a.None? {
        return false;
      }
      done := client.Publish(DeployOf(deployment), a.value, reach);
    }

    method PublishStatus(deployment: string, status: Image, reach: Reach) returns (done: bool)
      requires Valid()
      modifies client`publishCache, client.backend.registry, client.publishCache.Values
      ensures Valid()
      ensures var outcome := CachedPublish(client.backend.repository, old(client.Contents()),
                                           old(client.backend.registry.tags),
                                           StatusOf(deployment), status, reach);
              && client.Contents() == outcome.cache && done == outcome.done
              && client.backend.registry.tags == outcome.tags
              && client.backend.registry.requests == old(client.backend.registry.requests) + outcome.requests
    {
      done := PublishArtifact(StatusOf(deployment), status, reach);
    }

    method GetStatus(deployment: string, reach: Reach) returns (status: Option<Content>)
      requires Valid()
      modifies client`fetchCache, client.backend.registry`requests, client.fetchCache.Values
      ensures Valid()
      ensures var outcome := CachedFetch(client.backend.repository, old(client.Contents()),
                                         client.backend.registry.tags,
                                         StatusOf(deployment), reach);
              && client.Contents() == outcome.cache
              && status == (match outcome.image case Some(image) => Some(image.content) case None => None)
              && client.backend.registry.requests == old(client.backend.registry.requests) + outcome.requests
    {
      status := FetchArtifact(StatusOf(deployment), reach);
    }

    method PublishConfig(config: Image, reach: Reach) returns (done: bool)
      requires Valid()
      modifies client`publishCache, client.backend.registry, client.publishCache.Values
      ensures Valid()
      ensures var outcome := CachedPublish(client.backend.repository, old(client.Contents()),
                                           old(client.backend.registry.tags), ConfigOf(), config, reach);
              && client.Contents() == outcome.cache && done == outcome.done
              && client.backend.registry.tags == outcome.tags
              && client.backend.registry.requests == old(client.backend.registry.requests) + outcome.requests
    {
      done := PublishArtifact(ConfigOf(), config, reach);
    }

    method GetConfig(reach: Reach) returns (config: Option<Content>)
      requires Valid()
      modifies client`fetchCache, client.backend.registry`requests, client.fetchCache.Values
      ensures Valid()
      ensures var outcome := CachedFetch(client.backend.repository, old(client.Contents()),
                                         client.backend.registry.tags, ConfigOf(), reach);
              && client.Contents() == outcome.cache
              && config == (match outcome.image case Some(image) => Some(image.content) case None => None)
              && client.backend.registry.requests == old(client.backend.registry.requests) + outcome.requests
    {
      config := FetchArtifact(ConfigOf(), reach);
    }
  }

  datatype NamespacedName = NamespacedName(namespace: string, name: string)

  class PropagationClientset {
    var clients: map<NamespacedName, PropagationClient>

    constructor ()
      ensures clients == map[]
    {
      clients := map[];
    }

    // The client of a propagation, with its caches kept while its backend is replaced; none, and no
    // change, when the backend could not be set up.
    method Propagation(key: NamespacedName, backend: Option<OciBackendClient>) returns (c: Option<PropagationClient>)
      modifies this`clients, (if backend.Some? && key in clients then {clients[key].client} else {})`backend
      ensures c.Some? <==> backend.Some?
      ensures c.None? ==> clients == old(clients)
      ensures c.Some? ==> clients == old(clients)[key := c.value] && c.value.client.backend == backend.value
      ensures c.Some? && key in old(clients) ==>
                c.value == old(clients)[key] && c.value.client.Contents() == old(clients[key].client.Contents())
      ensures c.Some? && key !in old(clients) ==>
                fresh(c.value) && fresh(c.value.client) && c.value.client.Contents() == NO_CACHE
    {
      if backend.None? {
        return None;
      }
      var client: PropagationClient;
      if key in clients {
        client := clients[key];
        client.client.backend := backend.value;
      } else {
        client := new PropagationClient(backend.value);
      }
      clients := clients[key := client];
      return Some(client);
    }
  }
}
