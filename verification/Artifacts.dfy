// What the backend stores: images under tags, one tag for each artifact a deployment can have.
module Artifacts {
  import opened Selection

  newtype Byte = x: int | 0 <= x < 256

  type Content = seq<Byte>

  datatype ArtifactType = DeployStatusArtifact | ManifestArtifact | DeployArtifact | PropagationConfigArtifact

  datatype ArtifactMetadata = ArtifactMetadata(deployment: string, kind: ArtifactType, version: string)

  // An image as it is addressed, by its digest, and as it is read, by its exported content. Images
  // of different digests may have the same content.
  datatype Image = Image(digest: string, content: Content)

  function Subpath(kind: ArtifactType): string {
    match kind
    case DeployStatusArtifact => "statuses"
    case ManifestArtifact => "manifests"
    case DeployArtifact => "deploy"
    case PropagationConfigArtifact => "config"
  }

  // Only manifests have versions; everything else is under the default tag.
  function TagName(m: ArtifactMetadata): string {
    if m.kind.ManifestArtifact? then m.version else DEFAULT_TAG
  }

  // Empty path elements are dropped.
  function Path(m: ArtifactMetadata): string {
    Subpath(m.kind) + if m.deployment == "" then "" else "/" + m.deployment
  }

  function OciTag(repository: string, m: ArtifactMetadata): string {
    repository + "/" + (Path(m) + (":" + TagName(m)))
  }

  predicate Plain(name: string) {
    ':' !in name
  }

  lemma FirstColonSplits(x: string, y: string, s: string, t: string)
    requires Plain(x) && Plain(y) && x + (":" + s) == y + (":" + t)
    ensures x == y && s == t
  {
    var all := x + (":" + s);
    assert all[|x|] == ':' && all[|y|] == ':';
    assert forall k :: 0 <= k < |x| ==> all[k] == x[k];
    assert forall k :: 0 <= k < |y| ==> all[k] == y[k];
    assert |x| == |y|;
    assert x == all[..|x|] == y;
    assert s == all[|x| + 1..] == t;
  }

  lemma SamePrefix(p: string, x: string, y: string)
    requires p + x == p + y
    ensures x == y
  {
    assert (p + x)[|p|..] == x;
    assert (p + y)[|p|..] == y;
  }

  // Different artifacts have different tags, and only the versions of manifests tell tags apart.
  lemma TagsTellArtifactsApart(repository: string, a: ArtifactMetadata, b: ArtifactMetadata)
    requires Plain(a.deployment) && Plain(b.deployment)
    ensures OciTag(repository, a) == OciTag(repository, b) <==>
              a.kind == b.kind && a.deployment == b.deployment && (a.kind.ManifestArtifact? ==> a.version == b.version)
  {
    if OciTag(repository, a) == OciTag(repository, b) {
      SamePrefix(repository + "/", Path(a) + (":" + TagName(a)), Path(b) + (":" + TagName(b)));
      FirstColonSplits(Path(a), Path(b), TagName(a), TagName(b));
      assert Path(a)[0] == Subpath(a.kind)[0] && Path(b)[0] == Subpath(b.kind)[0];
      assert a.kind == b.kind;
      var n := |Subpath(a.kind)|;
      assert a.deployment != "" ==> Path(a)[n + 1..] == a.deployment;
      assert b.deployment != "" ==> Path(b)[n + 1..] == b.deployment;
    }
  }

  // The metadata the client asks with: a version for manifests only.
  predicate Canonical(m: ArtifactMetadata) {
    Plain(m.deployment) && (m.kind.ManifestArtifact? || m.version == "")
  }

  lemma CanonicalTags(repository: string, a: ArtifactMetadata, b: ArtifactMetadata)
    requires Canonical(a) && Canonical(b)
    ensures OciTag(repository, a) == OciTag(repository, b) <==> a == b
  {
    hide OciTag;
    TagsTellArtifactsApart(repository, a, b);
  }

  // A manifest under a version of its own is never replaced.
  predicate Immutable(m: ArtifactMetadata) {
    m.kind.ManifestArtifact? && m.version != DEFAULT_TAG
  }

  // Of a named deployment a tag has four parts, of none three.
  lemma TagParts(r: string, m: ArtifactMetadata)
    ensures m.deployment != "" ==>
              OciTag(r, m) == r + "/" + Subpath(m.kind) + "/" + m.deployment + ":" + TagName(m)
    ensures m.deployment == "" ==> OciTag(r, m) == r + "/" + Subpath(m.kind) + ":" + TagName(m)
  {
    hide Subpath, TagName;
    var s, d, t := Subpath(m.kind), m.deployment, TagName(m);
    if d == "" {
      assert s + "" == s;
      assert r + "/" + (s + (":" + t)) == r + "/" + s + ":" + t;
    } else {
      assert s + ("/" + d) == s + "/" + d;
      assert r + "/" + (s + "/" + d + (":" + t)) == r + "/" + s + "/" + d + ":" + t;
    }
  }
}
