// The registry of the fleet, by status, manifest and deployment, is what the tags of the OCI registry
// stand for: every access of a controller through its client is the access that the fleet's steps make.
module FleetRegistry {
  import opened Wrappers
  import opened Statuses
  import opened Selection
  import opened Artifacts
  import opened CachedClient
  import opened ClientSimulation
  import opened Propagation
  import R = Reconciliation
  import Fleet

  // How contents are read: a status is parsed, a manifest installs a version.
  datatype Reading = Reading(status: Content -> Option<DeploymentStatus>, installs: Content -> string)

  ghost predicate StatusShown(r: Reading, repository: string, tags: Tags, b: R.Backend, d: string) {
    var tag := OciTag(repository, StatusOf(d));
    && (tag in tags <==> d in b.statuses)
    && (tag in tags ==> r.status(tags[tag].content) == Some(b.statuses[d]))
  }

  ghost predicate ManifestShown(r: Reading, repository: string, tags: Tags, b: R.Backend, d: string, version: string) {
    var tag, m := OciTag(repository, ManifestOf(d, version)), R.ManifestTag(d, version);
    && (tag in tags <==> m in b.manifests)
    && (tag in tags ==> r.installs(tags[tag].content) == b.manifests[m])
  }

  ghost predicate DeployShown(r: Reading, repository: string, tags: Tags, b: R.Backend, d: string) {
    var tag := OciTag(repository, DeployOf(d));
    && (tag in tags <==> d in b.deploys)
    && (tag in tags ==> r.installs(tags[tag].content) == b.deploys[d])
  }

  ghost predicate StandsFor(r: Reading, repository: string, tags: Tags, b: R.Backend) {
    && (forall d | Plain(d) :: StatusShown(r, repository, tags, b, d) && DeployShown(r, repository, tags, b, d))
    && (forall d, version | Plain(d) :: ManifestShown(r, repository, tags, b, d, version))
  }

  // Writing one artifact concerns no other.
  lemma WriteIsLocal(repository: string, tags: Tags, m: ArtifactMetadata, image: Image, other: ArtifactMetadata)
    requires Canonical(m) && Canonical(other) && m != other
    ensures var tag, after := OciTag(repository, other), tags[OciTag(repository, m) := image];
            (tag in after <==> tag in tags) && (tag in tags ==> after[tag] == tags[tag])
  {
    hide OciTag, Canonical;
    CanonicalTags(repository, m, other);
  }

  lemma StatusWritten(r: Reading, repository: string, tags: Tags, b: R.Backend, d: string, image: Image,
                      status: DeploymentStatus)
    requires StandsFor(r, repository, tags, b) && Plain(d) && r.status(image.content) == Some(status)
    ensures StandsFor(r, repository, tags[OciTag(repository, StatusOf(d)) := image],
                      b.(statuses := b.statuses[d := status]))
  {
    hide OciTag, Plain;
    var m := StatusOf(d);
    var after, b' := tags[OciTag(repository, m) := image], b.(statuses := b.statuses[d := status]);
    forall e | Plain(e) ensures StatusShown(r, repository, after, b', e) && DeployShown(r, repository, after, b', e) {
      assert StatusShown(r, repository, tags, b, e) && DeployShown(r, repository, tags, b, e);
      if e != d { WriteIsLocal(repository, tags, m, image, StatusOf(e)); }
      WriteIsLocal(repository, tags, m, image, DeployOf(e));
    }
    forall e, v | Plain(e) ensures ManifestShown(r, repository, after, b', e, v) {
      assert ManifestShown(r, repository, tags, b, e, v);
      WriteIsLocal(repository, tags, m, image, ManifestOf(e, v));
    }
  }

  lemma DeployWritten(r: Reading, repository: string, tags: Tags, b: R.Backend, d: string, image: Image)
    requires StandsFor(r, repository, tags, b) && Plain(d)
    ensures StandsFor(r, repository, tags[OciTag(repository, DeployOf(d)) := image],
                      b.(deploys := b.deploys[d := r.installs(image.content)]))
  {
    hide OciTag, Plain;
    var m := DeployOf(d);
    var after, b' := tags[OciTag(repository, m) := image], b.(deploys := b.deploys[d := r.installs(image.content)]);
    forall e | Plain(e) ensures StatusShown(r, repository, after, b', e) && DeployShown(r, repository, after, b', e) {
      assert StatusShown(r, repository, tags, b, e) && DeployShown(r, repository, tags, b, e);
      if e != d { WriteIsLocal(repository, tags, m, image, DeployOf(e)); }
      WriteIsLocal(repository, tags, m, image, StatusOf(e));
    }
    forall e, v | Plain(e) ensures ManifestShown(r, repository, after, b', e, v) {
      assert ManifestShown(r, repository, tags, b, e, v);
      WriteIsLocal(repository, tags, m, image, ManifestOf(e, v));
    }
  }

  lemma ManifestWritten(r: Reading, repository: string, tags: Tags, b: R.Backend, d: string, version: string,
                        image: Image)
    requires StandsFor(r, repository, tags, b) && Plain(d)
    ensures StandsFor(r, repository, tags[OciTag(repository, ManifestOf(d, version)) := image],
                      b.(manifests := b.manifests[R.ManifestTag(d, version) := r.installs(image.content)]))
  {
    hide OciTag, Plain;
    var m, tag := ManifestOf(d, version), R.ManifestTag(d, version);
    var after, b' := tags[OciTag(repository, m) := image],
      b.(manifests := b.manifests[tag := r.installs(image.content)]);
    forall e | Plain(e) ensures StatusShown(r, repository, after, b', e) && DeployShown(r, repository, after, b', e) {
      assert StatusShown(r, repository, tags, b, e) && DeployShown(r, repository, tags, b, e);
      WriteIsLocal(repository, tags, m, image, DeployOf(e));
      WriteIsLocal(repository, tags, m, image, StatusOf(e));
    }
    forall e, v | Plain(e) ensures ManifestShown(r, repository, after, b', e, v) {
      assert ManifestShown(r, repository, tags, b, e, v);
      if ManifestOf(e, v) != m { WriteIsLocal(repository, tags, m, image, ManifestOf(e, v)); }
    }
  }

  // ---------------------------------------------------------------- a controller's accesses

  // Publishing the own status.
  lemma PublishingIsPublishOwn(r: Reading, repository: string, tags: Tags, b: R.Backend, d: string, ctl: R.Controller,
                               image: Image, reach: Reach, persisted: bool)
    requires StandsFor(r, repository, tags, b) && Plain(d) && reach.Honest()
    requires ctl.local.Loaded? && !R.Reports(ctl.local.mem.deploymentStatus, ctl.local.version)
    requires r.status(image.content) == Some(R.HealthyNow(ctl.local.version))
    ensures var (tags', answer) := DirectStep(repository, tags, Call(PublishStatus(d, image), reach));
            var (ctl', b') := R.PublishOwn(d, ctl, b, answer.Done?, persisted);
            StandsFor(r, repository, tags', b')
  {
    hide OciTag, StandsFor;
    StatusWritten(r, repository, tags, b, d, image, R.HealthyNow(ctl.local.version));
  }

  // Polling a deployment.
  lemma GettingIsFetch(r: Reading, repository: string, tags: Tags, b: R.Backend, d: string, reach: Reach, now: int)
    requires StandsFor(r, repository, tags, b) && Plain(d)
    ensures var (tags', answer) := DirectStep(repository, tags, Call(GetStatus(d), reach));
            && tags' == tags
            && FetchOne(b.statuses, d, reach.fetch, now) ==
               match answer
               case Contents(content) =>
                 (match r.status(content) case Some(s) => Some(s.(start := now)) case None => None)
               case _ => None
  {
    hide OciTag, Plain, ManifestShown, DeployShown;
    assert StatusShown(r, repository, tags, b, d);
  }

  lemma ShownManifest(r: Reading, repository: string, tags: Tags, b: R.Backend, d: string, version: string)
    requires StandsFor(r, repository, tags, b) && Plain(d)
    ensures var tag, m := OciTag(repository, ManifestOf(d, version)), R.ManifestTag(d, version);
            (tag in tags <==> m in b.manifests) && (tag in tags ==> r.installs(tags[tag].content) == b.manifests[m])
  {
    hide OciTag, Plain, StatusShown, DeployShown;
    assert ManifestShown(r, repository, tags, b, d, version);
  }

  // Pulling the manifest of a target.
  lemma PullingIsPull(r: Reading, repository: string, tags: Tags, b: R.Backend, d: string, ctl: R.Controller,
                      reach: Reach)
    requires StandsFor(r, repository, tags, b) && Plain(d) && ctl.local.Pulling?
    ensures var (tags', answer) := DirectStep(repository, tags, Call(Op.Pull(d, ctl.local.target), reach));
            var ctl' := R.Pull(d, ctl, b, reach.fetch);
            && tags' == tags
            && (ctl'.local.Deploying? <==> answer.Contents?)
            && (answer.Contents? ==> r.installs(answer.content) == ctl'.local.manifest)
  {
    hide OciTag, StandsFor, Plain;
    ShownManifest(r, repository, tags, b, d, ctl.local.target);
  }

  // Publishing it as what the deployment is to run.
  lemma DeployingIsDeploy(r: Reading, repository: string, tags: Tags, b: R.Backend, d: string, ctl: R.Controller,
                          image: Image, reach: Reach)
    requires StandsFor(r, repository, tags, b) && Plain(d) && reach.Honest()
    requires ctl.local.Deploying? && r.installs(image.content) == ctl.local.manifest
    ensures var (tags', answer) := DirectStep(repository, tags, Call(Op.Deploy(d, image), reach));
            var (ctl', b') := R.Deploy(d, ctl, b, answer.Done?);
            StandsFor(r, repository, tags', b')
  {
    hide OciTag, StandsFor;
    DeployWritten(r, repository, tags, b, d, image);
  }

  // A release from outside: the version's own tag and the default tag.
  lemma ReleasingIsRelease(r: Reading, repository: string, tags: Tags, b: R.Backend, d: string, version: string,
                           image: Image, reach: Reach)
    requires StandsFor(r, repository, tags, b) && Plain(d) && Fleet.Proper(version)
             && r.installs(image.content) == version
    ensures var (tags', _) := DirectStep(repository, tags, Call(Foreign(ManifestOf(d, version), image), reach));
            var (tags'', _) := DirectStep(repository, tags', Call(Foreign(ManifestOf(d, DEFAULT_TAG), image), reach));
            StandsFor(r, repository, tags'', Fleet.ReleaseManifest(b, d, version))
  {
    hide OciTag, StandsFor, Plain;
    ManifestWritten(r, repository, tags, b, d, version, image);
    ManifestWritten(r, repository, tags[OciTag(repository, ManifestOf(d, version)) := image],
                    b.(manifests := b.manifests[R.ManifestTag(d, version) := version]), d, DEFAULT_TAG, image);
  }
}
