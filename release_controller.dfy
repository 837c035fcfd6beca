/** The Release controller: every Release names a node image. A live
    Release gets the controller's finalizer and is recorded as a reference
    to its node image, which is created when it does not exist yet; a
    Release being deleted has its reference removed, which may mark the
    image for deletion or delete it, before its finalizer goes. */
module ReleaseController {
  import opened Types
  import opened KubeApi
  import opened Naming
  import opened Lists
  import ImageClient

  /** The Flatcar channel every node image name is built for. */
  const FlatcarChannel := "stable"

  /** Whether the Release is being deleted: its deletion timestamp is set. */
  function IsDeleted(release: Release): (deleted: bool)
    ensures deleted <==> release.deletionRequested
  {
    release.deletionRequested
  }

  class ReleaseReconciler {
    const api: Cluster
    /** The namespace the NodeImages live in. */
    const Namespace: string
    /** How long an unused image is kept, handed to RemoveImage. */
    const RetentionPeriod: int

    constructor (api: Cluster, namespace: string, retentionPeriod: int)
      ensures this.api == api && Namespace == namespace && RetentionPeriod == retentionPeriod
    {
      this.api, Namespace, RetentionPeriod := api, namespace, retentionPeriod;
    }

    /** The node image `release` names, and the key it is stored under. */
    function ImageOf(release: Release): NodeImage {
      GetNodeImageFromRelease(release, FlatcarChannel).0
    }

    function ImageKey(release: Release): ObjectKey {
      ObjectKey(Namespace, ImageOf(release).name)
    }

    /** Reconcile for a Release whose deletion was requested: its reference
        to its node image is removed, and only then its finalizer, which
        lets the store remove it. */
    method ReconcileDeletion(release: Release, nodeImage: NodeImage, imageClient: ImageClient.Client, now: string)
      returns (err: Option<Failure>)
      requires api.Valid() && release.Key() in api.releases && api.releases[release.Key()] == release && IsDeleted(release)
      requires imageClient.api == api && imageClient.Release == release.name && imageClient.Namespace == Namespace
      modifies api`images, api`releases
      ensures api.Valid()
      ensures forall k :: k != imageClient.Key(nodeImage.name) ==> (k in api.images <==> k in old(api.images))
      ensures forall k :: k != imageClient.Key(nodeImage.name) && k in api.images ==> api.images[k] == old(api.images)[k]
      ensures err == None ==> release.Key() !in api.releases
      ensures err.Some? ==> api.releases == old(api.releases)
      ensures err == None && imageClient.Key(nodeImage.name) in old(api.images) &&
              NoDup(old(api.images)[imageClient.Key(nodeImage.name)].status.releases) &&
              imageClient.Key(nodeImage.name) in api.images ==>
                release.name !in api.images[imageClient.Key(nodeImage.name)].status.releases
      ensures !api.Fails(NodeImageKind, Get) && imageClient.Key(nodeImage.name) !in old(api.images) &&
              !api.Fails(ReleaseKind, Update) ==>
                err == None && api.images == old(api.images)
      ensures !api.Fails(NodeImageKind, Get) && !api.Fails(NodeImageKind, UpdateStatus) &&
              !api.Fails(NodeImageKind, Delete) && !api.Fails(NodeImageKind, Update) &&
              imageClient.Key(nodeImage.name) in old(api.images) && !api.Fails(ReleaseKind, Update) ==>
                err == None &&
                api.images == ImageClient.Removed(old(api.images), imageClient.Key(nodeImage.name), release.name, RetentionPeriod, now)
    {
      err := imageClient.RemoveImage(nodeImage.name, RetentionPeriod, now);
      if err.Some? {
        return;
      }
      if release.finalizer {
        err := api.UpdateRelease(release.(finalizer := false));
        if err.Some? {
          return;
        }
      }
      err := None;
    }

    /** Reconcile for a live Release: the finalizer is added first, and then
        the Release is recorded as a reference to its node image. */
    method ReconcileLive(release: Release, nodeImage: NodeImage, imageClient: ImageClient.Client)
      returns (err: Option<Failure>)
      requires api.Valid() && release.Key() in api.releases && api.releases[release.Key()] == release && !IsDeleted(release)
      requires imageClient.api == api && imageClient.Release == release.name && imageClient.Namespace == Namespace
      modifies api`images, api`releases
      ensures api.Valid()
      ensures forall k :: k != imageClient.Key(nodeImage.name) ==> (k in api.images <==> k in old(api.images))
      ensures forall k :: k != imageClient.Key(nodeImage.name) && k in api.images ==> api.images[k] == old(api.images)[k]
      ensures !release.finalizer && api.Fails(ReleaseKind, Update) ==>
                err == Some(ApiFailure(ReleaseKind, Update)) && api.images == old(api.images) && api.releases == old(api.releases)
      ensures release.finalizer || !api.Fails(ReleaseKind, Update) ==>
                api.releases == old(api.releases)[release.Key() := release.(finalizer := true)]
      ensures !api.Fails(ReleaseKind, Update) && !api.Fails(NodeImageKind, Create) && !api.Fails(NodeImageKind, Get) &&
              !api.Fails(NodeImageKind, Update) && !api.Fails(NodeImageKind, UpdateStatus) ==>
                err == None && imageClient.Key(nodeImage.name) in api.images &&
                release.name in api.images[imageClient.Key(nodeImage.name)].status.releases
    {
      if !release.finalizer {
        err := api.UpdateRelease(release.(finalizer := true));
        if err.Some? {
          return;
        }
      } else {
        UpdateSameValue(api.releases, release.Key());
      }
      err := imageClient.CreateOrUpdateImage(nodeImage);
    }

    /** Reconcile for the stored Release `release`: its node image is named
        and an image client made for it, and then the deletion or the live
        path runs. */
    method ReconcileRelease(release: Release, now: string) returns (err: Option<Failure>)
      requires api.Valid() && release.Key() in api.releases && api.releases[release.Key()] == release
      modifies api`images, api`releases
      ensures api.Valid()
      ensures var named := GetNodeImageFromRelease(release, FlatcarChannel);
              if named.1.Some? || Namespace == "" || release.name == "" then
                err == (if named.1.Some? then named.1
                        else if Namespace == "" then Some(NamespaceRequired) else Some(ReleaseRequired)) &&
                api.images == old(api.images) && api.releases == old(api.releases)
              else
                && (forall k :: k != ImageKey(release) ==> (k in api.images <==> k in old(api.images)))
                && (forall k :: k != ImageKey(release) && k in api.images ==> api.images[k] == old(api.images)[k])
                && (IsDeleted(release) ==>
                      (err == None ==> release.Key() !in api.releases) && (err.Some? ==> api.releases == old(api.releases)))
                && (IsDeleted(release) && err == None && ImageKey(release) in old(api.images) &&
                    NoDup(old(api.images)[ImageKey(release)].status.releases) && ImageKey(release) in api.images ==>
                      release.name !in api.images[ImageKey(release)].status.releases)
                && (!IsDeleted(release) && !api.Fails(ReleaseKind, Update) ==>
                      release.Key() in api.releases && api.releases[release.Key()].finalizer)
                && (!IsDeleted(release) && !api.Fails(ReleaseKind, Update) && !api.Fails(NodeImageKind, Create) &&
                    !api.Fails(NodeImageKind, Get) && !api.Fails(NodeImageKind, Update) && !api.Fails(NodeImageKind, UpdateStatus) ==>
                      err == None && ImageKey(release) in api.images &&
                      release.name in api.images[ImageKey(release)].status.releases)
    {
      var named := GetNodeImageFromRelease(release, FlatcarChannel);
      if named.1.Some? {
        return named.1;
      }
      var made := ImageClient.New(ImageClient.Config(api, Namespace, release.name));
      if made.Err? {
        return Some(made.error);
      }
      if IsDeleted(release) {
        err := ReconcileDeletion(release, named.0, made.value, now);
      } else {
        err := ReconcileLive(release, named.0, made.value);
      }
    }

    /** One reconciliation of the Release stored under `req`; `now` is the
        time stamped on an image marked for deletion. A Release that is not
        found is not an error. */
    method Reconcile(req: ObjectKey, now: string) returns (err: Option<Failure>)
      requires api.Valid()
      modifies api`images, api`releases
      ensures api.Valid()
      ensures api.Fails(ReleaseKind, Get) || req !in old(api.releases) ==>
                err == (if api.Fails(ReleaseKind, Get) then Some(ApiFailure(ReleaseKind, Get)) else None) &&
                api.images == old(api.images) && api.releases == old(api.releases)
      ensures !api.Fails(ReleaseKind, Get) && req in old(api.releases) ==>
                var release := old(api.releases)[req];
                var named := GetNodeImageFromRelease(release, FlatcarChannel);
                if named.1.Some? || Namespace == "" || release.name == "" then
                  err == (if named.1.Some? then named.1
                          else if Namespace == "" then Some(NamespaceRequired) else Some(ReleaseRequired)) &&
                  api.images == old(api.images) && api.releases == old(api.releases)
                else
                  && (forall k :: k != ImageKey(release) ==> (k in api.images <==> k in old(api.images)))
                  && (forall k :: k != ImageKey(release) && k in api.images ==> api.images[k] == old(api.images)[k])
                  && (IsDeleted(release) ==>
                        (err == None ==> req !in api.releases) && (err.Some? ==> api.releases == old(api.releases)))
                  && (IsDeleted(release) && err == None && ImageKey(release) in old(api.images) &&
                      NoDup(old(api.images)[ImageKey(release)].status.releases) && ImageKey(release) in api.images ==>
                        release.name !in api.images[ImageKey(release)].status.releases)
                  && (!IsDeleted(release) && !api.Fails(ReleaseKind, Update) ==>
                        req in api.releases && api.releases[req].finalizer)
                  && (!IsDeleted(release) && !api.Fails(ReleaseKind, Update) && !api.Fails(NodeImageKind, Create) &&
                      !api.Fails(NodeImageKind, Get) && !api.Fails(NodeImageKind, Update) && !api.Fails(NodeImageKind, UpdateStatus) ==>
                        err == None && ImageKey(release) in api.images &&
                        release.name in api.images[ImageKey(release)].status.releases)
    {
      var got := api.GetRelease(req);
      if got.Err? {
        return if got.error == NotFound then None else Some(got.error);
      }
      err := ReconcileRelease(got.value, now);
    }
  }
}
