/** The Kubernetes API server as the operator sees it: stores of NodeImages,
    Releases and ConfigMaps keyed by namespace and name, with the verbs the
    operator uses. Which verbs fail is an oracle (`failing`) fixed for the
    duration of one operation. Two pieces of API semantics are kept because
    the finalizer protocol relies on them:
    - NodeImages have a status subresource: Create drops the status, Update
      writes everything except the status and hands back the stored object
      (so the caller's copy gets the stored status back), UpdateStatus
      writes only the status;
    - deleting an object that carries a finalizer only requests its deletion,
      and an Update that takes the last finalizer off such an object removes it. */
module KubeApi {
  import opened Types

  /** The status a NodeImage is created with. */
  const InitialStatus := NodeImageStatus([], Unset)

  /** The object an Update of `obj` stores and hands back: `obj` with the
      stored status and deletion timestamp. */
  function ImageAfterUpdate(images: map<ObjectKey, NodeImage>, obj: NodeImage): (r: NodeImage)
    requires obj.Key() in images
  {
    obj.(status := images[obj.Key()].status, deletionRequested := images[obj.Key()].deletionRequested)
  }

  /** The images after an Update of `obj`. */
  function ImageUpdated(images: map<ObjectKey, NodeImage>, obj: NodeImage): (r: map<ObjectKey, NodeImage>)
    requires obj.Key() in images
  {
    var next := ImageAfterUpdate(images, obj);
    if next.deletionRequested && !next.finalizer then images - {obj.Key()} else images[obj.Key() := next]
  }

  /** The images after an UpdateStatus of `obj`. */
  function ImageStatusUpdated(images: map<ObjectKey, NodeImage>, obj: NodeImage): (r: map<ObjectKey, NodeImage>)
    requires obj.Key() in images
  {
    images[obj.Key() := images[obj.Key()].(status := obj.status)]
  }

  /** The images after a Delete of the object stored under `key`. */
  function ImageDeleted(images: map<ObjectKey, NodeImage>, key: ObjectKey): (r: map<ObjectKey, NodeImage>)
    requires key in images
  {
    if images[key].finalizer then images[key := images[key].(deletionRequested := true)] else images - {key}
  }

  /** The releases after an Update of `rel`. */
  function ReleaseUpdated(releases: map<ObjectKey, Release>, rel: Release): (r: map<ObjectKey, Release>)
    requires rel.Key() in releases
  {
    var next := rel.(deletionRequested := releases[rel.Key()].deletionRequested);
    if next.deletionRequested && !next.finalizer then releases - {rel.Key()} else releases[rel.Key() := next]
  }

  class Cluster {
    var images: map<ObjectKey, NodeImage>
    var releases: map<ObjectKey, Release>
    var configMaps: map<ObjectKey, ConfigMap>
    /** The (kind, verb) pairs that fail with a transient API error. */
    var failing: set<(Kind, Verb)>

    /** Every object is stored under its own key, and no object whose deletion
        was requested is kept without a finalizer. */
    ghost predicate Valid()
      reads this
    {
      && (forall k :: k in images ==> images[k].Key() == k && (images[k].deletionRequested ==> images[k].finalizer))
      && (forall k :: k in releases ==> releases[k].Key() == k && (releases[k].deletionRequested ==> releases[k].finalizer))
      && (forall k :: k in configMaps ==> configMaps[k].Key() == k)
    }

    predicate Fails(kind: Kind, verb: Verb)
      reads this
    {
      (kind, verb) in failing
    }

    constructor (images: map<ObjectKey, NodeImage>, releases: map<ObjectKey, Release>,
                 configMaps: map<ObjectKey, ConfigMap>, failing: set<(Kind, Verb)>)
      requires forall k :: k in images ==> images[k].Key() == k && (images[k].deletionRequested ==> images[k].finalizer)
      requires forall k :: k in releases ==> releases[k].Key() == k && (releases[k].deletionRequested ==> releases[k].finalizer)
      requires forall k :: k in configMaps ==> configMaps[k].Key() == k
      ensures Valid()
      ensures this.images == images && this.releases == releases
      ensures this.configMaps == configMaps && this.failing == failing
    {
      this.images, this.releases, this.configMaps, this.failing := images, releases, configMaps, failing;
    }

    // ---------------------------------------------------------------- NodeImages

    method GetImage(key: ObjectKey) returns (r: Result<NodeImage>)
      ensures Fails(NodeImageKind, Get) ==> r == Err(ApiFailure(NodeImageKind, Get))
      ensures !Fails(NodeImageKind, Get) && key !in images ==> r == Err(NotFound)
      ensures !Fails(NodeImageKind, Get) && key in images ==> r == Ok(images[key])
    {
      if Fails(NodeImageKind, Get) {
        r := Err(ApiFailure(NodeImageKind, Get));
      } else if key !in images {
        r := Err(NotFound);
      } else {
        r := Ok(images[key]);
      }
    }

    /** Creates `obj`; the server ignores its status and deletion timestamp. */
    method CreateImage(obj: NodeImage) returns (err: Option<Failure>)
      requires Valid()
      modifies this`images
      ensures Valid()
      ensures Fails(NodeImageKind, Create) ==> err == Some(ApiFailure(NodeImageKind, Create)) && images == old(images)
      ensures !Fails(NodeImageKind, Create) && obj.Key() in old(images) ==> err == Some(AlreadyExists) && images == old(images)
      ensures !Fails(NodeImageKind, Create) && obj.Key() !in old(images) ==>
                err == None && images == old(images)[obj.Key() := obj.(status := InitialStatus, deletionRequested := false)]
    {
      if Fails(NodeImageKind, Create) {
        err := Some(ApiFailure(NodeImageKind, Create));
      } else if obj.Key() in images {
        err := Some(AlreadyExists);
      } else {
        images := images[obj.Key() := obj.(status := InitialStatus, deletionRequested := false)];
        err := None;
      }
    }

    /** Writes `obj` except its status; `stored` is the caller's object after
        the call: the server's copy on success, `obj` itself on failure. */
    method UpdateImage(obj: NodeImage) returns (err: Option<Failure>, stored: NodeImage)
      requires Valid()
      modifies this`images
      ensures Valid()
      ensures Fails(NodeImageKind, Update) ==>
                err == Some(ApiFailure(NodeImageKind, Update)) && images == old(images) && stored == obj
      ensures !Fails(NodeImageKind, Update) && obj.Key() !in old(images) ==>
                err == Some(NotFound) && images == old(images) && stored == obj
      ensures !Fails(NodeImageKind, Update) && obj.Key() in old(images) ==>
                err == None && images == ImageUpdated(old(images), obj) && stored == ImageAfterUpdate(old(images), obj)
    {
      stored := obj;
      if Fails(NodeImageKind, Update) {
        err := Some(ApiFailure(NodeImageKind, Update));
      } else if obj.Key() !in images {
        err := Some(NotFound);
      } else {
        stored := ImageAfterUpdate(images, obj);
        images := ImageUpdated(images, obj);
        err := None;
      }
    }

    method UpdateImageStatus(obj: NodeImage) returns (err: Option<Failure>)
      requires Valid()
      modifies this`images
      ensures Valid()
      ensures Fails(NodeImageKind, UpdateStatus) ==> err == Some(ApiFailure(NodeImageKind, UpdateStatus)) && images == old(images)
      ensures !Fails(NodeImageKind, UpdateStatus) && obj.Key() !in old(images) ==> err == Some(NotFound) && images == old(images)
      ensures !Fails(NodeImageKind, UpdateStatus) && obj.Key() in old(images) ==>
                err == None && images == ImageStatusUpdated(old(images), obj)
    {
      if Fails(NodeImageKind, UpdateStatus) {
        err := Some(ApiFailure(NodeImageKind, UpdateStatus));
      } else if obj.Key() !in images {
        err := Some(NotFound);
      } else {
        images := ImageStatusUpdated(images, obj);
        err := None;
      }
    }

    method DeleteImage(obj: NodeImage) returns (err: Option<Failure>)
      requires Valid()
      modifies this`images
      ensures Valid()
      ensures Fails(NodeImageKind, Delete) ==> err == Some(ApiFailure(NodeImageKind, Delete)) && images == old(images)
      ensures !Fails(NodeImageKind, Delete) && obj.Key() !in old(images) ==> err == Some(NotFound) && images == old(images)
      ensures !Fails(NodeImageKind, Delete) && obj.Key() in old(images) ==>
                err == None && images == ImageDeleted(old(images), obj.Key())
    {
      if Fails(NodeImageKind, Delete) {
        err := Some(ApiFailure(NodeImageKind, Delete));
      } else if obj.Key() !in images {
        err := Some(NotFound);
      } else {
        images := ImageDeleted(images, obj.Key());
        err := None;
      }
    }

    // ---------------------------------------------------------------- Releases

    method GetRelease(key: ObjectKey) returns (r: Result<Release>)
      ensures Fails(ReleaseKind, Get) ==> r == Err(ApiFailure(ReleaseKind, Get))
      ensures !Fails(ReleaseKind, Get) && key !in releases ==> r == Err(NotFound)
      ensures !Fails(ReleaseKind, Get) && key in releases ==> r == Ok(releases[key])
    {
      if Fails(ReleaseKind, Get) {
        r := Err(ApiFailure(ReleaseKind, Get));
      } else if key !in releases {
        r := Err(NotFound);
      } else {
        r := Ok(releases[key]);
      }
    }

    method UpdateRelease(rel: Release) returns (err: Option<Failure>)
      requires Valid()
      modifies this`releases
      ensures Valid()
      ensures Fails(ReleaseKind, Update) ==> err == Some(ApiFailure(ReleaseKind, Update)) && releases == old(releases)
      ensures !Fails(ReleaseKind, Update) && rel.Key() !in old(releases) ==> err == Some(NotFound) && releases == old(releases)
      ensures !Fails(ReleaseKind, Update) && rel.Key() in old(releases) ==>
                err == None && releases == ReleaseUpdated(old(releases), rel)
    {
      if Fails(ReleaseKind, Update) {
        err := Some(ApiFailure(ReleaseKind, Update));
      } else if rel.Key() !in releases {
        err := Some(NotFound);
      } else {
        releases := ReleaseUpdated(releases, rel);
        err := None;
      }
    }

    // ---------------------------------------------------------------- ConfigMaps

    method GetConfigMap(key: ObjectKey) returns (r: Result<ConfigMap>)
      ensures Fails(ConfigMapKind, Get) ==> r == Err(ApiFailure(ConfigMapKind, Get))
      ensures !Fails(ConfigMapKind, Get) && key !in configMaps ==> r == Err(NotFound)
      ensures !Fails(ConfigMapKind, Get) && key in configMaps ==> r == Ok(configMaps[key])
    {
      if Fails(ConfigMapKind, Get) {
        r := Err(ApiFailure(ConfigMapKind, Get));
      } else if key !in configMaps {
        r := Err(NotFound);
      } else {
        r := Ok(configMaps[key]);
      }
    }

    method CreateConfigMap(cm: ConfigMap) returns (err: Option<Failure>)
      requires Valid()
      modifies this`configMaps
      ensures Valid()
      ensures Fails(ConfigMapKind, Create) ==> err == Some(ApiFailure(ConfigMapKind, Create)) && configMaps == old(configMaps)
      ensures !Fails(ConfigMapKind, Create) && cm.Key() in old(configMaps) ==> err == Some(AlreadyExists) && configMaps == old(configMaps)
      ensures !Fails(ConfigMapKind, Create) && cm.Key() !in old(configMaps) ==>
                err == None && configMaps == old(configMaps)[cm.Key() := cm]
    {
      if Fails(ConfigMapKind, Create) {
        err := Some(ApiFailure(ConfigMapKind, Create));
      } else if cm.Key() in configMaps {
        err := Some(AlreadyExists);
      } else {
        configMaps := configMaps[cm.Key() := cm];
        err := None;
      }
    }

    method UpdateConfigMap(cm: ConfigMap) returns (err: Option<Failure>)
      requires Valid()
      modifies this`configMaps
      ensures Valid()
      ensures Fails(ConfigMapKind, Update) ==> err == Some(ApiFailure(ConfigMapKind, Update)) && configMaps == old(configMaps)
      ensures !Fails(ConfigMapKind, Update) && cm.Key() !in old(configMaps) ==> err == Some(NotFound) && configMaps == old(configMaps)
      ensures !Fails(ConfigMapKind, Update) && cm.Key() in old(configMaps) ==>
                err == None && configMaps == old(configMaps)[cm.Key() := cm]
    {
      if Fails(ConfigMapKind, Update) {
        err := Some(ApiFailure(ConfigMapKind, Update));
      } else if cm.Key() !in configMaps {
        err := Some(NotFound);
      } else {
        configMaps := configMaps[cm.Key() := cm];
        err := None;
      }
    }
  }
}
