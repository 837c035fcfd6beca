/** The NodeImage client: the release list in a NodeImage's status is the
    set of releases that reference the image. Releases add and remove
    themselves, and an image no release references is either marked for
    deletion (with a last-used timestamp) or deleted. */
module ImageClient {
  import opened Types
  import opened KubeApi
  import opened Lists

  const LastUsedAnnotation := "image-distribution-operator.giantswarm.io/last-used"

  // ------------------------------------------------------------ release lists as references

  /** A reference added or removed by a release. */
  datatype RefOp = AddRef(release: string) | RemoveRef(release: string)

  /** The release list after `ops`, oldest first. */
  function Applied(s: seq<string>, ops: seq<RefOp>): seq<string>
    decreases |ops|
  {
    if ops == [] then s
    else
      var next := match ops[0]
        case AddRef(r) => AddOnce(s, r)
        case RemoveRef(r) => RemoveFirst(s, r);
      Applied(next, ops[1..])
  }

  /** The set of referencing releases after `ops`. */
  function Referenced(refs: set<string>, ops: seq<RefOp>): set<string>
    decreases |ops|
  {
    if ops == [] then refs
    else
      var next := match ops[0]
        case AddRef(r) => refs + {r}
        case RemoveRef(r) => refs - {r};
      Referenced(next, ops[1..])
  }

  /** One reference change keeps the list duplicate-free and tracks the set. */
  lemma StepTracks(s: seq<string>, op: RefOp)
    requires NoDup(s)
    ensures NoDup(Applied(s, [op]))
    ensures Elements(Applied(s, [op])) == Referenced(Elements(s), [op])
  {
    assert [op][1..] == [];
    match op
    case AddRef(r) => AddOnceNoDup(s, r);
    case RemoveRef(r) => RemoveFirstNoDup(s, r);
  }

  lemma EmptyIffNoElements(s: seq<string>)
    ensures s == [] <==> Elements(s) == {}
  {
    if s != [] { assert s[0] in Elements(s); }
  }

  /** Starting from a duplicate-free list, the release list is at every point
      exactly the set of releases that added themselves and have not since
      removed themselves, each listed once. So the list is empty, and the
      image may go, exactly when no release references it. */
  lemma {:induction false} AppliedTracksReferences(s: seq<string>, ops: seq<RefOp>)
    requires NoDup(s)
    ensures NoDup(Applied(s, ops))
    ensures Elements(Applied(s, ops)) == Referenced(Elements(s), ops)
    ensures Applied(s, ops) == [] <==> Referenced(Elements(s), ops) == {}
    decreases |ops|
  {
    if ops != [] {
      StepTracks(s, ops[0]);
      var next := Applied(s, [ops[0]]);
      AppliedTracksReferences(next, ops[1..]);
      assert Applied(s, ops) == Applied(next, ops[1..]);
      assert Referenced(Elements(s), ops) == Referenced(Elements(next), ops[1..]);
    }
    EmptyIffNoElements(Applied(s, ops));
  }

  // ------------------------------------------------------------ the client

  /** The configuration New is given; `client` may be missing. */
  datatype Config = Config(client: Cluster?, namespace: string, release: string)

  /** The status AddReleaseToNodeImageStatus writes for `release` on `o`:
      the release appended, and an unset or awaiting-deletion state made
      Pending. */
  function Added(o: NodeImageStatus, release: string): NodeImageStatus {
    NodeImageStatus(o.releases + [release],
                    if o.state == Unset || o.state == AwaitingDeletion then Pending else o.state)
  }

  /** Whether adding a release to `o` first clears its last-used annotation. */
  predicate ClearsLastUsed(o: NodeImage) {
    (o.status.state == Unset || o.status.state == AwaitingDeletion) && LastUsedAnnotation in o.annotations
  }

  /** The annotations of `o` once adding a release is done with them. */
  function AnnotationsAfterAdd(o: NodeImage): map<string, string> {
    if ClearsLastUsed(o) then o.annotations - {LastUsedAnnotation} else o.annotations
  }

  /** `o` with the first occurrence of `release` taken out of its status list. */
  function WithoutRelease(o: NodeImage, release: string): NodeImage {
    o.(status := o.status.(releases := RemoveFirst(o.status.releases, release)))
  }

  /** The NodeImages once `release` has dropped its reference to the image
      under `key` and nothing failed: an image still referenced keeps the
      rest of its list; an unreferenced one is deleted (retention 0) or,
      unless it already awaits deletion, marked at `now`. */
  function Removed(images: map<ObjectKey, NodeImage>, key: ObjectKey, release: string,
                   retentionPeriod: int, now: string): map<ObjectKey, NodeImage>
    requires key in images
  {
    var o := WithoutRelease(images[key], release);
    var stripped := images[key := o];
    if o.status.releases != [] then stripped
    else if retentionPeriod <= 0 then ImageDeleted(stripped, key)
    else if o.status.state == AwaitingDeletion then stripped
    else stripped[key := Marked(o, now)]
  }

  /** Removing a reference from a duplicate-free list: the image, when it is
      still stored, lists every other referencing release once and no longer
      lists `release`; it is gone only with retention 0 and no other
      reference; no other image changes. */
  lemma RemovedDropsReference(images: map<ObjectKey, NodeImage>, key: ObjectKey, release: string,
                              retentionPeriod: int, now: string)
    requires key in images && NoDup(images[key].status.releases)
    ensures var r := Removed(images, key, release, retentionPeriod, now);
            && (key in r ==> NoDup(r[key].status.releases) &&
                             Elements(r[key].status.releases) == Elements(images[key].status.releases) - {release} &&
                             release !in r[key].status.releases)
            && (key !in r ==> retentionPeriod <= 0 && Elements(images[key].status.releases) <= {release})
            && (forall k :: k != key ==> (k in r <==> k in images))
            && (forall k :: k != key && k in r ==> r[k] == images[k])
  {
    var s := images[key].status.releases;
    RemoveFirstNoDup(s, release);
    var rest := RemoveFirst(s, release);
    if rest == [] {
      assert Elements(rest) == {};
    }
    assert release !in Elements(rest);
  }

  /** The record DeleteImage means to leave when it marks `o` for deletion at `now`. */
  function Marked(o: NodeImage, now: string): NodeImage {
    o.(annotations := o.annotations[LastUsedAnnotation := now],
       status := o.status.(state := AwaitingDeletion))
  }

  class Client {
    const api: Cluster
    const Namespace: string
    const Release: string

    constructor (api: Cluster, namespace: string, release: string)
      requires namespace != "" && release != ""
      ensures this.api == api && Namespace == namespace && Release == release
    {
      this.api, Namespace, Release := api, namespace, release;
    }

    function Key(image: string): ObjectKey {
      ObjectKey(Namespace, image)
    }

    /** Removes this client's release from the status of `image`. An absent
        image is success; the status is written even when the release is
        not listed. */
    method RemoveReleaseFromNodeImageStatus(image: string) returns (err: Option<Failure>)
      requires api.Valid()
      modifies api`images
      ensures api.Valid()
      ensures api.Fails(NodeImageKind, Get) ==>
                err == Some(ApiFailure(NodeImageKind, Get)) && api.images == old(api.images)
      ensures !api.Fails(NodeImageKind, Get) && Key(image) !in old(api.images) ==>
                err == None && api.images == old(api.images)
      ensures !api.Fails(NodeImageKind, Get) && Key(image) in old(api.images) && api.Fails(NodeImageKind, UpdateStatus) ==>
                err == Some(ApiFailure(NodeImageKind, UpdateStatus)) && api.images == old(api.images)
      ensures !api.Fails(NodeImageKind, Get) && Key(image) in old(api.images) && !api.Fails(NodeImageKind, UpdateStatus) ==>
                var o := old(api.images)[Key(image)];
                err == None && api.images == old(api.images)[Key(image) := WithoutRelease(o, Release)]
    {
      var got := api.GetImage(Key(image));
      if got.Err? {
        if got.error == NotFound {
          return None;
        }
        return Some(got.error);
      }
      var obj := got.value;
      var releases := obj.status.releases;
      var index := 0;
      while index < |releases| && releases[index] != Release
        invariant 0 <= index <= |releases|
        invariant forall k :: 0 <= k < index ==> releases[k] != Release
      {
        index := index + 1;
      }
      if index < |releases| {
        RemoveFirstAt(releases, Release, index);
        releases := releases[..index] + releases[index + 1..];
      } else {
        RemoveFirstAbsent(releases, Release);
      }
      obj := obj.(status := obj.status.(releases := releases));
      err := api.UpdateImageStatus(obj);
    }

    /** Deletes `image` once no release references it. With a positive
        retention period the image is instead marked AwaitingDeletion and
        stamped with `now` in its last-used annotation, once. An absent
        image, or one still referenced, is left alone. */
    method DeleteImage(image: string, retentionPeriod: int, now: string) returns (err: Option<Failure>)
      requires api.Valid()
      modifies api`images
      ensures api.Valid()
      ensures api.Fails(NodeImageKind, Get) ==>
                err == Some(ApiFailure(NodeImageKind, Get)) && api.images == old(api.images)
      ensures !api.Fails(NodeImageKind, Get) && (Key(image) !in old(api.images) || old(api.images)[Key(image)].status.releases != []) ==>
                err == None && api.images == old(api.images)
      ensures !api.Fails(NodeImageKind, Get) && Key(image) in old(api.images) && old(api.images)[Key(image)].status.releases == [] ==>
                var o := old(api.images)[Key(image)];
                if retentionPeriod <= 0 then
                  if api.Fails(NodeImageKind, Delete) then
                    err == Some(ApiFailure(NodeImageKind, Delete)) && api.images == old(api.images)
                  else
                    err == None && api.images == ImageDeleted(old(api.images), Key(image))
                else if o.status.state == AwaitingDeletion then
                  err == None && api.images == old(api.images)
                else if api.Fails(NodeImageKind, Update) then
                  err == Some(ApiFailure(NodeImageKind, Update)) && api.images == old(api.images)
                else if api.Fails(NodeImageKind, UpdateStatus) then
                  err == Some(ApiFailure(NodeImageKind, UpdateStatus)) &&
                  api.images == old(api.images)[Key(image) := o.(annotations := Marked(o, now).annotations)]
                else
                  err == None && api.images == old(api.images)[Key(image) := Marked(o, now)]
    {
      var got := api.GetImage(Key(image));
      if got.Err? {
        if got.error == NotFound {
          return None;
        }
        return Some(got.error);
      }
      var obj := got.value;
      if |obj.status.releases| > 0 {
        return None;
      }
      if retentionPeriod > 0 {
        if obj.status.state != AwaitingDeletion {
          var marked := Marked(obj, now);
          var stored;
          err, stored := api.UpdateImage(marked);
          if err.Some? {
            return;
          }
          // the server's copy carries the old status: write the marked one
          obj := stored.(status := marked.status);
          err := api.UpdateImageStatus(obj);
          return;
        }
        return None;
      }
      err := api.DeleteImage(obj);
    }

    /** DeleteImage as pkg/image/client.go:113-116 writes it: the status
        written after the metadata update is the server's copy, so the state
        AwaitingDeletion is never stored while the annotation is. */
    method DeleteImageAsWritten(image: string, retentionPeriod: int, now: string) returns (err: Option<Failure>)
      requires api.Valid()
      modifies api`images
      ensures api.Valid()
      ensures !api.Fails(NodeImageKind, Get) && Key(image) in old(api.images) && old(api.images)[Key(image)].status.releases == [] &&
              retentionPeriod > 0 && old(api.images)[Key(image)].status.state != AwaitingDeletion &&
              !api.Fails(NodeImageKind, Update) ==>
                var o := old(api.images)[Key(image)];
                api.images == old(api.images)[Key(image) := o.(annotations := Marked(o, now).annotations)] &&
                (!api.Fails(NodeImageKind, UpdateStatus) ==> err == None)
    {
      var got := api.GetImage(Key(image));
      if got.Err? {
        if got.error == NotFound {
          return None;
        }
        return Some(got.error);
      }
      var obj := got.value;
      if |obj.status.releases| > 0 {
        return None;
      }
      if retentionPeriod > 0 {
        if obj.status.state != AwaitingDeletion {
          obj := Marked(obj, now);
          err, obj := api.UpdateImage(obj);
          if err.Some? {
            return;
          }
          err := api.UpdateImageStatus(obj);
          return;
        }
        return None;
      }
      err := api.DeleteImage(obj);
    }

    /** Creates `image` in this client's namespace; an image that already
        exists is success and is left as it is. */
    method CreateImage(image: NodeImage) returns (err: Option<Failure>)
      requires api.Valid()
      modifies api`images
      ensures api.Valid()
      ensures api.Fails(NodeImageKind, Create) ==>
                err == Some(ApiFailure(NodeImageKind, Create)) && api.images == old(api.images)
      ensures !api.Fails(NodeImageKind, Create) && Key(image.name) in old(api.images) ==>
                err == None && api.images == old(api.images)
      ensures !api.Fails(NodeImageKind, Create) && Key(image.name) !in old(api.images) ==>
                err == None &&
                api.images == old(api.images)[Key(image.name) :=
                  image.(namespace := Namespace, status := InitialStatus, deletionRequested := false)]
    {
      var obj := image.(namespace := Namespace);
      err := api.CreateImage(obj);
      if err == Some(AlreadyExists) {
        return None;
      }
    }

    /** Adds this client's release to the status of `image` unless it is
        listed already. An unset or awaiting-deletion state becomes Pending
        and loses its last-used annotation, which is cleared by a metadata
        update before the status is written. */
    method AddReleaseToNodeImageStatus(image: string) returns (err: Option<Failure>)
      requires api.Valid()
      modifies api`images
      ensures api.Valid()
      ensures api.Fails(NodeImageKind, Get) ==>
                err == Some(ApiFailure(NodeImageKind, Get)) && api.images == old(api.images)
      ensures !api.Fails(NodeImageKind, Get) && Key(image) !in old(api.images) ==>
                err == Some(NotFound) && api.images == old(api.images)
      ensures !api.Fails(NodeImageKind, Get) && Key(image) in old(api.images) && Release in old(api.images)[Key(image)].status.releases ==>
                err == None && api.images == old(api.images)
      ensures !api.Fails(NodeImageKind, Get) && Key(image) in old(api.images) && Release !in old(api.images)[Key(image)].status.releases ==>
                var o := old(api.images)[Key(image)];
                if ClearsLastUsed(o) && api.Fails(NodeImageKind, Update) then
                  err == Some(ApiFailure(NodeImageKind, Update)) && api.images == old(api.images)
                else if api.Fails(NodeImageKind, UpdateStatus) then
                  err == Some(ApiFailure(NodeImageKind, UpdateStatus)) &&
                  api.images == old(api.images)[Key(image) := o.(annotations := AnnotationsAfterAdd(o))]
                else
                  err == None &&
                  api.images == old(api.images)[Key(image) := o.(annotations := AnnotationsAfterAdd(o), status := Added(o.status, Release))]
    {
      var got := api.GetImage(Key(image));
      if got.Err? {
        return Some(got.error);
      }
      var obj := got.value;
      var releases := obj.status.releases;
      var index := 0;
      while index < |releases|
        invariant 0 <= index <= |releases|
        invariant Release !in releases[..index]
      {
        if releases[index] == Release {
          return None;
        }
        index := index + 1;
      }
      assert releases[..index] == releases;
      obj := obj.(status := obj.status.(releases := releases + [Release]));
      if obj.status.state == Unset || obj.status.state == AwaitingDeletion {
        obj := obj.(status := obj.status.(state := Pending));
        if LastUsedAnnotation in obj.annotations {
          var status := obj.status;
          obj := obj.(annotations := obj.annotations - {LastUsedAnnotation});
          err, obj := api.UpdateImage(obj);
          if err.Some? {
            return;
          }
          // the server's copy carries the old status: put the new one back
          obj := obj.(status := status);
        }
      }
      err := api.UpdateImageStatus(obj);
    }

    /** AddReleaseToNodeImageStatus as pkg/image/client.go:159-177 writes it:
        when the last-used annotation is cleared, the status written
        afterwards is the server's copy, so the release is not recorded
        although the call succeeds. */
    method AddReleaseToNodeImageStatusAsWritten(image: string) returns (err: Option<Failure>)
      requires api.Valid()
      modifies api`images
      ensures api.Valid()
      ensures !api.Fails(NodeImageKind, Get) && Key(image) in old(api.images) &&
              Release !in old(api.images)[Key(image)].status.releases &&
              ClearsLastUsed(old(api.images)[Key(image)]) && !api.Fails(NodeImageKind, Update) ==>
                var o := old(api.images)[Key(image)];
                api.images == old(api.images)[Key(image) := o.(annotations := o.annotations - {LastUsedAnnotation})] &&
                Release !in api.images[Key(image)].status.releases &&
                (!api.Fails(NodeImageKind, UpdateStatus) ==> err == None)
    {
      var got := api.GetImage(Key(image));
      if got.Err? {
        return Some(got.error);
      }
      var obj := got.value;
      var releases := obj.status.releases;
      var index := 0;
      while index < |releases|
        invariant 0 <= index <= |releases|
        invariant Release !in releases[..index]
      {
        if releases[index] == Release {
          return None;
        }
        index := index + 1;
      }
      obj := obj.(status := obj.status.(releases := releases + [Release]));
      if obj.status.state == Unset || obj.status.state == AwaitingDeletion {
        obj := obj.(status := obj.status.(state := Pending));
        if LastUsedAnnotation in obj.annotations {
          obj := obj.(annotations := obj.annotations - {LastUsedAnnotation});
          err, obj := api.UpdateImage(obj);
          if err.Some? {
            return;
          }
        }
      }
      err := api.UpdateImageStatus(obj);
    }

    /** A release going away: drop its reference to `image`, then delete or
        mark the image if nothing references it any more. */
    method RemoveImage(image: string, retentionPeriod: int, now: string) returns (err: Option<Failure>)
      requires api.Valid()
      modifies api`images
      ensures api.Valid()
      ensures api.Fails(NodeImageKind, Get) ==>
                err == Some(ApiFailure(NodeImageKind, Get)) && api.images == old(api.images)
      ensures !api.Fails(NodeImageKind, Get) && Key(image) !in old(api.images) ==>
                err == None && api.images == old(api.images)
      ensures !api.Fails(NodeImageKind, Get) && Key(image) in old(api.images) && api.Fails(NodeImageKind, UpdateStatus) ==>
                err == Some(ApiFailure(NodeImageKind, UpdateStatus)) && api.images == old(api.images)
      ensures !api.Fails(NodeImageKind, Get) && Key(image) in old(api.images) && !api.Fails(NodeImageKind, UpdateStatus) ==>
                var o := old(api.images)[Key(image)];
                var stripped := old(api.images)[Key(image) := WithoutRelease(o, Release)];
                var unreferenced := WithoutRelease(o, Release).status.releases == [];
                if unreferenced && retentionPeriod <= 0 && api.Fails(NodeImageKind, Delete) then
                  err == Some(ApiFailure(NodeImageKind, Delete)) && api.images == stripped
                else if unreferenced && retentionPeriod > 0 && o.status.state != AwaitingDeletion &&
                        api.Fails(NodeImageKind, Update) then
                  err == Some(ApiFailure(NodeImageKind, Update)) && api.images == stripped
                else
                  err == None && api.images == Removed(old(api.images), Key(image), Release, retentionPeriod, now)
      ensures forall k :: k != Key(image) ==> (k in api.images <==> k in old(api.images))
      ensures forall k :: k != Key(image) && k in api.images ==> api.images[k] == old(api.images)[k]
      ensures err == None && Key(image) in old(api.images) && NoDup(old(api.images)[Key(image)].status.releases) &&
              Key(image) in api.images ==>
                Release !in api.images[Key(image)].status.releases
    {
      err := RemoveReleaseFromNodeImageStatus(image);
      if err.Some? {
        return;
      }
      err := DeleteImage(image, retentionPeriod, now);
      if err == None && Key(image) in old(api.images) && NoDup(old(api.images)[Key(image)].status.releases) {
        RemovedDropsReference(old(api.images), Key(image), Release, retentionPeriod, now);
      }
    }

    /** A release that uses `image`: create it if it does not exist, then
        record the release's reference to it. */
    method CreateOrUpdateImage(image: NodeImage) returns (err: Option<Failure>)
      requires api.Valid()
      modifies api`images
      ensures api.Valid()
      ensures forall k :: k != Key(image.name) ==> (k in api.images <==> k in old(api.images))
      ensures forall k :: k != Key(image.name) && k in api.images ==> api.images[k] == old(api.images)[k]
      ensures !api.Fails(NodeImageKind, Create) && !api.Fails(NodeImageKind, Get) &&
              !api.Fails(NodeImageKind, Update) && !api.Fails(NodeImageKind, UpdateStatus) ==>
                err == None && Key(image.name) in api.images &&
                Release in api.images[Key(image.name)].status.releases
      ensures !api.Fails(NodeImageKind, Create) && !api.Fails(NodeImageKind, Get) &&
              !api.Fails(NodeImageKind, Update) && !api.Fails(NodeImageKind, UpdateStatus) &&
              Key(image.name) !in old(api.images) ==>
                err == None && Key(image.name) in api.images &&
                api.images[Key(image.name)] == image.(namespace := Namespace, deletionRequested := false,
                                                      annotations := image.annotations - {LastUsedAnnotation},
                                                      status := NodeImageStatus([Release], Pending))
      ensures Key(image.name) in old(api.images) && NoDup(old(api.images)[Key(image.name)].status.releases) &&
              Key(image.name) in api.images ==>
                NoDup(api.images[Key(image.name)].status.releases)
    {
      err := CreateImage(image);
      if err.Some? {
        return;
      }
      err := AddReleaseToNodeImageStatus(image.name);
      if Key(image.name) in old(api.images) {
        var o := old(api.images)[Key(image.name)];
        if NoDup(o.status.releases) {
          AddOnceNoDup(o.status.releases, Release);
        }
      }
    }
  }

  /** Checks New's arguments in order: namespace, client, release. */
  method New(c: Config) returns (r: Result<Client>)
    ensures c.namespace == "" ==> r == Err(NamespaceRequired)
    ensures c.namespace != "" && c.client == null ==> r == Err(ClientRequired)
    ensures c.namespace != "" && c.client != null && c.release == "" ==> r == Err(ReleaseRequired)
    ensures r.Ok? <==> c.namespace != "" && c.client != null && c.release != ""
    ensures r.Ok? ==> fresh(r.value) && r.value.api == c.client &&
                      r.value.Namespace == c.namespace && r.value.Release == c.release
  {
    if c.namespace == "" {
      return Err(NamespaceRequired);
    }
    if c.client == null {
      return Err(ClientRequired);
    }
    if c.release == "" {
      return Err(ReleaseRequired);
    }
    var client := new Client(c.client, c.namespace, c.release);
    return Ok(client);
  }
}
