/** The NodeImage controller: a NodeImage being deleted has its template
    removed from every vSphere location before its finalizer goes; a live
    NodeImage gets the finalizer, and its template is uploaded to every
    location that does not have it yet. The state in the NodeImage's status
    follows each step. */
module NodeImageController {
  import opened Types
  import opened KubeApi
  import opened VsphereOracle

  const ProviderVsphere := "capv"
  const ProviderTest := "test"
  /** URLs of the test bucket are accepted without probing them. */
  const TestBucketPrefix := "https://test-bucket.s3."

  /** The outcome of an HTTP HEAD request. */
  datatype HeadResult = HeadFailed | HeadResponse(statusCode: int)

  /** Whether `url` may be imported: it is not empty, it is an S3 URL, and
      it is in the test bucket or a HEAD request answers 2xx. */
  function ValidURL(url: string, isS3URL: string -> bool, head: string -> HeadResult): (r: Option<Failure>)
    ensures r == None <==>
              url != "" && isS3URL(url) &&
              (HasPrefix(url, TestBucketPrefix) || (head(url).HeadResponse? && 200 <= head(url).statusCode < 300))
    ensures url == "" ==> r == Some(URLEmpty)
    ensures url != "" && !isS3URL(url) ==> r == Some(NotS3Bucket)
    ensures r.Some? && url != "" && isS3URL(url) ==>
              !HasPrefix(url, TestBucketPrefix) &&
              r == (if head(url).HeadFailed? then Some(URLCheckFailed) else Some(OvaNotFound(head(url).statusCode)))
  {
    if url == "" then Some(URLEmpty)
    else if !isS3URL(url) then Some(NotS3Bucket)
    else if HasPrefix(url, TestBucketPrefix) then None
    else match head(url)
      case HeadFailed => Some(URLCheckFailed)
      case HeadResponse(code) => if 200 <= code < 300 then None else Some(OvaNotFound(code))
  }

  /** A test-bucket URL is judged without the HEAD request. */
  lemma TestBucketNeedsNoProbe(url: string, isS3URL: string -> bool, head1: string -> HeadResult, head2: string -> HeadResult)
    requires HasPrefix(url, TestBucketPrefix)
    ensures ValidURL(url, isS3URL, head1) == ValidURL(url, isS3URL, head2)
    ensures ValidURL(url, isS3URL, head1) == None <==> isS3URL(url)
  {
    assert url != "" by { assert |url| >= |TestBucketPrefix|; }
  }

  /** Whether the NodeImage is being deleted: its deletion timestamp is set. */
  function IsDeleted(nodeImage: NodeImage): (deleted: bool)
    ensures deleted <==> nodeImage.deletionRequested
  {
    nodeImage.deletionRequested
  }

  /** `after` differs from `before` at most in the status of the record under `key`. */
  ghost predicate OnlyStatusChanged(before: map<ObjectKey, NodeImage>, after: map<ObjectKey, NodeImage>, key: ObjectKey) {
    && before.Keys == after.Keys
    && (forall k :: k in before && k != key ==> after[k] == before[k])
    && (key in before ==> after[key] == before[key].(status := after[key].status))
  }

  /** How the store's NodeImages change when the state of `nodeImage`
      becomes that of `updated`: not at all when status writes fail, and by
      storing `updated` when `nodeImage` is what the store held. */
  ghost predicate ImagesAfter(before: map<ObjectKey, NodeImage>, after: map<ObjectKey, NodeImage>,
                              nodeImage: NodeImage, updated: NodeImage, fails: bool) {
    && (fails ==> after == before)
    && (!fails && nodeImage.Key() in before && before[nodeImage.Key()] == nodeImage ==> after == before[nodeImage.Key() := updated])
  }

  /** The pair of `name` with each location in `locs`. */
  function Templates(name: string, locs: set<string>): set<(string, string)> {
    set l | l in locs :: (name, l)
  }

  class NodeImageReconciler {
    const api: Cluster
    const vsphere: VsphereClient

    constructor (api: Cluster, vsphere: VsphereClient)
      ensures this.api == api && this.vsphere == vsphere
    {
      this.api, this.vsphere := api, vsphere;
    }

    /** Whether `img` is what the store holds under its key. */
    ghost predicate Stored(img: NodeImage)
      reads api
    {
      img.Key() in api.images && api.images[img.Key()] == img
    }

    /** Whether a status write for `key` fails. */
    predicate StatusWriteFails(key: ObjectKey)
      reads api
    {
      api.Fails(NodeImageKind, Verb.UpdateStatus) || key !in api.images
    }

    /** Sets the state of `nodeImage` to `state`; the status is written only
        when the state changes. The returned record carries the new state
        even when the write fails. */
    method UpdateStatus(nodeImage: NodeImage, state: NodeImageState) returns (updated: NodeImage, err: Option<Failure>)
      requires api.Valid()
      modifies api`images
      ensures api.Valid()
      ensures updated == nodeImage.(status := nodeImage.status.(state := state))
      ensures nodeImage.status.state == state ==> err == None && api.images == old(api.images)
      ensures nodeImage.status.state != state ==>
                if api.Fails(NodeImageKind, Verb.UpdateStatus) then
                  err == Some(StatusUpdateFailed(ApiFailure(NodeImageKind, Verb.UpdateStatus))) && api.images == old(api.images)
                else if nodeImage.Key() !in old(api.images) then
                  err == Some(StatusUpdateFailed(NotFound)) && api.images == old(api.images)
                else
                  err == None && api.images == ImageStatusUpdated(old(api.images), updated)
      ensures OnlyStatusChanged(old(api.images), api.images, nodeImage.Key())
      ensures ImagesAfter(old(api.images), api.images, nodeImage, updated, api.Fails(NodeImageKind, Verb.UpdateStatus))
    {
      updated := nodeImage;
      err := None;
      if nodeImage.status.state != state {
        updated := nodeImage.(status := nodeImage.status.(state := state));
        var e := api.UpdateImageStatus(updated);
        if e.Some? {
          err := Some(StatusUpdateFailed(e.value));
        }
      }
    }

    /** Removes the template of `nodeImage` at `loc`: state Deleting, the
        provider's Delete, then state Deleted. Stops at the first failure. */
    method DeleteVsphere(nodeImage: NodeImage, loc: string) returns (updated: NodeImage, err: Option<Failure>)
      requires api.Valid()
      modifies api`images, vsphere
      ensures api.Valid()
      ensures updated == nodeImage.(status := nodeImage.status.(state := updated.status.state))
      ensures var writeFails := nodeImage.status.state != Deleting && old(StatusWriteFails(nodeImage.Key()));
              if writeFails then
                err.Some? && err.value.StatusUpdateFailed? && updated.status.state == Deleting &&
                vsphere.calls == old(vsphere.calls) && vsphere.catalog == old(vsphere.catalog)
              else if loc in vsphere.deleteFails then
                err == Some(ProviderFailure(DeleteOp, loc)) && updated.status.state == Deleting &&
                vsphere.calls == old(vsphere.calls) + [DeleteCall(nodeImage.spec.name, loc)] &&
                vsphere.catalog == old(vsphere.catalog)
              else
                updated.status.state == Deleted &&
                (err == None <==> !old(StatusWriteFails(nodeImage.Key()))) &&
                vsphere.calls == old(vsphere.calls) + [DeleteCall(nodeImage.spec.name, loc)] &&
                vsphere.catalog == old(vsphere.catalog) - {(nodeImage.spec.name, loc)}
      ensures ImagesAfter(old(api.images), api.images, nodeImage, updated, api.Fails(NodeImageKind, Verb.UpdateStatus))
    {
      updated, err := UpdateStatus(nodeImage, Deleting);
      if err.Some? {
        return;
      }
      err := vsphere.Delete(nodeImage.spec.name, loc);
      if err.Some? {
        return;
      }
      ghost var deleting := updated;
      updated, err := UpdateStatus(updated, Deleted);
      UpdateTwice(old(api.images), nodeImage.Key(), deleting, updated);
    }

    /** Makes sure the template of `nodeImage` is at `loc`: when Exists says
        it is, the state becomes Available; otherwise it is uploaded. Stops
        at the first failure. */
    method CreateVsphere(nodeImage: NodeImage, url: string, loc: string) returns (updated: NodeImage, err: Option<Failure>)
      requires api.Valid()
      modifies api`images, vsphere
      ensures api.Valid()
      ensures updated == nodeImage.(status := nodeImage.status.(state := updated.status.state))
      ensures loc in vsphere.existsFails ==>
                err == Some(ProviderFailure(ExistsOp, loc)) && updated == nodeImage &&
                vsphere.calls == old(vsphere.calls) + [ExistsCall(nodeImage.spec.name, loc)] &&
                vsphere.catalog == old(vsphere.catalog)
      ensures loc !in vsphere.existsFails && (nodeImage.spec.name, loc) in old(vsphere.catalog) ==>
                updated.status.state == Available &&
                (err == None <==> nodeImage.status.state == Available || !old(StatusWriteFails(nodeImage.Key()))) &&
                vsphere.calls == old(vsphere.calls) + [ExistsCall(nodeImage.spec.name, loc)] &&
                vsphere.catalog == old(vsphere.catalog)
      ensures loc !in vsphere.existsFails && (nodeImage.spec.name, loc) !in old(vsphere.catalog) ==>
                |vsphere.calls| > |old(vsphere.calls)| &&
                vsphere.calls[..|old(vsphere.calls)| + 1] == old(vsphere.calls) + [ExistsCall(nodeImage.spec.name, loc)] &&
                UploadOutcome(nodeImage, url, loc, updated, err, old(StatusWriteFails(nodeImage.Key())),
                              vsphere.calls[|old(vsphere.calls)| + 1..], old(vsphere.catalog), vsphere.catalog)
      ensures CreateLog(nodeImage.spec.name, url, old(vsphere.calls), vsphere.calls, {loc}, old(vsphere.catalog))
      ensures err.Some? && err.value.ProviderFailure? ==>
                LastCallIs(old(vsphere.calls), vsphere.calls, CallOf(nodeImage.spec.name, url, err.value.op, err.value.location))
      ensures ImagesAfter(old(api.images), api.images, nodeImage, updated, api.Fails(NodeImageKind, Verb.UpdateStatus))
    {
      var found;
      found, err := vsphere.Exists(nodeImage.spec.name, loc);
      assert vsphere.calls[..|old(vsphere.calls)|] == old(vsphere.calls);
      if err.Some? {
        return nodeImage, err;
      }
      if found {
        updated, err := UpdateStatus(nodeImage, Available);
        return;
      }
      ghost var calls1 := vsphere.calls;
      ghost var catalog1 := vsphere.catalog;
      updated, err := Upload(nodeImage, url, loc);
      assert vsphere.calls == calls1 + vsphere.calls[|calls1|..];
      UploadLogged(nodeImage, url, loc, updated, err, old(StatusWriteFails(nodeImage.Key())), calls1, vsphere.calls, catalog1, vsphere.catalog);
      CreateLogAppend(nodeImage.spec.name, url, old(vsphere.calls), calls1, vsphere.calls, {loc}, loc, old(vsphere.catalog), catalog1);
    }

    /** The outcome of uploading the template of `nodeImage` to `loc`, given
        whether status writes fail, the calls made and the catalogue before
        and after. */
    ghost predicate UploadOutcome(nodeImage: NodeImage, url: string, loc: string, updated: NodeImage, err: Option<Failure>,
                                  writeFails: bool, calls: seq<Call>, before: set<(string, string)>, after: set<(string, string)>)
      reads vsphere
    {
      var name := nodeImage.spec.name;
      if nodeImage.status.state != Uploading && writeFails then
        err.Some? && err.value.StatusUpdateFailed? && updated.status.state == Uploading && calls == [] && after == before
      else if loc in vsphere.importFails then
        err == Some(ProviderFailure(ImportOp, loc)) && updated.status.state == Uploading &&
        calls == [ImportCall(url, name, loc)] && after == before
      else if loc in vsphere.processFails then
        err == Some(ProviderFailure(ProcessOp, loc)) && updated.status.state == Uploading &&
        calls == [ImportCall(url, name, loc), ProcessCall(name, loc)] && after == before
      else
        updated.status.state == Available && (err == None <==> !writeFails) &&
        (err.Some? ==> err.value.StatusUpdateFailed?) &&
        calls == [ImportCall(url, name, loc), ProcessCall(name, loc)] && after == before + {(name, loc)}
    }

    /** An upload where the template was absent is a stretch of the creation
        log, and when a provider call failed it was the last call. */
    lemma UploadLogged(nodeImage: NodeImage, url: string, loc: string, updated: NodeImage, err: Option<Failure>,
                       writeFails: bool, calls0: seq<Call>, calls: seq<Call>, before: set<(string, string)>, after: set<(string, string)>)
      requires |calls| >= |calls0| && calls[..|calls0|] == calls0 && (nodeImage.spec.name, loc) !in before
      requires UploadOutcome(nodeImage, url, loc, updated, err, writeFails, calls[|calls0|..], before, after)
      ensures CreateLog(nodeImage.spec.name, url, calls0, calls, {loc}, before)
      ensures err.Some? && err.value.ProviderFailure? ==>
                LastCallIs(calls0, calls, CallOf(nodeImage.spec.name, url, err.value.op, err.value.location))
    {
      var tail := calls[|calls0|..];
      if tail != [] {
        assert calls[|calls| - 1] == tail[|tail| - 1];
      }
      forall i | |calls0| <= i < |calls|
        ensures CreateCall(calls[i], nodeImage.spec.name, url, {loc})
      {
        assert calls[i] == calls[|calls0|..][i - |calls0|];
      }
      forall i | |calls0| <= i < |calls| && (calls[i].ImportCall? || calls[i].ProcessCall?)
        ensures (nodeImage.spec.name, calls[i].location) !in before
      {
        assert calls[i] == calls[|calls0|..][i - |calls0|];
      }
    }

    /** Uploads the template of `nodeImage` to `loc`: state Uploading, Import
        of `url`, Process, then state Available. Stops at the first failure. */
    method Upload(nodeImage: NodeImage, url: string, loc: string) returns (updated: NodeImage, err: Option<Failure>)
      requires api.Valid()
      modifies api`images, vsphere
      ensures api.Valid()
      ensures updated == nodeImage.(status := nodeImage.status.(state := updated.status.state))
      ensures |vsphere.calls| >= |old(vsphere.calls)| && vsphere.calls[..|old(vsphere.calls)|] == old(vsphere.calls)
      ensures UploadOutcome(nodeImage, url, loc, updated, err, old(StatusWriteFails(nodeImage.Key())),
                            vsphere.calls[|old(vsphere.calls)|..], old(vsphere.catalog), vsphere.catalog)
      ensures ImagesAfter(old(api.images), api.images, nodeImage, updated, api.Fails(NodeImageKind, Verb.UpdateStatus))
    {
      ghost var calls0 := vsphere.calls;
      updated, err := UpdateStatus(nodeImage, Uploading);
      if err.Some? {
        assert vsphere.calls[|calls0|..] == [];
        return;
      }
      err := vsphere.Import(url, nodeImage.spec.name, loc);
      if err.Some? {
        assert vsphere.calls[|calls0|..] == [ImportCall(url, nodeImage.spec.name, loc)];
        return;
      }
      err := vsphere.Process(nodeImage.spec.name, loc);
      assert vsphere.calls[|calls0|..] == [ImportCall(url, nodeImage.spec.name, loc), ProcessCall(nodeImage.spec.name, loc)];
      if err.Some? {
        return;
      }
      ghost var uploading := updated;
      updated, err := UpdateStatus(updated, Available);
      UpdateTwice(old(api.images), nodeImage.Key(), uploading, updated);
    }

    /** The creation loop after the template of `nodeImage` was made sure of
        at every location in `done`: given the calls, catalogue and images
        from before the loop, the calls were those of the creation loop,
        the templates are present, and the state Available is what the store
        holds. */
    ghost predicate CreatedAt(nodeImage: NodeImage, url: string, calls0: seq<Call>, catalog0: set<(string, string)>,
                              images0: map<ObjectKey, NodeImage>, updated: NodeImage, done: set<string>)
      reads api, vsphere
    {
      && done <= vsphere.Locations
      && updated == nodeImage.(status := nodeImage.status.(state := updated.status.state))
      && CreateLog(nodeImage.spec.name, url, calls0, vsphere.calls, done, catalog0)
      && vsphere.catalog == catalog0 + Templates(nodeImage.spec.name, done)
      && (done != {} ==> updated.status.state == Available)
      && api.images == if api.Fails(NodeImageKind, Verb.UpdateStatus) then images0 else images0[nodeImage.Key() := updated]
    }

    /** Whether `e` is the failure of a provider call the creation loop makes
        for template `name`: Exists anywhere, Import and Process only where
        `catalog0` lacked the template. */
    ghost predicate CreateFailure(e: Failure, name: string, catalog0: set<(string, string)>)
      reads vsphere
    {
      && e.ProviderFailure? && e.location in vsphere.Locations
      && match e.op
           case ExistsOp => e.location in vsphere.existsFails
           case ImportOp => e.location in vsphere.importFails && (name, e.location) !in catalog0
           case ProcessOp => e.location in vsphere.processFails && (name, e.location) !in catalog0
           case DeleteOp => false
    }

    /** The creation loop after it stopped at a failure: the calls were
        those of the creation loop, no template was removed and only those
        of `nodeImage` were added, the state is Error, and unless status
        writes fail, the error is a provider call's failure and that call
        was the last one made. */
    ghost predicate CreateStoppedAt(nodeImage: NodeImage, url: string, calls0: seq<Call>, catalog0: set<(string, string)>,
                                    images0: map<ObjectKey, NodeImage>, updated: NodeImage, err: Option<Failure>)
      reads api, vsphere
    {
      var name := nodeImage.spec.name;
      && updated == nodeImage.(status := nodeImage.status.(state := Error))
      && CreateLog(name, url, calls0, vsphere.calls, vsphere.Locations, catalog0)
      && catalog0 <= vsphere.catalog <= catalog0 + Templates(name, vsphere.Locations)
      && err.Some?
      && (!api.Fails(NodeImageKind, Verb.UpdateStatus) ==>
            CreateFailure(err.value, name, catalog0) &&
            LastCallIs(calls0, vsphere.calls, CallOf(name, url, err.value.op, err.value.location)))
      && api.images == if api.Fails(NodeImageKind, Verb.UpdateStatus) then images0 else images0[nodeImage.Key() := updated]
    }

    /** One turn of the creation loop of Reconcile: CreateVsphere at `loc`,
        and on its failure the state Error, which ends the loop. */
    method CreateStep(nodeImage: NodeImage, current: NodeImage, url: string, loc: string, ghost calls0: seq<Call>,
                      ghost catalog0: set<(string, string)>, ghost images0: map<ObjectKey, NodeImage>, ghost done: set<string>)
      returns (updated: NodeImage, err: Option<Failure>)
      requires api.Valid() && nodeImage.Key() in images0 && images0[nodeImage.Key()] == nodeImage
      requires CreatedAt(nodeImage, url, calls0, catalog0, images0, current, done) && loc in vsphere.Locations && loc !in done
      modifies api`images, vsphere
      ensures api.Valid()
      ensures err == None ==> CreatedAt(nodeImage, url, calls0, catalog0, images0, updated, done + {loc})
      ensures err.Some? ==> CreateStoppedAt(nodeImage, url, calls0, catalog0, images0, updated, err)
    {
      ghost var calls1 := vsphere.calls;
      ghost var catalog1 := vsphere.catalog;
      var e;
      updated, e := CreateVsphere(current, url, loc);
      UpdateTwice(images0, nodeImage.Key(), current, updated);
      TemplatesAdd(nodeImage.spec.name, done, loc);
      CreateLogAppend(nodeImage.spec.name, url, calls0, calls1, vsphere.calls, done, loc, catalog0, catalog1);
      if e.Some? {
        assert Templates(nodeImage.spec.name, done) + {(nodeImage.spec.name, loc)} <= Templates(nodeImage.spec.name, vsphere.Locations);
        CreateLogWiden(nodeImage.spec.name, url, calls0, vsphere.calls, done + {loc}, vsphere.Locations, catalog0);
        updated, err := MarkCreateFailed(nodeImage, updated, url, e.value, calls0, catalog0, images0);
        return;
      }
      err := None;
    }

    /** After a failed CreateVsphere: the state Error, and the failure
        combined with that of the status write when that fails too. */
    method MarkCreateFailed(nodeImage: NodeImage, current: NodeImage, url: string, e: Failure, ghost calls0: seq<Call>,
                            ghost catalog0: set<(string, string)>, ghost images0: map<ObjectKey, NodeImage>)
      returns (updated: NodeImage, err: Option<Failure>)
      requires api.Valid() && nodeImage.Key() in images0 && images0[nodeImage.Key()] == nodeImage
      requires current == nodeImage.(status := nodeImage.status.(state := current.status.state))
      requires CreateLog(nodeImage.spec.name, url, calls0, vsphere.calls, vsphere.Locations, catalog0)
      requires catalog0 <= vsphere.catalog <= catalog0 + Templates(nodeImage.spec.name, vsphere.Locations)
      requires !api.Fails(NodeImageKind, Verb.UpdateStatus) ==>
                 CreateFailure(e, nodeImage.spec.name, catalog0) &&
                 LastCallIs(calls0, vsphere.calls, CallOf(nodeImage.spec.name, url, e.op, e.location))
      requires api.images == if api.Fails(NodeImageKind, Verb.UpdateStatus) then images0 else images0[nodeImage.Key() := current]
      modifies api`images
      ensures api.Valid()
      ensures CreateStoppedAt(nodeImage, url, calls0, catalog0, images0, updated, err)
    {
      var statusErr;
      updated, statusErr := UpdateStatus(current, Error);
      UpdateTwice(images0, nodeImage.Key(), current, updated);
      err := if statusErr.Some? then Some(AlsoStatusFailed(e, statusErr.value)) else Some(e);
    }

    /** The creation loop of Reconcile: the template is made sure of at
        every location in turn. The first failure sets the state Error and
        ends the loop, so no location after it is touched. */
    method CreateAtLocations(nodeImage: NodeImage, url: string) returns (updated: NodeImage, err: Option<Failure>)
      requires api.Valid() && Stored(nodeImage)
      modifies api`images, vsphere
      ensures api.Valid()
      ensures err == None ==>
                CreatedAt(nodeImage, url, old(vsphere.calls), old(vsphere.catalog), old(api.images), updated, vsphere.Locations)
      ensures err.Some? ==>
                CreateStoppedAt(nodeImage, url, old(vsphere.calls), old(vsphere.catalog), old(api.images), updated, err)
    {
      ghost var calls0 := vsphere.calls;
      ghost var catalog0 := vsphere.catalog;
      ghost var images0 := api.images;
      ghost var done: set<string> := {};
      var todo := vsphere.Locations;
      updated := nodeImage;
      assert vsphere.calls[..|calls0|] == calls0;
      assert Templates(nodeImage.spec.name, {}) == {};
      UpdateSameValue(images0, nodeImage.Key());
      while todo != {}
        invariant done == vsphere.Locations - todo
        invariant CreatedAt(nodeImage, url, calls0, catalog0, images0, updated, done)
        decreases todo
      {
        var loc :| loc in todo;
        updated, err := CreateStep(nodeImage, updated, url, loc, calls0, catalog0, images0, done);
        if err.Some? {
          return;
        }
        todo := todo - {loc};
        done := done + {loc};
      }
      err := None;
    }

    /** The deletion loop after the template of `nodeImage` was deleted at
        every location in `done`: given the calls, catalogue and images from
        before the loop, only those deletions were logged, the templates are
        gone, and the state Deleted is what the store holds. */
    ghost predicate DeletedAt(nodeImage: NodeImage, calls0: seq<Call>, catalog0: set<(string, string)>,
                              images0: map<ObjectKey, NodeImage>, updated: NodeImage, done: set<string>)
      reads api, vsphere
    {
      && done <= vsphere.Locations
      && updated == nodeImage.(status := nodeImage.status.(state := updated.status.state))
      && DeleteLog(nodeImage.spec.name, calls0, vsphere.calls, done, vsphere.deleteFails, true)
      && vsphere.catalog == catalog0 - Templates(nodeImage.spec.name, done)
      && (done != {} ==> updated.status.state == Deleted)
      && api.images == if api.Fails(NodeImageKind, Verb.UpdateStatus) then images0 else images0[nodeImage.Key() := updated]
    }

    /** The deletion loop after it stopped at a failure: the calls were
        deletions at locations, all but the last of which succeeded; no
        other template was removed; the state is Error; and unless status
        writes fail, the error is the provider's failure at the location of
        the last call. */
    ghost predicate DeleteStoppedAt(nodeImage: NodeImage, calls0: seq<Call>, catalog0: set<(string, string)>,
                                    images0: map<ObjectKey, NodeImage>, updated: NodeImage, err: Option<Failure>)
      reads api, vsphere
    {
      var name := nodeImage.spec.name;
      && updated == nodeImage.(status := nodeImage.status.(state := Error))
      && DeleteLog(name, calls0, vsphere.calls, vsphere.Locations, vsphere.deleteFails, false)
      && vsphere.catalog <= catalog0 && catalog0 - vsphere.catalog <= Templates(name, vsphere.Locations)
      && err.Some?
      && (!api.Fails(NodeImageKind, Verb.UpdateStatus) ==>
            && err.value.ProviderFailure? && err.value.op == DeleteOp
            && err.value.location in vsphere.Locations && err.value.location in vsphere.deleteFails
            && |vsphere.calls| > |calls0|
            && vsphere.calls[|vsphere.calls| - 1] == DeleteCall(name, err.value.location))
      && api.images == if api.Fails(NodeImageKind, Verb.UpdateStatus) then images0 else images0[nodeImage.Key() := updated]
    }

    /** One turn of the deletion loop of Reconcile: DeleteVsphere at `loc`,
        and on its failure the state Error, which ends the loop. */
    method DeleteStep(nodeImage: NodeImage, current: NodeImage, loc: string, ghost calls0: seq<Call>,
                      ghost catalog0: set<(string, string)>, ghost images0: map<ObjectKey, NodeImage>, ghost done: set<string>)
      returns (updated: NodeImage, err: Option<Failure>)
      requires api.Valid() && nodeImage.Key() in images0 && images0[nodeImage.Key()] == nodeImage
      requires DeletedAt(nodeImage, calls0, catalog0, images0, current, done) && loc in vsphere.Locations && loc !in done
      modifies api`images, vsphere
      ensures api.Valid()
      ensures err == None ==> DeletedAt(nodeImage, calls0, catalog0, images0, updated, done + {loc})
      ensures err.Some? ==> DeleteStoppedAt(nodeImage, calls0, catalog0, images0, updated, err)
    {
      ghost var calls1 := vsphere.calls;
      var e;
      updated, e := DeleteVsphere(current, loc);
      UpdateTwice(images0, nodeImage.Key(), current, updated);
      TemplatesAdd(nodeImage.spec.name, done, loc);
      if e.Some? {
        DeleteLogFailed(nodeImage.spec.name, calls0, calls1, vsphere.calls, done, vsphere.Locations, loc, vsphere.deleteFails);
        updated, err := MarkDeleteFailed(nodeImage, updated, e.value, calls0, catalog0, images0);
        return;
      }
      err := None;
      DeleteLogNext(nodeImage.spec.name, calls0, calls1, done, loc, vsphere.deleteFails);
    }

    /** After a failed DeleteVsphere: the state Error, and the failure
        combined with that of the status write when that fails too. */
    method MarkDeleteFailed(nodeImage: NodeImage, current: NodeImage, e: Failure, ghost calls0: seq<Call>,
                            ghost catalog0: set<(string, string)>, ghost images0: map<ObjectKey, NodeImage>)
      returns (updated: NodeImage, err: Option<Failure>)
      requires api.Valid() && nodeImage.Key() in images0 && images0[nodeImage.Key()] == nodeImage
      requires current == nodeImage.(status := nodeImage.status.(state := current.status.state))
      requires DeleteLog(nodeImage.spec.name, calls0, vsphere.calls, vsphere.Locations, vsphere.deleteFails, false)
      requires vsphere.catalog <= catalog0 && catalog0 - vsphere.catalog <= Templates(nodeImage.spec.name, vsphere.Locations)
      requires !api.Fails(NodeImageKind, Verb.UpdateStatus) ==>
                 && e.ProviderFailure? && e.op == DeleteOp
                 && e.location in vsphere.Locations && e.location in vsphere.deleteFails
                 && |vsphere.calls| > |calls0|
                 && vsphere.calls[|vsphere.calls| - 1] == DeleteCall(nodeImage.spec.name, e.location)
      requires api.images == if api.Fails(NodeImageKind, Verb.UpdateStatus) then images0 else images0[nodeImage.Key() := current]
      modifies api`images
      ensures api.Valid()
      ensures DeleteStoppedAt(nodeImage, calls0, catalog0, images0, updated, err)
    {
      var statusErr;
      updated, statusErr := UpdateStatus(current, Error);
      UpdateTwice(images0, nodeImage.Key(), current, updated);
      err := if statusErr.Some? then Some(AlsoStatusFailed(e, statusErr.value)) else Some(e);
    }

    /** The deletion loop of Reconcile: the template is deleted at every
        location in turn. The first failure sets the state Error and ends
        the loop, so no location after it is touched. */
    method DeleteAtLocations(nodeImage: NodeImage) returns (updated: NodeImage, err: Option<Failure>)
      requires api.Valid() && Stored(nodeImage)
      modifies api`images, vsphere
      ensures api.Valid()
      ensures err == None ==>
                DeletedAt(nodeImage, old(vsphere.calls), old(vsphere.catalog), old(api.images), updated, vsphere.Locations)
      ensures err.Some? ==>
                DeleteStoppedAt(nodeImage, old(vsphere.calls), old(vsphere.catalog), old(api.images), updated, err)
    {
      ghost var calls0 := vsphere.calls;
      ghost var catalog0 := vsphere.catalog;
      ghost var images0 := api.images;
      ghost var done: set<string> := {};
      var todo := vsphere.Locations;
      updated := nodeImage;
      assert vsphere.calls[..|calls0|] == calls0;
      assert Templates(nodeImage.spec.name, {}) == {};
      UpdateSameValue(images0, nodeImage.Key());
      while todo != {}
        invariant done == vsphere.Locations - todo
        invariant DeletedAt(nodeImage, calls0, catalog0, images0, updated, done)
        decreases todo
      {
        var loc :| loc in todo;
        updated, err := DeleteStep(nodeImage, updated, loc, calls0, catalog0, images0, done);
        if err.Some? {
          return;
        }
        todo := todo - {loc};
        done := done + {loc};
      }
      err := None;
    }

    /** Reconcile for a NodeImage whose deletion was requested: with the
        vSphere provider its template is deleted at every location, and then
        the finalizer is removed, which lets the store remove the object.
        Other providers make no provider call. */
    method ReconcileDeletion(nodeImage: NodeImage) returns (err: Option<Failure>)
      requires api.Valid() && Stored(nodeImage) && IsDeleted(nodeImage)
      modifies api`images, vsphere
      ensures api.Valid()
      ensures nodeImage.spec.provider != ProviderVsphere ==>
                vsphere.calls == old(vsphere.calls) && vsphere.catalog == old(vsphere.catalog)
      ensures nodeImage.spec.provider == ProviderVsphere ==>
                DeleteLog(nodeImage.spec.name, old(vsphere.calls), vsphere.calls, vsphere.Locations, vsphere.deleteFails, err == None) &&
                old(vsphere.catalog) - Templates(nodeImage.spec.name, vsphere.Locations) <= vsphere.catalog <= old(vsphere.catalog)
      ensures err == None ==> nodeImage.Key() !in api.images
      ensures err == None && nodeImage.spec.provider == ProviderVsphere ==>
                vsphere.catalog == old(vsphere.catalog) - Templates(nodeImage.spec.name, vsphere.Locations)
      ensures err.Some? ==> nodeImage.Key() in api.images && api.images[nodeImage.Key()].finalizer
      ensures err.Some? && !api.Fails(NodeImageKind, Verb.Update) && !api.Fails(NodeImageKind, Verb.UpdateStatus) ==>
                nodeImage.spec.provider == ProviderVsphere && api.images[nodeImage.Key()].status.state == Error &&
                err.value.ProviderFailure? && err.value.op == DeleteOp && err.value.location in vsphere.Locations * vsphere.deleteFails
      ensures !api.Fails(NodeImageKind, Verb.Update) &&
              (nodeImage.spec.provider != ProviderVsphere ||
               (vsphere.Locations * vsphere.deleteFails == {} && !api.Fails(NodeImageKind, Verb.UpdateStatus))) ==>
                err == None
    {
      var current := nodeImage;
      if nodeImage.spec.provider == ProviderVsphere {
        current, err := DeleteAtLocations(nodeImage);
        if err.Some? {
          return;
        }
      }
      if current.finalizer {
        var stored;
        err, stored := api.UpdateImage(current.(finalizer := false));
        if err.Some? {
          return;
        }
      }
      err := None;
    }

    /** Reconcile for a live NodeImage: the finalizer is added first; with
        the vSphere provider the image's URL must be valid before any
        location is touched, and then its template is made sure of at every
        location. Other providers make no provider call. */
    method ReconcileLive(nodeImage: NodeImage, urlOf: NodeImage -> string, isS3URL: string -> bool,
                         head: string -> HeadResult) returns (err: Option<Failure>)
      requires api.Valid() && Stored(nodeImage) && !IsDeleted(nodeImage)
      modifies api`images, vsphere
      ensures api.Valid()
      ensures var ready := nodeImage.(finalizer := true);
              var url := urlOf(ready);
              var name := nodeImage.spec.name;
              if !nodeImage.finalizer && api.Fails(NodeImageKind, Verb.Update) then
                err == Some(ApiFailure(NodeImageKind, Verb.Update)) && api.images == old(api.images) &&
                vsphere.calls == old(vsphere.calls) && vsphere.catalog == old(vsphere.catalog)
              else if nodeImage.spec.provider != ProviderVsphere then
                err == None && api.images == old(api.images)[nodeImage.Key() := ready] &&
                vsphere.calls == old(vsphere.calls) && vsphere.catalog == old(vsphere.catalog)
              else if ValidURL(url, isS3URL, head).Some? then
                err == Some(InvalidURL(url)) && api.images == old(api.images)[nodeImage.Key() := ready] &&
                vsphere.calls == old(vsphere.calls) && vsphere.catalog == old(vsphere.catalog)
              else
                && nodeImage.Key() in api.images
                && api.images[nodeImage.Key()] == ready.(status := api.images[nodeImage.Key()].status)
                && (api.Fails(NodeImageKind, Verb.UpdateStatus) ==> api.images[nodeImage.Key()] == ready)
                && CreateLog(name, url, old(vsphere.calls), vsphere.calls, vsphere.Locations, old(vsphere.catalog))
                && old(vsphere.catalog) <= vsphere.catalog <= old(vsphere.catalog) + Templates(name, vsphere.Locations)
                && (err == None ==>
                      vsphere.catalog == old(vsphere.catalog) + Templates(name, vsphere.Locations) &&
                      (vsphere.Locations != {} && !api.Fails(NodeImageKind, Verb.UpdateStatus) ==>
                         api.images[nodeImage.Key()].status.state == Available))
                && (err.Some? && !api.Fails(NodeImageKind, Verb.UpdateStatus) ==>
                      CreateFailure(err.value, name, old(vsphere.catalog)) &&
                      LastCallIs(old(vsphere.calls), vsphere.calls, CallOf(name, url, err.value.op, err.value.location)) &&
                      api.images[nodeImage.Key()].status.state == Error)
    {
      var current := nodeImage;
      if !current.finalizer {
        var e;
        e, current := api.UpdateImage(current.(finalizer := true));
        if e.Some? {
          return e;
        }
      }
      var url := urlOf(current);
      if current.spec.provider == ProviderVsphere {
        if ValidURL(url, isS3URL, head).Some? {
          return Some(InvalidURL(url));
        }
        var updated;
        updated, err := CreateAtLocations(current, url);
        return;
      }
      err := None;
    }

    /** One reconciliation of the NodeImage stored under `req`. A NodeImage
        that is not there needs nothing; `urlOf` gives the URL of an image's
        OVA in the bucket. */
    method Reconcile(req: ObjectKey, urlOf: NodeImage -> string, isS3URL: string -> bool, head: string -> HeadResult)
      returns (err: Option<Failure>)
      requires api.Valid()
      modifies api`images, vsphere
      ensures api.Valid()
      ensures api.Fails(NodeImageKind, Get) || req !in old(api.images) ==>
                err == (if api.Fails(NodeImageKind, Get) then Some(ApiFailure(NodeImageKind, Get)) else None) &&
                api.images == old(api.images) && vsphere.calls == old(vsphere.calls) && vsphere.catalog == old(vsphere.catalog)
      ensures !api.Fails(NodeImageKind, Get) && req in old(api.images) && old(api.images)[req].deletionRequested ==>
                (err == None ==> req !in api.images) && (err.Some? ==> req in api.images && api.images[req].finalizer)
      ensures !api.Fails(NodeImageKind, Get) && req in old(api.images) && !old(api.images)[req].deletionRequested &&
              (old(api.images)[req].finalizer || !api.Fails(NodeImageKind, Verb.Update)) ==>
                req in api.images && api.images[req].finalizer
      ensures !api.Fails(NodeImageKind, Get) && req in old(api.images) && old(api.images)[req].spec.provider != ProviderVsphere ==>
                vsphere.calls == old(vsphere.calls) && vsphere.catalog == old(vsphere.catalog)
    {
      var got := api.GetImage(req);
      if got.Err? {
        return if got.error == NotFound then None else Some(got.error);
      }
      var nodeImage := got.value;
      if IsDeleted(nodeImage) {
        err := ReconcileDeletion(nodeImage);
      } else {
        err := ReconcileLive(nodeImage, urlOf, isS3URL, head);
      }
    }
  }

  /** A call the creation loop makes for template `name` at a location in `locs`. */
  predicate CreateCall(c: Call, name: string, url: string, locs: set<string>) {
    && !c.DeleteCall? && c.name == name && c.location in locs
    && (c.ImportCall? ==> c.url == url)
  }

  /** The calls after `calls0` in `calls` are calls of the creation loop for
      template `name` at locations in `locs`, and `url` was imported and
      processed only where `catalog0` did not hold the template. */
  ghost predicate CreateLog(name: string, url: string, calls0: seq<Call>, calls: seq<Call>, locs: set<string>,
                            catalog0: set<(string, string)>) {
    && |calls| >= |calls0| && calls[..|calls0|] == calls0
    && (forall i | |calls0| <= i < |calls| :: CreateCall(calls[i], name, url, locs))
    && (forall i | |calls0| <= i < |calls| && (calls[i].ImportCall? || calls[i].ProcessCall?) ::
          (name, calls[i].location) !in catalog0)
  }

  /** The provider call `op` for template `name` at `loc`. */
  function CallOf(name: string, url: string, op: ProviderOp, loc: string): Call {
    match op
    case ExistsOp => ExistsCall(name, loc)
    case ImportOp => ImportCall(url, name, loc)
    case ProcessOp => ProcessCall(name, loc)
    case DeleteOp => DeleteCall(name, loc)
  }

  /** At least one call was made after `calls0`, and the last one is `c`. */
  ghost predicate LastCallIs(calls0: seq<Call>, calls: seq<Call>, c: Call) {
    |calls| > |calls0| && calls[|calls| - 1] == c
  }

  /** Two stretches of the creation log make one; the second's imports were
      at `loc`, where `catalog1` and so `catalog0` lacked the template. */
  lemma CreateLogAppend(name: string, url: string, calls0: seq<Call>, calls1: seq<Call>, calls2: seq<Call>,
                        locs: set<string>, loc: string, catalog0: set<(string, string)>, catalog1: set<(string, string)>)
    requires CreateLog(name, url, calls0, calls1, locs, catalog0)
    requires CreateLog(name, url, calls1, calls2, {loc}, catalog1) && catalog0 <= catalog1
    ensures CreateLog(name, url, calls0, calls2, locs + {loc}, catalog0)
  {
    assert calls2[..|calls0|] == calls1[..|calls0|];
    forall i | |calls0| <= i < |calls2|
      ensures CreateCall(calls2[i], name, url, locs + {loc})
    {
      if i < |calls1| {
        assert calls2[i] == calls2[..|calls1|][i];
      }
    }
    forall i | |calls0| <= i < |calls2| && (calls2[i].ImportCall? || calls2[i].ProcessCall?)
      ensures (name, calls2[i].location) !in catalog0
    {
      if i < |calls1| {
        assert calls2[i] == calls2[..|calls1|][i];
      }
    }
  }

  lemma CreateLogWiden(name: string, url: string, calls0: seq<Call>, calls: seq<Call>, done: set<string>, locs: set<string>,
                       catalog0: set<(string, string)>)
    requires CreateLog(name, url, calls0, calls, done, catalog0) && done <= locs
    ensures CreateLog(name, url, calls0, calls, locs, catalog0)
  {
  }

  lemma TemplatesAdd(name: string, locs: set<string>, loc: string)
    ensures Templates(name, locs + {loc}) == Templates(name, locs) + {(name, loc)}
  {
  }

  /** The calls after `calls0` in `calls` are deletions of template `name` at
      locations in `locs`, and all but perhaps the last (all, when `ok`)
      succeeded. */
  ghost predicate DeleteLog(name: string, calls0: seq<Call>, calls: seq<Call>, locs: set<string>, deleteFails: set<string>, ok: bool) {
    && |calls| >= |calls0| && calls[..|calls0|] == calls0
    && (forall i | |calls0| <= i < |calls| :: calls[i] == DeleteCall(name, calls[i].location) && calls[i].location in locs)
    && (forall i | |calls0| <= i < |calls| && (ok || i < |calls| - 1) :: calls[i].location !in deleteFails)
  }

  lemma DeleteLogNext(name: string, calls0: seq<Call>, calls: seq<Call>, locs: set<string>, loc: string, deleteFails: set<string>)
    requires DeleteLog(name, calls0, calls, locs, deleteFails, true) && loc !in deleteFails
    ensures DeleteLog(name, calls0, calls + [DeleteCall(name, loc)], locs + {loc}, deleteFails, true)
  {
    var calls' := calls + [DeleteCall(name, loc)];
    assert calls'[..|calls0|] == calls[..|calls0|];
  }

  lemma DeleteLogFailed(name: string, calls0: seq<Call>, calls: seq<Call>, calls': seq<Call>, done: set<string>, locs: set<string>,
                        loc: string, deleteFails: set<string>)
    requires DeleteLog(name, calls0, calls, done, deleteFails, true) && done <= locs && loc in locs
    requires calls' == calls || calls' == calls + [DeleteCall(name, loc)]
    ensures DeleteLog(name, calls0, calls', locs, deleteFails, false)
  {
    assert calls'[..|calls0|] == calls[..|calls0|];
  }

}
