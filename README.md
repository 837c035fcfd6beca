# image-distribution-operator, modelled in Dafny

The image distribution operator keeps node images, built for each Giant Swarm
release, available as templates in the vSphere locations of an installation.
Three pieces work together:

- **Release controller.** For every Release it derives a NodeImage: the image
  name comes from the release's flatcar, kubernetes and os-tooling components,
  and the provider from the release name. A live Release gets a finalizer and
  is recorded as a reference in the NodeImage's status. A Release being
  deleted has its reference removed, and after that its finalizer.
- **Image client.** It maintains the NodeImage's status list of referencing
  releases. When no release references an image, the image is deleted, or
  with a retention period it is marked AwaitingDeletion with a last-used
  timestamp.
- **NodeImage controller.** It drives each NodeImage through its states
  (Uploading, Available, Deleting, Deleted, Error). A live image is imported
  and processed at every vSphere location that lacks its template. An image
  being deleted has its template deleted at every location before its
  finalizer goes.

Beside these sit the image list, an in-memory map mirrored into a ConfigMap,
and a Cloud Director client. The Cloud Director client validates its location
file and reports whether a vApp template exists.

Modules, one per core file, plus the shared ones:

| module | file | form |
|---|---|---|
| `Types` | types.dfy | records: NodeImage, Release, ConfigMap, states, errors, `Option`/`Result` |
| `KubeApi` | kubeapi.dfy | class `Cluster`: the Kubernetes API as the operator uses it (see below) |
| `VsphereOracle` | vsphere_oracle.dfy | class `VsphereClient`: an abstract vSphere catalogue with failure sets and a call log |
| `Lists` | lists.dfy | duplicate-free release lists: remove-first and add-once |
| `Naming` | naming.dfy | pure: components, image name, provider, NodeImage construction |
| `ImageClient` | imageclient.dfy | class `Client`: read-modify-write of NodeImages in the store |
| `NodeImageController` | nodeimage_controller.dfy | class `NodeImageReconciler`: the per-image state machine and its location loops |
| `ReleaseController` | release_controller.dfy | class `ReleaseReconciler`: the finalizer protocol around the image client |
| `ImageList` | imagelist.dfy | class `ImageList`: the image map and its ConfigMap |
| `CloudDirector` | clouddirector.dfy | location validation and class `Client`: the template existence check |

`KubeApi.Cluster` holds maps of NodeImages, Releases and ConfigMaps keyed by
namespace and name. A set `failing` of (kind, verb) pairs says which API calls
fail. Two parts of Kubernetes semantics are built in, because the operator's
finalizer protocol and one of the findings below rely on them:

- NodeImages have a status subresource. Create drops the status. Update
  stores everything except the status, and hands the caller back the stored
  object, so the caller's copy has the stored status again. UpdateStatus
  writes only the status.
- Deleting an object that carries a finalizer only requests deletion. An
  Update that takes the finalizer off such an object removes it.

`VsphereOracle.VsphereClient` is the vSphere client as the NodeImage
controller calls it. It holds the set of `Locations`, a catalogue of
(image name, location) templates, per-call sets of failing locations, and the
log of calls made.

The NodeImage controller's loops visit `Locations` in an unspecified order,
which is the order of Go map iteration. Their contracts are stated through the
call log (`CreateLog`, `DeleteLog`) and the catalogue.

## Model

| member | source | states |
|---|---|---|
| Lists.RemoveFirst | pkg/image/client.go:71-76 | the list is one shorter exactly when the release was listed |
| Lists.RemoveFirstAt | pkg/image/client.go:71-75 | when the first occurrence is at index i, the result is the list with exactly index i spliced out |
| Lists.RemoveFirstAbsent | pkg/image/client.go:71-76 | removing an unlisted release leaves the list as it was |
| Lists.SpliceNoDup | pkg/image/client.go:73 | splicing one index out of a duplicate-free list keeps it duplicate-free |
| Lists.SpliceElements | pkg/image/client.go:73 | splicing index i out of a duplicate-free list drops exactly s[i] from its elements |
| Lists.RemoveFirstNoDup | pkg/image/client.go:71-76 | on a duplicate-free list, removal keeps it duplicate-free and removes exactly that release |
| Lists.AddOnceNoDup | pkg/image/client.go:152-159 | appending only an unlisted release keeps the list duplicate-free and adds exactly that release |
| Lists.AddOnceIdempotent | pkg/image/client.go:152-159 | adding a release twice is the same as adding it once |
| Lists.AddOnce | pkg/image/client.go:152-159 | the release is listed afterwards, the old list is kept as a prefix, and the list grows by one exactly when the release was not listed |
| ImageClient.StepTracks | pkg/image/client.go:71-159 | one add or remove keeps the release list duplicate-free, and its elements are the set of referencing releases after that change |
| ImageClient.AppliedTracksReferences | pkg/image/client.go:97-100 | after any sequence of adds and removes, the list is duplicate-free and is exactly the referencing set; it is empty (so the image may go) iff no release references the image |
| ImageClient.New | pkg/image/client.go:34-53 | an empty namespace, a missing client and an empty release are rejected in that order; otherwise a client with those fields |
| ImageClient.Client.constructor | pkg/image/client.go:46-50 | the client holds the API, namespace and release it was given |
| ImageClient.Client.RemoveReleaseFromNodeImageStatus | pkg/image/client.go:55-80 | an absent image is success with no change; otherwise the status is written with the first occurrence of the release removed, even when it was not listed; Get and status-write failures change nothing |
| ImageClient.RemovedDropsReference | pkg/image/client.go:55-124 | after a release drops its reference without failures, a duplicate-free list keeps every other release once and no longer holds that one; the image is gone only with retention 0 and no other reference; no other image changes |
| ImageClient.Client.DeleteImage | pkg/image/client.go:82-124 | absent or still-referenced images are left alone; with retention 0 the image is deleted; with retention > 0 it is marked AwaitingDeletion and stamped with `now` once; every failure and what it leaves behind |
| ImageClient.Client.DeleteImageAsWritten | pkg/image/client.go:113-116 | as written, the mark stores the last-used annotation but not the state AwaitingDeletion, and still reports success |
| ImageClient.Client.CreateImage | pkg/image/client.go:126-137 | the image is created in the client's namespace with the initial status; AlreadyExists is success and changes nothing |
| ImageClient.Client.AddReleaseToNodeImageStatus | pkg/image/client.go:139-178 | a missing image is an error; an already-listed release changes nothing; otherwise the release is appended, an unset or AwaitingDeletion state becomes Pending and the last-used annotation is cleared first; each failure's effect |
| ImageClient.Client.AddReleaseToNodeImageStatusAsWritten | pkg/image/client.go:159-177 | as written, when the annotation is cleared the release is not recorded although the call succeeds |
| ImageClient.Client.RemoveImage | internal/controller/release/release_controller.go:93 | the release's reference goes first: a Get failure or a status-write failure is returned with nothing written, an absent image is success; then, without failures, the outcome is `Removed` (the rest of the list kept, or the unreferenced image deleted with retention 0, or marked AwaitingDeletion and stamped with `now`); a failing Delete or Update is returned with only the reference removed; on success a duplicate-free list no longer holds the release; no other image changes |
| ImageClient.Client.CreateOrUpdateImage | internal/controller/release/release_controller.go:118 | without failures the image exists and lists the release, and a new image is stored Pending with exactly that release; the list stays duplicate-free; no other image changes |
| Naming.FirstNamed | pkg/image/image.go:104-108 | the index of the first component with the name, or the length when there is none |
| Naming.GetReleaseComponent | pkg/image/image.go:101-111 | the first component with that name, or the not-found error iff no component has it |
| Naming.TrimLeadingV | pkg/image/image.go:96-97 | exactly one leading "v" is removed when present; otherwise the version is unchanged |
| Naming.BuildImageName | pkg/image/image.go:91-99 | the name starts with "flatcar-" and ends with "-gs", and its length is the fixed 27 characters of the format plus the channel, flatcar version and the two versions without their leading "v" (BuildImageNameRoundTrip gives the fields back) |
| Naming.GetImageName | pkg/image/image.go:41-78 | succeeds iff all three components exist, their versions are non-empty and the channel is non-empty, with the built name; otherwise the first failing check's error, in source order |
| Naming.ProviderRun | pkg/image/image.go:82 | the length of the longest [a-z-] prefix |
| Naming.DigitRun | pkg/image/image.go:82 | the length of the longest digit prefix |
| Naming.GetImageProvider | pkg/image/image.go:80-88 | a failure is the provider-not-found error for that release name |
| Naming.ProviderRunOfCapture | pkg/image/image.go:82 | for a regular-expression capture p, the [a-z-] run is p plus the dash |
| Naming.CaptureIsProvider | pkg/image/image.go:80-88 | every capture of ^([a-z-]+)-\d+\.\d+\.\d+ is what GetImageProvider returns |
| Naming.ProviderIsCapture | pkg/image/image.go:80-88 | whatever GetImageProvider returns is a capture of the expression |
| Naming.GetImageProviderIsCapture | pkg/image/image.go:80-88 | GetImageProvider returns p iff p is the capture of the expression |
| Naming.GetImageProviderMatches | pkg/image/image.go:83-87 | GetImageProvider fails iff the expression does not match |
| Naming.NoDigitNoProvider | pkg/image/image.go:80-88 | a release name without a digit has no provider |
| Naming.DigitRunOfDigits | pkg/image/image.go:82 | a run of digits followed by a non-digit is a maximal digit run |
| Naming.VersionOfRuns | pkg/image/image.go:82 | three dot-separated digit runs match \d+\.\d+\.\d+ |
| Naming.VsphereExample | pkg/image/image_test.go:20-25 | "vsphere-1.2.3" gives provider "vsphere" |
| Naming.CloudDirectorExample | pkg/image/image_test.go:38-43 | "cloud-director-0.10.5" gives provider "cloud-director" |
| Naming.InvalidNameExamples | pkg/image/image_test.go:44-53 | "vsphere" and "invalid-release-name" give no provider |
| Naming.GetNodeImage | pkg/image/image.go:28-39 | the object is named provider + "-" + image name, with that spec and an empty status |
| Naming.GetNodeImageFromRelease | pkg/image/image.go:14-26 | the name is checked before the provider; on either error the empty NodeImage with that error; otherwise the NodeImage of both |
| Naming.BuildImageNameRoundTrip | pkg/image/image.go:91-99 | for dash-free parts, splitting the name at dashes gives back channel, flatcar, and the kubernetes and tooling versions without their leading "v" |
| Naming.BuildImageNameIgnoresVPrefix | pkg/image/image.go:96-97 | a leading "v" on the kubernetes or tooling version does not change the name |
| NodeImageController.ValidURL | internal/controller/image/nodeimage_controller.go:219-253 | the URL passes iff it is non-empty, an S3 URL, and in the test bucket or a HEAD request answers 2xx; each error in source order |
| NodeImageController.IsDeleted | internal/controller/image/nodeimage_controller.go:215-217 | a NodeImage is being deleted exactly when its deletion was requested (its deletion timestamp is set) |
| NodeImageController.TestBucketNeedsNoProbe | internal/controller/image/nodeimage_controller.go:229-231 | a test-bucket URL is judged without the HEAD outcome, and passes iff it is an S3 URL |
| NodeImageController.NodeImageReconciler.UpdateStatus | internal/controller/image/nodeimage_controller.go:203-213 | the status is written only when the state changes; the caller's record carries the new state even when the write fails; only that image's status can change |
| NodeImageController.NodeImageReconciler.DeleteVsphere | internal/controller/image/nodeimage_controller.go:176-193 | Deleting, then the provider Delete, then Deleted, stopping at the first failure; the calls made and the catalogue after each outcome |
| NodeImageController.NodeImageReconciler.CreateVsphere | internal/controller/image/nodeimage_controller.go:138-174 | an Exists failure is returned; a present template only sets Available and never imports or processes; an absent one is uploaded; the calls are a stretch of the creation log; a provider failure is the failure of the last call made |
| NodeImageController.NodeImageReconciler.UploadLogged | internal/controller/image/nodeimage_controller.go:149-173 | an upload where the template was absent adds only creation calls, importing and processing only where it was absent; a failing Import or Process is the last call |
| NodeImageController.NodeImageReconciler.Upload | internal/controller/image/nodeimage_controller.go:149-173 | Uploading before Import, Available only after Import and Process succeed; the calls and catalogue after each outcome |
| NodeImageController.NodeImageReconciler.CreateStep | internal/controller/image/nodeimage_controller.go:122-127 | one more location done keeps the loop invariant; a failure ends in the stopped state with Error, where (unless status writes fail) the failing provider call is the last call made |
| NodeImageController.NodeImageReconciler.MarkCreateFailed | internal/controller/image/nodeimage_controller.go:123-126 | after a failed create the state is Error and the error is the create failure, joined with the status failure if that write fails too; the failing call stays the last one made |
| NodeImageController.NodeImageReconciler.CreateAtLocations | internal/controller/image/nodeimage_controller.go:121-128 | on success every location has the template, only creation calls were made (Import and Process only where the template was absent), and the state is Available; on failure the state is Error, the error is a provider call's failure, and that call is the last one made, so no later location was touched |
| NodeImageController.NodeImageReconciler.DeleteStep | internal/controller/image/nodeimage_controller.go:77-82 | one more location deleted keeps the loop invariant; a failure ends in the stopped state with Error |
| NodeImageController.NodeImageReconciler.MarkDeleteFailed | internal/controller/image/nodeimage_controller.go:78-81 | after a failed delete the state is Error and the error is the delete failure, joined with the status failure if that write fails too |
| NodeImageController.NodeImageReconciler.DeleteAtLocations | internal/controller/image/nodeimage_controller.go:76-83 | on success the template is gone at every location and only successful deletions were made; on failure the last call is the failed deletion, no location after it is touched, and the state is Error |
| NodeImageController.NodeImageReconciler.ReconcileDeletion | internal/controller/image/nodeimage_controller.go:70-99 | for capv (the vSphere provider) the templates are deleted first and a failure keeps the finalizer; other providers make no provider call; success removes the object; success iff no delete or API write fails |
| NodeImageController.NodeImageReconciler.ReconcileLive | internal/controller/image/nodeimage_controller.go:101-135 | the finalizer is added before anything else; for capv an invalid URL stops before any location; then the creation outcome, where a provider failure is the last call made and the state is Error; other providers make no provider call |
| NodeImageController.NodeImageReconciler.Reconcile | internal/controller/image/nodeimage_controller.go:60-136 | a missing image is success with no change; a Get failure is returned; then the deletion or live outcome |
| NodeImageController.CreateLogAppend | internal/controller/image/nodeimage_controller.go:121-128 | two consecutive stretches of creation calls form one |
| NodeImageController.CreateLogWiden | internal/controller/image/nodeimage_controller.go:121-128 | creation calls at some locations are creation calls at a larger set of locations |
| NodeImageController.DeleteLogNext | internal/controller/image/nodeimage_controller.go:76-83 | a successful deletion extends the deletion log |
| NodeImageController.DeleteLogFailed | internal/controller/image/nodeimage_controller.go:76-82 | a failed deletion, or none, ends the deletion log with all earlier deletions successful |
| ReleaseController.ReleaseReconciler.ReconcileDeletion | internal/controller/release/release_controller.go:90-106 | the reference is removed first; if that fails the Release keeps its finalizer; success removes the Release, and a duplicate-free image list then no longer holds it; without failures the images are exactly `Removed`, and an absent image is success with no image write; no other image changes |
| ReleaseController.ReleaseReconciler.ReconcileLive | internal/controller/release/release_controller.go:108-122 | a missing finalizer is added before any image write, and a failed update aborts; without failures the image lists the Release; no other image changes |
| ReleaseController.ReleaseReconciler.ReconcileRelease | internal/controller/release/release_controller.go:73-122 | channel "stable"; a naming or client-config error aborts before any write; a deleted Release is gone on success and its duplicate-free image list no longer holds it, and a failure keeps it; a live Release gets its finalizer and, without failures, is listed by its image; no other image changes |
| ReleaseController.ReleaseReconciler.Reconcile | internal/controller/release/release_controller.go:59-123 | a missing Release is success with no writes; other read errors are returned; then the stored Release's outcome as in ReconcileRelease, with no other image changed |
| ReleaseController.IsDeleted | internal/controller/release/release_controller.go:133-136 | a Release is being deleted exactly when its deletion was requested (its deletion timestamp is set) |
| ImageList.Remove | pkg/imagelist/imagelist.go:49 | exactly that key is gone, and a nil map stays nil |
| ImageList.AssignAsWritten | pkg/imagelist/imagelist.go:57 | the assignment panics iff the map is nil; otherwise the key maps to the value |
| ImageList.Assign | pkg/imagelist/imagelist.go:57 | the key maps to the value, and every other entry is kept |
| ImageList.AssignRefinesAsWritten | pkg/imagelist/imagelist.go:57 | the corrected assignment agrees with the Go one wherever that does not panic |
| ImageList.EmptyImageListConfigMap | pkg/imagelist/imagelist.go:99-110 | the ConfigMap has the given name and namespace, only the managed-by label, and data that is empty but not nil |
| ImageList.NilDataPanics | pkg/imagelist/imagelist.go:95 | after syncing a ConfigMap stored without data, the first assignment panics |
| ImageList.ImageList.constructor | pkg/imagelist/imagelist.go:33-39 | the list starts empty with the given API, name and namespace |
| ImageList.ImageList.UpdateImageList | pkg/imagelist/imagelist.go:77-97 | the list becomes the ConfigMap's data; a missing ConfigMap is created empty and labelled; any other failure is returned with nothing changed |
| ImageList.ImageList.UpdateConfigmap | pkg/imagelist/imagelist.go:62-75 | the ConfigMap's data is replaced by the list; a Get failure or a missing ConfigMap is returned with no write |
| ImageList.ImageList.RemoveImage | pkg/imagelist/imagelist.go:48-51 | the key is removed from the list before the write, so a failed write leaves the two apart; otherwise the ConfigMap holds the list |
| ImageList.ImageList.AddImageAsWritten | pkg/imagelist/imagelist.go:53-59 | as written, adding to a nil list panics; otherwise the key is present |
| ImageList.ImageList.AddImage | pkg/imagelist/imagelist.go:53-59 | afterwards the key is present; a non-empty value is kept with no write; an absent key or one mapped to "" is set to "" and written |
| ImageList.New | pkg/imagelist/imagelist.go:31-46 | the list is synced from the ConfigMap or made empty with an empty ConfigMap, and an error comes with no list |
| CloudDirector.LoadLocation | pkg/cloud-director/client.go:166-188 | a location loads iff it parses and has a name, a VDC and a catalogue; otherwise the first rule it breaks, in source order |
| CloudDirector.LoadLocationIgnoresOrg | pkg/cloud-director/client.go:177-187 | the organisation plays no part in validation |
| CloudDirector.LoadCredentials | pkg/cloud-director/client.go:151-164 | credentials load iff the file is read and parses, and are then the parsed value unchecked; a read failure and a parse failure give their own errors |
| CloudDirector.Client.GetLocations | pkg/cloud-director/client.go:88-92 | exactly one entry, keyed by the location's name |
| CloudDirector.Client.Exists | pkg/cloud-director/client.go:95-115 | organisation, catalogue and other lookup failures give (false, error); a found template gives (true, none) and a missing one (false, none) |
| CloudDirector.Client.ExistsIgnoresLocation | pkg/cloud-director/client.go:95-115 | the location argument does not change the answer |
| CloudDirector.Client.Delete | pkg/cloud-director/client.go:118-120 | always success |
| CloudDirector.Client.Create | pkg/cloud-director/client.go:123-125 | always success |
| CloudDirector.New | pkg/cloud-director/client.go:51-85 | credentials, URL, authentication and the location are checked in that order; the client takes the credentials' URL and its location's organisation is the credentials' |

## Left out

- Logging, requeue results, the watch framework and optimistic-concurrency conflicts are not modelled. Finalizers are one boolean per object.
- The controller-runtime refresh after `Status().Update` is not modelled. The refresh after `Update` is.
- The vSphere SDK is abstract. vsphere_oracle.dfy stands in for pkg/vsphere/client.go and pkg/vsphere/import.go, whose functions do not match the calls. Exists, Import, Process and Delete are an abstract catalogue with failing-location sets.
- S3 is abstract. The image key and `GetURL` are one parameter `urlOf`, `s3.IsS3URL` is the parameter `isS3URL`, and the HEAD request in ValidURL is the parameter `head`.
- Time is abstract. `time.Now()` and RFC 3339 formatting are an opaque timestamp `now`.
- The retention period is a constructor parameter of `ReleaseController.ReleaseReconciler`. The release controller calls `RemoveImage` without one, and neither `RemoveImage` nor `CreateOrUpdateImage` exists in pkg/image/client.go. Both are modelled as the pairings client_test.go uses: remove-then-delete and create-then-add.
- `CloudDirector`: YAML reading and unmarshalling are the value `Loaded`. URL parsing and authentication are predicates given to `New`. The govcd organisation, catalogue and template lookups are sets. pkg/cloud-director/import.go is not part of this model.
- `IsDeleted` is the deletion flag; the deletion timestamp itself is not modelled.
- ImageList.ImageList.UpdateImageList: after a Create, the list is the empty map the code sent, with no server refresh.
- GetImageKey and getProviderFromProviderName, which pkg/image/image_test.go uses, are not in pkg/image/image.go and are not modelled. The code and its tests disagree here, and the model follows the code. The tests expect a "vsphere" release to give provider "capv" and object name "capv-…". The code gives "vsphere" (`Naming.VsphereExample`). The NodeImage controller treats only "capv" as vSphere, so a NodeImage derived from such a release makes no provider call.
- NodeImageController.NodeImageReconciler.Reconcile: states the Get outcome, the finalizer and the provider-neutral facts only. The full deletion and live outcomes are in ReconcileDeletion and ReconcileLive.
- ReleaseController.ReleaseReconciler.Reconcile: states what happens to the Release, that no other image changes, that a deleted Release is no longer listed after success and that a live one is listed without failures. What each failing image-client call leaves in the image is stated by RemoveImage and CreateOrUpdateImage, not here.
- ReleaseController.ReleaseReconciler.ReconcileRelease: states the same as Reconcile, for a Release already read.
- ReleaseController.ReleaseReconciler.ReconcileDeletion: states the image outcome without failures and that the reference is gone after any success. What a failing image-client call leaves in the image is stated by RemoveImage, not here.
- ImageClient.Client.CreateOrUpdateImage: states the success outcome and duplicate-freedom. The outcomes of individual failures are in CreateImage and AddReleaseToNodeImageStatus.

## Findings

| source | as written | input that shows it | evidently intended | confidence | as-written member | corrected member |
|---|---|---|---|---|---|---|
| pkg/image/client.go:113-116 | status subresource: `Update` refreshes `object` from the server, so the following `Status().Update` writes back the old state | a NodeImage with no releases, state Available, retention period > 0 | the image is stored AwaitingDeletion with its last-used annotation | medium, not executed | ImageClient.Client.DeleteImageAsWritten | ImageClient.Client.DeleteImage |
| pkg/image/client.go:159-177 | the release appended at 159 is lost when `Update` at 169 refreshes `object`, and the status written at 177 is the server's | a NodeImage in state AwaitingDeletion carrying the last-used annotation, for a release not yet listed | the release is listed, the state is Pending and the annotation is gone | medium, not executed | ImageClient.Client.AddReleaseToNodeImageStatusAsWritten | ImageClient.Client.AddReleaseToNodeImageStatus |
| pkg/imagelist/imagelist.go:57,95 | `i.Images = object.Data` may be a nil map, and `AddImage` then assigns into it, which panics | an image-list ConfigMap stored without data, then AddImage("x") | a nil list behaves as an empty one | medium, not executed | ImageList.ImageList.AddImageAsWritten | ImageList.ImageList.AddImage |
