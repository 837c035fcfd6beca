/** The image list: an in-memory map of image names kept in step with the
    data of a ConfigMap. The map is a Go map, so it may be nil; reading and
    deleting from a nil map behave as from an empty one, and assigning into
    it panics. */
module ImageList {
  import opened Types
  import opened KubeApi

  const ManagedByLabel := "managed-by"
  const ManagedByValue := "image-distribution-operator"

  /** The ConfigMap created when the list does not exist yet: labelled as
      managed by the operator, with empty data. */
  function EmptyImageListConfigMap(name: string, namespace: string): (c: ConfigMap)
    ensures c.Key() == ObjectKey(namespace, name)
    ensures c.labels == map[ManagedByLabel := ManagedByValue]
    ensures c.data.MadeMap? && c.data.Entries() == map[]
  {
    ConfigMap(name, namespace, map[ManagedByLabel := ManagedByValue], MadeMap(map[]))
  }

  /** `delete(m, k)`: a no-op on a nil map. */
  function Remove(m: StringMap, k: string): (r: StringMap)
    ensures r.Entries() == m.Entries() - {k}
    ensures r.NilMap? <==> m.NilMap?
  {
    match m
    case NilMap => NilMap
    case MadeMap(entries) => MadeMap(entries - {k})
  }

  /** `m[k] = v` as Go runs it: None stands for the panic on a nil map. */
  function AssignAsWritten(m: StringMap, k: string, v: string): (r: Option<StringMap>)
    ensures r.None? <==> m.NilMap?
    ensures r.Some? ==> r.value.MadeMap? && r.value.Entries() == m.Entries()[k := v]
  {
    match m
    case NilMap => None
    case MadeMap(entries) => Some(MadeMap(entries[k := v]))
  }

  /** `m[k] = v` where a nil map is first replaced by an empty one. */
  function Assign(m: StringMap, k: string, v: string): (r: StringMap)
    ensures r.MadeMap? && k in r.Entries() && r.Entries()[k] == v
    ensures forall j :: j != k ==> (j in r.Entries() <==> j in m.Entries())
    ensures forall j :: j != k && j in m.Entries() ==> r.Entries()[j] == m.Entries()[j]
  {
    MadeMap(m.Entries()[k := v])
  }

  /** Assign agrees with the Go assignment wherever that does not panic. */
  lemma AssignRefinesAsWritten(m: StringMap, k: string, v: string)
    ensures AssignAsWritten(m, k, v).Some? ==> AssignAsWritten(m, k, v).value == Assign(m, k, v)
  {
    if m.MadeMap? {
      assert AssignAsWritten(m, k, v).value.entries == Assign(m, k, v).entries;
    }
  }

  /** After syncing from a ConfigMap stored without data the list is nil, so
      the first AddImage that assigns into it panics. */
  lemma NilDataPanics(cm: ConfigMap, image: string)
    requires cm.data.NilMap?
    ensures AssignAsWritten(cm.data, image, "").None?
  {
  }

  /** Whether AddImage has anything to do for `image` in `m`: the Go test
      reads the value, so a key mapped to "" counts as absent. */
  predicate NeedsAdd(m: StringMap, image: string) {
    image !in m.Entries() || m.Entries()[image] == ""
  }

  class ImageList {
    const api: Cluster
    const ListName: string
    const ListNamespace: string
    var images: StringMap

    constructor (api: Cluster, listName: string, listNamespace: string)
      ensures this.api == api && ListName == listName && ListNamespace == listNamespace
      ensures images == MadeMap(map[])
    {
      this.api, ListName, ListNamespace := api, listName, listNamespace;
      images := MadeMap(map[]);
    }

    function ListKey(): ObjectKey {
      ObjectKey(ListNamespace, ListName)
    }

    /** Loads the list from its ConfigMap, creating an empty ConfigMap when
        there is none. Any other failure leaves the list as it was. */
    method UpdateImageList() returns (err: Option<Failure>)
      requires api.Valid()
      modifies this`images, api`configMaps
      ensures api.Valid()
      ensures api.Fails(ConfigMapKind, Get) ==>
                err == Some(ApiFailure(ConfigMapKind, Get)) && images == old(images) && api.configMaps == old(api.configMaps)
      ensures !api.Fails(ConfigMapKind, Get) && ListKey() in old(api.configMaps) ==>
                err == None && images == old(api.configMaps)[ListKey()].data && api.configMaps == old(api.configMaps)
      ensures !api.Fails(ConfigMapKind, Get) && ListKey() !in old(api.configMaps) ==>
                if api.Fails(ConfigMapKind, Create) then
                  err == Some(ApiFailure(ConfigMapKind, Create)) && images == old(images) && api.configMaps == old(api.configMaps)
                else
                  err == None && images == MadeMap(map[]) &&
                  api.configMaps == old(api.configMaps)[ListKey() := EmptyImageListConfigMap(ListName, ListNamespace)]
    {
      var got := api.GetConfigMap(ListKey());
      var obj;
      if got.Err? {
        if got.error == NotFound {
          obj := EmptyImageListConfigMap(ListName, ListNamespace);
          err := api.CreateConfigMap(obj);
          if err.Some? {
            return;
          }
        } else {
          return Some(got.error);
        }
      } else {
        obj := got.value;
      }
      images := obj.data;
      err := None;
    }

    /** Replaces the ConfigMap's data with the list. */
    method UpdateConfigmap() returns (err: Option<Failure>)
      requires api.Valid()
      modifies api`configMaps
      ensures api.Valid()
      ensures api.Fails(ConfigMapKind, Get) || ListKey() !in old(api.configMaps) ==>
                err == Some(if api.Fails(ConfigMapKind, Get) then ApiFailure(ConfigMapKind, Get) else NotFound) &&
                api.configMaps == old(api.configMaps)
      ensures !api.Fails(ConfigMapKind, Get) && ListKey() in old(api.configMaps) ==>
                if api.Fails(ConfigMapKind, Update) then
                  err == Some(ApiFailure(ConfigMapKind, Update)) && api.configMaps == old(api.configMaps)
                else
                  err == None && api.configMaps == old(api.configMaps)[ListKey() := old(api.configMaps)[ListKey()].(data := images)]
    {
      var got := api.GetConfigMap(ListKey());
      if got.Err? {
        return Some(got.error);
      }
      assert got.value.Key() == ListKey();
      err := api.UpdateConfigMap(got.value.(data := images));
    }

    /** Drops `image` from the list and writes the list back, whether or
        not it was there. */
    method RemoveImage(image: string) returns (err: Option<Failure>)
      requires api.Valid()
      modifies this`images, api`configMaps
      ensures api.Valid()
      ensures images == Remove(old(images), image)
      ensures !api.Fails(ConfigMapKind, Get) && !api.Fails(ConfigMapKind, Update) && ListKey() in old(api.configMaps) ==>
                err == None && ListKey() in api.configMaps && api.configMaps[ListKey()].data == images
      ensures err.Some? ==> api.configMaps == old(api.configMaps)
    {
      images := Remove(images, image);
      err := UpdateConfigmap();
    }

    /** AddImage as written: the assignment into a nil list panics, which
        `panicked` reports; nothing is written then. */
    method AddImageAsWritten(image: string) returns (err: Option<Failure>, panicked: bool)
      requires api.Valid()
      modifies this`images, api`configMaps
      ensures api.Valid()
      ensures panicked <==> NeedsAdd(old(images), image) && old(images).NilMap?
      ensures panicked ==> images == old(images) && api.configMaps == old(api.configMaps)
      ensures !panicked ==> image in images.Entries()
    {
      panicked := false;
      if !NeedsAdd(images, image) {
        return None, false;
      }
      var result := AssignAsWritten(images, image, "");
      if result.None? {
        return None, true;
      }
      images := result.value;
      err := UpdateConfigmap();
    }

    /** Adds `image` with an empty value unless it already has a non-empty
        one; only an addition writes the list back. A nil list is replaced by
        an empty one before the assignment. */
    method AddImage(image: string) returns (err: Option<Failure>)
      requires api.Valid()
      modifies this`images, api`configMaps
      ensures api.Valid()
      ensures image in images.Entries()
      ensures !NeedsAdd(old(images), image) ==>
                err == None && images == old(images) && api.configMaps == old(api.configMaps)
      ensures NeedsAdd(old(images), image) ==>
                && images == Assign(old(images), image, "")
                && (!api.Fails(ConfigMapKind, Get) && !api.Fails(ConfigMapKind, Update) && ListKey() in old(api.configMaps) ==>
                      err == None && ListKey() in api.configMaps && api.configMaps[ListKey()].data == images)
                && (err.Some? ==> api.configMaps == old(api.configMaps))
    {
      if !NeedsAdd(images, image) {
        return None;
      }
      images := Assign(images, image, "");
      err := UpdateConfigmap();
    }
  }

  /** Creates the list for the ConfigMap `listName` in `listNamespace` and
      loads it. */
  method New(api: Cluster, listName: string, listNamespace: string) returns (r: Result<ImageList>)
    requires api.Valid()
    modifies api`configMaps
    ensures api.Valid()
    ensures var key := ObjectKey(listNamespace, listName);
            if api.Fails(ConfigMapKind, Get) then
              r == Err(ApiFailure(ConfigMapKind, Get)) && api.configMaps == old(api.configMaps)
            else if key in old(api.configMaps) then
              r.Ok? && r.value.images == old(api.configMaps)[key].data && api.configMaps == old(api.configMaps)
            else if api.Fails(ConfigMapKind, Create) then
              r == Err(ApiFailure(ConfigMapKind, Create)) && api.configMaps == old(api.configMaps)
            else
              r.Ok? && r.value.images == MadeMap(map[]) &&
              api.configMaps == old(api.configMaps)[key := EmptyImageListConfigMap(listName, listNamespace)]
    ensures r.Ok? ==> fresh(r.value) && r.value.api == api && r.value.ListName == listName && r.value.ListNamespace == listNamespace
  {
    var list := new ImageList(api, listName, listNamespace);
    var err := list.UpdateImageList();
    if err.Some? {
      return Err(err.value);
    }
    return Ok(list);
  }
}
