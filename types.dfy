/** Records shared by the controllers and clients of the image distribution
    operator: the NodeImage custom resource, the Release objects NodeImages are
    derived from, the image-list ConfigMap, and the errors the operator returns. */
module Types {

  datatype Option<T> = None | Some(value: T)

  datatype Result<T> = Ok(value: T) | Err(error: Failure)

  /** The NodeImage lifecycle states. `Unset` is the empty string that a record
      carries before any state is written. `AwaitingDeletion` is used by the
      image client although the types file does not declare it. */
  datatype NodeImageState =
    | Unset
    | Pending
    | Uploading
    | Available
    | Error
    | Deleting
    | Deleted
    | AwaitingDeletion

  /** Name and namespace of a stored object. */
  datatype ObjectKey = ObjectKey(namespace: string, name: string)

  datatype NodeImageSpec = NodeImageSpec(name: string, provider: string)

  datatype NodeImageStatus = NodeImageStatus(releases: seq<string>, state: NodeImageState)

  /** A NodeImage object. `finalizer` says whether the controller's finalizer is
      on the object; `deletionRequested` stands for a non-zero deletion timestamp. */
  datatype NodeImage = NodeImage(
    name: string,
    namespace: string,
    annotations: map<string, string>,
    finalizer: bool,
    deletionRequested: bool,
    spec: NodeImageSpec,
    status: NodeImageStatus)
  {
    function Key(): ObjectKey { ObjectKey(namespace, name) }
  }

  /** The zero NodeImage, returned beside an error. */
  const EmptyNodeImage := NodeImage("", "", map[], false, false, NodeImageSpec("", ""), NodeImageStatus([], Unset))

  /** One component (name and version) of a release. */
  datatype Component = Component(name: string, version: string)

  /** A Release object; `finalizer` is the release controller's finalizer. */
  datatype Release = Release(
    name: string,
    namespace: string,
    finalizer: bool,
    deletionRequested: bool,
    components: seq<Component>)
  {
    function Key(): ObjectKey { ObjectKey(namespace, name) }
  }

  /** A Go map[string]string: nil, or a made map. Reading or deleting from nil
      behaves as from the empty map; assigning into nil panics. */
  datatype StringMap = NilMap | MadeMap(entries: map<string, string>)
  {
    function Entries(): map<string, string> {
      if NilMap? then map[] else entries
    }
  }

  datatype ConfigMap = ConfigMap(
    name: string,
    namespace: string,
    labels: map<string, string>,
    data: StringMap)
  {
    function Key(): ObjectKey { ObjectKey(namespace, name) }
  }

  /** Kinds of stored objects and the API verbs on them. */
  datatype Kind = NodeImageKind | ReleaseKind | ConfigMapKind

  datatype Verb = Get | Create | Update | UpdateStatus | Delete

  /** Provider operations whose failures the controller reports. */
  datatype ProviderOp = ExistsOp | ImportOp | ProcessOp | DeleteOp

  /** Every error the modelled code returns. The wording of the Go messages is
      not kept; each constructor names the condition that produced it. */
  datatype Failure =
    // API server
    | NotFound
    | AlreadyExists
    | ApiFailure(kind: Kind, verb: Verb)
    // image naming
    | ComponentNotFound(component: string, release: string)
    | VersionEmpty(component: string)
    | ChannelEmpty
    | ProviderNameNotFound(release: string)
    // image client configuration
    | NamespaceRequired
    | ClientRequired
    | ReleaseRequired
    // URL validation
    | URLEmpty
    | NotS3Bucket
    | URLCheckFailed
    | OvaNotFound(statusCode: int)
    | InvalidURL(url: string)
    // provider calls
    | ProviderFailure(op: ProviderOp, location: string)
    // status writes and their combination with an earlier error
    | StatusUpdateFailed(cause: Failure)
    | AlsoStatusFailed(err: Failure, statusErr: Failure)
    // cloud director
    | CredentialsUnreadable
    | CredentialsMalformed
    | URLUnparsable
    | AuthenticationFailed
    | LocationsUnreadable
    | LocationsMalformed
    | LocationNameRequired
    | LocationVDCRequired
    | LocationCatalogRequired
    | OrgLookupFailed(org: string)
    | CatalogLookupFailed(catalog: string, org: string)
    | TemplateLookupFailed(name: string)

  /** Go's strings.HasPrefix. */
  predicate HasPrefix(s: string, prefix: string) {
    |prefix| <= |s| && s[..|prefix|] == prefix
  }

  /** Storing the value a map already holds leaves it unchanged. */
  lemma UpdateSameValue<K, V>(m: map<K, V>, k: K)
    requires k in m
    ensures m[k := m[k]] == m
  {
  }

  /** A second store under the same key overrides the first. */
  lemma UpdateTwice<K, V>(m: map<K, V>, k: K, a: V, b: V)
    ensures m[k := a][k := b] == m[k := b]
  {
  }
}
