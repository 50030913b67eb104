/**
 * Values exchanged by the local content provider: OCI descriptors, the
 * images that a fetch produces, Go-style errors, and plain records that
 * stand for the foreign objects (resolvers, remote contexts, stores,
 * databases) the provider builds but does not look inside.
 */
module ContentTypes {

  /** A reference names a remote image (registry/repository:tag or @digest). */
  type Reference = string

  /** A filesystem path, as its list of components. */
  type Path = seq<string>

  /** An OCI content descriptor: an immutable value naming a piece of content. */
  datatype Descriptor = Descriptor(
    mediaType: string,
    digest: string,
    size: int,
    annotations: map<string, string>)

  /** A containerd image record; `target` is its top-level descriptor. */
  datatype Image = Image(name: string, labels: map<string, string>, target: Descriptor)

  /**
   * A Go `error`: a message from a collaborator, an error wrapped with
   * context (`errors.Wrap`), or containerd's `errdefs.ErrNotFound`.
   */
  datatype Error =
    | Message(text: string)
    | Wrap(context: string, cause: Error)
    | ErrNotFound

  datatype Option<+T> = None | Some(value: T)

  /** The `(value, error)` pair of a Go call: exactly one side is present. */
  datatype Result<+T> = Ok(value: T) | Err(err: Error)

  /** A registry credential callback: host name to (user name, secret). */
  type CredentialFunc = string -> Result<(string, string)>

  /** What the host strategy yields for a reference when it succeeds. */
  datatype HostConfig = HostConfig(credentials: CredentialFunc, insecure: bool)

  /** The injected host strategy `remote.HostFunc`. */
  type HostFunc = Reference -> Result<HostConfig>

  /** A registry resolver, recorded as the three inputs of `remote.NewResolver`. */
  datatype Resolver = Resolver(insecure: bool, plainHTTP: bool, credentials: CredentialFunc)

  /** The platform-selection policy; opaque to the provider and passed through. */
  datatype PlatformMatcher = PlatformMatcher(token: nat)

  /** `containerd.RemoteContext` as the provider fills it in. */
  datatype RemoteContext = RemoteContext(resolver: Resolver, platformMatcher: PlatformMatcher)

  /** A bbolt database file opened at `path` with permission bits `mode`. */
  datatype BoltDB = BoltDB(path: Path, mode: nat)

  /** A content store: the on-disk labeled store, or the metadata-indexed view of one. */
  datatype Store =
    | LocalStore(root: Path)
    | IndexedStore(db: MetaDB)

  /** containerd's metadata database, layered over a bolt file and a backing store. */
  datatype MetaDB = MetaDB(bolt: BoltDB, backing: Store)

  /** The transfer of an image graph into the store; its last argument is the depth limit. */
  type FetchFunc = (Store, RemoteContext, Reference, nat) -> Result<Image>

  /** The upload of the graph under a descriptor; `None` is success. */
  type PushFunc = (Store, RemoteContext, Descriptor, Reference) -> Option<Error>
}
