/**
 * The local provider as a state machine on values. `State` is what a
 * `LocalProvider` object holds that changes (its reference cache and its
 * plain-HTTP flag); `Env` is what it was built with and never changes.
 * Each operation is a function from the old state to the result and the
 * new state; the class in LocalContent is proved against these.
 */
module ProviderSpec {
  import opened ContentTypes

  /** Name of the content-store directory inside the working directory. */
  const CONTENT_DIR := "content"
  /** Name of the metadata database file inside the working directory. */
  const META_DB_FILE := "meta.db"
  /** Permission bits for the content directory: 0755. */
  const CONTENT_DIR_MODE: nat := 0x1ED
  /** Permission bits for the metadata database file: 0655. */
  const META_DB_MODE: nat := 0x1AD

  const MKDIR_CONTEXT := "create local provider work directory"
  const STORE_CONTEXT := "create local provider content store"
  const DATABASE_CONTEXT := "create local provider database"
  const PULL_CONTEXT := "pull source image"

  /** The mutable part of a provider: reference -> descriptor cache and the plain-HTTP flag. */
  datatype State = State(images: map<Reference, Descriptor>, usePlainHTTP: bool)

  /** The fixed part of a provider: host strategy, platform policy, index-wrapped store. */
  datatype Env = Env(hosts: HostFunc, platformMC: PlatformMatcher, store: Store)

  // ---------------------------------------------------------------------
  // Construction

  /** The outcomes of the three filesystem/database steps of construction. */
  datatype SetupEnv = SetupEnv(
    mkdirAll: (Path, nat) -> Option<Error>,
    openLabeledStore: Path -> Option<Error>,
    openBolt: (Path, nat) -> Option<Error>)

  /** What construction opens: the store handed to callers and the metadata database. */
  datatype Backend = Backend(store: Store, db: MetaDB)

  function ContentDir(workDir: Path): (p: Path)
    ensures |p| == |workDir| + 1 && p[..|workDir|] == workDir && p[|workDir|] == CONTENT_DIR
  {
    workDir + [CONTENT_DIR]
  }

  function MetaDBPath(workDir: Path): (p: Path)
    ensures |p| == |workDir| + 1 && p[..|workDir|] == workDir && p[|workDir|] == META_DB_FILE
  {
    workDir + [META_DB_FILE]
  }

  /**
   * Opens the backend in order: create the content directory, open the
   * labeled store in it, open the bolt file, then layer the metadata index
   * over the store. The first step that fails decides the error.
   */
  function Setup(workDir: Path, sys: SetupEnv): (r: Result<Backend>)
    ensures r.Ok? <==>
      && sys.mkdirAll(ContentDir(workDir), CONTENT_DIR_MODE).None?
      && sys.openLabeledStore(ContentDir(workDir)).None?
      && sys.openBolt(MetaDBPath(workDir), META_DB_MODE).None?
    ensures var m := sys.mkdirAll(ContentDir(workDir), CONTENT_DIR_MODE);
      m.Some? ==> r == Err(Wrap(MKDIR_CONTEXT, m.value))
    ensures var m := sys.mkdirAll(ContentDir(workDir), CONTENT_DIR_MODE);
      var o := sys.openLabeledStore(ContentDir(workDir));
      m.None? && o.Some? ==> r == Err(Wrap(STORE_CONTEXT, o.value))
    ensures var m := sys.mkdirAll(ContentDir(workDir), CONTENT_DIR_MODE);
      var o := sys.openLabeledStore(ContentDir(workDir));
      var b := sys.openBolt(MetaDBPath(workDir), META_DB_MODE);
      m.None? && o.None? && b.Some? ==> r == Err(Wrap(DATABASE_CONTEXT, b.value))
    ensures r.Ok? ==>
      && r.value.db.backing == LocalStore(ContentDir(workDir))
      && r.value.db.bolt == BoltDB(MetaDBPath(workDir), META_DB_MODE)
      && r.value.store == IndexedStore(r.value.db)
  {
    var contentDir := ContentDir(workDir);
    match sys.mkdirAll(contentDir, CONTENT_DIR_MODE)
    case Some(e) => Err(Wrap(MKDIR_CONTEXT, e))
    case None =>
      match sys.openLabeledStore(contentDir)
      case Some(e) => Err(Wrap(STORE_CONTEXT, e))
      case None =>
        match sys.openBolt(MetaDBPath(workDir), META_DB_MODE)
        case Some(e) => Err(Wrap(DATABASE_CONTEXT, e))
        case None =>
          var db := MetaDB(BoltDB(MetaDBPath(workDir), META_DB_MODE), LocalStore(contentDir));
          Ok(Backend(IndexedStore(db), db))
  }

  /** A new provider caches nothing and uses TLS. */
  function Initial(): (s: State)
    ensures !s.usePlainHTTP
    ensures forall ref :: GetImage(s.images, ref) == Err(ErrNotFound)
  {
    State(map[], false)
  }

  // ---------------------------------------------------------------------
  // The reference cache

  /** Lookup in the cache: the stored descriptor, or ErrNotFound. */
  function GetImage(images: map<Reference, Descriptor>, ref: Reference): (r: Result<Descriptor>)
    ensures r.Ok? <==> ref in images
    ensures r.Ok? ==> r.value == images[ref]
    ensures r.Err? ==> r.err == ErrNotFound
  {
    if ref in images then Ok(images[ref]) else Err(ErrNotFound)
  }

  /** Store `image` under `ref`, overwriting any earlier entry for `ref` only. */
  function SetImage(images: map<Reference, Descriptor>, ref: Reference, image: Descriptor)
    : (m: map<Reference, Descriptor>)
    ensures GetImage(m, ref) == Ok(image)
    ensures m.Keys == images.Keys + {ref}
    ensures forall other :: other != ref ==> GetImage(m, other) == GetImage(images, other)
  {
    images[ref := image]
  }

  // ---------------------------------------------------------------------
  // Operations

  /** Force plain HTTP for every resolver built from now on. */
  function SetPlainHTTP(s: State): (t: State)
    ensures t.usePlainHTTP
    ensures t.images == s.images
  {
    s.(usePlainHTTP := true)
  }

  /** The resolver for `ref`: the host strategy's error verbatim, or a resolver built from its answer and the current flag. */
  function Resolve(env: Env, s: State, ref: Reference): (r: Result<Resolver>)
    ensures r.Err? <==> env.hosts(ref).Err?
    ensures r.Err? ==> r.err == env.hosts(ref).err
    ensures r.Ok? ==>
      && r.value.insecure == env.hosts(ref).value.insecure
      && r.value.credentials == env.hosts(ref).value.credentials
      && r.value.plainHTTP == s.usePlainHTTP
  {
    match env.hosts(ref)
    case Err(e) => Err(e)
    case Ok(h) => Ok(Resolver(h.insecure, s.usePlainHTTP, h.credentials))
  }

  /** The remote context handed to the transfer operations. */
  function Context(env: Env, resolver: Resolver): RemoteContext {
    RemoteContext(resolver, env.platformMC)
  }

  /** What fetch returns for `ref` once the resolver has been built. */
  function Fetch(env: Env, s: State, ref: Reference, fetch: FetchFunc): Result<Image>
    requires Resolve(env, s, ref).Ok?
  {
    fetch(env.store, Context(env, Resolve(env, s, ref).value), ref, 0)
  }

  /** Whether pulling `ref` in state `s` succeeds. */
  predicate PullSucceeds(env: Env, s: State, ref: Reference, fetch: FetchFunc) {
    Resolve(env, s, ref).Ok? && Fetch(env, s, ref, fetch).Ok?
  }

  /**
   * Pull: resolve, fetch, and on success cache the fetched top-level
   * descriptor under `ref`. Returns the new state and the error, if any.
   */
  function Pull(env: Env, s: State, ref: Reference, fetch: FetchFunc): (t: (State, Option<Error>))
    ensures t.1.None? <==> PullSucceeds(env, s, ref, fetch)
    ensures t.0.usePlainHTTP == s.usePlainHTTP
    ensures t.1.Some? ==> t.0 == s
    ensures Resolve(env, s, ref).Err? ==> t.1 == Some(Resolve(env, s, ref).err)
    ensures Resolve(env, s, ref).Ok? && Fetch(env, s, ref, fetch).Err? ==>
      t.1 == Some(Wrap(PULL_CONTEXT, Fetch(env, s, ref, fetch).err))
    ensures t.1.None? ==> t.0.images == SetImage(s.images, ref, Fetch(env, s, ref, fetch).value.target)
  {
    match Resolve(env, s, ref)
    case Err(e) => (s, Some(e))
    case Ok(resolver) =>
      match fetch(env.store, Context(env, resolver), ref, 0)
      case Err(e) => (s, Some(Wrap(PULL_CONTEXT, e)))
      case Ok(img) => (s.(images := SetImage(s.images, ref, img.target)), None)
  }

  /** Push: the resolver's error verbatim, or exactly what the push collaborator returns. */
  function Push(env: Env, s: State, desc: Descriptor, ref: Reference, push: PushFunc): (e: Option<Error>)
    ensures Resolve(env, s, ref).Err? ==> e == Some(Resolve(env, s, ref).err)
    ensures Resolve(env, s, ref).Ok? ==>
      e == push(env.store, Context(env, Resolve(env, s, ref).value), desc, ref)
  {
    match Resolve(env, s, ref)
    case Err(err) => Some(err)
    case Ok(resolver) => push(env.store, Context(env, resolver), desc, ref)
  }

  // ---------------------------------------------------------------------
  // Properties of single calls

  /** A successful pull makes the next lookup of the same reference return the fetched target. */
  lemma PullThenImage(env: Env, s: State, ref: Reference, fetch: FetchFunc)
    requires PullSucceeds(env, s, ref, fetch)
    ensures GetImage(Pull(env, s, ref, fetch).0.images, ref) == Ok(Fetch(env, s, ref, fetch).value.target)
  {
  }

  /** Two successful pulls of one reference: the second target is the one cached. */
  lemma PullTwiceLastWins(env: Env, s: State, ref: Reference, first: FetchFunc, second: FetchFunc)
    requires PullSucceeds(env, s, ref, first)
    requires PullSucceeds(env, Pull(env, s, ref, first).0, ref, second)
    ensures var mid := Pull(env, s, ref, first).0;
      GetImage(Pull(env, mid, ref, second).0.images, ref) == Ok(Fetch(env, mid, ref, second).value.target)
  {
  }

  /** A pull fails exactly when the host strategy or the fetch fails, and then nothing changes. */
  lemma FailedPullChangesNothing(env: Env, s: State, ref: Reference, fetch: FetchFunc)
    requires env.hosts(ref).Err? || Fetch(env, s, ref, fetch).Err?
    ensures Pull(env, s, ref, fetch).1.Some?
    ensures Pull(env, s, ref, fetch).0 == s
  {
  }

  /** A pull changes the cache entry of its own reference only. */
  lemma PullLeavesOtherReferences(env: Env, s: State, ref: Reference, other: Reference, fetch: FetchFunc)
    requires other != ref
    ensures GetImage(Pull(env, s, ref, fetch).0.images, other) == GetImage(s.images, other)
  {
  }

  /** Setting the plain-HTTP flag twice is the same as setting it once. */
  lemma SetPlainHTTPIdempotent(s: State)
    ensures SetPlainHTTP(SetPlainHTTP(s)) == SetPlainHTTP(s)
  {
  }

  /** After the flag is set, every resolver built uses plain HTTP. */
  lemma ResolverSeesPlainHTTP(env: Env, s: State, ref: Reference)
    requires Resolve(env, SetPlainHTTP(s), ref).Ok?
    ensures Resolve(env, SetPlainHTTP(s), ref).value.plainHTTP
  {
  }
}
