# Local content provider — Dafny model

This project models the local content provider of the acceleration service
(`pkg/content/local.go`). The provider is a local cache of OCI images that
can pull from and push to remote registries. Its own logic has two parts:

- an in-memory cache from reference strings to the top-level descriptor of
  the last successful pull of that reference;
- a plain-HTTP flag that every resolver built afterwards uses.

Around these it does orchestration:

- construction opens the content directory, the labeled blob store and the
  bolt database, then layers the metadata index over the store;
- `Resolver` asks the injected host strategy for credentials and the
  insecure flag;
- `Pull` and `Push` hand a remote context to the transfer operations.

Files:

- `types.dfy` (module `ContentTypes`): descriptors, images and Go errors.
  Errors are a collaborator's message, an `errors.Wrap` with its context
  text, or `errdefs.ErrNotFound`. Resolvers, remote contexts, stores and the
  metadata database are plain records of what they are built from. The host
  strategy, fetch and push are function types.
- `provider_spec.dfy` (module `ProviderSpec`): the provider as a state
  machine on values. `State` holds the cache and the flag. `Env` holds the
  host strategy, the platform policy and the store. There is one function per
  operation, and construction is `Setup`. The lemmas here are about single
  calls.
- `provider_trace.dfy` (module `ProviderTrace`): histories of calls applied
  one after another. The mutex guards only the map accesses in `setImage` and
  `getImage`. A pull's only effect on the cache is its one locked write, so
  a pull is placed in the history at its `setImage`. The inductive lemmas
  here cover whole histories. The cache entry of a reference is the target
  of its last successful pull. Without such a pull it is
  unchanged, so it is `ErrNotFound` on a new provider. Entries are never
  removed. The flag is set exactly when `UsePlainHTTP` was called. Calls
  other than pull and `UsePlainHTTP` change nothing.
- `local_provider.dfy` (module `LocalContent`): the `LocalProvider` class.
  Its `images` map and `usePlainHTTP` flag are updated in place. Every method
  is proved against the `ProviderSpec` function for the same operation.
  `NewLocalProvider` builds the object from `Setup`'s result.

`Push` does not wrap push failures. It returns the resolver's error
verbatim, or the push collaborator's result unchanged
(`pkg/content/local.go:116`). `Pull` returns a host-strategy failure
verbatim and wraps only a fetch failure, with "pull source image".

## Model

| member | source | states |
|---|---|---|
| `ProviderSpec.Setup` | pkg/content/local.go:50-63 | construction succeeds iff directory creation, store open and database open all succeed; the first failing step decides the error, wrapped with that step's context text; on success the metadata DB sits over the labeled store in `<workDir>/content` and the bolt file `<workDir>/meta.db` with mode 0655, and the store handed out is the index-wrapped view of that DB |
| `ProviderSpec.ContentDir` | pkg/content/local.go:50 | the content directory is the working directory extended by the component `content` |
| `ProviderSpec.MetaDBPath` | pkg/content/local.go:58 | the database file is the working directory extended by the component `meta.db` |
| `ProviderSpec.Initial` | pkg/content/local.go:64-69 | a new provider has the flag false and every lookup returns ErrNotFound |
| `ProviderSpec.GetImage` | pkg/content/local.go:133-140 | the lookup succeeds iff the reference is cached, then with the cached descriptor; otherwise the error is ErrNotFound |
| `ProviderSpec.SetImage` | pkg/content/local.go:127-131 | afterwards the reference maps to the new descriptor, the key set gains only that reference, and every other reference's lookup is unchanged |
| `ProviderSpec.SetPlainHTTP` | pkg/content/local.go:72-74 | the flag becomes true and the cache is unchanged |
| `ProviderSpec.Resolve` | pkg/content/local.go:76-82 | fails iff the host strategy fails, with its error unchanged; otherwise the resolver carries the strategy's insecure flag and credentials and the provider's current plain-HTTP flag |
| `ProviderSpec.Pull` | pkg/content/local.go:84-103 | succeeds iff resolving and fetching both succeed; a resolver error is returned verbatim and a fetch error wrapped with "pull source image"; on failure the state is unchanged; on success the fetched target is cached under the reference; the flag never changes |
| `ProviderSpec.Push` | pkg/content/local.go:105-117 | the result is the resolver error verbatim, or exactly the push collaborator's result for the store, the remote context and the given descriptor |
| `ProviderSpec.PullThenImage` | pkg/content/local.go:96-100 | after a successful pull, looking the reference up returns the fetched target |
| `ProviderSpec.PullTwiceLastWins` | pkg/content/local.go:96-100 | after two successful pulls of one reference, the lookup returns the second target |
| `ProviderSpec.FailedPullChangesNothing` | pkg/content/local.go:84-99 | when the host strategy or the fetch fails, the pull reports an error and the state is unchanged |
| `ProviderSpec.PullLeavesOtherReferences` | pkg/content/local.go:127-131 | a pull never changes the cache entry of a different reference |
| `ProviderSpec.SetPlainHTTPIdempotent` | pkg/content/local.go:72-74 | setting the flag a second time changes nothing |
| `ProviderSpec.ResolverSeesPlainHTTP` | pkg/content/local.go:76-82 | once the flag is set, every resolver built uses plain HTTP |
| `ProviderTrace.StepKeepsEntry` | pkg/content/local.go:127-131 | a call that is not a successful pull of a reference leaves that reference's entry unchanged |
| `ProviderTrace.LastSuccessfulPullWins` | pkg/content/local.go:96-100 | after any history, a reference's entry is the target of the last successful pull of that exact reference |
| `ProviderTrace.NoPullKeepsEntry` | pkg/content/local.go:127-140 | a history without a successful pull of a reference leaves its entry as it was |
| `ProviderTrace.NotFoundBeforeFirstPull` | pkg/content/local.go:133-139 | starting from a new provider, the lookup of a reference is ErrNotFound until a pull of it succeeds |
| `ProviderTrace.EntriesNeverRemoved` | pkg/content/local.go:127-131 | no history removes a cached reference |
| `ProviderTrace.PlainHTTPFlag` | pkg/content/local.go:72-74 | after a history the flag is set iff it was set before or the history called UsePlainHTTP |
| `ProviderTrace.ReadOnlyCallsChangeNothing` | pkg/content/local.go:105-125 | a history of only Push, Image, ContentStore (and Resolver, lines 76-82) calls leaves the cache and the flag as they were; for the object this rests on those methods having no `modifies` clause |
| `LocalContent.LocalProvider.constructor` | pkg/content/local.go:64-69 | a new object holds the initial state and the given store, host strategy and platform policy |
| `LocalContent.LocalProvider.UsePlainHTTP` | pkg/content/local.go:72-74 | the object's new state is `SetPlainHTTP` of its old state; only the flag may change |
| `LocalContent.LocalProvider.Resolver` | pkg/content/local.go:76-82 | returns `Resolve` for the object's collaborators and current state, and changes nothing |
| `LocalContent.LocalProvider.Pull` | pkg/content/local.go:84-103 | the new state and the returned error are those of `ProviderSpec.Pull` on the old state; only the cache may change |
| `LocalContent.LocalProvider.Push` | pkg/content/local.go:105-117 | returns `ProviderSpec.Push` for the current state, and changes nothing |
| `LocalContent.LocalProvider.Image` | pkg/content/local.go:119-121 | returns `GetImage` of the cache, and changes nothing |
| `LocalContent.LocalProvider.ContentStore` | pkg/content/local.go:123-125 | returns the object's store, and changes nothing |
| `LocalContent.LocalProvider.SetImage` | pkg/content/local.go:127-131 | the cache becomes `ProviderSpec.SetImage` of the old cache; the flag is unchanged |
| `LocalContent.LocalProvider.GetImage` | pkg/content/local.go:133-140 | returns `ProviderSpec.GetImage` of the cache: the cached descriptor iff the reference is cached, otherwise ErrNotFound; changes nothing |
| `LocalContent.NewLocalProvider` | pkg/content/local.go:45-70 | fails iff `Setup` fails, with the same error; on success it returns a fresh provider in the initial state whose store is the index-wrapped view of the returned metadata database |

## Left out

- The mutex (`pkg/content/local.go:128-129, 134-135`) is not modelled. It guards only the map accesses. Each map access is atomic, and a pull is ordered at its `setImage`.
- The flag is read and written without the lock (`pkg/content/local.go:73, 81`). This unsynchronised access is not modelled, and neither is which flag value a pull sees when it runs at the same time as `UsePlainHTTP`.
- `context.Context` is not modelled, so neither is cancellation.
- `fetch`, `push`, the host strategy and the credential callback are function-valued parameters. Their code is not part of this model.
- The internals of `remote.NewResolver` and `containerd.RemoteContext` are not modelled. Both are records of their inputs.
- The platform policy is an opaque token that is passed through.
- Directory creation, the labeled store, the bolt database and the metadata index are given as the outcomes of their three steps (`SetupEnv`). Their on-disk behaviour is not modelled.
- The label store is in memory, so labels are not persisted. The model does not capture this.
- `filepath.Join` cleaning (`.`, `..`, repeated separators) is not modelled. Paths are lists of components, and joining appends one component.
- The cache maps references to `*ocispec.Descriptor` pointers, and `Image` returns the stored pointer. The model stores descriptor values, so it does not capture a caller mutating a cached descriptor through that pointer.
- Error message text beyond the wrap contexts is not modelled. Go's typed-nil interface results (`nil, nil, err`) become the `Err` case of a result.
- `containerd.Image` is reduced to name, labels and target. Creation and update times are not modelled.
