/**
 * The `LocalProvider` object: a reference -> descriptor cache and a
 * plain-HTTP flag that its methods update in place, next to the fixed
 * host strategy, platform policy and index-wrapped store. Each method is
 * proved against the ProviderSpec function for the same operation.
 */
module LocalContent {
  import opened ContentTypes
  import Spec = ProviderSpec

  class LocalProvider {
    var images: map<Reference, Descriptor>
    var usePlainHTTP: bool
    const store: Store
    const hosts: HostFunc
    const platformMC: PlatformMatcher

    /** The mutable state as a ProviderSpec value. */
    function Model(): Spec.State
      reads this
    {
      Spec.State(images, usePlainHTTP)
    }

    /** The fixed collaborators as a ProviderSpec value. */
    function Env(): Spec.Env {
      Spec.Env(hosts, platformMC, store)
    }

    /** The provider object that construction returns once the backend is open. */
    constructor (store: Store, hosts: HostFunc, platformMC: PlatformMatcher)
      ensures Model() == Spec.Initial()
      ensures this.store == store && this.hosts == hosts && this.platformMC == platformMC
    {
      this.store := store;
      this.images := map[];
      this.hosts := hosts;
      this.platformMC := platformMC;
      this.usePlainHTTP := false;
    }

    /** Resolvers built from now on use plain HTTP; the cache is untouched. */
    method UsePlainHTTP()
      modifies this`usePlainHTTP
      ensures Model() == Spec.SetPlainHTTP(old(Model()))
    {
      usePlainHTTP := true;
    }

    /** Builds the resolver for `ref` from the host strategy and the current flag. */
    method Resolver(ref: Reference) returns (r: Result<ContentTypes.Resolver>)
      ensures r == Spec.Resolve(Env(), Model(), ref)
    {
      var h := hosts(ref);
      if h.Err? {
        return Err(h.err);
      }
      r := Ok(ContentTypes.Resolver(h.value.insecure, usePlainHTTP, h.value.credentials));
    }

    /** Pulls `ref` with the given fetch and, on success only, caches its target. */
    method Pull(ref: Reference, fetch: FetchFunc) returns (err: Option<Error>)
      modifies this`images
      ensures (Model(), err) == Spec.Pull(Env(), old(Model()), ref, fetch)
    {
      var resolver := Resolver(ref);
      if resolver.Err? {
        return Some(resolver.err);
      }
      var rc := RemoteContext(resolver.value, platformMC);
      var img := fetch(store, rc, ref, 0);
      if img.Err? {
        return Some(Wrap(Spec.PULL_CONTEXT, img.err));
      }
      SetImage(ref, img.value.target);
      err := None;
    }

    /** Pushes `desc` under `ref`; the result is the resolver's error or the push result. */
    method Push(desc: Descriptor, ref: Reference, push: PushFunc) returns (err: Option<Error>)
      ensures err == Spec.Push(Env(), Model(), desc, ref, push)
    {
      var resolver := Resolver(ref);
      if resolver.Err? {
        return Some(resolver.err);
      }
      var rc := RemoteContext(resolver.value, platformMC);
      err := push(store, rc, desc, ref);
    }

    /** The cached descriptor for `ref`, or ErrNotFound. */
    method Image(ref: Reference) returns (r: Result<Descriptor>)
      ensures r == Spec.GetImage(images, ref)
    {
      r := GetImage(ref);
    }

    /** The index-wrapped store shared with callers. */
    method ContentStore() returns (s: Store)
      ensures s == store
    {
      s := store;
    }

    /** Caches `image` under `ref`. */
    method SetImage(ref: Reference, image: Descriptor)
      modifies this`images
      ensures images == Spec.SetImage(old(images), ref, image)
    {
      images := images[ref := image];
    }

    /** Looks `ref` up in the cache. */
    method GetImage(ref: Reference) returns (r: Result<Descriptor>)
      ensures r == Spec.GetImage(images, ref)
    {
      if ref in images {
        r := Ok(images[ref]);
      } else {
        r := Err(ErrNotFound);
      }
    }
  }

  /**
   * Constructs a provider over `workDir`: the backend steps of
   * Spec.Setup, then a fresh provider whose store is the index-wrapped one.
   * Returns the provider and the metadata database, or the setup error.
   */
  method NewLocalProvider(workDir: Path, hosts: HostFunc, platformMC: PlatformMatcher, sys: Spec.SetupEnv)
    returns (r: Result<(LocalProvider, MetaDB)>)
    ensures r.Err? <==> Spec.Setup(workDir, sys).Err?
    ensures r.Err? ==> r.err == Spec.Setup(workDir, sys).err
    ensures r.Ok? ==>
      && fresh(r.value.0)
      && r.value.0.Model() == Spec.Initial()
      && r.value.0.store == Spec.Setup(workDir, sys).value.store
      && r.value.0.store == IndexedStore(r.value.1)
      && r.value.1 == Spec.Setup(workDir, sys).value.db
      && r.value.0.hosts == hosts && r.value.0.platformMC == platformMC
  {
    var backend := Spec.Setup(workDir, sys);
    if backend.Err? {
      return Err(backend.err);
    }
    var provider := new LocalProvider(backend.value.store, hosts, platformMC);
    r := Ok((provider, backend.value.db));
  }
}
