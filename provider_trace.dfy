/**
 * Histories of calls on one provider, applied one at a time by `Run`; the
 * lemmas below say what the cache and the flag hold at the end. The mutex
 * guards only the map accesses in setImage and getImage, and a pull's only
 * effect on the cache is its one locked write, so a pull is placed in the
 * history at its setImage (its resolve and fetch are the per-call `fetch`).
 */
module ProviderTrace {
  import opened ContentTypes
  import opened ProviderSpec

  /** One call on the provider, with the collaborators' behaviour for it. */
  datatype Call =
    | CallUsePlainHTTP
    | CallResolver(ref: Reference)
    | CallPull(ref: Reference, fetch: FetchFunc)
    | CallPush(desc: Descriptor, ref: Reference, push: PushFunc)
    | CallImage(ref: Reference)
    | CallContentStore

  /** The state after one call. */
  function Step(env: Env, s: State, c: Call): State {
    match c
    case CallUsePlainHTTP => SetPlainHTTP(s)
    case CallPull(ref, fetch) => Pull(env, s, ref, fetch).0
    case _ => s
  }

  /** The state after a history of calls, the last one applied last. */
  function Run(env: Env, s: State, calls: seq<Call>): State
    decreases |calls|
  {
    if calls == [] then s
    else Step(env, Run(env, s, calls[..|calls| - 1]), calls[|calls| - 1])
  }

  /** Call `i` of the history is a pull of `ref` that succeeds in the state it meets. */
  predicate PulledAt(env: Env, s: State, calls: seq<Call>, ref: Reference, i: nat)
    requires i < |calls|
  {
    && calls[i].CallPull?
    && calls[i].ref == ref
    && PullSucceeds(env, Run(env, s, calls[..i]), ref, calls[i].fetch)
  }

  /** The descriptor that successful pull `i` cached. */
  function PulledTarget(env: Env, s: State, calls: seq<Call>, ref: Reference, i: nat): Descriptor
    requires i < |calls| && PulledAt(env, s, calls, ref, i)
  {
    Fetch(env, Run(env, s, calls[..i]), ref, calls[i].fetch).value.target
  }

  /** A call that is not a successful pull of `ref` leaves the entry of `ref` as it was. */
  lemma StepKeepsEntry(env: Env, s: State, c: Call, ref: Reference)
    requires !(c.CallPull? && c.ref == ref && PullSucceeds(env, s, ref, c.fetch))
    ensures GetImage(Step(env, s, c).images, ref) == GetImage(s.images, ref)
  {
  }

  /** Dropping the last call of a history keeps what earlier calls met. */
  lemma PrefixPulledAt(env: Env, s: State, calls: seq<Call>, ref: Reference, i: nat)
    requires i < |calls| - 1
    ensures PulledAt(env, s, calls, ref, i) == PulledAt(env, s, calls[..|calls| - 1], ref, i)
    ensures PulledAt(env, s, calls, ref, i) ==>
      PulledTarget(env, s, calls, ref, i) == PulledTarget(env, s, calls[..|calls| - 1], ref, i)
  {
    assert calls[..|calls| - 1][..i] == calls[..i];
  }

  /**
   * The cache entry of a reference is the target of the LAST successful
   * pull of that exact reference in the history (last write wins).
   */
  lemma {:induction false} LastSuccessfulPullWins(env: Env, s: State, calls: seq<Call>, ref: Reference, i: nat)
    requires i < |calls| && PulledAt(env, s, calls, ref, i)
    requires forall j :: i < j < |calls| ==> !PulledAt(env, s, calls, ref, j)
    ensures GetImage(Run(env, s, calls).images, ref) == Ok(PulledTarget(env, s, calls, ref, i))
    decreases |calls|
  {
    var n := |calls| - 1;
    var prefix := calls[..n];
    if i == n {
      PullThenImage(env, Run(env, s, prefix), ref, calls[n].fetch);
    } else {
      PrefixPulledAt(env, s, calls, ref, i);
      forall j | i < j < |prefix|
        ensures !PulledAt(env, s, prefix, ref, j)
      {
        PrefixPulledAt(env, s, calls, ref, j);
      }
      LastSuccessfulPullWins(env, s, prefix, ref, i);
      assert !PulledAt(env, s, calls, ref, n);
      assert calls[..n] == prefix;
      StepKeepsEntry(env, Run(env, s, prefix), calls[n], ref);
    }
  }

  /** Without a successful pull of `ref`, the entry of `ref` is what it was at the start. */
  lemma {:induction false} NoPullKeepsEntry(env: Env, s: State, calls: seq<Call>, ref: Reference)
    requires forall j :: 0 <= j < |calls| ==> !PulledAt(env, s, calls, ref, j)
    ensures GetImage(Run(env, s, calls).images, ref) == GetImage(s.images, ref)
    decreases |calls|
  {
    if calls != [] {
      var n := |calls| - 1;
      var prefix := calls[..n];
      forall j | 0 <= j < |prefix|
        ensures !PulledAt(env, s, prefix, ref, j)
      {
        PrefixPulledAt(env, s, calls, ref, j);
      }
      NoPullKeepsEntry(env, s, prefix, ref);
      assert !PulledAt(env, s, calls, ref, n);
      assert calls[..n] == prefix;
      StepKeepsEntry(env, Run(env, s, prefix), calls[n], ref);
    }
  }

  /** From a new provider, `Image(ref)` is ErrNotFound until some pull of `ref` succeeds. */
  lemma NotFoundBeforeFirstPull(env: Env, calls: seq<Call>, ref: Reference)
    requires forall j :: 0 <= j < |calls| ==> !PulledAt(env, Initial(), calls, ref, j)
    ensures GetImage(Run(env, Initial(), calls).images, ref) == Err(ErrNotFound)
  {
    NoPullKeepsEntry(env, Initial(), calls, ref);
  }

  /** Cache entries are overwritten but never removed. */
  lemma {:induction false} EntriesNeverRemoved(env: Env, s: State, calls: seq<Call>)
    ensures s.images.Keys <= Run(env, s, calls).images.Keys
    decreases |calls|
  {
    if calls != [] {
      EntriesNeverRemoved(env, s, calls[..|calls| - 1]);
    }
  }

  /** The plain-HTTP flag is set after a history exactly when it was set before or the history calls UsePlainHTTP. */
  lemma {:induction false} PlainHTTPFlag(env: Env, s: State, calls: seq<Call>)
    ensures Run(env, s, calls).usePlainHTTP <==>
      s.usePlainHTTP || exists j :: 0 <= j < |calls| && calls[j].CallUsePlainHTTP?
    decreases |calls|
  {
    if calls != [] {
      var n := |calls| - 1;
      var prefix := calls[..n];
      PlainHTTPFlag(env, s, prefix);
      if exists j :: 0 <= j < |prefix| && prefix[j].CallUsePlainHTTP? {
        var j :| 0 <= j < |prefix| && prefix[j].CallUsePlainHTTP?;
        assert calls[j].CallUsePlainHTTP?;
      }
      if exists j :: 0 <= j < |calls| && calls[j].CallUsePlainHTTP? {
        var j :| 0 <= j < |calls| && calls[j].CallUsePlainHTTP?;
        if j < n {
          assert prefix[j].CallUsePlainHTTP?;
        }
      }
    }
  }

  /**
   * A history with no pull and no UsePlainHTTP (Resolver, Push, Image,
   * ContentStore only) changes nothing. Each step is the identity by the
   * definition of `Step`; what guarantees it of the object is that
   * LocalProvider's Resolver, Push, Image and ContentStore have no
   * `modifies` clause.
   */
  lemma {:induction false} ReadOnlyCallsChangeNothing(env: Env, s: State, calls: seq<Call>)
    requires forall j :: 0 <= j < |calls| ==> !calls[j].CallPull? && !calls[j].CallUsePlainHTTP?
    ensures Run(env, s, calls) == s
    decreases |calls|
  {
    if calls != [] {
      ReadOnlyCallsChangeNothing(env, s, calls[..|calls| - 1]);
    }
  }
}
