/**
 The reconcile step for one work-queue key: `syncHandler` and
 `updateSampleResourceStatus` of controller.go. Collaborators the controller
 only calls are parameters: the key splitter (client-go's
 `SplitMetaNamespaceKey`), the lister's cached view (a map) and the outcome
 the API server gives the status write. Everything the step does to the
 outside world is returned as a trace of effects.
 */
module Sync {
  import opened ApiTypes

  /** Event type, reason and message of the audit event recorded after a successful write. */
  const EventTypeNormal := "Normal"
  const SuccessSynced := "Synced"
  const MessageResourceSynced := "Sample synced successfully"

  /** The lister's view: what `Get` on (namespace, name) answers. A pair that is
      absent from the map is an object the cache does not hold. */
  type Cache = map<(string, string), Result<SampleResource, ApiError>>

  /** Splits a key back into (namespace, name); `None` for a malformed key. */
  type KeySplitter = string -> Option<(string, string)>

  datatype Effect =
    | Lookup(namespace: string, name: string)
    | Update(namespace: string, obj: SampleResource)
    | Event(obj: SampleResource, eventType: string, reason: string, message: string)
  {
    function Kind(): EffectKind
    {
      match this
      case Lookup(_, _) => LookupKind
      case Update(_, _) => UpdateKind
      case Event(_, _, _, _) => EventKind
    }
  }

  datatype EffectKind = LookupKind | UpdateKind | EventKind

  /** Why a sync finished without doing anything; `syncHandler` returns nil for all three. */
  datatype SkipReason = InvalidKey | NoLongerExists | MissingSpecName

  /** Synced and Skipped are `syncHandler` returning nil, Failed its returning an error. */
  datatype SyncOutcome = Synced | Skipped(why: SkipReason) | Failed(err: ApiError)
  {
    predicate IsError()
    {
      Failed?
    }
  }

  datatype SyncRun = SyncRun(outcome: SyncOutcome, effects: seq<Effect>)

  /** The effects of one kind, in order. */
  function Only(effects: seq<Effect>, k: EffectKind): seq<Effect>
  {
    if effects == [] then []
    else (if effects[0].Kind() == k then [effects[0]] else []) + Only(effects[1..], k)
  }

  /** `Only` on the three traces a sync can produce past its lookup: the lookup alone,
      lookup then write, and lookup, write, event. */
  lemma OnlyLookupTrace(l: Effect)
    requires l.Lookup?
    ensures Only([l], LookupKind) == [l] && Only([l], UpdateKind) == [] && Only([l], EventKind) == []
  {
  }

  lemma OnlySyncTraces(l: Effect, w: Effect, e: Effect)
    requires l.Lookup? && w.Update? && e.Event?
    ensures Only([l], LookupKind) == [l] && Only([l], UpdateKind) == [] && Only([l], EventKind) == []
    ensures Only([l, w], LookupKind) == [l] && Only([l, w], UpdateKind) == [w] && Only([l, w], EventKind) == []
    ensures Only([l, w, e], LookupKind) == [l] && Only([l, w, e], UpdateKind) == [w] && Only([l, w, e], EventKind) == [e]
  {
    OnlyLookupTrace(l);
    assert [w][1..] == [] && [e][1..] == [];
    assert [l, w][1..] == [w] && [w, e][1..] == [e] && [l, w, e][1..] == [w, e];
    assert Only([w], UpdateKind) == [w] && Only([w], LookupKind) == [] && Only([w], EventKind) == [];
    assert Only([e], EventKind) == [e] && Only([e], LookupKind) == [] && Only([e], UpdateKind) == [];
    assert Only([w, e], LookupKind) == [] && Only([w, e], UpdateKind) == [w] && Only([w, e], EventKind) == [e];
  }

  /** The lister's answer for (namespace, name). */
  function Get(cache: Cache, namespace: string, name: string): Result<SampleResource, ApiError>
  {
    if (namespace, name) in cache then cache[(namespace, name)] else Failure(NotFound)
  }

  /** What looking up `key` yields: `None` when the key does not split, otherwise the lister's answer. */
  function Resolve(key: string, split: KeySplitter, cache: Cache): Option<Result<SampleResource, ApiError>>
  {
    match split(key)
    case None => None
    case Some(nn) => Some(Get(cache, nn.0, nn.1))
  }

  /** The audit event recorded against the cached object after a successful write. */
  function SyncedEvent(sr: SampleResource): Effect
  {
    Event(sr, EventTypeNormal, SuccessSynced, MessageResourceSynced)
  }

  /** The object sent to the API server: a copy of the cached object whose status mirrors its spec. */
  function UpdatedCopy(sr: SampleResource): (copy: SampleResource)
    ensures SameExceptStatus(copy, sr)
    ensures copy.status.name == sr.spec.name
    ensures Reconciled(copy)
    ensures Reconciled(sr) ==> copy == sr
  {
    sr.(status := DesiredStatus(sr.spec))
  }

  /** `updateSampleResourceStatus`: one status write of the updated copy, into the
      object's own namespace, whose outcome is the API server's answer. */
  function UpdateSampleResourceStatus(sr: SampleResource, writeErr: Option<ApiError>): (r: (Effect, Option<ApiError>))
    ensures r.0.Update? && r.0.namespace == sr.meta.namespace
    ensures SameExceptStatus(r.0.obj, sr) && r.0.obj.status.name == sr.spec.name
    ensures r.1 == writeErr
  {
    (Update(sr.meta.namespace, UpdatedCopy(sr)), writeErr)
  }

  /** `syncHandler`: reconcile the object named by `key`. */
  function SyncHandler(key: string, split: KeySplitter, cache: Cache, writeErr: Option<ApiError>): (r: SyncRun)
    // A malformed key is dropped: success, and no lookup, write or event.
    ensures split(key).None? ==> r.outcome == Skipped(InvalidKey) && r.effects == []
    // Otherwise the cache is consulted exactly once, first, under the split coordinates.
    ensures split(key).Some? ==>
              && |r.effects| > 0
              && r.effects[0] == Lookup(split(key).value.0, split(key).value.1)
              && Only(r.effects, LookupKind) == [r.effects[0]]
    // A failed lookup does nothing more; not-found is success, any other error is returned.
    ensures Resolve(key, split, cache).Some? && Resolve(key, split, cache).value.Failure? ==>
              && |r.effects| == 1
              && var e := Resolve(key, split, cache).value.error;
                 r.outcome == if e == NotFound then Skipped(NoLongerExists) else Failed(e)
    // An object without a spec name is left alone.
    ensures Resolve(key, split, cache).Some? && Resolve(key, split, cache).value.Success?
            && Resolve(key, split, cache).value.value.spec.name == "" ==>
              r.outcome == Skipped(MissingSpecName) && |r.effects| == 1
    // Otherwise exactly one status write of the updated copy is issued, whatever the current status.
    ensures Resolve(key, split, cache).Some? && Resolve(key, split, cache).value.Success?
            && Resolve(key, split, cache).value.value.spec.name != "" ==>
              var sr := Resolve(key, split, cache).value.value;
              Only(r.effects, UpdateKind) == [Update(sr.meta.namespace, UpdatedCopy(sr))]
    // A write happens only in that case.
    ensures Only(r.effects, UpdateKind) != [] ==>
              && Resolve(key, split, cache).Some?
              && Resolve(key, split, cache).value.Success?
              && Resolve(key, split, cache).value.value.spec.name != ""
    // The Synced event is recorded exactly once, after the write, if and only if the write succeeded.
    ensures r.outcome == Synced <==> Only(r.effects, UpdateKind) != [] && writeErr.None?
    ensures r.outcome == Synced ==>
              && r.effects[|r.effects| - 1] == SyncedEvent(Resolve(key, split, cache).value.value)
              && Only(r.effects, EventKind) == [r.effects[|r.effects| - 1]]
    ensures r.outcome != Synced ==> Only(r.effects, EventKind) == []
    // A failed write is returned as the sync's error.
    ensures Only(r.effects, UpdateKind) != [] && writeErr.Some? ==> r.outcome == Failed(writeErr.value)
  {
    match split(key)
    case None => SyncRun(Skipped(InvalidKey), [])
    case Some(nn) =>
      var lookup := Lookup(nn.0, nn.1);
      match Get(cache, nn.0, nn.1)
      case Failure(e) =>
        OnlyLookupTrace(lookup);
        SyncRun(if e == NotFound then Skipped(NoLongerExists) else Failed(e), [lookup])
      case Success(sr) =>
        OnlySyncTraces(lookup, Update(sr.meta.namespace, UpdatedCopy(sr)), SyncedEvent(sr));
        if sr.spec.name == "" then
          SyncRun(Skipped(MissingSpecName), [lookup])
        else
          var (write, err) := UpdateSampleResourceStatus(sr, writeErr);
          match err
          case Some(e) => SyncRun(Failed(e), [lookup, write])
          case None => SyncRun(Synced, [lookup, write, SyncedEvent(sr)])
  }

  /** A sync returns an error exactly when the lookup failed for a reason other than
      not-found, or the status write was issued and failed; every other path is success. */
  lemma SyncErrorsAreRetryable(key: string, split: KeySplitter, cache: Cache, writeErr: Option<ApiError>)
    ensures var r := SyncHandler(key, split, cache, writeErr);
            var res := Resolve(key, split, cache);
            r.outcome.IsError() <==>
              || (res.Some? && res.value.Failure? && res.value.error != NotFound)
              || (res.Some? && res.value.Success? && res.value.value.spec.name != "" && writeErr.Some?)
  {
  }

  /** Whatever a sync writes is the cached object with only its status replaced by the
      spec's name, sent to the object's own namespace; spec and metadata are never written. */
  lemma SyncWritesOnlyStatus(key: string, split: KeySplitter, cache: Cache, writeErr: Option<ApiError>)
    ensures var r := SyncHandler(key, split, cache, writeErr);
            forall e :: e in r.effects && e.Update? ==>
              && Resolve(key, split, cache).Some?
              && Resolve(key, split, cache).value.Success?
              && var sr := Resolve(key, split, cache).value.value;
                 && e.namespace == sr.meta.namespace
                 && SameExceptStatus(e.obj, sr)
                 && e.obj.status.name == sr.spec.name
  {
  }

  /** The write is unconditional: an object whose status already mirrors its spec is
      written again unchanged, with no short-circuit for the no-op case. */
  lemma SyncRewritesReconciledObject(key: string, split: KeySplitter, cache: Cache, writeErr: Option<ApiError>)
    requires Resolve(key, split, cache).Some? && Resolve(key, split, cache).value.Success?
    requires var sr := Resolve(key, split, cache).value.value;
             sr.spec.name != "" && Reconciled(sr)
    ensures var sr := Resolve(key, split, cache).value.value;
            Only(SyncHandler(key, split, cache, writeErr).effects, UpdateKind) == [Update(sr.meta.namespace, sr)]
  {
  }

  /** Re-syncing after a successful sync, once the cache holds the object that was
      written, issues the very same write again and, when it succeeds, records the
      Synced event again: the status value is a deterministic function of the spec. */
  lemma ResyncRepeatsSameWrite(key: string, split: KeySplitter, cache: Cache, writeErr: Option<ApiError>, writeErr': Option<ApiError>)
    requires SyncHandler(key, split, cache, writeErr).outcome == Synced
    ensures var r := SyncHandler(key, split, cache, writeErr);
            var written := Only(r.effects, UpdateKind)[0].obj;
            var r' := SyncHandler(key, split, cache[split(key).value := Success(written)], writeErr');
            && Only(r'.effects, UpdateKind) == Only(r.effects, UpdateKind)
            && (writeErr'.None? <==> r'.outcome == Synced)
            && (writeErr'.None? ==> Only(r'.effects, EventKind) == [SyncedEvent(written)])
  {
  }
}
