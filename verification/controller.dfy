/**
 The controller end to end: an informer notification becomes a queue call, the
 dequeued key is synced, and the sync's outcome decides whether the key is
 forgotten or requeued with backoff.
 */
module Controller {
  import opened ApiTypes
  import opened Sync
  import opened Worker

  /** The reconcile step as the worker sees it, for a fixed cache and write outcome. */
  function SyncOutcomeOf(split: KeySplitter, cache: Cache, writeErr: Option<ApiError>): string -> SyncOutcome
  {
    key => SyncHandler(key, split, cache, writeErr).outcome
  }

  /** A dequeued key is requeued with backoff exactly when its lookup failed with an
      error other than not-found, or its status write failed; a malformed key, a
      deleted object, a missing spec name and a successful write all end in `Forget`. */
  lemma RequeueExactlyOnRetryableError(key: string, split: KeySplitter, cache: Cache, writeErr: Option<ApiError>)
    ensures var r := ProcessNextWorkItem(Item(KeyItem(key)), SyncOutcomeOf(split, cache, writeErr));
            var res := Resolve(key, split, cache);
            var retryable :=
              || (res.Some? && res.value.Failure? && res.value.error != NotFound)
              || (res.Some? && res.value.Success? && res.value.value.spec.name != "" && writeErr.Some?);
            && r.more
            && r.synced == [key]
            && (r.calls == [AddRateLimited(KeyItem(key)), Done(KeyItem(key))] <==> retryable)
            && (r.calls == [Forget(KeyItem(key)), Done(KeyItem(key))] <==> !retryable)
  {
    SyncErrorsAreRetryable(key, split, cache, writeErr);
  }

  /** A created object whose key splits back to its own coordinates, whose spec names
      something and whose write succeeds: the add notification enqueues its key, the
      worker syncs it and forgets it, and the sync looks the object up, writes its
      status as a mirror of its spec and records one Synced event. */
  lemma CreatedObjectIsSynced<T>(notified: T, keyFunc: T -> Option<string>, split: KeySplitter, cache: Cache, sr: SampleResource)
    requires keyFunc(notified).Some?
    requires split(keyFunc(notified).value) == Some((sr.meta.namespace, sr.meta.name))
    requires (sr.meta.namespace, sr.meta.name) in cache && cache[(sr.meta.namespace, sr.meta.name)] == Success(sr)
    requires sr.spec.name != ""
    ensures var key := keyFunc(notified).value;
            var item := KeyItem(key);
            var s := SyncHandler(key, split, cache, None);
            && OnAdd(notified, keyFunc) == [AddRateLimited(item)]
            && ProcessNextWorkItem(Item(item), SyncOutcomeOf(split, cache, None)).calls == [Forget(item), Done(item)]
            && s.outcome == Synced
            && s.effects == [Lookup(sr.meta.namespace, sr.meta.name),
                             Update(sr.meta.namespace, sr.(status := SampleResourceStatus(sr.spec.name))),
                             Event(sr, "Normal", "Synced", "Sample synced successfully")]
  {
  }

  /** A key whose object has been deleted from the cache is synced without error,
      with no write and no event, and is not requeued. */
  lemma DeletedObjectIsForgotten(key: string, split: KeySplitter, cache: Cache, writeErr: Option<ApiError>)
    requires split(key).Some? && split(key).value !in cache
    ensures var s := SyncHandler(key, split, cache, writeErr);
            && s.outcome == Skipped(NoLongerExists)
            && s.effects == [Lookup(split(key).value.0, split(key).value.1)]
            && ProcessNextWorkItem(Item(KeyItem(key)), SyncOutcomeOf(split, cache, writeErr)).calls
               == [Forget(KeyItem(key)), Done(KeyItem(key))]
  {
  }

  /** A status write rejected with a conflict is returned as the sync's error, records
      no event, and puts the key back through the rate limiter. */
  lemma ConflictIsRequeued(key: string, split: KeySplitter, cache: Cache)
    requires Resolve(key, split, cache).Some? && Resolve(key, split, cache).value.Success?
    requires Resolve(key, split, cache).value.value.spec.name != ""
    ensures var s := SyncHandler(key, split, cache, Some(Conflict));
            && s.outcome == Failed(Conflict)
            && Only(s.effects, EventKind) == []
            && ProcessNextWorkItem(Item(KeyItem(key)), SyncOutcomeOf(split, cache, Some(Conflict))).calls
               == [AddRateLimited(KeyItem(key)), Done(KeyItem(key))]
  {
  }

  /** A key whose status write conflicts is requeued with backoff; when the worker
      takes the same key again and the write now succeeds, the key is forgotten. */
  lemma RetriedKeyIsForgottenOnceSynced(key: string, split: KeySplitter, cache: Cache)
    requires Resolve(key, split, cache).Some? && Resolve(key, split, cache).value.Success?
    requires Resolve(key, split, cache).value.value.spec.name != ""
    ensures var item := KeyItem(key);
            var turns := [Step(Item(item), SyncOutcomeOf(split, cache, Some(Conflict))),
                          Step(Item(item), SyncOutcomeOf(split, cache, None))];
            && WorkerSpec(turns).calls == [AddRateLimited(item), Done(item), Forget(item), Done(item)]
            && WorkerSpec(turns).synced == [key, key]
  {
    ConflictIsRequeued(key, split, cache);
    SyncErrorsAreRetryable(key, split, cache, None);
    RetryAfterFailure(key, SyncOutcomeOf(split, cache, Some(Conflict)), SyncOutcomeOf(split, cache, None));
  }
}
