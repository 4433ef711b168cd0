/**
 The controller's side of the rate-limited work queue: `processNextWorkItem`,
 the `runWorker` loop around it, and `enqueueSampleResource` with the informer
 handlers that call it. The queue itself (deduplication, backoff timers) is not
 modelled; only the calls the controller makes on it are recorded, in order.
 */
module Worker {
  import opened ApiTypes
  import opened Sync

  /** An element of the queue. The controller only ever enqueues keys, but the
      queue holds arbitrary values, so a non-string item is possible. */
  datatype QueueItem = KeyItem(key: string) | OtherItem(description: string)

  /** The queue operations the controller can call. `Add` is part of the queue's
      interface even though this controller never calls it. */
  datatype QueueCall =
    | Add(item: QueueItem)
    | AddRateLimited(item: QueueItem)
    | Forget(item: QueueItem)
    | Done(item: QueueItem)

  /** What a call of `Get` returns: the shutdown flag, or the next item. */
  datatype Dequeued = ShutDown | Item(item: QueueItem)

  /** One turn of the worker: what `Get` returned, and how `syncHandler` ends for
      each key at that moment. The cache and the API server's answers may differ
      from one turn to the next, so a key that failed earlier can succeed later. */
  datatype Step = Step(got: Dequeued, sync: string -> SyncOutcome)

  /** One `processNextWorkItem`: the queue calls made, the keys synced, and whether the worker goes on. */
  datatype ItemRun = ItemRun(calls: seq<QueueCall>, synced: seq<string>, more: bool)

  /** A worker's whole run: all queue calls and synced keys, and whether it saw shutdown. */
  datatype WorkerRun = WorkerRun(calls: seq<QueueCall>, synced: seq<string>, stopped: bool)

  /** Decides one dequeued item. `sync` is the reconcile step, reduced to its outcome. */
  function ProcessNextWorkItem(d: Dequeued, sync: string -> SyncOutcome): (r: ItemRun)
    // On shutdown: nothing is synced, no queue call is made, and the worker stops.
    ensures d.ShutDown? <==> !r.more
    ensures d.ShutDown? ==> r.calls == [] && r.synced == []
    // Otherwise exactly two calls on that item: first it is either requeued with backoff
    // or forgotten (never plainly re-added), then it is marked Done.
    ensures d.Item? ==>
              && |r.calls| == 2
              && r.calls == [r.calls[0], Done(d.item)]
              && (r.calls[0] == AddRateLimited(d.item) || r.calls[0] == Forget(d.item))
    // Sync runs exactly for a string item, on that key.
    ensures d.Item? ==> r.synced == if d.item.KeyItem? then [d.item.key] else []
    // The item is requeued exactly when it is a key whose sync failed.
    ensures d.Item? ==> (r.calls[0] == AddRateLimited(d.item) <==> d.item.KeyItem? && sync(d.item.key).IsError())
  {
    match d
    case ShutDown => ItemRun([], [], false)
    case Item(item) =>
      match item
      case OtherItem(_) => ItemRun([Forget(item), Done(item)], [], true)
      case KeyItem(key) =>
        if sync(key).IsError() then
          ItemRun([AddRateLimited(item), Done(item)], [key], true)
        else
          ItemRun([Forget(item), Done(item)], [key], true)
  }

  /** The `runWorker` loop as a reference definition: process the scripted turns
      in order until a `Get` reports shutdown. */
  function WorkerSpec(ds: seq<Step>): WorkerRun
    decreases |ds|
  {
    if ds == [] then WorkerRun([], [], false)
    else
      var step := ProcessNextWorkItem(ds[0].got, ds[0].sync);
      if !step.more then WorkerRun([], [], true)
      else Prepend(step.calls, step.synced, WorkerSpec(ds[1..]))
  }

  /** A run that first makes `calls` and syncs `synced`, then continues as `w`. */
  function Prepend(calls: seq<QueueCall>, synced: seq<string>, w: WorkerRun): WorkerRun
  {
    WorkerRun(calls + w.calls, synced + w.synced, w.stopped)
  }

  /** Before the first step, the whole run is still ahead. */
  lemma WorkerSpecStart(ds: seq<Step>)
    ensures WorkerSpec(ds) == Prepend([], [], WorkerSpec(ds[0..]))
  {
  }

  lemma PrependTwice(c1: seq<QueueCall>, s1: seq<string>, c2: seq<QueueCall>, s2: seq<string>, w: WorkerRun)
    ensures Prepend(c1, s1, Prepend(c2, s2, w)) == Prepend(c1 + c2, s1 + s2, w)
  {
  }

  lemma PrependStopped(c: seq<QueueCall>, s: seq<string>)
    ensures Prepend(c, s, WorkerRun([], [], true)) == WorkerRun(c, s, true)
  {
  }

  /** The reference definition on a non-empty script, unfolded once. */
  lemma WorkerSpecUnfold(t: seq<Step>)
    requires t != []
    ensures var step := ProcessNextWorkItem(t[0].got, t[0].sync);
            WorkerSpec(t) ==
              if step.more then Prepend(step.calls, step.synced, WorkerSpec(t[1..])) else WorkerRun([], [], true)
  {
  }

  /** One step of the loop: the turn either contributes its calls and keys and the
      run continues with the rest, or its `Get` reported shutdown and the run ends. */
  lemma WorkerSpecStep(ds: seq<Step>, i: nat, calls: seq<QueueCall>, synced: seq<string>)
    requires i < |ds|
    requires WorkerSpec(ds) == Prepend(calls, synced, WorkerSpec(ds[i..]))
    ensures var step := ProcessNextWorkItem(ds[i].got, ds[i].sync);
            && (step.more ==>
                  WorkerSpec(ds) == Prepend(calls + step.calls, synced + step.synced, WorkerSpec(ds[i + 1..])))
            && (!step.more ==> WorkerSpec(ds) == WorkerRun(calls, synced, true))
  {
    var tail := ds[i..];
    assert tail[0] == ds[i] && tail[1..] == ds[i + 1..];
    WorkerSpecUnfold(tail);
    var step := ProcessNextWorkItem(ds[i].got, ds[i].sync);
    if step.more {
      PrependTwice(calls, synced, step.calls, step.synced, WorkerSpec(ds[i + 1..]));
    } else {
      PrependStopped(calls, synced);
    }
  }

  /** Running out of turns leaves nothing more to do. */
  lemma WorkerSpecEnd(ds: seq<Step>, i: nat, calls: seq<QueueCall>, synced: seq<string>)
    requires i == |ds|
    requires WorkerSpec(ds) == Prepend(calls, synced, WorkerSpec(ds[i..]))
    ensures WorkerSpec(ds) == WorkerRun(calls, synced, false)
  {
  }

  /** How many items the worker takes before the first shutdown. */
  function Served(ds: seq<Step>): (n: nat)
    ensures n <= |ds|
  {
    if ds == [] || ds[0].got.ShutDown? then 0 else 1 + Served(ds[1..])
  }

  /** `Served` is the position of the first shutdown: every earlier answer is an item. */
  lemma {:induction false} ServedIsFirstShutdown(ds: seq<Step>)
    ensures forall i :: 0 <= i < Served(ds) ==> ds[i].got.Item?
    ensures Served(ds) < |ds| ==> ds[Served(ds)].got.ShutDown?
  {
    if ds != [] && ds[0].got.Item? {
      ServedIsFirstShutdown(ds[1..]);
      forall i | 0 < i < Served(ds)
        ensures ds[i].got.Item?
      {
        assert ds[i] == ds[1..][i - 1];
      }
    }
  }

  /** The keys among the dequeued items, in order. */
  function KeysOf(ds: seq<Step>): seq<string>
  {
    if ds == [] then []
    else (if ds[0].got.Item? && ds[0].got.item.KeyItem? then [ds[0].got.item.key] else []) + KeysOf(ds[1..])
  }

  /** Number of `Done` calls in a trace. */
  function DoneCount(calls: seq<QueueCall>): nat
  {
    if calls == [] then 0 else (if calls[0].Done? then 1 else 0) + DoneCount(calls[1..])
  }

  lemma {:induction false} DoneCountAppend(a: seq<QueueCall>, b: seq<QueueCall>)
    ensures DoneCount(a + b) == DoneCount(a) + DoneCount(b)
  {
    if a != [] {
      assert (a + b)[0] == a[0];
      assert (a + b)[1..] == a[1..] + b;
      DoneCountAppend(a[1..], b);
    } else {
      assert a + b == b;
    }
  }

  /** Every item taken before shutdown is marked Done exactly once, and the worker
      stops exactly when some `Get` reported shutdown. */
  lemma {:induction false} WorkerMarksEachItemDone(ds: seq<Step>)
    ensures DoneCount(WorkerSpec(ds).calls) == Served(ds)
    ensures WorkerSpec(ds).stopped <==> Served(ds) < |ds|
  {
    if ds != [] {
      var step := ProcessNextWorkItem(ds[0].got, ds[0].sync);
      if step.more {
        WorkerMarksEachItemDone(ds[1..]);
        DoneCountAppend(step.calls, WorkerSpec(ds[1..]).calls);
        assert step.calls == [step.calls[0], Done(ds[0].got.item)];
        assert step.calls[1..] == [Done(ds[0].got.item)];
        assert [Done(ds[0].got.item)][1..] == [];
      }
    }
  }

  /** Sync runs on exactly the keys dequeued before shutdown, in order: nothing is
      synced after the worker has seen shutdown. */
  lemma {:induction false} WorkerSyncsServedKeys(ds: seq<Step>)
    ensures WorkerSpec(ds).synced == KeysOf(ds[..Served(ds)])
  {
    if ds != [] {
      if ds[0].got.Item? {
        var n := Served(ds[1..]);
        WorkerSyncsServedKeys(ds[1..]);
        var served := ds[..1 + n];
        assert served[0] == ds[0] && served[1..] == ds[1..][..n];
        assert KeysOf(served) == ProcessNextWorkItem(ds[0].got, ds[0].sync).synced + KeysOf(ds[1..][..n]);
      } else {
        assert ds[..Served(ds)] == [];
      }
    }
  }

  /** Whether the item of turn `t` is requeued: it is a key whose sync failed on that turn. */
  predicate FailedOnTurn(t: Step)
  {
    t.got.Item? && t.got.item.KeyItem? && t.sync(t.got.item.key).IsError()
  }

  /** Calls `2 * i` and `2 * i + 1` of a run are the decision on turn `t`'s item:
      requeue with backoff exactly when it failed on that turn, forget it otherwise,
      then mark it Done. */
  predicate TurnDecided(t: Step, calls: seq<QueueCall>, i: nat)
  {
    && t.got.Item?
    && 2 * i + 1 < |calls|
    && calls[2 * i + 1] == Done(t.got.item)
    && (calls[2 * i] == AddRateLimited(t.got.item) <==> FailedOnTurn(t))
    && (calls[2 * i] == Forget(t.got.item) <==> !FailedOnTurn(t))
  }

  /** Turn by turn, each item taken before shutdown is requeued with backoff exactly
      when its own sync on that turn failed, is forgotten otherwise, and is then marked
      Done; those two calls per item are all the calls, and plain `Add` is never one. */
  lemma {:induction false} WorkerDecidesEachTurn(ds: seq<Step>)
    ensures |WorkerSpec(ds).calls| == 2 * Served(ds)
    ensures forall i :: 0 <= i < Served(ds) ==> TurnDecided(ds[i], WorkerSpec(ds).calls, i)
    ensures forall c :: c in WorkerSpec(ds).calls ==> !c.Add?
  {
    if ds != [] && ds[0].got.Item? {
      var step := ProcessNextWorkItem(ds[0].got, ds[0].sync);
      var rest := WorkerSpec(ds[1..]);
      var calls := WorkerSpec(ds).calls;
      WorkerDecidesEachTurn(ds[1..]);
      assert calls == step.calls + rest.calls;
      forall i | 0 <= i < Served(ds)
        ensures TurnDecided(ds[i], calls, i)
      {
        if i > 0 {
          assert ds[i] == ds[1..][i - 1];
          assert TurnDecided(ds[1..][i - 1], rest.calls, i - 1);
          assert calls[2 * i] == rest.calls[2 * (i - 1)];
          assert calls[2 * i + 1] == rest.calls[2 * (i - 1) + 1];
        }
      }
    }
  }

  /** A key that fails on one turn is requeued; taken again on a later turn where its
      sync succeeds, it is forgotten. */
  lemma RetryAfterFailure(key: string, failing: string -> SyncOutcome, passing: string -> SyncOutcome)
    requires failing(key).IsError() && !passing(key).IsError()
    ensures var item := KeyItem(key);
            var turns := [Step(Item(item), failing), Step(Item(item), passing)];
            && WorkerSpec(turns).calls == [AddRateLimited(item), Done(item), Forget(item), Done(item)]
            && WorkerSpec(turns).synced == [key, key]
  {
    var item := KeyItem(key);
    var turns := [Step(Item(item), failing), Step(Item(item), passing)];
    assert turns[1..][1..] == [];
    WorkerSpecUnfold(turns[1..]);
    WorkerSpecUnfold(turns);
  }

  /** `runWorker`: call `processNextWorkItem` until it returns false. The queue is
      given as the sequence of turns its `Get` calls answer; running out of them
      stands for a `Get` that is still blocked. */
  method RunWorker(ds: seq<Step>) returns (calls: seq<QueueCall>, synced: seq<string>, stopped: bool)
    ensures WorkerRun(calls, synced, stopped) == WorkerSpec(ds)
  {
    calls, synced, stopped := [], [], false;
    var i := 0;
    WorkerSpecStart(ds);
    while i < |ds| && !stopped
      invariant 0 <= i <= |ds|
      invariant !stopped ==> WorkerSpec(ds) == Prepend(calls, synced, WorkerSpec(ds[i..]))
      invariant stopped ==> WorkerSpec(ds) == WorkerRun(calls, synced, true)
      decreases |ds| - i, !stopped
    {
      var step := ProcessNextWorkItem(ds[i].got, ds[i].sync);
      WorkerSpecStep(ds, i, calls, synced);
      if step.more {
        calls := calls + step.calls;
        synced := synced + step.synced;
        i := i + 1;
      } else {
        stopped := true;
      }
    }
    if !stopped {
      WorkerSpecEnd(ds, i, calls, synced);
    }
  }

  /** `enqueueSampleResource`: derive the object's key; on failure drop the
      notification, otherwise requeue the key through the rate limiter. */
  function EnqueueSampleResource<T>(obj: T, keyFunc: T -> Option<string>): (calls: seq<QueueCall>)
    ensures keyFunc(obj).None? <==> calls == []
    ensures keyFunc(obj).Some? ==> calls == [AddRateLimited(KeyItem(keyFunc(obj).value))]
    ensures forall c :: c in calls ==> c.AddRateLimited?
  {
    match keyFunc(obj)
    case None => []
    case Some(key) => [AddRateLimited(KeyItem(key))]
  }

  /** The informer's add handler: the added object's key, when it has one, is queued
      through the rate limiter. */
  function OnAdd<T>(obj: T, keyFunc: T -> Option<string>): (calls: seq<QueueCall>)
    ensures keyFunc(obj).None? ==> calls == []
    ensures keyFunc(obj).Some? ==> calls == [AddRateLimited(KeyItem(keyFunc(obj).value))]
  {
    EnqueueSampleResource(obj, keyFunc)
  }

  /** The informer's update handler: the new object's key is queued; the old object
      plays no part. */
  function OnUpdate<T>(oldObj: T, newObj: T, keyFunc: T -> Option<string>): (calls: seq<QueueCall>)
    ensures keyFunc(newObj).None? ==> calls == []
    ensures keyFunc(newObj).Some? ==> calls == [AddRateLimited(KeyItem(keyFunc(newObj).value))]
  {
    EnqueueSampleResource(newObj, keyFunc)
  }
}
