/**
 * The offline sync queue: a newest-first list of submissions shared by the
 * screens, rewritten by prepend (`addToQueue`), map (`retryItem`) and filter
 * (`clearSynced`). Nothing in the queue's operations ever sets `synced` or
 * `failed`.
 */
module Sync {
  import opened Js

  datatype ItemType = InspectionSubmit | ImageUpload

  datatype Status = Pending | Synced | Failed

  /** One queued submission; `data` is whatever the caller hands in. */
  datatype SyncItem<D> = SyncItem(id: string, kind: ItemType, data: D, timestamp: nat, status: Status)

  /**
   * The item `addToQueue` builds. The id and the timestamp come from two separate
   * readings of the millisecond clock, `idMs` and `stampMs`.
   */
  function NewItem<D>(kind: ItemType, data: D, idMs: nat, stampMs: nat): (it: SyncItem<D>)
    ensures it.status == Pending && it.kind == kind && it.data == data && it.timestamp == stampMs
    ensures it.id == NatToString(idMs)
  {
    SyncItem(NatToString(idMs), kind, data, stampMs, Pending)
  }

  /**
   * `prev.map(item => item.id === id ? { ...item, status: 'pending' } : item)`:
   * every item with that id becomes pending whatever its status was; every
   * other item, the length and the order stay as they were.
   */
  function Retried<D>(q: seq<SyncItem<D>>, id: string): (r: seq<SyncItem<D>>)
    ensures |r| == |q|
    ensures forall i :: 0 <= i < |q| ==>
              r[i] == if q[i].id == id then q[i].(status := Pending) else q[i]
  {
    if q == [] then []
    else [if q[0].id == id then q[0].(status := Pending) else q[0]] + Retried(q[1..], id)
  }

  /** Whether an item survives `clearSynced`. */
  predicate NotSynced<D>(it: SyncItem<D>) {
    it.status != Synced
  }

  /** `prev.filter(item => item.status !== 'synced')`. */
  function WithoutSynced<D>(q: seq<SyncItem<D>>): seq<SyncItem<D>> {
    Filter(q, NotSynced)
  }

  /** No item carries the id. */
  predicate Absent<D>(q: seq<SyncItem<D>>, id: string) {
    forall i :: 0 <= i < |q| ==> q[i].id != id
  }

  predicate AllPending<D>(q: seq<SyncItem<D>>) {
    forall i :: 0 <= i < |q| ==> q[i].status == Pending
  }

  /** Retrying an id that is not queued changes nothing. */
  lemma RetryAbsentIsNoOp<D>(q: seq<SyncItem<D>>, id: string)
    requires Absent(q, id)
    ensures Retried(q, id) == q
  {
  }

  /** Retry does not guard the status it overwrites: a synced item becomes pending again. */
  lemma RetryRevivesSynced<D>(it: SyncItem<D>)
    requires it.status == Synced
    ensures Retried([it], it.id) == [it.(status := Pending)]
  {
  }

  /**
   * `clearSynced` removes exactly the synced items: what remains is in the
   * original relative order, holds no synced item, and holds every other item
   * as many times as before.
   */
  lemma ClearSyncedExact<D>(q: seq<SyncItem<D>>, x: SyncItem<D>)
    ensures Subsequence(WithoutSynced(q), q)
    ensures forall i :: 0 <= i < |WithoutSynced(q)| ==> WithoutSynced(q)[i].status != Synced
    ensures multiset(WithoutSynced(q))[x] == if x.status == Synced then 0 else multiset(q)[x]
  {
    FilterIsSubsequence(q, NotSynced);
    FilterCount(q, NotSynced, x);
  }

  /** `clearSynced` twice is `clearSynced` once. */
  lemma ClearSyncedIdempotent<D>(q: seq<SyncItem<D>>)
    ensures WithoutSynced(WithoutSynced(q)) == WithoutSynced(q)
  {
    FilterIdempotent(q, NotSynced);
  }

  /** A queue with nothing synced in it is left as it is by `clearSynced`. */
  lemma ClearSyncedOfAllPending<D>(q: seq<SyncItem<D>>)
    requires AllPending(q)
    ensures WithoutSynced(q) == q
  {
    FilterKeepsAll(q, NotSynced);
  }

  /** Each operation keeps a queue in which every item is pending. */
  lemma PendingPreserved<D>(q: seq<SyncItem<D>>, kind: ItemType, data: D, idMs: nat, stampMs: nat, id: string)
    requires AllPending(q)
    ensures AllPending([NewItem(kind, data, idMs, stampMs)] + q)
    ensures AllPending(Retried(q, id))
    ensures AllPending(WithoutSynced(q))
  {
    ClearSyncedOfAllPending(q);
  }

  /** Two adds that read the same millisecond give their items the same id. */
  lemma SameMillisecondSameId<D>(q: seq<SyncItem<D>>, k1: ItemType, d1: D, k2: ItemType, d2: D, ms: nat, s1: nat, s2: nat)
    ensures var q2 := [NewItem(k2, d2, ms, s2)] + ([NewItem(k1, d1, ms, s1)] + q);
            q2[0].id == q2[1].id
  {
  }

  /** The queue state cell of the sync provider. */
  class SyncQueue<D> {
    var queue: seq<SyncItem<D>>

    /** Every item is pending: with only these operations, always true. */
    predicate Valid()
      reads this
    {
      AllPending(queue)
    }

    /** The queue starts empty. */
    constructor ()
      ensures queue == [] && Valid()
    {
      queue := [];
    }

    /** `addToQueue(type, data)`: the new pending item goes first; the rest follows unchanged. */
    method AddToQueue(kind: ItemType, data: D, idMs: nat, stampMs: nat)
      requires Valid()
      modifies this
      ensures Valid()
      ensures queue == [NewItem(kind, data, idMs, stampMs)] + old(queue)
    {
      queue := [NewItem(kind, data, idMs, stampMs)] + queue;
    }

    /** `retryItem(id)`: the queue is mapped; no delivery is attempted. */
    method RetryItem(id: string)
      requires Valid()
      modifies this
      ensures Valid()
      ensures queue == Retried(old(queue), id)
    {
      queue := Retried(queue, id);
    }

    /** `clearSynced()`: the queue is filtered. */
    method ClearSynced()
      requires Valid()
      modifies this
      ensures Valid()
      ensures queue == WithoutSynced(old(queue))
    {
      ClearSyncedOfAllPending(queue);
      queue := WithoutSynced(queue);
    }
  }
}
