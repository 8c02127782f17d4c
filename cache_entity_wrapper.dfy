/**
  The reactive wrapper: holds the current entity, takes values from a sync
  stream through a structural-equality filter, and drops the sync subscription
  once it is uncached.
*/
module CacheEntity {
  import opened CacheFlag

  /**
    What the filtered sync subscription pushes into the entity subject when the
    sync stream delivers `deliveries` in order, starting from entity `current`:
    a value is dropped when it equals the entity at the moment it arrives.
  */
  function SyncEvents<T(==)>(current: T, deliveries: seq<T>): (events: seq<T>)
    ensures |events| <= |deliveries|
    ensures forall i :: 0 <= i < |events| ==> events[i] in deliveries
  {
    if deliveries == [] then []
    else if deliveries[0] == current then SyncEvents(current, deliveries[1..])
    else [deliveries[0]] + SyncEvents(deliveries[0], deliveries[1..])
  }

  /** The entity after `events` were pushed onto an entity `current`. */
  function Latest<T>(current: T, events: seq<T>): T {
    if events == [] then current else events[|events| - 1]
  }

  /** No event repeats the entity it replaces. */
  predicate Coalesced<T(==)>(current: T, events: seq<T>) {
    (events != [] ==> events[0] != current) &&
    forall i :: 0 <= i < |events| - 1 ==> events[i] != events[i + 1]
  }

  lemma {:induction false} SyncEventsCoalesced<T>(current: T, deliveries: seq<T>)
    ensures Coalesced(current, SyncEvents(current, deliveries))
  {
    if deliveries != [] {
      var d := deliveries[0];
      if d == current {
        SyncEventsCoalesced(current, deliveries[1..]);
      } else {
        SyncEventsCoalesced(d, deliveries[1..]);
        var rest := SyncEvents(d, deliveries[1..]);
        assert SyncEvents(current, deliveries) == [d] + rest;
      }
    }
  }

  /** Delivering one more value is one more step of the filter from the latest entity. */
  lemma {:induction false} SyncEventsAppend<T>(current: T, deliveries: seq<T>, v: T)
    ensures SyncEvents(current, deliveries + [v])
         == SyncEvents(current, deliveries) + SyncEvents(Latest(current, SyncEvents(current, deliveries)), [v])
  {
    if deliveries == [] {
      assert deliveries + [v] == [v];
    } else {
      var d := deliveries[0];
      assert (deliveries + [v])[0] == d;
      assert (deliveries + [v])[1..] == deliveries[1..] + [v];
      if d == current {
        SyncEventsAppend(current, deliveries[1..], v);
      } else {
        SyncEventsAppend(d, deliveries[1..], v);
        var rest := SyncEvents(d, deliveries[1..]);
        assert Latest(current, [d] + rest) == Latest(d, rest);
      }
    }
  }

  /** A second delivery of the value just delivered adds nothing. */
  lemma {:induction false} RepeatedDeliveryIdle<T>(current: T, deliveries: seq<T>, v: T)
    ensures SyncEvents(current, deliveries + [v, v]) == SyncEvents(current, deliveries + [v])
  {
    SyncEventsAppend(current, deliveries, v);
    assert deliveries + [v, v] == (deliveries + [v]) + [v];
    SyncEventsAppend(current, deliveries + [v], v);
    var events := SyncEvents(current, deliveries);
    var events1 := SyncEvents(current, deliveries + [v]);
    assert Latest(current, events1) == v by {
      if events1 == events {
        assert SyncEvents(Latest(current, events), [v]) == [];
      }
    }
  }

  /** The same value delivered twice in a row yields at most one event. */
  lemma RepeatedDeliveryCoalesced<T>(current: T, deliveries: seq<T>, v: T)
    ensures |SyncEvents(current, deliveries + [v, v])| <= |SyncEvents(current, deliveries)| + 1
  {
    RepeatedDeliveryIdle(current, deliveries, v);
    SyncEventsAppend(current, deliveries, v);
  }

  class CacheEntityWrapper<T(==)> {
    /** Every value `entitySubject` has held, oldest first; the last is `entity`. */
    var entityLog: seq<T>
    /** Every value `isCachedSubject` has held, oldest first. */
    var cachedLog: seq<bool>
    /** The filtered subscription to the sync stream is still open. */
    var syncOpen: bool

    ghost predicate Valid()
      reads this
    {
      |entityLog| >= 1 && ValidLog(cachedLog) && (syncOpen <==> |cachedLog| == 1)
    }

    constructor (entity: T)
      ensures Valid() && IsCached() && syncOpen
      ensures entityLog == [entity] && Entity() == entity
      ensures cachedLog == [true]
    {
      entityLog := [entity];
      cachedLog := [true];
      syncOpen := true;
    }

    /** `entity`. */
    function Entity(): (e: T)
      reads this
      requires Valid()
      ensures e == Latest(entityLog[0], entityLog[1..])
    {
      entityLog[|entityLog| - 1]
    }

    /** `isCached`. */
    function IsCached(): (cached: bool)
      reads this
      requires Valid()
      ensures cached <==> |cachedLog| == 1
      ensures cached <==> syncOpen
    {
      cachedLog[|cachedLog| - 1]
    }

    /**
      `afterEntityChange` as seen by a subscriber taken while the entity log held
      `at` values: everything pushed after it subscribed, without the value that
      was current then.
    */
    function AfterEntityChange(at: nat): (changes: seq<T>)
      reads this
      requires Valid() && 1 <= at <= |entityLog|
      ensures |changes| == |entityLog| - at
      ensures forall i :: 0 <= i < |changes| ==> changes[i] == entityLog[at + i]
    {
      entityLog[at..]
    }

    /** `afterEntityChangeWithInitial`: the same, preceded by the value current at subscription. */
    function AfterEntityChangeWithInitial(at: nat): (changes: seq<T>)
      reads this
      requires Valid() && 1 <= at <= |entityLog|
      ensures changes == [entityLog[at - 1]] + AfterEntityChange(at)
    {
      entityLog[at - 1..]
    }

    /**
      `afterCacheStateChange` as seen by a subscriber taken while the cached log
      held `at` values: only the `false` values later `uncache()` calls push.
    */
    function AfterCacheStateChange(at: nat): (changes: seq<bool>)
      reads this
      requires Valid() && 1 <= at <= |cachedLog|
      ensures |changes| == |cachedLog| - at
      ensures forall i :: 0 <= i < |changes| ==> !changes[i]
    {
      cachedLog[at..]
    }

    /**
      One value arriving on the sync stream. While subscribed it passes the
      equality filter into the entity subject; after `uncache()` it is not seen.
    */
    method Deliver(v: T)
      requires Valid()
      modifies this
      ensures Valid()
      ensures cachedLog == old(cachedLog) && syncOpen == old(syncOpen)
      ensures entityLog == old(entityLog) + (if old(syncOpen) then SyncEvents(old(Entity()), [v]) else [])
      ensures old(syncOpen) && v != old(Entity()) ==> Entity() == v
      ensures !old(syncOpen) || v == old(Entity()) ==> entityLog == old(entityLog)
    {
      if syncOpen && v != Entity() {
        entityLog := entityLog + [v];
      }
    }

    /** The sync stream delivering `deliveries` one after another. */
    method DeliverAll(deliveries: seq<T>)
      requires Valid()
      modifies this
      ensures Valid()
      ensures cachedLog == old(cachedLog) && syncOpen == old(syncOpen)
      ensures entityLog == old(entityLog) + (if old(syncOpen) then SyncEvents(old(Entity()), deliveries) else [])
    {
      var i := 0;
      while i < |deliveries|
        invariant 0 <= i <= |deliveries| && Valid()
        invariant cachedLog == old(cachedLog) && syncOpen == old(syncOpen)
        invariant entityLog == old(entityLog) + (if syncOpen then SyncEvents(old(Entity()), deliveries[..i]) else [])
      {
        ghost var start := old(Entity());
        SyncEventsAppend(start, deliveries[..i], deliveries[i]);
        assert deliveries[..i + 1] == deliveries[..i] + [deliveries[i]];
        Deliver(deliveries[i]);
        i := i + 1;
      }
      assert deliveries[..i] == deliveries;
    }

    /** `setEntity`: pushes the value with no equality filter. */
    method SetEntity(v: T)
      requires Valid()
      modifies this
      ensures Valid()
      ensures entityLog == old(entityLog) + [v] && Entity() == v
      ensures cachedLog == old(cachedLog) && syncOpen == old(syncOpen)
    {
      entityLog := entityLog + [v];
    }

    /**
      `uncache()`: pushes `false`; the `afterCacheStateChange` subscriber then
      closes the sync subscription. The entity is left as it is.
    */
    method Uncache()
      requires Valid()
      modifies this
      ensures Valid() && !IsCached() && !syncOpen
      ensures cachedLog == old(cachedLog) + [false]
      ensures entityLog == old(entityLog)
      ensures forall at :: 1 <= at <= old(|cachedLog|) ==> Notified(cachedLog, at) == 1
      ensures forall at :: 1 <= at <= old(|cachedLog|) ==> AfterCacheStateChange(at) == old(AfterCacheStateChange(at)) + [false]
    {
      cachedLog := cachedLog + [false];
      syncOpen := false;
    }
  }
}
