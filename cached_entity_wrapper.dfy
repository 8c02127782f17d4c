/** The non-reactive wrapper: only a one-way "cached" flag and its uncache event. */
module CachedEntity {
  import opened CacheFlag

  class CachedEntityWrapper {
    /** Every value `isCachedSubject` has held, oldest first. */
    var cachedLog: seq<bool>

    ghost predicate Valid()
      reads this
    {
      ValidLog(cachedLog)
    }

    constructor ()
      ensures Valid() && IsCached()
      ensures cachedLog == [true]
      ensures Notified(cachedLog, 1) == 0
    {
      cachedLog := [true];
    }

    /** `isCached`: true until the first `uncache()`, false from then on. */
    function IsCached(): (cached: bool)
      reads this
      requires Valid()
      ensures cached <==> |cachedLog| == 1
    {
      cachedLog[|cachedLog| - 1]
    }

    /**
      `uncache()` pushes `false` unconditionally. Every subscriber taken before
      the call has now received its single notification; a second call changes
      no state and notifies only subscribers taken in between.
    */
    method Uncache()
      requires Valid()
      modifies this
      ensures Valid() && !IsCached()
      ensures cachedLog == old(cachedLog) + [false]
      ensures forall at :: 1 <= at <= old(|cachedLog|) ==> Notified(cachedLog, at) == 1
      ensures Notified(cachedLog, |cachedLog|) == 0
    {
      cachedLog := cachedLog + [false];
    }
  }
}
