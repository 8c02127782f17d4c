/**
  The cache of guild settings wrappers: fetch-or-create over a key-to-wrapper
  table, with each wrapper fed by its guild's sync stream until it is uncached.
*/
module GuildSettingsManager {
  import opened Wrappers
  import opened Snowflakes
  import opened CacheFlag
  import opened CacheEntity
  import opened GuildSettings

  /** The steps `fetch` and the uncache handler it installs take, in the order taken. */
  datatype ManagerStep =
    | GetSyncStream(key: Snowflake)     // synchronizer.getSyncStream(id)
    | FindUnique(key: Snowflake)        // model.findUnique({where: {guildId: id}})
    | FetchGuild(key: Snowflake)        // guildManager.fetch(id)
    | SubscribeUncache(key: Snowflake)  // wrapper.afterUncache.subscribe(...)
    | CacheWrapper(key: Snowflake)      // this.cacheWrapper(id, wrapper)
    | RemoveSyncStream(key: Snowflake)  // synchronizer.removeSyncStream(id)

  /** The awaited calls of `fetch` that can reject, and so make it throw. */
  datatype FetchError = FindUniqueRejected | GuildFetchRejected

  class VcMoverGuildSettingsManager {
    /** `prisma.vcMoverGuildSettings` */
    const model: SettingsStore
    /** `this.cache`: the wrappers registered so far, by guild id. */
    var cache: map<Snowflake, VcMoverGuildSettingsWrapper>
    /** The keys the synchronizer holds a per-key sync stream for. */
    var syncStreams: set<Snowflake>
    var trace: seq<ManagerStep>

    ghost function Bases(): (bases: set<object>)
      reads this
    {
      set id | id in cache :: cache[id].base
    }

    /**
      Every wrapper is registered under its own guild id and owns its own state,
      and a registered key has a sync stream exactly while its wrapper is still
      cached. A key with no wrapper may hold a stream a failed `fetch` left.
    */
    ghost predicate Valid()
      reads this, model, Bases()
    {
      && model.Valid()
      && (forall id :: id in cache ==> cache[id].guildId == id && cache[id].Valid())
      && (forall a, b :: a in cache && b in cache && a != b ==> cache[a].base != cache[b].base)
      && (forall id :: id in cache ==> (id in syncStreams <==> cache[id].base.IsCached()))
    }

    constructor (model: SettingsStore)
      requires model.Valid()
      ensures Valid() && this.model == model
      ensures cache == map[] && syncStreams == {} && trace == []
    {
      this.model := model;
      cache := map[];
      syncStreams := {};
      trace := [];
    }

    /**
      `fetch(id)`. A hit returns the registered wrapper and touches neither the
      store nor the synchronizer. A miss takes the sync stream first, then loads
      the row (a missing row gives an empty entity) and the guild, and registers
      and returns a new wrapper. `rowLoaded` and `guildLoaded` say whether those
      two awaited calls resolve; when one rejects, `fetch` throws, nothing is
      registered, and the stream already taken stays with the synchronizer.
    */
    method Fetch(id: Snowflake, rowLoaded: bool, guildLoaded: bool) returns (r: Result<VcMoverGuildSettingsWrapper, FetchError>)
      requires Valid()
      modifies this
      ensures Valid()
      ensures r.Ok? <==> old(id in cache) || (rowLoaded && guildLoaded)
      ensures r.Ok? ==> id in cache && cache[id] == r.value && r.value.guildId == id
      ensures old(id in cache) ==>
        && r == Ok(old(cache[id]))
        && cache == old(cache) && syncStreams == old(syncStreams) && trace == old(trace)
      ensures old(id !in cache) && rowLoaded && guildLoaded ==>
        && fresh(r.value) && fresh(r.value.base)
        && cache == old(cache)[id := r.value]
        && r.value.base.entityLog == [model.FindUnique(id)] && r.value.base.IsCached()
        && syncStreams == old(syncStreams) + {id}
        && trace == old(trace) + [GetSyncStream(id), FindUnique(id), FetchGuild(id), SubscribeUncache(id), CacheWrapper(id)]
      ensures old(id !in cache) && !rowLoaded ==>
        && r == Err(FindUniqueRejected)
        && cache == old(cache) && syncStreams == old(syncStreams) + {id}
        && trace == old(trace) + [GetSyncStream(id), FindUnique(id)]
      ensures old(id !in cache) && rowLoaded && !guildLoaded ==>
        && r == Err(GuildFetchRejected)
        && cache == old(cache) && syncStreams == old(syncStreams) + {id}
        && trace == old(trace) + [GetSyncStream(id), FindUnique(id), FetchGuild(id)]
    {
      if id in cache {
        return Ok(cache[id]);
      }
      // A registered key keeps its stream state; `id` is not registered.
      assert forall k :: k in cache ==> (k in syncStreams + {id} <==> k in syncStreams);
      syncStreams := syncStreams + {id};
      if !rowLoaded {
        trace := trace + [GetSyncStream(id), FindUnique(id)];
        return Err(FindUniqueRejected);
      }
      var entity := model.FindUnique(id);
      if !guildLoaded {
        trace := trace + [GetSyncStream(id), FindUnique(id), FetchGuild(id)];
        return Err(GuildFetchRejected);
      }
      var w := new VcMoverGuildSettingsWrapper(id, entity);
      cache := cache[id := w];
      trace := trace + [GetSyncStream(id), FindUnique(id), FetchGuild(id), SubscribeUncache(id), CacheWrapper(id)];
      r := Ok(w);
    }

    /**
      Uncaching the wrapper registered under `id`. The handler `fetch` subscribed
      to its `afterUncache` removes the sync stream of that id, and of no other,
      on the first uncache only.
    */
    method Uncache(id: Snowflake)
      requires Valid() && id in cache
      modifies this, cache[id].base
      ensures Valid() && cache == old(cache)
      ensures !cache[id].base.IsCached()
      ensures cache[id].base.entityLog == old(cache[id].base.entityLog)
      ensures cache[id].base.cachedLog == old(cache[id].base.cachedLog) + [false]
      ensures old(cache[id].base.IsCached()) ==>
        syncStreams == old(syncStreams) - {id} && trace == old(trace) + [RemoveSyncStream(id)]
      ensures !old(cache[id].base.IsCached()) ==>
        syncStreams == old(syncStreams) && trace == old(trace)
    {
      var w := cache[id];
      // `fetch` subscribed the handler right after construction, when the log was `[true]`.
      var before := Notified(w.base.cachedLog, 1);
      w.base.Uncache();
      if Notified(w.base.cachedLog, 1) > before {
        syncStreams := syncStreams - {id};
        trace := trace + [RemoveSyncStream(id)];
      }
    }

    /**
      A change to `row` reaching the synchronizer: it goes to the stream of the
      row's key, if there is one, and so to the wrapper registered under it.
    */
    method Publish(row: VcMoverGuildSettings)
      requires Valid()
      modifies if SyncKey(row) in cache then {cache[SyncKey(row)].base} else {}
      ensures Valid()
      ensures cache == old(cache) && syncStreams == old(syncStreams) && trace == old(trace)
      ensures SyncKey(row) in old(syncStreams) && SyncKey(row) in cache ==>
        cache[SyncKey(row)].base.entityLog
          == old(cache[SyncKey(row)].base.entityLog) + SyncEvents(old(cache[SyncKey(row)].base.Entity()), [Some(row)])
      ensures SyncKey(row) in cache ==>
        && cache[SyncKey(row)].base.cachedLog == old(cache[SyncKey(row)].base.cachedLog)
        && cache[SyncKey(row)].base.syncOpen == old(cache[SyncKey(row)].base.syncOpen)
      ensures SyncKey(row) !in old(syncStreams) && SyncKey(row) in cache ==>
        cache[SyncKey(row)].base.entityLog == old(cache[SyncKey(row)].base.entityLog)
    {
      var key := SyncKey(row);
      if key in syncStreams && key in cache {
        cache[key].Deliver(Some(row));
      }
    }
  }
}
