# ShimBot entity cache, argument cursor and move command, in Dafny

This project models the core of ShimBot, a Discord bot:

- its **entity cache layer**: a non-reactive wrapper that is only a one-way "cached" flag with an
  "after uncache" event (`CachedEntityWrapper`); a reactive wrapper that holds an entity, takes
  values from a sync stream through a structural-equality filter and stops listening once uncached
  (`CacheEntityWrapper`); the guild settings wrapper built on it (`VcMoverGuildSettingsWrapper`,
  with its `isEnabled` flag and its `save`); and the fetch-or-create settings cache
  (`VcMoverGuildSettingsManager`);
- the **argument cursor** of a message command (`MessageExecutionContext`) and the default
  parse result (`parser.ts`);
- the decision rules of the **`move` command**: the ordered validation of a move request, the
  default destination, the 15-minute interaction and the accept/reject/failed resolution.

Rx behaviour subjects are modelled by their logs: every value the subject has held, oldest first,
the last one current. A subscriber that subscribes while a log holds `at` values observes
`log[at - 1..]`: the replayed current value, then everything pushed later. The stream operators
the source pipes (`skip`, `filter`, `first`) are functions on these logs (module `CacheFlag`).
State the source updates in place is kept in classes (`CachedEntityWrapper`, `CacheEntityWrapper`,
`SettingsStore`, `VcMoverGuildSettingsManager`, `MessageExecutionContext`). Dafny classes do not
inherit, so the settings wrapper holds its reactive wrapper state in a `base` object. Discord is
reduced to the facts the `move` command reads (`RequestFacts`) and to success flags. Asynchronous
steps run in sequence.

Files: `wrappers.dfy` (Option, Result, Snowflake), `cache_flag.dfy`, `cached_entity_wrapper.dfy`,
`cache_entity_wrapper.dfy`, `guild_settings.dfy`, `guild_settings_manager.dfy`, `parser.dfy`,
`message_execution_context.dfy`, `move_command.dfy`.

Two behaviours of the code are worth stating:

- `fetch` does not merge concurrent fetches of one key. It awaits the store between the cache check
  and the registration, so two overlapping fetches each load and build a wrapper.
- `uncache()` is not guarded. A second call pushes `false` again. It changes no state, but a
  subscriber that subscribed to `afterUncache` between the two calls is notified by the second call.
  A subscriber that subscribes after the last call is never notified, because `skip(1)` drops the
  replayed `false`.

## Model

| member | source | states |
|---|---|---|
| CacheFlag.Falses | src/database/wrapper/CachedEntityWrapper.ts:19 | the filter passes only `false` values and never adds any |
| CacheFlag.FalsesEmpty | src/database/wrapper/CachedEntityWrapper.ts:19 | the filter lets nothing through exactly when every observed value is `true` |
| CacheFlag.First | src/database/wrapper/CachedEntityWrapper.ts:21 | `first()` passes at most one value, the first, and one whenever there is any |
| CacheFlag.AfterUncache | src/database/wrapper/CachedEntityWrapper.ts:16-23 | an `afterUncache` subscriber is notified at most once, and once exactly when a `false` arrives after the replayed initial value |
| CacheFlag.Notified | src/database/wrapper/CachedEntityWrapper.ts:16-27 | a subscriber is notified once exactly when `uncache()` ran after it subscribed; it is never notified for the state it subscribed in, never twice |
| CachedEntity.CachedEntityWrapper.constructor | src/database/wrapper/CachedEntityWrapper.ts:10-14 | a new wrapper is cached and a subscriber taken at once is not notified |
| CachedEntity.CachedEntityWrapper.IsCached | src/database/wrapper/CachedEntityWrapper.ts:12-14 | `isCached` holds exactly until the first `uncache()`; the invariant keeps it false from then on |
| CachedEntity.CachedEntityWrapper.Uncache | src/database/wrapper/CachedEntityWrapper.ts:25-27 | `uncache()` makes `isCached` false, notifies every earlier subscriber once, and does not notify a later one |
| CacheEntity.SyncEvents | src/database/wrapper/CacheEntityWrapper.ts:45-47 | the equality-filtered subscription pushes at most one value per delivery, each one a delivered value |
| CacheEntity.SyncEventsCoalesced | src/database/wrapper/CacheEntityWrapper.ts:45-47 | no pushed value equals the entity it replaces, so no change event repeats the previous value |
| CacheEntity.SyncEventsAppend | src/database/wrapper/CacheEntityWrapper.ts:45-47 | each delivery is filtered against the entity as it is when the delivery arrives |
| CacheEntity.RepeatedDeliveryCoalesced | src/database/wrapper/CacheEntityWrapper.ts:45-47 | the same value delivered twice in a row gives at most one change event |
| CacheEntity.RepeatedDeliveryIdle | src/database/wrapper/CacheEntityWrapper.ts:45-47 | a second delivery of the value just delivered adds no change event |
| CacheEntity.CacheEntityWrapper.constructor | src/database/wrapper/CacheEntityWrapper.ts:42-49 | after construction `entity` is the argument, `isCached` is true and the sync subscription is open |
| CacheEntity.CacheEntityWrapper.Entity | src/database/wrapper/CacheEntityWrapper.ts:20-22 | `entity` is the value the subject holds: the last value pushed, which is the initial value followed by every event |
| CacheEntity.CacheEntityWrapper.IsCached | src/database/wrapper/CacheEntityWrapper.ts:26-28 | `isCached` holds exactly until the first `uncache()`, and exactly while the sync subscription is open |
| CacheEntity.CacheEntityWrapper.AfterEntityChange | src/database/wrapper/CacheEntityWrapper.ts:30-32 | `afterEntityChange` gives every value pushed after subscription, and not the one current at subscription |
| CacheEntity.CacheEntityWrapper.AfterEntityChangeWithInitial | src/database/wrapper/CacheEntityWrapper.ts:34-36 | `afterEntityChangeWithInitial` is the value current at subscription followed by `afterEntityChange` |
| CacheEntity.CacheEntityWrapper.AfterCacheStateChange | src/database/wrapper/CacheEntityWrapper.ts:38-40 | `afterCacheStateChange` skips the state current at subscription and then carries only the `false` each later `uncache()` pushes |
| CacheEntity.CacheEntityWrapper.Deliver | src/database/wrapper/CacheEntityWrapper.ts:45-48 | a sync value equal to the entity is dropped with no event; a different one becomes the entity; after uncache nothing changes |
| CacheEntity.CacheEntityWrapper.DeliverAll | src/database/wrapper/CacheEntityWrapper.ts:45-47 | a run of sync values on an open wrapper appends exactly the filtered events `SyncEvents` of that run to the entity history, and none after uncache |
| CacheEntity.CacheEntityWrapper.SetEntity | src/database/wrapper/CacheEntityWrapper.ts:51-53 | `setEntity` pushes its value with no equality filter |
| CacheEntity.CacheEntityWrapper.Uncache | src/database/wrapper/CacheEntityWrapper.ts:55-57 | `uncache()` makes `isCached` false, closes the sync subscription and leaves the entity as it was; every earlier `afterUncache` subscriber (as assumed under Left out) is notified once, and an `afterCacheStateChange` subscriber receives one `false` per call |
| GuildSettings.SyncKey | src/modules/vcMover/settings/VcMoverGuildSettingsManager.ts:26 | a row is routed to the sync stream of its primary key, `guildId` |
| GuildSettings.ApplyUpdate | src/modules/vcMover/settings/VcMoverGuildSettingsWrapper.ts:18 | the fields an update names take the update's values; an unnamed field keeps the row's value (the default row's when there is none), so the key is kept and an empty update changes nothing |
| GuildSettings.IsEnabled | src/modules/vcMover/settings/VcMoverGuildSettingsWrapper.ts:13-15 | `isEnabled` is false without a row and the row's flag otherwise |
| GuildSettings.CreateDefaultEntity | src/modules/vcMover/settings/VcMoverGuildSettingsWrapper.ts:31-36 | the default row carries the guild's id and is disabled |
| GuildSettings.EnabledUpdate | src/modules/vcMover/settings/VcMoverGuildSettingsWrapper.ts:17-19 | the setter's update names `isEnabled` with the value set and no other field |
| GuildSettings.SetEnabledEffect | src/modules/vcMover/settings/VcMoverGuildSettingsWrapper.ts:14-19 | after the setter's update the getter returns the value set and the row keeps the guild's key; a guild with no row gets the default row with the flag set |
| GuildSettings.SettingsStore.FindUnique | src/modules/vcMover/settings/VcMoverGuildSettingsManager.ts:41 | the lookup by guild id is empty exactly when there is no row, and otherwise returns the row, which is keyed by that id |
| GuildSettings.SettingsStore.Upsert | src/modules/vcMover/settings/VcMoverGuildSettingsWrapper.ts:47-53 | an upsert writes the update over an existing row or creates the row |
| GuildSettings.SettingsStore.Delete | src/modules/vcMover/settings/VcMoverGuildSettingsWrapper.ts:40-44 | a delete removes the row and reports "record not found" when there was none |
| GuildSettings.VcMoverGuildSettingsWrapper.constructor | src/modules/vcMover/settings/VcMoverGuildSettingsWrapper.ts:21-29 | a new settings wrapper holds the loaded row, or none, and is cached |
| GuildSettings.VcMoverGuildSettingsWrapper.Enabled | src/modules/vcMover/settings/VcMoverGuildSettingsWrapper.ts:13-15 | the wrapper's `isEnabled` is the getter applied to its current entity |
| GuildSettings.VcMoverGuildSettingsWrapper.UpdateEntity | src/modules/vcMover/settings/VcMoverGuildSettingsWrapper.ts:18 | an update lays the named fields over the entity, or over the default row, and pushes the result |
| GuildSettings.VcMoverGuildSettingsWrapper.SetEnabled | src/modules/vcMover/settings/VcMoverGuildSettingsWrapper.ts:17-19 | setting `isEnabled` appends exactly one change event, keeping the history, changes that field alone, leaves the cache state as it was, and the getter then returns the value set |
| GuildSettings.VcMoverGuildSettingsWrapper.Deliver | src/modules/vcMover/settings/VcMoverGuildSettingsWrapper.ts:21-29 | the guild's sync stream reaches the entity through the equality filter while the wrapper is cached |
| GuildSettings.VcMoverGuildSettingsWrapper.Save | src/modules/vcMover/settings/VcMoverGuildSettingsWrapper.ts:38-54 | a disabled guild's row is deleted and nothing is upserted; an enabled guild's entity is upserted under its id; exactly one write either way |
| GuildSettingsManager.VcMoverGuildSettingsManager.constructor | src/modules/vcMover/settings/VcMoverGuildSettingsManager.ts:20-28 | a new manager has no wrappers and no sync streams |
| GuildSettingsManager.VcMoverGuildSettingsManager.Fetch | src/modules/vcMover/settings/VcMoverGuildSettingsManager.ts:34-51 | a hit returns the registered wrapper and touches neither store nor synchronizer; a miss takes the sync stream before the load, turns a missing row into an empty entity, and registers and returns the new wrapper; when `findUnique` or `guildManager.fetch` rejects it throws, registers nothing and leaves the stream it took with the synchronizer |
| GuildSettingsManager.VcMoverGuildSettingsManager.Uncache | src/modules/vcMover/settings/VcMoverGuildSettingsManager.ts:48 | uncaching a registered wrapper pushes one `false` onto its cache state and keeps its entity; it removes the sync stream of exactly its id, on the first uncache only |
| GuildSettingsManager.VcMoverGuildSettingsManager.Publish | src/modules/vcMover/settings/VcMoverGuildSettingsManager.ts:23-27 | a changed row goes to the stream keyed by its `guildId`, so only that guild's wrapper sees it, and only while it is cached; its cache state is unchanged |
| Parsers.GenerateDefaultOrNothing | src/modules/command/parsers/parser.ts:39-47 | nothing without a default; with one, that exact value with length 0 |
| MessageContext.Slice | src/modules/command/executionContexts/MessageExecutionContext.ts:25-27 | `slice(start)` is the text from `start` on, and empty once `start` is past the end |
| MessageContext.SliceSlice | src/modules/command/executionContexts/MessageExecutionContext.ts:25-27 | consuming `k` more characters leaves the remaining text without its first `k` characters |
| MessageContext.SumLengthsConcat | src/modules/command/executionContexts/MessageExecutionContext.ts:55-59 | the characters consumed by two runs of results add up |
| MessageContext.DefaultConsumesNothing | src/modules/command/parsers/parser.ts:39-47 | recording a default result leaves the consumed count, and so `parseIndex`, unchanged |
| MessageContext.MessageExecutionContext.constructor | src/modules/command/executionContexts/MessageExecutionContext.ts:15-32 | a new context has index 0, no values and no results, and all of the text remains |
| MessageContext.MessageExecutionContext.RemainingContent | src/modules/command/executionContexts/MessageExecutionContext.ts:25-27 | `remainingContent` is the message text from `parseIndex` on |
| MessageContext.MessageExecutionContext.AddParseResult | src/modules/command/executionContexts/MessageExecutionContext.ts:55-59 | the index moves by exactly the result's length, value and result are stored under the name (a reused name overwrites), and the index stays the sum of all lengths added |
| MessageContext.MessageExecutionContext.ParseNext | src/modules/command/executionContexts/MessageExecutionContext.ts:34-43 | when the parser finds nothing the call fails and index and tables are unchanged; otherwise the result is recorded and its value returned |
| MessageContext.MessageExecutionContext.ParseOptionalNext | src/modules/command/executionContexts/MessageExecutionContext.ts:45-53 | when the parser finds nothing an undefined value of length 0 is recorded and the index does not move |
| MoveCommand.HasConnectPermission | src/modules/vcMover/commands/MoveCommand.ts:161-165 | the CONNECT permission of the member on the channel, or an error when the channel has no permissions for the member |
| MoveCommand.GetDestination | src/modules/vcMover/commands/MoveCommand.ts:168-187 | the destination is either the parsed channel, when it is a voice channel, or, with no channel parsed and nothing left, the invoker's own voice channel; a parsed non-voice channel is the not-voice error and otherwise the parameter is missing |
| MoveCommand.DestinationRule | src/modules/vcMover/commands/MoveCommand.ts:168-187 | with no channel parsed the destination is the invoker's voice channel exactly when nothing remains and the invoker is in voice, else the parameter is missing; a parsed channel is used only when it is a voice channel |
| MoveCommand.ExecuteRequest | src/modules/vcMover/commands/MoveCommand.ts:71-134 | disabled or guildless requests do nothing, argument-less ones only get usage help; otherwise the first failing check in the order member, self, voice, destination, invoker access, already there, already has access, DM decides the error; a request passing all gets an interaction expiring 15 minutes from now with the accept and reject listeners for the target |
| MoveCommand.ExecuteResolution | src/modules/vcMover/commands/MoveCommand.ts:136-158 | the request message is deleted first, and when that delete rejects nothing else happens: no move, no reply, no cache delete; otherwise reject is "rejected" and no success, accept with a move that goes through is "accepted" and a success, accept with a move that throws is "failed", the move is attempted only on accept, the reply carries the action, and the cache is deleted last, only when the reply was sent |
| MoveCommand.Execute | src/modules/vcMover/commands/MoveCommand.ts:68-159 | the request path runs only for an initial context and the resolution path only for a reaction context; a resolution reports an action exactly when the request message was deleted, and success exactly for an accepted move that went through |

## Left out

- The event hub, the synchronizer's internals and its `initialize()` are not part of this model. The synchronizer's per-key stream table is the set `syncStreams`, with `getSyncStream`/`removeSyncStream` as insert/remove. `Publish` routes a changed row by the key function over that table.
- The `CacheManager` base is not part of this model. `cacheWrapper` is a map insert. Whatever the base does with an entry when its wrapper is uncached is not modelled: the entry stays, and a later `Fetch` of that id returns the uncached wrapper.
- `SynchronizedEntityWrapper` is not part of this model. It supplies `updateEntity` and the settings wrapper's `afterUncache`. `UpdateEntity` is modelled as laying the update over `entity ?? createDefaultEntity()` and pushing the result with `setEntity`. `afterUncache` has the same skip/filter/first semantics as in `CachedEntityWrapper`.
- GuildSettingsManager.VcMoverGuildSettingsManager.Uncache: the uncache handler that `fetch` subscribes runs only when the uncache goes through the manager. A wrapper's own `uncache()` cannot call back into the manager here.
- Concurrency: overlapping `fetch` calls are not modelled. Every `await` is a sequential step, and the source does no single-flight merging.
- `resolveIdChecked` is not modelled: `Fetch` takes the guild id. `findUnique` and `guildManager.fetch` are reduced to whether they resolve; a rejection is a `FetchError` value rather than a thrown exception. The guild object is reduced to its id.
- A sync stream's completion or error is forwarded into the entity subject by `subscribe(entitySubject)`. This is not modelled. Only values are.
- The store is a key-to-row map. The "record not found" that `delete` raises on a missing row is a `RecordNotFound` outcome. Queries, the store connection and migrations are not modelled.
- `MessageContext.MessageExecutionContext`: the cursor `parseIndex`, `ParseResult.length` and `Slice` count Unicode characters, not the UTF-16 code units JavaScript's `slice` and string lengths count. On text with characters outside the Basic Multilingual Plane (most emoji) the indices differ, and a slice that splits a surrogate pair cannot be expressed.
- `ParseResult.length` and `parseIndex` are natural numbers. JavaScript's negative or fractional numbers are not modelled. Parser options are bound into the parser function. Parsers are total functions of the remaining text.
- `MoveCommand`: `checkContextValidity` belongs to the command base and is not part of this model, so it is taken to pass. Message texts, `MessageType`s and the usage help's wording are not modelled, and neither is `wrapCacheEntity`. `RequestFacts.settingsEnabled` stands for the `isEnabled` of the wrapper that `fetch` returns. Discord calls are facts or success flags: permissions, the DM's creation and sending, the request message's `delete()`, `setChannel` and the reply's `send`. The confirmation the invoker is sent once the request is out (`context.sender.send` after the interaction is created) is not recorded in `Requested`, and its failure is not modelled. `context.sender.throwError` is taken never to return.
- MoveCommand.ExecuteResolution: a rejected request-message delete or reply ends the path there, but the exception it raises is not modelled, and `context.cache.delete()` is taken to succeed, as it is the last call.
- The command cache is not part of this model: its timer, expiry, listener managers and store persistence. `MoveInteraction` records the deadline, the payload and the armed listeners that `createCache` and `addReactionListener` receive.
- Logging (`src/logger/Logger.ts`) and bootstrap wiring (`src/Bot.ts`, the module classes) are not modelled.
