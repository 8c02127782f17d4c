/**
  The vc-mover guild settings: the stored row, the table it lives in, and the
  wrapper that exposes a guild's row through the reactive entity wrapper.
*/
module GuildSettings {
  import opened Wrappers
  import opened Snowflakes
  import opened CacheEntity

  /** A `VcMoverGuildSettings` row; `guildId` is its primary key. */
  datatype VcMoverGuildSettings = VcMoverGuildSettings(guildId: Snowflake, isEnabled: bool)

  /** A partial row, as `updateEntity` takes it: a field left `None` is not changed. */
  datatype SettingsUpdate = SettingsUpdate(guildId: Option<Snowflake>, isEnabled: Option<bool>)

  /** The key function the settings synchronizer is built with: `({guildId}) => guildId`. */
  function SyncKey(row: VcMoverGuildSettings): (key: Snowflake)
    ensures key == row.guildId
  {
    row.guildId
  }

  /** The `isEnabled` getter over a wrapper's entity: `entity?.isEnabled ?? false`. */
  function IsEnabled(entity: Option<VcMoverGuildSettings>): (enabled: bool)
    ensures entity.None? ==> !enabled
    ensures entity.Some? ==> enabled == entity.value.isEnabled
  {
    match entity
    case None => false
    case Some(row) => row.isEnabled
  }

  /** `createDefaultEntity`: the row a guild gets before it has one of its own. */
  function CreateDefaultEntity(guildId: Snowflake): (row: VcMoverGuildSettings)
    ensures SyncKey(row) == guildId
    ensures !IsEnabled(Some(row))
  {
    VcMoverGuildSettings(guildId, false)
  }

  /** `updateEntity(update)`: the fields named in `update` laid over the entity, or over the default row when there is none. */
  function ApplyUpdate(entity: Option<VcMoverGuildSettings>, guildId: Snowflake, update: SettingsUpdate): (row: VcMoverGuildSettings)
    ensures IsEnabled(Some(row)) == (if update.isEnabled.Some? then update.isEnabled.value else IsEnabled(entity))
    ensures update.guildId.Some? ==> SyncKey(row) == update.guildId.value
    ensures update.guildId.None? && (entity.Some? ==> SyncKey(entity.value) == guildId) ==> SyncKey(row) == guildId
    ensures entity.Some? && update == SettingsUpdate(None, None) ==> row == entity.value
    ensures entity.None? && update == SettingsUpdate(None, None) ==> row == CreateDefaultEntity(guildId)
  {
    var row := match entity case Some(r) => r case None => CreateDefaultEntity(guildId);
    VcMoverGuildSettings(
      match update.guildId case Some(g) => g case None => row.guildId,
      match update.isEnabled case Some(b) => b case None => row.isEnabled)
  }

  /** The update the `isEnabled` setter requests names `isEnabled` and nothing else. */
  function EnabledUpdate(value: bool): (update: SettingsUpdate)
    ensures update.guildId.None? && update.isEnabled == Some(value)
  {
    SettingsUpdate(None, Some(value))
  }

  /**
    Setting `isEnabled` makes the getter return the value set and keeps the row's
    key: the row of a guild with no row yet is the default row with the flag set.
  */
  lemma {:induction false} SetEnabledEffect(entity: Option<VcMoverGuildSettings>, guildId: Snowflake, value: bool)
    requires entity.Some? ==> SyncKey(entity.value) == guildId
    ensures IsEnabled(Some(ApplyUpdate(entity, guildId, EnabledUpdate(value)))) == value
    ensures SyncKey(ApplyUpdate(entity, guildId, EnabledUpdate(value))) == guildId
    ensures entity.None? ==> ApplyUpdate(entity, guildId, EnabledUpdate(value)) == CreateDefaultEntity(guildId).(isEnabled := value)
  {
    var update := EnabledUpdate(value);
  }

  /** One write issued to the settings table. */
  datatype StoreOp = Upserted(key: Snowflake, row: VcMoverGuildSettings) | Deleted(key: Snowflake)

  /** The outcome of a write: the table raises "record not found" when deleting a missing row. */
  datatype WriteOutcome = Written | RecordNotFound

  /** The `vcMoverGuildSettings` table of the store, with the writes issued to it. */
  class SettingsStore {
    var rows: map<Snowflake, VcMoverGuildSettings>
    var ops: seq<StoreOp>

    ghost predicate Valid()
      reads this
    {
      forall key :: key in rows ==> SyncKey(rows[key]) == key
    }

    constructor (rows: map<Snowflake, VcMoverGuildSettings>)
      requires forall key :: key in rows ==> SyncKey(rows[key]) == key
      ensures Valid() && this.rows == rows && ops == []
    {
      this.rows := rows;
      ops := [];
    }

    /** `findUnique({where: {guildId: key}})`; `null` when there is no row. */
    function FindUnique(key: Snowflake): (row: Option<VcMoverGuildSettings>)
      reads this
      requires Valid()
      ensures row.None? <==> key !in rows
      ensures row.Some? ==> row.value == rows[key] && SyncKey(row.value) == key
    {
      if key in rows then Some(rows[key]) else None
    }

    /** `upsert({where: {guildId: key}, create, update})` */
    method Upsert(key: Snowflake, create: VcMoverGuildSettings, update: VcMoverGuildSettings)
      requires Valid() && SyncKey(create) == key && SyncKey(update) == key
      modifies this
      ensures Valid()
      ensures rows == old(rows)[key := if key in old(rows) then update else create]
      ensures ops == old(ops) + [Upserted(key, if key in old(rows) then update else create)]
    {
      var row := if key in rows then update else create;
      rows := rows[key := row];
      ops := ops + [Upserted(key, row)];
    }

    /** `delete({where: {guildId: key}})` */
    method Delete(key: Snowflake) returns (outcome: WriteOutcome)
      requires Valid()
      modifies this
      ensures Valid()
      ensures outcome == (if key in old(rows) then Written else RecordNotFound)
      ensures rows == old(rows) - {key}
      ensures ops == old(ops) + [Deleted(key)]
    {
      outcome := if key in rows then Written else RecordNotFound;
      rows := rows - {key};
      ops := ops + [Deleted(key)];
    }
  }

  /** A guild's settings: the reactive wrapper over its row, which may be absent. */
  class VcMoverGuildSettingsWrapper {
    /** `guild.id` */
    const guildId: Snowflake
    /** The entity and cache state this wrapper inherits. */
    const base: CacheEntityWrapper<Option<VcMoverGuildSettings>>

    ghost predicate Valid()
      reads base
    {
      base.Valid() && (base.Entity().Some? ==> SyncKey(base.Entity().value) == guildId)
    }

    constructor (guildId: Snowflake, entity: Option<VcMoverGuildSettings>)
      requires entity.Some? ==> SyncKey(entity.value) == guildId
      ensures Valid() && fresh(base) && this.guildId == guildId
      ensures base.entityLog == [entity] && base.IsCached()
    {
      this.guildId := guildId;
      base := new CacheEntityWrapper(entity);
    }

    /** `isEnabled` */
    function Enabled(): (enabled: bool)
      reads base
      requires Valid()
      ensures enabled == IsEnabled(base.Entity())
    {
      IsEnabled(base.Entity())
    }

    /** `updateEntity(update)` of the synchronized wrapper this class extends. */
    method UpdateEntity(update: SettingsUpdate)
      requires Valid() && (update.guildId.Some? ==> update.guildId.value == guildId)
      modifies base
      ensures Valid()
      ensures base.entityLog == old(base.entityLog) + [Some(ApplyUpdate(old(base.Entity()), guildId, update))]
      ensures base.cachedLog == old(base.cachedLog) && base.syncOpen == old(base.syncOpen)
    {
      base.SetEntity(Some(ApplyUpdate(base.Entity(), guildId, update)));
    }

    /** The `isEnabled` setter: requests an update of the `isEnabled` field alone. */
    method SetEnabled(value: bool)
      requires Valid()
      modifies base
      ensures Valid() && Enabled() == value
      ensures base.Entity() == Some(ApplyUpdate(old(base.Entity()), guildId, EnabledUpdate(value)))
      ensures old(base.Entity()).Some? ==> base.Entity() == Some(old(base.Entity()).value.(isEnabled := value))
      ensures base.entityLog == old(base.entityLog) + [base.Entity()]
      ensures base.cachedLog == old(base.cachedLog) && base.syncOpen == old(base.syncOpen)
    {
      SetEnabledEffect(base.Entity(), guildId, value);
      UpdateEntity(EnabledUpdate(value));
    }

    /** One value arriving on this guild's sync stream, which carries only rows keyed by the guild. */
    method Deliver(row: Option<VcMoverGuildSettings>)
      requires Valid() && (row.Some? ==> SyncKey(row.value) == guildId)
      modifies base
      ensures Valid()
      ensures base.cachedLog == old(base.cachedLog) && base.syncOpen == old(base.syncOpen)
      ensures base.entityLog == old(base.entityLog) + (if old(base.syncOpen) then SyncEvents(old(base.Entity()), [row]) else [])
    {
      base.Deliver(row);
    }

    /**
      `save()`: a disabled guild's row is deleted, an enabled guild's entity is
      upserted under its id; exactly one write either way.
    */
    method Save(model: SettingsStore) returns (outcome: WriteOutcome)
      requires Valid() && model.Valid()
      modifies model
      ensures model.Valid()
      ensures !Enabled() ==>
        && model.ops == old(model.ops) + [Deleted(guildId)]
        && model.rows == old(model.rows) - {guildId}
        && outcome == (if guildId in old(model.rows) then Written else RecordNotFound)
      ensures Enabled() ==>
        && base.Entity().Some?
        && model.ops == old(model.ops) + [Upserted(guildId, base.Entity().value)]
        && model.rows == old(model.rows)[guildId := base.Entity().value]
        && outcome == Written
    {
      if !Enabled() {
        outcome := model.Delete(guildId);
        return;
      }
      var row := base.Entity().value;
      model.Upsert(guildId, row, row);
      outcome := Written;
    }
  }
}
