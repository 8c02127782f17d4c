/**
  The `move` command: a request path that validates a move in a fixed order and,
  when every check passes, sends the target a DM and opens a 15-minute
  interaction; and a resolution path that handles the target's reaction.
  Discord is reduced to the facts the command reads from it.
*/
module MoveCommand {
  import opened Wrappers
  import opened Snowflakes

  /** A guild channel; `isVoice` is `instanceof VoiceChannel`. */
  datatype Channel = Channel(id: Snowflake, isVoice: bool)

  /** A guild member (its id is its user's id) and the voice channel it is in. */
  datatype Member = Member(id: Snowflake, voice: Option<Channel>)

  /** What a request invocation reads from the platform and its parsers. */
  datatype RequestFacts = RequestFacts(
    hasGuildContext: bool,                        // context.hasGuildContext()
    settingsEnabled: bool,                        // the guild's settings wrapper's `isEnabled`
    noArguments: bool,                            // context.parser.remain.length === 0, before any parsing
    guildId: Snowflake,                           // context.guild.guild.id
    invoker: Member,                              // context.user, as context.guild.member
    target: Option<Member>,                       // what guildMemberParser parsed
    parsedChannel: Option<Channel>,               // what channelParser parsed
    nothingAfterTarget: bool,                     // parser.remain.length === 0 after a failed channel parse
    connect: map<(Snowflake, Snowflake), bool>,   // (member, channel) -> has CONNECT; absent: permissionsFor gave null
    dmOpened: bool,                               // member.user.createDM() resolved
    dmSent: bool,                                 // the DM request message was sent
    now: int)                                     // dayjs(), in milliseconds

  datatype MoveError =
    | MissingMember              // MissingParameterError 'member to move'
    | SelfMove                   // "You cannot move yourself."
    | TargetNotInVoice           // "... is not in a voice channel of this server."
    | MissingDestination         // MissingParameterError 'destination channel'
    | DestinationNotVoice        // "Specified destination is not a voice channel."
    | PermissionsUnavailable     // hasConnectPermission: permissionsFor gave null
    | InvokerCannotConnect       // "You yourself don't have permission to connect to ..."
    | AlreadyInChannel           // "... already is in ..."
    | AlreadyHasAccess           // "... already has access to ..."
    | DmUnavailable              // createDM rejected
    | DmFailed                   // "Couldn't DM ... the move request to ..."

  /** `MoveCommandCache`: the payload stored with the interaction. */
  datatype MoveCommandCache = MoveCommandCache(userId: Snowflake, destinationGuildId: Snowflake, destinationChannelId: Snowflake)

  datatype ReactionAction = Add | Remove

  /** A reaction listener: wakes the command when `userId` reacts with `emoji` on the DM. */
  datatype ReactionListener = ReactionListener(userId: Snowflake, emoji: string, action: ReactionAction)

  /** The cache entry `createCache` makes, with the listeners armed on it. */
  datatype MoveInteraction = MoveInteraction(expiresAt: int, cache: MoveCommandCache, listeners: seq<ReactionListener>)

  datatype RequestOutcome =
    | Ignored                              // outside a guild, or the mover is disabled there
    | UsageSent                            // no arguments: the syntax help is sent and nothing else
    | Refused(error: MoveError)
    | Requested(interaction: MoveInteraction)

  const Accept: string := "\U{2705}"
  const Reject: string := "\U{274C}"

  /** `dayjs().add(15, 'minutes')`, in milliseconds. */
  const InteractionLifetime: int := 15 * 60 * 1000

  /** `hasConnectPermission`: throws when the channel has no permissions for the member. */
  function HasConnectPermission(connect: map<(Snowflake, Snowflake), bool>, member: Snowflake, channel: Channel): (r: Result<bool, MoveError>)
    ensures r.Err? <==> (member, channel.id) !in connect
    ensures r.Err? ==> r.error == PermissionsUnavailable
    ensures r.Ok? ==> r.value == connect[(member, channel.id)]
  {
    if (member, channel.id) in connect then Ok(connect[(member, channel.id)]) else Err(PermissionsUnavailable)
  }

  /** `getDestination`: the parsed channel, or else the invoker's own voice channel. */
  function GetDestination(f: RequestFacts): (r: Result<Channel, MoveError>)
    ensures r.Ok? ==>
      || (f.parsedChannel == Some(r.value) && r.value.isVoice)
      || (f.parsedChannel.None? && f.nothingAfterTarget && f.invoker.voice == Some(r.value))
    ensures r.Err? ==> r.error == (if f.parsedChannel.Some? then DestinationNotVoice else MissingDestination)
  {
    match f.parsedChannel
    case Some(channel) => if channel.isVoice then Ok(channel) else Err(DestinationNotVoice)
    case None =>
      if f.nothingAfterTarget && f.invoker.voice.Some? then Ok(f.invoker.voice.value) else Err(MissingDestination)
  }

  /**
    The default destination rule: with no channel parsed, the destination is the
    invoker's voice channel exactly when nothing else remains and the invoker is
    in one; otherwise the destination parameter is missing. A parsed channel is
    the destination exactly when it is a voice channel.
  */
  lemma DestinationRule(f: RequestFacts)
    ensures f.parsedChannel.None? ==>
      (GetDestination(f).Ok? <==> f.nothingAfterTarget && f.invoker.voice.Some?)
    ensures f.parsedChannel.None? && GetDestination(f).Ok? ==> GetDestination(f).value == f.invoker.voice.value
    ensures f.parsedChannel.None? && GetDestination(f).Err? ==> GetDestination(f).error == MissingDestination
    ensures f.parsedChannel.Some? ==>
      (GetDestination(f).Ok? <==> f.parsedChannel.value.isVoice)
    ensures f.parsedChannel.Some? && GetDestination(f).Ok? ==> GetDestination(f).value == f.parsedChannel.value
  {
  }

  /** The request is past the settings and usage gates and goes on to validation. */
  predicate Validated(f: RequestFacts) {
    f.hasGuildContext && f.settingsEnabled && !f.noArguments
  }

  const LastStep: nat := 9

  /**
    The checks of a request, in the order the command makes them, and the error
    each raises; each one is consulted only when all before it passed.
  */
  function Check(f: RequestFacts, step: nat): Option<MoveError> {
    match step
    case 1 => if f.target.None? then Some(MissingMember) else None
    case 2 => if f.target.Some? && f.target.value.id == f.invoker.id then Some(SelfMove) else None
    case 3 => if f.target.Some? && f.target.value.voice.None? then Some(TargetNotInVoice) else None
    case 4 => (match GetDestination(f) case Err(e) => Some(e) case Ok(_) => None)
    case 5 =>
      (match GetDestination(f)
       case Err(_) => None
       case Ok(channel) =>
         match HasConnectPermission(f.connect, f.invoker.id, channel)
         case Err(e) => Some(e)
         case Ok(can) => if can then None else Some(InvokerCannotConnect))
    case 6 =>
      (match GetDestination(f)
       case Err(_) => None
       case Ok(channel) => if f.target.Some? && f.target.value.voice == Some(channel) then Some(AlreadyInChannel) else None)
    case 7 =>
      (match GetDestination(f)
       case Err(_) => None
       case Ok(channel) =>
         if f.target.None? then None
         else match HasConnectPermission(f.connect, f.target.value.id, channel)
           case Err(e) => Some(e)
           case Ok(can) => if can then Some(AlreadyHasAccess) else None)
    case 8 => if !f.dmOpened then Some(DmUnavailable) else None
    case 9 => if !f.dmSent then Some(DmFailed) else None
    case _ => None
  }

  /** `step` is the first check that fails. */
  predicate FailsFirst(f: RequestFacts, step: nat) {
    1 <= step <= LastStep && Check(f, step).Some? && forall j :: 1 <= j < step ==> Check(f, j).None?
  }

  /**
    The request path of `execute`. Outside a guild or with the mover disabled it
    does nothing; with no arguments it only sends usage help. Otherwise the first
    failing check decides the error, and when none fails an interaction is opened
    that expires 15 minutes from now, with one listener for each of the two
    answers, armed for the member to move.
  */
  method ExecuteRequest(f: RequestFacts) returns (outcome: RequestOutcome)
    ensures outcome == Ignored <==> !f.hasGuildContext || !f.settingsEnabled
    ensures outcome == UsageSent <==> f.hasGuildContext && f.settingsEnabled && f.noArguments
    ensures outcome.Refused? ==>
      Validated(f) && exists step :: FailsFirst(f, step) && Check(f, step) == Some(outcome.error)
    ensures outcome.Requested? <==> Validated(f) && forall step :: 1 <= step <= LastStep ==> Check(f, step).None?
    ensures outcome.Requested? ==>
      && f.target.Some? && GetDestination(f).Ok?
      && outcome.interaction.expiresAt == f.now + InteractionLifetime
      && outcome.interaction.cache
           == MoveCommandCache(f.target.value.id, f.guildId, GetDestination(f).value.id)
      && outcome.interaction.listeners
           == [ReactionListener(f.target.value.id, Accept, Add), ReactionListener(f.target.value.id, Reject, Add)]
  {
    if !f.hasGuildContext || !f.settingsEnabled {
      return Ignored;
    }
    if f.noArguments {
      return UsageSent;
    }
    if f.target.None? {
      assert FailsFirst(f, 1);
      return Refused(MissingMember);
    }
    var member := f.target.value;
    if member.id == f.invoker.id {
      assert FailsFirst(f, 2);
      return Refused(SelfMove);
    }
    if member.voice.None? {
      assert FailsFirst(f, 3);
      return Refused(TargetNotInVoice);
    }
    var destination := GetDestination(f);
    if destination.Err? {
      assert FailsFirst(f, 4);
      return Refused(destination.error);
    }
    var channel := destination.value;
    var invokerCanConnect := HasConnectPermission(f.connect, f.invoker.id, channel);
    if invokerCanConnect.Err? {
      assert FailsFirst(f, 5);
      return Refused(invokerCanConnect.error);
    }
    if !invokerCanConnect.value {
      assert FailsFirst(f, 5);
      return Refused(InvokerCannotConnect);
    }
    if member.voice == Some(channel) {
      assert FailsFirst(f, 6);
      return Refused(AlreadyInChannel);
    }
    var targetCanConnect := HasConnectPermission(f.connect, member.id, channel);
    if targetCanConnect.Err? {
      assert FailsFirst(f, 7);
      return Refused(targetCanConnect.error);
    }
    if targetCanConnect.value {
      assert FailsFirst(f, 7);
      return Refused(AlreadyHasAccess);
    }
    if !f.dmOpened {
      assert FailsFirst(f, 8);
      return Refused(DmUnavailable);
    }
    if !f.dmSent {
      assert FailsFirst(f, 9);
      return Refused(DmFailed);
    }
    var cache := MoveCommandCache(member.id, f.guildId, channel.id);
    var listeners := [ReactionListener(member.id, Accept, Add), ReactionListener(member.id, Reject, Add)];
    outcome := Requested(MoveInteraction(f.now + InteractionLifetime, cache, listeners));
  }

  /** How the move request was resolved, as the reply words it. */
  datatype Action = Rejected | Accepted | Failed

  /** The effects of the resolution path, in order. */
  datatype ResolutionStep =
    | DeleteRequestMessage                              // context.reaction.message.delete()
    | MoveMember(userId: Snowflake, channelId: Snowflake) // member.voice.setChannel(destination)
    | Reply(action: Action, isSuccess: bool)            // context.sender.send(...)
    | DeleteCache                                       // context.cache.delete()

  /** What the resolution path reports; it reports nothing when deleting the request message rejects. */
  datatype Resolution = DeleteRejected | Resolved(action: Action, isSuccess: bool)

  /**
    The resolution path of `execute`, for the target's reaction `emojiName`.
    `messageDeleted` is whether deleting the request message resolves: when it
    rejects, `execute` stops there. `moveSucceeds` is whether `setChannel`
    resolves, and `replySent` whether the reply does; a rejected reply skips
    deleting the cache. Anything but the accept emoji rejects; an accepted move
    that throws is reported as failed; only an accepted move that went through
    is a success.
  */
  method ExecuteResolution(emojiName: string, cache: MoveCommandCache, messageDeleted: bool, moveSucceeds: bool, replySent: bool)
    returns (resolution: Resolution, steps: seq<ResolutionStep>)
    ensures |steps| >= 1 && steps[0] == DeleteRequestMessage
    ensures !messageDeleted ==> resolution == DeleteRejected && steps == [DeleteRequestMessage]
    ensures messageDeleted ==>
      && resolution.Resolved?
      && (resolution.action == Rejected <==> emojiName != Accept)
      && (resolution.action == Accepted <==> emojiName == Accept && moveSucceeds)
      && (resolution.action == Failed <==> emojiName == Accept && !moveSucceeds)
      && (resolution.isSuccess <==> resolution.action == Accepted)
      && |steps| == 2 + (if emojiName == Accept then 1 else 0) + (if replySent then 1 else 0)
      && steps[|steps| - (if replySent then 2 else 1)] == Reply(resolution.action, resolution.isSuccess)
    ensures MoveMember(cache.userId, cache.destinationChannelId) in steps <==> messageDeleted && emojiName == Accept
    ensures DeleteCache in steps <==> messageDeleted && replySent
    ensures forall i :: 0 <= i < |steps| - 1 ==> steps[i] != DeleteCache
  {
    steps := [DeleteRequestMessage];
    if !messageDeleted {
      return DeleteRejected, steps;
    }
    var isAccepted := emojiName == Accept;
    var action, isSuccess;
    if !isAccepted {
      action := Rejected;
      isSuccess := false;
    } else {
      steps := steps + [MoveMember(cache.userId, cache.destinationChannelId)];
      if moveSucceeds {
        action := Accepted;
        isSuccess := true;
      } else {
        action := Failed;
        isSuccess := false;
      }
    }
    steps := steps + [Reply(action, isSuccess)];
    if replySent {
      steps := steps + [DeleteCache];
    }
    resolution := Resolved(action, isSuccess);
  }

  /** The kinds of context `execute` is called with. */
  datatype ExecutionContext =
    | InitialContext(facts: RequestFacts)
    | ReactionContext(emojiName: string, cache: MoveCommandCache, messageDeleted: bool, moveSucceeds: bool, replySent: bool)
    | OtherContext

  datatype ExecuteOutcome =
    | RequestHandled(request: RequestOutcome)
    | ResolutionHandled(resolution: Resolution, steps: seq<ResolutionStep>)
    | NothingDone

  /** `execute`: the request path runs only for an initial context, the resolution path only for a reaction context. */
  method Execute(context: ExecutionContext) returns (outcome: ExecuteOutcome)
    ensures outcome.RequestHandled? <==> context.InitialContext?
    ensures outcome.ResolutionHandled? <==> context.ReactionContext?
    ensures outcome.ResolutionHandled? ==>
      (outcome.resolution.Resolved? <==> context.messageDeleted)
    ensures outcome.ResolutionHandled? && outcome.resolution.Resolved? ==>
      (outcome.resolution.isSuccess <==> context.emojiName == Accept && context.moveSucceeds)
    ensures outcome.RequestHandled? && outcome.request.Requested? ==>
      outcome.request.interaction.expiresAt == context.facts.now + InteractionLifetime
  {
    match context
    case InitialContext(f) =>
      var request := ExecuteRequest(f);
      outcome := RequestHandled(request);
    case ReactionContext(emojiName, cache, messageDeleted, moveSucceeds, replySent) =>
      var resolution, steps := ExecuteResolution(emojiName, cache, messageDeleted, moveSucceeds, replySent);
      outcome := ResolutionHandled(resolution, steps);
    case OtherContext =>
      outcome := NothingDone;
  }
}
