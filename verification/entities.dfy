/** The records exchanged between the DSharpPlus client and the Lavalink audio runtime. */
module Entities {
  import opened Wrappers

  /** Discord snowflake ids are C# `ulong`s; they are only ever compared. */
  newtype uint64 = x: int | 0 <= x < 0x1_0000_0000_0000_0000

  // ----- What the Lavalink runtime receives -----

  /** The identity published once the gateway has downloaded its guilds. */
  datatype ClientInformation = ClientInformation(clientLabel: string, currentUserId: uint64, shardCount: int)

  /** Where the voice-data connection of a guild must be opened. */
  datatype VoiceServer = VoiceServer(token: string, endpoint: string)

  /** A user's voice presence: no channel id means not connected. */
  datatype VoiceState = VoiceState(voiceChannelId: Option<uint64>, sessionId: Option<string>)

  datatype VoiceServerUpdatedEventArgs = VoiceServerUpdatedEventArgs(guildId: uint64, voiceServer: VoiceServer)

  datatype VoiceStateUpdatedEventArgs = VoiceStateUpdatedEventArgs(
    guildId: uint64,
    userId: uint64,
    isCurrentUser: bool,
    oldVoiceState: VoiceState,
    voiceState: VoiceState)

  // ----- What is sent on the gateway -----

  /** The body of a gateway voice-state-update command; no channel id means leave. */
  datatype VoiceStateUpdatePayload = VoiceStateUpdatePayload(
    guildId: uint64,
    channelId: Option<uint64>,
    isSelfMuted: bool,
    isSelfDeafened: bool)

  /** The only gateway opcode the bridge sends. */
  datatype GatewayOpCode = VoiceStateUpdate

  /** One call of the client's SendPayloadAsync(opCode, payload, guildId). */
  datatype GatewayPayload = GatewayPayload(opCode: GatewayOpCode, payload: VoiceStateUpdatePayload, guildId: uint64)

  // ----- What DSharpPlus hands to the bridge -----

  /** One entry of a voice channel's user list. */
  datatype DiscordMember = DiscordMember(id: uint64, isCurrent: bool, isBot: bool)

  /** The outcome of GetChannelAsync: a channel with its users, `null`, or a thrown DiscordException. */
  datatype ChannelLookup = Found(users: seq<DiscordMember>) | NotFound | Failed

  /** A DSharpPlus voice-state snapshot. */
  datatype DiscordVoiceState = DiscordVoiceState(channelId: Option<uint64>, sessionId: Option<string>)

  /** The arguments of a DSharpPlus voice-server-updated event. */
  datatype DiscordVoiceServerUpdate = DiscordVoiceServerUpdate(guildId: uint64, voiceToken: string, endpoint: string)

  /** The arguments of a DSharpPlus voice-state-updated event; either snapshot and the guild id may be absent. */
  datatype DiscordVoiceStateUpdate = DiscordVoiceStateUpdate(
    guildId: Option<uint64>,
    userId: uint64,
    before: Option<DiscordVoiceState>,
    after: Option<DiscordVoiceState>)
}
