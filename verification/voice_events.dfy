/** Translation of DSharpPlus voice events into Lavalink events, and of Lavalink's
    voice commands into gateway payloads. */
module VoiceEvents {
  import opened Wrappers
  import opened Entities

  /** Why a voice-state event could not be translated (the exception the handler throws). */
  datatype TranslationError =
    | NullAfterSnapshot  // `After.SessionId` read while `After` is null
    | MissingGuildId     // `GuildId!.Value` read while the guild id is null

  // ----- Voice-server updates -----

  /** OnVoiceServerUpdated: token, endpoint and guild id are passed on unchanged. */
  function TranslateVoiceServerUpdate(e: DiscordVoiceServerUpdate): (r: VoiceServerUpdatedEventArgs)
    ensures r.guildId == e.guildId
    ensures r.voiceServer.token == e.voiceToken && r.voiceServer.endpoint == e.endpoint
  {
    VoiceServerUpdatedEventArgs(e.guildId, VoiceServer(e.voiceToken, e.endpoint))
  }

  /** The DSharpPlus event a Lavalink voice-server event stands for. */
  function VoiceServerUpdateOf(a: VoiceServerUpdatedEventArgs): DiscordVoiceServerUpdate {
    DiscordVoiceServerUpdate(a.guildId, a.voiceServer.token, a.voiceServer.endpoint)
  }

  /** The translation loses nothing and invents nothing: it is a bijection. */
  lemma VoiceServerRoundTrip(e: DiscordVoiceServerUpdate, a: VoiceServerUpdatedEventArgs)
    ensures VoiceServerUpdateOf(TranslateVoiceServerUpdate(e)) == e
    ensures TranslateVoiceServerUpdate(VoiceServerUpdateOf(a)) == a
  {
  }

  // ----- Voice-state updates -----

  /** `snapshot?.ChannelId`. */
  function ChannelIdOf(snapshot: Option<DiscordVoiceState>): Option<uint64> {
    if snapshot.Some? then snapshot.value.channelId else None
  }

  /** `Before?.SessionId ?? After.SessionId`: the before snapshot's session id when there is one,
      otherwise the after snapshot's, which must then exist. */
  function ResolveSessionId(before: Option<DiscordVoiceState>, after: Option<DiscordVoiceState>)
    : (r: Result<Option<string>, TranslationError>)
    ensures r.Err? <==> (before.None? || before.value.sessionId.None?) && after.None?
    ensures r.Err? ==> r.error == NullAfterSnapshot
    ensures r.Ok? && before.Some? && before.value.sessionId.Some? ==> r.value == before.value.sessionId
    ensures r.Ok? && (before.None? || before.value.sessionId.None?) ==> r.value == after.value.sessionId
  {
    if before.Some? && before.value.sessionId.Some? then Ok(before.value.sessionId)
    else if after.Some? then Ok(after.value.sessionId)
    else Err(NullAfterSnapshot)
  }

  /** OnVoiceStateUpdated, given the id of the client's current user. */
  function TranslateVoiceStateUpdate(e: DiscordVoiceStateUpdate, currentUserId: uint64)
    : (r: Result<VoiceStateUpdatedEventArgs, TranslationError>)
    ensures r.Ok? <==> ResolveSessionId(e.before, e.after).Ok? && e.guildId.Some?
    ensures r.Err? ==> r.error == if ResolveSessionId(e.before, e.after).Err? then NullAfterSnapshot else MissingGuildId
    ensures r.Ok? ==> r.value.guildId == e.guildId.value && r.value.userId == e.userId
    ensures r.Ok? ==> (r.value.isCurrentUser <==> e.userId == currentUserId)
    ensures r.Ok? ==> r.value.oldVoiceState.sessionId == r.value.voiceState.sessionId
    ensures r.Ok? ==> r.value.voiceState.sessionId == ResolveSessionId(e.before, e.after).value
    ensures r.Ok? ==> r.value.oldVoiceState.voiceChannelId == ChannelIdOf(e.before)
    ensures r.Ok? ==> r.value.voiceState.voiceChannelId == ChannelIdOf(e.after)
  {
    match ResolveSessionId(e.before, e.after)
    case Err(error) => Err(error)
    case Ok(sessionId) =>
      var voiceState := VoiceState(ChannelIdOf(e.after), sessionId);
      var oldVoiceState := VoiceState(ChannelIdOf(e.before), sessionId);
      if e.guildId.None? then Err(MissingGuildId)
      else Ok(VoiceStateUpdatedEventArgs(e.guildId.value, e.userId, e.userId == currentUserId, oldVoiceState, voiceState))
  }

  /** A user leaving voice (no after channel) whose before snapshot carries the session id
      is published as a state with no channel and that same session id, not as an error. */
  lemma DisconnectKeepsBeforeSession(e: DiscordVoiceStateUpdate, currentUserId: uint64)
    requires e.guildId.Some? && e.before.Some? && e.before.value.sessionId.Some?
    requires ChannelIdOf(e.after) == None
    ensures var r := TranslateVoiceStateUpdate(e, currentUserId);
            && r.Ok?
            && r.value.voiceState == VoiceState(None, e.before.value.sessionId)
            && r.value.oldVoiceState == VoiceState(e.before.value.channelId, e.before.value.sessionId)
  {
  }

  /** An event with neither snapshot is not dropped quietly: reading `After.SessionId` fails. */
  lemma NoSnapshotsFailsTranslation(guildId: Option<uint64>, userId: uint64, currentUserId: uint64)
    ensures TranslateVoiceStateUpdate(DiscordVoiceStateUpdate(guildId, userId, None, None), currentUserId)
            == Err(NullAfterSnapshot)
  {
  }

  /** When both snapshots carry a session id, the before one wins, even if they differ. */
  lemma BeforeSessionWins(e: DiscordVoiceStateUpdate, currentUserId: uint64)
    requires e.guildId.Some? && e.before.Some? && e.before.value.sessionId.Some?
    ensures TranslateVoiceStateUpdate(e, currentUserId).Ok?
    ensures TranslateVoiceStateUpdate(e, currentUserId).value.voiceState.sessionId == e.before.value.sessionId
  {
  }

  // ----- Outbound voice commands -----

  /** The payload SendVoiceUpdateAsync builds. Its parameters come deaf-then-mute,
      the payload's fields mute-then-deaf. */
  function VoiceStateUpdatePayloadOf(guildId: uint64, voiceChannelId: Option<uint64>, selfDeaf: bool, selfMute: bool)
    : (p: VoiceStateUpdatePayload)
    ensures p.guildId == guildId
    ensures p.channelId == voiceChannelId
    ensures p.isSelfMuted == selfMute && p.isSelfDeafened == selfDeaf
  {
    VoiceStateUpdatePayload(guildId, voiceChannelId, selfMute, selfDeaf)
  }

  /** Distinct commands give distinct payloads: no argument is lost or merged with another. */
  lemma PayloadDeterminesCommand(
    g1: uint64, c1: Option<uint64>, d1: bool, m1: bool,
    g2: uint64, c2: Option<uint64>, d2: bool, m2: bool)
    requires VoiceStateUpdatePayloadOf(g1, c1, d1, m1) == VoiceStateUpdatePayloadOf(g2, c2, d2, m2)
    ensures g1 == g2 && c1 == c2 && d1 == d2 && m1 == m2
  {
  }

  /** A payload without channel id, which the gateway reads as "leave voice", is sent exactly
      when no channel was given. */
  lemma LeaveIffNoChannel(guildId: uint64, voiceChannelId: Option<uint64>, selfDeaf: bool, selfMute: bool)
    ensures VoiceStateUpdatePayloadOf(guildId, voiceChannelId, selfDeaf, selfMute).channelId.None?
            <==> voiceChannelId.None?
  {
  }
}
