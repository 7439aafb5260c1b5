/** The DSharpPlus bridge object handed to the Lavalink runtime. */
module ClientWrapper {
  import opened Wrappers
  import opened Entities
  import opened ChannelUsers
  import opened Readiness
  import opened VoiceEvents

  /** Wraps a DSharpPlus client. Its state is the readiness task's result and the
      record of every payload it has handed to the gateway. */
  class DiscordClientWrapper {
    /** The result of the readiness completion source: None until it is set. */
    var ready: Option<ClientInformation>
    /** The payloads passed to the client's SendPayloadAsync, oldest first. */
    var sentPayloads: seq<GatewayPayload>

    constructor ()
      ensures ready == None && sentPayloads == []
    {
      ready := None;
      sentPayloads := [];
    }

    /** GetChannelUsersAsync; `getChannel` answers the client's GetChannelAsync. */
    method GetChannelUsers(
      guildId: uint64,
      voiceChannelId: uint64,
      includeBots: bool,
      cancelled: bool,
      getChannel: uint64 -> ChannelLookup)
      returns (r: Cancellable<seq<uint64>>)
      ensures cancelled ==> r == Cancelled
      ensures !cancelled && !getChannel(voiceChannelId).Found? ==> r == Completed([])
      ensures !cancelled && getChannel(voiceChannelId).Found? ==>
                r == Completed(KeptIds(getChannel(voiceChannelId).users, includeBots))
    {
      if cancelled {
        return Cancelled;
      }
      match getChannel(voiceChannelId)
      case NotFound =>
        return Completed([]);
      case Failed =>
        // the DiscordException is logged and swallowed
        return Completed([]);
      case Found(users) =>
        var ids := FilterUsers(users, includeBots);
        return Completed(ids);
    }

    /** SendVoiceUpdateAsync: a voice-state-update payload for the guild, sent on its shard. */
    method SendVoiceUpdate(
      guildId: uint64,
      voiceChannelId: Option<uint64>,
      selfDeaf: bool,
      selfMute: bool,
      cancelled: bool)
      returns (r: Cancellable<()>)
      modifies this`sentPayloads
      ensures r.Cancelled? <==> cancelled
      ensures cancelled ==> sentPayloads == old(sentPayloads)
      ensures !cancelled ==> sentPayloads == old(sentPayloads) + [GatewayPayload(
                VoiceStateUpdate, VoiceStateUpdatePayloadOf(guildId, voiceChannelId, selfDeaf, selfMute), guildId)]
    {
      if cancelled {
        return Cancelled;
      }
      var payload := VoiceStateUpdatePayloadOf(guildId, voiceChannelId, selfDeaf, selfMute);
      sentPayloads := sentPayloads + [GatewayPayload(VoiceStateUpdate, payload, guildId)];
      return Completed(());
    }

    /** WaitForReadyAsync: cancellation first, then the readiness task. */
    method WaitForReady(cancelled: bool) returns (r: Cancellable<ReadyState>)
      ensures cancelled ==> r == Cancelled
      ensures !cancelled && ready.None? ==> r == Completed(Pending)
      ensures !cancelled && ready.Some? ==> r == Completed(Ready(ready.value))
    {
      r := AwaitReady(ready, cancelled);
    }

    /** OnGuildDownloadCompleted: sets the readiness result unless it is already set. */
    method OnGuildDownloadCompleted(currentUserId: uint64, connectedShardCount: int)
      modifies this`ready
      ensures ready == TrySetResult(old(ready), ClientInformationOf(currentUserId, connectedShardCount))
      ensures old(ready).Some? ==> ready == old(ready)
      ensures old(ready).None? ==> ready == Some(ClientInformation("DSharpPlus", currentUserId, connectedShardCount))
    {
      ready := TrySetResult(ready, ClientInformationOf(currentUserId, connectedShardCount));
    }
  }

  /** Two completions with different identities, then a wait: the waiter sees the first one. */
  method FirstCompletionWins(u1: uint64, n1: int, u2: uint64, n2: int)
  {
    var client := new DiscordClientWrapper();
    var early := client.WaitForReady(false);
    assert early == Completed(Pending);
    client.OnGuildDownloadCompleted(u1, n1);
    client.OnGuildDownloadCompleted(u2, n2);
    var late := client.WaitForReady(false);
    assert late == Completed(Ready(ClientInformation("DSharpPlus", u1, n1)));
    var cancelled := client.WaitForReady(true);
    assert cancelled == Cancelled;
  }
}
