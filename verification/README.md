# Lavalink4NET DSharpPlus bridge, modelled in Dafny

Lavalink4NET's `DiscordClientWrapper` connects a DSharpPlus gateway client to the Lavalink
audio runtime. This model covers the logic of that class once its library calls are taken
as inputs and outputs:

- **Readiness cell** (`readiness.dfy`, `client_wrapper.dfy`). The wrapper keeps a
  completion source. `OnGuildDownloadCompleted` sets it once with the client's identity:
  the label `"DSharpPlus"`, the current user id and the connected shard count. Later
  completions are ignored. `WaitForReady` checks cancellation first. It then answers
  `Pending` (the task is still suspended) or `Ready(info)`. A trace model (`ReadinessCall`
  sequences) states what every waiter observes across many calls.
- **Channel users** (`channel_users.dfy`, `client_wrapper.dfy`). `GetChannelUsers` looks up
  the voice channel. A missing channel (`null`) or a `DiscordException` becomes an empty
  result. Otherwise the `foreach` loop keeps the ids of the members that satisfy
  `!IsCurrent || includeBots || !IsBot`.
- **Event translation** (`voice_events.dfy`). Voice-server and voice-state events from
  DSharpPlus become Lavalink event records. The session id is `Before?.SessionId ??
  After.SessionId`. The code throws in two places: when `After` is dereferenced while null,
  and at `GuildId!.Value` when the guild id is null. Both are modelled as `Err` values.
- **Outbound payload** (`voice_events.dfy`, `client_wrapper.dfy`). `SendVoiceUpdate` checks
  cancellation first. It then records one voice-state-update payload in `sentPayloads`;
  a missing channel id means "leave".

Library calls and how they are modelled:
- The client's `GetChannelAsync` is the parameter `getChannel`. It returns
  `Found(users)`, `NotFound` or `Failed`.
- `SendPayloadAsync` is the append to `sentPayloads`.
- `discordClient.CurrentUser.Id` and the orchestrator's `ConnectedShardCount` are parameters.
- A cancellation token is the flag `cancelled`, read where the code calls
  `ThrowIfCancellationRequested`.
- C# `ulong` ids are the newtype `uint64`.
- The record field `Label` is called `clientLabel`, because `label` is a Dafny keyword.

## The member filter follows the code, not its comment

The comment above the filter condition says the current user is always skipped, and that
bots are skipped unless included. The condition as written keeps every member other than
the current user, bots included. It drops the current user only when that user is a bot and
bots are excluded. The model keeps the condition as written. `CommentRule` states the
comment's rule. `ChannelUsers.CommentRuleIsStricter` and
`ChannelUsers.CodeDisagreesWithComment` show how the two differ. For example, take a channel
with the current (human) user 42, humans 1 and 2, and bot 3, queried without bots. The
comment's rule would give `[1, 2]`. The code gives `[42, 1, 2, 3]`.

Three behaviours one might expect are absent from the code:
- An event with neither a before nor an after snapshot is not dropped quietly. Reading
  `After.SessionId` (DiscordClientWrapper.cs:178) fails, and the model gives
  `Err(NullAfterSnapshot)`.
- `isCurrentUser` compares the event's user with the live client's current user
  (DiscordClientWrapper.cs:193). It does not use the stored readiness identity.
- Sending has no "connection unavailable" error path: the payload is handed to
  `SendPayloadAsync` as it is (DiscordClientWrapper.cs:124-126).

## Model

| member | source | states |
|---|---|---|
| `ChannelUsers.KeptIds` | src/Lavalink4NET.DSharpPlus.Nightly/DiscordClientWrapper.cs:84-96 | the filtered id list is never longer than the channel's user list |
| `ChannelUsers.KeptPositions` | src/Lavalink4NET.DSharpPlus.Nightly/DiscordClientWrapper.cs:86-93 | the kept positions are strictly ascending, each one satisfies the loop condition, and every position that satisfies it is among them |
| `ChannelUsers.FilterUsers` | src/Lavalink4NET.DSharpPlus.Nightly/DiscordClientWrapper.cs:84-96 | the builder loop returns exactly the ids of the members that satisfy the loop condition (not current, or bots included, or not a bot), in channel order |
| `ChannelUsers.KeptIdsMembership` | src/Lavalink4NET.DSharpPlus.Nightly/DiscordClientWrapper.cs:86-93 | an id is in the result iff some member with that id satisfies the condition |
| `ChannelUsers.KeptIdsFollowPositions` | src/Lavalink4NET.DSharpPlus.Nightly/DiscordClientWrapper.cs:84-96 | the k-th result id is the id of the k-th kept member, so the relative order of the input is preserved |
| `ChannelUsers.KeptIdsAppend` | src/Lavalink4NET.DSharpPlus.Nightly/DiscordClientWrapper.cs:86-94 | filtering a concatenation of user lists equals concatenating the filtered lists, so each member is decided on its own |
| `ChannelUsers.NonCurrentUsersAlwaysKept` | src/Lavalink4NET.DSharpPlus.Nightly/DiscordClientWrapper.cs:88-92 | every member other than the current user is kept, bots included, whatever `includeBots` is |
| `ChannelUsers.CurrentUserKeptUnlessExcludedBot` | src/Lavalink4NET.DSharpPlus.Nightly/DiscordClientWrapper.cs:90-92 | the current user is kept when bots are included or it is not a bot |
| `ChannelUsers.DroppedOnlyCurrentExcludedBot` | src/Lavalink4NET.DSharpPlus.Nightly/DiscordClientWrapper.cs:90-93 | an id missing from the result belongs only to the current user, which is then a bot, with bots excluded |
| `ChannelUsers.CommentRuleIsStricter` | src/Lavalink4NET.DSharpPlus.Nightly/DiscordClientWrapper.cs:88-90 | the code keeps every member the comment's rule keeps; the two differ exactly on the current user when it is kept and on non-current bots when bots are excluded |
| `ChannelUsers.CodeDisagreesWithComment` | src/Lavalink4NET.DSharpPlus.Nightly/DiscordClientWrapper.cs:88-92 | a concrete channel where the code returns all four ids and the comment's rule would drop the current user and the bot |
| `ClientWrapper.DiscordClientWrapper.GetChannelUsers` | src/Lavalink4NET.DSharpPlus.Nightly/DiscordClientWrapper.cs:54-97 | a cancelled call fails with cancellation whatever the lookup would give; a null channel or a `DiscordException` gives the empty result; otherwise the filtered ids of the channel named by `voiceChannelId` |
| `ClientWrapper.DiscordClientWrapper.SendVoiceUpdate` | src/Lavalink4NET.DSharpPlus.Nightly/DiscordClientWrapper.cs:101-130 | a cancelled call sends nothing; otherwise exactly one voice-state-update payload is appended to what was sent, addressed to `guildId` |
| `ClientWrapper.DiscordClientWrapper.WaitForReady` | src/Lavalink4NET.DSharpPlus.Nightly/DiscordClientWrapper.cs:133-137 | cancellation wins even when the cell is set; otherwise pending while unset and the stored identity once set |
| `ClientWrapper.DiscordClientWrapper.OnGuildDownloadCompleted` | src/Lavalink4NET.DSharpPlus.Nightly/DiscordClientWrapper.cs:139-151 | the first completion stores label "DSharpPlus", the current user id and the connected shard count; a later completion leaves the stored identity unchanged |
| `ClientWrapper.DiscordClientWrapper.constructor` | src/Lavalink4NET.DSharpPlus.Nightly/DiscordClientWrapper.cs:40-50 | a new wrapper has an unset readiness cell and has sent nothing |
| `Readiness.TrySetResult` | src/Lavalink4NET.DSharpPlus.Nightly/DiscordClientWrapper.cs:149 | after a try-set the cell is always set: an already set cell keeps its value, an unset cell takes the given identity |
| `Readiness.AwaitReady` | src/Lavalink4NET.DSharpPlus.Nightly/DiscordClientWrapper.cs:133-137 | a wait completes iff not cancelled; a ready answer carries exactly the cell's value; pending only while the cell is unset |
| `Readiness.CellIsFirstSignal` | src/Lavalink4NET.DSharpPlus.Nightly/DiscordClientWrapper.cs:144-149 | after any sequence of calls the cell holds the identity of the first guild-download completion (first write wins) |
| `Readiness.ReadyOutcomesMatchCell` | src/Lavalink4NET.DSharpPlus.Nightly/DiscordClientWrapper.cs:133-137 | every wait that saw the cell ready saw the value the cell still holds |
| `Readiness.ReadyOutcomesAgree` | src/Lavalink4NET.DSharpPlus.Nightly/DiscordClientWrapper.cs:133-151 | every waiter that sees readiness sees the first completion's identity, so no two waiters observe different identities |
| `Readiness.NoPendingAfterReady` | src/Lavalink4NET.DSharpPlus.Nightly/DiscordClientWrapper.cs:133-151 | once one wait has seen the cell ready, no later wait is pending |
| `Readiness.WaitAfterSignalIsReady` | src/Lavalink4NET.DSharpPlus.Nightly/DiscordClientWrapper.cs:133-151 | a wait that is not cancelled, issued after a completion, returns the identity of the earliest completion, ignoring later ones |
| `Readiness.WaitBeforeSignalIsPending` | src/Lavalink4NET.DSharpPlus.Nightly/DiscordClientWrapper.cs:133-137 | a wait that is not cancelled, issued before any completion, is pending |
| `VoiceEvents.TranslateVoiceServerUpdate` | src/Lavalink4NET.DSharpPlus.Nightly/DiscordClientWrapper.cs:153-169 | the published event carries the event's guild id, token and endpoint unchanged, token as token and endpoint as endpoint |
| `VoiceEvents.VoiceServerRoundTrip` | src/Lavalink4NET.DSharpPlus.Nightly/DiscordClientWrapper.cs:158-164 | the voice-server translation is a bijection: the raw event can be recovered from the published one and vice versa |
| `VoiceEvents.ResolveSessionId` | src/Lavalink4NET.DSharpPlus.Nightly/DiscordClientWrapper.cs:178 | the before session id when the before snapshot has one, else the after snapshot's; fails iff that fallback finds no after snapshot |
| `VoiceEvents.TranslateVoiceStateUpdate` | src/Lavalink4NET.DSharpPlus.Nightly/DiscordClientWrapper.cs:171-200 | succeeds iff the session id resolves and the guild id is present (the session failure is reported first); old and new states share the resolved session id; their channel ids come from before and after (absent when the snapshot is); `isCurrentUser` iff the user is the current user |
| `VoiceEvents.DisconnectKeepsBeforeSession` | src/Lavalink4NET.DSharpPlus.Nightly/DiscordClientWrapper.cs:178-187 | leaving voice with a session id on the before snapshot publishes a state with no channel and that session id, not an error |
| `VoiceEvents.NoSnapshotsFailsTranslation` | src/Lavalink4NET.DSharpPlus.Nightly/DiscordClientWrapper.cs:178 | an event with neither snapshot fails on the after dereference |
| `VoiceEvents.BeforeSessionWins` | src/Lavalink4NET.DSharpPlus.Nightly/DiscordClientWrapper.cs:178-183 | with a guild id and a before session id the translation succeeds and uses the before session id even if the after one differs |
| `VoiceEvents.VoiceStateUpdatePayloadOf` | src/Lavalink4NET.DSharpPlus.Nightly/DiscordClientWrapper.cs:110-116 | the payload's guild id and channel id are the arguments; `IsSelfMuted` comes from `selfMute` and `IsSelfDeafened` from `selfDeaf`, never swapped |
| `VoiceEvents.PayloadDeterminesCommand` | src/Lavalink4NET.DSharpPlus.Nightly/DiscordClientWrapper.cs:101-116 | equal payloads come from equal arguments: no argument is dropped or merged |
| `VoiceEvents.LeaveIffNoChannel` | src/Lavalink4NET.DSharpPlus.Nightly/DiscordClientWrapper.cs:103-113 | the payload has no channel id (the gateway's "leave") iff no voice channel was given |

## Left out

- Event fan-out. The `InvokeAsync` calls on `VoiceServerUpdated` and `VoiceStateUpdated`
  belong to a library that is not part of this model, and they only add concurrency. The
  translations return the event value. There are no subscriber lists and no ordering
  guarantees between subscribers.
- Gateway and REST calls. `GetChannelAsync` is given as its outcome. `SendPayloadAsync`
  is recorded as an appended payload. Exceptions that `SendPayloadAsync` may throw are not
  modelled.
- Exceptions from `GetChannelAsync` other than `DiscordException`. These propagate in the
  code and are not modelled.
- Cancellation after entry. A token that fires while a wait is suspended aborts the wait
  in the code. The model reads the token only on entry, where `ThrowIfCancellationRequested`
  reads it. `Pending` stands for a wait that is still suspended. Continuation scheduling
  (`RunContinuationsAsynchronously`) is left out.
- Logging of the swallowed `DiscordException`.
- The `ArgumentNullException` guards on the constructor and the event handlers, and the
  null `Guild` of a voice-server event. These are preconditions on references that a
  value model cannot express.
- The `ObjectDisposedException` named in the documentation comments. The class has no
  disposal logic.
- Default parameter values (`includeBots`, `selfDeaf`, `selfMute`, the token). Every
  argument is passed explicitly.
- The initial capacity of the result builder, which does not affect the result.
- The sample bots (command handlers and host setup) are not part of this model.
