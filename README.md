# RestGuildUser — a verified model of a REST guild member

Discord.Net's `RestGuildUser` is the local, mutable copy of one member of a
guild (a chat server), as fetched over the REST API. It keeps the member's
nickname, deaf and mute flags, join timestamp and role ids. These are
reconciled in place:

- from a full member payload (on creation and on refresh);
- from the change set of a successful modify request.

Payload fields the server may omit are tagged `Unspecified | Specified(v)`.
A merge changes a field only when it is `Specified`. An explicit null is
still `Specified`. The role list always starts with the guild's own id,
which is the id of the base "everyone" role, followed by the payload's role
ids in their order.

Layout:

- `wire.dfy`, module `Wire`: 64-bit integer types, the `Optional<T>` wire
  marker, a nullable `Option<T>` (`None` is null) and `Result<T, E>`.
- `guild_users.dfy`, module `GuildUsers`:
  - the payload and change-set datatypes;
  - the specification functions `Reconcile` (a full payload), `ApplyModify`
    (a modify change set) and `Created`, over a `MemberState` value;
  - the class `RestGuildUser`, whose methods change its fields in place and
    are proved to move `State()` exactly as the specification functions
    say;
  - the lemmas about those functions;
  - `Replay`, which applies any sequence of reconciliations, and the
    invariants that hold over a member's whole lifetime.

The network calls are replaced by what they return: `UpdateAsync` takes the
fetched payload or the error the fetch raised, and `ModifyAsync` takes the
change set that was sent or the error the request raised. The permission
resolvers are external; they are passed in as function parameters.

## Model

| member | source | states |
|---|---|---|
| GuildUsers.WithBaseRole | src/Discord.Net.Rest/Entities/Users/RestGuildUser.cs:56-63 | the role list built from a payload has one more entry than the payload, starts with the guild id, and entry i+1 is payload entry i |
| GuildUsers.Reconcile | src/Discord.Net.Rest/Entities/Users/RestGuildUser.cs:47-55 | the full-payload merge keeps id and guild and yields a well-formed member from any prior state |
| GuildUsers.ApplyModify | src/Discord.Net.Rest/Entities/Users/RestGuildUser.cs:73-78 | the modify merge keeps nickname, join ticks, id and guild, and keeps a well-formed member well formed |
| GuildUsers.Created | src/Discord.Net.Rest/Entities/Users/RestGuildUser.cs:41-46 | a member built from a guild and a payload has the payload's user id, the given guild, and is well formed |
| Wire.Optional.MergeInto | src/Discord.Net.Rest/Entities/Users/RestGuildUser.cs:50-51 | a specified field gives its value (even null); an unspecified one leaves the current value |
| GuildUsers.BuildRoleList | src/Discord.Net.Rest/Entities/Users/RestGuildUser.cs:58-62 | the loop-built role list has length \|ids\|+1, its first entry is the guild id, and entry i+1 is ids[i] for every i |
| GuildUsers.RoleListShape | src/Discord.Net.Rest/Entities/Users/RestGuildUser.cs:56-63 | the role list has one more entry than the payload, is led by the guild id, keeps the payload's order, and as a multiset is the payload plus one guild id (no dedup) |
| GuildUsers.RoleListUnique | src/Discord.Net.Rest/Entities/Users/RestGuildUser.cs:56-63 | any list with that length, head and element-wise tail is exactly the base role prepended to the payload |
| GuildUsers.RestGuildUser.UpdateRoles | src/Discord.Net.Rest/Entities/Users/RestGuildUser.cs:56-63 | the role field becomes the guild id followed by the given ids; nothing else changes |
| GuildUsers.RestGuildUser.constructor | src/Discord.Net.Rest/Entities/Users/RestGuildUser.cs:36-40 | a new member has the given id and guild and default values everywhere else |
| GuildUsers.RestGuildUser.Create | src/Discord.Net.Rest/Entities/Users/RestGuildUser.cs:41-46 | the new entity has the payload's user id and the given guild, its state is a full-payload merge into a fresh entity, and it is well formed |
| GuildUsers.CreatedWellFormed | src/Discord.Net.Rest/Entities/Users/RestGuildUser.cs:41-46 | a created member has the payload's user id and the given guild, a role list led by the guild id, and no nickname when the payload omits it |
| GuildUsers.RestGuildUser.Update | src/Discord.Net.Rest/Entities/Users/RestGuildUser.cs:47-55 | the new state is the full-payload merge of the old state, and it is well formed whatever the old state was |
| GuildUsers.ReconcileOverwrites | src/Discord.Net.Rest/Entities/Users/RestGuildUser.cs:47-55 | join ticks, deaf and mute are taken from the payload whatever they were before, the role list is rebuilt, and id and guild are kept |
| GuildUsers.ReconcileNickname | src/Discord.Net.Rest/Entities/Users/RestGuildUser.cs:50-51 | an omitted nickname leaves the nickname unchanged; a sent one, even null or empty, replaces it exactly |
| GuildUsers.ReconcileIgnoresPriorState | src/Discord.Net.Rest/Entities/Users/RestGuildUser.cs:47-55 | two members with the same id and guild (and the same nickname when the payload omits it) end in the same state after the same payload |
| GuildUsers.ReconcileIdempotent | src/Discord.Net.Rest/Entities/Users/RestGuildUser.cs:47-55 | applying the same payload twice gives the state of applying it once |
| GuildUsers.ReconcileWellFormed | src/Discord.Net.Rest/Entities/Users/RestGuildUser.cs:47-63 | after any full payload the role list is non-empty and led by the guild id, and the join timestamp is set |
| GuildUsers.RestGuildUser.UpdateAsync | src/Discord.Net.Rest/Entities/Users/RestGuildUser.cs:65-69 | a failed fetch is passed on and leaves the state untouched; a successful one merges the fetched payload |
| GuildUsers.RestGuildUser.ModifyAsync | src/Discord.Net.Rest/Entities/Users/RestGuildUser.cs:70-79 | a failed request is passed on and leaves the state untouched; a successful one applies the change set's specified deaf, mute and roles, and keeps a well-formed member well formed |
| GuildUsers.ModifyFrame | src/Discord.Net.Rest/Entities/Users/RestGuildUser.cs:72-78 | deaf, mute and roles change only when specified (roles get the base role prepended); nickname, join ticks, id and guild never change |
| GuildUsers.ModifyIgnoresNickname | src/Discord.Net.Rest/Entities/Users/RestGuildUser.cs:72-78 | the nickname carried by the change set has no effect on the local state |
| GuildUsers.ModifyIdempotent | src/Discord.Net.Rest/Entities/Users/RestGuildUser.cs:73-78 | applying the same change set twice gives the state of applying it once |
| GuildUsers.ModifyKeepsWellFormed | src/Discord.Net.Rest/Entities/Users/RestGuildUser.cs:73-78 | a modify keeps the role list non-empty and led by the guild id |
| GuildUsers.Scenarios | src/Discord.Net.Rest/Entities/Users/RestGuildUser.cs:41-78 | guild 1 with payload roles [5,7] gives [1,5,7]; a modify sending roles [9] gives [1,9]; a modify sending only deaf leaves mute unchanged |
| GuildUsers.RestGuildUser.GuildId | src/Discord.Net.Rest/Entities/Users/RestGuildUser.cs:22 | on a well-formed member the guild id is the first role id |
| GuildUsers.RestGuildUser.RoleIds | src/Discord.Net.Rest/Entities/Users/RestGuildUser.cs:32 | on a well-formed member the role ids are non-empty and led by the guild id |
| GuildUsers.RestGuildUser.JoinedAt | src/Discord.Net.Rest/Entities/Users/RestGuildUser.cs:34 | on a well-formed member the join timestamp is present; when present it is the stored tick count |
| GuildUsers.RestGuildUser.GuildPermissions | src/Discord.Net.Rest/Entities/Users/RestGuildUser.cs:23-31 | fails exactly when the guild is not downloaded; otherwise it is the resolver applied to the guild and the current state, recomputed on each read |
| GuildUsers.RestGuildUser.GetPermissions | src/Discord.Net.Rest/Entities/Users/RestGuildUser.cs:83-87 | fails exactly when the guild permissions fail, which is exactly when the guild is not downloaded; otherwise the channel resolver is applied to the guild permission bits |
| GuildUsers.RestGuildUser.VoiceState | src/Discord.Net.Rest/Entities/Users/RestGuildUser.cs:89-94 | self-deafened, self-muted and suppressed are false; voice channel and session id are null |
| GuildUsers.ReplaySnoc | src/Discord.Net.Rest/Entities/Users/RestGuildUser.cs:47-79 | reconciliations apply in order: one more event is applied to the state the earlier ones left (last write wins) |
| GuildUsers.ReplayKeepsWellFormed | src/Discord.Net.Rest/Entities/Users/RestGuildUser.cs:47-79 | over any sequence of payloads and modifies, a well-formed member keeps a role list led by the guild id and a join timestamp |
| GuildUsers.ReplayIdentity | src/Discord.Net.Rest/Entities/Users/RestGuildUser.cs:47-79 | no sequence of reconciliations changes the id or the guild |
| GuildUsers.NicknameOnlyFromSentNick | src/Discord.Net.Rest/Entities/Users/RestGuildUser.cs:47-79 | if no full payload in a sequence sends a nickname, the nickname is unchanged, whatever modifies happen |
| GuildUsers.LastFullPayloadWins | src/Discord.Net.Rest/Entities/Users/RestGuildUser.cs:47-79 | after a full payload that sends a nickname, the state does not depend on any earlier reconciliation |

## Modify reconciliation

- `ModifyAsync` applies only the deaf, mute and role ids of the change set
  (RestGuildUser.cs:73-78). A nickname sent in a modify is not written to
  `Nickname`, which keeps its old value until the next full payload.
  `ApplyModify` follows the code and `ModifyIgnoresNickname` states it.
- `UserHelper.ModifyAsync` (line 72) returns the request's
  `ModifyGuildMemberParams`, the change set the caller filled in. The model
  takes that change set as the input of `ModifyAsync`.

## Left out

- The network calls `GetGuildMemberAsync`, `UserHelper.ModifyAsync` and
  `UserHelper.KickAsync` are I/O. The first two are replaced by their
  outcomes, passed in as `Result` inputs. `KickAsync` is not modelled: it
  only forwards to `UserHelper.KickAsync` and changes no local state.
- `Permissions.ResolveGuild` and `Permissions.ResolveChannel` are not part of
  this model. They appear as function parameters of `GuildPermissions` and
  `GetPermissions`; permission bit arithmetic and overwrite precedence are
  not modelled.
- The guild is modelled as an immutable value `Guild(id, available)` held in
  a `const` field. In the source it is a shared `IGuild` reference, assigned
  only in the constructor, whose availability can change from outside. The
  model reads availability from that value and does not model changes to it.
- `DateTimeUtils.FromTicks` and `DateTimeOffset` are not part of this model:
  the join time is kept and returned as its tick count.
- The `RestUser` base class, `BaseDiscordClient`, `RequestOptions` and the
  debugger display are not part of this model. The member's `Id` is a field.
- The `ImmutableArray` builder is modelled as a sequence grown in a loop.
  The `default(ImmutableArray)` of a member before its first payload is
  modelled as the empty sequence.
- `ModifyGuildMemberParams` is modelled by the four fields this file reads
  or that carry a nickname: deaf, mute, nickname and role ids.
- Update, ModifyAsync: a null role array is not modelled, because the
  model's role lists are sequences, which cannot be null. In the source,
  `UpdateRoles(null)` throws at `roleIds.Length` (line 58). In `Update` this
  happens after join ticks, nickname, deaf and mute were written (lines
  49-53). In `ModifyAsync` a change set whose role ids are specified as null
  throws after the server call succeeded and after deaf and mute were
  applied (lines 73-76). The entity is then left partly updated.
- Concurrency: concurrent refresh and modify calls are not modelled. `Replay`
  models their effect as a sequence applied in completion order.
