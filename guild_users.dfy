/** A guild member fetched over the REST API: a local, mutable copy of the
    server's member record, reconciled in place from full payloads and from
    the change sets of successful modify requests. */
module GuildUsers {
  import opened Wire

  type Snowflake = UInt64

  /** The raw permission bits returned by the permission resolver. */
  type RawPermissions = UInt64

  /** The part of the owning guild that the member reads: its id (which is
      also the id of its base "everyone" role) and whether its data has been
      downloaded. The guild's role table is reached only through the
      permission resolver. */
  datatype Guild = Guild(id: Snowflake, available: bool)

  /** A full member payload as the server sends it. */
  datatype MemberModel = MemberModel(
    userId: Snowflake,
    joinedAt: Int64,                // UTC ticks of the join timestamp
    nick: Optional<Option<string>>, // may be omitted, or sent as null
    deaf: bool,
    mute: bool,
    roles: seq<Snowflake>           // never includes the base role
  )

  /** The change set of a modify request; each field may be left out. */
  datatype ModifyParams = ModifyParams(
    deaf: Optional<bool>,
    mute: Optional<bool>,
    nickname: Optional<Option<string>>,
    roleIds: Optional<seq<Snowflake>>
  )

  /** Every observable field of a member, as one value. */
  datatype MemberState = MemberState(
    id: Snowflake,
    guild: Guild,
    nickname: Option<string>,
    isDeafened: bool,
    isMuted: bool,
    joinedAtTicks: Option<Int64>,
    roleIds: seq<Snowflake>
  )

  /** Resolving guild permissions when the guild is not downloaded. */
  datatype PermissionError = GuildNotDownloaded

  /** What the member reports through the voice-state interface. */
  datatype VoiceStateView = VoiceStateView(
    isSelfDeafened: bool,
    isSelfMuted: bool,
    isSuppressed: bool,
    voiceChannel: Option<Snowflake>,
    voiceSessionId: Option<string>
  )

  // ---------------------------------------------------------------------
  // Specification of the state changes
  // ---------------------------------------------------------------------

  /** The role list of a member of guild `guildId` whose payload lists
      `ids`: the base role first, then the payload's ids in their order. */
  function WithBaseRole(guildId: Snowflake, ids: seq<Snowflake>): (r: seq<Snowflake>)
    ensures |r| == |ids| + 1 && r[0] == guildId
    ensures forall i :: 0 <= i < |ids| ==> r[i + 1] == ids[i]
  {
    [guildId] + ids
  }

  /** The state every reachable member is in: the role list starts with the
      guild's base role, and the join timestamp is known. */
  predicate WellFormed(s: MemberState) {
    |s.roleIds| > 0 && s.roleIds[0] == s.guild.id && s.joinedAtTicks.Some?
  }

  /** A member just allocated, before any payload is applied: every field
      holds its default. */
  function Fresh(guild: Guild, id: Snowflake): MemberState {
    MemberState(id, guild, None, false, false, None, [])
  }

  /** The merge of a full payload into `s`: from any state, even a fresh
      one, the result is well formed and keeps the id and the guild. */
  function Reconcile(s: MemberState, m: MemberModel): (r: MemberState)
    ensures r.id == s.id && r.guild == s.guild
    ensures WellFormed(r)
  {
    s.(joinedAtTicks := Some(m.joinedAt),
       nickname := m.nick.MergeInto(s.nickname),
       isDeafened := m.deaf,
       isMuted := m.mute,
       roleIds := WithBaseRole(s.guild.id, m.roles))
  }

  /** The merge of the change set of a successful modify request into `s`.
      The nickname of the change set is not applied; nickname, join
      timestamp, id and guild are kept, and so is well-formedness. */
  function ApplyModify(s: MemberState, args: ModifyParams): (r: MemberState)
    ensures r.nickname == s.nickname && r.joinedAtTicks == s.joinedAtTicks
    ensures r.id == s.id && r.guild == s.guild
    ensures WellFormed(s) ==> WellFormed(r)
  {
    s.(isDeafened := args.deaf.MergeInto(s.isDeafened),
       isMuted := args.mute.MergeInto(s.isMuted),
       roleIds := if args.roleIds.IsSpecified()
                  then WithBaseRole(s.guild.id, args.roleIds.value)
                  else s.roleIds)
  }

  /** A member built from a guild and a payload: it has the payload's user
      id and the given guild, and is well formed. */
  function Created(guild: Guild, m: MemberModel): (r: MemberState)
    ensures r.id == m.userId && r.guild == guild
    ensures WellFormed(r)
  {
    Reconcile(Fresh(guild, m.userId), m)
  }

  /** Builds the role list in a loop, as the array builder does. */
  method BuildRoleList(guildId: Snowflake, ids: seq<Snowflake>) returns (roles: seq<Snowflake>)
    ensures |roles| == |ids| + 1
    ensures roles[0] == guildId
    ensures forall i :: 0 <= i < |ids| ==> roles[i + 1] == ids[i]
  {
    roles := [guildId];
    for i := 0 to |ids|
      invariant |roles| == i + 1
      invariant roles[0] == guildId
      invariant forall k :: 0 <= k < i ==> roles[k + 1] == ids[k]
    {
      roles := roles + [ids[i]];
    }
  }

  // ---------------------------------------------------------------------
  // The entity
  // ---------------------------------------------------------------------

  class RestGuildUser {
    const id: Snowflake
    const guild: Guild
    var nickname: Option<string>
    var isDeafened: bool
    var isMuted: bool
    var joinedAtTicks: Option<Int64>
    var roleIds: seq<Snowflake>

    /** All fields of the entity as one value. */
    function State(): MemberState
      reads this
    {
      MemberState(id, guild, nickname, isDeafened, isMuted, joinedAtTicks, roleIds)
    }

    predicate Valid()
      reads this
    {
      WellFormed(State())
    }

    constructor (guild: Guild, id: Snowflake)
      ensures State() == Fresh(guild, id)
    {
      this.id := id;
      this.guild := guild;
      nickname := None;
      isDeafened := false;
      isMuted := false;
      joinedAtTicks := None;
      roleIds := [];
    }

    /** Builds a member of `guild` from a full payload. */
    static method Create(guild: Guild, model: MemberModel) returns (entity: RestGuildUser)
      ensures fresh(entity)
      ensures entity.id == model.userId && entity.guild == guild
      ensures entity.State() == Reconcile(Fresh(guild, model.userId), model)
      ensures entity.Valid()
    {
      entity := new RestGuildUser(guild, model.userId);
      entity.Update(model);
      CreatedWellFormed(guild, model);
    }

    /** Merges a full payload into this member. */
    method Update(model: MemberModel)
      modifies this
      ensures State() == Reconcile(old(State()), model)
      ensures Valid()
    {
      joinedAtTicks := Some(model.joinedAt);
      if model.nick.IsSpecified() {
        nickname := model.nick.value;
      }
      isDeafened := model.deaf;
      isMuted := model.mute;
      UpdateRoles(model.roles);
      ReconcileWellFormed(old(State()), model);
    }

    /** Replaces the role list by the base role followed by `ids`. */
    method UpdateRoles(ids: seq<Snowflake>)
      modifies this`roleIds
      ensures roleIds == WithBaseRole(guild.id, ids)
    {
      var roles := BuildRoleList(guild.id, ids);
      RoleListUnique(guild.id, ids, roles);
      roleIds := roles;
    }

    /** Re-fetches this member; `fetched` is what the fetch call returned or
        raised. An error leaves the member as it was and is passed on. */
    method UpdateAsync<E>(fetched: Result<MemberModel, E>) returns (outcome: Result<(), E>)
      modifies this
      ensures fetched.Err? ==> outcome == Err(fetched.error) && State() == old(State())
      ensures fetched.Ok? ==> outcome == Ok(()) && State() == Reconcile(old(State()), fetched.value)
    {
      match fetched
      case Err(e) =>
        outcome := Err(e);
      case Ok(model) =>
        Update(model);
        outcome := Ok(());
    }

    /** Sends a modify request; `sent` is the change set the request carried
        or the error it raised. On success the specified deaf, mute and role
        fields of the change set are applied; an error leaves the member as
        it was and is passed on. */
    method ModifyAsync<E>(sent: Result<ModifyParams, E>) returns (outcome: Result<(), E>)
      modifies this
      ensures sent.Err? ==> outcome == Err(sent.error) && State() == old(State())
      ensures sent.Ok? ==> outcome == Ok(()) && State() == ApplyModify(old(State()), sent.value)
      ensures old(Valid()) ==> Valid()
    {
      if sent.Err? {
        outcome := Err(sent.error);
        return;
      }
      var args := sent.value;
      if args.deaf.IsSpecified() {
        isDeafened := args.deaf.value;
      }
      if args.mute.IsSpecified() {
        isMuted := args.mute.value;
      }
      if args.roleIds.IsSpecified() {
        UpdateRoles(args.roleIds.value);
      }
      outcome := Ok(());
      if old(Valid()) {
        ModifyKeepsWellFormed(old(State()), args);
      }
    }

    /** The id of the owning guild, which is also the first role id. */
    function GuildId(): (r: Snowflake)
      reads this
      ensures Valid() ==> r == RoleIds()[0]
    {
      guild.id
    }

    /** The role ids; on a valid member never empty, and led by the base role. */
    function RoleIds(): (r: seq<Snowflake>)
      reads this
      ensures Valid() ==> |r| > 0 && r[0] == guild.id
    {
      roleIds
    }

    /** The join timestamp in ticks; null only before the first payload. */
    function JoinedAt(): (r: Option<Int64>)
      reads this
      ensures Valid() ==> r.Some?
      ensures r.Some? ==> r == joinedAtTicks
    {
      joinedAtTicks
    }

    /** The member's guild-wide permissions, computed afresh by `resolve`
        from the current state; fails when the guild is not downloaded. */
    function GuildPermissions(resolve: (Guild, MemberState) -> RawPermissions): (r: Result<RawPermissions, PermissionError>)
      reads this
      ensures r.Err? <==> !guild.available
      ensures r.Ok? ==> r.value == resolve(guild, State())
    {
      if !guild.available then Err(GuildNotDownloaded)
      else Ok(resolve(guild, State()))
    }

    /** The member's permissions in `channel`: the guild-wide permissions
        refined by `resolveChannel`; fails exactly when those fail. */
    function GetPermissions<C>(
      channel: C,
      resolveGuild: (Guild, MemberState) -> RawPermissions,
      resolveChannel: (Guild, MemberState, C, RawPermissions) -> RawPermissions
    ): (r: Result<RawPermissions, PermissionError>)
      reads this
      ensures r.Err? <==> GuildPermissions(resolveGuild).Err?
      ensures r.Err? <==> !guild.available
      ensures r.Ok? ==> r.value == resolveChannel(guild, State(), channel, resolveGuild(guild, State()))
    {
      var guildPerms := GuildPermissions(resolveGuild);
      match guildPerms
      case Err(e) => Err(e)
      case Ok(bits) => Ok(resolveChannel(guild, State(), channel, bits))
    }

    /** A member fetched over REST is never connected to voice. */
    function VoiceState(): (v: VoiceStateView)
      ensures !v.isSelfDeafened && !v.isSelfMuted && !v.isSuppressed
      ensures v.voiceChannel == None && v.voiceSessionId == None
    {
      VoiceStateView(false, false, false, None, None)
    }
  }

  // ---------------------------------------------------------------------
  // Properties of the role list
  // ---------------------------------------------------------------------

  /** The role list has one more entry than the payload, starts with the
      base role and then repeats the payload in order, without dedup. */
  lemma RoleListShape(guildId: Snowflake, ids: seq<Snowflake>)
    ensures |WithBaseRole(guildId, ids)| == |ids| + 1
    ensures WithBaseRole(guildId, ids)[0] == guildId
    ensures forall i :: 0 <= i < |ids| ==> WithBaseRole(guildId, ids)[i + 1] == ids[i]
    ensures multiset(WithBaseRole(guildId, ids)) == multiset{guildId} + multiset(ids)
  {
  }

  /** The three facts of `RoleListShape` determine the list. */
  lemma RoleListUnique(guildId: Snowflake, ids: seq<Snowflake>, roles: seq<Snowflake>)
    requires |roles| == |ids| + 1 && roles[0] == guildId
    requires forall i :: 0 <= i < |ids| ==> roles[i + 1] == ids[i]
    ensures roles == WithBaseRole(guildId, ids)
  {
  }

  // ---------------------------------------------------------------------
  // Properties of the full-payload merge
  // ---------------------------------------------------------------------

  /** The join timestamp, deaf and mute are taken from the payload whatever
      they were, the role list is rebuilt, and identity is kept. */
  lemma ReconcileOverwrites(s: MemberState, m: MemberModel)
    ensures Reconcile(s, m).joinedAtTicks == Some(m.joinedAt)
    ensures Reconcile(s, m).isDeafened == m.deaf && Reconcile(s, m).isMuted == m.mute
    ensures Reconcile(s, m).roleIds == WithBaseRole(s.guild.id, m.roles)
    ensures Reconcile(s, m).id == s.id && Reconcile(s, m).guild == s.guild
  {
  }

  /** An omitted nickname keeps the current one; a sent nickname, even null
      or empty, replaces it. */
  lemma ReconcileNickname(s: MemberState, m: MemberModel)
    ensures !m.nick.IsSpecified() ==> Reconcile(s, m).nickname == s.nickname
    ensures m.nick.IsSpecified() ==> Reconcile(s, m).nickname == m.nick.value
  {
  }

  /** The merge forgets everything of the prior state except identity and,
      when the payload omits it, the nickname. */
  lemma ReconcileIgnoresPriorState(s1: MemberState, s2: MemberState, m: MemberModel)
    requires s1.id == s2.id && s1.guild == s2.guild
    requires !m.nick.IsSpecified() ==> s1.nickname == s2.nickname
    ensures Reconcile(s1, m) == Reconcile(s2, m)
  {
  }

  /** Applying the same payload twice is the same as applying it once. */
  lemma ReconcileIdempotent(s: MemberState, m: MemberModel)
    ensures Reconcile(Reconcile(s, m), m) == Reconcile(s, m)
  {
  }

  /** Any state, even a fresh one, is well formed after a full payload. */
  lemma ReconcileWellFormed(s: MemberState, m: MemberModel)
    ensures WellFormed(Reconcile(s, m))
  {
  }

  /** A created member has the payload's user id, the given guild and a
      role list led by the guild's base role. */
  lemma CreatedWellFormed(guild: Guild, m: MemberModel)
    ensures Created(guild, m).id == m.userId && Created(guild, m).guild == guild
    ensures WellFormed(Created(guild, m))
    ensures Created(guild, m).roleIds == WithBaseRole(guild.id, m.roles)
    ensures !m.nick.IsSpecified() ==> Created(guild, m).nickname == None
  {
  }

  // ---------------------------------------------------------------------
  // Properties of the modify reconciliation
  // ---------------------------------------------------------------------

  /** Deaf, mute and the role list change only when the change set
      specifies them; nickname, join timestamp, id and guild never change. */
  lemma ModifyFrame(s: MemberState, args: ModifyParams)
    ensures ApplyModify(s, args).isDeafened == if args.deaf.IsSpecified() then args.deaf.value else s.isDeafened
    ensures ApplyModify(s, args).isMuted == if args.mute.IsSpecified() then args.mute.value else s.isMuted
    ensures ApplyModify(s, args).roleIds ==
              if args.roleIds.IsSpecified() then WithBaseRole(s.guild.id, args.roleIds.value) else s.roleIds
    ensures ApplyModify(s, args).nickname == s.nickname
    ensures ApplyModify(s, args).joinedAtTicks == s.joinedAtTicks
    ensures ApplyModify(s, args).id == s.id && ApplyModify(s, args).guild == s.guild
  {
  }

  /** The nickname of the change set has no effect on the local state. */
  lemma ModifyIgnoresNickname(s: MemberState, args: ModifyParams, nick: Optional<Option<string>>)
    ensures ApplyModify(s, args.(nickname := nick)) == ApplyModify(s, args)
  {
  }

  /** Applying the same change set twice is the same as applying it once. */
  lemma ModifyIdempotent(s: MemberState, args: ModifyParams)
    ensures ApplyModify(ApplyModify(s, args), args) == ApplyModify(s, args)
  {
  }

  /** A modify keeps a well-formed member well formed. */
  lemma ModifyKeepsWellFormed(s: MemberState, args: ModifyParams)
    requires WellFormed(s)
    ensures WellFormed(ApplyModify(s, args))
  {
  }

  /** Worked cases: guild 1 and payload roles [5, 7] give [1, 5, 7]; a
      modify that sends roles [9] gives [1, 9]; one that sends only deaf
      leaves mute as it was. */
  lemma Scenarios(mute: bool)
    ensures Created(Guild(1, true), MemberModel(42, 0, Unspecified, false, mute, [5, 7])).roleIds == [1, 5, 7]
    ensures ApplyModify(Created(Guild(1, true), MemberModel(42, 0, Unspecified, false, mute, [5, 7])),
                        ModifyParams(Unspecified, Unspecified, Unspecified, Specified([9]))).roleIds == [1, 9]
    ensures ApplyModify(Created(Guild(1, true), MemberModel(42, 0, Unspecified, false, mute, [5, 7])),
                        ModifyParams(Specified(true), Unspecified, Unspecified, Unspecified)).isMuted == mute
  {
  }

  // ---------------------------------------------------------------------
  // Lifetime of a member: any sequence of reconciliations
  // ---------------------------------------------------------------------

  /** One reconciliation: a fetched full payload, or the change set of a
      successful modify request. */
  datatype Event = Fetched(model: MemberModel) | Modified(args: ModifyParams)

  function Apply(s: MemberState, e: Event): MemberState {
    match e
    case Fetched(m) => Reconcile(s, m)
    case Modified(args) => ApplyModify(s, args)
  }

  /** The state after the events, applied in order (last write wins). */
  function Replay(s: MemberState, events: seq<Event>): MemberState
    decreases |events|
  {
    if events == [] then s else Replay(Apply(s, events[0]), events[1..])
  }

  /** Replaying one more event applies it to the replayed state. */
  lemma {:induction false} ReplaySnoc(s: MemberState, events: seq<Event>, e: Event)
    ensures Replay(s, events + [e]) == Apply(Replay(s, events), e)
    decreases |events|
  {
    if events != [] {
      assert (events + [e])[1..] == events[1..] + [e];
      ReplaySnoc(Apply(s, events[0]), events[1..], e);
    }
  }

  /** A well-formed member stays well formed (role list led by the base
      role, join timestamp known) whatever it is reconciled with. */
  lemma {:induction false} ReplayKeepsWellFormed(s: MemberState, events: seq<Event>)
    requires WellFormed(s)
    ensures WellFormed(Replay(s, events))
    decreases |events|
  {
    if events != [] {
      match events[0] {
        case Fetched(m) => ReconcileWellFormed(s, m);
        case Modified(args) => ModifyKeepsWellFormed(s, args);
      }
      ReplayKeepsWellFormed(Apply(s, events[0]), events[1..]);
    }
  }

  /** Only a full payload that sends a nickname can change the nickname. */
  lemma {:induction false} NicknameOnlyFromSentNick(s: MemberState, events: seq<Event>)
    requires forall i :: 0 <= i < |events| ==> !(events[i].Fetched? && events[i].model.nick.IsSpecified())
    ensures Replay(s, events).nickname == s.nickname
    decreases |events|
  {
    if events != [] {
      NicknameOnlyFromSentNick(Apply(s, events[0]), events[1..]);
    }
  }

  /** A full payload that sends a nickname erases all history: the state is
      the same as if that payload had been applied to the original member. */
  lemma {:induction false} LastFullPayloadWins(s: MemberState, events: seq<Event>, m: MemberModel)
    requires m.nick.IsSpecified()
    ensures Replay(s, events + [Fetched(m)]) == Reconcile(s, m)
  {
    ReplaySnoc(s, events, Fetched(m));
    ReplayIdentity(s, events);
    ReconcileIgnoresPriorState(Replay(s, events), s, m);
  }

  /** Reconciliation never changes the id or the guild. */
  lemma {:induction false} ReplayIdentity(s: MemberState, events: seq<Event>)
    ensures Replay(s, events).id == s.id && Replay(s, events).guild == s.guild
    decreases |events|
  {
    if events != [] {
      ReplayIdentity(Apply(s, events[0]), events[1..]);
    }
  }
}
