/** The membership bookkeeping of the Tortoise server cog: how a joining member is classified
    against the remote record, how a returning verified member gets their roles back while the
    "roles changed" listener is held off by a lock, and which role a reaction grants or revokes.
    The chat platform is not modelled: its effects (role changes, messages) are actions appended to
    a log, and the remote API's member records are a map that the handlers read and write. */
module TortoiseServerCog {
  import opened Wrappers
  import Json
  import ApiClient

  type UserId = nat
  type RoleId = nat
  type EmojiId = nat
  type ChannelId = nat

  /** A guild role. */
  datatype Role = Role(id: RoleId, name: string)

  /** The remote record of a member, as the handlers read it (`member/meta/{id}/` and
      `members/{id}/roles/`) and write it (`members/` and `members/edit/{id}/`). */
  datatype MemberRecord = MemberRecord(verified: bool, member: bool, leaveDate: Option<string>, roles: seq<RoleId>)

  /** A record marked as a current member has no leave date. */
  predicate RecordConsistent(r: MemberRecord) {
    r.member ==> r.leaveDate.None?
  }

  /** The record the API creates for `insert_new_member`: present, not verified, no roles yet. */
  const NewRecord: MemberRecord := MemberRecord(false, true, None, [])

  /** The record after `member_rejoined`: present again and no leave date. */
  function Rejoined(r: MemberRecord): (r': MemberRecord)
    ensures RecordConsistent(r') && r'.member
    ensures r'.verified == r.verified && r'.roles == r.roles
  {
    r.(member := true, leaveDate := None)
  }

  // ---------------------------------------------------------------------------------------------
  // Join classification

  /** The three ways `on_member_join` can go. */
  datatype JoinPath = Register | AlreadyMember | Rejoin(verified: bool)

  /** `on_member_join`: an error fetching the record means a new member; a record with no leave date
      that is verified is a current member (nothing to do); every other record is a return, carrying
      its verified flag. */
  function ClassifyJoin(meta: Result<MemberRecord, ApiClient.ResponseCodeError>): (p: JoinPath)
    ensures p == Register <==> meta.Failure?
    ensures p == AlreadyMember <==> meta.Success? && meta.value.leaveDate.None? && meta.value.verified
    ensures p.Rejoin? ==> meta.Success? && p.verified == meta.value.verified
  {
    match meta
    case Failure(_) => Register
    case Success(r) => if r.leaveDate.None? && r.verified then AlreadyMember else Rejoin(r.verified)
  }

  /** A verified member is treated as returning exactly when their record has a leave date; an
      unverified one always is. */
  lemma RejoinCases(r: MemberRecord)
    ensures ClassifyJoin(Success(r)) == Rejoin(true) <==> r.verified && r.leaveDate.Some?
    ensures ClassifyJoin(Success(r)) == Rejoin(false) <==> !r.verified
  {
  }

  /** What the API answers for a member without a record. */
  const NotFound: ApiClient.ResponseCodeError := ApiClient.ResponseCodeError(404, Json.EmptyObject, "")

  // ---------------------------------------------------------------------------------------------
  // Reaction roles

  /** `get_assignable_role`: the role of the guild mapped to the emoji, or none when the emoji is not
      mapped (a Unicode emoji has no id and is never mapped) or the guild has no role with that id. */
  function GetAssignableRole(table: map<EmojiId, RoleId>, guild: map<RoleId, Role>, emoji: Option<EmojiId>)
    : (r: Option<Role>)
    ensures r.Some? <==> emoji.Some? && emoji.value in table && table[emoji.value] in guild
    ensures r.Some? ==> r.value == guild[table[emoji.value]]
  {
    if emoji.Some? && emoji.value in table && table[emoji.value] in guild
    then Some(guild[table[emoji.value]])
    else None
  }

  /** A raw reaction event: where, by whom, with which emoji. */
  datatype ReactionPayload = ReactionPayload(channelId: ChannelId, userId: UserId, emoji: Option<EmojiId>)

  // ---------------------------------------------------------------------------------------------
  // Actions on the platform and the API

  /** The direct messages the handlers send. */
  datatype Notice = WelcomeNew | WelcomeBack | VerifyReminder | RoleAssigned(roleName: string)

  datatype Action =
    | RemoteWrite(request: ApiClient.Request)
    | RoleAdded(user: UserId, role: Role)
    | RoleAddRejected(user: UserId, role: Role)     // `add_roles` raised an HTTP error
    | RoleRemoved(user: UserId, role: Role)
    | RoleRemoveRejected(user: UserId, role: Role)  // `remove_roles` raised an HTTP error
    | VerificationPing(user: UserId)                // mention in the verification channel
    | LogJoined(user: UserId)                       // "has joined" in the log channel
    | LogReturned(user: UserId)                     // "has returned" in the log channel
    | DirectMessage(user: UserId, notice: Notice)

  /** The API writes of a log, in order. */
  function RemoteWrites(log: seq<Action>): seq<ApiClient.Request>
    decreases |log|
  {
    if log == [] then [] else RemoteWriteOf(log[0]) + RemoteWrites(log[1..])
  }

  function RemoteWriteOf(x: Action): seq<ApiClient.Request> {
    if x.RemoteWrite? then [x.request] else []
  }

  lemma {:induction false} RemoteWritesAppend(a: seq<Action>, b: seq<Action>)
    ensures RemoteWrites(a + b) == RemoteWrites(a) + RemoteWrites(b)
    decreases |a|
  {
    if a == [] {
      assert a + b == b;
    } else {
      assert (a + b)[0] == a[0];
      assert (a + b)[1..] == a[1..] + b;
      RemoteWritesAppend(a[1..], b);
      calc {
        RemoteWrites(a + b);
        RemoteWriteOf(a[0]) + RemoteWrites(a[1..] + b);
        RemoteWriteOf(a[0]) + (RemoteWrites(a[1..]) + RemoteWrites(b));
      }
    }
  }

  /** The ids of a role list, in order: what `on_member_update` stores. */
  function RoleIds(roles: seq<Role>): (ids: seq<RoleId>)
    ensures |ids| == |roles| && forall k | 0 <= k < |roles| :: ids[k] == roles[k].id
  {
    seq(|roles|, k requires 0 <= k < |roles| => roles[k].id)
  }

  /** `on_member_update`: the role ids to store, or none when the role lists are equal or the lock
      is set. Roles compare by id, as the platform's role objects do. */
  function RolesToStore(before: seq<Role>, after: seq<Role>, lock: bool): (r: Option<seq<RoleId>>)
    ensures r.None? <==> RoleIds(before) == RoleIds(after) || lock
    ensures r.Some? ==> |r.value| == |after| && forall k | 0 <= k < |after| :: r.value[k] == after[k].id
  {
    if RoleIds(before) == RoleIds(after) || lock then None else Some(RoleIds(after))
  }

  /** A role the guild has, by id: `guild.get_role`. */
  function GetRole(guild: map<RoleId, Role>, id: RoleId): Option<Role> {
    if id in guild then Some(guild[id]) else None
  }

  /** The roles restoration tries to add: the guild's role for each stored id, in order (none where
      the guild no longer has it), then the verified role last. */
  function RestoreList(guild: map<RoleId, Role>, verified: Role, stored: seq<RoleId>): (r: seq<Option<Role>>)
    ensures |r| == |stored| + 1 && r[|stored|] == Some(verified)
    ensures forall k | 0 <= k < |stored| :: r[k] == GetRole(guild, stored[k])
  {
    seq(|stored|, k requires 0 <= k < |stored| => GetRole(guild, stored[k])) + [Some(verified)]
  }

  /** What one attempted add does: nothing for a missing role, else an add or an HTTP rejection. */
  function AttemptOne(u: UserId, attempt: Option<Role>, rejects: set<RoleId>): seq<Action> {
    match attempt
    case None => []
    case Some(r) => if r.id in rejects then [RoleAddRejected(u, r)] else [RoleAdded(u, r)]
  }

  /** The actions of the add loop: every attempt in order, a rejection never stopping the next. */
  function AttemptLog(u: UserId, attempts: seq<Option<Role>>, rejects: set<RoleId>): seq<Action>
    decreases |attempts|
  {
    if attempts == [] then [] else AttemptOne(u, attempts[0], rejects) + AttemptLog(u, attempts[1..], rejects)
  }

  /** The roles the add loop actually grants. */
  function AddedRoles(attempts: seq<Option<Role>>, rejects: set<RoleId>): set<Role>
    decreases |attempts|
  {
    if attempts == [] then {}
    else (if attempts[0].Some? && attempts[0].value.id !in rejects then {attempts[0].value} else {})
         + AddedRoles(attempts[1..], rejects)
  }

  /** The grants of roles to one member. */
  function Grants(u: UserId, roles: set<Role>): set<(UserId, Role)> {
    set r | r in roles :: (u, r)
  }

  lemma {:induction false} AttemptAppend(u: UserId, a: seq<Option<Role>>, x: Option<Role>, rejects: set<RoleId>)
    ensures AttemptLog(u, a + [x], rejects) == AttemptLog(u, a, rejects) + AttemptOne(u, x, rejects)
    ensures AddedRoles(a + [x], rejects) ==
              AddedRoles(a, rejects) + (if x.Some? && x.value.id !in rejects then {x.value} else {})
    decreases |a|
  {
    if a == [] {
      assert a + [x] == [x];
    } else {
      assert (a + [x])[1..] == a[1..] + [x];
      AttemptAppend(u, a[1..], x, rejects);
    }
  }

  /** The roles the guild still has among the stored ids, in order. */
  function KnownRoles(guild: map<RoleId, Role>, stored: seq<RoleId>): seq<Role>
    decreases |stored|
  {
    if stored == [] then []
    else (if stored[0] in guild then [guild[stored[0]]] else []) + KnownRoles(guild, stored[1..])
  }

  /** The roles of a log of add attempts, in order. */
  function AttemptedRoles(log: seq<Action>): seq<Role>
    decreases |log|
  {
    if log == [] then [] else AttemptedRole(log[0]) + AttemptedRoles(log[1..])
  }

  function AttemptedRole(x: Action): seq<Role> {
    if x.RoleAdded? || x.RoleAddRejected? then [x.role] else []
  }

  lemma {:induction false} AttemptedRolesAppend(a: seq<Action>, b: seq<Action>)
    ensures AttemptedRoles(a + b) == AttemptedRoles(a) + AttemptedRoles(b)
    decreases |a|
  {
    if a == [] {
      assert a + b == b;
    } else {
      assert (a + b)[0] == a[0];
      assert (a + b)[1..] == a[1..] + b;
      AttemptedRolesAppend(a[1..], b);
      calc {
        AttemptedRoles(a + b);
        AttemptedRole(a[0]) + AttemptedRoles(a[1..] + b);
        AttemptedRole(a[0]) + (AttemptedRoles(a[1..]) + AttemptedRoles(b));
      }
    }
  }

  lemma {:induction false} AttemptsOfStored(u: UserId, guild: map<RoleId, Role>, stored: seq<RoleId>, rejects: set<RoleId>)
    ensures AttemptedRoles(AttemptLog(u, seq(|stored|, k requires 0 <= k < |stored| => GetRole(guild, stored[k])), rejects))
            == KnownRoles(guild, stored)
    decreases |stored|
  {
    var looked := seq(|stored|, k requires 0 <= k < |stored| => GetRole(guild, stored[k]));
    if stored != [] {
      var rest := seq(|stored[1..]|, k requires 0 <= k < |stored[1..]| => GetRole(guild, stored[1..][k]));
      assert looked[1..] == rest;
      AttemptsOfStored(u, guild, stored[1..], rejects);
      AttemptedRolesAppend(AttemptOne(u, looked[0], rejects), AttemptLog(u, rest, rejects));
    }
  }

  /** Restoration attempts exactly the stored roles the guild still has, in stored order, and then the
      verified role: an HTTP rejection of one add does not stop the later ones, and a stored id the
      guild no longer has is passed over. */
  lemma RestorationAttempts(u: UserId, guild: map<RoleId, Role>, verified: Role, stored: seq<RoleId>, rejects: set<RoleId>)
    ensures AttemptedRoles(AttemptLog(u, RestoreList(guild, verified, stored), rejects))
            == KnownRoles(guild, stored) + [verified]
  {
    var looked := seq(|stored|, k requires 0 <= k < |stored| => GetRole(guild, stored[k]));
    assert RestoreList(guild, verified, stored) == looked + [Some(verified)];
    AttemptAppend(u, looked, Some(verified), rejects);
    AttemptsOfStored(u, guild, stored, rejects);
    AttemptedRolesAppend(AttemptLog(u, looked, rejects), AttemptOne(u, Some(verified), rejects));
  }

  lemma {:induction false} AddedOfStored(guild: map<RoleId, Role>, stored: seq<RoleId>, rejects: set<RoleId>)
    ensures AddedRoles(seq(|stored|, k requires 0 <= k < |stored| => GetRole(guild, stored[k])), rejects)
            == set id | id in stored && id in guild && guild[id].id !in rejects :: guild[id]
    decreases |stored|
  {
    var looked := seq(|stored|, k requires 0 <= k < |stored| => GetRole(guild, stored[k]));
    var want := set id | id in stored && id in guild && guild[id].id !in rejects :: guild[id];
    if stored == [] {
      assert want == {};
    } else {
      var rest := seq(|stored[1..]|, k requires 0 <= k < |stored[1..]| => GetRole(guild, stored[1..][k]));
      assert looked[1..] == rest;
      AddedOfStored(guild, stored[1..], rejects);
      var restWant := set id | id in stored[1..] && id in guild && guild[id].id !in rejects :: guild[id];
      var head: set<Role> := if stored[0] in guild && guild[stored[0]].id !in rejects then {guild[stored[0]]} else {};
      assert forall id :: id in stored <==> id == stored[0] || id in stored[1..];
      assert want == head + restWant;
    }
  }

  /** The roles a verified returning member gets back: the stored roles the guild still has, and the
      verified role, apart from those whose add was rejected. */
  lemma RestoredRoleSet(guild: map<RoleId, Role>, verified: Role, stored: seq<RoleId>, rejects: set<RoleId>)
    ensures AddedRoles(RestoreList(guild, verified, stored), rejects)
            == (set id | id in stored && id in guild && guild[id].id !in rejects :: guild[id])
               + (if verified.id in rejects then {} else {verified})
  {
    var looked := seq(|stored|, k requires 0 <= k < |stored| => GetRole(guild, stored[k]));
    assert RestoreList(guild, verified, stored) == looked + [Some(verified)];
    AttemptAppend(0, looked, Some(verified), rejects);
    AddedOfStored(guild, stored, rejects);
  }

  // ---------------------------------------------------------------------------------------------
  // The add loop as written

  /** The add loop as the source writes it. Only an HTTP error is caught, while `add_roles` given
      the `None` that `get_role` returns for a deleted role fails on `role.id` with a different
      exception. So the first missing role ends the loop, and the exception skips the statement
      that clears the lock. The result is the actions performed and whether the lock is still set. */
  function AddLoopAsWritten(u: UserId, attempts: seq<Option<Role>>, rejects: set<RoleId>): (r: (seq<Action>, bool))
    ensures r.1 <==> exists k | 0 <= k < |attempts| :: attempts[k].None?
    ensures !r.1 ==> r.0 == AttemptLog(u, attempts, rejects)
    decreases |attempts|
  {
    if attempts == [] then ([], false)
    else if attempts[0].None? then ([], true)
    else
      var rest := AddLoopAsWritten(u, attempts[1..], rejects);
      assert (exists k | 0 <= k < |attempts[1..]| :: attempts[1..][k].None?)
             <==> (exists k | 0 <= k < |attempts| :: attempts[k].None?) by {
        forall k | 0 <= k < |attempts[1..]| ensures attempts[1..][k] == attempts[k + 1] { }
        if exists k | 0 <= k < |attempts| :: attempts[k].None? {
          var k :| 0 <= k < |attempts| && attempts[k].None?;
          assert k > 0 && attempts[1..][k - 1].None?;
        }
      }
      (AttemptOne(u, attempts[0], rejects) + rest.0, rest.1)
  }

  /** As written, a member whose stored roles include one the guild deleted leaves the lock set and
      never gets the verified role: [7] with a guild that has no role 7. */
  lemma StaleRoleLeavesLockSet(u: UserId, verified: Role, rejects: set<RoleId>)
    ensures AddLoopAsWritten(u, RestoreList(map[], verified, [7]), rejects) == ([], true)
  {
    assert RestoreList(map[], verified, [7]) == [None, Some(verified)];
  }

  /** As written, any stored id the guild no longer has leaves the lock set. */
  lemma {:induction false} AsWrittenStaleLocks(u: UserId, attempts: seq<Option<Role>>, rejects: set<RoleId>, k: nat)
    requires k < |attempts| && attempts[k].None?
    ensures AddLoopAsWritten(u, attempts, rejects).1
    decreases k
  {
    if k > 0 && attempts[0].Some? {
      AsWrittenStaleLocks(u, attempts[1..], rejects, k - 1);
    }
  }

  /** Where no stored role is missing, the loop as written and the corrected loop agree. */
  lemma {:induction false} AsWrittenAgreesWithoutStale(u: UserId, attempts: seq<Option<Role>>, rejects: set<RoleId>)
    requires forall k | 0 <= k < |attempts| :: attempts[k].Some?
    ensures AddLoopAsWritten(u, attempts, rejects) == (AttemptLog(u, attempts, rejects), false)
    decreases |attempts|
  {
    if attempts != [] {
      AsWrittenAgreesWithoutStale(u, attempts[1..], rejects);
    }
  }

  // ---------------------------------------------------------------------------------------------
  // Spec of the handlers' logs

  function RemovalLog(u: UserId, role: Role, rejects: set<RoleId>): seq<Action> {
    if role.id in rejects then [RoleRemoveRejected(u, role)] else [RoleRemoved(u, role)]
  }

  /** `_new_member_register_in_database`: insert the record, give the unverified role, then the
      verification ping, the log entry and the welcome message; a rejected role add raises and ends it. */
  function RegisterLog(m: ApiClient.Member, now: string, unverified: Role, rejects: set<RoleId>): seq<Action> {
    [RemoteWrite(ApiClient.InsertNewMember(m, now))]
    + if unverified.id in rejects then [RoleAddRejected(m.id, unverified)]
      else [RoleAdded(m.id, unverified), VerificationPing(m.id), LogJoined(m.id), DirectMessage(m.id, WelcomeNew)]
  }

  /** The unverified branch of `_new_member_re_joined`: mark the record rejoined, give the unverified
      role, then the log entry, the verification ping and the reminder. */
  function UnverifiedRejoinLog(m: ApiClient.Member, unverified: Role, rejects: set<RoleId>): seq<Action> {
    [RemoteWrite(ApiClient.MemberRejoined(m))]
    + if unverified.id in rejects then [RoleAddRejected(m.id, unverified)]
      else [RoleAdded(m.id, unverified), LogJoined(m.id), VerificationPing(m.id), DirectMessage(m.id, VerifyReminder)]
  }

  /** The verified branch of `_new_member_re_joined`: take the unverified role away, attempt the
      restore list, then mark the record rejoined, log the return and welcome the member back. */
  function VerifiedRejoinLog(m: ApiClient.Member, unverified: Role, attempts: seq<Option<Role>>, rejects: set<RoleId>)
    : seq<Action>
  {
    RemovalLog(m.id, unverified, rejects) + AttemptLog(m.id, attempts, rejects)
    + [RemoteWrite(ApiClient.MemberRejoined(m)), LogReturned(m.id), DirectMessage(m.id, WelcomeBack)]
  }

  /** The API writes each way of `on_member_join` calls for: the insert of a new member, nothing for
      a current one, the rejoin mark for a returning one. */
  function JoinWrites(path: JoinPath, m: ApiClient.Member, now: string): seq<ApiClient.Request> {
    match path
    case Register => [ApiClient.InsertNewMember(m, now)]
    case AlreadyMember => []
    case Rejoin(_) => [ApiClient.MemberRejoined(m)]
  }

  lemma {:induction false} AttemptLogWritesNothing(u: UserId, attempts: seq<Option<Role>>, rejects: set<RoleId>)
    ensures RemoteWrites(AttemptLog(u, attempts, rejects)) == []
    decreases |attempts|
  {
    if attempts != [] {
      AttemptLogWritesNothing(u, attempts[1..], rejects);
      RemoteWritesAppend(AttemptOne(u, attempts[0], rejects), AttemptLog(u, attempts[1..], rejects));
    }
  }

  lemma {:induction false} NoWrites(log: seq<Action>)
    requires forall k | 0 <= k < |log| :: !log[k].RemoteWrite?
    ensures RemoteWrites(log) == []
    decreases |log|
  {
    if log != [] {
      NoWrites(log[1..]);
    }
  }

  /** Registration sends the insert of the new record and nothing else, whether or not the role
      add is rejected. */
  lemma RegisterWrites(m: ApiClient.Member, now: string, unverified: Role, rejects: set<RoleId>)
    ensures RemoteWrites(RegisterLog(m, now, unverified, rejects)) == JoinWrites(Register, m, now)
  {
    var ins := RemoteWrite(ApiClient.InsertNewMember(m, now));
    var tail := if unverified.id in rejects then [RoleAddRejected(m.id, unverified)]
                else [RoleAdded(m.id, unverified), VerificationPing(m.id), LogJoined(m.id), DirectMessage(m.id, WelcomeNew)];
    NoWrites(tail);
    RemoteWritesAppend([ins], tail);
  }

  /** An unverified return sends the rejoin mark and nothing else. */
  lemma UnverifiedRejoinWrites(m: ApiClient.Member, now: string, unverified: Role, rejects: set<RoleId>)
    ensures RemoteWrites(UnverifiedRejoinLog(m, unverified, rejects)) == JoinWrites(Rejoin(false), m, now)
  {
    var rej := RemoteWrite(ApiClient.MemberRejoined(m));
    var tail := if unverified.id in rejects then [RoleAddRejected(m.id, unverified)]
                else [RoleAdded(m.id, unverified), LogJoined(m.id), VerificationPing(m.id), DirectMessage(m.id, VerifyReminder)];
    NoWrites(tail);
    RemoteWritesAppend([rej], tail);
  }

  /** A verified return sends the rejoin mark and nothing else: restoring the roles writes nothing. */
  lemma VerifiedRejoinWrites(m: ApiClient.Member, now: string, unverified: Role, attempts: seq<Option<Role>>, rejects: set<RoleId>)
    ensures RemoteWrites(VerifiedRejoinLog(m, unverified, attempts, rejects)) == JoinWrites(Rejoin(true), m, now)
  {
    var rej := RemoteWrite(ApiClient.MemberRejoined(m));
    var removal := RemovalLog(m.id, unverified, rejects);
    var added := AttemptLog(m.id, attempts, rejects);
    var notices := [LogReturned(m.id), DirectMessage(m.id, WelcomeBack)];
    NoWrites(removal);
    NoWrites(notices);
    AttemptLogWritesNothing(m.id, attempts, rejects);
    RemoteWritesAppend([rej], notices);
    assert [rej] + notices == [rej, LogReturned(m.id), DirectMessage(m.id, WelcomeBack)];
    RemoteWritesAppend(removal, added);
    RemoteWritesAppend(removal + added, [rej] + notices);
  }

  /** What the reaction-add handler does: on the designated channel and for a user other than the
      bot, with a role for the emoji, the role is added and the user told. */
  function ReactionAddLog(p: ReactionPayload, channel: ChannelId, bot: UserId, role: Option<Role>, rejects: set<RoleId>)
    : (r: seq<Action>)
    ensures r != [] <==> p.channelId == channel && p.userId != bot && role.Some?
    ensures r != [] ==> r[0] == (if role.value.id in rejects then RoleAddRejected(p.userId, role.value)
                                 else RoleAdded(p.userId, role.value))
    ensures r != [] && role.value.id in rejects ==> r == [RoleAddRejected(p.userId, role.value)]
    ensures r != [] && role.value.id !in rejects ==> r == [RoleAdded(p.userId, role.value), DirectMessage(p.userId, RoleAssigned(role.value.name))]
  {
    if p.channelId != channel || p.userId == bot || role.None? then []
    else if role.value.id in rejects then [RoleAddRejected(p.userId, role.value)]
    else [RoleAdded(p.userId, role.value), DirectMessage(p.userId, RoleAssigned(role.value.name))]
  }

  /** What the reaction-remove handler does: on the designated channel, with a role for the emoji,
      the role is removed; the bot's own reactions are not excluded here. */
  function ReactionRemoveLog(p: ReactionPayload, channel: ChannelId, role: Option<Role>, rejects: set<RoleId>)
    : (r: seq<Action>)
    ensures r != [] <==> p.channelId == channel && role.Some?
    ensures r != [] ==> r == RemovalLog(p.userId, role.value, rejects)
  {
    if p.channelId != channel || role.None? then [] else RemovalLog(p.userId, role.value, rejects)
  }

  // ---------------------------------------------------------------------------------------------
  // The cog

  class TortoiseServer {
    const guildRoles: map<RoleId, Role>
    const verifiedRole: Role
    const unverifiedRole: Role
    const assignableRoles: map<EmojiId, RoleId>   // emoji id -> role id of the reaction roles
    const reactChannel: ChannelId                 // the channel of the reaction-roles message
    const botUser: UserId

    var remote: map<UserId, MemberRecord>         // the API's member records
    var grants: set<(UserId, Role)>               // which member holds which role in the guild
    var databaseRoleUpdateLock: bool
    var log: seq<Action>

    ghost predicate Valid()
      reads this
    {
      && (forall k | k in guildRoles :: guildRoles[k].id == k)
      && (forall u | u in remote :: RecordConsistent(remote[u]))
    }

    constructor (guildRoles: map<RoleId, Role>, verifiedRole: Role, unverifiedRole: Role,
                 assignableRoles: map<EmojiId, RoleId>, reactChannel: ChannelId, botUser: UserId,
                 remote: map<UserId, MemberRecord>, grants: set<(UserId, Role)>)
      requires forall k | k in guildRoles :: guildRoles[k].id == k
      requires forall u | u in remote :: RecordConsistent(remote[u])
      ensures Valid() && !databaseRoleUpdateLock && log == []
      ensures this.guildRoles == guildRoles && this.verifiedRole == verifiedRole
      ensures this.unverifiedRole == unverifiedRole && this.assignableRoles == assignableRoles
      ensures this.reactChannel == reactChannel && this.botUser == botUser
      ensures this.remote == remote && this.grants == grants
    {
      this.guildRoles := guildRoles;
      this.verifiedRole := verifiedRole;
      this.unverifiedRole := unverifiedRole;
      this.assignableRoles := assignableRoles;
      this.reactChannel := reactChannel;
      this.botUser := botUser;
      this.remote := remote;
      this.grants := grants;
      this.databaseRoleUpdateLock := false;
      this.log := [];
    }

    /** `member.add_roles(role)`: granted, or rejected with an HTTP error when its id is in `rejects`. */
    method AddRole(u: UserId, role: Role, rejects: set<RoleId>) returns (ok: bool)
      modifies this`log, this`grants
      ensures ok <==> role.id !in rejects
      ensures log == old(log) + AttemptOne(u, Some(role), rejects)
      ensures grants == if ok then old(grants) + {(u, role)} else old(grants)
    {
      ok := role.id !in rejects;
      if ok {
        grants := grants + {(u, role)};
        log := log + [RoleAdded(u, role)];
      } else {
        log := log + [RoleAddRejected(u, role)];
      }
    }

    /** `member.remove_roles(role)`: revoked, or rejected with an HTTP error when its id is in `rejects`. */
    method RemoveRole(u: UserId, role: Role, rejects: set<RoleId>) returns (ok: bool)
      modifies this`log, this`grants
      ensures ok <==> role.id !in rejects
      ensures log == old(log) + RemovalLog(u, role, rejects)
      ensures grants == if ok then old(grants) - {(u, role)} else old(grants)
    {
      ok := role.id !in rejects;
      if ok {
        grants := grants - {(u, role)};
        log := log + [RoleRemoved(u, role)];
      } else {
        log := log + [RoleRemoveRejected(u, role)];
      }
    }

    /** The add loop of `add_verified_roles_to_member`, run while the lock is set: each attempt in
        turn; a rejected one is passed over and so is a missing role. */
    method AddRolesLocked(u: UserId, attempts: seq<Option<Role>>, rejects: set<RoleId>)
      requires databaseRoleUpdateLock
      modifies this`log, this`grants
      ensures log == old(log) + AttemptLog(u, attempts, rejects)
      ensures grants == old(grants) + Grants(u, AddedRoles(attempts, rejects))
    {
      for i := 0 to |attempts|
        invariant log == old(log) + AttemptLog(u, attempts[..i], rejects)
        invariant grants == old(grants) + Grants(u, AddedRoles(attempts[..i], rejects))
      {
        AttemptAppend(u, attempts[..i], attempts[i], rejects);
        assert attempts[..i + 1] == attempts[..i] + [attempts[i]];
        match attempts[i]
        case None =>
        case Some(role) =>
          var _ := AddRole(u, role, rejects);
      }
      assert attempts[..|attempts|] == attempts;
    }

    /** `add_verified_roles_to_member`: take the unverified role away (a rejection is ignored), then,
        with the lock set, add the guild's role for each stored id and the verified role last; the
        lock is clear again afterwards. */
    method AddVerifiedRolesToMember(u: UserId, additional: seq<RoleId>, rejects: set<RoleId>)
      requires Valid()
      modifies this
      ensures Valid() && !databaseRoleUpdateLock && remote == old(remote)
      ensures log == old(log) + RemovalLog(u, unverifiedRole, rejects)
                     + AttemptLog(u, RestoreList(guildRoles, verifiedRole, additional), rejects)
      ensures grants == (if unverifiedRole.id in rejects then old(grants) else old(grants) - {(u, unverifiedRole)})
                        + Grants(u, AddedRoles(RestoreList(guildRoles, verifiedRole, additional), rejects))
    {
      var _ := RemoveRole(u, unverifiedRole, rejects);
      databaseRoleUpdateLock := true;
      var roles := RestoreList(guildRoles, verifiedRole, additional);
      AddRolesLocked(u, roles, rejects);
      databaseRoleUpdateLock := false;
    }

    /** `on_member_update`: stores the ids of the new role list, in order, unless the lists hold the
        same role ids or the lock is set. The write goes to the member's record. */
    method OnMemberUpdate(m: ApiClient.Member, before: seq<Role>, after: seq<Role>)
      requires Valid()
      modifies this`log, this`remote
      ensures Valid()
      ensures RolesToStore(before, after, databaseRoleUpdateLock).None? ==> log == old(log) && remote == old(remote)
      ensures RolesToStore(before, after, databaseRoleUpdateLock).Some? ==>
                var ids := RolesToStore(before, after, databaseRoleUpdateLock).value;
                && log == old(log) + [RemoteWrite(ApiClient.EditMemberRoles(m, ids))]
                && remote == if m.id in old(remote) then old(remote)[m.id := old(remote)[m.id].(roles := ids)]
                             else old(remote)
    {
      if RoleIds(before) == RoleIds(after) || databaseRoleUpdateLock {
        return;
      }
      var rolesIds := RoleIds(after);
      log := log + [RemoteWrite(ApiClient.EditMemberRoles(m, rolesIds))];
      if m.id in remote {
        remote := remote[m.id := remote[m.id].(roles := rolesIds)];
      }
    }

    /** `_new_member_register_in_database`. */
    method NewMemberRegister(m: ApiClient.Member, now: string, rejects: set<RoleId>)
      requires Valid()
      modifies this`log, this`remote, this`grants
      ensures Valid()
      ensures remote == old(remote)[m.id := NewRecord]
      ensures log == old(log) + RegisterLog(m, now, unverifiedRole, rejects)
      ensures grants == if unverifiedRole.id in rejects then old(grants) else old(grants) + {(m.id, unverifiedRole)}
    {
      log := log + [RemoteWrite(ApiClient.InsertNewMember(m, now))];
      remote := remote[m.id := NewRecord];
      var ok := AddRole(m.id, unverifiedRole, rejects);
      if !ok {
        return;
      }
      log := log + [VerificationPing(m.id), LogJoined(m.id), DirectMessage(m.id, WelcomeNew)];
    }

    /** `_new_member_re_joined`: a verified member gets their stored roles back and is marked
        rejoined; an unverified one is marked rejoined and gets the unverified role again. */
    method NewMemberReJoined(m: ApiClient.Member, verified: bool, rejects: set<RoleId>)
      requires Valid() && m.id in remote
      modifies this
      ensures Valid()
      ensures verified ==> !databaseRoleUpdateLock
      ensures verified ==>
                var attempts := RestoreList(guildRoles, verifiedRole, old(remote)[m.id].roles);
                && log == old(log) + VerifiedRejoinLog(m, unverifiedRole, attempts, rejects)
                && remote == old(remote)[m.id := Rejoined(old(remote)[m.id])]
                && grants == (if unverifiedRole.id in rejects then old(grants) else old(grants) - {(m.id, unverifiedRole)})
                             + Grants(m.id, AddedRoles(attempts, rejects))
      ensures !verified ==>
                && log == old(log) + UnverifiedRejoinLog(m, unverifiedRole, rejects)
                && remote == old(remote)[m.id := Rejoined(old(remote)[m.id])]
                && grants == (if unverifiedRole.id in rejects then old(grants) else old(grants) + {(m.id, unverifiedRole)})
                && databaseRoleUpdateLock == old(databaseRoleUpdateLock)
    {
      if verified {
        var previousRoles := remote[m.id].roles;
        AddVerifiedRolesToMember(m.id, previousRoles, rejects);
        log := log + [RemoteWrite(ApiClient.MemberRejoined(m))];
        remote := remote[m.id := Rejoined(remote[m.id])];
        log := log + [LogReturned(m.id), DirectMessage(m.id, WelcomeBack)];
      } else {
        log := log + [RemoteWrite(ApiClient.MemberRejoined(m))];
        remote := remote[m.id := Rejoined(remote[m.id])];
        var ok := AddRole(m.id, unverifiedRole, rejects);
        if !ok {
          return;
        }
        log := log + [LogJoined(m.id), VerificationPing(m.id), DirectMessage(m.id, VerifyReminder)];
      }
    }

    /** The answer to `get_member_meta(member.id)`. */
    function MetaLookup(id: UserId): (r: Result<MemberRecord, ApiClient.ResponseCodeError>)
      reads this
      ensures r.Success? <==> id in remote
      ensures r.Success? ==> r.value == remote[id]
    {
      if id in remote then Success(remote[id]) else Failure(NotFound)
    }

    /** `on_member_join`: registers a member without a record, does nothing for a current verified
        member (no write, no role change, no message) and restores a returning one. */
    method OnMemberJoin(m: ApiClient.Member, now: string, rejects: set<RoleId>)
      requires Valid()
      modifies this
      ensures Valid()
      ensures |log| >= |old(log)|
      ensures RemoteWrites(log[|old(log)|..]) == JoinWrites(ClassifyJoin(old(MetaLookup(m.id))), m, now)
      ensures ClassifyJoin(old(MetaLookup(m.id))) == Register ==>
                && remote == old(remote)[m.id := NewRecord]
                && log == old(log) + RegisterLog(m, now, unverifiedRole, rejects)
                && grants == (if unverifiedRole.id in rejects then old(grants) else old(grants) + {(m.id, unverifiedRole)})
                && databaseRoleUpdateLock == old(databaseRoleUpdateLock)
      ensures ClassifyJoin(old(MetaLookup(m.id))) == AlreadyMember ==>
                && remote == old(remote) && log == old(log) && grants == old(grants)
                && databaseRoleUpdateLock == old(databaseRoleUpdateLock)
      ensures ClassifyJoin(old(MetaLookup(m.id))).Rejoin? ==>
                m.id in old(remote) && remote == old(remote)[m.id := Rejoined(old(remote)[m.id])]
      ensures ClassifyJoin(old(MetaLookup(m.id))) == Rejoin(false) ==>
                && log == old(log) + UnverifiedRejoinLog(m, unverifiedRole, rejects)
                && grants == (if unverifiedRole.id in rejects then old(grants) else old(grants) + {(m.id, unverifiedRole)})
                && databaseRoleUpdateLock == old(databaseRoleUpdateLock)
      ensures ClassifyJoin(old(MetaLookup(m.id))) == Rejoin(true) ==>
                var attempts := RestoreList(guildRoles, verifiedRole, old(remote)[m.id].roles);
                && log == old(log) + VerifiedRejoinLog(m, unverifiedRole, attempts, rejects)
                && grants == (if unverifiedRole.id in rejects then old(grants) else old(grants) - {(m.id, unverifiedRole)})
                             + Grants(m.id, AddedRoles(attempts, rejects))
                && !databaseRoleUpdateLock
    {
      var memberMeta := MetaLookup(m.id);
      var path := ClassifyJoin(memberMeta);
      ghost var attempts := if m.id in remote then RestoreList(guildRoles, verifiedRole, remote[m.id].roles) else [];
      RegisterWrites(m, now, unverifiedRole, rejects);
      UnverifiedRejoinWrites(m, now, unverifiedRole, rejects);
      VerifiedRejoinWrites(m, now, unverifiedRole, attempts, rejects);
      match path
      case Register =>
        NewMemberRegister(m, now, rejects);
      case AlreadyMember =>
      case Rejoin(verified) =>
        NewMemberReJoined(m, verified, rejects);
      assert log[|old(log)|..] == match path
        case Register => RegisterLog(m, now, unverifiedRole, rejects)
        case AlreadyMember => []
        case Rejoin(v) => if v then VerifiedRejoinLog(m, unverifiedRole, attempts, rejects)
                          else UnverifiedRejoinLog(m, unverifiedRole, rejects);
    }

    /** `on_raw_reaction_add`. */
    method OnRawReactionAdd(p: ReactionPayload, rejects: set<RoleId>)
      modifies this`log, this`grants
      ensures log == old(log) + ReactionAddLog(p, reactChannel, botUser,
                                               GetAssignableRole(assignableRoles, guildRoles, p.emoji), rejects)
      ensures var role := GetAssignableRole(assignableRoles, guildRoles, p.emoji);
              grants == if p.channelId == reactChannel && p.userId != botUser && role.Some? && role.value.id !in rejects
                        then old(grants) + {(p.userId, role.value)} else old(grants)
    {
      if p.channelId == reactChannel {
        var role := GetAssignableRole(assignableRoles, guildRoles, p.emoji);
        if p.userId == botUser {
          return;
        } else if role.Some? {
          var ok := AddRole(p.userId, role.value, rejects);
          if ok {
            log := log + [DirectMessage(p.userId, RoleAssigned(role.value.name))];
          }
        }
      }
    }

    /** `on_raw_reaction_remove`. */
    method OnRawReactionRemove(p: ReactionPayload, rejects: set<RoleId>)
      modifies this`log, this`grants
      ensures log == old(log) + ReactionRemoveLog(p, reactChannel,
                                                  GetAssignableRole(assignableRoles, guildRoles, p.emoji), rejects)
      ensures var role := GetAssignableRole(assignableRoles, guildRoles, p.emoji);
              grants == if p.channelId == reactChannel && role.Some? && role.value.id !in rejects
                        then old(grants) - {(p.userId, role.value)} else old(grants)
    {
      if p.channelId == reactChannel {
        var role := GetAssignableRole(assignableRoles, guildRoles, p.emoji);
        if role.Some? {
          var _ := RemoveRole(p.userId, role.value, rejects);
        }
      }
    }
  }
}
