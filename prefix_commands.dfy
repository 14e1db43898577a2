/**
 * The VoiceRoomGen `.v` prefix commands.  A message from a human that
 * starts with `.v` is cut after the prefix, trimmed and split at runs of
 * spaces; the first word, lower-cased, is the command and the rest are its
 * arguments.  The channel commands act on the member's current voice
 * channel, which must be a registered temporary channel, and most of them
 * also require the member to be its recorded owner or an administrator.
 * A platform call that throws ends in the generic error reply, with every
 * step before it kept.
 */
module PrefixCommands {
  import opened Platform
  import opened Text
  import opened VoiceRooms
  import Spec = ManagerSpec
  import opened Interactions

  /** `members.cache.find(...)` by display name, user name or id, taken as given. */
  type Finder = string -> Option<Id>

  /** The flags the prefix claim and transfer hand over. */
  const GrantManage: Patch := map[ManageChannels := Allow, ManageRoles := Allow]

  /** The same flags reset to inherited. */
  const RevokeManage: Patch := map[ManageChannels := Inherit, ManageRoles := Inherit]

  /** The commands that answer "will be implemented soon" once an administrator asks. */
  const AdminCommands: set<string> := {"set-role", "set-eventmanager", "set-antireject", "set-unverified", "set-jailed",
                                       "check", "prefix", "setup", "setupname"}

  /** The commands that answer "will be implemented soon" to anyone. */
  const PlaceholderCommands: set<string> := {"permitchat", "rejectchat", "lockchat", "unlockchat",
                                             "sb-off", "sb-on", "activity-off", "activity-on"}

  /** The commands gated on owning the channel (or being an administrator). */
  const OwnerCommands: set<string> := {"panel", "man", "permit", "reject", "lock", "unlock", "transfer", "clear", "name", "limit"}

  /**
   * `message.content.slice(2).trim().split(/ +/)`, then `args.shift().toLowerCase()`;
   * `None` when the message does not start with `.v`.
   */
  function ParseCommand(content: string): (r: Option<(string, seq<string>)>)
    ensures r.Some? <==> StartsWith(content, ".v")
  {
    if !StartsWith(content, ".v") then None
    else
      var args := SplitSpaces(Trim(content[2..]));
      Some((Lower(args[0]), args[1..]))
  }

  /** `.v` and a space, then tokens joined by single spaces, parse back into the first token, lower-cased, and the rest. */
  lemma ParseCommandRoundTrip(words: seq<string>)
    requires |words| >= 1
    requires forall i :: 0 <= i < |words| ==> IsToken(words[i])
    ensures ParseCommand(".v " + Join(words, " ")) == Some((Lower(words[0]), words[1..]))
  {
    var tail := " " + Join(words, " ");
    PrefixThenSpace(Join(words, " "));
    SplitSpacedTokens(words);
    ParseCommandAfterPrefix(tail, words);
  }

  /** `.v` and a space before some text is `.v` before the space and that text. */
  lemma PrefixThenSpace(j: string)
    ensures ".v " + j == ".v" + (" " + j)
  {
  }

  /** Text that is a space and then tokens joined by single spaces trims and splits back into those tokens. */
  lemma SplitSpacedTokens(words: seq<string>)
    requires |words| >= 1
    requires forall i :: 0 <= i < |words| ==> IsToken(words[i])
    ensures SplitSpaces(Trim(" " + Join(words, " "))) == words
  {
    TrimSpacedTokens(words);
    TokensAreWords(words);
    SplitSpacesJoin(words);
  }

  /** What follows `.v` is trimmed and split on runs of spaces into the command and its arguments. */
  lemma ParseCommandAfterPrefix(tail: string, args: seq<string>)
    requires args == SplitSpaces(Trim(tail))
    ensures ParseCommand(".v" + tail) == Some((Lower(args[0]), args[1..]))
  {
    var content := ".v" + tail;
    assert content[..2] == ".v" && content[2..] == tail;
  }

  /** Where a channel command stands after its checks: the channel it acts on, or the refusal. */
  datatype Gate = Pass(channel: Id) | Refuse(reply: Reply)

  /** The member must be connected to a cached channel that is registered as temporary. */
  function TempGate(s: State, member: Member): (g: Gate)
    ensures g.Pass? ==> g.channel in s.world.channels && g.channel in s.tempChannels && InChannel(s.world, member.id, g.channel)
    ensures g.Pass? <==> VoiceChannelOf(s.world, member.id).Some? && VoiceChannelOf(s.world, member.id).value in s.tempChannels
    ensures g.Refuse? ==> g.reply == (if VoiceChannelOf(s.world, member.id).None? then NotInVoice else NotTemporary)
  {
    match VoiceChannelOf(s.world, member.id)
    case None => Refuse(NotInVoice)
    case Some(ch) => if ch !in s.tempChannels then Refuse(NotTemporary) else Pass(ch)
  }

  /**
   * `member.permissions.has('ADMINISTRATOR')`.  The platform library names
   * the flag `Administrator`, so the upper-case name is no flag: `has`
   * answers true at once for an administrator (it checks that bit first)
   * and throws a range error for anyone else, where resolving the name fails.
   */
  function AdministratorByName(member: Member): (r: Outcome<bool>)
    ensures r.Returned? <==> member.isAdmin
    ensures r != Returned(false)
  {
    if member.isAdmin then Returned(true) else Threw
  }

  /**
   * `ownerId !== member.id && !member.permissions.has('ADMINISTRATOR')`
   * refuses, after the temporary-channel checks.  The owner never reaches
   * `has`; anyone else who is not an administrator makes it throw, so the
   * refusal is the generic error reply of the message handler's catch.
   */
  function OwnerGate(s: State, member: Member): (g: Gate)
    ensures g.Pass? <==> TempGate(s, member).Pass? && Spec.HasChannelPermission(s, member, TempGate(s, member).channel)
    ensures g.Pass? ==> g == TempGate(s, member)
    ensures TempGate(s, member).Pass? && g.Refuse? ==> g.reply == ErrorOccurred
    ensures TempGate(s, member).Refuse? ==> g == TempGate(s, member)
  {
    var g := TempGate(s, member);
    if g.Refuse? || (g.channel in s.channelOwners && s.channelOwners[g.channel] == member.id) then g
    else
      match AdministratorByName(member)
      case Returned(admin) => if admin then g else Refuse(NotOwner)
      case Threw => Refuse(ErrorOccurred)
  }

  /** The administrator-only commands: the placeholder for an administrator; `has` throws for anyone else. */
  function AdminCommand(member: Member): (r: Reply)
    ensures r == Placeholder <==> member.isAdmin
    ensures !member.isAdmin ==> r == ErrorOccurred
  {
    match AdministratorByName(member)
    case Returned(admin) => if admin then Placeholder else AdminRequired
    case Threw => ErrorOccurred
  }

  /** The member a query names, when the name search finds a cached member. */
  function FindMember(w: World, find: Finder, query: string): Option<Member> {
    match find(query)
    case Some(m) => if m in w.memberCache then Some(w.memberCache[m]) else None
    case None => None
  }

  /** The recorded owner, when the guild's member cache holds them (`members.cache.get(ownerId)`). */
  function CachedOwner(s: State, id: Id): Option<Id> {
    if id in s.channelOwners && s.channelOwners[id] in s.world.memberCache then Some(s.channelOwners[id]) else None
  }

  /** The two flags the claim and transfer hand over. */
  predicate IsManage(f: Perm) {
    f == ManageChannels || f == ManageRoles
  }

  /** `from`'s manage flags reset, when `from` is given. */
  function RevokeManageOf(w: World, id: Id, from: Option<Id>): (r: World)
    requires id in w.channels
    ensures forall x, f ::
      FlagOf(r, id, x, f) == if from.Some? && x == User(from.value) && IsManage(f) then None else FlagOf(w, id, x, f)
    ensures OnlyOverwritesOf(w, r, id)
  {
    if from.Some? then EditOverwrite(w, id, User(from.value), RevokeManage) else w
  }

  /** `to` granted the manage flags, when the edit goes through. */
  function GrantManageTo(w: World, id: Id, to: Id, ok: bool): (r: World)
    requires id in w.channels
    ensures forall x, f ::
      FlagOf(r, id, x, f) == if ok && x == User(to) && IsManage(f) then Some(true) else FlagOf(w, id, x, f)
    ensures OnlyOverwritesOf(w, r, id)
  {
    if ok then EditOverwrite(w, id, User(to), GrantManage) else w
  }

  /**
   * The two overwrite edits of the prefix claim and transfer: `from`, when
   * given, has the manage flags reset (`revokeOk`), then `to` is granted them
   * (`grantOk`).  `false` when an edit threw; the edits before it stay.
   */
  function Handover(w: World, id: Id, from: Option<Id>, to: Id, revokeOk: bool, grantOk: bool): (r: (bool, World))
    requires id in w.channels
    ensures r.0 <==> (from.None? || revokeOk) && grantOk
    ensures forall x, f ::
      FlagOf(r.1, id, x, f) == if IsManage(f) && x == User(to) && r.0 then Some(true)
      else if IsManage(f) && from.Some? && x == User(from.value) && revokeOk then None
      else FlagOf(w, id, x, f)
    ensures OnlyOverwritesOf(w, r.1, id)
  {
    if from.Some? && !revokeOk then (false, w)
    else
      var w1 := RevokeManageOf(w, id, from);
      var w2 := GrantManageTo(w1, id, to, grantOk);
      OnlyOverwritesOfTrans(w, w1, w2, id);
      (grantOk, w2)
  }

  /**
   * `handlePanelCommand`: the owner gets the control panel posted in the
   * channel.  `sendControlPanel` catches its own failures, so the
   * confirmation follows whether or not the panel was posted.
   */
  function PanelCommand(s: State, member: Member): (r: Reply)
    ensures OwnerGate(s, member).Refuse? ==> r == OwnerGate(s, member).reply
    ensures r == PanelSent <==> OwnerGate(s, member).Pass?
  {
    match OwnerGate(s, member)
    case Refuse(reply) => reply
    case Pass(_) => PanelSent
  }

  /** `handleVcInfoCommand`: anyone in the temporary channel gets its information. */
  function VcInfoCommand(s: State, member: Member): (r: Reply)
    ensures TempGate(s, member).Refuse? ==> r == TempGate(s, member).reply
    ensures TempGate(s, member).Pass? ==>
      var ch := TempGate(s, member).channel;
      && r.VcInfo? && r.name == s.world.channels[ch].name
      && (r.owner.Some? <==> CachedOwner(s, ch).Some?)
      && (r.owner.Some? ==> r.owner.value == s.world.memberCache[CachedOwner(s, ch).value].displayName)
      && r.users == |Occupants(s.world, ch)|
      && (r.limit.Some? <==> SettingsOf(s, ch).userLimit.Some? && SettingsOf(s, ch).userLimit.value != 0)
      && (r.limit.Some? ==> r.limit == SettingsOf(s, ch).userLimit)
      && (r.locked <==> SettingsOf(s, ch).locked == Some(true))
  {
    match TempGate(s, member)
    case Refuse(reply) => reply
    case Pass(ch) => VcInfoOf(s, ch)
  }

  /** `handleOwnerInfoCommand`: the owner's display name, when the owner is cached. */
  function OwnerInfoCommand(s: State, member: Member): (r: Reply)
    ensures TempGate(s, member).Refuse? ==> r == TempGate(s, member).reply
    ensures TempGate(s, member).Pass? ==> (r == OwnerNotFound <==> CachedOwner(s, TempGate(s, member).channel).None?)
    ensures TempGate(s, member).Pass? && CachedOwner(s, TempGate(s, member).channel).Some? ==>
      r == OwnerIs(s.world.memberCache[CachedOwner(s, TempGate(s, member).channel).value].displayName)
  {
    match TempGate(s, member)
    case Refuse(reply) => reply
    case Pass(ch) => match OwnerName(s, ch) case Some(n) => OwnerIs(n) case None => OwnerNotFound
  }

  /**
   * `handleClaimCommand`: refused while the recorded owner, looked up in the
   * member cache, is connected to the channel.  Otherwise the claimer is
   * recorded as owner, the cached old owner's manage flags are reset and the
   * claimer is granted them.  There is no `allowClaim` check.
   */
  function ClaimCommand(s: State, member: Member, calls: Calls): (r: (Reply, State))
    ensures TempGate(s, member).Refuse? ==> r == (TempGate(s, member).reply, s)
    ensures TempGate(s, member).Pass? ==>
      var ch := TempGate(s, member).channel;
      var owner := CachedOwner(s, ch);
      && (owner.Some? && InChannel(s.world, owner.value, ch) ==> r == (OwnerStillHere, s))
      && (!(owner.Some? && InChannel(s.world, owner.value, ch)) ==>
            && r.1.channelOwners == s.channelOwners[ch := member.id]
            && (r.0 == ClaimedChannel(s.world.channels[ch].name) <==> (owner.None? || calls.first) && calls.second)
            && (r.0 != ClaimedChannel(s.world.channels[ch].name) ==> r.0 == ErrorOccurred))
    ensures r.1.tempChannels == s.tempChannels && r.1.channelSettings == s.channelSettings && r.1.pending == s.pending
    ensures Keeps(s, r.1)
  {
    match TempGate(s, member)
    case Refuse(reply) => (reply, s)
    case Pass(ch) =>
      var owner := CachedOwner(s, ch);
      if owner.Some? && InChannel(s.world, owner.value, ch) then (OwnerStillHere, s)
      else
        var h := Handover(s.world, ch, owner, member.id, calls.first, calls.second);
        (if h.0 then ClaimedChannel(s.world.channels[ch].name) else ErrorOccurred,
         s.(channelOwners := s.channelOwners[ch := member.id], world := h.1))
  }

  /**
   * `handleOwnerCommand`, reached by `.v transfer`: the target is recorded as
   * owner, then the ACTING member's manage flags are reset and the target is
   * granted them.  The recorded owner's overwrite is not touched, and a
   * member may name themselves.
   */
  function TransferCommand(s: State, member: Member, args: seq<string>, find: Finder, calls: Calls): (r: (Reply, State))
    ensures OwnerGate(s, member).Refuse? ==> r == (OwnerGate(s, member).reply, s)
    ensures OwnerGate(s, member).Pass? && args == [] ==> r == (MissingArgument, s)
    ensures OwnerGate(s, member).Pass? && args != [] ==>
      var ch := OwnerGate(s, member).channel;
      match FindMember(s.world, find, Join(args, " "))
      case None => r == (UserNotFound, s)
      case Some(t) =>
        && r.1.channelOwners == s.channelOwners[ch := t.id]
        && (r.0 == Transferred(t.displayName) <==> calls.first && calls.second)
        && (r.0 != Transferred(t.displayName) ==> r.0 == ErrorOccurred)
    ensures r.1.tempChannels == s.tempChannels && r.1.channelSettings == s.channelSettings && r.1.pending == s.pending
    ensures Keeps(s, r.1)
  {
    match OwnerGate(s, member)
    case Refuse(reply) => (reply, s)
    case Pass(ch) =>
      if args == [] then (MissingArgument, s)
      else
        match FindMember(s.world, find, Join(args, " "))
        case None => (UserNotFound, s)
        case Some(t) =>
          var h := Handover(s.world, ch, Some(member.id), t.id, calls.first, calls.second);
          (if h.0 then Transferred(t.displayName) else ErrorOccurred,
           s.(channelOwners := s.channelOwners[ch := t.id], world := h.1))
  }

  /** `handleLockCommand` (`lock`) and `handleUnlockCommand`: the @everyone connect flag, then `locked`. */
  function LockCommand(s: State, member: Member, lock: bool, editOk: bool): (r: (Reply, State))
    ensures OwnerGate(s, member).Refuse? ==> r == (OwnerGate(s, member).reply, s)
    ensures OwnerGate(s, member).Pass? ==>
      var ch := OwnerGate(s, member).channel;
      && (editOk ==> r.0 == (if lock then Locked else Unlocked)
                     && FlagOf(r.1.world, ch, Everyone, Connect) == Some(!lock)
                     && r.1.channelSettings == s.channelSettings[ch := SettingsOf(s, ch).(locked := Some(lock))]
                     && Spec.EveryoneFlagOnly(s, r.1, ch, Connect))
      && (!editOk ==> r == (ErrorOccurred, s))
    ensures Keeps(s, r.1)
  {
    match OwnerGate(s, member)
    case Refuse(reply) => (reply, s)
    case Pass(ch) =>
      if !editOk then (ErrorOccurred, s)
      else if lock then (Locked, Spec.LockChannel(s, ch, true))
      else (Unlocked, Spec.UnlockChannel(s, ch, true))
  }

  /** A limit `parseInt` accepts and the command allows: 0 to 99. */
  predicate ValidLimit(arg: string) {
    ParseInt(arg).Some? && 0 <= ParseInt(arg).value <= 99
  }

  /** `handleLimitCommand`: `parseInt` of the first argument, checked to lie in 0..99, then `setUserLimit`. */
  function LimitCommand(s: State, member: Member, args: seq<string>, setOk: bool): (r: (Reply, State))
    ensures OwnerGate(s, member).Refuse? ==> r == (OwnerGate(s, member).reply, s)
    ensures OwnerGate(s, member).Pass? ==>
      var ch := OwnerGate(s, member).channel;
      && (args == [] ==> r == (MissingArgument, s))
      && (args != [] && !ValidLimit(args[0]) ==> r == (InvalidLimit, s))
      && (args != [] && ValidLimit(args[0]) && setOk ==>
            && r.0 == LimitSet(ParseInt(args[0]).value)
            && ch in r.1.world.channels && r.1.world.channels[ch].userLimit == ParseInt(args[0]).value
            && r.1.channelSettings == s.channelSettings[ch := SettingsOf(s, ch).(userLimit := ParseInt(args[0]))]
            && r.1.world == s.world.(channels := s.world.channels[ch := s.world.channels[ch].(userLimit := ParseInt(args[0]).value)])
            && r.1.tempChannels == s.tempChannels && r.1.channelOwners == s.channelOwners && r.1.pending == s.pending)
      && (args != [] && ValidLimit(args[0]) && !setOk ==> r == (ErrorOccurred, s))
    ensures Keeps(s, r.1)
  {
    match OwnerGate(s, member)
    case Refuse(reply) => (reply, s)
    case Pass(ch) =>
      if args == [] then (MissingArgument, s)
      else if !ValidLimit(args[0]) then (InvalidLimit, s)
      else
        var n := ParseInt(args[0]).value;
        (if setOk then LimitSet(n) else ErrorOccurred, Spec.SetUserLimit(s, ch, n, setOk))
  }

  /** `handleNameCommand`: the arguments joined by spaces, at most 100 UTF-16 units, become the name. */
  function NameCommand(s: State, member: Member, args: seq<string>, setOk: bool): (r: (Reply, State))
    ensures OwnerGate(s, member).Refuse? ==> r == (OwnerGate(s, member).reply, s)
    ensures OwnerGate(s, member).Pass? ==>
      var ch := OwnerGate(s, member).channel;
      var name := Join(args, " ");
      && (args == [] ==> r == (MissingArgument, s))
      && (args != [] && Utf16Length(name) > 100 ==> r == (NameTooLong, s))
      && (args != [] && Utf16Length(name) <= 100 && setOk ==>
            && r.0 == Renamed(name) && ch in r.1.world.channels && r.1.world.channels[ch].name == name
            && r.1 == s.(world := s.world.(channels := s.world.channels[ch := s.world.channels[ch].(name := name)])))
      && (args != [] && Utf16Length(name) <= 100 && !setOk ==> r == (ErrorOccurred, s))
    ensures Keeps(s, r.1)
  {
    match OwnerGate(s, member)
    case Refuse(reply) => (reply, s)
    case Pass(ch) =>
      if args == [] then (MissingArgument, s)
      else
        var name := Join(args, " ");
        if Utf16Length(name) > 100 then (NameTooLong, s)
        else (if setOk then Renamed(name) else ErrorOccurred, Spec.RenameChannel(s, ch, name, setOk))
  }

  /**
   * `handleClearCommand`: the number of messages, 10 by default, must parse
   * to 1..99; fetching and deleting them (`deleteOk`) is handled by the
   * command's own catch.  No state is involved.
   */
  function ClearCommand(s: State, member: Member, args: seq<string>, deleteOk: bool): (r: Reply)
    ensures OwnerGate(s, member).Refuse? ==> r == OwnerGate(s, member).reply
    ensures r.Cleared? ==> 1 <= r.amount <= 99 && (args == [] ==> r.amount == 10) && (args != [] ==> ParseInt(args[0]) == Some(r.amount))
    ensures OwnerGate(s, member).Pass? && args != [] && !(ParseInt(args[0]).Some? && 1 <= ParseInt(args[0]).value <= 99) ==> r == InvalidAmount
    ensures OwnerGate(s, member).Pass? && r != InvalidAmount ==> (r.Cleared? <==> deleteOk) && (!deleteOk ==> r == ClearFailed)
  {
    match OwnerGate(s, member)
    case Refuse(reply) => reply
    case Pass(_) =>
      var amount := if args == [] then Some(10) else ParseInt(args[0]);
      if amount.None? || amount.value < 1 || amount.value > 99 then InvalidAmount
      else if deleteOk then Cleared(amount.value)
      else ClearFailed
  }

  /**
   * The branch `handlePermitRejectCommand` takes: the message's first
   * space-separated word with its first two characters dropped, lower-cased,
   * must be `permit`.
   */
  predicate PermitBranch(content: string) {
    Lower(Slice(Split(content, ' ')[0], 2)) == "permit"
  }

  /**
   * The permit branch is taken exactly when the message's first eight
   * characters are two non-space characters and `permit` in any case, and
   * the message ends there or goes on with a space.
   */
  lemma PermitBranchExact(content: string)
    ensures PermitBranch(content) <==>
      && |content| >= 8 && content[0] != ' ' && content[1] != ' '
      && Lower(content[2..8]) == "permit"
      && (|content| == 8 || content[8] == ' ')
  {
    var w := Split(content, ' ')[0];
    if PermitBranch(content) {
      assert |w| >= 2;
      assert |w| == 8;
      assert w[2..] == content[2..8];
      assert w[0] == content[0] && w[1] == content[1];
    }
    if && |content| >= 8 && content[0] != ' ' && content[1] != ' '
       && Lower(content[2..8]) == "permit" && (|content| == 8 || content[8] == ' ')
    {
      forall i | 0 <= i < 8
        ensures content[i] != ' '
      {
        if i >= 2 {
          assert Lower(content[2..8])[i - 2] == "permit"[i - 2];
        }
      }
      assert w == content[..8];
      assert Slice(w, 2) == content[2..8];
    }
  }

  /**
   * `handlePermitRejectCommand`: the permit branch allows connect and view;
   * every other branch denies connect and disconnects the target when it is
   * connected to the channel.
   */
  function PermitRejectCommand(s: State, member: Member, args: seq<string>, content: string, find: Finder, calls: Calls): (r: (Reply, State))
    ensures OwnerGate(s, member).Refuse? ==> r == (OwnerGate(s, member).reply, s)
    ensures OwnerGate(s, member).Pass? ==>
      var ch := OwnerGate(s, member).channel;
      && (args == [] ==> r == (MissingArgument, s))
      && (args != [] ==>
            match FindMember(s.world, find, Join(args, " "))
            case None => r == (UserNotFound, s)
            case Some(t) =>
              r == if PermitBranch(content) then GrantAccess(s, ch, t, calls.first) else RemoveAccess(s, ch, t, calls.first, calls.second))
    ensures Keeps(s, r.1)
  {
    match OwnerGate(s, member)
    case Refuse(reply) => (reply, s)
    case Pass(ch) =>
      if args == [] then (MissingArgument, s)
      else
        match FindMember(s.world, find, Join(args, " "))
        case None => (UserNotFound, s)
        case Some(t) =>
          if PermitBranch(content) then GrantAccess(s, ch, t, calls.first) else RemoveAccess(s, ch, t, calls.first, calls.second)
  }

  /** No command names two arms of the switch. */
  lemma CommandSetsDisjoint()
    ensures ReplyCommands !! AdminCommands && ReplyCommands !! PlaceholderCommands
    ensures AdminCommands !! PlaceholderCommands
  {
  }

  /** The named commands of the switch that only reply. */
  const ReplyCommands: set<string> := {"panel", "help", "vcinfo", "owner", "clear", "man"}

  /**
   * The commands that only reply: help, panel, information and the
   * placeholders; a command no arm of the switch names gets the
   * unknown-command reply.
   */
  function ReplyOnlyCommand(s: State, command: string, member: Member, args: seq<string>, calls: Calls): (r: Reply)
    ensures command == "help" ==> r == Help
    ensures command == "man" && OwnerGate(s, member).Pass? ==> r == Placeholder
    ensures command == "man" && OwnerGate(s, member).Refuse? ==> r == OwnerGate(s, member).reply
    ensures command in AdminCommands ==> r == AdminCommand(member)
    ensures command in PlaceholderCommands ==> r == Placeholder
    ensures command !in ReplyCommands + AdminCommands + PlaceholderCommands ==> r == UnknownCommand
  {
    CommandSetsDisjoint();
    if command == "panel" then PanelCommand(s, member)
    else if command == "help" then Help
    else if command == "vcinfo" then VcInfoCommand(s, member)
    else if command == "owner" then OwnerInfoCommand(s, member)
    else if command == "clear" then ClearCommand(s, member, args, calls.first)
    else if command == "man" then (match OwnerGate(s, member) case Refuse(reply) => reply case Pass(_) => Placeholder)
    else if command in AdminCommands then AdminCommand(member)
    else if command in PlaceholderCommands then Placeholder
    else UnknownCommand
  }

  /** The `switch (command)` of the message handler. */
  function Dispatch(s: State, command: string, args: seq<string>, content: string, member: Member, find: Finder, calls: Calls): (r: (Reply, State))
    ensures Keeps(s, r.1)
  {
    if command == "claim" then ClaimCommand(s, member, calls)
    else if command == "transfer" then TransferCommand(s, member, args, find, calls)
    else if command == "lock" then LockCommand(s, member, true, calls.first)
    else if command == "unlock" then LockCommand(s, member, false, calls.first)
    else if command == "limit" then LimitCommand(s, member, args, calls.first)
    else if command == "name" then NameCommand(s, member, args, calls.first)
    else if command == "permit" || command == "reject" then PermitRejectCommand(s, member, args, content, find, calls)
    else (ReplyOnlyCommand(s, command, member, args, calls), s)
  }

  /**
   * The `messageCreate` listener: messages from bots and messages without
   * the prefix get no reply and change nothing; every other message gets
   * exactly one reply.  No command touches the registry of temporary
   * channels or the pending checks, and every registered channel keeps its
   * owner and settings entries.
   */
  function HandleMessage(s: State, fromBot: bool, content: string, member: Member, find: Finder, calls: Calls): (r: (Option<Reply>, State))
    ensures fromBot || !StartsWith(content, ".v") ==> r == (None, s)
    ensures !fromBot && StartsWith(content, ".v") ==> r.0.Some?
    ensures Keeps(s, r.1)
    ensures Valid(s) ==> Valid(r.1)
  {
    if fromBot then (None, s)
    else
      match ParseCommand(content)
      case None => (None, s)
      case Some((command, args)) =>
        var d := Dispatch(s, command, args, content, member, find, calls);
        (Some(d.0), d.1)
  }

  /**
   * Every owner-only command refuses a member who is outside a temporary
   * channel or is neither its owner nor an administrator, and changes nothing.
   */
  lemma OwnerCommandsGated(s: State, command: string, args: seq<string>, content: string, member: Member, find: Finder, calls: Calls)
    requires command in OwnerCommands && OwnerGate(s, member).Refuse?
    ensures Dispatch(s, command, args, content, member, find, calls) == (OwnerGate(s, member).reply, s)
  {
    assert command in {"panel", "man", "permit", "reject", "lock", "unlock", "transfer", "clear", "name", "limit"};
  }

  /**
   * So the refusal text of the owner check is never sent: a member in a
   * temporary channel who is neither its owner nor an administrator gets
   * the generic error reply from every owner command, and nothing changes.
   */
  lemma NonOwnerGetsError(s: State, command: string, args: seq<string>, content: string, member: Member, find: Finder, calls: Calls)
    requires command in OwnerCommands && TempGate(s, member).Pass?
    requires !Spec.HasChannelPermission(s, member, TempGate(s, member).channel)
    ensures Dispatch(s, command, args, content, member, find, calls) == (ErrorOccurred, s)
  {
    OwnerCommandsGated(s, command, args, content, member, find, calls);
  }

  /** Likewise a member who is not an administrator gets the generic error reply from every administrator command. */
  lemma NonAdminGetsError(s: State, command: string, args: seq<string>, content: string, member: Member, find: Finder, calls: Calls)
    requires command in AdminCommands && !member.isAdmin
    ensures Dispatch(s, command, args, content, member, find, calls) == (ErrorOccurred, s)
  {
    assert command !in {"claim", "transfer", "lock", "unlock", "limit", "name", "permit", "reject"};
  }

  /**
   * `.v permit someone` takes the reject branch: the first word of the
   * message is `.v`, which is empty once its two characters are dropped.
   * Only `.vpermit someone`, without the space, permits.
   */
  lemma SpacedPermitRejects(rest: string)
    ensures !PermitBranch(".v " + rest)
    ensures PermitBranch(".vpermit " + rest)
  {
    var spaced, joined := ".v " + rest, ".vpermit " + rest;
    PermitBranchExact(spaced);
    if |spaced| >= 8 {
      assert spaced[2] == ' ' && Lower(spaced[2..8])[0] == ' ';
    }
    PermitBranchExact(joined);
    assert joined[2..8] == "permit" && joined[8] == ' ';
    assert Lower("permit") == "permit";
  }

  /**
   * So `.v permit` followed by a member name, sent by the owner, removes the
   * member's access: connect is denied and the member is not left connected.
   */
  lemma PermitCommandRejects(s: State, member: Member, name: string, find: Finder, calls: Calls, ch: Id, t: Member)
    requires OwnerGate(s, member) == Pass(ch) && IsToken(name)
    requires FindMember(s.world, find, name) == Some(t)
    ensures HandleMessage(s, false, ".v permit " + name, member, find, calls) ==
      var r := RemoveAccess(s, ch, t, calls.first, calls.second); (Some(r.0), r.1)
  {
    PermitMessage(s, member, name, find, calls);
    SpacedPermitName(name);
    assert Join([name], " ") == name;
  }

  /** The message `.v permit` and a name is on the reject branch. */
  lemma SpacedPermitName(name: string)
    ensures !PermitBranch(".v permit " + name)
  {
    assert ".v permit " + name == ".v " + ("permit " + name) by {
      assert ".v permit " == ".v " + "permit ";
    }
    SpacedPermitRejects("permit " + name);
  }

  /** `permit` and `reject` both reach `handlePermitRejectCommand`. */
  lemma DispatchPermitReject(s: State, command: string, args: seq<string>, content: string, member: Member, find: Finder, calls: Calls)
    requires command == "permit" || command == "reject"
    ensures Dispatch(s, command, args, content, member, find, calls) == PermitRejectCommand(s, member, args, content, find, calls)
  {
  }

  /** `.v permit` and a token reach `handlePermitRejectCommand` with that token as the only argument. */
  lemma PermitMessage(s: State, member: Member, name: string, find: Finder, calls: Calls)
    requires IsToken(name)
    ensures var r := PermitRejectCommand(s, member, [name], ".v permit " + name, find, calls);
      HandleMessage(s, false, ".v permit " + name, member, find, calls) == (Some(r.0), r.1)
  {
    ParsePermit(name);
    DispatchPermitReject(s, "permit", [name], ".v permit " + name, member, find, calls);
  }

  /** `.v permit` and a token parse into the command `permit` and that token. */
  lemma ParsePermit(name: string)
    requires IsToken(name)
    ensures ParseCommand(".v permit " + name) == Some(("permit", [name]))
  {
    PermitWords(name);
    ParseCommandRoundTrip(["permit", name]);
  }

  /** `permit` and a name are two tokens that join into the `.v permit` line, and `permit` is already lower-case. */
  lemma PermitWords(name: string)
    requires IsToken(name)
    ensures forall i :: 0 <= i < 2 ==> IsToken(["permit", name][i])
    ensures ".v " + Join(["permit", name], " ") == ".v permit " + name
    ensures Lower("permit") == "permit"
  {
    var words := ["permit", name];
    assert Join(words, " ") == "permit" + " " + Join([name], " ");
    assert Join([name], " ") == name;
    assert IsToken("permit");
  }

  /**
   * `.v claim` looks the recorded owner up in the member cache first, so an
   * owner missing from the cache loses the channel while connected to it.
   */
  lemma ClaimOverUncachedOwner(s: State, member: Member, calls: Calls)
    requires TempGate(s, member).Pass?
    requires var ch := TempGate(s, member).channel;
      ch in s.channelOwners && s.channelOwners[ch] !in s.world.memberCache && InChannel(s.world, s.channelOwners[ch], ch)
    requires calls.second
    ensures var ch := TempGate(s, member).channel;
      && ClaimCommand(s, member, calls).0 == ClaimedChannel(s.world.channels[ch].name)
      && ClaimCommand(s, member, calls).1.channelOwners[ch] == member.id
  {
  }

  /**
   * `.v claim` resets the cached previous owner's manage flags, where the
   * claim button keeps them; the claimer holds the manage flags.
   */
  lemma ClaimResetsPreviousOwner(s: State, member: Member, calls: Calls)
    requires TempGate(s, member).Pass? && calls.first && calls.second
    requires var ch := TempGate(s, member).channel;
      CachedOwner(s, ch).Some? && CachedOwner(s, ch).value != member.id && !InChannel(s.world, CachedOwner(s, ch).value, ch)
    ensures var ch := TempGate(s, member).channel;
      var prev := CachedOwner(s, ch).value;
      var w := ClaimCommand(s, member, calls).1.world;
      && FlagOf(w, ch, User(prev), ManageChannels) == None && FlagOf(w, ch, User(prev), ManageRoles) == None
      && FlagOf(w, ch, User(member.id), ManageChannels) == Some(true) && FlagOf(w, ch, User(member.id), ManageRoles) == Some(true)
  {
    var ch := TempGate(s, member).channel;
    var prev := CachedOwner(s, ch).value;
    ClaimWorld(s, member, calls);
    HandoverCompleted(s.world, ch, prev, member.id);
  }

  /** The world after a claim past the checks is the world after the handover from the cached owner. */
  lemma ClaimWorld(s: State, member: Member, calls: Calls)
    requires TempGate(s, member).Pass?
    requires var ch := TempGate(s, member).channel;
      !(CachedOwner(s, ch).Some? && InChannel(s.world, CachedOwner(s, ch).value, ch))
    ensures var ch := TempGate(s, member).channel;
      ClaimCommand(s, member, calls).1.world == Handover(s.world, ch, CachedOwner(s, ch), member.id, calls.first, calls.second).1
  {
  }

  /** A completed handover between two members leaves `from` without the manage flags and `to` with them. */
  lemma HandoverCompleted(w: World, id: Id, from: Id, to: Id)
    requires id in w.channels && from != to
    ensures var r := Handover(w, id, Some(from), to, true, true).1;
      && FlagOf(r, id, User(from), ManageChannels) == None && FlagOf(r, id, User(from), ManageRoles) == None
      && FlagOf(r, id, User(to), ManageChannels) == Some(true) && FlagOf(r, id, User(to), ManageRoles) == Some(true)
  {
    assert IsManage(ManageChannels) && IsManage(ManageRoles);
  }

  /**
   * `.v transfer` resets the acting member's manage flags, not the recorded
   * owner's: an administrator who transfers someone else's channel loses
   * flags they may never have held.
   */
  lemma TransferRevokesActor(s: State, actor: Member, args: seq<string>, find: Finder, calls: Calls, ch: Id, t: Member)
    requires OwnerGate(s, actor) == Pass(ch) && args != [] && calls.first && calls.second
    requires FindMember(s.world, find, Join(args, " ")) == Some(t) && t.id != actor.id
    ensures var r := TransferCommand(s, actor, args, find, calls).1;
      && r.channelOwners[ch] == t.id
      && FlagOf(r.world, ch, User(actor.id), ManageChannels) == None && FlagOf(r.world, ch, User(actor.id), ManageRoles) == None
      && FlagOf(r.world, ch, User(t.id), ManageChannels) == Some(true) && FlagOf(r.world, ch, User(t.id), ManageRoles) == Some(true)
  {
    TransferWorld(s, actor, args, find, calls);
    HandoverCompleted(s.world, ch, actor.id, t.id);
  }

  /**
   * The recorded owner's overwrite survives a transfer made by an
   * administrator, although the owner is no longer recorded.
   */
  lemma TransferKeepsOwnerOverwrite(s: State, admin: Member, args: seq<string>, find: Finder, calls: Calls, ch: Id, t: Member, f: Perm)
    requires OwnerGate(s, admin) == Pass(ch) && args != []
    requires ch in s.channelOwners && s.channelOwners[ch] != admin.id
    requires FindMember(s.world, find, Join(args, " ")) == Some(t) && t.id != s.channelOwners[ch]
    ensures var owner := s.channelOwners[ch];
      FlagOf(TransferCommand(s, admin, args, find, calls).1.world, ch, User(owner), f) == FlagOf(s.world, ch, User(owner), f)
  {
    TransferWorld(s, admin, args, find, calls);
    HandoverSparesOthers(s.world, ch, admin.id, t.id, calls.first, calls.second, User(s.channelOwners[ch]), f);
  }

  /** A handover leaves every other subject's overwrite as it was. */
  lemma HandoverSparesOthers(w: World, id: Id, from: Id, to: Id, revokeOk: bool, grantOk: bool, x: Subject, f: Perm)
    requires id in w.channels && x != User(from) && x != User(to)
    ensures FlagOf(Handover(w, id, Some(from), to, revokeOk, grantOk).1, id, x, f) == FlagOf(w, id, x, f)
  {
  }

  /** The world and the owners after a transfer past the checks. */
  lemma TransferWorld(s: State, member: Member, args: seq<string>, find: Finder, calls: Calls)
    requires OwnerGate(s, member).Pass? && args != [] && FindMember(s.world, find, Join(args, " ")).Some?
    ensures var ch := OwnerGate(s, member).channel;
      var t := FindMember(s.world, find, Join(args, " ")).value;
      var r := TransferCommand(s, member, args, find, calls);
      && r.1.world == Handover(s.world, ch, Some(member.id), t.id, calls.first, calls.second).1
      && r.1.channelOwners == s.channelOwners[ch := t.id]
  {
  }

  /** Naming oneself as the target keeps one's ownership and manage flags. */
  lemma TransferToSelfKeepsOwner(s: State, member: Member, args: seq<string>, find: Finder, calls: Calls)
    requires OwnerGate(s, member).Pass? && args != [] && calls.first && calls.second
    requires FindMember(s.world, find, Join(args, " ")) == Some(member)
    ensures var ch := OwnerGate(s, member).channel;
      var r := TransferCommand(s, member, args, find, calls);
      && r.0 == Transferred(member.displayName)
      && r.1.channelOwners[ch] == member.id
      && FlagOf(r.1.world, ch, User(member.id), ManageChannels) == Some(true)
  {
    var ch := OwnerGate(s, member).channel;
    var h := Handover(s.world, ch, Some(member.id), member.id, true, true);
    assert TransferCommand(s, member, args, find, calls) ==
      (Transferred(member.displayName), s.(channelOwners := s.channelOwners[ch := member.id], world := h.1));
    assert IsManage(ManageChannels);
  }

  /** `handleClaimCommand` on the client. */
  method ClaimCommandOn(client: Client, member: Member, calls: Calls) returns (reply: Reply)
    modifies client
    ensures (reply, client.Snapshot()) == ClaimCommand(old(client.Snapshot()), member, calls)
  {
    var g := TempGate(client.Snapshot(), member);
    if g.Refuse? {
      return g.reply;
    }
    var ch := g.channel;
    var owner := CachedOwner(client.Snapshot(), ch);
    if owner.Some? && InChannel(client.world, owner.value, ch) {
      return OwnerStillHere;
    }
    ghost var s := client.Snapshot();
    var name := client.world.channels[ch].name;
    client.channelOwners := client.channelOwners[ch := member.id];
    var h := Handover(client.world, ch, owner, member.id, calls.first, calls.second);
    client.world := h.1;
    reply := if h.0 then ClaimedChannel(name) else ErrorOccurred;
    assert client.Snapshot() == s.(channelOwners := s.channelOwners[ch := member.id], world := h.1);
  }

  /** `handleOwnerCommand` on the client. */
  method TransferCommandOn(client: Client, member: Member, args: seq<string>, find: Finder, calls: Calls) returns (reply: Reply)
    modifies client
    ensures (reply, client.Snapshot()) == TransferCommand(old(client.Snapshot()), member, args, find, calls)
  {
    var g := OwnerGate(client.Snapshot(), member);
    if g.Refuse? {
      return g.reply;
    }
    if args == [] {
      return MissingArgument;
    }
    var target := FindMember(client.world, find, Join(args, " "));
    if target.None? {
      return UserNotFound;
    }
    ghost var s := client.Snapshot();
    var ch := g.channel;
    client.channelOwners := client.channelOwners[ch := target.value.id];
    var h := Handover(client.world, ch, Some(member.id), target.value.id, calls.first, calls.second);
    client.world := h.1;
    reply := if h.0 then Transferred(target.value.displayName) else ErrorOccurred;
    assert client.Snapshot() == s.(channelOwners := s.channelOwners[ch := target.value.id], world := h.1);
  }

  /** `handleLockCommand` and `handleUnlockCommand` on the client: the edit, then the spread write of the settings. */
  method LockCommandOn(client: Client, member: Member, lock: bool, editOk: bool) returns (reply: Reply)
    modifies client
    ensures (reply, client.Snapshot()) == LockCommand(old(client.Snapshot()), member, lock, editOk)
  {
    var g := OwnerGate(client.Snapshot(), member);
    if g.Refuse? {
      return g.reply;
    }
    if !editOk {
      return ErrorOccurred;
    }
    ghost var s := client.Snapshot();
    var ch := g.channel;
    var settings := SettingsOf(client.Snapshot(), ch);
    client.world := EditOverwrite(client.world, ch, Everyone, map[Connect := if !lock then Allow else Deny]);
    client.channelSettings := client.channelSettings[ch := settings.(locked := Some(lock))];
    reply := if lock then Locked else Unlocked;
    assert client.Snapshot() == Spec.EditEveryone(s, ch, Connect, !lock, settings.(locked := Some(lock)), true);
  }

  /** `handleLimitCommand` on the client: the checks, `setUserLimit`, then the spread write of the settings. */
  method LimitCommandOn(client: Client, member: Member, args: seq<string>, setOk: bool) returns (reply: Reply)
    modifies client
    ensures (reply, client.Snapshot()) == LimitCommand(old(client.Snapshot()), member, args, setOk)
  {
    var g := OwnerGate(client.Snapshot(), member);
    if g.Refuse? {
      return g.reply;
    }
    if args == [] {
      return MissingArgument;
    }
    var limit := ParseInt(args[0]);
    if limit.None? || limit.value < 0 || limit.value > 99 {
      return InvalidLimit;
    }
    if !setOk {
      return ErrorOccurred;
    }
    ghost var s := client.Snapshot();
    var ch := g.channel;
    var settings := SettingsOf(client.Snapshot(), ch);
    client.world := SetChannelLimit(client.world, ch, limit.value);
    client.channelSettings := client.channelSettings[ch := settings.(userLimit := limit)];
    reply := LimitSet(limit.value);
    assert client.Snapshot() == Spec.SetUserLimit(s, ch, limit.value, true);
  }
}
