/**
 * The VoiceRoomGen interaction handler: control-panel buttons and modal
 * submissions.  A custom id is split at `_` into the action and the channel
 * id; the channel must be cached and the member must pass the permission
 * gate, and then the action's arm runs, delegating to the channel manager.
 * Each handler is a function from the client's state to the reply it sends
 * and the state it leaves.  A platform call that throws inside an arm ends
 * in the generic error reply, with every step before it kept.
 */
module Interactions {
  import opened Platform
  import opened Text
  import opened BotConfig
  import opened VoiceRooms
  import opened ControlPanel
  import Spec = ManagerSpec

  /** The replies the handlers send (the interaction replies are ephemeral). */
  datatype Reply =
    | ServerOnly              // the interaction came from a direct message
    | ChannelNotFound
    | NoPermission
    | ErrorOccurred           // the generic reply of the catch blocks
    | UnknownAction
    | UnknownModalAction
    | ShowModal(modal: Modal)
    | Locked | Unlocked | Hidden | Visible
    | Claimed | CannotClaim
    | OwnerIs(name: string) | OwnerNotFound
    | VcInfo(name: string, owner: Option<string>, users: nat, limit: Option<int>, locked: bool)
    | Help
    | Disconnected(count: nat)
    | InviteLink | InviteFailed
    | MovedToTop | AllMuted | AllUnmuted
    | SoundToggled | UserActivityToggled | CameraToggled
    | Renamed(newName: string)
    | InvalidLimit | LimitSet(newLimit: int)
    | UserNotFound | AlreadyOwner | Transferred(to: string) | TransferNotAllowed
    | AccessGiven(who: string) | AccessRemoved(who: string) | InvalidAction
    | Rejected(who: string) | RejectFailed
    | Muted(who: string) | MuteFailed | Unmuted(who: string) | UnmuteFailed
    | RoleNotFound | RoleUpdated(permit: bool) | RoleFailed
    // the replies only the `.v` prefix commands send
    | NotInVoice | NotTemporary | NotOwner | AdminRequired | Placeholder | UnknownCommand
    | PanelSent | OwnerStillHere | ClaimedChannel(channelName: string) | MissingArgument
    | InvalidAmount | Cleared(amount: int) | ClearFailed | NameTooLong

  /**
   * The guild lookups besides the member cache: `members.cache.find` by
   * user name or display name and `roles.cache.find` by name (both compare
   * lower-cased text and are taken as given), and the ids of the cached roles.
   */
  datatype Directory = Directory(findMember: string -> Option<Id>, roles: set<Id>, findRole: string -> Option<Id>)

  /** What the modal's and the prefix command's permit grant: connect and view, not speak. */
  const AccessPatch: Patch := map[Connect := Allow, ViewChannel := Allow]

  /** What the modal's and the prefix command's reject deny: connect only. */
  const DenyConnectPatch: Patch := map[Connect := Deny]

  /**
   * `r` has the same registry of temporary channels and the same pending
   * timers as `s`, and has lost no owner or settings entry.
   */
  ghost predicate Keeps(s: State, r: State) {
    && r.tempChannels == s.tempChannels && r.pending == s.pending
    && r.channelOwners.Keys >= s.channelOwners.Keys && r.channelSettings.Keys >= s.channelSettings.Keys
  }

  /** `const [action, channelId] = customId.split('_')`; a missing part is undefined. */
  function ParseButtonId(customId: string): (r: (string, Option<Id>))
    ensures '_' !in r.0 && |r.0| <= |customId| && r.0 == customId[..|r.0|]
    ensures |r.0| < |customId| ==> customId[|r.0|] == '_'
    ensures r.1.None? <==> '_' !in customId
    ensures r.1.Some? ==> '_' !in r.1.value
  {
    var parts := Split(customId, '_');
    (parts[0], if |parts| >= 2 then Some(parts[1]) else None)
  }

  /** `const [action, modalType, channelId] = customId.split('_')`. */
  function ParseModalId(customId: string): (r: (string, Option<Id>))
    ensures '_' !in r.0 && |r.0| <= |customId| && r.0 == customId[..|r.0|]
    ensures |r.0| < |customId| ==> customId[|r.0|] == '_'
    ensures '_' !in customId ==> r.1.None?
    ensures r.1.Some? ==> '_' !in r.1.value
  {
    var parts := Split(customId, '_');
    (parts[0], if |parts| >= 3 then Some(parts[2]) else None)
  }

  /**
   * The member a text input names: an all-digit `key` is looked up in the
   * member cache, anything else goes to the name search on `input`.
   */
  function LookupMember(w: World, dir: Directory, key: string, input: string): (r: Option<Member>)
    ensures r.Some? ==> r.value in w.memberCache.Values
    ensures IsNumeric(key) ==> (r.Some? <==> key in w.memberCache) && (r.Some? ==> r.value == w.memberCache[key])
    ensures !IsNumeric(key) ==>
      (r.Some? <==> dir.findMember(input).Some? && dir.findMember(input).value in w.memberCache)
  {
    if IsNumeric(key) then
      if key in w.memberCache then Some(w.memberCache[key]) else None
    else
      match dir.findMember(input)
      case Some(m) => if m in w.memberCache then Some(w.memberCache[m]) else None
      case None => None
  }

  /** The role a text input names: by id when all digits, else by name. */
  function LookupRole(dir: Directory, input: string): (r: Option<Id>)
    ensures r.Some? ==> r.value in dir.roles
    ensures IsNumeric(input) ==> (r.Some? <==> input in dir.roles) && (r.Some? ==> r.value == input)
    ensures !IsNumeric(input) ==>
      (r.Some? <==> dir.findRole(input).Some? && dir.findRole(input).value in dir.roles) && (r.Some? ==> r == dir.findRole(input))
  {
    if IsNumeric(input) then
      if input in dir.roles then Some(input) else None
    else
      match dir.findRole(input)
      case Some(r) => if r in dir.roles then Some(r) else None
      case None => None
  }

  /** The display name of the channel's recorded owner, when the owner is cached. */
  function OwnerName(s: State, id: Id): Option<string> {
    if id in s.channelOwners && s.channelOwners[id] in s.world.memberCache
    then Some(s.world.memberCache[s.channelOwners[id]].displayName)
    else None
  }

  /** The vcinfo embed: name, owner, `members.size/(userLimit || '∞')`, locked. */
  function VcInfoOf(s: State, id: Id): (r: Reply)
    requires id in s.world.channels
    ensures r.VcInfo? && r.name == s.world.channels[id].name
    ensures r.owner.Some? <==> id in s.channelOwners && s.channelOwners[id] in s.world.memberCache
    ensures r.owner.Some? ==> r.owner.value == s.world.memberCache[s.channelOwners[id]].displayName
    ensures r.users == |Occupants(s.world, id)|
    ensures r.limit.Some? <==> SettingsOf(s, id).userLimit.Some? && SettingsOf(s, id).userLimit.value != 0
    ensures r.limit.Some? ==> r.limit == SettingsOf(s, id).userLimit
    ensures r.locked <==> SettingsOf(s, id).locked == Some(true)
  {
    var st := SettingsOf(s, id);
    VcInfo(s.world.channels[id].name, OwnerName(s, id), |Occupants(s.world, id)|,
           if st.userLimit.Some? && st.userLimit.value != 0 then st.userLimit else None,
           Truthy(st.locked))
  }

  function ClaimReply(o: Outcome<bool>): Reply {
    match o
    case Returned(b) => if b then Claimed else CannotClaim
    case Threw => ErrorOccurred
  }

  /** The lock, unlock, hide and unhide arms: one @everyone edit, then the confirmation. */
  function EveryoneButton(s: State, id: Id, action: string, ok: bool): (r: (Reply, State))
    requires id in s.world.channels
    ensures Keeps(s, r.1)
  {
    if !ok then (ErrorOccurred, s)
    else if action == "lock" then (Locked, Spec.LockChannel(s, id, true))
    else if action == "unlock" then (Unlocked, Spec.UnlockChannel(s, id, true))
    else if action == "hide" then (Hidden, Spec.HideChannel(s, id, true))
    else (Visible, Spec.UnhideChannel(s, id, true))
  }

  /** The disconnect, fm and fum arms: one call per connected member. */
  function SweepButton(s: State, id: Id, action: string, each: Id -> bool): (r: (Reply, State))
    ensures Keeps(s, r.1)
  {
    if action == "disconnect" then
      var d := Spec.SweepMembers(s, id, Spec.DisconnectEach, each);
      (Disconnected(d.0), d.1)
    else if action == "fm" then (AllMuted, Spec.SweepMembers(s, id, Spec.MuteEach, each).1)
    else (AllUnmuted, Spec.SweepMembers(s, id, Spec.UnmuteEach, each).1)
  }

  /** The soonoff, activity and camonoff arms: a settings flip, and for two of them an edit. */
  function ToggleButton(s: State, id: Id, action: string, ok: bool): (r: (Reply, State))
    requires id in s.world.channels
    ensures Keeps(s, r.1)
  {
    if action == "soonoff" then (SoundToggled, Spec.ToggleChannelActivity(s, id).1)
    else if action == "activity" then (UserActivityToggled, Spec.ToggleUserActivity(s, id, ok).1)
    else (CameraToggled, Spec.ToggleCameraPermissions(s, id, ok).1)
  }

  /** The owner, vcinfo and help arms: replies only. */
  function InfoButton(s: State, id: Id, action: string): Reply
    requires id in s.world.channels
  {
    if action == "owner" then
      match OwnerName(s, id) case Some(n) => OwnerIs(n) case None => OwnerNotFound
    else if action == "vcinfo" then VcInfoOf(s, id)
    else Help
  }

  /**
   * The arms of the button switch, reached once the gate has passed.  The
   * reject, mute, unmute and permitrole arms call modal builders the control
   * panel does not define: the call throws before anything happens.
   */
  function ButtonAction(cfg: Config, s: State, action: string, id: Id, member: Member, calls: Calls): (r: (Reply, State))
    requires id in s.world.channels
    ensures Keeps(s, r.1)
  {
    if action in {"lock", "unlock", "hide", "unhide"} then EveryoneButton(s, id, action, calls.first)
    else if action == "rename" then (ShowModal(RenameModal(id)), s)
    else if action == "limit" then (ShowModal(LimitModal(id)), s)
    else if action == "claim" then
      var c := Spec.ClaimChannel(cfg, s, id, member, calls.first);
      (ClaimReply(c.0), c.1)
    else if action in {"owner", "vcinfo", "help"} then (InfoButton(s, id, action), s)
    else if action == "permit" then (ShowModal(PermitModal(id)), s)
    else if action in {"disconnect", "fm", "fum"} then SweepButton(s, id, action, calls.each)
    else if action == "invite" then (if calls.first then InviteLink else InviteFailed, s)
    else if action == "top" then (MovedToTop, s)
    else if action in {"soonoff", "activity", "camonoff"} then ToggleButton(s, id, action, calls.first)
    else if action in {"reject", "mute", "unmute", "permitrole"} then (ErrorOccurred, s)
    else (UnknownAction, s)
  }

  /**
   * `handleButtonInteraction`: a direct message is refused, the channel must
   * be cached, and only the owner or an administrator passes the gate,
   * except for the claim and invite buttons.  No button changes the
   * registry of temporary channels or the pending timers, and every
   * registered channel keeps its owner and settings entries.
   */
  function HandleButton(cfg: Config, s: State, inGuild: bool, customId: string, member: Member, calls: Calls): (r: (Reply, State))
    ensures !inGuild ==> r == (ServerOnly, s)
    ensures inGuild && (ParseButtonId(customId).1.None? || ParseButtonId(customId).1.value !in s.world.channels) ==> r == (ChannelNotFound, s)
    ensures (&& inGuild && ParseButtonId(customId).1.Some? && ParseButtonId(customId).1.value in s.world.channels
             && !Spec.HasChannelPermission(s, member, ParseButtonId(customId).1.value)
             && ParseButtonId(customId).0 != "claim" && ParseButtonId(customId).0 != "invite")
      ==> r == (NoPermission, s)
    ensures Keeps(s, r.1)
    ensures Valid(s) ==> Valid(r.1)
  {
    var (action, target) := ParseButtonId(customId);
    if !inGuild then (ServerOnly, s)
    else if target.None? || target.value !in s.world.channels then (ChannelNotFound, s)
    else if !Spec.HasChannelPermission(s, member, target.value) && action != "claim" && action != "invite" then (NoPermission, s)
    else ButtonAction(cfg, s, action, target.value, member, calls)
  }

  function TransferReply(o: Outcome<bool>, newOwner: Member): Reply {
    match o
    case Returned(b) => if b then Transferred(newOwner.displayName) else TransferNotAllowed
    case Threw => ErrorOccurred
  }

  /**
   * The permit of the permit modal and of `.v permit`: connect and view are
   * allowed; speak is left as it was.
   */
  function GrantAccess(s: State, id: Id, t: Member, ok: bool): (r: (Reply, State))
    requires id in s.world.channels
    ensures r.0 == (if ok then AccessGiven(t.displayName) else ErrorOccurred)
    ensures ok ==> && FlagOf(r.1.world, id, User(t.id), Connect) == Some(true)
                   && FlagOf(r.1.world, id, User(t.id), ViewChannel) == Some(true)
                   && FlagOf(r.1.world, id, User(t.id), Speak) == FlagOf(s.world, id, User(t.id), Speak)
    ensures ok ==> PatchedOnly(s.world, r.1.world, id, User(t.id), AccessPatch)
    ensures ok ==> r.1 == s.(world := r.1.world) && OnlyOverwritesOf(s.world, r.1.world, id)
    ensures Keeps(s, r.1)
    ensures !ok ==> r.1 == s
  {
    if ok then
      var w := EditOverwrite(s.world, id, User(t.id), AccessPatch);
      AccessPatchFlags(s.world, w, id, t.id);
      (AccessGiven(t.displayName), s.(world := w))
    else (ErrorOccurred, s)
  }

  /** What the access patch writes: connect and view allowed, speak as it was. */
  lemma AccessPatchFlags(w: World, r: World, id: Id, m: Id)
    requires PatchedOnly(w, r, id, User(m), AccessPatch)
    ensures FlagOf(r, id, User(m), Connect) == Some(true) && FlagOf(r, id, User(m), ViewChannel) == Some(true)
    ensures FlagOf(r, id, User(m), Speak) == FlagOf(w, id, User(m), Speak)
  {
    assert FlagOf(r, id, User(m), Connect) == FlagValue(AccessPatch[Connect]);
    assert FlagOf(r, id, User(m), ViewChannel) == FlagValue(AccessPatch[ViewChannel]);
    assert FlagOf(r, id, User(m), Speak) == FlagOf(w, id, User(m), Speak);
  }

  /**
   * The reject of the permit modal and of `.v reject`: connect is denied
   * (speak is left as it was) and the member is disconnected when connected
   * to the channel.
   */
  function RemoveAccess(s: State, id: Id, t: Member, editOk: bool, disconnectOk: bool): (r: (Reply, State))
    requires id in s.world.channels
    ensures r.0 == if editOk && (!InChannel(s.world, t.id, id) || disconnectOk) then AccessRemoved(t.displayName) else ErrorOccurred
    ensures editOk ==> FlagOf(r.1.world, id, User(t.id), Connect) == Some(false)
    ensures FlagOf(r.1.world, id, User(t.id), Speak) == FlagOf(s.world, id, User(t.id), Speak)
    ensures r.0 == AccessRemoved(t.displayName) ==> !InChannel(r.1.world, t.id, id)
    ensures editOk ==> PatchedOnly(s.world, r.1.world, id, User(t.id), DenyConnectPatch)
    ensures r.1.world.voice == if editOk && InChannel(s.world, t.id, id) && disconnectOk then s.world.voice - {t.id} else s.world.voice
    ensures r.1 == s.(world := r.1.world) && OnlyOverwritesOf(s.world, r.1.world.(voice := s.world.voice), id)
    ensures Keeps(s, r.1)
    ensures !editOk ==> r.1 == s
  {
    if !editOk then (ErrorOccurred, s)
    else
      var w := EditOverwrite(s.world, id, User(t.id), DenyConnectPatch);
      var d := DisconnectIfIn(w, t.id, id, disconnectOk);
      DenyPatchFlags(s.world, w, d.1, id, t.id);
      (if d.0 then AccessRemoved(t.displayName) else ErrorOccurred, s.(world := d.1))
  }

  /**
   * What the reject patch writes, also after a disconnect (which leaves the
   * channels alone): connect denied, speak as it was.
   */
  lemma DenyPatchFlags(w0: World, w: World, r: World, id: Id, m: Id)
    requires PatchedOnly(w0, w, id, User(m), DenyConnectPatch) && r.channels == w.channels
    ensures PatchedOnly(w0, r, id, User(m), DenyConnectPatch)
    ensures FlagOf(r, id, User(m), Connect) == Some(false)
    ensures FlagOf(r, id, User(m), Speak) == FlagOf(w0, id, User(m), Speak)
  {
    SameChannelsSameFlags(w, r);
    assert FlagOf(r, id, User(m), Connect) == FlagValue(DenyConnectPatch[Connect]);
    assert FlagOf(r, id, User(m), Speak) == FlagOf(w0, id, User(m), Speak);
  }

  /** The modal's permit/reject choice, lower-cased; anything else is refused. */
  function AccessAction(s: State, id: Id, kind: string, t: Member, calls: Calls): (r: (Reply, State))
    requires id in s.world.channels
    ensures Keeps(s, r.1)
  {
    if kind == "permit" then GrantAccess(s, id, t, calls.first)
    else if kind == "reject" then RemoveAccess(s, id, t, calls.first, calls.second)
    else (InvalidAction, s)
  }

  /** The role form: find the role, check the action, then permit or reject it. */
  function RoleAction(s: State, id: Id, roleName: string, kind: string, dir: Directory, calls: Calls): (r: (Reply, State))
    requires id in s.world.channels
    ensures Keeps(s, r.1)
  {
    match LookupRole(dir, roleName)
    case None => (RoleNotFound, s)
    case Some(role) =>
      if kind != "permit" && kind != "reject" then (InvalidAction, s)
      else
        var e := if kind == "permit" then Spec.PermitRole(s, id, role, calls.first) else Spec.RejectRole(s, id, role, calls.first);
        (if e.0 then RoleUpdated(kind == "permit") else RoleFailed, e.1)
  }

  /** The rename form: the channel takes the submitted name. */
  function RenameForm(s: State, id: Id, fields: map<string, string>, calls: Calls): (r: (Reply, State))
    requires id in s.world.channels
    ensures Keeps(s, r.1)
  {
    if "channel_name" !in fields then (ErrorOccurred, s)
    else
      var name := fields["channel_name"];
      (if calls.first then Renamed(name) else ErrorOccurred, Spec.RenameChannel(s, id, name, calls.first))
  }

  /** The limit form: `parseInt`, then a limit between 0 and 99 is set. */
  function LimitForm(s: State, id: Id, fields: map<string, string>, calls: Calls): (r: (Reply, State))
    requires id in s.world.channels
    ensures Keeps(s, r.1)
  {
    if "user_limit" !in fields then (ErrorOccurred, s)
    else
      match ParseInt(fields["user_limit"])
      case None => (InvalidLimit, s)
      case Some(n) =>
        if n < 0 || n > 99 then (InvalidLimit, s)
        else (if calls.first then LimitSet(n) else ErrorOccurred, Spec.SetUserLimit(s, id, n, calls.first))
  }

  /** The transfer form: find the member, refuse oneself, then transfer. */
  function TransferForm(cfg: Config, s: State, id: Id, member: Member, fields: map<string, string>, dir: Directory, calls: Calls): (r: (Reply, State))
    requires id in s.world.channels
    ensures Keeps(s, r.1)
  {
    if "new_owner" !in fields then (ErrorOccurred, s)
    else
      var input := fields["new_owner"];
      match LookupMember(s.world, dir, input, input)
      case None => (UserNotFound, s)
      case Some(newOwner) =>
        if newOwner.id == member.id then (AlreadyOwner, s)
        else
          var t := Spec.TransferChannel(cfg, s, id, newOwner, calls.first, calls.second);
          (TransferReply(t.0, newOwner), t.1)
  }

  /** The permit form: find the member (mention characters stripped for the id test), then permit or reject. */
  function PermitForm(s: State, id: Id, fields: map<string, string>, dir: Directory, calls: Calls): (r: (Reply, State))
    requires id in s.world.channels
    ensures Keeps(s, r.1)
  {
    if "target_user" !in fields || "action_type" !in fields then (ErrorOccurred, s)
    else
      var input := fields["target_user"];
      match LookupMember(s.world, dir, StripMention(input), input)
      case None => (UserNotFound, s)
      case Some(t) => AccessAction(s, id, Lower(fields["action_type"]), t, calls)
  }

  /** The reject form: find the member, then `rejectMember`. */
  function RejectForm(s: State, id: Id, fields: map<string, string>, dir: Directory, calls: Calls): (r: (Reply, State))
    requires id in s.world.channels
    ensures Keeps(s, r.1)
  {
    if "target_user" !in fields then (ErrorOccurred, s)
    else
      var input := fields["target_user"];
      match LookupMember(s.world, dir, input, input)
      case None => (UserNotFound, s)
      case Some(t) =>
        var e := Spec.RejectMember(s, id, t.id, calls.first, calls.second);
        (if e.0 then Rejected(t.displayName) else RejectFailed, e.1)
  }

  /** The mute and unmute forms: find the member, then mute or unmute. */
  function MuteForm(s: State, id: Id, mute: bool, fields: map<string, string>, dir: Directory, calls: Calls): (r: (Reply, State))
    ensures Keeps(s, r.1)
  {
    if "target_user" !in fields then (ErrorOccurred, s)
    else
      var input := fields["target_user"];
      match LookupMember(s.world, dir, input, input)
      case None => (UserNotFound, s)
      case Some(t) =>
        var e := Spec.SetMemberMute(s, id, t.id, mute, calls.first);
        (if e.0 then (if mute then Muted(t.displayName) else Unmuted(t.displayName))
         else (if mute then MuteFailed else UnmuteFailed), e.1)
  }

  /**
   * The arms of the modal switch, reached once the gate has passed.  Reading
   * a field the submission does not hold throws.
   */
  function ModalAction(cfg: Config, s: State, action: string, id: Id, member: Member, fields: map<string, string>, dir: Directory, calls: Calls): (r: (Reply, State))
    requires id in s.world.channels
    ensures Keeps(s, r.1)
  {
    if action == "rename" then RenameForm(s, id, fields, calls)
    else if action == "limit" then LimitForm(s, id, fields, calls)
    else if action == "transfer" then TransferForm(cfg, s, id, member, fields, dir, calls)
    else if action == "permit" then PermitForm(s, id, fields, dir, calls)
    else if action == "reject" then RejectForm(s, id, fields, dir, calls)
    else if action == "mute" then MuteForm(s, id, true, fields, dir, calls)
    else if action == "unmute" then MuteForm(s, id, false, fields, dir, calls)
    else if action == "permitrole" then
      if "role_name" !in fields || "permission_action" !in fields then (ErrorOccurred, s)
      else RoleAction(s, id, fields["role_name"], Lower(fields["permission_action"]), dir, calls)
    else (UnknownModalAction, s)
  }

  /**
   * `handleModalSubmit`: the guild is dereferenced without a check, so a
   * submission from a direct message throws into the outer catch; the
   * channel must be cached and every modal action is gated on ownership or
   * administrator rights.  No modal changes the registry or the timers.
   */
  function HandleModal(cfg: Config, s: State, inGuild: bool, customId: string, member: Member,
                       fields: map<string, string>, dir: Directory, calls: Calls): (r: (Reply, State))
    ensures !inGuild ==> r == (ErrorOccurred, s)
    ensures inGuild && (ParseModalId(customId).1.None? || ParseModalId(customId).1.value !in s.world.channels) ==> r == (ChannelNotFound, s)
    ensures (&& inGuild && ParseModalId(customId).1.Some? && ParseModalId(customId).1.value in s.world.channels
             && !Spec.HasChannelPermission(s, member, ParseModalId(customId).1.value))
      ==> r == (NoPermission, s)
    ensures Keeps(s, r.1)
    ensures Valid(s) ==> Valid(r.1)
  {
    var (action, target) := ParseModalId(customId);
    if !inGuild then (ErrorOccurred, s)
    else if target.None? || target.value !in s.world.channels then (ChannelNotFound, s)
    else if !Spec.HasChannelPermission(s, member, target.value) then (NoPermission, s)
    else ModalAction(cfg, s, action, target.value, member, fields, dir, calls)
  }

  /** A button id splits back into its action and channel id when neither holds `_`. */
  lemma ButtonIdRoundTrip(action: string, channelId: Id)
    requires '_' !in action && '_' !in channelId
    ensures ParseButtonId(ButtonId(action, channelId)) == (action, Some(channelId))
  {
    SplitFirst(action, '_', channelId);
    SplitWhole(channelId, '_');
  }

  /** A modal id splits back into its action and channel id when neither holds `_`. */
  lemma ModalIdRoundTrip(action: string, channelId: Id)
    requires '_' !in action && '_' !in channelId
    ensures ParseModalId(ModalId(action, channelId)) == (action, Some(channelId))
  {
    var tail := "modal" + ['_'] + channelId;
    assert ModalId(action, channelId) == action + ['_'] + tail;
    SplitWhole(channelId, '_');
    SplitFirst("modal", '_', channelId);
    assert Split(tail, '_') == ["modal", channelId];
    SplitFirst(action, '_', tail);
    assert Split(ModalId(action, channelId), '_') == [action, "modal", channelId];
  }

  /** Each of the four panel buttons reaches its own arm, for its own channel. */
  lemma PanelButtonsRoute(channelId: Id, i: nat)
    requires '_' !in channelId && i < 4
    ensures ParseButtonId(ControlButtons(channelId)[0][i]) == (PanelActions[i], Some(channelId))
  {
    var b := ControlButtons(channelId)[0][i];
    assert '_' !in PanelActions[i];
    assert b == PanelActions[i] + "_" + channelId by {
      assert b[..|PanelActions[i]|] == PanelActions[i];
      assert b[|PanelActions[i]|] == '_';
      assert b[|PanelActions[i]| + 1..] == channelId;
      assert b == b[..|PanelActions[i]|] + [b[|PanelActions[i]|]] + b[|PanelActions[i]| + 1..];
    }
    ButtonIdRoundTrip(PanelActions[i], channelId);
  }

  /**
   * A member who is neither owner nor administrator can still use the claim
   * and invite buttons: they reach their arms.
   */
  lemma ClaimAndInviteSkipGate(cfg: Config, s: State, channelId: Id, member: Member, calls: Calls)
    requires '_' !in channelId && channelId in s.world.channels
    ensures HandleButton(cfg, s, true, ButtonId("claim", channelId), member, calls)
      == (ClaimReply(Spec.ClaimChannel(cfg, s, channelId, member, calls.first).0), Spec.ClaimChannel(cfg, s, channelId, member, calls.first).1)
    ensures HandleButton(cfg, s, true, ButtonId("invite", channelId), member, calls)
      == (if calls.first then InviteLink else InviteFailed, s)
  {
    ButtonIdRoundTrip("claim", channelId);
    ButtonIdRoundTrip("invite", channelId);
  }

  /**
   * The reject, mute, unmute and permitrole buttons always end in the error
   * reply and change nothing, even for the owner.
   */
  lemma MissingModalButtonsFail(cfg: Config, s: State, action: string, channelId: Id, member: Member, calls: Calls)
    requires action in ["reject", "mute", "unmute", "permitrole"] && '_' !in channelId
    requires channelId in s.world.channels && Spec.HasChannelPermission(s, member, channelId)
    ensures HandleButton(cfg, s, true, ButtonId(action, channelId), member, calls) == (ErrorOccurred, s)
  {
    assert '_' !in action;
    ButtonRoutes(cfg, s, action, channelId, member, calls);
    MissingModalActions(cfg, s, action, channelId, member, calls);
  }

  /** The arm of the reject, mute, unmute and permitrole actions. */
  lemma MissingModalActions(cfg: Config, s: State, action: string, id: Id, member: Member, calls: Calls)
    requires action in ["reject", "mute", "unmute", "permitrole"] && id in s.world.channels
    ensures ButtonAction(cfg, s, action, id, member, calls) == (ErrorOccurred, s)
  {
    assert action in {"reject", "mute", "unmute", "permitrole"};
  }


  /** A panel button, pressed by a member who passes the gate, reaches the arm its id names. */
  lemma ButtonRoutes(cfg: Config, s: State, action: string, channelId: Id, member: Member, calls: Calls)
    requires '_' !in action && '_' !in channelId
    requires channelId in s.world.channels && Spec.HasChannelPermission(s, member, channelId)
    ensures HandleButton(cfg, s, true, ButtonId(action, channelId), member, calls) == ButtonAction(cfg, s, action, channelId, member, calls)
  {
    ButtonIdRoundTrip(action, channelId);
  }

  /** A modal, submitted by a member who passes the gate, reaches the form its id names. */
  lemma ModalRoutes(cfg: Config, s: State, action: string, channelId: Id, member: Member, fields: map<string, string>, dir: Directory, calls: Calls)
    requires '_' !in action && '_' !in channelId
    requires channelId in s.world.channels && Spec.HasChannelPermission(s, member, channelId)
    ensures HandleModal(cfg, s, true, ModalId(action, channelId), member, fields, dir, calls) == ModalAction(cfg, s, action, channelId, member, fields, dir, calls)
  {
    ModalIdRoundTrip(action, channelId);
  }

  /**
   * A button id `limit_<id>` opens the limit modal, whose submission reaches
   * the limit form. No panel button carries such an id: `ControlButtons`
   * builds only the owner, vcinfo, help and permit buttons.
   */
  lemma LimitPanelFlow(cfg: Config, s: State, channelId: Id, owner: Member, fields: map<string, string>, dir: Directory, calls: Calls)
    requires '_' !in channelId && channelId in s.world.channels && Spec.HasChannelPermission(s, owner, channelId)
    ensures HandleButton(cfg, s, true, ButtonId("limit", channelId), owner, calls) == (ShowModal(LimitModal(channelId)), s)
    ensures HandleModal(cfg, s, true, LimitModal(channelId).customId, owner, fields, dir, calls) == LimitForm(s, channelId, fields, calls)
  {
    ButtonRoutes(cfg, s, "limit", channelId, owner, calls);
    ModalRoutes(cfg, s, "limit", channelId, owner, fields, dir, calls);
  }

  /**
   * A filled-in limit form sets the limit exactly when the input parses to
   * a number of at least 0: the two-character bound of the input already
   * rules out numbers above 99.
   */
  lemma LimitFormSetsLimit(s: State, channelId: Id, fields: map<string, string>, calls: Calls)
    requires channelId in s.world.channels && calls.first
    requires Filled(LimitModal(channelId), fields)
    ensures var r := LimitForm(s, channelId, fields, calls);
      var n := ParseInt(fields["user_limit"]);
      && (n.Some? && n.value >= 0 ==>
            && r.0 == LimitSet(n.value) && channelId in r.1.world.channels
            && r.1.world.channels[channelId].userLimit == n.value
            && SettingsOf(r.1, channelId).userLimit == Some(n.value))
      && (!(n.Some? && n.value >= 0) ==> r == (InvalidLimit, s))
  {
    LimitInputBounded(channelId, fields);
    assert "user_limit" in fields;
    var n := ParseInt(fields["user_limit"]);
    if n.Some? && n.value >= 0 {
      assert LimitForm(s, channelId, fields, calls) == (LimitSet(n.value), Spec.SetUserLimit(s, channelId, n.value, true));
    } else {
      assert LimitForm(s, channelId, fields, calls) == (InvalidLimit, s);
    }
  }

  /**
   * A button id `rename_<id>` opens the rename modal, whose submission
   * reaches the rename form. No panel button carries such an id.
   */
  lemma RenamePanelFlow(cfg: Config, s: State, channelId: Id, owner: Member, fields: map<string, string>, dir: Directory, calls: Calls)
    requires '_' !in channelId && channelId in s.world.channels && Spec.HasChannelPermission(s, owner, channelId)
    ensures HandleButton(cfg, s, true, ButtonId("rename", channelId), owner, calls) == (ShowModal(RenameModal(channelId)), s)
    ensures HandleModal(cfg, s, true, RenameModal(channelId).customId, owner, fields, dir, calls) == RenameForm(s, channelId, fields, calls)
  {
    ButtonRoutes(cfg, s, "rename", channelId, owner, calls);
    ModalRoutes(cfg, s, "rename", channelId, owner, fields, dir, calls);
  }

  /** A filled-in rename form gives the channel the submitted name and leaves owners and settings alone. */
  lemma RenameFormRenames(s: State, channelId: Id, fields: map<string, string>, calls: Calls)
    requires channelId in s.world.channels && calls.first
    requires Filled(RenameModal(channelId), fields)
    ensures var r := RenameForm(s, channelId, fields, calls);
      && r.0 == Renamed(fields["channel_name"]) && channelId in r.1.world.channels
      && r.1.world.channels[channelId].name == fields["channel_name"]
      && r.1.channelSettings == s.channelSettings && r.1.channelOwners == s.channelOwners
  {
  }

  /** Transferring to oneself is refused before any call is made. */
  lemma TransferToSelfRefused(cfg: Config, s: State, channelId: Id, member: Member, fields: map<string, string>, dir: Directory, calls: Calls)
    requires '_' !in channelId && channelId in s.world.channels && Spec.HasChannelPermission(s, member, channelId)
    requires "new_owner" in fields
    requires LookupMember(s.world, dir, fields["new_owner"], fields["new_owner"]) == Some(member)
    ensures HandleModal(cfg, s, true, ModalId("transfer", channelId), member, fields, dir, calls) == (AlreadyOwner, s)
  {
    ModalRoutes(cfg, s, "transfer", channelId, member, fields, dir, calls);
  }

  /**
   * The permit modal's permit action allows connecting and viewing but
   * leaves the speak flag as it was, unlike `permitMember`; its reject
   * action denies connecting only.
   */
  lemma PermitModalLeavesSpeak(cfg: Config, s: State, channelId: Id, owner: Member, fields: map<string, string>, dir: Directory, calls: Calls, t: Member)
    requires '_' !in channelId && channelId in s.world.channels && Spec.HasChannelPermission(s, owner, channelId)
    requires "target_user" in fields && "action_type" in fields
    requires LookupMember(s.world, dir, StripMention(fields["target_user"]), fields["target_user"]) == Some(t)
    requires Lower(fields["action_type"]) in ["permit", "reject"]
    ensures var r := HandleModal(cfg, s, true, PermitModal(channelId).customId, owner, fields, dir, calls);
      && FlagOf(r.1.world, channelId, User(t.id), Speak) == FlagOf(s.world, channelId, User(t.id), Speak)
      && (r.0 == AccessGiven(t.displayName) ==>
            FlagOf(r.1.world, channelId, User(t.id), Connect) == Some(true)
            && FlagOf(r.1.world, channelId, User(t.id), ViewChannel) == Some(true))
      && (r.0 == AccessRemoved(t.displayName) ==>
            FlagOf(r.1.world, channelId, User(t.id), Connect) == Some(false) && !InChannel(r.1.world, t.id, channelId))
  {
    ModalRoutes(cfg, s, "permit", channelId, owner, fields, dir, calls);
    PermitFormRoutes(cfg, s, channelId, owner, fields, dir, calls, t);
    AccessActionLeavesSpeak(s, channelId, Lower(fields["action_type"]), t, calls);
  }

  /** The permit modal's submission reaches the access action of the member it names. */
  lemma PermitFormRoutes(cfg: Config, s: State, channelId: Id, owner: Member, fields: map<string, string>, dir: Directory, calls: Calls, t: Member)
    requires channelId in s.world.channels
    requires "target_user" in fields && "action_type" in fields
    requires LookupMember(s.world, dir, StripMention(fields["target_user"]), fields["target_user"]) == Some(t)
    ensures ModalAction(cfg, s, "permit", channelId, owner, fields, dir, calls) == AccessAction(s, channelId, Lower(fields["action_type"]), t, calls)
  {
    assert ModalAction(cfg, s, "permit", channelId, owner, fields, dir, calls) == PermitForm(s, channelId, fields, dir, calls);
  }

  /** Either access action leaves the speak flag as it was. */
  lemma AccessActionLeavesSpeak(s: State, id: Id, kind: string, t: Member, calls: Calls)
    requires id in s.world.channels && kind in ["permit", "reject"]
    ensures var r := AccessAction(s, id, kind, t, calls);
      && FlagOf(r.1.world, id, User(t.id), Speak) == FlagOf(s.world, id, User(t.id), Speak)
      && (r.0 == AccessGiven(t.displayName) ==>
            FlagOf(r.1.world, id, User(t.id), Connect) == Some(true) && FlagOf(r.1.world, id, User(t.id), ViewChannel) == Some(true))
      && (r.0 == AccessRemoved(t.displayName) ==>
            FlagOf(r.1.world, id, User(t.id), Connect) == Some(false) && !InChannel(r.1.world, t.id, id))
  {
    if kind == "permit" {
      assert AccessAction(s, id, kind, t, calls) == GrantAccess(s, id, t, calls.first);
    } else {
      assert AccessAction(s, id, kind, t, calls) == RemoveAccess(s, id, t, calls.first, calls.second);
    }
  }
}
