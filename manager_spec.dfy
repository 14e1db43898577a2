/**
 * What each operation of the VoiceRoomGen channel manager does to the
 * client's state, as a function of the state before it and of the outcomes
 * of the platform calls it makes (`true`: the call resolved).  The methods
 * of `ChannelManager` are proved to compute exactly these functions; the
 * lemmas at the end relate several operations.
 */
module ManagerSpec {
  import opened Platform
  import opened BotConfig
  import opened VoiceRooms

  /** The flags a channel owner is granted. */
  const OwnerPatch: Patch := map[ManageChannels := Allow, ManageRoles := Allow, MuteMembers := Allow, DeafenMembers := Allow, MoveMembers := Allow]

  /** The flags `permitMember` and `permitRole` grant. */
  const PermitPatch: Patch := map[Connect := Allow, Speak := Allow, ViewChannel := Allow]

  /** The flags `rejectMember` and `rejectRole` deny. */
  const RejectPatch: Patch := map[Connect := Deny, Speak := Deny]

  /** The member's overwrite on the channel allows every owner flag. */
  predicate HoldsOwnerFlags(w: World, ch: Id, m: Id) {
    forall f :: f in OwnerPatch ==> FlagOf(w, ch, User(m), f) == Some(true)
  }

  /** The voice channel `createTempChannel` creates for `member`. */
  function NewChannel(cfg: Config, member: Member): Channel {
    Channel(ChannelName(member.displayName), cfg.defaultUserLimit,
      map[Everyone := map[ViewChannel := true, Connect := true],
          User(member.id) := map[ManageChannels := true, ManageRoles := true, MuteMembers := true,
                                 DeafenMembers := true, MoveMembers := true]])
  }

  /** The settings a new temporary channel starts with. */
  function CreatedSettings(cfg: Config): Settings {
    Settings(Some(false), Some(false), Some(cfg.defaultUserLimit), None, None, None)
  }

  /** The platform hands out an id no channel or record uses and nobody is connected to. */
  predicate Fresh(s: State, id: Id) {
    && id !in s.world.channels && id !in s.tempChannels && id !in s.channelOwners && id !in s.channelSettings
    && forall m :: m in s.world.voice ==> s.world.voice[m] != id
  }

  /**
   * `createTempChannel`: creates the category when it is missing, then the
   * voice channel, and only then records it in the three maps.  Either
   * creation failing returns null and records nothing.
   */
  function CreateTempChannel(cfg: Config, s: State, member: Member, id: Id, now: int, categoryOk: bool, createOk: bool): (res: (Option<Id>, State))
    requires Fresh(s, id)
    ensures res.0.Some? <==> (s.world.hasCategory || categoryOk) && createOk
    ensures res.0.Some? ==>
      && res.0.value == id
      && res.1.tempChannels == s.tempChannels[id := TempChannelData(member.id, now, s.world.guildId)]
      && res.1.channelOwners == s.channelOwners[id := member.id]
      && res.1.channelSettings == s.channelSettings[id := CreatedSettings(cfg)]
      && res.1.world.channels == s.world.channels[id := NewChannel(cfg, member)]
      && HoldsOwnerFlags(res.1.world, id, member.id)
      && Occupants(res.1.world, id) == {}
    ensures res.0.None? ==>
      && res.1.tempChannels == s.tempChannels && res.1.channelOwners == s.channelOwners
      && res.1.channelSettings == s.channelSettings && res.1.world.channels == s.world.channels
    ensures res.1.world == s.world.(channels := res.1.world.channels, hasCategory := res.1.world.hasCategory)
    ensures res.1.pending == s.pending
  {
    if !s.world.hasCategory && !categoryOk then (None, s)
    else
      var w := s.world.(hasCategory := true);
      if !createOk then (None, s.(world := w))
      else
        var w' := w.(channels := w.channels[id := NewChannel(cfg, member)]);
        NewChannelOwnerFlags(cfg, member, w', id);
        (Some(id), s.(world := w',
                      tempChannels := s.tempChannels[id := TempChannelData(member.id, now, s.world.guildId)],
                      channelOwners := s.channelOwners[id := member.id],
                      channelSettings := s.channelSettings[id := CreatedSettings(cfg)]))
  }

  /** The creator's overwrite on a channel made by `createTempChannel` allows every owner flag. */
  lemma NewChannelOwnerFlags(cfg: Config, member: Member, w: World, id: Id)
    requires id in w.channels && w.channels[id] == NewChannel(cfg, member)
    ensures HoldsOwnerFlags(w, id, member.id)
  {
    forall f | f in OwnerPatch
      ensures FlagOf(w, id, User(member.id), f) == Some(true)
    {
      assert User(member.id) in w.channels[id].overwrites;
    }
  }

  /**
   * `deleteTempChannel`: fetches the channel (which fails when it no longer
   * exists), deletes it, and only then drops the three map entries.  Any
   * failure is swallowed and leaves the state as it was.
   */
  function DeleteTempChannel(s: State, id: Id, fetchOk: bool, deleteOk: bool): (r: State)
    ensures id in s.world.channels && fetchOk && deleteOk ==>
      && r.world == DeleteChannel(s.world, id)
      && r.tempChannels == s.tempChannels - {id}
      && r.channelOwners == s.channelOwners - {id}
      && r.channelSettings == s.channelSettings - {id}
      && Occupants(r.world, id) == {}
    ensures !(id in s.world.channels && fetchOk && deleteOk) ==> r == s
    ensures r.pending == s.pending
  {
    if id in s.world.channels && fetchOk && deleteOk then
      s.(world := DeleteChannel(s.world, id),
         tempChannels := s.tempChannels - {id},
         channelOwners := s.channelOwners - {id},
         channelSettings := s.channelSettings - {id})
    else s
  }

  /** `hasChannelPermission`: the member is the recorded owner, or an administrator. */
  predicate HasChannelPermission(s: State, member: Member, id: Id) {
    (id in s.channelOwners && s.channelOwners[id] == member.id) || member.isAdmin
  }

  /**
   * Who has control of a channel: on a channel with no recorded owner only
   * an administrator; otherwise the recorded owner and the administrators,
   * and no one else.
   */
  lemma ChannelPermissionCases(s: State, member: Member, id: Id)
    ensures id !in s.channelOwners ==> (HasChannelPermission(s, member, id) <==> member.isAdmin)
    ensures id in s.channelOwners && s.channelOwners[id] == member.id ==> HasChannelPermission(s, member, id)
    ensures !member.isAdmin ==> (HasChannelPermission(s, member, id) <==> id in s.channelOwners && s.channelOwners[id] == member.id)
  {
  }

  /**
   * The shape of lock, unlock, hide and unhide: one flag of the @everyone
   * overwrite is edited, then one property of the settings object is set.
   */
  function EditEveryone(s: State, id: Id, f: Perm, allow: bool, st: Settings, ok: bool): State
    requires id in s.world.channels
  {
    if ok then
      s.(world := EditOverwrite(s.world, id, Everyone, map[f := if allow then Allow else Deny]),
         channelSettings := s.channelSettings[id := st])
    else s
  }

  /** Nothing but the @everyone flag `f` of channel `id` and the settings of `id` differ. */
  ghost predicate EveryoneFlagOnly(s: State, r: State, id: Id, f: Perm) {
    && r.tempChannels == s.tempChannels && r.channelOwners == s.channelOwners && r.pending == s.pending
    && OnlyOverwritesOf(s.world, r.world, id)
    && (forall c, x, g :: (c, x, g) != (id, Everyone, f) ==> FlagOf(r.world, c, x, g) == FlagOf(s.world, c, x, g))
  }

  /** Editing one @everyone flag sets it and changes nothing else that `EveryoneFlagOnly` watches. */
  lemma EveryoneEdit(s: State, r: State, id: Id, f: Perm, allow: bool)
    requires id in s.world.channels
    requires r.world == EditOverwrite(s.world, id, Everyone, map[f := if allow then Allow else Deny])
    requires r.tempChannels == s.tempChannels && r.channelOwners == s.channelOwners && r.pending == s.pending
    ensures FlagOf(r.world, id, Everyone, f) == Some(allow) && EveryoneFlagOnly(s, r, id, f)
  {
  }

  /** `lockChannel`: @everyone may no longer connect; `locked` becomes true. */
  function LockChannel(s: State, id: Id, ok: bool): (r: State)
    requires id in s.world.channels
    ensures ok ==> FlagOf(r.world, id, Everyone, Connect) == Some(false)
    ensures ok ==> r.channelSettings == s.channelSettings[id := SettingsOf(s, id).(locked := Some(true))]
    ensures ok ==> EveryoneFlagOnly(s, r, id, Connect)
    ensures !ok ==> r == s
  {
    EditEveryone(s, id, Connect, false, SettingsOf(s, id).(locked := Some(true)), ok)
  }

  /** `unlockChannel`: @everyone may connect again; `locked` becomes false. */
  function UnlockChannel(s: State, id: Id, ok: bool): (r: State)
    requires id in s.world.channels
    ensures ok ==> FlagOf(r.world, id, Everyone, Connect) == Some(true)
    ensures ok ==> r.channelSettings == s.channelSettings[id := SettingsOf(s, id).(locked := Some(false))]
    ensures ok ==> EveryoneFlagOnly(s, r, id, Connect)
    ensures !ok ==> r == s
  {
    EditEveryone(s, id, Connect, true, SettingsOf(s, id).(locked := Some(false)), ok)
  }

  /** `hideChannel`: @everyone may no longer see the channel; `hidden` becomes true. */
  function HideChannel(s: State, id: Id, ok: bool): (r: State)
    requires id in s.world.channels
    ensures ok ==> FlagOf(r.world, id, Everyone, ViewChannel) == Some(false)
    ensures ok ==> r.channelSettings == s.channelSettings[id := SettingsOf(s, id).(hidden := Some(true))]
    ensures ok ==> EveryoneFlagOnly(s, r, id, ViewChannel)
    ensures !ok ==> r == s
  {
    EditEveryone(s, id, ViewChannel, false, SettingsOf(s, id).(hidden := Some(true)), ok)
  }

  /** `unhideChannel`: @everyone may see the channel again; `hidden` becomes false. */
  function UnhideChannel(s: State, id: Id, ok: bool): (r: State)
    requires id in s.world.channels
    ensures ok ==> FlagOf(r.world, id, Everyone, ViewChannel) == Some(true)
    ensures ok ==> r.channelSettings == s.channelSettings[id := SettingsOf(s, id).(hidden := Some(false))]
    ensures ok ==> EveryoneFlagOnly(s, r, id, ViewChannel)
    ensures !ok ==> r == s
  {
    EditEveryone(s, id, ViewChannel, true, SettingsOf(s, id).(hidden := Some(false)), ok)
  }

  /** `renameChannel`: only the channel's name changes; the settings are not touched. */
  function RenameChannel(s: State, id: Id, name: string, ok: bool): (r: State)
    requires id in s.world.channels
    ensures ok ==> r.world.channels == s.world.channels[id := s.world.channels[id].(name := name)]
    ensures r.world == s.world.(channels := r.world.channels)
    ensures r.tempChannels == s.tempChannels && r.channelOwners == s.channelOwners
    ensures r.channelSettings == s.channelSettings && r.pending == s.pending
    ensures !ok ==> r == s
  {
    if ok then s.(world := SetName(s.world, id, name)) else s
  }

  /** `setUserLimit`: the channel's limit and the stored `userLimit` become `limit`. */
  function SetUserLimit(s: State, id: Id, limit: int, ok: bool): (r: State)
    requires id in s.world.channels
    ensures ok ==> r.world.channels == s.world.channels[id := s.world.channels[id].(userLimit := limit)]
    ensures ok ==> r.channelSettings == s.channelSettings[id := SettingsOf(s, id).(userLimit := Some(limit))]
    ensures r.world == s.world.(channels := r.world.channels)
    ensures r.tempChannels == s.tempChannels && r.channelOwners == s.channelOwners && r.pending == s.pending
    ensures !ok ==> r == s
  {
    if ok then
      s.(world := SetChannelLimit(s.world, id, limit),
         channelSettings := s.channelSettings[id := SettingsOf(s, id).(userLimit := Some(limit))])
    else s
  }

  /**
   * `claimChannel`: succeeds only when claiming is allowed and the recorded
   * owner is not connected to the channel.  The owner map is updated before
   * the overwrite is granted, so a failing grant leaves `member` recorded as
   * owner without the owner flags.  The old owner's overwrite is kept.
   */
  function ClaimChannel(cfg: Config, s: State, id: Id, member: Member, ok: bool): (res: (Outcome<bool>, State))
    requires id in s.world.channels
    ensures OwnerPresent(s, id) || !cfg.allowClaim ==> res == (Returned(false), s)
    ensures res.0 == Returned(true) <==> !OwnerPresent(s, id) && cfg.allowClaim && ok
    ensures res.0 != Returned(false) ==>
      && res.1.channelOwners == s.channelOwners[id := member.id]
      && res.1.tempChannels == s.tempChannels && res.1.channelSettings == s.channelSettings && res.1.pending == s.pending
    ensures res.0 == Returned(true) ==> HoldsOwnerFlags(res.1.world, id, member.id) && OnlyOverwritesOf(s.world, res.1.world, id)
    ensures res.0 == Returned(true) ==> forall x, f :: x != User(member.id) ==> FlagOf(res.1.world, id, x, f) == FlagOf(s.world, id, x, f)
    ensures res.0 == Threw ==> res.1.world == s.world
  {
    if OwnerPresent(s, id) || !cfg.allowClaim then (Returned(false), s)
    else
      var s1 := s.(channelOwners := s.channelOwners[id := member.id]);
      if ok then
        var w := EditOverwrite(s1.world, id, User(member.id), OwnerPatch);
        GrantOwnerFlags(s1.world, w, id, member.id);
        (Returned(true), s1.(world := w))
      else (Threw, s1)
  }

  /** `if (oldOwnerId)`: an owner is recorded and is not the empty string. */
  predicate HasOldOwner(s: State, id: Id) {
    id in s.channelOwners && s.channelOwners[id] != ""
  }

  /** Granting the owner flags to a member's overwrite leaves the member holding all of them. */
  lemma GrantOwnerFlags(w: World, r: World, id: Id, m: Id)
    requires id in w.channels
    requires r == EditOverwrite(w, id, User(m), OwnerPatch)
    ensures HoldsOwnerFlags(r, id, m)
  {
  }

  /** `r`'s flags on channel `id` are `s`'s, except that the recorded old owner, if any, has none. */
  ghost predicate OldOwnerDropped(s: State, r: World, id: Id) {
    forall x, f :: FlagOf(r, id, x, f) == if HasOldOwner(s, id) && x == User(s.channelOwners[id]) then None else FlagOf(s.world, id, x, f)
  }

  /**
   * `r`'s flags on channel `id` after a completed transfer to `to`: `to`
   * holds the owner flags, the recorded old owner has no other flag left,
   * and every other subject's flags are `s`'s.
   */
  ghost predicate HandedOver(s: State, r: World, id: Id, to: Id) {
    forall x, f :: FlagOf(r, id, x, f) ==
      if x == User(to) && f in OwnerPatch then Some(true)
      else if HasOldOwner(s, id) && x == User(s.channelOwners[id]) then None
      else FlagOf(s.world, id, x, f)
  }

  /** The old owner's overwrite, when one is recorded, is deleted. */
  function DropOldOwner(s: State, id: Id): (w: World)
    requires id in s.world.channels
    ensures OnlyOverwritesOf(s.world, w, id)
    ensures HasOldOwner(s, id) ==> forall f :: FlagOf(w, id, User(s.channelOwners[id]), f) == None
    ensures OldOwnerDropped(s, w, id)
  {
    if HasOldOwner(s, id) then DeleteOverwrite(s.world, id, User(s.channelOwners[id])) else s.world
  }

  /** Granting the owner flags after dropping the old owner's overwrite completes the handover. */
  lemma GrantAfterDrop(s: State, w1: World, w2: World, id: Id, to: Id)
    requires id in w1.channels && OldOwnerDropped(s, w1, id)
    requires w2 == EditOverwrite(w1, id, User(to), OwnerPatch)
    ensures HandedOver(s, w2, id, to)
  {
    forall x, f
      ensures FlagOf(w2, id, x, f) ==
        if x == User(to) && f in OwnerPatch then Some(true)
        else if HasOldOwner(s, id) && x == User(s.channelOwners[id]) then None
        else FlagOf(s.world, id, x, f)
    {
      if x == User(to) && f in OwnerPatch {
        assert OwnerPatch[f] == Allow;
      }
    }
  }

  /** The state after a transfer whose calls all resolved. */
  function AfterTransfer(s: State, id: Id, newOwner: Member): (r: State)
    requires id in s.world.channels
    ensures r.channelOwners == s.channelOwners[id := newOwner.id]
    ensures HoldsOwnerFlags(r.world, id, newOwner.id)
    ensures HasOldOwner(s, id) && s.channelOwners[id] != newOwner.id ==>
      forall f :: FlagOf(r.world, id, User(s.channelOwners[id]), f) == None
    ensures HandedOver(s, r.world, id, newOwner.id)
    ensures OnlyOverwritesOf(s.world, r.world, id)
    ensures r.tempChannels == s.tempChannels && r.channelSettings == s.channelSettings && r.pending == s.pending
  {
    var w1 := DropOldOwner(s, id);
    var w2 := EditOverwrite(w1, id, User(newOwner.id), OwnerPatch);
    GrantOwnerFlags(w1, w2, id, newOwner.id);
    GrantAfterDrop(s, w1, w2, id, newOwner.id);
    OnlyOverwritesOfTrans(s.world, w1, w2, id);
    s.(world := w2, channelOwners := s.channelOwners[id := newOwner.id])
  }

  /**
   * `transferChannel`: removes the old owner's overwrite, records the new
   * owner, then grants the new owner the owner flags.  Each platform call
   * can fail and leaves the steps before it in place.
   */
  function TransferChannel(cfg: Config, s: State, id: Id, newOwner: Member, deleteOk: bool, editOk: bool): (res: (Outcome<bool>, State))
    requires id in s.world.channels
    ensures !cfg.allowTransfer ==> res == (Returned(false), s)
    ensures res.0 == Returned(true) <==> cfg.allowTransfer && (deleteOk || !HasOldOwner(s, id)) && editOk
    ensures res.0 == Returned(true) ==> res.1.channelOwners == s.channelOwners[id := newOwner.id]
    ensures res.0 == Returned(true) ==> HoldsOwnerFlags(res.1.world, id, newOwner.id)
    ensures res.0 == Returned(true) && HasOldOwner(s, id) && s.channelOwners[id] != newOwner.id ==>
      forall f :: FlagOf(res.1.world, id, User(s.channelOwners[id]), f) == None
    ensures res.0 == Returned(true) ==> HandedOver(s, res.1.world, id, newOwner.id)
    ensures res.0 != Returned(false) ==> OnlyOverwritesOf(s.world, res.1.world, id)
    ensures res.1.tempChannels == s.tempChannels && res.1.channelSettings == s.channelSettings && res.1.pending == s.pending
    ensures res.0 == Threw && HasOldOwner(s, id) && !deleteOk ==> res.1 == s
    ensures res.0 == Threw && (deleteOk || !HasOldOwner(s, id)) ==>
      res.1.channelOwners == s.channelOwners[id := newOwner.id] && OldOwnerDropped(s, res.1.world, id)
  {
    if !cfg.allowTransfer then (Returned(false), s)
    else if HasOldOwner(s, id) && !deleteOk then (Threw, s)
    else if editOk then (Returned(true), AfterTransfer(s, id, newOwner))
    else (Threw, s.(world := DropOldOwner(s, id), channelOwners := s.channelOwners[id := newOwner.id]))
  }

  /** The three loops over `channel.members`. */
  datatype Sweep = DisconnectEach | MuteEach | UnmuteEach

  /** The platform after the sweep's call succeeded for exactly the members of `done`. */
  function SweepWorld(w: World, sweep: Sweep, done: set<Id>): World {
    match sweep
    case DisconnectEach => w.(voice := w.voice - done)
    case MuteEach => w.(muted := w.muted + done)
    case UnmuteEach => w.(muted := w.muted - done)
  }

  /** The call a sweep makes for one member. */
  function SweepOne(w: World, sweep: Sweep, m: Id): World {
    match sweep
    case DisconnectEach => Disconnect(w, m)
    case MuteEach => SetMute(w, m, true)
    case UnmuteEach => SetMute(w, m, false)
  }

  lemma SweepWorldStep(w: World, sweep: Sweep, done: set<Id>, m: Id)
    ensures SweepWorld(w, sweep, done + {m}) == SweepOne(SweepWorld(w, sweep, done), sweep, m)
  {
    match sweep
    case DisconnectEach =>
      assert w.voice - (done + {m}) == (w.voice - done) - {m};
    case MuteEach =>
      assert w.muted + (done + {m}) == (w.muted + done) + {m};
    case UnmuteEach =>
      assert w.muted - (done + {m}) == (w.muted - done) - {m};
  }

  /** A sweep that succeeded for nobody leaves the platform as it was. */
  lemma SweepWorldNone(w: World, sweep: Sweep)
    ensures SweepWorld(w, sweep, {}) == w
  {
    match sweep
    case DisconnectEach =>
      assert w.voice - {} == w.voice;
    case MuteEach =>
      assert w.muted + {} == w.muted;
    case UnmuteEach =>
      assert w.muted - {} == w.muted;
  }

  /** Taking one more member out of the loop's to-do set adds it to the successes iff its call resolved. */
  lemma SucceededStep(members: set<Id>, todo: set<Id>, m: Id, ok: Id -> bool)
    requires m in todo && todo <= members
    ensures Succeeded(members - (todo - {m}), ok) == Succeeded(members - todo, ok) + (if ok(m) then {m} else {})
    ensures m !in Succeeded(members - todo, ok)
  {
    assert members - (todo - {m}) == (members - todo) + {m};
  }

  /**
   * `disconnectAll`, `muteAllMembers`, `unmuteAllMembers`: the call is made
   * for every member connected when the loop starts; the result counts the
   * calls that resolved.
   */
  function SweepMembers(s: State, id: Id, sweep: Sweep, ok: Id -> bool): (res: (nat, State))
    ensures res.0 == |Succeeded(Occupants(s.world, id), ok)| && res.0 <= |Occupants(s.world, id)|
    ensures res.1 == s.(world := SweepWorld(s.world, sweep, Succeeded(Occupants(s.world, id), ok)))
  {
    var done := Succeeded(Occupants(s.world, id), ok);
    SubsetCardinality(done, Occupants(s.world, id));
    (|done|, s.(world := SweepWorld(s.world, sweep, done)))
  }

  /**
   * `muteMember` (`mute` true) and `unmuteMember` (`mute` false): acts only on
   * a member connected to the channel; true iff the call was made and resolved.
   */
  function SetMemberMute(s: State, id: Id, target: Id, mute: bool, ok: bool): (res: (bool, State))
    ensures res.0 <==> InChannel(s.world, target, id) && ok
    ensures res.0 ==> res.1 == s.(world := res.1.world) && (target in res.1.world.muted <==> mute)
    ensures res.0 ==> res.1.world.muted - {target} == s.world.muted - {target}
    ensures res.0 ==> res.1.world == s.world.(muted := res.1.world.muted)
    ensures !res.0 ==> res.1 == s
  {
    if InChannel(s.world, target, id) && ok then (true, s.(world := SetMute(s.world, target, mute)))
    else (false, s)
  }

  /** The shape of permitMember, permitRole and rejectRole: one overwrite edit, true iff it resolved. */
  function EditFor(s: State, id: Id, who: Subject, p: Patch, ok: bool): (res: (bool, State))
    requires id in s.world.channels
    ensures res.0 == ok
    ensures ok ==> res.1 == s.(world := EditOverwrite(s.world, id, who, p))
    ensures !ok ==> res.1 == s
  {
    if ok then (true, s.(world := EditOverwrite(s.world, id, who, p))) else (false, s)
  }

  /** Only `who`'s overwrite on `id` changed, in the flags the patch names. */
  ghost predicate SubjectFlagsOnly(s: State, r: State, id: Id, who: Subject, p: Patch) {
    && r.tempChannels == s.tempChannels && r.channelOwners == s.channelOwners
    && r.channelSettings == s.channelSettings && r.pending == s.pending
    && OnlyOverwritesOf(s.world, r.world, id)
    && (forall c, x, g :: !(c == id && x == who && g in p) ==> FlagOf(r.world, c, x, g) == FlagOf(s.world, c, x, g))
  }

  /** `permitMember`: the member may view, connect and speak. */
  function PermitMember(s: State, id: Id, target: Id, ok: bool): (res: (bool, State))
    requires id in s.world.channels
    ensures res.0 == ok
    ensures ok ==> forall f :: f in PermitPatch ==> FlagOf(res.1.world, id, User(target), f) == Some(true)
    ensures ok ==> SubjectFlagsOnly(s, res.1, id, User(target), PermitPatch)
    ensures !ok ==> res.1 == s
  {
    EditFor(s, id, User(target), PermitPatch, ok)
  }

  /** `permitRole`: the role may view, connect and speak. */
  function PermitRole(s: State, id: Id, role: Id, ok: bool): (res: (bool, State))
    requires id in s.world.channels
    ensures res.0 == ok
    ensures ok ==> forall f :: f in PermitPatch ==> FlagOf(res.1.world, id, Role(role), f) == Some(true)
    ensures ok ==> SubjectFlagsOnly(s, res.1, id, Role(role), PermitPatch)
    ensures !ok ==> res.1 == s
  {
    EditFor(s, id, Role(role), PermitPatch, ok)
  }

  /** `rejectRole`: the role may neither connect nor speak. */
  function RejectRole(s: State, id: Id, role: Id, ok: bool): (res: (bool, State))
    requires id in s.world.channels
    ensures res.0 == ok
    ensures ok ==> forall f :: f in RejectPatch ==> FlagOf(res.1.world, id, Role(role), f) == Some(false)
    ensures ok ==> SubjectFlagsOnly(s, res.1, id, Role(role), RejectPatch)
    ensures !ok ==> res.1 == s
  {
    EditFor(s, id, Role(role), RejectPatch, ok)
  }

  /**
   * `rejectMember`: the member may neither connect nor speak, and is
   * disconnected when connected to the channel.  A failing disconnect
   * returns false but keeps the denied overwrite.
   */
  function RejectMember(s: State, id: Id, target: Id, editOk: bool, disconnectOk: bool): (res: (bool, State))
    requires id in s.world.channels
    ensures res.0 <==> editOk && (!InChannel(s.world, target, id) || disconnectOk)
    ensures editOk ==> forall f :: f in RejectPatch ==> FlagOf(res.1.world, id, User(target), f) == Some(false)
    ensures res.0 ==> !InChannel(res.1.world, target, id)
    ensures res.0 ==> res.1.world.voice == if InChannel(s.world, target, id) then s.world.voice - {target} else s.world.voice
    ensures editOk ==> SubjectFlagsOnly(s, res.1.(world := res.1.world.(voice := s.world.voice)), id, User(target), RejectPatch)
    ensures !editOk ==> res.1 == s
  {
    if !editOk then (false, s)
    else
      var d := DisconnectIfIn(EditOverwrite(s.world, id, User(target), RejectPatch), target, id, disconnectOk);
      (d.0, s.(world := d.1))
  }

  /**
   * `toggleChannelActivity`: flips the truthiness of `activityDetection` and
   * returns the new value; there is no platform call.
   */
  function ToggleChannelActivity(s: State, id: Id): (res: (bool, State))
    ensures res.0 == !Truthy(SettingsOf(s, id).activityDetection)
    ensures SettingsOf(res.1, id) == SettingsOf(s, id).(activityDetection := Some(res.0))
    ensures res.1 == s.(channelSettings := res.1.channelSettings)
    ensures res.1.channelSettings - {id} == s.channelSettings - {id} && id in res.1.channelSettings
  {
    var v := !Truthy(SettingsOf(s, id).activityDetection);
    (v, s.(channelSettings := s.channelSettings[id := SettingsOf(s, id).(activityDetection := Some(v))]))
  }

  /**
   * `toggleUserActivity`: flips `userActivity` in the settings first, then
   * sets the @everyone voice-activity flag to the new value.  A failing edit
   * returns false and leaves the flipped setting stored.
   */
  function ToggleUserActivity(s: State, id: Id, ok: bool): (res: (bool, State))
    requires id in s.world.channels
    ensures Truthy(SettingsOf(res.1, id).userActivity) == !Truthy(SettingsOf(s, id).userActivity)
    ensures SettingsOf(res.1, id) == SettingsOf(s, id).(userActivity := SettingsOf(res.1, id).userActivity)
    ensures res.1.channelSettings - {id} == s.channelSettings - {id} && id in res.1.channelSettings
    ensures ok ==> res.0 == Truthy(SettingsOf(res.1, id).userActivity)
    ensures ok ==> FlagOf(res.1.world, id, Everyone, UseVAD) == Some(res.0) && EveryoneFlagOnly(s, res.1.(channelSettings := s.channelSettings), id, UseVAD)
    ensures !ok ==> !res.0 && res.1.world == s.world
    ensures res.1.tempChannels == s.tempChannels && res.1.channelOwners == s.channelOwners && res.1.pending == s.pending
  {
    var v := !Truthy(SettingsOf(s, id).userActivity);
    var s1 := s.(channelSettings := s.channelSettings[id := SettingsOf(s, id).(userActivity := Some(v))]);
    if ok then
      var r := s1.(world := EditOverwrite(s1.world, id, Everyone, map[UseVAD := if v then Allow else Deny]));
      EveryoneEdit(s, r.(channelSettings := s.channelSettings), id, UseVAD, v);
      (v, r)
    else (false, s1)
  }

  /**
   * `toggleCameraPermissions`: flips `cameraAllowed` first, then sets the
   * @everyone stream flag to the new value; a failing edit returns false.
   */
  function ToggleCameraPermissions(s: State, id: Id, ok: bool): (res: (bool, State))
    requires id in s.world.channels
    ensures Truthy(SettingsOf(res.1, id).cameraAllowed) == !Truthy(SettingsOf(s, id).cameraAllowed)
    ensures SettingsOf(res.1, id) == SettingsOf(s, id).(cameraAllowed := SettingsOf(res.1, id).cameraAllowed)
    ensures res.1.channelSettings - {id} == s.channelSettings - {id} && id in res.1.channelSettings
    ensures ok ==> res.0 == Truthy(SettingsOf(res.1, id).cameraAllowed)
    ensures ok ==> FlagOf(res.1.world, id, Everyone, Stream) == Some(res.0) && EveryoneFlagOnly(s, res.1.(channelSettings := s.channelSettings), id, Stream)
    ensures !ok ==> !res.0 && res.1.world == s.world
    ensures res.1.tempChannels == s.tempChannels && res.1.channelOwners == s.channelOwners && res.1.pending == s.pending
  {
    var v := !Truthy(SettingsOf(s, id).cameraAllowed);
    var s1 := s.(channelSettings := s.channelSettings[id := SettingsOf(s, id).(cameraAllowed := Some(v))]);
    if ok then
      var r := s1.(world := EditOverwrite(s1.world, id, Everyone, map[Stream := if v then Allow else Deny]));
      EveryoneEdit(s, r.(channelSettings := s.channelSettings), id, Stream, v);
      (v, r)
    else (false, s1)
  }

  /** A channel created and then deleted leaves the client exactly as it was. */
  lemma CreateThenDeleteRestores(cfg: Config, s: State, member: Member, id: Id, now: int)
    requires Fresh(s, id) && s.world.hasCategory
    ensures var c := CreateTempChannel(cfg, s, member, id, now, true, true);
      c.0 == Some(id) && DeleteTempChannel(c.1, id, true, true) == s
  {
    var c := CreateTempChannel(cfg, s, member, id, now, true, true);
    var d := DeleteTempChannel(c.1, id, true, true);
    assert d.world.voice == s.world.voice by {
      forall m | m in s.world.voice
        ensures s.world.voice[m] != id
      {
        assert m !in Occupants(s.world, id);
      }
    }
    assert d.world.channels == s.world.channels;
    assert d.tempChannels == s.tempChannels;
    assert d.channelOwners == s.channelOwners;
    assert d.channelSettings == s.channelSettings;
  }

  /** Once a deletion went through, deleting the same channel again changes nothing. */
  lemma DeleteIsFinal(s: State, id: Id, fetchOk: bool, deleteOk: bool, fetchOk': bool, deleteOk': bool)
    requires id in s.world.channels && fetchOk && deleteOk
    ensures var r := DeleteTempChannel(s, id, fetchOk, deleteOk);
      DeleteTempChannel(r, id, fetchOk', deleteOk') == r && id !in r.tempChannels
  {
  }

  /**
   * A record whose channel no longer exists is never removed: the fetch
   * fails and the clean-up is skipped.
   */
  lemma VanishedChannelKeepsRecord(s: State, id: Id, fetchOk: bool, deleteOk: bool)
    requires id in s.tempChannels && id !in s.world.channels
    ensures DeleteTempChannel(s, id, fetchOk, deleteOk) == s
    ensures id in DeleteTempChannel(s, id, fetchOk, deleteOk).tempChannels
  {
  }

  /**
   * A successful transfer hands control over: the new owner passes the
   * permission check and the old owner, unless an administrator, no longer does.
   */
  lemma TransferMovesControl(cfg: Config, s: State, id: Id, oldOwner: Member, newOwner: Member, deleteOk: bool, editOk: bool)
    requires id in s.world.channels
    requires id in s.channelOwners && s.channelOwners[id] == oldOwner.id
    requires oldOwner.id != newOwner.id && !oldOwner.isAdmin
    requires TransferChannel(cfg, s, id, newOwner, deleteOk, editOk).0 == Returned(true)
    ensures var r := TransferChannel(cfg, s, id, newOwner, deleteOk, editOk).1;
      HasChannelPermission(r, newOwner, id) && !HasChannelPermission(r, oldOwner, id)
  {
  }

  /**
   * Claiming records the new owner but keeps the previous owner's
   * overwrite: whatever flags the previous owner held on the channel, they
   * still hold.
   */
  lemma ClaimKeepsPreviousOwnerFlags(cfg: Config, s: State, id: Id, member: Member, ok: bool)
    requires id in s.world.channels && id in s.channelOwners && s.channelOwners[id] != member.id
    requires ClaimChannel(cfg, s, id, member, ok).0 == Returned(true)
    ensures var r := ClaimChannel(cfg, s, id, member, ok).1;
      r.channelOwners[id] == member.id
      && forall f :: FlagOf(r.world, id, User(s.channelOwners[id]), f) == FlagOf(s.world, id, User(s.channelOwners[id]), f)
  {
  }

  /**
   * Locking and then unlocking leaves @everyone allowed to connect and the
   * channel recorded as unlocked; every other flag and setting is as before.
   */
  lemma LockThenUnlock(s: State, id: Id)
    requires id in s.world.channels
    ensures var r := UnlockChannel(LockChannel(s, id, true), id, true);
      && FlagOf(r.world, id, Everyone, Connect) == Some(true)
      && SettingsOf(r, id) == SettingsOf(s, id).(locked := Some(false))
      && (forall c, x, g :: (c, x, g) != (id, Everyone, Connect) ==> FlagOf(r.world, c, x, g) == FlagOf(s.world, c, x, g))
  {
    var l := LockChannel(s, id, true);
    var r := UnlockChannel(l, id, true);
    assert SettingsOf(l, id) == SettingsOf(s, id).(locked := Some(true));
    forall c, x, g | (c, x, g) != (id, Everyone, Connect)
      ensures FlagOf(r.world, c, x, g) == FlagOf(s.world, c, x, g)
    {
      assert FlagOf(r.world, c, x, g) == FlagOf(l.world, c, x, g);
    }
  }

  /** Toggling activity detection twice restores its truthiness. */
  lemma ToggleChannelActivityTwice(s: State, id: Id)
    ensures var t := ToggleChannelActivity(s, id);
      var u := ToggleChannelActivity(t.1, id);
      u.0 == Truthy(SettingsOf(s, id).activityDetection) && u.0 != t.0
  {
  }

  /**
   * Two successful user-activity toggles restore the setting's truthiness,
   * and the @everyone voice-activity flag then agrees with it.
   */
  lemma ToggleUserActivityTwice(s: State, id: Id)
    requires id in s.world.channels
    ensures var t := ToggleUserActivity(s, id, true);
      var u := ToggleUserActivity(t.1, id, true);
      && Truthy(SettingsOf(u.1, id).userActivity) == Truthy(SettingsOf(s, id).userActivity)
      && FlagOf(u.1.world, id, Everyone, UseVAD) == Some(Truthy(SettingsOf(s, id).userActivity))
  {
    var t := ToggleUserActivity(s, id, true);
    assert t.1.world.channels.Keys == s.world.channels.Keys;
  }

  /**
   * A user-activity toggle whose edit fails leaves the stored setting and
   * the channel's flag disagreeing, even when they agreed before.
   */
  lemma ToggleUserActivityFailureDesyncs(s: State, id: Id)
    requires id in s.world.channels
    requires FlagOf(s.world, id, Everyone, UseVAD) == Some(Truthy(SettingsOf(s, id).userActivity))
    ensures var t := ToggleUserActivity(s, id, false);
      FlagOf(t.1.world, id, Everyone, UseVAD) != Some(Truthy(SettingsOf(t.1, id).userActivity))
  {
  }

  /**
   * When every disconnect resolves, `disconnectAll` empties the channel,
   * counts every member that was in it, and no other channel loses anyone.
   */
  lemma DisconnectAllEmpties(s: State, id: Id, ok: Id -> bool)
    requires forall m :: ok(m)
    ensures var r := SweepMembers(s, id, DisconnectEach, ok);
      && r.0 == |Occupants(s.world, id)|
      && Occupants(r.1.world, id) == {}
      && forall c :: c != id ==> Occupants(r.1.world, c) == Occupants(s.world, c)
  {
    var done := Succeeded(Occupants(s.world, id), ok);
    assert done == Occupants(s.world, id);
  }

  /** When every call resolves, `muteAllMembers` leaves everyone in the channel muted. */
  lemma MuteAllMutesEveryone(s: State, id: Id, ok: Id -> bool)
    requires forall m :: ok(m)
    ensures var r := SweepMembers(s, id, MuteEach, ok);
      r.0 == |Occupants(s.world, id)| && Occupants(r.1.world, id) <= r.1.world.muted
  {
    var done := Succeeded(Occupants(s.world, id), ok);
    assert done == Occupants(s.world, id);
  }

  /** Rejecting and then permitting a member lets them connect and speak again. */
  lemma RejectThenPermit(s: State, id: Id, target: Id, disconnectOk: bool)
    requires id in s.world.channels
    ensures var r := RejectMember(s, id, target, true, disconnectOk).1;
      var p := PermitMember(r, id, target, true).1;
      FlagOf(p.world, id, User(target), Connect) == Some(true) && FlagOf(p.world, id, User(target), Speak) == Some(true)
  {
    var r := RejectMember(s, id, target, true, disconnectOk).1;
    assert id in r.world.channels;
  }
}
