/**
 * The root bot: joining the trigger channel creates a temporary voice
 * channel for the member (at most three per member), an emptied temporary
 * channel is deleted once a five-minute timer fires while it is still empty,
 * and a slash command deletes one's own channel.  The bot keeps two maps —
 * channel id to record, and creator to channel id — and each record holds
 * the handle of the channel's pending deletion timer.  Live timers are
 * modelled as a map from handle to channel; `clearTimeout` removes an entry,
 * `setTimeout` adds one under a fresh handle, and a timer that fires is
 * removed before its callback runs.
 */
module RootSpec {
  import opened Platform

  const CreateChannelName: string := "\U{2795} Create Temp Channel"
  const TempChannelPrefix: string := "\U{1F50A}"
  const MaxTempChannelsPerUser: nat := 3
  const ChannelTimeout: nat := 300000  // milliseconds

  /** `{creator, createdAt, timeout}`: the creator and the pending deletion timer, if one was set. */
  datatype Record = Record(creator: Id, createdAt: int, timeout: Option<nat>)

  datatype Bot = Bot(
    tempChannels: map<Id, Record>,
    channelCreators: map<Id, Id>,  // creator -> the channel created last
    world: World,
    timers: map<nat, Id>,          // live timer handle -> the channel it would delete
    nextTimer: nat)                // the handle the next `setTimeout` returns

  /**
   * What the maps promise: every live timer is the one its channel's record
   * holds, so a channel has at most one; handles are below `nextTimer`, and
   * a record's timer, while live, would delete that record's channel; and
   * every creator entry names a channel recorded as created by that creator.
   */
  ghost predicate Valid(b: Bot) {
    && (forall h :: h in b.timers ==> b.timers[h] in b.tempChannels && b.tempChannels[b.timers[h]].timeout == Some(h))
    && (forall id :: id in b.tempChannels && b.tempChannels[id].timeout.Some? ==>
          && b.tempChannels[id].timeout.value < b.nextTimer
          && (b.tempChannels[id].timeout.value in b.timers ==> b.timers[b.tempChannels[id].timeout.value] == id))
    && (forall u :: u in b.channelCreators ==> b.channelCreators[u] in b.tempChannels && b.tempChannels[b.channelCreators[u]].creator == u)
  }

  /** The temporary channels recorded as created by member `m`. */
  function CreatedBy(t: map<Id, Record>, m: Id): (r: set<Id>)
    ensures forall id :: id in r <==> id in t && t[id].creator == m
  {
    set id | id in t && t[id].creator == m
  }

  /** No member has more than `MaxTempChannelsPerUser` recorded channels. */
  ghost predicate Capped(b: Bot) {
    forall u :: |CreatedBy(b.tempChannels, u)| <= MaxTempChannelsPerUser
  }

  /** The live timers that would delete channel `id`. */
  function TimersFor(b: Bot, id: Id): (r: set<nat>)
    ensures forall h :: h in r <==> h in b.timers && b.timers[h] == id
  {
    set h | h in b.timers && b.timers[h] == id
  }

  /** Every live handle is below `nextTimer`, so `setTimeout` never reuses one. */
  lemma HandlesBelow(b: Bot)
    ensures Valid(b) ==> forall h :: h in b.timers ==> h < b.nextTimer
  {
  }

  /** A channel never has two pending deletions. */
  lemma {:induction false} AtMostOneTimer(b: Bot, id: Id)
    requires Valid(b)
    ensures |TimersFor(b, id)| <= 1
    ensures TimersFor(b, id) != {} ==> id in b.tempChannels && TimersFor(b, id) == {b.tempChannels[id].timeout.value}
  {
    if TimersFor(b, id) != {} {
      var h :| h in TimersFor(b, id);
      assert TimersFor(b, id) == {h} by {
        forall g | g in TimersFor(b, id) ensures g == h {
          assert b.tempChannels[id].timeout == Some(g) && b.tempChannels[id].timeout == Some(h);
        }
      }
    }
  }

  /** `${TEMP_CHANNEL_PREFIX} ${member.displayName}'s Channel`. */
  function ChannelNameFor(displayName: string): string {
    TempChannelPrefix + " " + displayName + "'s Channel"
  }

  /** The creator's overwrite on a new channel: manage, move, mute and deafen allowed. */
  const CreatorOverwrite: Overwrite := map[ManageChannels := true, MoveMembers := true, MuteMembers := true, DeafenMembers := true]

  /** The voice channel `createTempChannel` creates: the member's name, no user limit, the creator's overwrite. */
  function NewTempChannel(member: Member): Channel {
    Channel(ChannelNameFor(member.displayName), 0, map[User(member.id) := CreatorOverwrite])
  }

  /** Changing a record's timer keeps every member's set of created channels. */
  lemma CreatedBySameCreators(t: map<Id, Record>, id: Id, rec: Record, m: Id)
    requires id in t && rec.creator == t[id].creator
    ensures CreatedBy(t[id := rec], m) == CreatedBy(t, m)
  {
  }

  /**
   * `createTempChannel`: nothing happens when the member already has three
   * recorded channels.  Otherwise the channel is created (`createOk`), the
   * member is moved into it (`moveOk`), and only then is it recorded, with no
   * timer, and named the member's channel in `channelCreators`.  A failed
   * move leaves the new channel on the platform and unrecorded.
   */
  function CreateTempChannel(b: Bot, member: Member, freshId: Id, now: int, createOk: bool, moveOk: bool): (r: Bot)
    requires freshId !in b.world.channels && freshId !in b.tempChannels
    ensures |CreatedBy(b.tempChannels, member.id)| >= MaxTempChannelsPerUser || !createOk ==> r == b
    ensures r.tempChannels != b.tempChannels <==> |CreatedBy(b.tempChannels, member.id)| < MaxTempChannelsPerUser && createOk && moveOk
    ensures r.tempChannels != b.tempChannels ==>
      && r.tempChannels == b.tempChannels[freshId := Record(member.id, now, None)]
      && r.channelCreators == b.channelCreators[member.id := freshId]
      && InChannel(r.world, member.id, freshId)
    ensures r.world.channels ==
      if |CreatedBy(b.tempChannels, member.id)| < MaxTempChannelsPerUser && createOk
      then b.world.channels[freshId := NewTempChannel(member)] else b.world.channels
    ensures r.world.voice == if r.tempChannels != b.tempChannels then b.world.voice[member.id := freshId] else b.world.voice
    ensures r.world == b.world.(channels := r.world.channels, voice := r.world.voice)
    ensures |CreatedBy(b.tempChannels, member.id)| < MaxTempChannelsPerUser && createOk && !moveOk ==>
      freshId in r.world.channels && freshId !in r.tempChannels
    ensures r.tempChannels == b.tempChannels ==> r.channelCreators == b.channelCreators
    ensures r.timers == b.timers && r.nextTimer == b.nextTimer
    ensures Valid(b) ==> Valid(r)
  {
    if |CreatedBy(b.tempChannels, member.id)| >= MaxTempChannelsPerUser || !createOk then b
    else
      var created := b.world.(channels := b.world.channels[freshId := NewTempChannel(member)]);
      if !moveOk then b.(world := created)
      else Register(b, member.id, freshId, now, MoveMember(created, member.id, freshId))
  }

  /** `tempChannels.set` and `channelCreators.set` for a new channel, next to the platform after the move. */
  function Register(b: Bot, creator: Id, id: Id, now: int, w: World): (r: Bot)
    requires id !in b.tempChannels
    ensures r.tempChannels == b.tempChannels[id := Record(creator, now, None)]
    ensures r.channelCreators == b.channelCreators[creator := id]
    ensures r.world == w && r.timers == b.timers && r.nextTimer == b.nextTimer
    ensures Valid(b) ==> Valid(r)
  {
    b.(world := w,
       tempChannels := b.tempChannels[id := Record(creator, now, None)],
       channelCreators := b.channelCreators[creator := id])
  }

  /** Creation keeps every member at or under the cap. */
  lemma CreateKeepsCap(b: Bot, member: Member, freshId: Id, now: int, createOk: bool, moveOk: bool)
    requires freshId !in b.world.channels && freshId !in b.tempChannels
    requires Capped(b)
    ensures Capped(CreateTempChannel(b, member, freshId, now, createOk, moveOk))
  {
    var r := CreateTempChannel(b, member, freshId, now, createOk, moveOk);
    if r.tempChannels != b.tempChannels {
      forall u ensures |CreatedBy(r.tempChannels, u)| <= MaxTempChannelsPerUser {
        CreatedByAdd(b.tempChannels, freshId, Record(member.id, now, None), u);
      }
    }
  }

  /** Recording a new channel adds it to its creator's set and to no other. */
  lemma CreatedByAdd(t: map<Id, Record>, id: Id, rec: Record, m: Id)
    requires id !in t
    ensures CreatedBy(t[id := rec], m) == if rec.creator == m then CreatedBy(t, m) + {id} else CreatedBy(t, m)
    ensures |CreatedBy(t[id := rec], m)| == |CreatedBy(t, m)| + (if rec.creator == m then 1 else 0)
  {
    if rec.creator == m {
      assert CreatedBy(t[id := rec], m) == CreatedBy(t, m) + {id};
    } else {
      assert CreatedBy(t[id := rec], m) == CreatedBy(t, m);
    }
  }

  /**
   * `handleChannelLeave`: for a recorded channel nobody is connected to, the
   * pending timer, if any, is cleared and a new one is set and stored in the
   * record.  Any other channel is left alone.
   */
  function HandleChannelLeave(b: Bot, id: Id): (r: Bot)
    ensures id !in b.tempChannels || Occupants(b.world, id) != {} ==> r == b
    ensures id in b.tempChannels && Occupants(b.world, id) == {} ==>
      && r.tempChannels == b.tempChannels[id := b.tempChannels[id].(timeout := Some(b.nextTimer))]
      && r.nextTimer == b.nextTimer + 1
      && (Valid(b) ==> TimersFor(r, id) == {b.nextTimer} && forall c :: c != id ==> TimersFor(r, c) == TimersFor(b, c))
    ensures r.channelCreators == b.channelCreators && r.world == b.world
    ensures Valid(b) ==> Valid(r)
  {
    if id !in b.tempChannels || Occupants(b.world, id) != {} then b
    else
      var rec := b.tempChannels[id];
      var live := if rec.timeout.Some? then b.timers - {rec.timeout.value} else b.timers;
      HandlesBelow(b);
      b.(tempChannels := b.tempChannels[id := rec.(timeout := Some(b.nextTimer))],
         timers := live[b.nextTimer := id],
         nextTimer := b.nextTimer + 1)
  }

  /** Arming a timer keeps every member's count of recorded channels. */
  lemma LeaveKeepsCap(b: Bot, id: Id)
    requires Capped(b)
    ensures Capped(HandleChannelLeave(b, id))
  {
    var r := HandleChannelLeave(b, id);
    if r != b {
      forall u ensures |CreatedBy(r.tempChannels, u)| <= MaxTempChannelsPerUser {
        CreatedBySameCreators(b.tempChannels, id, r.tempChannels[id], u);
      }
    }
  }

  /**
   * `deleteTempChannel`: without a record nothing happens.  Otherwise the
   * timer is cleared, the record and the creator's entry are removed — the
   * entry goes even when it names another channel of the same creator — and
   * then the channel is deleted on the platform (`deleteOk`), a failure
   * being swallowed.
   */
  function DeleteTempChannel(b: Bot, id: Id, deleteOk: bool): (r: Bot)
    ensures id !in b.tempChannels ==> r == b
    ensures id in b.tempChannels ==>
      && r.tempChannels == b.tempChannels - {id}
      && r.channelCreators == b.channelCreators - {b.tempChannels[id].creator}
      && r.nextTimer == b.nextTimer
      && (deleteOk ==> r.world == DeleteChannel(b.world, id) && id !in r.world.channels && Occupants(r.world, id) == {})
      && (!deleteOk ==> r.world == b.world)
    ensures forall h :: h in r.timers ==> h in b.timers && r.timers[h] == b.timers[h]
    ensures Valid(b) ==> Valid(r) && TimersFor(r, id) == {}
    ensures Valid(b) ==> forall h :: h in b.timers && b.timers[h] != id ==> h in r.timers
  {
    if id !in b.tempChannels then b
    else
      var rec := b.tempChannels[id];
      var live := if rec.timeout.Some? then b.timers - {rec.timeout.value} else b.timers;
      b.(tempChannels := b.tempChannels - {id},
         channelCreators := b.channelCreators - {rec.creator},
         timers := live,
         world := if deleteOk then DeleteChannel(b.world, id) else b.world)
  }

  /** A second deletion of the same channel changes nothing. */
  lemma DeleteIsIdempotent(b: Bot, id: Id, ok1: bool, ok2: bool)
    ensures var r := DeleteTempChannel(b, id, ok1); DeleteTempChannel(r, id, ok2) == r
  {
  }

  /** Deletion never raises a member's count of recorded channels. */
  lemma DeleteKeepsCap(b: Bot, id: Id, ok: bool)
    requires Capped(b)
    ensures Capped(DeleteTempChannel(b, id, ok))
  {
    var r := DeleteTempChannel(b, id, ok);
    forall u ensures |CreatedBy(r.tempChannels, u)| <= MaxTempChannelsPerUser {
      assert CreatedBy(r.tempChannels, u) <= CreatedBy(b.tempChannels, u);
      SubsetCardinality(CreatedBy(r.tempChannels, u), CreatedBy(b.tempChannels, u));
    }
  }

  /**
   * A member who created two channels loses the `channelCreators` entry of
   * the newer one when the older one is deleted, although the newer channel
   * is still recorded.
   */
  lemma DeletingOlderDropsNewerEntry(b: Bot, older: Id, newer: Id, ok: bool)
    requires older in b.tempChannels && newer in b.tempChannels && older != newer
    requires b.tempChannels[older].creator == b.tempChannels[newer].creator
    requires var u := b.tempChannels[newer].creator; u in b.channelCreators && b.channelCreators[u] == newer
    ensures var r := DeleteTempChannel(b, older, ok);
      newer in r.tempChannels && b.tempChannels[newer].creator !in r.channelCreators
  {
  }

  /**
   * The timer with handle `h` fires: it is no longer live, and its channel is
   * deleted only when nobody is connected to it at that moment.
   */
  function FireTimer(b: Bot, h: nat, deleteOk: bool): (r: Bot)
    requires h in b.timers
    ensures h !in r.timers
    ensures Occupants(b.world, b.timers[h]) != {} ==> r == b.(timers := b.timers - {h})
    ensures Occupants(b.world, b.timers[h]) == {} ==> r == DeleteTempChannel(b.(timers := b.timers - {h}), b.timers[h], deleteOk)
    ensures Valid(b) ==> Valid(r)
  {
    var id := b.timers[h];
    var b1 := b.(timers := b.timers - {h});
    if Occupants(b.world, id) == {} then DeleteTempChannel(b1, id, deleteOk) else b1
  }

  /**
   * Rejoining before the timer fires saves the channel: leaving arms the
   * timer, and when it fires with a member connected again, the record stays.
   */
  lemma RejoinBeforeTimeoutKeepsChannel(b: Bot, id: Id, rejoined: World, deleteOk: bool)
    requires Valid(b) && id in b.tempChannels && Occupants(b.world, id) == {}
    requires Occupants(rejoined, id) != {}
    ensures var armed := HandleChannelLeave(b, id);
      var back := armed.(world := rejoined);
      && b.nextTimer in back.timers
      && id in FireTimer(back, b.nextTimer, deleteOk).tempChannels
  {
    var armed := HandleChannelLeave(b, id);
    assert b.nextTimer in TimersFor(armed, id);
  }

  /** The replies of `/delete-my-channel`. */
  datatype DeleteReply = NoChannelToDelete | ChannelNoLongerExists | ChannelDeleted

  /**
   * `handleDeleteMyChannelCommand`: no creator entry, no deletion; an entry
   * for a channel missing from the guild cache is dropped; otherwise the
   * channel goes through `deleteTempChannel`, and the member is told it was
   * deleted whether or not the platform delete went through.
   */
  function HandleDeleteMyChannel(b: Bot, user: Id, deleteOk: bool): (r: (DeleteReply, Bot))
    ensures user !in b.channelCreators ==> r == (NoChannelToDelete, b)
    ensures user in b.channelCreators && b.channelCreators[user] !in b.world.channels ==>
      r == (ChannelNoLongerExists, b.(channelCreators := b.channelCreators - {user}))
    ensures user in b.channelCreators && b.channelCreators[user] in b.world.channels ==>
      r == (ChannelDeleted, DeleteTempChannel(b, b.channelCreators[user], deleteOk))
    ensures Valid(b) ==> Valid(r.1)
  {
    if user !in b.channelCreators then (NoChannelToDelete, b)
    else
      var id := b.channelCreators[user];
      if id !in b.world.channels then (ChannelNoLongerExists, b.(channelCreators := b.channelCreators - {user}))
      else (ChannelDeleted, DeleteTempChannel(b, id, deleteOk))
  }

  /** With the maps consistent, a successful `/delete-my-channel` removes the member's channel and entry. */
  lemma DeleteMyChannelRemovesOwn(b: Bot, user: Id, deleteOk: bool)
    requires Valid(b) && user in b.channelCreators && b.channelCreators[user] in b.world.channels
    ensures var r := HandleDeleteMyChannel(b, user, deleteOk).1;
      && b.channelCreators[user] !in r.tempChannels
      && user !in r.channelCreators
      && (deleteOk ==> b.channelCreators[user] !in r.world.channels)
  {
  }

  /** Whether the voice channel `ch` is the trigger channel, by name. */
  predicate IsTrigger(w: World, ch: Id) {
    ch in w.channels && w.channels[ch].name == CreateChannelName
  }

  /**
   * `oldState.channel` and `newState.channel`: the voice state's channel id
   * looked up in the channel cache, so an id the cache does not hold (a
   * channel already deleted, say) reads as no channel.
   */
  function StateChannel(w: World, ch: Option<Id>): (r: Option<Id>)
    ensures r.Some? <==> ch.Some? && ch.value in w.channels
    ensures r.Some? ==> r == ch
  {
    if ch.Some? && ch.value in w.channels then ch else None
  }

  /**
   * The `voiceStateUpdate` listener, on the update's old and new channel ids:
   * a join into the trigger channel creates a channel, a leave runs
   * `handleChannelLeave` on the old channel, and a switch between two
   * channels does both, creation first.  An update that keeps the channel
   * does nothing, and a channel missing from the cache counts as none.
   */
  function VoiceStateUpdate(b: Bot, oldCh: Option<Id>, newCh: Option<Id>, member: Member, freshId: Id, now: int, createOk: bool, moveOk: bool): (r: Bot)
    requires freshId !in b.world.channels && freshId !in b.tempChannels
    ensures var o := StateChannel(b.world, oldCh); var n := StateChannel(b.world, newCh);
      && (o.None? && n.None? ==> r == b)
      && (o.Some? && n.Some? && o.value == n.value ==> r == b)
      && (o.None? && n.Some? ==>
            r == if IsTrigger(b.world, n.value) then CreateTempChannel(b, member, freshId, now, createOk, moveOk) else b)
      && (o.Some? && n.None? ==> r == HandleChannelLeave(b, o.value))
      && (o.Some? && n.Some? && o.value != n.value ==>
            r == HandleChannelLeave(if IsTrigger(b.world, n.value) then CreateTempChannel(b, member, freshId, now, createOk, moveOk) else b, o.value))
    ensures Valid(b) ==> Valid(r)
  {
    match (StateChannel(b.world, oldCh), StateChannel(b.world, newCh))
    case (None, None) => b
    case (None, Some(n)) => if IsTrigger(b.world, n) then CreateTempChannel(b, member, freshId, now, createOk, moveOk) else b
    case (Some(o), None) => HandleChannelLeave(b, o)
    case (Some(o), Some(n)) =>
      if o == n then b
      else
        var b1 := if IsTrigger(b.world, n) then CreateTempChannel(b, member, freshId, now, createOk, moveOk) else b;
        HandleChannelLeave(b1, o)
  }

  /**
   * Leaving a channel that is no longer cached for one that is (the trigger,
   * say) is a join, not a switch: no leave is handled for the old channel.
   */
  lemma UncachedOldChannelIsJoin(b: Bot, o: Id, n: Id, member: Member, freshId: Id, now: int, createOk: bool, moveOk: bool)
    requires freshId !in b.world.channels && freshId !in b.tempChannels
    requires o !in b.world.channels && n in b.world.channels
    ensures VoiceStateUpdate(b, Some(o), Some(n), member, freshId, now, createOk, moveOk) ==
      if IsTrigger(b.world, n) then CreateTempChannel(b, member, freshId, now, createOk, moveOk) else b
  {
  }

  /** The member's line of `/temp-channel-info`. */
  datatype YourChannel = Yours(name: string, members: nat) | NoLine | NoChannels

  /** The figures `/temp-channel-info` reports. */
  datatype Info = Info(active: nat, timeoutSeconds: nat, maxPerUser: nat, yours: YourChannel)

  /**
   * `handleInfoCommand`: the number of recorded channels, the timeout in
   * seconds and the cap, then the member's channel; a creator entry whose
   * channel is not cached prints neither the channel nor the "none" line.
   */
  function InfoFor(b: Bot, user: Id): (r: Info)
    ensures r.active == |b.tempChannels| && r.timeoutSeconds == 300 && r.maxPerUser == MaxTempChannelsPerUser
    ensures r.yours.NoChannels? <==> user !in b.channelCreators
    ensures r.yours.Yours? <==> user in b.channelCreators && b.channelCreators[user] in b.world.channels
    ensures r.yours.Yours? ==> r.yours.members == |Occupants(b.world, b.channelCreators[user])|
  {
    var yours :=
      if user !in b.channelCreators then NoChannels
      else if b.channelCreators[user] in b.world.channels then
        var ch := b.channelCreators[user];
        Yours(b.world.channels[ch].name, |Occupants(b.world, ch)|)
      else NoLine;
    Info(|b.tempChannels|, ChannelTimeout / 1000, MaxTempChannelsPerUser, yours)
  }

  /** The replies of `/setup-temp-channels`. */
  datatype SetupReply = NeedManageChannels | AlreadyExists | CreatedTrigger | SetupFailed

  /**
   * `handleSetupCommand`: a member without the manage-channels permission is
   * refused; an existing channel with the trigger name is reported; otherwise
   * the trigger channel is created with speaking denied to everyone.
   */
  function SetupCommand(w: World, canManage: bool, freshId: Id, createOk: bool): (r: (SetupReply, World))
    requires freshId !in w.channels
    ensures r.0 == CreatedTrigger <==> canManage && !(exists ch :: ch in w.channels && w.channels[ch].name == CreateChannelName) && createOk
    ensures r.0 == CreatedTrigger ==> r.1 == w.(channels := w.channels[freshId := Channel(CreateChannelName, 0, map[Everyone := map[Speak := false]])])
    ensures r.0 != CreatedTrigger ==> r.1 == w
    ensures r.0 == CreatedTrigger ==> IsTrigger(r.1, freshId)
  {
    if !canManage then (NeedManageChannels, w)
    else if exists ch :: ch in w.channels && w.channels[ch].name == CreateChannelName then (AlreadyExists, w)
    else if !createOk then (SetupFailed, w)
    else (CreatedTrigger, w.(channels := w.channels[freshId := Channel(CreateChannelName, 0, map[Everyone := map[Speak := false]])]))
  }
}
