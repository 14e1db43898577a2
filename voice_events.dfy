/**
 * The VoiceRoomGen voice-state handler.  An update is classified into a
 * join and a leave; joining the trigger channel creates a temporary channel
 * and moves the member into it; leaving a registered temporary channel
 * schedules an emptiness check, with no debounce: every leave adds its own
 * check to the queue of pending timers.  A check that fires re-reads the
 * channel and deletes it only when nobody is connected.
 *
 * All timers share the same delay, so they fire in the order they were
 * scheduled: the queue `pending` is fired from its head.
 */
module VoiceEvents {
  import opened Platform
  import opened BotConfig
  import opened VoiceRooms
  import Spec = ManagerSpec
  import Manager = ChannelManager

  /** What `execute` runs for an update from `oldId` to `newId`. */
  datatype Handled = Handled(join: bool, leave: bool)

  /** The two tests of `execute`: a join needs a new channel, a leave an old one, and the two must differ. */
  function Classify(oldId: Option<Id>, newId: Option<Id>): (h: Handled)
    ensures h.join <==> newId.Some? && (oldId.None? || oldId.value != newId.value)
    ensures h.leave <==> oldId.Some? && (newId.None? || oldId.value != newId.value)
  {
    Handled(newId.Some? && (oldId.None? || oldId != newId), oldId.Some? && (newId.None? || oldId != newId))
  }

  /**
   * Every kind of update runs what its name says: a join only the join
   * handler, a leave only the leave handler, a switch both, and an update
   * that stays in one channel (mute, deafen, stream) neither.
   */
  lemma ClassifyCases(oldId: Option<Id>, newId: Option<Id>)
    ensures oldId.None? && newId.Some? ==> Classify(oldId, newId) == Handled(true, false)
    ensures oldId.Some? && newId.None? ==> Classify(oldId, newId) == Handled(false, true)
    ensures oldId.Some? && newId.Some? && oldId != newId ==> Classify(oldId, newId) == Handled(true, true)
    ensures oldId == newId ==> Classify(oldId, newId) == Handled(false, false)
  {
  }

  /**
   * `handleUserJoin`.  Reading the joined channel's name throws when the
   * channel is not cached; that error reaches the catch of `execute`, so
   * `false` (did not complete) is returned.  Otherwise, when the name is the
   * trigger name, the temporary channel is created (`calls.first`: the
   * category creation, `calls.second`: the channel creation) and the member
   * is moved into it (`calls.third`); a failure there is caught and logged.
   */
  function HandleUserJoin(cfg: Config, s: State, channelId: Id, member: Member, freshId: Id, now: int, calls: Calls): (r: (bool, State))
    requires Spec.Fresh(s, freshId)
    ensures !r.0 <==> channelId !in s.world.channels
    ensures (channelId !in s.world.channels || s.world.channels[channelId].name != cfg.triggerChannelName) ==> r.1 == s
    ensures r.1.tempChannels != s.tempChannels ==>
      && channelId in s.world.channels && s.world.channels[channelId].name == cfg.triggerChannelName
      && r.1.tempChannels == s.tempChannels[freshId := TempChannelData(member.id, now, s.world.guildId)]
      && r.1.channelOwners == s.channelOwners[freshId := member.id]
    ensures r.1.world.voice != s.world.voice ==> freshId in r.1.tempChannels && calls.third && r.1.world.voice == s.world.voice[member.id := freshId]
    ensures r.1.pending == s.pending
    ensures Valid(s) ==> Valid(r.1)
  {
    if channelId !in s.world.channels then (false, s)
    else if s.world.channels[channelId].name != cfg.triggerChannelName then (true, s)
    else
      var c := Spec.CreateTempChannel(cfg, s, member, freshId, now, calls.first, calls.second);
      CreateKeepsValid(cfg, s, member, freshId, now, calls);
      if c.0.Some? && calls.third then (true, c.1.(world := MoveMember(c.1.world, member.id, freshId)))
      else (true, c.1)
  }

  /** Creating a temporary channel records it in all three maps or in none. */
  lemma CreateKeepsValid(cfg: Config, s: State, member: Member, freshId: Id, now: int, calls: Calls)
    requires Spec.Fresh(s, freshId)
    ensures Valid(s) ==> Valid(Spec.CreateTempChannel(cfg, s, member, freshId, now, calls.first, calls.second).1)
  {
  }

  /**
   * `handleUserLeave`: a channel that is cached and registered gets one more
   * emptiness check at the back of the queue, however many members are
   * still connected; nothing else changes.
   */
  function HandleUserLeave(s: State, channelId: Id): (r: State)
    ensures channelId in s.world.channels && channelId in s.tempChannels ==> r == s.(pending := s.pending + [channelId])
    ensures !(channelId in s.world.channels && channelId in s.tempChannels) ==> r == s
    ensures Valid(s) ==> Valid(r)
  {
    if channelId in s.world.channels && channelId in s.tempChannels then s.(pending := s.pending + [channelId]) else s
  }

  /**
   * `execute`: the join handler runs first, then the leave handler, inside
   * one try; when the join handler throws, the leave is not handled.
   */
  function Execute(cfg: Config, s: State, oldId: Option<Id>, newId: Option<Id>, member: Member, freshId: Id, now: int, calls: Calls): (r: State)
    requires Spec.Fresh(s, freshId)
    ensures Classify(oldId, newId).leave && !Classify(oldId, newId).join ==> r == HandleUserLeave(s, oldId.value)
    ensures !Classify(oldId, newId).leave && Classify(oldId, newId).join ==> r == HandleUserJoin(cfg, s, newId.value, member, freshId, now, calls).1
    ensures Classify(oldId, newId).leave && Classify(oldId, newId).join && newId.value in s.world.channels ==>
      r == HandleUserLeave(HandleUserJoin(cfg, s, newId.value, member, freshId, now, calls).1, oldId.value)
    ensures oldId == newId ==> r == s
    ensures Classify(oldId, newId).join && newId.value !in s.world.channels ==> r == s
    ensures Valid(s) ==> Valid(r)
  {
    var h := Classify(oldId, newId);
    var j := if h.join then HandleUserJoin(cfg, s, newId.value, member, freshId, now, calls) else (true, s);
    if h.leave && j.0 then HandleUserLeave(j.1, oldId.value) else j.1
  }

  /**
   * A timer fires: the check at the head of the queue fetches the channel
   * (`calls.first`; it fails once the channel is gone) and, when no member
   * is connected, calls `deleteTempChannel` (`calls.second`: its own fetch,
   * `calls.third`: the delete).  Errors are swallowed.  With no timer
   * pending nothing fires.
   */
  function FireCheck(s: State, calls: Calls): (r: State)
    ensures s.pending == [] ==> r == s
    ensures s.pending != [] ==> r.pending == s.pending[1..]
    ensures s.pending != [] && !(s.pending[0] in s.world.channels && calls.first && Occupants(s.world, s.pending[0]) == {}) ==>
      r == s.(pending := s.pending[1..])
    ensures s.pending != [] && s.pending[0] in s.world.channels && calls.first && Occupants(s.world, s.pending[0]) == {} ==>
      r == Spec.DeleteTempChannel(s, s.pending[0], calls.second, calls.third).(pending := s.pending[1..])
    ensures Valid(s) ==> Valid(r)
  {
    if s.pending == [] then s
    else
      var id := s.pending[0];
      var s1 := s.(pending := s.pending[1..]);
      if id in s.world.channels && calls.first && Occupants(s.world, id) == {} then
        Spec.DeleteTempChannel(s1, id, calls.second, calls.third)
      else s1
  }

  /** A fired check never deletes a channel someone is connected to: a re-join before it fires saves the channel. */
  lemma FireSparesOccupied(s: State, calls: Calls)
    requires s.pending != [] && Occupants(s.world, s.pending[0]) != {}
    ensures var r := FireCheck(s, calls);
      SameRegistry(s.(pending := s.pending[1..]), r) && r.world == s.world
  {
  }

  /** A check whose fetch fails (the channel is already gone) changes no registry entry. */
  lemma FireFetchFailureKeepsRegistry(s: State, calls: Calls)
    requires s.pending != [] && (s.pending[0] !in s.world.channels || !calls.first)
    ensures var r := FireCheck(s, calls);
      SameRegistry(s.(pending := s.pending[1..]), r) && r.world == s.world
  {
  }

  /** How many checks for `id` the queue holds. */
  function ChecksFor(q: seq<Id>, id: Id): (n: nat)
    ensures n <= |q|
    ensures n == 0 <==> id !in q
  {
    if q == [] then 0 else ChecksFor(q[..|q| - 1], id) + (if q[|q| - 1] == id then 1 else 0)
  }

  lemma ChecksForAppend(q: seq<Id>, id: Id, x: Id)
    ensures ChecksFor(q + [x], id) == ChecksFor(q, id) + (if x == id then 1 else 0)
  {
    assert (q + [x])[..|q|] == q;
  }

  /**
   * No debounce: every leave of a registered channel adds one more check
   * for it, whatever is already pending, and leaves the other channels'
   * checks as they were.
   */
  lemma LeaveAddsCheck(s: State, channelId: Id, other: Id)
    requires channelId in s.world.channels && channelId in s.tempChannels
    ensures ChecksFor(HandleUserLeave(s, channelId).pending, channelId) == ChecksFor(s.pending, channelId) + 1
    ensures other != channelId ==> ChecksFor(HandleUserLeave(s, channelId).pending, other) == ChecksFor(s.pending, other)
  {
    ChecksForAppend(s.pending, channelId, channelId);
    ChecksForAppend(s.pending, other, channelId);
  }

  /** Two leaves of the same channel before the first check fires schedule two checks. */
  lemma TwoLeavesTwoChecks(s: State, channelId: Id)
    requires channelId in s.world.channels && channelId in s.tempChannels
    ensures HandleUserLeave(HandleUserLeave(s, channelId), channelId).pending == s.pending + [channelId, channelId]
  {
  }

  /**
   * The join of the trigger channel: the member ends up in a fresh,
   * registered channel they own, with the owner flags, unless a platform
   * call failed.
   */
  lemma TriggerJoinCreatesOwnedChannel(cfg: Config, s: State, channelId: Id, member: Member, freshId: Id, now: int, calls: Calls)
    requires Spec.Fresh(s, freshId) && channelId in s.world.channels && s.world.channels[channelId].name == cfg.triggerChannelName
    requires calls.second && (s.world.hasCategory || calls.first)
    ensures var r := HandleUserJoin(cfg, s, channelId, member, freshId, now, calls).1;
      && freshId in r.tempChannels && r.channelOwners[freshId] == member.id
      && Spec.HasChannelPermission(r, member, freshId)
      && Spec.HoldsOwnerFlags(r.world, freshId, member.id)
      && (calls.third ==> InChannel(r.world, member.id, freshId))
  {
  }

  /** `execute` on the client, calling the handlers as the source does. */
  method ExecuteOn(cfg: Config, client: Client, oldId: Option<Id>, newId: Option<Id>, member: Member, freshId: Id, now: int, calls: Calls)
    requires Spec.Fresh(client.Snapshot(), freshId)
    modifies client
    ensures client.Snapshot() == Execute(cfg, old(client.Snapshot()), oldId, newId, member, freshId, now, calls)
  {
    var h := Classify(oldId, newId);
    var completed := true;
    if h.join {
      completed := HandleUserJoinOn(cfg, client, newId.value, member, freshId, now, calls);
    }
    if h.leave && completed {
      HandleUserLeaveOn(client, oldId.value);
    }
  }

  method HandleUserJoinOn(cfg: Config, client: Client, channelId: Id, member: Member, freshId: Id, now: int, calls: Calls) returns (completed: bool)
    requires Spec.Fresh(client.Snapshot(), freshId)
    modifies client
    ensures (completed, client.Snapshot()) == HandleUserJoin(cfg, old(client.Snapshot()), channelId, member, freshId, now, calls)
  {
    if channelId !in client.world.channels {
      return false;
    }
    if client.world.channels[channelId].name != cfg.triggerChannelName {
      return true;
    }
    var created := Manager.CreateTempChannel(cfg, client, member, freshId, now, calls.first, calls.second);
    if created.Some? && calls.third {
      client.world := MoveMember(client.world, member.id, created.value);
    }
    return true;
  }

  method HandleUserLeaveOn(client: Client, channelId: Id)
    modifies client
    ensures client.Snapshot() == HandleUserLeave(old(client.Snapshot()), channelId)
  {
    if channelId in client.world.channels && channelId in client.tempChannels {
      client.pending := client.pending + [channelId];
    }
  }

  /** The timer at the head of the queue fires. */
  method FireCheckOn(client: Client, calls: Calls)
    modifies client
    ensures client.Snapshot() == FireCheck(old(client.Snapshot()), calls)
  {
    if client.pending == [] {
      return;
    }
    var id := client.pending[0];
    client.pending := client.pending[1..];
    if id in client.world.channels && calls.first && Occupants(client.world, id) == {} {
      Manager.DeleteTempChannel(client, id, calls.second, calls.third);
    }
  }
}
