/**
 * The root bot's module-level state as an object: the two maps it mutates,
 * the platform it acts on and its live timers.  Each handler is proved to
 * leave the object in the state the matching `RootSpec` function describes.
 */
module RootBot {
  import opened Platform
  import opened RootSpec

  class TempChannelBot {
    var tempChannels: map<Id, Record>
    var channelCreators: map<Id, Id>
    var world: World
    var timers: map<nat, Id>
    var nextTimer: nat

    function Snapshot(): Bot
      reads this
    {
      Bot(tempChannels, channelCreators, world, timers, nextTimer)
    }

    /** Start-up: both maps empty, no timers. */
    constructor (w: World)
      ensures Snapshot() == Bot(map[], map[], w, map[], 0)
      ensures Valid(Snapshot()) && Capped(Snapshot())
    {
      tempChannels := map[];
      channelCreators := map[];
      world := w;
      timers := map[];
      nextTimer := 0;
    }

    /**
     * `Array.from(tempChannels.values()).filter(data => data.creator === m).length`,
     * one record at a time.
     */
    method CountCreatedBy(m: Id) returns (n: nat)
      ensures n == |CreatedBy(tempChannels, m)|
    {
      n := 0;
      var rest := tempChannels.Keys;
      while rest != {}
        invariant rest <= tempChannels.Keys
        invariant n == |CreatedBy(tempChannels, m) - rest|
        decreases |rest|
      {
        var id :| id in rest;
        ghost var seen := CreatedBy(tempChannels, m) - rest;
        rest := rest - {id};
        if tempChannels[id].creator == m {
          assert CreatedBy(tempChannels, m) - rest == seen + {id};
          n := n + 1;
        } else {
          assert CreatedBy(tempChannels, m) - rest == seen;
        }
      }
    }

    /** `createTempChannel`. */
    method CreateTempChannel(member: Member, freshId: Id, now: int, createOk: bool, moveOk: bool)
      requires freshId !in world.channels && freshId !in tempChannels
      modifies this
      ensures Snapshot() == RootSpec.CreateTempChannel(old(Snapshot()), member, freshId, now, createOk, moveOk)
    {
      var count := CountCreatedBy(member.id);
      if count >= MaxTempChannelsPerUser || !createOk {
        return;
      }
      world := world.(channels := world.channels[freshId := NewTempChannel(member)]);
      if !moveOk {
        return;
      }
      world := MoveMember(world, member.id, freshId);
      tempChannels := tempChannels[freshId := Record(member.id, now, None)];
      channelCreators := channelCreators[member.id := freshId];
    }

    /** `handleChannelLeave`: clear the old timer, set a new one, store its handle in the record. */
    method HandleChannelLeave(id: Id)
      modifies this
      ensures Snapshot() == RootSpec.HandleChannelLeave(old(Snapshot()), id)
    {
      if id !in tempChannels || Occupants(world, id) != {} {
        return;
      }
      var data := tempChannels[id];
      if data.timeout.Some? {
        timers := timers - {data.timeout.value};
      }
      var handle := nextTimer;
      timers := timers[handle := id];
      nextTimer := nextTimer + 1;
      data := data.(timeout := Some(handle));
      tempChannels := tempChannels[id := data];
    }

    /** `deleteTempChannel`: clear the timer, drop both entries, then delete on the platform. */
    method DeleteTempChannel(id: Id, deleteOk: bool)
      modifies this
      ensures Snapshot() == RootSpec.DeleteTempChannel(old(Snapshot()), id, deleteOk)
    {
      if id !in tempChannels {
        return;
      }
      var data := tempChannels[id];
      if data.timeout.Some? {
        timers := timers - {data.timeout.value};
      }
      tempChannels := tempChannels - {id};
      channelCreators := channelCreators - {data.creator};
      if deleteOk {
        world := DeleteChannel(world, id);
      }
    }

    /** The callback of timer `h`: delete its channel if it is still empty. */
    method FireTimer(h: nat, deleteOk: bool)
      requires h in timers
      modifies this
      ensures Snapshot() == RootSpec.FireTimer(old(Snapshot()), h, deleteOk)
    {
      var id := timers[h];
      timers := timers - {h};
      if Occupants(world, id) == {} {
        DeleteTempChannel(id, deleteOk);
      }
    }

    /** `handleDeleteMyChannelCommand`. */
    method HandleDeleteMyChannel(user: Id, deleteOk: bool) returns (reply: DeleteReply)
      modifies this
      ensures (reply, Snapshot()) == RootSpec.HandleDeleteMyChannel(old(Snapshot()), user, deleteOk)
    {
      if user !in channelCreators {
        return NoChannelToDelete;
      }
      var id := channelCreators[user];
      if id !in world.channels {
        channelCreators := channelCreators - {user};
        return ChannelNoLongerExists;
      }
      DeleteTempChannel(id, deleteOk);
      reply := ChannelDeleted;
    }

    /** The `voiceStateUpdate` listener. */
    method VoiceStateUpdate(oldCh: Option<Id>, newCh: Option<Id>, member: Member, freshId: Id, now: int, createOk: bool, moveOk: bool)
      requires freshId !in world.channels && freshId !in tempChannels
      modifies this
      ensures Snapshot() == RootSpec.VoiceStateUpdate(old(Snapshot()), oldCh, newCh, member, freshId, now, createOk, moveOk)
    {
      var o := StateChannel(world, oldCh);
      var n := StateChannel(world, newCh);
      if o.None? && n.Some? && IsTrigger(world, n.value) {
        CreateTempChannel(member, freshId, now, createOk, moveOk);
      }
      if o.Some? && n.None? {
        HandleChannelLeave(o.value);
      }
      if o.Some? && n.Some? && o.value != n.value {
        if IsTrigger(world, n.value) {
          CreateTempChannel(member, freshId, now, createOk, moveOk);
        }
        HandleChannelLeave(o.value);
      }
    }
  }
}
