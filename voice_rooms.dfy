/**
 * The state the VoiceRoomGen bot keeps on its client object: the registry
 * of temporary channels, the owner of each, and each channel's settings
 * object, next to the platform state the client sees and the emptiness
 * checks its timers still have to run.
 */
module VoiceRooms {
  import opened Platform

  /** The record `tempChannels` keeps per temporary channel. */
  datatype TempChannelData = TempChannelData(ownerId: Id, createdAt: int, guildId: Id)

  /**
   * A channel's settings object.  A property that was never assigned is
   * `None` (undefined in the source); the object is mutated in place and
   * written back, so only the assigned property changes.
   */
  datatype Settings = Settings(
    locked: Option<bool>,
    hidden: Option<bool>,
    userLimit: Option<int>,
    activityDetection: Option<bool>,
    userActivity: Option<bool>,
    cameraAllowed: Option<bool>)

  /** `{}`: the settings of a channel that has no entry. */
  const NoSettings := Settings(None, None, None, None, None, None)

  /** JavaScript truthiness of an optional boolean: undefined counts as false. */
  predicate Truthy(b: Option<bool>) {
    b == Some(true)
  }

  /** A snapshot of the client: the three maps, the platform, the pending timers. */
  datatype State = State(
    tempChannels: map<Id, TempChannelData>,
    channelOwners: map<Id, Id>,
    channelSettings: map<Id, Settings>,
    world: World,
    pending: seq<Id>)  // channels whose emptiness check is scheduled, oldest first

  /** `client.channelSettings.get(id) || {}`. */
  function SettingsOf(s: State, id: Id): Settings {
    if id in s.channelSettings then s.channelSettings[id] else NoSettings
  }

  /** The owner is recorded, cached and connected to the channel (`channel.members.get(ownerId)`). */
  predicate OwnerPresent(s: State, id: Id) {
    id in s.channelOwners && s.channelOwners[id] in Occupants(s.world, id)
  }

  /** Every registered temporary channel has an owner and a settings entry. */
  ghost predicate Valid(s: State) {
    s.tempChannels.Keys <= s.channelOwners.Keys && s.tempChannels.Keys <= s.channelSettings.Keys
  }

  /** The maps and the timers are the same in both states; only the platform may differ. */
  ghost predicate SameRegistry(s: State, r: State) {
    r.tempChannels == s.tempChannels && r.channelOwners == s.channelOwners
    && r.channelSettings == s.channelSettings && r.pending == s.pending
  }

  /** The client object with the three maps the bot attaches to it at start-up. */
  class Client {
    var tempChannels: map<Id, TempChannelData>
    var channelOwners: map<Id, Id>
    var channelSettings: map<Id, Settings>
    var world: World
    var pending: seq<Id>

    function Snapshot(): State
      reads this
    {
      State(tempChannels, channelOwners, channelSettings, world, pending)
    }

    /** Start-up: empty maps, no timers, the guild as the platform reports it. */
    constructor (w: World)
      ensures Snapshot() == State(map[], map[], map[], w, [])
      ensures Valid(Snapshot())
    {
      tempChannels := map[];
      channelOwners := map[];
      channelSettings := map[];
      world := w;
      pending := [];
    }
  }
}
