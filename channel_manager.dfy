/**
 * The VoiceRoomGen channel manager as the bot runs it: every operation
 * updates the client's maps and the platform in the order the source
 * does, and is proved to end in the state `ManagerSpec` describes.  The
 * outcome of each platform call (`true`: it resolved) is a parameter.
 */
module ChannelManager {
  import opened Platform
  import opened BotConfig
  import opened VoiceRooms
  import Spec = ManagerSpec

  method CreateTempChannel(cfg: Config, client: Client, member: Member, id: Id, now: int, categoryOk: bool, createOk: bool)
    returns (created: Option<Id>)
    requires Spec.Fresh(client.Snapshot(), id)
    modifies client
    ensures (created, client.Snapshot()) == Spec.CreateTempChannel(cfg, old(client.Snapshot()), member, id, now, categoryOk, createOk)
  {
    if !client.world.hasCategory {
      if !categoryOk {
        return None;
      }
      client.world := client.world.(hasCategory := true);
    }
    if !createOk {
      return None;
    }
    client.world := client.world.(channels := client.world.channels[id := Spec.NewChannel(cfg, member)]);
    client.tempChannels := client.tempChannels[id := TempChannelData(member.id, now, client.world.guildId)];
    client.channelOwners := client.channelOwners[id := member.id];
    client.channelSettings := client.channelSettings[id := Spec.CreatedSettings(cfg)];
    return Some(id);
  }

  method DeleteTempChannel(client: Client, id: Id, fetchOk: bool, deleteOk: bool)
    modifies client
    ensures client.Snapshot() == Spec.DeleteTempChannel(old(client.Snapshot()), id, fetchOk, deleteOk)
  {
    if id !in client.world.channels || !fetchOk {
      return;  // the fetch rejects; the error is swallowed
    }
    if !deleteOk {
      return;
    }
    client.world := DeleteChannel(client.world, id);
    client.tempChannels := client.tempChannels - {id};
    client.channelOwners := client.channelOwners - {id};
    client.channelSettings := client.channelSettings - {id};
  }

  /** Lock, unlock, hide, unhide: edit one @everyone flag, then write one setting. */
  method EditEveryone(client: Client, id: Id, f: Perm, allow: bool, update: Settings -> Settings, ok: bool)
    requires id in client.world.channels
    modifies client
    ensures client.Snapshot() == Spec.EditEveryone(old(client.Snapshot()), id, f, allow, update(SettingsOf(old(client.Snapshot()), id)), ok)
  {
    if !ok {
      return;
    }
    client.world := EditOverwrite(client.world, id, Everyone, map[f := if allow then Allow else Deny]);
    var settings := if id in client.channelSettings then client.channelSettings[id] else NoSettings;
    client.channelSettings := client.channelSettings[id := update(settings)];
  }

  method LockChannel(client: Client, id: Id, ok: bool)
    requires id in client.world.channels
    modifies client
    ensures client.Snapshot() == Spec.LockChannel(old(client.Snapshot()), id, ok)
  {
    EditEveryone(client, id, Connect, false, (st: Settings) => st.(locked := Some(true)), ok);
  }

  method UnlockChannel(client: Client, id: Id, ok: bool)
    requires id in client.world.channels
    modifies client
    ensures client.Snapshot() == Spec.UnlockChannel(old(client.Snapshot()), id, ok)
  {
    EditEveryone(client, id, Connect, true, (st: Settings) => st.(locked := Some(false)), ok);
  }

  method HideChannel(client: Client, id: Id, ok: bool)
    requires id in client.world.channels
    modifies client
    ensures client.Snapshot() == Spec.HideChannel(old(client.Snapshot()), id, ok)
  {
    EditEveryone(client, id, ViewChannel, false, (st: Settings) => st.(hidden := Some(true)), ok);
  }

  method UnhideChannel(client: Client, id: Id, ok: bool)
    requires id in client.world.channels
    modifies client
    ensures client.Snapshot() == Spec.UnhideChannel(old(client.Snapshot()), id, ok)
  {
    EditEveryone(client, id, ViewChannel, true, (st: Settings) => st.(hidden := Some(false)), ok);
  }

  method RenameChannel(client: Client, id: Id, name: string, ok: bool)
    requires id in client.world.channels
    modifies client
    ensures client.Snapshot() == Spec.RenameChannel(old(client.Snapshot()), id, name, ok)
  {
    if ok {
      client.world := SetName(client.world, id, name);
    }
  }

  method SetUserLimit(client: Client, id: Id, limit: int, ok: bool)
    requires id in client.world.channels
    modifies client
    ensures client.Snapshot() == Spec.SetUserLimit(old(client.Snapshot()), id, limit, ok)
  {
    if !ok {
      return;
    }
    client.world := SetChannelLimit(client.world, id, limit);
    var settings := if id in client.channelSettings then client.channelSettings[id] else NoSettings;
    client.channelSettings := client.channelSettings[id := settings.(userLimit := Some(limit))];
  }

  method ClaimChannel(cfg: Config, client: Client, id: Id, member: Member, ok: bool) returns (r: Outcome<bool>)
    requires id in client.world.channels
    modifies client
    ensures (r, client.Snapshot()) == Spec.ClaimChannel(cfg, old(client.Snapshot()), id, member, ok)
  {
    var ownerPresent := id in client.channelOwners && client.channelOwners[id] in Occupants(client.world, id);
    if ownerPresent || !cfg.allowClaim {
      return Returned(false);
    }
    client.channelOwners := client.channelOwners[id := member.id];
    if !ok {
      return Threw;
    }
    client.world := EditOverwrite(client.world, id, User(member.id), Spec.OwnerPatch);
    return Returned(true);
  }

  method TransferChannel(cfg: Config, client: Client, id: Id, newOwner: Member, deleteOk: bool, editOk: bool) returns (r: Outcome<bool>)
    requires id in client.world.channels
    modifies client
    ensures (r, client.Snapshot()) == Spec.TransferChannel(cfg, old(client.Snapshot()), id, newOwner, deleteOk, editOk)
  {
    if !cfg.allowTransfer {
      return Returned(false);
    }
    if id in client.channelOwners && client.channelOwners[id] != "" {
      if !deleteOk {
        return Threw;
      }
      client.world := DeleteOverwrite(client.world, id, User(client.channelOwners[id]));
    }
    client.channelOwners := client.channelOwners[id := newOwner.id];
    if !editOk {
      return Threw;
    }
    client.world := EditOverwrite(client.world, id, User(newOwner.id), Spec.OwnerPatch);
    return Returned(true);
  }

  /**
   * `disconnectAll`, `muteAllMembers` and `unmuteAllMembers`: one call per
   * member connected when the loop starts; a failing call is skipped.
   */
  method SweepMembers(client: Client, id: Id, sweep: Spec.Sweep, ok: Id -> bool) returns (count: nat)
    modifies client
    ensures (count, client.Snapshot()) == Spec.SweepMembers(old(client.Snapshot()), id, sweep, ok)
  {
    var members := Occupants(client.world, id);
    var todo := members;
    ghost var done: set<Id> := {};
    ghost var w0 := client.world;
    count := 0;
    Spec.SweepWorldNone(w0, sweep);
    while todo != {}
      invariant todo <= members
      invariant done == Succeeded(members - todo, ok)
      invariant count == |done|
      invariant client.world == Spec.SweepWorld(w0, sweep, done)
      invariant client.Snapshot() == old(client.Snapshot()).(world := client.world)
      decreases |todo|
    {
      var m :| m in todo;
      Spec.SucceededStep(members, todo, m, ok);
      if ok(m) {
        Spec.SweepWorldStep(w0, sweep, done, m);
        client.world := Spec.SweepOne(client.world, sweep, m);
        done := done + {m};
        count := count + 1;
      }
      todo := todo - {m};
    }
    assert members - todo == members;
  }

  /** `muteMember` (`mute` true) and `unmuteMember` (`mute` false). */
  method SetMemberMute(client: Client, id: Id, target: Id, mute: bool, ok: bool) returns (r: bool)
    modifies client
    ensures (r, client.Snapshot()) == Spec.SetMemberMute(old(client.Snapshot()), id, target, mute, ok)
  {
    if !InChannel(client.world, target, id) || !ok {
      return false;
    }
    client.world := SetMute(client.world, target, mute);
    return true;
  }

  /** `permitMember`, `permitRole`, `rejectRole`: one overwrite edit. */
  method EditFor(client: Client, id: Id, who: Subject, p: Patch, ok: bool) returns (r: bool)
    requires id in client.world.channels
    modifies client
    ensures (r, client.Snapshot()) == Spec.EditFor(old(client.Snapshot()), id, who, p, ok)
  {
    if !ok {
      return false;
    }
    client.world := EditOverwrite(client.world, id, who, p);
    return true;
  }

  method RejectMember(client: Client, id: Id, target: Id, editOk: bool, disconnectOk: bool) returns (r: bool)
    requires id in client.world.channels
    modifies client
    ensures (r, client.Snapshot()) == Spec.RejectMember(old(client.Snapshot()), id, target, editOk, disconnectOk)
  {
    if !editOk {
      return false;
    }
    client.world := EditOverwrite(client.world, id, User(target), Spec.RejectPatch);
    if InChannel(client.world, target, id) {
      if !disconnectOk {
        return false;
      }
      client.world := Disconnect(client.world, target);
    }
    return true;
  }

  method ToggleChannelActivity(client: Client, id: Id) returns (r: bool)
    modifies client
    ensures (r, client.Snapshot()) == Spec.ToggleChannelActivity(old(client.Snapshot()), id)
  {
    var settings := if id in client.channelSettings then client.channelSettings[id] else NoSettings;
    settings := settings.(activityDetection := Some(!Truthy(settings.activityDetection)));
    client.channelSettings := client.channelSettings[id := settings];
    return settings.activityDetection.value;
  }

  method ToggleUserActivity(client: Client, id: Id, ok: bool) returns (r: bool)
    requires id in client.world.channels
    modifies client
    ensures (r, client.Snapshot()) == Spec.ToggleUserActivity(old(client.Snapshot()), id, ok)
  {
    var settings := if id in client.channelSettings then client.channelSettings[id] else NoSettings;
    var v := !Truthy(settings.userActivity);
    client.channelSettings := client.channelSettings[id := settings.(userActivity := Some(v))];
    if !ok {
      return false;
    }
    client.world := EditOverwrite(client.world, id, Everyone, map[UseVAD := if v then Allow else Deny]);
    return v;
  }

  method ToggleCameraPermissions(client: Client, id: Id, ok: bool) returns (r: bool)
    requires id in client.world.channels
    modifies client
    ensures (r, client.Snapshot()) == Spec.ToggleCameraPermissions(old(client.Snapshot()), id, ok)
  {
    var settings := if id in client.channelSettings then client.channelSettings[id] else NoSettings;
    var v := !Truthy(settings.cameraAllowed);
    client.channelSettings := client.channelSettings[id := settings.(cameraAllowed := Some(v))];
    if !ok {
      return false;
    }
    client.world := EditOverwrite(client.world, id, Everyone, map[Stream := if v then Allow else Deny]);
    return v;
  }
}
