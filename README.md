# Temporary voice channels, modelled in Dafny

Two Discord bots that hand out temporary voice channels.

**VoiceRoomGen** works like this:

- A member who joins the trigger channel `➕ Create Channel` gets a personal voice channel called `<name>'s Channel`. It is placed in the `TEMPORARY CHANNELS` category, and the member becomes its owner.
- The client keeps three maps, keyed by channel id:
  - `tempChannels` (owner id, creation time, guild id);
  - `channelOwners` (the current owner);
  - `channelSettings` (locked, hidden, user limit, activity, camera).
- The owner, or an administrator, controls the channel in two ways:
  - with panel buttons and the modal forms they open;
  - with `.v` prefix commands (`lock`, `unlock`, `limit`, `name`, `permit`, `reject`, `transfer`, `clear`, …).
- `claim` lets anyone take over a channel whose owner has left.
- When a member leaves a temporary channel, a delayed check deletes the channel if it is still empty and drops its records.

**The root bot** (`index.js`) works like this:

- It keeps `tempChannels` (creator, creation time, pending timer) and `channelCreators` (creator → channel).
- Joining `➕ Create Temp Channel` creates `🔊 <name>'s Channel` and moves the member into it, at most three channels per creator.
- Each leave that empties a temporary channel re-arms a single five-minute timer, which deletes the channel if it is still empty.
- The slash commands `/setup-temp-channels`, `/delete-my-channel` and `/temp-channel-info` create the trigger channel, delete the caller's channel, and report counts.

## How the model is built

**State.** The platform is a value, `Platform.World`, with these parts:

- channels, each with a name, a user limit and permission overwrites per subject (`@everyone`, user, role);
- who is in which voice channel;
- the muted members;
- the member cache;
- whether the category exists.

**Platform calls.** Every platform call the source awaits appears as a boolean: did it resolve. A call that rejects inside a `try` is the failure branch. One that rejects outside a `try` is the handler's generic error reply, and the state changes made before it stay, as in the source.

**Two layers per bot.**

- Pure specification functions on a value state: `ManagerSpec`, `Interactions`, `VoiceEvents` and `PrefixCommands` for VoiceRoomGen, `RootSpec` for the root bot. Their contracts state what each operation does, and lemmas relate several operations.
- A class whose fields are the maps the source mutates: `VoiceRooms.Client` and `RootBot.TempChannelBot`. Its methods update those fields step by step in the source's order. Each method is proved to end in exactly the state the matching specification function gives.

**Timers.** Pending timers are explicit:

- In VoiceRoomGen, `pending` is a FIFO of channel ids. Every timer has the same delay, so they fire in order.
- In the root bot, timers are a map from handle to channel plus the next handle. `RootSpec.Valid` is the invariant every handler keeps: each live timer belongs to the record that stores its handle.

## Model

| member | source | states |
|---|---|---|
| BotConfig.ChannelName | VoiceRoomGen/utils/channelManager.js:31 | the name always ends in `'s Channel`; a display name without `$` is used as it is, followed by `'s Channel` |
| BotConfig.TemplateSplice | VoiceRoomGen/config.js:14 | the placeholder opens the template, so the name is the substituted display name followed by `'s Channel`, and a display name without `$` is substituted unchanged |
| BotConfig.DollarPatternsInNames | VoiceRoomGen/utils/channelManager.js:31 | the display names `$&`, `$'` and `$$` give the names `{username}'s Channel`, `'s Channel's Channel` and `$'s Channel`, because the replacement string's `$` patterns apply |
| VoiceRooms.Client.constructor | VoiceRoomGen/index.js:18-20 | the client starts with three empty maps and no pending check, which satisfies the registry invariant |
| Platform.EditOverwrite | VoiceRoomGen/utils/channelManager.js:115-117 | editing an overwrite sets exactly the patched flags of that subject on that channel (allow → true, deny → false, null → unset); every other flag, channel, member and the voice state stay the same |
| Platform.DeleteOverwrite | VoiceRoomGen/utils/channelManager.js:220 | deleting a subject's overwrite unsets all of that subject's flags on that channel and nothing else |
| Platform.DisconnectIfIn | VoiceRoomGen/utils/channelManager.js:379-381 | the member is disconnected only if they are in that channel; success means they are no longer in it |
| ManagerSpec.CreateTempChannel | VoiceRoomGen/utils/channelManager.js:9-77 | a channel id is returned iff the category exists or is created, and the channel is created; on success all three maps record the new channel, the member owns it and holds every owner flag, and it starts empty; on failure the registry is untouched |
| ManagerSpec.ChannelPermissionCases | VoiceRoomGen/utils/channelManager.js:106-109 | on a channel without a recorded owner only administrators have control; the recorded owner always has it; a non-administrator has it iff they are the recorded owner |
| ManagerSpec.NewChannelOwnerFlags | VoiceRoomGen/utils/channelManager.js:44-53 | on a freshly created channel the creator's overwrite allows all five owner flags |
| ManagerSpec.DeleteTempChannel | VoiceRoomGen/utils/channelManager.js:82-101 | when fetch and delete succeed, the channel is gone from the platform and from all three maps; when either throws, nothing changes |
| ManagerSpec.LockChannel | VoiceRoomGen/utils/channelManager.js:114-122 | on success `@everyone` is denied Connect and `locked` is set; only that flag and that setting change; if the edit throws, nothing changes |
| ManagerSpec.UnlockChannel | VoiceRoomGen/utils/channelManager.js:127-135 | on success `@everyone` is allowed Connect and `locked` is cleared; nothing else changes |
| ManagerSpec.HideChannel | VoiceRoomGen/utils/channelManager.js:140-148 | on success `@everyone` is denied ViewChannel and `hidden` is set; nothing else changes |
| ManagerSpec.UnhideChannel | VoiceRoomGen/utils/channelManager.js:153-161 | on success `@everyone` is allowed ViewChannel and `hidden` is cleared; nothing else changes |
| ManagerSpec.RenameChannel | VoiceRoomGen/utils/channelManager.js:166-168 | only the channel's name changes; settings and records are untouched |
| ManagerSpec.SetUserLimit | VoiceRoomGen/utils/channelManager.js:173-179 | on success the channel's limit and the stored `userLimit` both become the new value; if the platform call throws, nothing changes |
| ManagerSpec.ClaimChannel | VoiceRoomGen/utils/channelManager.js:184-207 | if the owner is still in the channel, or claiming is disabled, the result is false and nothing changes; otherwise the owner entry is rewritten even if the grant then throws; the result is true iff that grant succeeds, in which case the claimant holds every owner flag and no other subject's flags change |
| ManagerSpec.DropOldOwner | VoiceRoomGen/utils/channelManager.js:217-221 | a recorded non-empty owner loses their whole overwrite; every other subject's flags stay as they were |
| ManagerSpec.AfterTransfer | VoiceRoomGen/utils/channelManager.js:223-233 | the new owner is recorded and holds every owner flag; the previous owner, if different, keeps no flag; on the channel every third subject keeps exactly its flags, and no other channel, member or map changes |
| ManagerSpec.GrantAfterDrop | VoiceRoomGen/utils/channelManager.js:217-232 | granting the owner flags after the old owner's overwrite was dropped leaves the grantee with the owner flags, the old owner with none, and every other subject as before |
| ManagerSpec.GrantOwnerFlags | VoiceRoomGen/utils/channelManager.js:226-232 | after the owner-flag edit the grantee holds every one of the five owner flags |
| ManagerSpec.TransferChannel | VoiceRoomGen/utils/channelManager.js:212-236 | the result is false with no change when transfer is disabled; it is true iff the old overwrite is removed (or there was none) and the grant succeeds; on success the new owner is recorded with the owner flags, the old owner keeps none, and third subjects keep theirs; if the delete throws nothing changes; if only the grant throws, the new owner is already recorded and the old overwrite is already gone |
| ManagerSpec.SweepMembers | VoiceRoomGen/utils/channelManager.js:241-317 | the count returned is the number of occupants whose call succeeded, at most the occupant count; exactly those members are disconnected, muted or unmuted |
| ManagerSpec.SetMemberMute | VoiceRoomGen/utils/channelManager.js:322-349 | the result is true iff the target is in this channel and the call succeeds; then only the target's mute state changes, to the requested one; otherwise nothing changes |
| ManagerSpec.EditFor | VoiceRoomGen/utils/channelManager.js:354-366 | the result is the call's outcome; on success exactly that subject's overwrite is patched |
| ManagerSpec.PermitMember | VoiceRoomGen/utils/channelManager.js:354-366 | on success the member is allowed Connect, Speak and ViewChannel, and no other flag or record changes |
| ManagerSpec.RejectMember | VoiceRoomGen/utils/channelManager.js:371-388 | the result is true iff the edit succeeds and the target is not in the channel or is disconnected; after the edit the member is denied Connect and Speak; on success they are no longer in the channel and only their voice entry changed |
| ManagerSpec.PermitRole | VoiceRoomGen/utils/channelManager.js:450-462 | on success the role is allowed Connect, Speak and ViewChannel, and nothing else changes |
| ManagerSpec.RejectRole | VoiceRoomGen/utils/channelManager.js:467-478 | on success the role is denied Connect and Speak, and nothing else changes |
| ManagerSpec.ToggleChannelActivity | VoiceRoomGen/utils/channelManager.js:393-403 | the result is the negation of the stored flag, and that negation is stored; other channels' settings are untouched |
| ManagerSpec.ToggleUserActivity | VoiceRoomGen/utils/channelManager.js:408-424 | the stored flag is always flipped; on success `@everyone`'s UseVAD equals the new flag and is returned; if the edit throws, false is returned and the platform is unchanged |
| ManagerSpec.ToggleCameraPermissions | VoiceRoomGen/utils/channelManager.js:429-445 | the same as above for `cameraAllowed` and Stream |
| ManagerSpec.CreateThenDeleteRestores | VoiceRoomGen/utils/channelManager.js:58-93 | creating a channel and then deleting it returns exactly the state before |
| ManagerSpec.DeleteIsFinal | VoiceRoomGen/utils/channelManager.js:82-101 | after a successful delete, a second delete changes nothing and the record is gone |
| ManagerSpec.VanishedChannelKeepsRecord | VoiceRoomGen/utils/channelManager.js:95-100 | when the platform channel is already gone, delete keeps the stale record |
| ManagerSpec.TransferMovesControl | VoiceRoomGen/utils/channelManager.js:212-236 | after a successful transfer the new owner passes the control check and the old, non-admin owner fails it |
| ManagerSpec.ClaimKeepsPreviousOwnerFlags | VoiceRoomGen/utils/channelManager.js:184-207 | a successful claim leaves every flag of the previous owner's overwrite as it was |
| ManagerSpec.LockThenUnlock | VoiceRoomGen/utils/channelManager.js:114-135 | lock followed by unlock leaves Connect allowed for `@everyone`, records `locked` false, and changes no other flag |
| ManagerSpec.ToggleChannelActivityTwice | VoiceRoomGen/utils/channelManager.js:393-403 | two toggles return opposite values, and the second returns the original setting |
| ManagerSpec.ToggleUserActivityTwice | VoiceRoomGen/utils/channelManager.js:408-424 | two successful toggles restore both the setting and the UseVAD flag |
| ManagerSpec.ToggleUserActivityFailureDesyncs | VoiceRoomGen/utils/channelManager.js:410-417 | a toggle whose edit throws leaves the stored setting out of step with the channel's flag |
| ManagerSpec.DisconnectAllEmpties | VoiceRoomGen/utils/channelManager.js:241-254 | when every call succeeds, the count equals the occupant count, the channel ends empty, and other channels keep their members |
| ManagerSpec.MuteAllMutesEveryone | VoiceRoomGen/utils/channelManager.js:286-299 | when every call succeeds, every occupant ends muted and the count equals the occupant count |
| ManagerSpec.RejectThenPermit | VoiceRoomGen/utils/channelManager.js:354-388 | permit after reject allows Connect and Speak again |
| ChannelManager.CreateTempChannel | VoiceRoomGen/utils/channelManager.js:9-77 | the method's result and new client state are those of `ManagerSpec.CreateTempChannel` |
| ChannelManager.DeleteTempChannel | VoiceRoomGen/utils/channelManager.js:82-101 | new state = `ManagerSpec.DeleteTempChannel` |
| ChannelManager.EditEveryone | VoiceRoomGen/utils/channelManager.js:115-121 | new state = `ManagerSpec.EditEveryone`, the shared step of lock, unlock, hide and unhide |
| ChannelManager.LockChannel | VoiceRoomGen/utils/channelManager.js:114-122 | new state = `ManagerSpec.LockChannel` |
| ChannelManager.UnlockChannel | VoiceRoomGen/utils/channelManager.js:127-135 | new state = `ManagerSpec.UnlockChannel` |
| ChannelManager.HideChannel | VoiceRoomGen/utils/channelManager.js:140-148 | new state = `ManagerSpec.HideChannel` |
| ChannelManager.UnhideChannel | VoiceRoomGen/utils/channelManager.js:153-161 | new state = `ManagerSpec.UnhideChannel` |
| ChannelManager.RenameChannel | VoiceRoomGen/utils/channelManager.js:166-168 | new state = `ManagerSpec.RenameChannel` |
| ChannelManager.SetUserLimit | VoiceRoomGen/utils/channelManager.js:173-179 | new state = `ManagerSpec.SetUserLimit` |
| ChannelManager.ClaimChannel | VoiceRoomGen/utils/channelManager.js:184-207 | outcome and state = `ManagerSpec.ClaimChannel` |
| ChannelManager.TransferChannel | VoiceRoomGen/utils/channelManager.js:212-236 | outcome and state = `ManagerSpec.TransferChannel` |
| ChannelManager.SweepMembers | VoiceRoomGen/utils/channelManager.js:241-317 | the member-by-member loop returns the count and state of `ManagerSpec.SweepMembers` |
| ChannelManager.SetMemberMute | VoiceRoomGen/utils/channelManager.js:322-349 | result and state = `ManagerSpec.SetMemberMute` |
| ChannelManager.EditFor | VoiceRoomGen/utils/channelManager.js:354-366 | result and state = `ManagerSpec.EditFor` |
| ChannelManager.RejectMember | VoiceRoomGen/utils/channelManager.js:371-388 | result and state = `ManagerSpec.RejectMember` |
| ChannelManager.ToggleChannelActivity | VoiceRoomGen/utils/channelManager.js:393-403 | result and state = `ManagerSpec.ToggleChannelActivity` |
| ChannelManager.ToggleUserActivity | VoiceRoomGen/utils/channelManager.js:408-424 | result and state = `ManagerSpec.ToggleUserActivity` |
| ChannelManager.ToggleCameraPermissions | VoiceRoomGen/utils/channelManager.js:429-445 | result and state = `ManagerSpec.ToggleCameraPermissions` |
| ControlPanel.ButtonId | VoiceRoomGen/utils/controlPanel.js:136 | a button id is the action, `_`, then the channel id |
| ControlPanel.ControlButtons | VoiceRoomGen/utils/controlPanel.js:132-158 | the panel is one row of four buttons, `owner`, `vcinfo`, `help` and `permit`, each suffixed with the channel id |
| ControlPanel.ModalId | VoiceRoomGen/utils/controlPanel.js:165 | a modal id is the action, `_modal_`, then the channel id |
| ControlPanel.SingleInputModal | VoiceRoomGen/utils/controlPanel.js:163-221 | a one-input modal carries the action's modal id, and any accepted submission has the field with a UTF-16 length within the input's bounds |
| ControlPanel.RenameModal | VoiceRoomGen/utils/controlPanel.js:163-179 | any accepted submission has a `channel_name` of 1 to 100 characters |
| ControlPanel.LimitModal | VoiceRoomGen/utils/controlPanel.js:184-200 | any accepted submission has a `user_limit` of 1 or 2 characters |
| ControlPanel.TransferModal | VoiceRoomGen/utils/controlPanel.js:205-221 | any accepted submission has a `new_owner` of 1 to 100 characters |
| ControlPanel.PermitModal | VoiceRoomGen/utils/controlPanel.js:226-252 | any accepted submission has a `target_user` of 1 to 100 characters and an `action_type` of 1 to 10 |
| ControlPanel.LimitInputBounded | VoiceRoomGen/utils/controlPanel.js:193-196 | a number parsed from an accepted limit input lies in -9..99 |
| ControlPanel.StatusOf | VoiceRoomGen/utils/controlPanel.js:94-98 | the status `createControlEmbed` computes and never displays: the lock and hide icons follow the stored flags; the limit text is `∞` iff no positive limit is stored, and otherwise parses back to that limit |
| ControlPanel.LimitIndicator | VoiceRoomGen/utils/controlPanel.js:97 | the never-displayed limit text of a positive limit is not the no-limit text and parses back to the limit |
| Interactions.ParseButtonId | VoiceRoomGen/events/interactionCreate.js:61 | the action is the text before the first `_`; a channel part is present iff the id holds a `_`, and holds no `_` itself |
| Interactions.ParseModalId | VoiceRoomGen/events/interactionCreate.js:298 | the action is the text before the first `_`; an id without `_` has no channel part, and a channel part holds no `_` |
| Interactions.LookupMember | VoiceRoomGen/events/interactionCreate.js:352-358 | an all-digit input finds the cached member with that id, and only when there is one; any other input finds the cached member the name search names, and only then; the result is always a cached member |
| Interactions.LookupRole | VoiceRoomGen/events/interactionCreate.js:588-593 | an all-digit input finds the role with that id, and only when it exists; any other input finds the existing role the name search names; the result is always an existing role |
| Interactions.ButtonIdRoundTrip | VoiceRoomGen/events/interactionCreate.js:61 | splitting a button id on `_` gives back its action and channel when neither contains `_` |
| Interactions.ModalIdRoundTrip | VoiceRoomGen/events/interactionCreate.js:298 | splitting a modal id gives back its action and channel |
| Interactions.PanelButtonsRoute | VoiceRoomGen/utils/controlPanel.js:132-157 | each of the four panel buttons routes to its own action and channel |
| Interactions.HandleButton | VoiceRoomGen/events/interactionCreate.js:60-295 | outside a guild: server-only reply; an unknown channel: not-found; a non-owner, non-admin for any action but `claim` or `invite`: refused; all of these leave the state unchanged; no button removes a record or breaks the registry invariant |
| Interactions.ButtonAction | VoiceRoomGen/events/interactionCreate.js:90-294 | no button action removes a record, an owner or settings entry, or a pending check |
| Interactions.EveryoneButton | VoiceRoomGen/events/interactionCreate.js:92-118 | lock, unlock, hide and unhide keep the registry |
| Interactions.SweepButton | VoiceRoomGen/events/interactionCreate.js:205-250 | disconnect-all, mute-all and unmute-all keep the registry |
| Interactions.ToggleButton | VoiceRoomGen/events/interactionCreate.js:260-273 | the three toggles keep the registry |
| Interactions.HandleModal | VoiceRoomGen/events/interactionCreate.js:297-653 | a missing channel gives not-found, and a member without control is refused, both with no change; no form removes a record or breaks the registry invariant |
| Interactions.ModalAction | VoiceRoomGen/events/interactionCreate.js:319-642 | no form action removes a record |
| Interactions.RenameForm | VoiceRoomGen/events/interactionCreate.js:321-326 | the rename form keeps the registry |
| Interactions.LimitForm | VoiceRoomGen/events/interactionCreate.js:328-345 | the limit form keeps the registry |
| Interactions.TransferForm | VoiceRoomGen/events/interactionCreate.js:347-388 | the transfer form keeps the record set |
| Interactions.PermitForm | VoiceRoomGen/events/interactionCreate.js:390-440 | the permit/reject form keeps the registry |
| Interactions.RejectForm | VoiceRoomGen/events/interactionCreate.js:477-510 | unreachable `reject` form; keeps the registry |
| Interactions.MuteForm | VoiceRoomGen/events/interactionCreate.js:512-580 | the mute and unmute forms keep the registry |
| Interactions.RoleAction | VoiceRoomGen/events/interactionCreate.js:582-635 | the role form keeps the registry |
| Interactions.AccessAction | VoiceRoomGen/events/interactionCreate.js:413-439 | the permit/reject branch keeps the registry |
| Interactions.GrantAccess | VoiceRoomGen/events/interactionCreate.js:413-421 | on success the target is allowed Connect and ViewChannel, Speak and every other flag of every subject is left as it was, nothing but that overwrite changes, and the reply names them; if the edit throws, the reply is the generic error and nothing changes |
| Interactions.AccessPatchFlags | VoiceRoomGen/events/interactionCreate.js:415-418 | the access patch allows Connect and ViewChannel and leaves Speak as it was |
| Interactions.RemoveAccess | VoiceRoomGen/events/interactionCreate.js:422-433 | after the edit the target is denied Connect and every other flag of every subject, ViewChannel and Speak included, is as before; the target leaves the voice state iff the edit succeeds, they were in the channel and the disconnect succeeds; the success reply is given iff the edit succeeds and the target is absent or disconnected |
| Interactions.DenyPatchFlags | VoiceRoomGen/events/interactionCreate.js:424-428 | the deny patch sets Connect to denied and leaves Speak and every other flag as it was, also after a disconnect |
| Interactions.ClaimAndInviteSkipGate | VoiceRoomGen/events/interactionCreate.js:83-88 | `claim` and `invite` run the claim or invite for any member, owner or not |
| Interactions.MissingModalActions | VoiceRoomGen/events/interactionCreate.js:233-277 | the action arm of `reject`, `mute`, `unmute` and `permitrole` is the generic error with the state unchanged |
| Interactions.MissingModalButtonsFail | VoiceRoomGen/events/interactionCreate.js:233-277 | the `reject`, `mute`, `unmute` and `permitrole` buttons always end in the generic error with no change, because the modal builders they call do not exist |
| Interactions.ButtonRoutes | VoiceRoomGen/events/interactionCreate.js:81-91 | for a member with control, a button runs exactly the action named in its id on the channel named in its id |
| Interactions.ModalRoutes | VoiceRoomGen/events/interactionCreate.js:310-320 | for a member with control, a modal submission runs exactly the form named in its id |
| Interactions.VcInfoOf | VoiceRoomGen/index.js:243-268 | the channel information holds the name, the cached owner's display name if any, the number of cached members connected, the stored limit when non-zero, and locked exactly when stored as true |
| Interactions.LimitPanelFlow | VoiceRoomGen/events/interactionCreate.js:106-108 | a `limit_<id>` button id shows the limit modal without changing state, and submitting that modal runs the limit form; no panel button carries such an id |
| Interactions.LimitFormSetsLimit | VoiceRoomGen/events/interactionCreate.js:328-345 | an accepted limit input that parses to n ≥ 0 sets both the channel limit and the stored limit to n; anything else is refused with no change |
| Interactions.RenamePanelFlow | VoiceRoomGen/events/interactionCreate.js:102-104 | a `rename_<id>` button id shows the rename modal, and submitting it runs the rename form; no panel button carries such an id |
| Interactions.RenameFormRenames | VoiceRoomGen/events/interactionCreate.js:321-326 | an accepted rename renames the channel to the input exactly, leaving settings and owners |
| Interactions.TransferToSelfRefused | VoiceRoomGen/events/interactionCreate.js:368-373 | transferring to oneself through the form is refused with no change |
| Interactions.PermitModalLeavesSpeak | VoiceRoomGen/events/interactionCreate.js:413-433 | the permit modal never changes the target's Speak flag; "given access" means Connect and ViewChannel are allowed; "removed" means Connect is denied and the target is out of the channel |
| Interactions.AccessActionLeavesSpeak | VoiceRoomGen/events/interactionCreate.js:413-439 | for `permit` and `reject` alike the target's Speak flag is unchanged; "given access" means Connect and ViewChannel are allowed; "removed" means Connect is denied and the target is out of the channel |
| VoiceEvents.Classify | VoiceRoomGen/events/voiceStateUpdate.js:13-20 | an update is a join iff there is a new channel different from the old one, and a leave iff there is an old channel different from the new one |
| VoiceEvents.ClassifyCases | VoiceRoomGen/events/voiceStateUpdate.js:13-20 | connect is a join only, disconnect a leave only, switch both, and no change neither |
| VoiceEvents.HandleUserJoin | VoiceRoomGen/events/voiceStateUpdate.js:28-56 | a join to any channel but the trigger changes nothing; records are added only for the new channel, owned by the joiner; the joiner is moved only into that channel; the registry invariant is kept |
| VoiceEvents.CreateKeepsValid | VoiceRoomGen/utils/channelManager.js:57-69 | creating a temporary channel keeps the registry invariant: every recorded channel also has an owner entry and a settings entry |
| VoiceEvents.HandleUserLeave | VoiceRoomGen/events/voiceStateUpdate.js:58-82 | leaving a temporary channel queues exactly one emptiness check for it; any other leave changes nothing |
| VoiceEvents.Execute | VoiceRoomGen/events/voiceStateUpdate.js:8-25 | the handler runs the join before the leave, as classified; no change of channel does nothing |
| VoiceEvents.FireCheck | VoiceRoomGen/events/voiceStateUpdate.js:64-80 | the oldest pending check is consumed; it deletes the channel only if the fetch succeeds and the channel is empty, and otherwise leaves every map as it was |
| VoiceEvents.FireSparesOccupied | VoiceRoomGen/events/voiceStateUpdate.js:70-73 | a check on an occupied channel changes nothing but the queue |
| VoiceEvents.FireFetchFailureKeepsRegistry | VoiceRoomGen/events/voiceStateUpdate.js:74-79 | a check whose fetch fails changes nothing but the queue |
| VoiceEvents.LeaveAddsCheck | VoiceRoomGen/events/voiceStateUpdate.js:62-81 | each leave adds one check for that channel and none for any other |
| VoiceEvents.TwoLeavesTwoChecks | VoiceRoomGen/events/voiceStateUpdate.js:62-81 | two leaves queue two independent checks; there is no debouncing |
| VoiceEvents.TriggerJoinCreatesOwnedChannel | VoiceRoomGen/events/voiceStateUpdate.js:33-41 | when creation succeeds, the joiner owns the new channel, holds every owner flag and passes the control check; when the move also succeeds, they are in it |
| VoiceEvents.ExecuteOn | VoiceRoomGen/events/voiceStateUpdate.js:8-25 | new client state = `VoiceEvents.Execute` |
| VoiceEvents.HandleUserJoinOn | VoiceRoomGen/events/voiceStateUpdate.js:28-56 | new client state = `VoiceEvents.HandleUserJoin` |
| VoiceEvents.HandleUserLeaveOn | VoiceRoomGen/events/voiceStateUpdate.js:58-82 | new client state = `VoiceEvents.HandleUserLeave` |
| VoiceEvents.FireCheckOn | VoiceRoomGen/events/voiceStateUpdate.js:64-80 | new client state = `VoiceEvents.FireCheck` |
| Text.Lower | VoiceRoomGen/index.js:58 | lower-casing keeps the length, leaves no ASCII capital, keeps every other character and moves each capital to its small letter |
| Text.LowerIdempotent | VoiceRoomGen/index.js:58 | lower-casing twice is lower-casing once |
| Text.Utf16Length | VoiceRoomGen/index.js:550 | the UTF-16 length lies between the code-point count and twice it, is zero only for the empty string, equals the count when every code point is in the basic plane and twice it when none is |
| Text.Utf16LengthConcat | VoiceRoomGen/index.js:550 | the UTF-16 length of a concatenation is the sum of the lengths |
| Text.Trim | VoiceRoomGen/index.js:57 | the trimmed text is a slice of the input that neither starts nor ends with white space, and everything cut off on either side is white space |
| Text.Split | VoiceRoomGen/events/interactionCreate.js:61 | there is at least one part and no part holds the separator; the first part is the text before the first separator; there is one part iff the separator does not occur |
| Text.SplitJoin | VoiceRoomGen/events/interactionCreate.js:298 | joining the parts with the separator gives back the text |
| Text.SplitSpaces | VoiceRoomGen/index.js:57 | splitting on runs of spaces gives at least one part and no part holds a space |
| Text.SplitWhole | VoiceRoomGen/events/interactionCreate.js:61 | a string without the separator splits into itself |
| Text.SplitFirst | VoiceRoomGen/events/interactionCreate.js:61 | splitting `x + sep + y` gives `x` followed by the split of `y` |
| Text.SplitSpacesJoin | VoiceRoomGen/index.js:57 | splitting on runs of spaces undoes joining non-empty space-free words with single spaces |
| Text.TrimSpacedTokens | VoiceRoomGen/index.js:57 | trimming `" " + words` gives back the joined words |
| Text.ParseIntNatToString | VoiceRoomGen/index.js:511 | `parseInt` of a number's decimal text gives back that number |
| Text.ParseInt | VoiceRoomGen/index.js:360 | `parseInt` after leading white space: nothing parses from blank text; a number comes only from text starting with a digit or a sign, a negative one only after `-`; text starting with a decimal digit (not `0x`) always gives a number that is not negative |
| Text.ParseSigned | VoiceRoomGen/index.js:511 | an optional sign then digits: a number only from a digit or a sign, negative only after `-`, and always one from a leading decimal digit |
| Text.ParseDigits | VoiceRoomGen/events/interactionCreate.js:330 | digits parse only from text starting with a digit, and always from text starting with a decimal digit that is not a `0x` prefix |
| Text.ParseIntShort | VoiceRoomGen/events/interactionCreate.js:330 | `parseInt` of at most two characters lies in -9..99 |
| Text.StripMention | VoiceRoomGen/events/interactionCreate.js:397 | removing mention characters leaves none of `<@!>` and never lengthens the text |
| Text.StripMentionConcat | VoiceRoomGen/events/interactionCreate.js:397 | stripping distributes over concatenation |
| Text.StripMentionPlain | VoiceRoomGen/events/interactionCreate.js:397 | text without any of `<@!>` is unchanged |
| Text.StripMentionOfMention | VoiceRoomGen/events/interactionCreate.js:397 | both mention forms `<@id>` and `<@!id>` strip to the id |
| Text.IsNumericDigits | VoiceRoomGen/events/interactionCreate.js:352 | the all-digits test holds exactly of non-empty strings of decimal digits |
| Text.IndexOf | VoiceRoomGen/utils/channelManager.js:31 | the position found is an occurrence of the pattern and no earlier position is one; no position is found iff there is no occurrence |
| Text.SubstitutionVerbatim | VoiceRoomGen/utils/channelManager.js:31 | a replacement without `$` is spliced in as it is |
| Text.PatternSubstitutions | VoiceRoomGen/utils/channelManager.js:31 | `$$`, `$&`, `` $` `` and `$'` stand for `$`, the match, the text before and the text after it |
| Text.ReplaceFirst | VoiceRoomGen/utils/channelManager.js:31 | a text without the pattern is returned unchanged; otherwise a replacement without `$` takes the place of the first occurrence and the text around it is kept |
| PrefixCommands.ParseCommand | VoiceRoomGen/index.js:53-58 | a command is parsed iff the message starts with `.v` |
| PrefixCommands.ParseCommandRoundTrip | VoiceRoomGen/index.js:57-58 | `.v w0 w1 …` parses to the lower-cased first word and the remaining words |
| PrefixCommands.ParsePermit | VoiceRoomGen/index.js:57-58 | `.v permit name` parses to `permit` with the argument `name` |
| PrefixCommands.TempGate | VoiceRoomGen/index.js:233-240 | the member passes iff they are in a voice channel that is temporary; otherwise the reply says which test failed |
| PrefixCommands.AdministratorByName | VoiceRoomGen/index.js:181 | the check by the flag name `ADMINISTRATOR` returns true iff the member is an administrator and never returns false; for everyone else it throws, which the handler's catch turns into the generic error reply |
| PrefixCommands.OwnerGate | VoiceRoomGen/index.js:181 | the member passes iff they pass the temporary-channel gate and are its owner or an administrator; anyone else in a temporary channel gets the generic error reply, because the permission check throws for them |
| PrefixCommands.RevokeManageOf | VoiceRoomGen/index.js:325-330 | only the old owner's ManageChannels and ManageRoles become unset |
| PrefixCommands.GrantManageTo | VoiceRoomGen/index.js:332-335 | on success only the new owner's ManageChannels and ManageRoles become allowed |
| PrefixCommands.Handover | VoiceRoomGen/index.js:322-335 | the handover completes iff the revoke (when there is an old owner) and the grant succeed; exactly those two flags of the two members change |
| PrefixCommands.PanelCommand | VoiceRoomGen/index.js:165-189 | the owner gate decides: the panel-sent reply comes iff the gate passes, because the panel send catches its own failures |
| PrefixCommands.AdminCommand | VoiceRoomGen/index.js:597-658 | the administrator-only commands give their placeholder reply iff the member is an administrator, and the generic error reply to everyone else |
| PrefixCommands.VcInfoCommand | VoiceRoomGen/index.js:230-275 | gated on a temporary channel; the reply reports that channel's name, the cached owner's display name (or none when the owner is not cached), the number of cached members connected, the stored limit when it is non-zero, and locked exactly when `locked` is stored as true |
| PrefixCommands.OwnerInfoCommand | VoiceRoomGen/index.js:277-298 | gated on a temporary channel; the reply is "owner not found" iff the owner is not a cached member, and otherwise names the cached owner's display name |
| PrefixCommands.ClaimCommand | VoiceRoomGen/index.js:300-338 | refused while the cached owner is in the channel; otherwise the claimant is recorded first, and the reply is the claim confirmation iff the revoke (when needed) and the grant both succeed, else the generic error; the records, settings and pending checks are never changed |
| PrefixCommands.TransferCommand | VoiceRoomGen/index.js:377-425 | owner-gated; no argument or no matching member is refused with no change; otherwise the target is recorded as owner, and the reply is the transfer confirmation iff both permission edits succeed; the records, settings and pending checks are never changed |
| PrefixCommands.LockCommand | VoiceRoomGen/index.js:427-487 | owner-gated; on success Connect for `@everyone` is the opposite of `lock` and `locked` is stored, and no other flag, channel, member, owner, record or pending check changes; if the edit throws, nothing changes |
| PrefixCommands.LimitCommand | VoiceRoomGen/index.js:489-525 | owner-gated; a missing argument or one outside 0..99 is refused with no change; otherwise the channel's limit and the stored limit become the parsed number, and nothing else in the platform, the owners, the records or the pending checks changes |
| PrefixCommands.NameCommand | VoiceRoomGen/index.js:527-558 | owner-gated; a name over 100 UTF-16 units is refused; otherwise the channel gets exactly the joined arguments as its name and the whole state is otherwise unchanged, settings included |
| PrefixCommands.ClearCommand | VoiceRoomGen/index.js:340-375 | owner-gated; the amount cleared is 10 by default or the parsed 1..99 argument; any other argument is refused; the confirmation comes iff the delete succeeds |
| PrefixCommands.PermitRejectCommand | VoiceRoomGen/index.js:681-732 | owner-gated; a found target gets the grant when the first word of the raw message is `.vpermit`, and otherwise the removal |
| PrefixCommands.Dispatch | VoiceRoomGen/index.js:61-158 | no command removes a record |
| PrefixCommands.HandleMessage | VoiceRoomGen/index.js:53-162 | bot messages and messages without `.v` are ignored; every other message gets a reply; the registry invariant is kept |
| PrefixCommands.OwnerCommandsGated | VoiceRoomGen/index.js:61-158 | every owner command answers a failed owner gate with that gate's reply and no change |
| PrefixCommands.NonOwnerGetsError | VoiceRoomGen/index.js:181 | a member in a temporary channel who is neither its owner nor an administrator gets the generic error reply from every owner command, with no change; the not-owner text is never sent |
| PrefixCommands.NonAdminGetsError | VoiceRoomGen/index.js:598 | a member who is not an administrator gets the generic error reply from every administrator command, with no change; the administrator-required text is never sent |
| PrefixCommands.PermitBranchExact | VoiceRoomGen/index.js:714 | the permit branch is taken exactly when the message starts with two non-space characters and `permit` in any case, then ends or goes on with a space |
| PrefixCommands.CommandSetsDisjoint | VoiceRoomGen/index.js:61-159 | no command names two arms of the switch |
| PrefixCommands.ReplyOnlyCommand | VoiceRoomGen/index.js:63-159 | `help` answers with the help text; `man` gives the placeholder to an owner and the owner check's refusal to others; every administrator command gives the administrator reply and every placeholder command the placeholder; a command no arm names gets the unknown-command reply |
| PrefixCommands.SpacedPermitRejects | VoiceRoomGen/index.js:714-716 | `.v permit …` with a space never takes the permit branch, while `.vpermit …` does |
| PrefixCommands.SpacedPermitName | VoiceRoomGen/index.js:714 | `.v permit name` is not the permit branch |
| PrefixCommands.DispatchPermitReject | VoiceRoomGen/index.js:108-111 | `permit` and `reject` both run the shared permit/reject handler |
| PrefixCommands.PermitMessage | VoiceRoomGen/index.js:53-111 | the message `.v permit name` runs that handler with the argument `name` |
| PrefixCommands.PermitCommandRejects | VoiceRoomGen/index.js:714-731 | the documented `.v permit name` removes the named member's access instead of granting it |
| PrefixCommands.ClaimOverUncachedOwner | VoiceRoomGen/index.js:313-322 | when the recorded owner is connected to the channel but missing from the member cache, the prefix claim still succeeds and records the claimer |
| PrefixCommands.ClaimResetsPreviousOwner | VoiceRoomGen/index.js:322-335 | a completed prefix claim unsets the previous owner's ManageChannels and ManageRoles and allows them for the claimant |
| PrefixCommands.ClaimWorld | VoiceRoomGen/index.js:322-335 | the prefix claim's platform effect is the handover from the cached owner to the claimant |
| PrefixCommands.HandoverCompleted | VoiceRoomGen/index.js:414-422 | a completed handover between two members unsets the giver's two flags and allows the receiver's |
| PrefixCommands.HandoverSparesOthers | VoiceRoomGen/index.js:414-422 | a handover changes no flag of any third subject |
| PrefixCommands.TransferWorld | VoiceRoomGen/index.js:410-422 | the transfer's platform effect is the handover from the acting member to the target, with the target recorded as owner |
| PrefixCommands.TransferRevokesActor | VoiceRoomGen/index.js:410-422 | a completed transfer records the target and moves the two manage flags from the actor to the target |
| PrefixCommands.TransferKeepsOwnerOverwrite | VoiceRoomGen/index.js:390-422 | when an admin transfers someone else's channel, the real owner's overwrite is untouched; only the admin's own flags are revoked |
| PrefixCommands.TransferToSelfKeepsOwner | VoiceRoomGen/index.js:410-422 | transferring to oneself succeeds and leaves the actor as owner with ManageChannels allowed |
| PrefixCommands.ClaimCommandOn | VoiceRoomGen/index.js:300-338 | reply and client state = `PrefixCommands.ClaimCommand` |
| PrefixCommands.TransferCommandOn | VoiceRoomGen/index.js:377-425 | reply and client state = `PrefixCommands.TransferCommand` |
| PrefixCommands.LockCommandOn | VoiceRoomGen/index.js:427-487 | reply and client state = `PrefixCommands.LockCommand` |
| PrefixCommands.LimitCommandOn | VoiceRoomGen/index.js:489-525 | reply and client state = `PrefixCommands.LimitCommand` |
| RootSpec.CreatedBy | index.js:68 | the set holds exactly the recorded channels whose creator is the member |
| RootSpec.AtMostOneTimer | index.js:117-123 | under the invariant a channel has at most one live timer, namely the one its record stores |
| RootSpec.CreateTempChannel | index.js:65-108 | at the cap of three, or when creation fails, nothing changes; the records grow iff below the cap and both creation and move succeed; the new record and creator entry then point at the new channel with the creator in it; the platform gains exactly the new channel, named for the member, with the creator's overwrite, whenever creation succeeds below the cap, and the creator is moved into it only when recorded; a failed move leaves the channel created but unrecorded; no other part of the platform and no timer changes, and the invariant is kept |
| RootSpec.Register | index.js:95-101 | records the channel for its creator and makes it their current channel, keeping the invariant |
| RootSpec.CreateKeepsCap | index.js:68-71 | creation never gives anyone more than three recorded channels |
| RootSpec.HandleChannelLeave | index.js:111-135 | only a recorded, empty channel is affected; its old timer is replaced by one fresh timer stored in its record, other channels' timers are unchanged, and the invariant is kept |
| RootSpec.LeaveKeepsCap | index.js:111-135 | a leave keeps the per-creator cap |
| RootSpec.DeleteTempChannel | index.js:138-159 | an unrecorded channel is a no-op; otherwise the record and its creator's entry go and no timer for the channel survives, while every timer of another channel stays and no timer is added or changed; the platform becomes exactly the platform without the channel iff the delete call succeeds, and is unchanged otherwise |
| RootSpec.DeleteIsIdempotent | index.js:140-141 | deleting twice is the same as deleting once |
| RootSpec.DeleteKeepsCap | index.js:138-159 | deletion keeps the per-creator cap |
| RootSpec.DeletingOlderDropsNewerEntry | index.js:150 | deleting a creator's older channel also erases the creator entry that points at their newer channel |
| RootSpec.FireTimer | index.js:123-131 | the timer is consumed; the channel is deleted iff it is empty when the timer fires; the invariant is kept |
| RootSpec.RejoinBeforeTimeoutKeepsChannel | index.js:123-131 | if someone rejoins before the timer fires, the channel survives the firing |
| RootSpec.HandleDeleteMyChannel | index.js:212-227 | no entry gives "nothing to delete"; a vanished channel drops only the caller's entry; otherwise the channel is deleted as above |
| RootSpec.DeleteMyChannelRemovesOwn | index.js:212-227 | after the command, the caller's channel has no record and the caller no entry |
| RootSpec.VoiceStateUpdate | index.js:35-62 | a channel id of the event counts only when the channel is cached; a connect to the trigger channel creates, a disconnect handles the leave, and a switch does both, creation first; the invariant is kept |
| RootSpec.StateChannel | index.js:40 | the state's channel is present iff the event names a channel that the guild's channel cache holds, and then it is that channel |
| RootSpec.UncachedOldChannelIsJoin | index.js:40-46 | a switch away from a channel that is no longer cached is handled as a plain join: it creates when the new channel is the trigger and otherwise changes nothing; no leave is handled |
| RootSpec.InfoFor | index.js:230-250 | the report gives the number of records, the 300-second timeout and the cap of 3, and the caller's channel with its member count when it is cached |
| RootSpec.SetupCommand | index.js:179-209 | the trigger is created iff the caller can manage channels, none exists, and creation succeeds; the new channel denies Speak to `@everyone` and is recognised as the trigger |
| RootBot.TempChannelBot.constructor | index.js:13-14 | the bot starts with empty maps and no timers, satisfying the invariant and the cap |
| RootBot.TempChannelBot.CountCreatedBy | index.js:68 | the loop counts exactly the records created by the member and changes nothing |
| RootBot.TempChannelBot.CreateTempChannel | index.js:65-108 | new state = `RootSpec.CreateTempChannel` |
| RootBot.TempChannelBot.HandleChannelLeave | index.js:111-135 | new state = `RootSpec.HandleChannelLeave` |
| RootBot.TempChannelBot.DeleteTempChannel | index.js:138-159 | new state = `RootSpec.DeleteTempChannel` |
| RootBot.TempChannelBot.FireTimer | index.js:123-131 | new state = `RootSpec.FireTimer` |
| RootBot.TempChannelBot.HandleDeleteMyChannel | index.js:212-227 | reply and state = `RootSpec.HandleDeleteMyChannel` |
| RootBot.TempChannelBot.VoiceStateUpdate | index.js:35-62 | new state = `RootSpec.VoiceStateUpdate` |

## Behaviour worth knowing

Each of these is what the code does, and the model states it as a lemma.

- **Delete when the channel is already gone.** The manager's `deleteTempChannel` keeps the record, because the fetch throws before the records are purged (`ManagerSpec.VanishedChannelKeepsRecord`).
- **Claim through the panel.** The manager's `claimChannel` grants the claimant the owner flags and leaves every flag of the previous owner in place (`ManagerSpec.ClaimKeepsPreviousOwnerFlags`). Only the prefix `.v claim` revokes the previous owner's two manage flags (`PrefixCommands.ClaimResetsPreviousOwner`).
- **Transfer to oneself.** Only the transfer form refuses it (`Interactions.TransferToSelfRefused`). The manager's `transferChannel` and the prefix `.v transfer` perform it (`PrefixCommands.TransferToSelfKeepsOwner`).
- **`.v owner`.** It shows owner information. Transfer is `.v transfer`.
- **The prefix administrator check.** The prefix commands test `permissions.has('ADMINISTRATOR')`. That name is not a permission flag name of the platform library, so the test returns true for administrators, through the administrator short-cut, and throws for everyone else. A non-owner who is not an administrator therefore gets the handler's generic error reply, never the not-owner or administrator-required text (`PrefixCommands.NonOwnerGetsError`, `PrefixCommands.NonAdminGetsError`). The panel buttons and forms use the flag itself and refuse normally.
- **Cached members only.** `channel.members` lists the connected members that the guild's member cache holds. An owner who is connected but not cached does not count as present, so a claim over them succeeds (`PrefixCommands.ClaimOverUncachedOwner`).
- **`$` in display names.** The channel name is made with `String.prototype.replace`, so `$&`, `` $` ``, `$'` and `$$` in a display name are replacement patterns (`BotConfig.DollarPatternsInNames`).
- **Duplicate and unreachable cases.** In the button switch, the first `permit` case wins. In the modal switch, the first `permit` case (the permit/reject form) wins over the later one. The `reject` modal case (`VoiceRoomGen/events/interactionCreate.js:477`) and the `mute`, `unmute` and `permitrole` modal cases (lines 512, 547 and 582) are unreachable, because no modal builder produces those modal ids: the buttons that would open them call builders that do not exist (`Interactions.MissingModalButtonsFail`).

## Left out

**Not modelled because they do not affect the model's state:**

- Embeds, message texts and reply failures: a reply is a tag in `Reply`.
- `createInvite` and `moveChannelToTop`: only their outcome is kept.
- The delayed control-panel send after creation.
- `updateControlPanel`.
- The DM panel.

**Lookups, parsing and text:**

- Fuzzy member and role lookup is an oracle parameter: a function from the query to a member id. Numeric ids are looked up directly.
- `parseInt` is modelled for decimal and `0x` hexadecimal digits after leading whitespace and a sign. It ignores `Infinity` and other JavaScript number forms.
- Lower-casing is ASCII-only. Whitespace trimming uses the ECMAScript whitespace set.

**Concurrency and platform behaviour:**

- Concurrency and interleaving of async handlers: every handler runs to completion before the next event.
- Timers are explicit state. The fixed delays (1000 ms, 300000 ms) are not modelled as time; only their order is.
- The category is a flag, and the new channel's parent is not recorded.

**Code outside the modelled core:**

- The placeholder prefix commands (`set-role`, `check`, `setup`, `sb-on`, `activity-on`, …) and `man` are modelled only as their replies.
- `handleSetStatusCommand` is never dispatched, so it is not modelled. Since nothing else stores a custom status, the vcinfo reply's status field always reads `None` and is not part of `Reply`.
- Slash-command registration, login, intents and shutdown of both bots are not modelled.
- `commands/voiceCommands.js` is not part of this model.

**Contracts deliberately weaker than the source:**

- Interactions.ButtonAction: the contract states only that no record is removed; the effect of each action is the `ManagerSpec` function it calls, tied to the button by `Interactions.ButtonRoutes`.
- Interactions.ModalAction: the same, with `Interactions.ModalRoutes`.
- Interactions.EveryoneButton: states only that the registry is kept; the flag change is `ManagerSpec.LockChannel` and its siblings.
- Interactions.SweepButton: states only that the registry is kept; the sweep is `ManagerSpec.SweepMembers`.
- Interactions.ToggleButton: states only that the registry is kept; the toggles are the `ManagerSpec` toggle functions.
- Interactions.RenameForm: states only that the registry is kept; `Interactions.RenameFormRenames` gives the effect.
- Interactions.LimitForm: states only that the registry is kept; `Interactions.LimitFormSetsLimit` gives the effect.
- Interactions.TransferForm: states only that the record set is kept; the effect is `ManagerSpec.TransferChannel`, and `Interactions.TransferToSelfRefused` covers the self case.
- Interactions.PermitForm: states only that the registry is kept; `Interactions.PermitModalLeavesSpeak` gives the effect.
- Interactions.RejectForm: states only that the registry is kept; the case is unreachable, and its call is `ManagerSpec.RejectMember`.
- Interactions.MuteForm: states only that the registry is kept; the effect is `ManagerSpec.SetMemberMute`.
- Interactions.RoleAction: states only that the registry is kept; the effect is `ManagerSpec.PermitRole` or `ManagerSpec.RejectRole`.
- Interactions.AccessAction: states only that the registry is kept; the effect is `Interactions.GrantAccess` or `Interactions.RemoveAccess`.
- PrefixCommands.Dispatch: states only that no record is removed; each command's own function carries its contract.
- VoiceEvents.LeaveAddsCheck: the claim that k leaves queue k checks is stated one leave at a time, plus `VoiceEvents.TwoLeavesTwoChecks`, not as a single lemma over k.
- RootSpec.InfoFor: states the figures and the caller's channel, not the text of the reply.
- RootSpec.VoiceStateUpdate: the event's channels are looked up in the channel cache once, when the event arrives. The source reads the getters again after the creation step, which could only give a different answer if the new channel's id were one of the event's ids.
