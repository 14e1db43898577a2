/**
 * The parts of the VoiceRoomGen control panel that carry logic: the custom
 * ids of its buttons and modals, the length bounds of the modals' text
 * inputs, and the status indicators computed from a channel's settings.
 */
module ControlPanel {
  import opened Platform
  import opened Text
  import opened VoiceRooms

  /** The actions of the four panel buttons, in display order. */
  const PanelActions: seq<string> := ["owner", "vcinfo", "help", "permit"]

  /** A button's custom id: `<action>_<channelId>`. */
  function ButtonId(action: string, channelId: Id): (id: string)
    ensures |id| == |action| + 1 + |channelId|
    ensures id[..|action|] == action && id[|action|] == '_' && id[|action| + 1..] == channelId
  {
    action + "_" + channelId
  }

  /** `createControlButtons`: one row of four buttons, each addressed to the channel. */
  function ControlButtons(channelId: Id): (rows: seq<seq<string>>)
    ensures |rows| == 1 && |rows[0]| == |PanelActions| == 4
    ensures forall i :: 0 <= i < 4 ==>
      && |rows[0][i]| == |PanelActions[i]| + 1 + |channelId|
      && rows[0][i][..|PanelActions[i]|] == PanelActions[i]
      && rows[0][i][|PanelActions[i]| + 1..] == channelId
  {
    [seq(4, i requires 0 <= i < 4 => ButtonId(PanelActions[i], channelId))]
  }

  /** A modal's custom id: `<action>_modal_<channelId>`. */
  function ModalId(action: string, channelId: Id): (id: string)
    ensures |id| == |action| + 7 + |channelId|
    ensures id[..|action|] == action && id[|action|..|action| + 7] == "_modal_" && id[|action| + 7..] == channelId
  {
    action + "_modal_" + channelId
  }

  datatype TextInput = TextInput(customId: string, minLength: nat, maxLength: nat)

  /** A modal; every text input of the panel's modals is required. */
  datatype Modal = Modal(customId: string, inputs: seq<TextInput>)

  /** The platform accepts a submitted value only within the input's length bounds. */
  predicate Accepts(input: TextInput, value: string) {
    input.minLength <= Utf16Length(value) <= input.maxLength
  }

  /** The modal's inputs, by field id, with a value each input accepts. */
  predicate Filled(m: Modal, fields: map<string, string>) {
    forall i :: 0 <= i < |m.inputs| ==> m.inputs[i].customId in fields && Accepts(m.inputs[i], fields[m.inputs[i].customId])
  }

  /** A modal with one required text input, as the rename, limit and transfer builders make. */
  function SingleInputModal(action: string, channelId: Id, field: string, minLength: nat, maxLength: nat): (m: Modal)
    ensures m.customId == ModalId(action, channelId)
    ensures forall fields :: Filled(m, fields) ==> field in fields && minLength <= Utf16Length(fields[field]) <= maxLength
  {
    var m := Modal(ModalId(action, channelId), [TextInput(field, minLength, maxLength)]);
    assert m.inputs[0] == TextInput(field, minLength, maxLength);
    m
  }

  function RenameModal(channelId: Id): (m: Modal)
    ensures m.customId == ModalId("rename", channelId)
    ensures forall fields :: Filled(m, fields) ==> "channel_name" in fields && 1 <= |fields["channel_name"]| <= 100
  {
    SingleInputModal("rename", channelId, "channel_name", 1, 100)
  }

  function LimitModal(channelId: Id): (m: Modal)
    ensures m.customId == ModalId("limit", channelId)
    ensures forall fields :: Filled(m, fields) ==> "user_limit" in fields && 1 <= |fields["user_limit"]| <= 2
  {
    SingleInputModal("limit", channelId, "user_limit", 1, 2)
  }

  function TransferModal(channelId: Id): (m: Modal)
    ensures m.customId == ModalId("transfer", channelId)
    ensures forall fields :: Filled(m, fields) ==> "new_owner" in fields && 1 <= |fields["new_owner"]| <= 100
  {
    SingleInputModal("transfer", channelId, "new_owner", 1, 100)
  }

  function PermitModal(channelId: Id): (m: Modal)
    ensures m.customId == ModalId("permit", channelId)
    ensures forall fields :: Filled(m, fields) ==>
      && "target_user" in fields && 1 <= |fields["target_user"]| <= 100
      && "action_type" in fields && 1 <= |fields["action_type"]| <= 10
  {
    var m := Modal(ModalId("permit", channelId), [TextInput("target_user", 1, 100), TextInput("action_type", 1, 10)]);
    assert m.inputs[0] == TextInput("target_user", 1, 100);
    assert m.inputs[1] == TextInput("action_type", 1, 10);
    m
  }

  /**
   * Whatever the limit modal lets through parses, if at all, to a number
   * between -9 and 99: only the lower end needs the handler's own check.
   */
  lemma LimitInputBounded(channelId: Id, fields: map<string, string>)
    requires Filled(LimitModal(channelId), fields)
    ensures ParseInt(fields["user_limit"]).Some? ==> -9 <= ParseInt(fields["user_limit"]).value <= 99
  {
    ParseIntShort(fields["user_limit"]);
  }

  const LockedIcon := "\U{1F512}"
  const UnlockedIcon := "\U{1F513}"
  const HiddenIcon := "\U{1F441}\U{FE0F}\U{200D}\U{1F5E8}\U{FE0F}"
  const VisibleIcon := "\U{1F441}\U{FE0F}"
  const LimitPrefix := "\U{1F465} "
  const NoLimit := "\U{1F465} \U{221E}"

  datatype Status = Status(locked: string, hidden: string, limit: string)

  /**
   * The status indicators `createControlEmbed` computes from the settings
   * (an absent setting reads as undefined). The function builds this value
   * and never uses it: the embed it returns shows none of the three texts.
   * The icons here are the intended emoji; the source file holds them as
   * mis-encoded byte sequences.
   */
  function StatusOf(st: Settings): (r: Status)
    ensures r.locked == (if Truthy(st.locked) then LockedIcon else UnlockedIcon)
    ensures r.hidden == (if Truthy(st.hidden) then HiddenIcon else VisibleIcon)
    ensures |r.limit| >= |LimitPrefix|
    ensures r.limit == NoLimit <==> !(st.userLimit.Some? && st.userLimit.value > 0)
    ensures st.userLimit.Some? && st.userLimit.value > 0 ==>
      r.limit[..|LimitPrefix|] == LimitPrefix && ParseInt(r.limit[|LimitPrefix|..]) == Some(st.userLimit.value)
  {
    var limit := if st.userLimit.Some? && st.userLimit.value > 0 then LimitPrefix + NatToString(st.userLimit.value) else NoLimit;
    if st.userLimit.Some? && st.userLimit.value > 0 then
      LimitIndicator(st.userLimit.value);
      Status(if Truthy(st.locked) then LockedIcon else UnlockedIcon,
             if Truthy(st.hidden) then HiddenIcon else VisibleIcon,
             limit)
    else
      Status(if Truthy(st.locked) then LockedIcon else UnlockedIcon,
             if Truthy(st.hidden) then HiddenIcon else VisibleIcon,
             limit)
  }

  /**
   * The limit text of a positive limit is never the unlimited sign, and its
   * digits read back as the limit (the text is computed, never displayed).
   */
  lemma LimitIndicator(n: nat)
    requires n > 0
    ensures var text := LimitPrefix + NatToString(n);
      text != NoLimit && text[..|LimitPrefix|] == LimitPrefix && ParseInt(text[|LimitPrefix|..]) == Some(n)
  {
    var text := LimitPrefix + NatToString(n);
    ParseIntNatToString(n);
    assert text[|LimitPrefix|..] == NatToString(n);
    assert DigitOf(text[|LimitPrefix|], 10).Some?;
    assert text[|LimitPrefix|] != NoLimit[|LimitPrefix|];
  }
}
