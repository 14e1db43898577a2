/**
 * The settings the VoiceRoomGen bot reads from its configuration module.
 * They are inputs of the operations that consult them; `Default` holds the
 * values the repository ships with.
 */
module BotConfig {
  import opened Text

  datatype Config = Config(
    triggerChannelName: string,   // joining a channel with this name creates a temporary channel
    tempChannelCategory: string,  // the category temporary channels are created under
    deleteDelay: nat,             // milliseconds between a leave and the emptiness check
    maxUserLimit: nat,            // declared, but the handlers check against a literal 99
    defaultUserLimit: nat,        // 0 = no limit
    allowClaim: bool,
    allowTransfer: bool)

  const Default: Config := Config("\U{2795} Create Channel", "TEMPORARY CHANNELS", 1000, 99, 0, true, true)

  /** `voice.defaultChannelName`: the template a new channel's name is made from. */
  const ChannelNameTemplate: string := "{username}'s Channel"

  /**
   * The name of a new temporary channel: `{username}` in the template
   * replaced by the display name through `String.prototype.replace`, so the
   * `$` patterns of a replacement string apply to the display name.
   */
  function ChannelName(displayName: string): (name: string)
    ensures |name| >= 10 && name[|name| - 10..] == "'s Channel"
    ensures '$' !in displayName ==> name == displayName + "'s Channel"
  {
    TemplateSplice(displayName);
    ReplaceFirst(ChannelNameTemplate, "{username}", displayName)
  }

  /** The placeholder opens the template, so the display name's substitution is followed by the rest of it. */
  lemma TemplateSplice(displayName: string)
    ensures ReplaceFirst(ChannelNameTemplate, "{username}", displayName) ==
      Substitution(displayName, "{username}", "", "'s Channel") + "'s Channel"
    ensures '$' !in displayName ==> Substitution(displayName, "{username}", "", "'s Channel") == displayName
  {
    assert StartsWith(ChannelNameTemplate, "{username}");
    assert ChannelNameTemplate[..0] == "" && ChannelNameTemplate[10..] == "'s Channel";
    if '$' !in displayName {
      SubstitutionVerbatim(displayName, "{username}", "", "'s Channel");
    }
  }

  /**
   * Display names with `$` patterns are not taken literally: `$&` brings
   * back the placeholder, `$'` repeats the rest of the template, `$$`
   * collapses to one `$`.
   */
  lemma DollarPatternsInNames()
    ensures ChannelName("$&") == ChannelNameTemplate
    ensures ChannelName("$'") == "'s Channel" + "'s Channel"
    ensures ChannelName("$$") == "$" + "'s Channel"
  {
    TemplateSplice("$&");
    TemplateSplice("$'");
    TemplateSplice("$$");
    PatternSubstitutions("{username}", "", "'s Channel");
    assert ChannelNameTemplate == "{username}" + "'s Channel";
  }
}
