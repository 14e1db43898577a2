/**
 * The chat platform as both bots see it: channels with their names, user
 * limits and permission overwrites, which member is connected to which voice
 * channel, which members are server-muted, the guild's member cache, and
 * whether the temporary-channel category exists.  The platform's API calls
 * are modelled by the state change they make; whether a call resolves or
 * throws is an input (see `Replies`).
 */
module Platform {

  datatype Option<+T> = None | Some(value: T)

  /** What an awaited call gives back: a value, or an exception. */
  datatype Outcome<+T> = Returned(value: T) | Threw

  /** Snowflake identifiers of channels, members and roles. */
  type Id = string

  /** A guild member as a handler sees it. */
  datatype Member = Member(id: Id, displayName: string, isAdmin: bool)

  /** The permission flags the bots write into channel overwrites. */
  datatype Perm =
    | ViewChannel | Connect | Speak
    | ManageChannels | ManageRoles | MuteMembers | DeafenMembers | MoveMembers
    | UseVAD | Stream

  /**
   * An overwrite for one role or member: `true` allows a flag, `false` denies
   * it, an absent flag is inherited.
   */
  type Overwrite = map<Perm, bool>

  /** What `permissionOverwrites.edit` writes for one flag: true, false or null. */
  datatype Flag = Allow | Deny | Inherit

  type Patch = map<Perm, Flag>

  /** Whom an overwrite applies to: the @everyone role, one member, one role. */
  datatype Subject = Everyone | User(user: Id) | Role(role: Id)

  datatype Channel = Channel(name: string, userLimit: int, overwrites: map<Subject, Overwrite>)

  datatype World = World(
    guildId: Id,                 // the guild the bot serves
    channels: map<Id, Channel>,  // the guild's channel cache
    voice: map<Id, Id>,          // member id -> the voice channel the member is connected to
    muted: set<Id>,              // server-muted members
    memberCache: map<Id, Member>, // the guild's member cache
    hasCategory: bool)           // the temporary-channel category exists

  /**
   * The outcomes of the platform calls one handler makes, in the order its
   * code lists them (`true`: the call resolved, `false`: it threw), and for
   * the loops over a channel's members, the outcome of the call for each
   * member.  A call the handler does not reach leaves its entry unused.
   */
  datatype Calls = Calls(first: bool, second: bool, third: bool, each: Id -> bool)

  /**
   * `channel.members`: the members connected to voice channel `ch` whom the
   * guild's member cache holds.  A connected member missing from the cache
   * is not listed, so it neither counts nor is visited.
   */
  function Occupants(w: World, ch: Id): (r: set<Id>)
    ensures forall m :: m in r <==> m in w.voice && w.voice[m] == ch && m in w.memberCache
  {
    set m | m in w.voice && w.voice[m] == ch && m in w.memberCache
  }

  /** `member.voice.channel`: the cached voice channel the member is connected to. */
  function VoiceChannelOf(w: World, m: Id): (r: Option<Id>)
    ensures r.Some? ==> r.value in w.channels && InChannel(w, m, r.value)
    ensures r.None? ==> m !in w.voice || w.voice[m] !in w.channels
  {
    if m in w.voice && w.voice[m] in w.channels then Some(w.voice[m]) else None
  }

  /** `member.voice.channel && member.voice.channel.id === ch`. */
  predicate InChannel(w: World, m: Id, ch: Id) {
    m in w.voice && w.voice[m] == ch
  }

  /** The members of `ms` for which `ok` holds: the calls of a loop that succeeded. */
  function Succeeded(ms: set<Id>, ok: Id -> bool): (r: set<Id>)
    ensures r <= ms
    ensures forall m :: m in r <==> m in ms && ok(m)
  {
    set m | m in ms && ok(m)
  }

  lemma SubsetCardinality(a: set<Id>, b: set<Id>)
    requires a <= b
    ensures |a| <= |b|
  {
    assert b == a + (b - a);
  }

  /** The overwrite a channel holds for `who`, empty when it has none. */
  function OverwriteOf(c: Channel, who: Subject): Overwrite {
    if who in c.overwrites then c.overwrites[who] else map[]
  }

  /**
   * The effect of an edit on one overwrite: the flags the patch names are
   * set (or reset, for null) and every other flag is kept.
   */
  function ApplyPatch(o: Overwrite, p: Patch): (r: Overwrite)
    ensures forall f :: f in p && p[f] == Allow ==> f in r && r[f]
    ensures forall f :: f in p && p[f] == Deny ==> f in r && !r[f]
    ensures forall f :: f in p && p[f] == Inherit ==> f !in r
    ensures forall f :: f !in p ==> (f in r <==> f in o) && (f in o ==> r[f] == o[f])
  {
    map f | f in o.Keys + p.Keys && !(f in p && p[f] == Inherit) ::
      if f in p then p[f] == Allow else o[f]
  }

  /** The value of flag `f` in the overwrite channel `ch` holds for `who`; `None` when inherited. */
  function FlagOf(w: World, ch: Id, who: Subject, f: Perm): Option<bool> {
    if ch in w.channels && who in w.channels[ch].overwrites && f in w.channels[ch].overwrites[who]
    then Some(w.channels[ch].overwrites[who][f])
    else None
  }

  function FlagValue(x: Flag): Option<bool> {
    match x
    case Allow => Some(true)
    case Deny => Some(false)
    case Inherit => None
  }

  /** `r` differs from `w` at most in the permission overwrites of channel `ch`. */
  ghost predicate OnlyOverwritesOf(w: World, r: World, ch: Id) {
    && r.guildId == w.guildId && r.voice == w.voice && r.muted == w.muted
    && r.memberCache == w.memberCache && r.hasCategory == w.hasCategory
    && r.channels.Keys == w.channels.Keys
    && (forall c :: c in w.channels ==> r.channels[c].name == w.channels[c].name && r.channels[c].userLimit == w.channels[c].userLimit)
    && (forall c :: c in w.channels && c != ch ==> r.channels[c] == w.channels[c])
  }

  lemma OnlyOverwritesOfTrans(u: World, v: World, w: World, ch: Id)
    requires OnlyOverwritesOf(u, v, ch) && OnlyOverwritesOf(v, w, ch)
    ensures OnlyOverwritesOf(u, w, ch)
  {
  }

  /**
   * Every flag of `r` is that of `w`, except that the flags `p` names in
   * `who`'s overwrite on channel `ch` hold what `p` writes.
   */
  ghost predicate PatchedOnly(w: World, r: World, ch: Id, who: Subject, p: Patch) {
    forall c, x, f :: FlagOf(r, c, x, f) == if c == ch && x == who && f in p then FlagValue(p[f]) else FlagOf(w, c, x, f)
  }

  /** `channel.permissionOverwrites.edit(who, patch)`. */
  function EditOverwrite(w: World, ch: Id, who: Subject, p: Patch): (r: World)
    requires ch in w.channels
    ensures r.channels.Keys == w.channels.Keys
    ensures r.channels[ch].name == w.channels[ch].name && r.channels[ch].userLimit == w.channels[ch].userLimit
    ensures r.channels[ch].overwrites == w.channels[ch].overwrites[who := ApplyPatch(OverwriteOf(w.channels[ch], who), p)]
    ensures forall c :: c in w.channels && c != ch ==> r.channels[c] == w.channels[c]
    ensures forall c, x, f :: FlagOf(r, c, x, f) == if c == ch && x == who && f in p then FlagValue(p[f]) else FlagOf(w, c, x, f)
    ensures PatchedOnly(w, r, ch, who, p)
    ensures r.guildId == w.guildId && r.voice == w.voice && r.muted == w.muted && r.memberCache == w.memberCache && r.hasCategory == w.hasCategory
    ensures OnlyOverwritesOf(w, r, ch)
  {
    var c := w.channels[ch];
    w.(channels := w.channels[ch := c.(overwrites := c.overwrites[who := ApplyPatch(OverwriteOf(c, who), p)])])
  }

  /** `channel.permissionOverwrites.delete(who)`. */
  function DeleteOverwrite(w: World, ch: Id, who: Subject): (r: World)
    requires ch in w.channels
    ensures r.channels.Keys == w.channels.Keys
    ensures r.channels[ch] == w.channels[ch].(overwrites := w.channels[ch].overwrites - {who})
    ensures forall c :: c in w.channels && c != ch ==> r.channels[c] == w.channels[c]
    ensures forall c, x, f :: FlagOf(r, c, x, f) == if c == ch && x == who then None else FlagOf(w, c, x, f)
    ensures r.guildId == w.guildId && r.voice == w.voice && r.muted == w.muted && r.memberCache == w.memberCache && r.hasCategory == w.hasCategory
    ensures OnlyOverwritesOf(w, r, ch)
  {
    var c := w.channels[ch];
    w.(channels := w.channels[ch := c.(overwrites := c.overwrites - {who})])
  }

  /** `channel.setName(name)`. */
  function SetName(w: World, ch: Id, name: string): (r: World)
    requires ch in w.channels
    ensures r.channels == w.channels[ch := w.channels[ch].(name := name)]
    ensures r.guildId == w.guildId && r.voice == w.voice && r.muted == w.muted && r.memberCache == w.memberCache && r.hasCategory == w.hasCategory
  {
    w.(channels := w.channels[ch := w.channels[ch].(name := name)])
  }

  /** `channel.setUserLimit(n)`. */
  function SetChannelLimit(w: World, ch: Id, n: int): (r: World)
    requires ch in w.channels
    ensures r.channels == w.channels[ch := w.channels[ch].(userLimit := n)]
    ensures r.guildId == w.guildId && r.voice == w.voice && r.muted == w.muted && r.memberCache == w.memberCache && r.hasCategory == w.hasCategory
  {
    w.(channels := w.channels[ch := w.channels[ch].(userLimit := n)])
  }

  /** `channel.delete()`: the channel goes, and whoever was in it is disconnected. */
  function DeleteChannel(w: World, ch: Id): (r: World)
    ensures r.channels == w.channels - {ch}
    ensures forall m :: m in r.voice <==> m in w.voice && w.voice[m] != ch
    ensures forall m :: m in r.voice ==> r.voice[m] == w.voice[m]
    ensures Occupants(r, ch) == {}
    ensures forall c :: c != ch ==> Occupants(r, c) == Occupants(w, c)
    ensures r.guildId == w.guildId && r.muted == w.muted && r.memberCache == w.memberCache && r.hasCategory == w.hasCategory
  {
    w.(channels := w.channels - {ch}, voice := map m | m in w.voice && w.voice[m] != ch :: w.voice[m])
  }

  /** `member.voice.setChannel(ch)`. */
  function MoveMember(w: World, m: Id, ch: Id): (r: World)
    ensures r.voice == w.voice[m := ch]
    ensures r.guildId == w.guildId && r.channels == w.channels && r.muted == w.muted && r.memberCache == w.memberCache && r.hasCategory == w.hasCategory
  {
    w.(voice := w.voice[m := ch])
  }

  /** `member.voice.disconnect()`. */
  function Disconnect(w: World, m: Id): (r: World)
    ensures r.voice == w.voice - {m}
    ensures r.guildId == w.guildId && r.channels == w.channels && r.muted == w.muted && r.memberCache == w.memberCache && r.hasCategory == w.hasCategory
  {
    w.(voice := w.voice - {m})
  }

  /**
   * `if (member.voice.channel && member.voice.channel.id === ch) await member.voice.disconnect()`:
   * true unless the disconnect was needed and threw.
   */
  function DisconnectIfIn(w: World, m: Id, ch: Id, ok: bool): (r: (bool, World))
    ensures r.0 <==> !InChannel(w, m, ch) || ok
    ensures r.0 ==> !InChannel(r.1, m, ch)
    ensures r.1 == w.(voice := r.1.voice)
    ensures r.1.voice == if InChannel(w, m, ch) && ok then w.voice - {m} else w.voice
  {
    if !InChannel(w, m, ch) then (true, w)
    else if ok then (true, Disconnect(w, m))
    else (false, w)
  }

  /** Overwrites live on the channels: two platforms with the same channels report the same flags. */
  lemma SameChannelsSameFlags(w: World, r: World)
    requires r.channels == w.channels
    ensures forall c, x, f :: FlagOf(r, c, x, f) == FlagOf(w, c, x, f)
  {
  }

  /** `member.voice.setMute(b)`. */
  function SetMute(w: World, m: Id, b: bool): (r: World)
    ensures r.muted == if b then w.muted + {m} else w.muted - {m}
    ensures r.guildId == w.guildId && r.channels == w.channels && r.voice == w.voice && r.memberCache == w.memberCache && r.hasCategory == w.hasCategory
  {
    w.(muted := if b then w.muted + {m} else w.muted - {m})
  }
}
