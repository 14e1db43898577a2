/**
 * The JavaScript string operations the command and custom-id parsers rely
 * on: `trim`, `split` on one character, `split(/ +/)`, `join`, ASCII
 * `toLowerCase`, `parseInt`, number-to-decimal rendering, `startsWith`,
 * `slice` and UTF-16 `length`.
 */
module Text {
  import opened Platform

  /** The characters `String.prototype.trim` removes (white space and line terminators). */
  predicate IsWhitespace(c: char) {
    c == ' ' || c == '\t' || c == '\n' || c == '\r' || c == '\U{B}' || c == '\U{C}'
    || c == '\U{A0}' || c == '\U{1680}' || ('\U{2000}' <= c <= '\U{200A}')
    || c == '\U{2028}' || c == '\U{2029}' || c == '\U{202F}' || c == '\U{205F}'
    || c == '\U{3000}' || c == '\U{FEFF}'
  }

  function TrimStart(s: string): (r: string)
    ensures |r| <= |s| && r == s[|s| - |r|..]
    ensures r == [] || !IsWhitespace(r[0])
    ensures forall i :: 0 <= i < |s| - |r| ==> IsWhitespace(s[i])
  {
    if |s| > 0 && IsWhitespace(s[0]) then TrimStart(s[1..]) else s
  }

  function TrimEnd(s: string): (r: string)
    ensures |r| <= |s| && r == s[..|r|]
    ensures r == [] || !IsWhitespace(r[|r| - 1])
    ensures forall i :: |r| <= i < |s| ==> IsWhitespace(s[i])
  {
    if |s| > 0 && IsWhitespace(s[|s| - 1]) then TrimEnd(s[..|s| - 1]) else s
  }

  /** `s.trim()`: the text between the leading and the trailing white space. */
  function Trim(s: string): (r: string)
    ensures r == [] || (!IsWhitespace(r[0]) && !IsWhitespace(r[|r| - 1]))
    ensures var k := |s| - |TrimStart(s)|;
      && k + |r| <= |s| && r == s[k..k + |r|]
      && (forall i :: 0 <= i < k ==> IsWhitespace(s[i]))
      && (forall i :: k + |r| <= i < |s| ==> IsWhitespace(s[i]))
  {
    TrimEnd(TrimStart(s))
  }

  /** `s.startsWith(p)`. */
  predicate StartsWith(s: string, p: string) {
    |p| <= |s| && s[..|p|] == p
  }

  /** `s.slice(k)` for a non-negative `k`. */
  function Slice(s: string, k: nat): string {
    if k <= |s| then s[k..] else ""
  }

  /** `p` occurs in `s` at position `i`. */
  predicate MatchAt(s: string, p: string, i: nat) {
    i + |p| <= |s| && s[i..i + |p|] == p
  }

  /** Dropping the first character moves every later occurrence one place to the left. */
  lemma MatchesShift(s: string, p: string)
    requires s != []
    ensures forall i: nat :: i >= 1 ==> (MatchAt(s, p, i) <==> MatchAt(s[1..], p, i - 1))
  {
    forall i: nat | i >= 1
      ensures MatchAt(s, p, i) == MatchAt(s[1..], p, i - 1)
    {
      if i + |p| <= |s| {
        assert s[i..i + |p|] == s[1..][i - 1..i - 1 + |p|];
      }
    }
  }

  /** `s.indexOf(p)`: the first position at which `p` occurs in `s`, if any. */
  function IndexOf(s: string, p: string): (r: Option<nat>)
    ensures r.Some? ==> MatchAt(s, p, r.value)
    ensures forall i: nat :: (r.None? || i < r.value) ==> !MatchAt(s, p, i)
    decreases |s|
  {
    if StartsWith(s, p) then Some(0)
    else if s == [] then None
    else
      MatchesShift(s, p);
      var r := IndexOf(s[1..], p);
      if r.None? then None else Some(r.value + 1)
  }

  /**
   * The replacement text `String.prototype.replace` splices in for a match
   * of a string pattern: `$$` stands for `$`, `$&` for the matched text,
   * `` $` `` for the text before the match and `$'` for the text after it;
   * any other `$` is kept.
   */
  function Substitution(repl: string, matched: string, before: string, after: string): string
    decreases |repl|
  {
    if repl == [] then []
    else if repl[0] == '$' && |repl| >= 2 && Pattern(repl[1], matched, before, after).Some? then
      Pattern(repl[1], matched, before, after).value + Substitution(repl[2..], matched, before, after)
    else [repl[0]] + Substitution(repl[1..], matched, before, after)
  }

  /** What the `$` pattern ending in `c` stands for, if `c` ends one. */
  function Pattern(c: char, matched: string, before: string, after: string): Option<string> {
    match c
    case '$' => Some("$")
    case '&' => Some(matched)
    case '`' => Some(before)
    case '\'' => Some(after)
    case _ => None
  }

  /** A replacement without `$` is spliced in as it is. */
  lemma {:induction false} SubstitutionVerbatim(repl: string, matched: string, before: string, after: string)
    requires '$' !in repl
    ensures Substitution(repl, matched, before, after) == repl
  {
    if repl != [] {
      assert repl[0] != '$';
      assert '$' !in repl[1..];
      SubstitutionVerbatim(repl[1..], matched, before, after);
      assert repl == [repl[0]] + repl[1..];
    }
  }

  /** Each two-character `$` pattern on its own stands for its text. */
  lemma PatternSubstitutions(matched: string, before: string, after: string)
    ensures Substitution("$$", matched, before, after) == "$"
    ensures Substitution("$&", matched, before, after) == matched
    ensures Substitution("$`", matched, before, after) == before
    ensures Substitution("$'", matched, before, after) == after
  {
    assert Substitution("", matched, before, after) == "";
    assert "$$"[2..] == "$&"[2..] == "$`"[2..] == "$'"[2..] == "";
  }

  /** `s.replace(p, repl)` with a string pattern: the first occurrence of `p`, if any, is replaced. */
  function ReplaceFirst(s: string, p: string, repl: string): (r: string)
    ensures IndexOf(s, p).None? ==> r == s
    ensures IndexOf(s, p).Some? && '$' !in repl ==>
      var i := IndexOf(s, p).value;
      i + |p| <= |s| && r == s[..i] + repl + s[i + |p|..]
  {
    match IndexOf(s, p)
    case None => s
    case Some(i) =>
      var sub := Substitution(repl, p, s[..i], s[i + |p|..]);
      assert '$' !in repl ==> sub == repl by {
        if '$' !in repl {
          SubstitutionVerbatim(repl, p, s[..i], s[i + |p|..]);
        }
      }
      s[..i] + sub + s[i + |p|..]
  }

  /** `s.length`: the number of UTF-16 code units. */
  function Utf16Length(s: string): (n: nat)
    ensures |s| <= n <= 2 * |s|
    ensures n == 0 <==> s == []
    ensures (forall i :: 0 <= i < |s| ==> s[i] as int <= 0xFFFF) ==> n == |s|
    ensures (forall i :: 0 <= i < |s| ==> s[i] as int > 0xFFFF) ==> n == 2 * |s|
  {
    if s == [] then 0 else (if s[0] as int > 0xFFFF then 2 else 1) + Utf16Length(s[1..])
  }

  function LowerChar(c: char): char {
    if 'A' <= c <= 'Z' then (c as int + 32) as char else c
  }

  /** `s.toLowerCase()` on the ASCII letters. */
  function Lower(s: string): (r: string)
    ensures |r| == |s|
    ensures forall i :: 0 <= i < |r| ==> !('A' <= r[i] <= 'Z')
    ensures forall i :: 0 <= i < |s| && !('A' <= s[i] <= 'Z') ==> r[i] == s[i]
    ensures forall i :: 0 <= i < |s| && 'A' <= s[i] <= 'Z' ==> r[i] as int == s[i] as int + 32
  {
    seq(|s|, i requires 0 <= i < |s| => LowerChar(s[i]))
  }

  /** Lower-casing twice is lower-casing once. */
  lemma LowerIdempotent(s: string)
    ensures Lower(Lower(s)) == Lower(s)
  {
  }

  /** The UTF-16 length of a concatenation is the sum of the lengths. */
  lemma {:induction false} Utf16LengthConcat(a: string, b: string)
    ensures Utf16Length(a + b) == Utf16Length(a) + Utf16Length(b)
  {
    if a == [] {
      assert a + b == b;
    } else {
      assert (a + b)[0] == a[0] && (a + b)[1..] == a[1..] + b;
      Utf16LengthConcat(a[1..], b);
    }
  }

  /** `s.split(sep)` for a one-character separator. */
  function Split(s: string, sep: char): (parts: seq<string>)
    ensures |parts| >= 1
    ensures forall i :: 0 <= i < |parts| ==> sep !in parts[i]
    ensures |parts[0]| <= |s| && parts[0] == s[..|parts[0]|]
    ensures |parts[0]| < |s| ==> s[|parts[0]|] == sep
    ensures |parts| == 1 <==> sep !in s
  {
    if s == [] then [[]]
    else
      var rest := Split(s[1..], sep);
      if s[0] == sep then [[]] + rest else [[s[0]] + rest[0]] + rest[1..]
  }

  /** A string without the separator splits into itself. */
  lemma {:induction false} SplitWhole(x: string, sep: char)
    requires sep !in x
    ensures Split(x, sep) == [x]
  {
    if x != [] {
      assert sep !in x[1..] by { assert forall i :: 0 <= i < |x| - 1 ==> x[1..][i] == x[i + 1]; }
      SplitWhole(x[1..], sep);
      assert [x[0]] + x[1..] == x;
    }
  }

  /** Splitting at the first separator peels off the text before it. */
  lemma {:induction false} SplitFirst(x: string, sep: char, y: string)
    requires sep !in x
    ensures Split(x + [sep] + y, sep) == [x] + Split(y, sep)
  {
    var s := x + [sep] + y;
    if x == [] {
      assert s[1..] == y;
    } else {
      assert sep !in x[1..] by { assert forall i :: 0 <= i < |x| - 1 ==> x[1..][i] == x[i + 1]; }
      assert s[1..] == x[1..] + [sep] + y;
      SplitFirst(x[1..], sep, y);
      assert [x[0]] + x[1..] == x;
    }
  }

  /** `s` without its leading run of spaces. */
  function DropSpaces(s: string): (r: string)
    ensures |r| <= |s| && r == s[|s| - |r|..]
    ensures r == [] || r[0] != ' '
  {
    if |s| > 0 && s[0] == ' ' then DropSpaces(s[1..]) else s
  }

  /** `s.split(/ +/)`: every run of spaces is one separator. */
  function SplitSpaces(s: string): (parts: seq<string>)
    ensures |parts| >= 1
    ensures forall i :: 0 <= i < |parts| ==> ' ' !in parts[i]
    decreases |s|
  {
    if s == [] then [[]]
    else if s[0] == ' ' then
      var t := DropSpaces(s);
      assert |t| < |s|;
      [[]] + SplitSpaces(t)
    else
      var rest := SplitSpaces(s[1..]);
      [[s[0]] + rest[0]] + rest[1..]
  }

  /** `words.join(sep)`. */
  function Join(words: seq<string>, sep: string): string {
    if |words| == 0 then ""
    else if |words| == 1 then words[0]
    else words[0] + sep + Join(words[1..], sep)
  }

  /** Joining the parts of a split with the separator gives back the text. */
  lemma {:induction false} SplitJoin(s: string, sep: char)
    ensures Join(Split(s, sep), [sep]) == s
  {
    if s != [] {
      var rest := Split(s[1..], sep);
      var parts := Split(s, sep);
      SplitJoin(s[1..], sep);
      assert Join(rest, [sep]) == s[1..];
      if s[0] == sep {
        assert parts == [[]] + rest && parts[1..] == rest;
        assert Join(parts, [sep]) == [] + [sep] + Join(rest, [sep]);
      } else if |rest| == 1 {
        assert parts == [[s[0]] + rest[0]];
        assert Join(parts, [sep]) == [s[0]] + Join(rest, [sep]);
      } else {
        assert parts == [[s[0]] + rest[0]] + rest[1..] && parts[1..] == rest[1..];
        assert Join(parts, [sep]) == [s[0]] + (rest[0] + [sep] + Join(rest[1..], [sep]));
      }
      assert s == [s[0]] + s[1..];
    }
  }


  /** A word: non-empty, without spaces. */
  predicate IsWord(w: string) {
    w != [] && ' ' !in w
  }

  /** A word in front of text that is empty or starts with a space extends the first part. */
  lemma {:induction false} SplitSpacesWord(w: string, t: string)
    requires ' ' !in w
    requires t == [] || t[0] == ' '
    ensures SplitSpaces(w + t) == [w + SplitSpaces(t)[0]] + SplitSpaces(t)[1..]
  {
    if w != [] {
      var s := w + t;
      assert s[1..] == w[1..] + t;
      assert ' ' !in w[1..] by { assert forall i :: 0 <= i < |w| - 1 ==> w[1..][i] == w[i + 1]; }
      SplitSpacesWord(w[1..], t);
      assert [w[0]] + (w[1..] + SplitSpaces(t)[0]) == w + SplitSpaces(t)[0];
    } else {
      assert w + t == t;
    }
  }

  /** Words joined by single spaces split back into the same words. */
  lemma {:induction false} SplitSpacesJoin(words: seq<string>)
    requires |words| >= 1
    requires forall i :: 0 <= i < |words| ==> IsWord(words[i])
    ensures SplitSpaces(Join(words, " ")) == words
  {
    var w := words[0];
    if |words| == 1 {
      SplitSpacesWord(w, []);
      assert w + [] == w;
    } else {
      var rest := Join(words[1..], " ");
      SplitSpacesJoin(words[1..]);
      JoinStartsWithWord(words[1..]);
      var t := " " + rest;
      assert Join(words, " ") == w + t;
      SplitSpacesWord(w, t);
      assert DropSpaces(t) == rest by { assert t[1..] == rest; }
      assert SplitSpaces(t) == [[]] + words[1..];
      assert w + [] == w;
    }
  }

  lemma {:induction false} JoinStartsWithWord(words: seq<string>)
    requires |words| >= 1
    requires forall i :: 0 <= i < |words| ==> IsWord(words[i])
    ensures Join(words, " ") != [] && Join(words, " ")[0] != ' '
  {
    assert IsWord(words[0]);
  }

  /** A token: non-empty and free of white space, so `trim` and `split(/ +/)` leave it whole. */
  predicate IsToken(w: string) {
    w != [] && forall i :: 0 <= i < |w| ==> !IsWhitespace(w[i])
  }

  /** Tokens joined by single spaces begin with the first token's first character and end with the last token's last. */
  lemma {:induction false} JoinEnds(words: seq<string>)
    requires |words| >= 1
    requires forall i :: 0 <= i < |words| ==> IsToken(words[i])
    ensures var j := Join(words, " "); var first := words[0]; var last := words[|words| - 1];
      first != [] && last != [] && |j| >= 1 && j[0] == first[0] && j[|j| - 1] == last[|last| - 1]
  {
    if |words| > 1 {
      JoinEnds(words[1..]);
      assert Join(words, " ") == words[0] + " " + Join(words[1..], " ");
    }
  }

  /** Tokens hold no space, so they are words. */
  lemma TokensAreWords(words: seq<string>)
    requires forall i :: 0 <= i < |words| ==> IsToken(words[i])
    ensures forall i :: 0 <= i < |words| ==> IsWord(words[i])
  {
    forall i | 0 <= i < |words|
      ensures IsWord(words[i])
    {
      var w := words[i];
      assert IsToken(w);
      assert forall j :: 0 <= j < |w| ==> w[j] != ' ';
    }
  }

  /** Trimming text that starts with one space before tokens joined by spaces gives the joined tokens back. */
  lemma TrimSpacedTokens(words: seq<string>)
    requires |words| >= 1
    requires forall i :: 0 <= i < |words| ==> IsToken(words[i])
    ensures Trim(" " + Join(words, " ")) == Join(words, " ")
  {
    var j := Join(words, " ");
    JoinEnds(words);
    assert IsToken(words[0]) && IsToken(words[|words| - 1]);
    assert (" " + j)[1..] == j;
    assert TrimStart(" " + j) == TrimStart(j);
    assert TrimStart(j) == j;
    assert TrimEnd(j) == j;
  }

  /** The value of a digit character in base 10 or 16. */
  function DigitOf(c: char, radix: nat): Option<nat> {
    if '0' <= c <= '9' then Some(c as int - '0' as int)
    else if radix == 16 && 'a' <= c <= 'f' then Some(c as int - 'a' as int + 10)
    else if radix == 16 && 'A' <= c <= 'F' then Some(c as int - 'A' as int + 10)
    else None
  }

  predicate AllDigits(s: string, radix: nat) {
    forall i :: 0 <= i < |s| ==> DigitOf(s[i], radix).Some?
  }

  /** The longest prefix of `s` made of digits. */
  function DigitPrefix(s: string, radix: nat): (r: string)
    ensures |r| <= |s| && r == s[..|r|]
    ensures AllDigits(r, radix)
    ensures |r| < |s| ==> DigitOf(s[|r|], radix).None?
  {
    if |s| > 0 && DigitOf(s[0], radix).Some? then
      var rest := DigitPrefix(s[1..], radix);
      assert ([s[0]] + rest)[1..] == rest;
      [s[0]] + rest
    else []
  }

  function ValueOf(ds: string, radix: nat): nat
    requires AllDigits(ds, radix)
  {
    if ds == [] then 0
    else ValueOf(ds[..|ds| - 1], radix) * radix + DigitOf(ds[|ds| - 1], radix).value
  }

  /**
   * `parseInt(s)` (no radix argument): leading white space is skipped, then
   * a sign and the digits are read.
   */
  function ParseInt(s: string): (r: Option<int>)
    ensures TrimStart(s) == [] ==> r.None?
    ensures r.Some? ==> var t := TrimStart(s); '0' <= t[0] <= '9' || t[0] == '-' || t[0] == '+'
    ensures r.Some? && r.value < 0 ==> TrimStart(s)[0] == '-'
    ensures var t := TrimStart(s); DecimalStart(t) ==> r.Some? && r.value >= 0
  {
    ParseSigned(TrimStart(s))
  }

  /** An optional `-` or `+`, then an unsigned numeral; NaN is `None`. */
  function ParseSigned(t: string): (r: Option<int>)
    ensures r.Some? ==> t != [] && ('0' <= t[0] <= '9' || t[0] == '-' || t[0] == '+')
    ensures r.Some? && r.value < 0 ==> t[0] == '-'
    ensures DecimalStart(t) ==> r.Some? && r.value >= 0
  {
    var signed := |t| > 0 && (t[0] == '-' || t[0] == '+');
    match ParseDigits(if signed then t[1..] else t)
    case None => None
    case Some(n) => Some(if t[0] == '-' then 0 - n else n)
  }

  /**
   * A `0x`/`0X` prefix selects base 16, otherwise base 10; the longest
   * digit prefix is the number, and without one there is none.
   */
  /** `t` starts with a decimal digit and not with a `0x` or `0X` prefix. */
  predicate DecimalStart(t: string) {
    t != [] && '0' <= t[0] <= '9' && !(|t| >= 2 && t[0] == '0' && (t[1] == 'x' || t[1] == 'X'))
  }

  function ParseDigits(u: string): (r: Option<nat>)
    ensures r.Some? ==> u != [] && '0' <= u[0] <= '9'
    ensures DecimalStart(u) ==> r.Some?
  {
    if |u| >= 2 && u[0] == '0' && (u[1] == 'x' || u[1] == 'X') then
      var ds := DigitPrefix(u[2..], 16);
      if ds == [] then None else Some(ValueOf(ds, 16))
    else
      var ds := DigitPrefix(u, 10);
      if ds == [] then None else Some(ValueOf(ds, 10))
  }

  function DecimalDigit(d: nat): (c: char)
    requires d < 10
    ensures DigitOf(c, 10) == Some(d)
  {
    ('0' as int + d) as char
  }

  /** A number rendered in a template literal: its decimal digits. */
  function NatToString(n: nat): (s: string)
    ensures s != [] && AllDigits(s, 10)
    ensures |s| >= 2 ==> s[0] != '0'
  {
    if n < 10 then [DecimalDigit(n)] else NatToString(n / 10) + [DecimalDigit(n % 10)]
  }

  lemma {:induction false} ValueOfNatToString(n: nat)
    ensures ValueOf(NatToString(n), 10) == n
  {
    var s := NatToString(n);
    if n >= 10 {
      ValueOfNatToString(n / 10);
      assert s[..|s| - 1] == NatToString(n / 10);
    }
  }

  /** A string of digits is its own longest digit prefix. */
  lemma {:induction false} DigitPrefixOfDigits(s: string, radix: nat)
    requires AllDigits(s, radix)
    ensures DigitPrefix(s, radix) == s
  {
    if s != [] {
      DigitPrefixOfDigits(s[1..], radix);
    }
  }

  /** `parseInt` reads back every number a template literal renders. */
  lemma ParseIntNatToString(n: nat)
    ensures ParseInt(NatToString(n)) == Some(n)
  {
    var s := NatToString(n);
    assert DigitOf(s[0], 10).Some?;
    assert !IsWhitespace(s[0]) && s[0] != '-' && s[0] != '+';
    assert TrimStart(s) == s;
    DigitPrefixOfDigits(s, 10);
    ValueOfNatToString(n);
    assert ParseDigits(s) == Some(n);
  }

  function Pow10(k: nat): (p: nat)
    ensures p >= 1
  {
    if k == 0 then 1 else 10 * Pow10(k - 1)
  }

  /** A decimal numeral of `k` digits is below `10^k`. */
  lemma {:induction false} ValueOfBound(ds: string)
    requires AllDigits(ds, 10)
    ensures ValueOf(ds, 10) < Pow10(|ds|)
  {
    if ds != [] {
      var init := ds[..|ds| - 1];
      assert AllDigits(init, 10) by { assert forall i :: 0 <= i < |init| ==> init[i] == ds[i]; }
      ValueOfBound(init);
      assert DigitOf(ds[|ds| - 1], 10).value <= 9;
    }
  }

  /**
   * `parseInt` of at most two characters is at most two decimal digits, so
   * the value lies between -9 and 99 (a sign leaves room for one digit, and
   * a `0x` prefix leaves none).
   */
  lemma ParseIntShort(v: string)
    requires |v| <= 2
    ensures ParseInt(v).Some? ==> -9 <= ParseInt(v).value <= 99
  {
    var t := TrimStart(v);
    if |t| > 0 && (t[0] == '-' || t[0] == '+') {
      ParseDigitsShort(t[1..]);
    } else {
      ParseDigitsShort(t);
    }
  }

  /** A numeral of at most two characters is at most 99, of one at most 9. */
  lemma ParseDigitsShort(u: string)
    requires |u| <= 2
    ensures ParseDigits(u).Some? ==> ParseDigits(u).value <= 99
    ensures |u| <= 1 && ParseDigits(u).Some? ==> ParseDigits(u).value <= 9
  {
    if |u| >= 2 && u[0] == '0' && (u[1] == 'x' || u[1] == 'X') {
      assert u[2..] == [];
    } else {
      var ds := DigitPrefix(u, 10);
      if ds != [] {
        ShortDigitsBound(ds);
      }
    }
  }

  /** One decimal digit is below 10, two are below 100. */
  lemma ShortDigitsBound(ds: string)
    requires AllDigits(ds, 10) && |ds| <= 2
    ensures ValueOf(ds, 10) <= 99
    ensures |ds| <= 1 ==> ValueOf(ds, 10) <= 9
  {
    ValueOfBound(ds);
    assert Pow10(1) == 10 && Pow10(2) == 100;
  }

  /** `s.replace(/[<@!>]/g, '')`: the characters of a mention removed. */
  function StripMention(s: string): (r: string)
    ensures |r| <= |s|
    ensures forall i :: 0 <= i < |r| ==> r[i] !in "<@!>"
  {
    if s == [] then []
    else (if s[0] in "<@!>" then [] else [s[0]]) + StripMention(s[1..])
  }

  /** Stripping works character by character, so it distributes over concatenation. */
  lemma {:induction false} StripMentionConcat(a: string, b: string)
    ensures StripMention(a + b) == StripMention(a) + StripMention(b)
  {
    if a == [] {
      assert a + b == b;
    } else {
      assert (a + b)[0] == a[0] && (a + b)[1..] == a[1..] + b;
      StripMentionConcat(a[1..], b);
    }
  }

  /** Text without any of `<`, `@`, `!` and `>` is left as it is. */
  lemma {:induction false} StripMentionPlain(s: string)
    requires forall i :: 0 <= i < |s| ==> s[i] !in "<@!>"
    ensures StripMention(s) == s
  {
    if s != [] {
      StripMentionPlain(s[1..]);
      assert s == [s[0]] + s[1..];
    }
  }

  /** A user mention, `<@id>` or `<@!id>`, strips to the id it carries. */
  lemma StripMentionOfMention(id: string)
    requires forall i :: 0 <= i < |id| ==> id[i] !in "<@!>"
    ensures StripMention("<@" + id + ">") == id
    ensures StripMention("<@!" + id + ">") == id
  {
    StripMentionPlain(id);
    StripMentionConcat("<@" + id, ">");
    StripMentionConcat("<@", id);
    StripMentionConcat("<@!" + id, ">");
    StripMentionConcat("<@!", id);
    assert StripMention("<@") == "" && StripMention("<@!") == "" && StripMention(">") == "";
  }

  /** `IsNumeric` holds exactly of the non-empty strings of decimal digits. */
  lemma IsNumericDigits(s: string)
    ensures IsNumeric(s) <==> s != [] && forall i :: 0 <= i < |s| ==> '0' <= s[i] <= '9'
  {
  }

  /** `/^\d+$/.test(s)`: one or more ASCII digits and nothing else. */
  predicate IsNumeric(s: string) {
    s != [] && AllDigits(s, 10)
  }
}
