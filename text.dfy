/** String helpers the components use through JavaScript's String methods. Case conversion is
    ASCII only; everything else follows the ECMAScript definitions. */
module Text {

  /** `toLowerCase` on one character, ASCII letters only. */
  function LowerChar(c: char): char {
    if 'A' <= c <= 'Z' then (c as int + 32) as char else c
  }

  /** `toUpperCase` on one character, ASCII letters only. */
  function UpperChar(c: char): char {
    if 'a' <= c <= 'z' then (c as int - 32) as char else c
  }

  /** `s.toLowerCase()`. */
  function Lower(s: string): (r: string)
    ensures |r| == |s|
    ensures forall i | 0 <= i < |s| :: r[i] == LowerChar(s[i])
  {
    if s == [] then [] else [LowerChar(s[0])] + Lower(s[1..])
  }

  /** `s.includes(t)`: `t` is a prefix of some suffix of `s`. */
  predicate Contains(s: string, t: string) {
    t <= s || (s != [] && Contains(s[1..], t))
  }

  /** `t` occurs in `s` starting at position `i`. */
  predicate OccursAt(s: string, t: string, i: int) {
    0 <= i && i + |t| <= |s| && s[i..i + |t|] == t
  }

  /** `includes` holds exactly when `t` occurs in `s` at some position. */
  lemma {:induction false} ContainsAt(s: string, t: string)
    ensures Contains(s, t) <==> exists i :: OccursAt(s, t, i)
  {
    if s == [] {
      if t == [] {
        assert OccursAt(s, t, 0);
      }
      if exists i :: OccursAt(s, t, i) {
        var i :| OccursAt(s, t, i);
        assert t == [];
      }
    } else {
      ContainsAt(s[1..], t);
      if t <= s {
        assert OccursAt(s, t, 0);
      }
      if exists i :: OccursAt(s, t, i) {
        var i :| OccursAt(s, t, i);
        if i > 0 {
          assert OccursAt(s[1..], t, i - 1);
        } else {
          assert t <= s;
        }
      }
      if exists i :: OccursAt(s[1..], t, i) {
        var i :| OccursAt(s[1..], t, i);
        assert OccursAt(s, t, i + 1);
      }
    }
  }

  /** The empty search term is contained in every string. */
  lemma ContainsEmpty(s: string)
    ensures Contains(s, "")
  {
  }

  /** The search test every list view uses: `field.toLowerCase().includes(term.toLowerCase())`. */
  predicate MatchesTerm(field: string, term: string) {
    Contains(Lower(field), Lower(term))
  }

  /** The first position at or after `from` where `t` occurs in `s`, or -1 (`indexOf`). */
  function FindFrom(s: string, t: string, from: nat): (r: int)
    requires t != []
    decreases |s| - from
    ensures r == -1 || (from <= r && OccursAt(s, t, r))
    ensures forall k | from <= k < (if r == -1 then |s| else r) :: !OccursAt(s, t, k)
  {
    if from + |t| > |s| then -1
    else if OccursAt(s, t, from) then from
    else FindFrom(s, t, from + 1)
  }

  /** `s.endsWith(t)`. */
  predicate EndsWith(s: string, t: string) {
    |t| <= |s| && s[|s| - |t|..] == t
  }

  /** A string that ends with `t` ends with every suffix of `t`. */
  lemma EndsWithSuffix(s: string, t: string, u: string)
    requires EndsWith(s, t) && EndsWith(t, u)
    ensures EndsWith(s, u)
  {
    assert s[|s| - |u|..] == s[|s| - |t|..][|t| - |u|..];
  }

  /** The empty search term matches every field. */
  lemma MatchesEmptyTerm(field: string)
    ensures MatchesTerm(field, "")
  {
    assert Lower("") == "";
    ContainsEmpty(Lower(field));
  }

  /** The characters `String.prototype.trim` removes: ECMAScript WhiteSpace and LineTerminator. */
  predicate IsWhitespace(c: char) {
    var n := c as int;
    n == 0x09 || n == 0x0A || n == 0x0B || n == 0x0C || n == 0x0D || n == 0x20 ||
    n == 0xA0 || n == 0x1680 || (0x2000 <= n <= 0x200A) || n == 0x2028 || n == 0x2029 ||
    n == 0x202F || n == 0x205F || n == 0x3000 || n == 0xFEFF
  }

  /** Leading whitespace removed. */
  function TrimStart(s: string): (r: string)
    ensures |r| <= |s|
    ensures r == s[|s| - |r|..]
  {
    if s != [] && IsWhitespace(s[0]) then TrimStart(s[1..]) else s
  }

  /** Trailing whitespace removed. */
  function TrimEnd(s: string): (r: string)
    ensures |r| <= |s|
    ensures r == s[..|r|]
  {
    if s != [] && IsWhitespace(s[|s| - 1]) then TrimEnd(s[..|s| - 1]) else s
  }

  /** `s.trim()`. */
  function Trim(s: string): string {
    TrimEnd(TrimStart(s))
  }

  /** A string trims to the empty string exactly when every character is whitespace. */
  lemma TrimEmptyIffBlank(s: string)
    ensures Trim(s) == "" <==> forall i | 0 <= i < |s| :: IsWhitespace(s[i])
  {
    TrimStartEmptyIffBlank(s);
    var t := TrimStart(s);
    if t != [] {
      assert !IsWhitespace(t[0]) by { TrimStartHead(s); }
      TrimEndKeepsNonBlankHead(t);
    }
  }

  lemma {:induction false} TrimStartEmptyIffBlank(s: string)
    ensures TrimStart(s) == "" <==> forall i | 0 <= i < |s| :: IsWhitespace(s[i])
  {
    if s != [] && IsWhitespace(s[0]) {
      TrimStartEmptyIffBlank(s[1..]);
      assert forall i | 1 <= i < |s| :: s[i] == s[1..][i - 1];
    }
  }

  lemma {:induction false} TrimStartHead(s: string)
    ensures TrimStart(s) != "" ==> !IsWhitespace(TrimStart(s)[0])
  {
    if s != [] && IsWhitespace(s[0]) {
      TrimStartHead(s[1..]);
    }
  }

  lemma {:induction false} TrimEndKeepsNonBlankHead(t: string)
    requires t != [] && !IsWhitespace(t[0])
    ensures TrimEnd(t) != ""
  {
    if IsWhitespace(t[|t| - 1]) {
      assert |t| > 1;
      TrimEndKeepsNonBlankHead(t[..|t| - 1]);
    }
  }

  /** `w.charAt(0).toUpperCase() + w.slice(1)`. */
  function Capitalize(w: string): (r: string)
    ensures |r| == |w|
  {
    if w == [] then [] else [UpperChar(w[0])] + w[1..]
  }

  /** `s.split(sep)` for a one-character separator: always at least one piece. */
  function Split(s: string, sep: char): (r: seq<string>)
    ensures |r| >= 1
  {
    if s == [] then [""]
    else if s[0] == sep then [""] + Split(s[1..], sep)
    else var rest := Split(s[1..], sep); [[s[0]] + rest[0]] + rest[1..]
  }

  /** `ws.join(sep)` for a one-character separator. */
  function Join(ws: seq<string>, sep: char): string {
    if ws == [] then ""
    else if |ws| == 1 then ws[0]
    else ws[0] + [sep] + Join(ws[1..], sep)
  }

  lemma JoinCons(c: char, w: string, rest: seq<string>, sep: char)
    ensures Join([[c] + w] + rest, sep) == [c] + Join([w] + rest, sep)
  {
    var ws := [[c] + w] + rest;
    assert ws[1..] == rest;
    assert ([w] + rest)[1..] == rest;
  }

  /** Splitting and joining with the same separator gives back the original string. */
  lemma {:induction false} JoinSplit(s: string, sep: char)
    ensures Join(Split(s, sep), sep) == s
  {
    if s == [] {
    } else if s[0] == sep {
      JoinSplit(s[1..], sep);
      var ws := [""] + Split(s[1..], sep);
      assert ws[1..] == Split(s[1..], sep);
    } else {
      JoinSplit(s[1..], sep);
      var rest := Split(s[1..], sep);
      assert [rest[0]] + rest[1..] == rest;
      JoinCons(s[0], rest[0], rest[1..], sep);
    }
  }

  /** `ws.map(Capitalize)`. */
  function CapitalizeAll(ws: seq<string>): (r: seq<string>)
    ensures |r| == |ws|
  {
    if ws == [] then [] else [Capitalize(ws[0])] + CapitalizeAll(ws[1..])
  }

  /** The label formatter of the document views:
      `s.split('_').map(w => w.charAt(0).toUpperCase() + w.slice(1)).join(' ')`. */
  function SnakeToTitle(s: string): string {
    Join(CapitalizeAll(Split(s, '_')), ' ')
  }

  /** The character-by-character reading of SnakeToTitle: `_` becomes a space, the first letter of
      each word is upper-cased (`atStart` says whether `s` starts a word). */
  function TitleFrom(s: string, atStart: bool): string {
    if s == [] then ""
    else if s[0] == '_' then " " + TitleFrom(s[1..], true)
    else [if atStart then UpperChar(s[0]) else s[0]] + TitleFrom(s[1..], false)
  }

  function Render(ws: seq<string>, capFirst: bool): string
    requires |ws| >= 1
  {
    Join([if capFirst then Capitalize(ws[0]) else ws[0]] + CapitalizeAll(ws[1..]), ' ')
  }

  lemma {:induction false} RenderSplit(s: string, b: bool)
    ensures Render(Split(s, '_'), b) == TitleFrom(s, b)
  {
    if s == [] {
    } else if s[0] == '_' {
      var rest := Split(s[1..], '_');
      RenderSplit(s[1..], true);
      assert Split(s, '_') == [""] + rest;
      assert ([""] + rest)[1..] == rest;
      assert CapitalizeAll(rest) == [Capitalize(rest[0])] + CapitalizeAll(rest[1..]);
      var ws := [""] + CapitalizeAll(rest);
      assert ws[1..] == CapitalizeAll(rest);
      assert Render(Split(s, '_'), b) == Join(ws, ' ');
    } else {
      var rest := Split(s[1..], '_');
      RenderSplit(s[1..], false);
      var c := s[0];
      assert Split(s, '_') == [[c] + rest[0]] + rest[1..];
      assert ([[c] + rest[0]] + rest[1..])[1..] == rest[1..];
      var head := if b then Capitalize([c] + rest[0]) else [c] + rest[0];
      assert head == [if b then UpperChar(c) else c] + rest[0];
      JoinCons(if b then UpperChar(c) else c, rest[0], CapitalizeAll(rest[1..]), ' ');
    }
  }

  /** SnakeToTitle is TitleFrom starting at a word boundary. */
  lemma SnakeToTitleIsTitleFrom(s: string)
    ensures SnakeToTitle(s) == TitleFrom(s, true)
  {
    var ws := Split(s, '_');
    assert CapitalizeAll(ws) == [Capitalize(ws[0])] + CapitalizeAll(ws[1..]);
    RenderSplit(s, true);
  }

  /** What TitleFrom puts at each position. */
  function TitleCharAt(s: string, i: nat, atStart: bool): char
    requires i < |s|
  {
    if s[i] == '_' then ' '
    else if (if i == 0 then atStart else s[i - 1] == '_') then UpperChar(s[i])
    else s[i]
  }

  lemma {:induction false} TitleFromChars(s: string, b: bool)
    ensures |TitleFrom(s, b)| == |s|
    ensures forall i | 0 <= i < |s| :: TitleFrom(s, b)[i] == TitleCharAt(s, i, b)
  {
    if s != [] {
      TitleFromChars(s[1..], s[0] == '_');
      forall i | 1 <= i < |s|
        ensures TitleFrom(s, b)[i] == TitleCharAt(s, i, b)
      {
        assert TitleFrom(s, b)[i] == TitleFrom(s[1..], s[0] == '_')[i - 1];
        assert TitleCharAt(s[1..], i - 1, s[0] == '_') == TitleCharAt(s, i, b);
      }
    }
  }

  /** The label has the length of its input; every `_` becomes a space, the first character of
      each word is upper-cased and every other character is kept. */
  lemma SnakeToTitleChars(s: string)
    ensures |SnakeToTitle(s)| == |s|
    ensures forall i | 0 <= i < |s| :: SnakeToTitle(s)[i] == TitleCharAt(s, i, true)
  {
    SnakeToTitleIsTitleFrom(s);
    TitleFromChars(s, true);
  }

  /** The decimal digit `d`. */
  function DigitChar(d: nat): char
    requires d < 10
  {
    "0123456789"[d]
  }

  /** `String(n)` for a non-negative integer. */
  function NatToString(n: nat): (r: string)
    ensures |r| >= 1
    ensures forall k | 0 <= k < |r| :: '0' <= r[k] <= '9'
  {
    if n < 10 then [DigitChar(n)] else NatToString(n / 10) + [DigitChar(n % 10)]
  }

  /** `String(i)` / `i.toString()` for an integer: a minus sign before the digits when negative. */
  function IntToString(i: int): (r: string)
    ensures |r| >= 1
    ensures i < 0 <==> r[0] == '-'
  {
    if i < 0 then "-" + NatToString(-i) else NatToString(i)
  }

  lemma {:induction false} NatToStringLength(n: nat)
    ensures n < 10 ==> |NatToString(n)| == 1
    ensures 10 <= n < 100 ==> |NatToString(n)| == 2
    ensures 100 <= n < 1000 ==> |NatToString(n)| == 3
    ensures 1000 <= n ==> |NatToString(n)| >= 4
  {
    if n >= 10 {
      NatToStringLength(n / 10);
    }
  }

  /** An integer prints as exactly three characters when it has three digits, or when it is a
      negative number with two digits (`-12` prints as "-12"). */
  lemma IntToStringLength3(i: int)
    ensures |IntToString(i)| == 3 <==> 100 <= i <= 999 || -99 <= i <= -10
  {
    if i < 0 {
      NatToStringLength(-i);
    } else {
      NatToStringLength(i);
    }
  }
}
