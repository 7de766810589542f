/**
 * String primitives the handlers build on: JavaScript's white-space class,
 * trimming, ASCII lower-casing, and the regular expressions the controllers
 * test or replace with (`/^\d{15}$/`, `/<[^>]+>/g`, `/<br\s*\/?>/gi`,
 * `/\s\s+/g`, and the e-mail pattern of the check-imei endpoint).
 */
module Text {

  /** The characters JavaScript's `\s` class and `String.prototype.trim` treat as white space. */
  predicate IsSpace(c: char) {
    c == ' ' || c == '\t' || c == '\n' || c == '\r' || c == '\U{000B}' || c == '\U{000C}'
    || c == '\U{00A0}' || c == '\U{1680}' || ('\U{2000}' <= c <= '\U{200A}')
    || c == '\U{2028}' || c == '\U{2029}' || c == '\U{202F}' || c == '\U{205F}'
    || c == '\U{3000}' || c == '\U{FEFF}'
  }

  /** `\d` without the unicode flag: an ASCII digit. */
  predicate IsDigit(c: char) {
    '0' <= c <= '9'
  }

  /** `/^\d{15}$/.test(s)`: exactly fifteen ASCII digits and nothing else. */
  predicate IsImei(s: string) {
    |s| == 15 && forall i :: 0 <= i < |s| ==> IsDigit(s[i])
  }

  predicate StartsWith(s: string, prefix: string) {
    |prefix| <= |s| && s[..|prefix|] == prefix
  }

  /** Position of the first occurrence of `c` in `s`, or `|s|` when there is none. */
  function IndexOf(s: string, c: char): (i: nat)
    ensures i <= |s|
    ensures i < |s| ==> s[i] == c
    ensures forall k :: 0 <= k < i ==> s[k] != c
  {
    if s == [] then 0
    else if s[0] == c then 0
    else 1 + IndexOf(s[1..], c)
  }

  // ---------------------------------------------------------------- trimming

  /** `s` without its leading white space. */
  function TrimStart(s: string): (r: string)
    ensures |r| <= |s| && r == s[|s| - |r|..]
    ensures forall i :: 0 <= i < |s| - |r| ==> IsSpace(s[i])
    ensures r != [] ==> !IsSpace(r[0])
  {
    if s != [] && IsSpace(s[0]) then TrimStart(s[1..]) else s
  }

  /** `s` without its trailing white space. */
  function TrimEnd(s: string): (r: string)
    ensures |r| <= |s| && r == s[..|r|]
    ensures forall i :: |r| <= i < |s| ==> IsSpace(s[i])
    ensures r != [] ==> !IsSpace(r[|r| - 1])
  {
    if s != [] && IsSpace(s[|s| - 1]) then TrimEnd(s[..|s| - 1]) else s
  }

  /** Neither the first nor the last character of `s` is white space. */
  predicate Unpadded(s: string) {
    s == [] || (!IsSpace(s[0]) && !IsSpace(s[|s| - 1]))
  }

  /** `s.trim()`. */
  function Trim(s: string): (r: string)
    ensures |r| <= |s|
    ensures Unpadded(r)
    ensures Unpadded(s) ==> r == s
    ensures (forall i :: 0 <= i < |s| ==> IsSpace(s[i])) <==> r == []
  {
    var t := TrimStart(s);
    var r := TrimEnd(t);
    assert r != [] ==> !IsSpace(r[0]) by {
      if r != [] {
        assert r[0] == t[0];
      }
    }
    assert |t| > 0 ==> |r| > 0 by {
      if |t| > 0 {
        assert !IsSpace(t[0]);
      }
    }
    assert r != [] ==> !IsSpace(s[|s| - |t|]) by {
      if r != [] {
        assert s[|s| - |t|] == t[0];
      }
    }
    assert Unpadded(s) ==> t == s && r == t;
    r
  }

  // ------------------------------------------------------------ lower-casing

  function LowerChar(c: char): (d: char)
    ensures IsSpace(d) <==> IsSpace(c)
    ensures !('A' <= d <= 'Z')
  {
    if 'A' <= c <= 'Z' then (c as int + 32) as char else c
  }

  /** `s.toLowerCase()` for the ASCII letters. */
  function ToLower(s: string): (r: string)
    ensures |r| == |s|
    ensures forall i :: 0 <= i < |s| ==> r[i] == LowerChar(s[i])
  {
    seq(|s|, i requires 0 <= i < |s| => LowerChar(s[i]))
  }

  lemma ToLowerIdempotent(s: string)
    ensures ToLower(ToLower(s)) == ToLower(s)
  {
  }

  // ------------------------------------------------------------ tag removal

  /** Position of the first '>' in `s` at or after `i`, or `|s|` when there is none. */
  function NextClose(s: string, i: nat): (j: nat)
    requires i <= |s|
    ensures i <= j <= |s|
    ensures j < |s| ==> s[j] == '>'
    ensures forall k :: i <= k < j ==> s[k] != '>'
    decreases |s| - i
  {
    if i == |s| || s[i] == '>' then i else NextClose(s, i + 1)
  }

  /** Length of a match of `<[^>]+>` at the start of `s`, or 0 when none starts there. */
  function TagLength(s: string): (n: nat)
    ensures n <= |s|
    ensures n > 0 ==> n >= 3 && s[0] == '<' && s[n - 1] == '>'
    ensures n > 0 ==> forall k :: 1 <= k < n - 1 ==> s[k] != '>'
  {
    if s != [] && s[0] == '<' then
      var j := NextClose(s, 1);
      if 2 <= j < |s| then j + 1 else 0
    else 0
  }

  /** `s.replace(/<[^>]+>/g, '')`: every tag span is removed, scanning left to right. */
  function StripTags(s: string): (r: string)
    ensures |r| <= |s|
    ensures '>' in r ==> '>' in s
    decreases |s|
  {
    if s == [] then []
    else
      var n := TagLength(s);
      if n > 0 then StripTags(s[n..]) else [s[0]] + StripTags(s[1..])
  }

  /** The characters before the first '<' are kept as they are; only what follows can lose tags. */
  lemma {:induction false} StripTagsKeepsText(a: string, b: string)
    requires forall k :: 0 <= k < |a| ==> a[k] != '<'
    ensures StripTags(a + b) == a + StripTags(b)
    decreases |a|
  {
    if a == [] {
      assert a + b == b;
    } else {
      var s := a + b;
      assert s[0] == a[0] && TagLength(s) == 0;
      assert s[1..] == a[1..] + b;
      StripTagsKeepsText(a[1..], b);
      assert a == [a[0]] + a[1..];
    }
  }

  /** A tag `<x>` at the front is removed whole, and scanning goes on after it. */
  lemma StripTagsDropsTag(x: string, b: string)
    requires x != [] && forall k :: 0 <= k < |x| ==> x[k] != '>'
    ensures StripTags("<" + x + ">" + b) == StripTags(b)
  {
    var s := "<" + x + ">" + b;
    var j := NextClose(s, 1);
    assert s[|x| + 1] == '>';
    assert forall k :: 1 <= k <= |x| ==> s[k] == x[k - 1];
    assert j == |x| + 1;
    assert TagLength(s) == |x| + 2;
    assert s[|x| + 2..] == b;
  }

  /** A text without '<' has no tag to remove. */
  lemma StripTagsPlainText(s: string)
    requires forall k :: 0 <= k < |s| ==> s[k] != '<'
    ensures StripTags(s) == s
  {
    StripTagsKeepsText(s, []);
    assert s + [] == s;
  }



  /**
   * No substring of `s` matches `<[^>]+>`: between a '<' and a later '>'
   * that is not adjacent to it there is always another '>'.
   */
  ghost predicate NoTag(s: string) {
    forall i, j :: 0 <= i && i + 1 < j < |s| && s[i] == '<' && s[j] == '>' ==> '>' in s[i + 1..j]
  }

  /** Every '<' of `s` is followed directly by '>', or by no '>' at all. */
  ghost predicate TagFree(s: string) {
    forall i :: 0 <= i < |s| && s[i] == '<' ==>
      (i + 1 < |s| && s[i + 1] == '>') || '>' !in s[i + 1..]
  }

  lemma TagFreeHasNoTag(s: string)
    requires TagFree(s)
    ensures NoTag(s)
  {
    forall i, j | 0 <= i && i + 1 < j < |s| && s[i] == '<' && s[j] == '>'
      ensures '>' in s[i + 1..j]
    {
      assert s[i + 1..][j - i - 1] == '>';
      assert s[i + 1..j][0] == s[i + 1];
    }
  }

  lemma {:induction false} StripTagsTagFree(s: string)
    ensures TagFree(StripTags(s))
    decreases |s|
  {
    if s != [] {
      var n := TagLength(s);
      if n > 0 {
        StripTagsTagFree(s[n..]);
      } else {
        StripTagsTagFree(s[1..]);
        var rest := StripTags(s[1..]);
        var r := [s[0]] + rest;
        assert StripTags(s) == r;
        if s[0] == '<' {
          var j := NextClose(s, 1);
          if j < |s| {
            assert j == 1;
            assert TagLength(s[1..]) == 0;
            assert rest == [s[1]] + StripTags(s[2..]);
            assert r[1] == '>';
          } else {
            assert j == |s|;
            assert '>' !in s[1..] by {
              forall k | 0 <= k < |s| - 1 ensures s[1..][k] != '>' {
                assert s[1..][k] == s[k + 1];
              }
            }
            assert r[1..] == rest;
          }
        }
        forall i | 0 <= i < |r| && r[i] == '<'
          ensures (i + 1 < |r| && r[i + 1] == '>') || '>' !in r[i + 1..]
        {
          if i > 0 {
            assert r[i] == rest[i - 1];
            assert r[i + 1..] == rest[i..];
          }
        }
      }
    }
  }

  lemma TagFreeSlice(s: string, a: nat, b: nat)
    requires TagFree(s) && a <= b <= |s|
    ensures TagFree(s[a..b])
  {
    var t := s[a..b];
    forall i | 0 <= i < |t| && t[i] == '<'
      ensures (i + 1 < |t| && t[i + 1] == '>') || '>' !in t[i + 1..]
    {
      assert s[a + i] == '<';
      assert t[i + 1..] == s[a + i + 1..][..b - a - i - 1];
      if '>' !in s[a + i + 1..] {
        NotInPrefix(s[a + i + 1..], b - a - i - 1, '>');
      }
    }
  }

  lemma NotInPrefix(s: string, m: nat, c: char)
    requires m <= |s| && c !in s
    ensures c !in s[..m]
  {
    assert forall k :: 0 <= k < m ==> s[..m][k] == s[k];
  }

  // ------------------------------------------------------- `<br>` replacement

  /** Number of white-space characters at the start of `s`. */
  function SpaceRun(s: string): (n: nat)
    ensures n <= |s|
    ensures forall k :: 0 <= k < n ==> IsSpace(s[k])
    ensures n < |s| ==> !IsSpace(s[n])
  {
    if s != [] && IsSpace(s[0]) then 1 + SpaceRun(s[1..]) else 0
  }

  /** Length of a match of `<br\s*\/?>` (letters in either case) at the start of `s`, 0 if none. */
  function BreakLength(s: string): (n: nat)
    ensures n <= |s|
    ensures n > 0 ==> n >= 4 && s[0] == '<' && s[n - 1] == '>'
    ensures n > 0 ==> (s[1] == 'b' || s[1] == 'B') && (s[2] == 'r' || s[2] == 'R')
    ensures n > 0 ==> forall k :: 3 <= k < n - 1 ==> IsSpace(s[k]) || (k == n - 2 && s[k] == '/')
  {
    if |s| >= 3 && s[0] == '<' && (s[1] == 'b' || s[1] == 'B') && (s[2] == 'r' || s[2] == 'R') then
      var k := 3 + SpaceRun(s[3..]);
      var k' := if k < |s| && s[k] == '/' then k + 1 else k;
      if k' < |s| && s[k'] == '>' then k' + 1 else 0
    else 0
  }

  /** `s.replace(/<br\s*\/?>/gi, ' ')`. */
  function ReplaceBreaks(s: string): (r: string)
    ensures |r| <= |s|
    decreases |s|
  {
    if s == [] then []
    else
      var n := BreakLength(s);
      if n > 0 then " " + ReplaceBreaks(s[n..]) else [s[0]] + ReplaceBreaks(s[1..])
  }

  /** Every leading white-space run is measured in full. */
  lemma {:induction false} SpaceRunOfSpaces(ws: string, rest: string)
    requires forall k :: 0 <= k < |ws| ==> IsSpace(ws[k])
    requires rest != [] && !IsSpace(rest[0])
    ensures SpaceRun(ws + rest) == |ws|
    decreases |ws|
  {
    if ws == [] {
      assert ws + rest == rest;
    } else {
      assert (ws + rest)[1..] == ws[1..] + rest;
      SpaceRunOfSpaces(ws[1..], rest);
    }
  }

  /** The tag `<br`, white space, an optional `/` and `>`, with `b` and `r` in either case. */
  function BreakTag(b: char, r: char, ws: string, slash: bool): string {
    ['<', b, r] + ws + (if slash then "/" else "") + ">"
  }

  /** Every `<br\s*\/?>` tag is matched in full at the start of a text. */
  lemma BreakLengthOfTag(b: char, r: char, ws: string, slash: bool, rest: string)
    requires b == 'b' || b == 'B'
    requires r == 'r' || r == 'R'
    requires forall k :: 0 <= k < |ws| ==> IsSpace(ws[k])
    ensures BreakLength(BreakTag(b, r, ws, slash) + rest) == |BreakTag(b, r, ws, slash)|
  {
    var t := BreakTag(b, r, ws, slash);
    var s := t + rest;
    var tail := (if slash then "/" else "") + ">" + rest;
    assert s[3..] == ws + tail;
    SpaceRunOfSpaces(ws, tail);
    var k := 3 + |ws|;
    if slash {
      assert s[k] == '/' && s[k + 1] == '>';
    } else {
      assert s[k] == '>';
    }
  }

  /** A `<br>` tag in any spelling the pattern allows becomes one space. */
  lemma ReplaceBreaksTag(b: char, r: char, ws: string, slash: bool, rest: string)
    requires b == 'b' || b == 'B'
    requires r == 'r' || r == 'R'
    requires forall k :: 0 <= k < |ws| ==> IsSpace(ws[k])
    ensures ReplaceBreaks(BreakTag(b, r, ws, slash) + rest) == " " + ReplaceBreaks(rest)
  {
    var t := BreakTag(b, r, ws, slash);
    BreakLengthOfTag(b, r, ws, slash, rest);
    assert (t + rest)[|t|..] == rest;
  }

  /** A text without '<' holds no `<br>` to replace. */
  lemma {:induction false} ReplaceBreaksPlainText(s: string)
    requires forall k :: 0 <= k < |s| ==> s[k] != '<'
    ensures ReplaceBreaks(s) == s
    decreases |s|
  {
    if s != [] {
      assert BreakLength(s) == 0;
      ReplaceBreaksPlainText(s[1..]);
      assert s == [s[0]] + s[1..];
    }
  }

  // -------------------------------------------------------- space collapsing

  /** No two consecutive characters of `s` are both white space. */
  ghost predicate NoDoubleSpace(s: string) {
    forall i :: 0 <= i < |s| - 1 ==> !IsSpace(s[i]) || !IsSpace(s[i + 1])
  }

  /** `s.replace(/\s\s+/g, ' ')`: every run of two or more white-space characters becomes one space. */
  function CollapseSpaces(s: string): (r: string)
    ensures '>' in r ==> '>' in s
    decreases |s|
  {
    if |s| >= 2 && IsSpace(s[0]) && IsSpace(s[1]) then " " + CollapseSpaces(s[SpaceRun(s)..])
    else if s == [] then []
    else
      [s[0]] + CollapseSpaces(s[1..])
  }

  /** A text with no two adjacent white-space characters is left as it is. */
  lemma {:induction false} CollapseSingleSpaced(s: string)
    requires NoDoubleSpace(s)
    ensures CollapseSpaces(s) == s
    decreases |s|
  {
    if s != [] {
      assert !(|s| >= 2 && IsSpace(s[0]) && IsSpace(s[1]));
      NoDoubleSpaceSlice(s, 1, |s|);
      assert s[1..|s|] == s[1..];
      CollapseSingleSpaced(s[1..]);
      assert s == [s[0]] + s[1..];
    }
  }

  lemma CollapseKeepsFirst(s: string)
    requires s != [] && !IsSpace(s[0])
    ensures CollapseSpaces(s) == [s[0]] + CollapseSpaces(s[1..])
  {
  }

  lemma {:induction false} CollapseNoDoubleSpace(s: string)
    ensures NoDoubleSpace(CollapseSpaces(s))
    decreases |s|
  {
    var r := CollapseSpaces(s);
    if |s| >= 2 && IsSpace(s[0]) && IsSpace(s[1]) {
      var rest := s[SpaceRun(s)..];
      CollapseNoDoubleSpace(rest);
      if rest != [] {
        CollapseKeepsFirst(rest);
      }
      assert r == " " + CollapseSpaces(rest);
      forall i | 0 <= i < |r| - 1 ensures !IsSpace(r[i]) || !IsSpace(r[i + 1]) {
        if i > 0 {
          assert r[i] == CollapseSpaces(rest)[i - 1];
        }
      }
    } else if s != [] {
      var rest := s[1..];
      CollapseNoDoubleSpace(rest);
      if rest != [] && !IsSpace(rest[0]) {
        CollapseKeepsFirst(rest);
      }
      assert r == [s[0]] + CollapseSpaces(rest);
      forall i | 0 <= i < |r| - 1 ensures !IsSpace(r[i]) || !IsSpace(r[i + 1]) {
        if i > 0 {
          assert r[i] == CollapseSpaces(rest)[i - 1];
        }
      }
    }
  }

  lemma {:induction false} CollapseKeepsTagFree(s: string)
    requires TagFree(s)
    ensures TagFree(CollapseSpaces(s))
    decreases |s|
  {
    var r := CollapseSpaces(s);
    if |s| >= 2 && IsSpace(s[0]) && IsSpace(s[1]) {
      var rest := s[SpaceRun(s)..];
      TagFreeSlice(s, SpaceRun(s), |s|);
      CollapseKeepsTagFree(rest);
      assert r == " " + CollapseSpaces(rest);
      forall i | 0 <= i < |r| && r[i] == '<'
        ensures (i + 1 < |r| && r[i + 1] == '>') || '>' !in r[i + 1..]
      {
        assert r[i] == CollapseSpaces(rest)[i - 1];
        assert r[i + 1..] == CollapseSpaces(rest)[i..];
      }
    } else if s != [] {
      var rest := s[1..];
      TagFreeSlice(s, 1, |s|);
      CollapseKeepsTagFree(rest);
      var cr := CollapseSpaces(rest);
      assert r == [s[0]] + cr;
      if s[0] == '<' {
        if |s| > 1 && s[1] == '>' {
          CollapseKeepsFirst(rest);
          assert r[1] == '>';
        } else {
          assert '>' !in rest;
          assert r[1..] == cr;
        }
      }
      forall i | 0 <= i < |r| && r[i] == '<'
        ensures (i + 1 < |r| && r[i + 1] == '>') || '>' !in r[i + 1..]
      {
        if i > 0 {
          assert r[i] == cr[i - 1];
          assert r[i + 1..] == cr[i..];
        }
      }
    }
  }

  lemma NoDoubleSpaceSlice(s: string, a: nat, b: nat)
    requires NoDoubleSpace(s) && a <= b <= |s|
    ensures NoDoubleSpace(s[a..b])
  {
    var t := s[a..b];
    forall i | 0 <= i < |t| - 1 ensures !IsSpace(t[i]) || !IsSpace(t[i + 1]) {
      assert t[i] == s[a + i] && t[i + 1] == s[a + i + 1];
    }
  }

  /** Trimming keeps both properties, since it only cuts characters off the ends. */
  lemma TrimKeeps(s: string)
    requires TagFree(s) && NoDoubleSpace(s)
    ensures TagFree(Trim(s)) && NoDoubleSpace(Trim(s))
  {
    var t := TrimStart(s);
    assert Trim(s) == TrimEnd(t);
    TrimStartKeeps(s);
    TrimEndKeeps(t);
  }

  lemma TrimStartKeeps(s: string)
    requires TagFree(s) && NoDoubleSpace(s)
    ensures TagFree(TrimStart(s)) && NoDoubleSpace(TrimStart(s))
  {
    var t := TrimStart(s);
    assert t == s[|s| - |t|..|s|];
    TagFreeSlice(s, |s| - |t|, |s|);
    NoDoubleSpaceSlice(s, |s| - |t|, |s|);
  }

  lemma TrimEndKeeps(t: string)
    requires TagFree(t) && NoDoubleSpace(t)
    ensures TagFree(TrimEnd(t)) && NoDoubleSpace(TrimEnd(t))
  {
    var r := TrimEnd(t);
    TagFreeSlice(t, 0, |r|);
    NoDoubleSpaceSlice(t, 0, |r|);
  }

  // ------------------------------------------------------- the e-mail regex

  /** A character `[^@\s]` accepts. */
  predicate EmailChar(c: char) {
    c != '@' && !IsSpace(c)
  }

  /**
   * `/^[^@\s]+@[^@\s]+\.[^@\s]+$/`, read off the pattern: a non-empty local part,
   * '@', a non-empty run, '.', a non-empty run, and no other '@' or white space.
   */
  ghost predicate MatchesEmailPattern(s: string) {
    exists at, dot :: 0 < at && at + 1 < dot && dot + 1 < |s| && s[at] == '@' && s[dot] == '.'
      && (forall k :: 0 <= k < |s| && k != at ==> EmailChar(s[k]))
  }

  /** The same test as a computation: one '@' that is not first, and a '.' inside the domain. */
  predicate IsEmail(s: string) {
    var at := IndexOf(s, '@');
    0 < at && at + 3 <= |s|
    && (forall k :: 0 <= k < |s| && k != at ==> EmailChar(s[k]))
    && '.' in s[at + 2..|s| - 1]
  }

  lemma IsEmailMatchesPattern(s: string)
    ensures IsEmail(s) <==> MatchesEmailPattern(s)
  {
    if IsEmail(s) {
      var at := IndexOf(s, '@');
      var t := s[at + 2..|s| - 1];
      var d := IndexOf(t, '.');
      assert t[d] == s[at + 2 + d];
      assert MatchesEmailPattern(s) by {
        assert 0 < at && at + 1 < at + 2 + d && at + 2 + d + 1 < |s| && s[at] == '@' && s[at + 2 + d] == '.';
      }
    }
    if MatchesEmailPattern(s) {
      var at, dot :| 0 < at && at + 1 < dot && dot + 1 < |s| && s[at] == '@' && s[dot] == '.'
        && (forall k :: 0 <= k < |s| && k != at ==> EmailChar(s[k]));
      var i := IndexOf(s, '@');
      assert i == at;
      assert s[at + 2..|s| - 1][dot - at - 2] == '.';
    }
  }
}
