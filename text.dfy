/** String helpers shared by the TypeScript front end and the Python back end:
    ASCII whitespace and trimming, ASCII case, and literal replace-all, either
    exact (Python `str.replace`) or ASCII-case-insensitive (a JavaScript
    `replace` with a `/…/gi` regular expression whose source has no
    metacharacters). */
module Text {

  /** The six ASCII whitespace characters; JS `trim()` and Python `strip()` remove them. */
  predicate IsSpace(c: char) {
    c == ' ' || c == '\t' || c == '\n' || c == '\r' || c == '\U{B}' || c == '\U{C}'
  }

  predicate IsBlank(s: string) {
    forall i :: 0 <= i < |s| ==> IsSpace(s[i])
  }

  /** Python's `str.isspace` on ASCII: the six above and the four
      separators `\x1c`..`\x1f`, which Python's `strip()` also removes. */
  predicate PyIsSpace(c: char) {
    IsSpace(c) || ('\U{1C}' <= c <= '\U{1F}')
  }

  /** `len(s.strip()) == 0` in Python. */
  predicate PyIsBlank(s: string) {
    forall i :: 0 <= i < |s| ==> PyIsSpace(s[i])
  }

  function TrimStart(s: string): (r: string)
    ensures (r == []) == IsBlank(s)
    ensures r != [] ==> !IsSpace(r[0])
  {
    if s != [] && IsSpace(s[0]) then TrimStart(s[1..]) else s
  }

  function TrimEnd(s: string): (r: string)
    ensures (r == []) == IsBlank(s)
    ensures r != [] ==> !IsSpace(r[|r| - 1]) && r[0] == s[0]
  {
    if s != [] && IsSpace(s[|s| - 1]) then TrimEnd(s[..|s| - 1]) else s
  }

  /** `s.trim()` / `s.strip()`: empty exactly when `s` is blank, and otherwise
      neither starting nor ending with whitespace. */
  function Trim(s: string): (r: string)
    ensures r == [] <==> IsBlank(s)
    ensures r != [] ==> !IsSpace(r[0]) && !IsSpace(r[|r| - 1])
  {
    TrimEnd(TrimStart(s))
  }

  function Lower(c: char): char {
    if 'A' <= c <= 'Z' then (c as int + 32) as char else c
  }

  function Upper(c: char): char {
    if 'a' <= c <= 'z' then (c as int - 32) as char else c
  }

  /** Character equality, ASCII-case-insensitive when `fold` holds. */
  predicate CharEq(x: char, y: char, fold: bool) {
    if fold then Lower(x) == Lower(y) else x == y
  }

  /** `p` occurs in `s` at position `i`. */
  predicate MatchesAt(s: string, i: nat, p: string, fold: bool) {
    i + |p| <= |s| && forall k :: 0 <= k < |p| ==> CharEq(s[i + k], p[k], fold)
  }

  ghost predicate Occurs(s: string, p: string, fold: bool) {
    exists i: nat :: MatchesAt(s, i, p, fold)
  }

  /** `Occurs` splits on the first position. */
  lemma OccursShift(s: string, p: string, fold: bool)
    requires s != []
    ensures Occurs(s, p, fold) <==> MatchesAt(s, 0, p, fold) || Occurs(s[1..], p, fold)
  {
    if Occurs(s, p, fold) && !MatchesAt(s, 0, p, fold) {
      var i: nat :| MatchesAt(s, i, p, fold);
      assert MatchesAt(s[1..], i - 1, p, fold);
    }
    if Occurs(s[1..], p, fold) {
      var i: nat :| MatchesAt(s[1..], i, p, fold);
      assert MatchesAt(s, i + 1, p, fold);
    }
  }

  /** `p in s` in Python, `s.includes(p)` in JavaScript (with `fold`, ignoring
      ASCII case). */
  function Contains(s: string, p: string, fold: bool): (b: bool)
    ensures b <==> Occurs(s, p, fold)
    decreases |s|
  {
    if s == [] then
      assert Occurs(s, p, fold) ==> MatchesAt(s, 0, p, fold);
      MatchesAt(s, 0, p, fold)
    else
      OccursShift(s, p, fold);
      MatchesAt(s, 0, p, fold) || Contains(s[1..], p, fold)
  }

  /** What replaces a match: a fixed string, or the matched text itself between
      two strings (a `$1` replacement around a capture of the whole pattern). */
  datatype Replacement = Fixed(text: string) | Wrap(before: string, after: string)

  function Substitute(r: Replacement, matched: string): string {
    match r
    case Fixed(t) => t
    case Wrap(b, a) => b + matched + a
  }

  /** Replace every non-overlapping occurrence of `p` in `s`, scanning left to
      right. An empty `p` matches before every character and at the end, as both
      a JavaScript `/()/g` and Python's `str.replace("", …)` do. */
  function ReplaceAll(s: string, p: string, r: Replacement, fold: bool): string
    decreases |s|
  {
    if |p| == 0 then
      Substitute(r, []) + (if s == [] then [] else [s[0]] + ReplaceAll(s[1..], p, r, fold))
    else if MatchesAt(s, 0, p, fold) then
      Substitute(r, s[..|p|]) + ReplaceAll(s[|p|..], p, r, fold)
    else if s == [] then []
    else [s[0]] + ReplaceAll(s[1..], p, r, fold)
  }

  /** A non-empty pattern that does not occur leaves the text unchanged. */
  lemma {:induction false} ReplaceAbsent(s: string, p: string, r: Replacement, fold: bool)
    requires |p| > 0 && !Occurs(s, p, fold)
    ensures ReplaceAll(s, p, r, fold) == s
    decreases |s|
  {
    if s != [] {
      assert !MatchesAt(s, 0, p, fold);
      forall i: nat ensures !MatchesAt(s[1..], i, p, fold) {
        if MatchesAt(s[1..], i, p, fold) {
          assert MatchesAt(s, i + 1, p, fold);
        }
      }
      ReplaceAbsent(s[1..], p, r, fold);
    }
  }

  /** Wrapping every match in nothing gives the text back: a `Wrap` keeps each
      matched piece exactly as it stood, in its original case. */
  lemma {:induction false} WrapNothingIsIdentity(s: string, p: string, fold: bool)
    ensures ReplaceAll(s, p, Wrap([], []), fold) == s
    decreases |s|
  {
    var r := Wrap([], []);
    if |p| == 0 {
      if s != [] {
        WrapNothingIsIdentity(s[1..], p, fold);
        assert ReplaceAll(s, p, r, fold) == [] + [s[0]] + ReplaceAll(s[1..], p, r, fold);
        assert s == [s[0]] + s[1..];
      }
    } else if MatchesAt(s, 0, p, fold) {
      WrapNothingIsIdentity(s[|p|..], p, fold);
      assert ReplaceAll(s, p, r, fold) == Substitute(r, s[..|p|]) + ReplaceAll(s[|p|..], p, r, fold);
      assert Substitute(r, s[..|p|]) == s[..|p|];
      assert s == s[..|p|] + s[|p|..];
    } else if s != [] {
      WrapNothingIsIdentity(s[1..], p, fold);
      assert ReplaceAll(s, p, r, fold) == [s[0]] + ReplaceAll(s[1..], p, r, fold);
      assert s == [s[0]] + s[1..];
    }
  }

  /** No character of `u` can start a match of `p`. */
  predicate NoStartChar(u: string, p: string, fold: bool)
    requires |p| > 0
  {
    forall i :: 0 <= i < |u| ==> !CharEq(u[i], p[0], fold)
  }

  /** A prefix in which no match can start is copied through unchanged. */
  lemma {:induction false} ReplaceAfterFreePrefix(u: string, v: string, p: string, r: Replacement, fold: bool)
    requires |p| > 0 && NoStartChar(u, p, fold)
    ensures ReplaceAll(u + v, p, r, fold) == u + ReplaceAll(v, p, r, fold)
    decreases |u|
  {
    if u != [] {
      var s := u + v;
      assert s[0] == u[0];
      assert !CharEq(s[0 + 0], p[0], fold);
      assert !MatchesAt(s, 0, p, fold);
      assert s[1..] == u[1..] + v;
      assert ReplaceAll(s, p, r, fold) == [s[0]] + ReplaceAll(s[1..], p, r, fold);
      ReplaceAfterFreePrefix(u[1..], v, p, r, fold);
      calc {
        ReplaceAll(u + v, p, r, fold);
        [u[0]] + ReplaceAll(u[1..] + v, p, r, fold);
        [u[0]] + (u[1..] + ReplaceAll(v, p, r, fold));
        ([u[0]] + u[1..]) + ReplaceAll(v, p, r, fold);
        { assert [u[0]] + u[1..] == u; }
        u + ReplaceAll(v, p, r, fold);
      }
    } else {
      assert u + v == v;
    }
  }

  /** An occurrence that follows a match-free prefix is replaced, and the text
      it is replaced by sees the matched characters in their own case. */
  lemma HighlightOne(u: string, m: string, v: string, p: string, b: string, a: string, fold: bool)
    requires |p| > 0 && NoStartChar(u, p, fold) && |m| == |p| && MatchesAt(m, 0, p, fold)
    ensures ReplaceAll(u + m + v, p, Wrap(b, a), fold)
         == u + b + m + a + ReplaceAll(v, p, Wrap(b, a), fold)
  {
    assert u + m + v == u + (m + v);
    ReplaceAfterFreePrefix(u, m + v, p, Wrap(b, a), fold);
    var s := m + v;
    assert MatchesAt(s, 0, p, fold) by {
      forall k | 0 <= k < |p| ensures CharEq(s[k], p[k], fold) {
        assert s[k] == m[k];
      }
    }
    assert s[..|p|] == m && s[|p|..] == v;
  }

  /** The number of backticks at the start of `s`. */
  function LeadingTicks(s: string): nat {
    if s != [] && s[0] == '`' then 1 + LeadingTicks(s[1..]) else 0
  }

  /** No three consecutive backticks. */
  predicate NoTripleTick(s: string) {
    forall i :: 0 <= i && i + 2 < |s| ==> !(s[i] == '`' && s[i + 1] == '`' && s[i + 2] == '`')
  }

  const Fence: string := "```"

  /** Removing all triple backticks leaves a short leading run untouched. */
  lemma {:induction false} RemoveFenceKeepsShortLead(s: string)
    requires LeadingTicks(s) < 3
    ensures LeadingTicks(ReplaceAll(s, Fence, Fixed([]), false)) == LeadingTicks(s)
    decreases |s|
  {
    var out := ReplaceAll(s, Fence, Fixed([]), false);
    if s == [] {
    } else if s[0] != '`' {
      assert !CharEq(s[0 + 0], Fence[0], false);
      assert !MatchesAt(s, 0, Fence, false);
      assert out[0] == s[0];
    } else {
      assert !MatchesAt(s, 0, Fence, false) by {
        assert Fence[0] == '`' && Fence[1] == '`' && Fence[2] == '`';
        if |s| >= 3 {
          if s[1] == '`' {
            assert LeadingTicks(s[1..]) == 1 + LeadingTicks(s[2..]);
            assert s[2] != '`';
          }
        }
      }
      assert out == "`" + ReplaceAll(s[1..], Fence, Fixed([]), false);
      RemoveFenceKeepsShortLead(s[1..]);
    }
  }

  /** After `replace("```", "")` no triple backtick remains. */
  lemma {:induction false} RemoveFenceLeavesNone(s: string)
    ensures NoTripleTick(ReplaceAll(s, Fence, Fixed([]), false))
    decreases |s|
  {
    var out := ReplaceAll(s, Fence, Fixed([]), false);
    if s == [] {
    } else if MatchesAt(s, 0, Fence, false) {
      RemoveFenceLeavesNone(s[3..]);
    } else {
      var rest := ReplaceAll(s[1..], Fence, Fixed([]), false);
      assert out == [s[0]] + rest;
      RemoveFenceLeavesNone(s[1..]);
      if s[0] == '`' {
        assert LeadingTicks(s[1..]) < 2 by {
          if |s| >= 3 && s[1] == '`' {
            assert s[2] != '`';
          }
        }
        RemoveFenceKeepsShortLead(s[1..]);
        assert LeadingTicks(rest) < 2;
        if |rest| >= 2 && rest[0] == '`' {
          assert LeadingTicks(rest) == 1 + LeadingTicks(rest[1..]);
          assert rest[1] != '`';
        }
      }
      forall i | 0 <= i && i + 2 < |out|
        ensures !(out[i] == '`' && out[i + 1] == '`' && out[i + 2] == '`')
      {
        if i > 0 {
          assert out[i] == rest[i - 1];
        }
      }
    }
  }

  lemma NoTripleTickHasNoFence(s: string)
    requires NoTripleTick(s)
    ensures !Occurs(s, Fence, false)
  {
    assert Fence == ['`', '`', '`'];
    forall i: nat ensures !MatchesAt(s, i, Fence, false) {
      if i + 2 < |s| {
        assert !(s[i] == '`' && s[i + 1] == '`' && s[i + 2] == '`');
        assert !CharEq(s[i + 0], Fence[0], false) || !CharEq(s[i + 1], Fence[1], false)
          || !CharEq(s[i + 2], Fence[2], false);
      }
    }
  }
}
