/**
 * The viewport rewrite run when a form input gains focus: the `content` of
 * the viewport meta tag is forced to `maximum-scale=1.0`, either by
 * replacing every `maximum-scale=<digits and dots>` already there or by
 * appending the setting.
 *
 * The regular expression `/maximum\-scale=[0-9\.]+/g` is spelled out as a
 * left-to-right scan that takes the longest run of digits and dots after
 * each occurrence of the prefix, as a global JavaScript replace does.
 */
module MobileOptimization {
  import opened Wrappers

  const ScalePrefix: string := "maximum-scale="
  const Forced: string := "maximum-scale=1.0"
  const Separator: string := ", "

  /** The class `[0-9\.]`. */
  predicate IsScaleChar(c: char)
  {
    '0' <= c <= '9' || c == '.'
  }

  /** The longest run of digits and dots at the start of `t` (the greedy `+`). */
  function ScaleRun(t: string): (n: nat)
    ensures n <= |t|
    ensures forall k :: 0 <= k < n ==> IsScaleChar(t[k])
    ensures n < |t| ==> !IsScaleChar(t[n])
  {
    if t == [] || !IsScaleChar(t[0]) then 0 else 1 + ScaleRun(t[1..])
  }

  /** The pattern matches at position `i`: the prefix, then at least one digit or dot. */
  predicate MatchAt(s: string, i: nat)
  {
    i + |ScalePrefix| < |s| && s[i..i + |ScalePrefix|] == ScalePrefix && IsScaleChar(s[i + |ScalePrefix|])
  }

  /** `re.test(content)`. */
  predicate HasMatch(s: string)
  {
    exists i :: 0 <= i < |s| && MatchAt(s, i)
  }

  /** `content.replace(re, 'maximum-scale=1.0')` with the global flag: every match, scanning left to right. */
  function ReplaceAll(s: string): string
    decreases |s|
  {
    if s == [] then []
    else if MatchAt(s, 0) then
      var tail := s[|ScalePrefix|..];
      Forced + ReplaceAll(tail[ScaleRun(tail)..])
    else [s[0]] + ReplaceAll(s[1..])
  }

  /**
   * The new `content`: an empty one is left alone, one holding a match has
   * every match replaced, any other gets `, maximum-scale=1.0` appended.
   */
  function Rewrite(content: string): (r: string)
    ensures r == [] <==> content == []
  {
    if content == [] then content
    else if HasMatch(content) then ReplaceAll(content)
    else content + Separator + Forced
  }

  /** The attribute after a focus event; a missing attribute stays missing. */
  function OnFocus(content: Option<string>): (r: Option<string>)
    ensures r.None? <==> content.None?
    ensures r.Some? ==> (r.value == [] <==> content.value == [])
  {
    match content
    case None => None
    case Some(c) => Some(Rewrite(c))
  }

  /** `Forced` occurs in `r` at position `j`. */
  predicate ForcedAt(r: string, j: nat)
  {
    j + |Forced| <= |r| && r[j..j + |Forced|] == Forced
  }

  predicate ContainsForced(r: string)
  {
    exists j :: 0 <= j < |r| && ForcedAt(r, j)
  }

  // ---------------------------------------------------------------- facts about the two strings

  lemma PrefixShape()
    ensures |ScalePrefix| == 14 && ScalePrefix[0] == 'm' && ScalePrefix[1] == 'a' && ScalePrefix[13] == '='
    ensures forall k :: 0 <= k < 13 ==> ScalePrefix[k] != '='
    ensures forall k :: 0 <= k < 14 ==> ScalePrefix[k] != ','
  {
  }

  lemma ForcedShape()
    ensures |Forced| == 17 && Forced[..14] == ScalePrefix && Forced[14..] == "1.0"
  {
  }

  /** Three steps of the greedy run over "1.0" followed by something that is not a digit or a dot. */
  lemma RunOverOnePointZero(x: string)
    requires x == [] || !IsScaleChar(x[0])
    ensures ScaleRun("1.0" + x) == 3
  {
    assert ("1.0" + x)[1..] == ".0" + x;
    assert (".0" + x)[1..] == "0" + x;
    assert ("0" + x)[1..] == x;
  }

  /** The replacement text is itself a match, covering exactly its own length. */
  lemma ForcedThenPlain(x: string)
    requires x == [] || !IsScaleChar(x[0])
    ensures ReplaceAll(Forced + x) == Forced + ReplaceAll(x)
  {
    var u := Forced + x;
    ForcedRunAtFront(x);
    ForcedMatches(u, 0);
    ForcedTail(x);
    assert u[|ScalePrefix|..][3..] == x;
  }

  // ---------------------------------------------------------------- matches under slicing

  /** Dropping the first character shifts every match one place to the left. */
  lemma ShiftMatch(s: string, i: nat)
    requires s != []
    ensures MatchAt(s, i + 1) <==> MatchAt(s[1..], i)
  {
    if i + 1 + |ScalePrefix| < |s| {
      assert s[i + 1..i + 1 + |ScalePrefix|] == s[1..][i..i + |ScalePrefix|];
    }
  }

  /** The first character of the rewritten text: the replacement's 'm' or the original character. */
  lemma FirstCharacter(s: string)
    requires s != []
    ensures ReplaceAll(s) != []
    ensures ReplaceAll(s)[0] == if MatchAt(s, 0) then 'm' else s[0]
  {
    ForcedShape();
  }

  /** Whether the pattern matches at the front depends on the first fifteen characters only. */
  lemma WindowDecides(u: string, v: string)
    requires |u| >= 15 && |v| >= 15 && u[..15] == v[..15]
    ensures MatchAt(u, 0) <==> MatchAt(v, 0)
  {
    assert u[..14] == u[..15][..14] && v[..14] == v[..15][..14];
    assert u[14] == u[..15][14] && v[14] == v[..15][14];
  }

  /**
   * The replacement text starting at position 1 to 14 spoils a match at the
   * front: the prefix has no border, its only '=' being its last character.
   */
  lemma ForcedSpoilsFront(w: string, v: string)
    requires 1 <= |w| <= 14
    ensures !MatchAt(w + Forced + v, 0)
  {
    PrefixShape();
    ForcedShape();
    var u := w + Forced + v;
    if |w| == 14 {
      assert u[14] == Forced[0] == 'm';
    } else {
      assert u[13] == Forced[13 - |w|] == ScalePrefix[13 - |w|];
      assert u[..14][13] != ScalePrefix[13];
    }
  }

  /** Replacing inside `t` never creates a match at the front of `w + t`. */
  lemma {:induction false} NoNewMatchAtFront(w: string, t: string)
    requires |w| >= 1 && !MatchAt(w + t, 0)
    ensures !MatchAt(w + ReplaceAll(t), 0)
    decreases |t|
  {
    if t == [] {
      assert w + t == w;
    } else if MatchAt(t, 0) {
      ReplacedMatchKeepsFrontClean(w, t);
    } else {
      var w' := w + [t[0]];
      assert w' + t[1..] == w + t;
      NoNewMatchAtFront(w', t[1..]);
      assert ReplaceAll(t) == [t[0]] + ReplaceAll(t[1..]);
      assert w + ReplaceAll(t) == w' + ReplaceAll(t[1..]);
    }
  }

  /** The step of the above where `t` itself starts with a match. */
  lemma ReplacedMatchKeepsFrontClean(w: string, t: string)
    requires |w| >= 1 && !MatchAt(w + t, 0) && MatchAt(t, 0)
    ensures !MatchAt(w + ReplaceAll(t), 0)
  {
    var tail := t[|ScalePrefix|..];
    var x := ReplaceAll(tail[ScaleRun(tail)..]);
    assert ReplaceAll(t) == Forced + x;
    if |w| >= 15 {
      assert (w + ReplaceAll(t))[..15] == w[..15] == (w + t)[..15];
      WindowDecides(w + ReplaceAll(t), w + t);
    } else {
      ForcedSpoilsFront(w, x);
      assert w + ReplaceAll(t) == w + Forced + x;
    }
  }

  /** Text in front of which nothing matches is copied unchanged. */
  lemma {:induction false} PlainPrefixKept(a: string, b: string)
    requires forall i :: 0 <= i < |a| ==> !MatchAt(a + b, i)
    ensures ReplaceAll(a + b) == a + ReplaceAll(b)
    decreases |a|
  {
    if a == [] {
      assert a + b == b;
    } else {
      var u := a + b;
      NoMatchAfterFirst(a, b);
      PlainPrefixKept(a[1..], b);
      CopyStep(a, b);
      calc {
        ReplaceAll(u);
        [a[0]] + ReplaceAll(a[1..] + b);
        [a[0]] + (a[1..] + ReplaceAll(b));
        { assert [a[0]] + a[1..] == a; }
        a + ReplaceAll(b);
      }
    }
  }

  /** Without a match at the front, the first character is copied. */
  lemma CopyStep(a: string, b: string)
    requires a != [] && !MatchAt(a + b, 0)
    ensures ReplaceAll(a + b) == [a[0]] + ReplaceAll(a[1..] + b)
  {
    assert (a + b)[1..] == a[1..] + b;
  }

  /** Dropping the first character keeps the rest of the front free of matches. */
  lemma NoMatchAfterFirst(a: string, b: string)
    requires a != []
    requires forall i :: 0 <= i < |a| ==> !MatchAt(a + b, i)
    ensures forall i :: 0 <= i < |a[1..]| ==> !MatchAt(a[1..] + b, i)
  {
    assert (a + b)[1..] == a[1..] + b;
    forall i | 0 <= i < |a[1..]|
      ensures !MatchAt(a[1..] + b, i)
    {
      ShiftMatch(a + b, i);
    }
  }

  // ---------------------------------------------------------------- the replacement

  /** Without a match the replacement changes nothing: `test` and `replace` agree. */
  lemma NoMatchKeepsText(s: string)
    requires !HasMatch(s)
    ensures ReplaceAll(s) == s
  {
    assert s + [] == s;
    PlainPrefixKept(s, []);
  }

  /** Replacing twice is replacing once. */
  lemma {:induction false} ReplaceAllIdempotent(s: string)
    ensures ReplaceAll(ReplaceAll(s)) == ReplaceAll(s)
    decreases |s|
  {
    if s == [] {
    } else if MatchAt(s, 0) {
      var tail := s[|ScalePrefix|..];
      var rest := tail[ScaleRun(tail)..];
      var x := ReplaceAll(rest);
      if rest != [] {
        assert rest[0] == tail[ScaleRun(tail)];
        FirstCharacter(rest);
      }
      ForcedThenPlain(x);
      ReplaceAllIdempotent(rest);
    } else {
      var y := ReplaceAll(s[1..]);
      assert [s[0]] + s[1..] == s;
      NoNewMatchAtFront([s[0]], s[1..]);
      assert ([s[0]] + y)[1..] == y;
      ReplaceAllIdempotent(s[1..]);
    }
  }

  /** The replacement text is a match wherever it occurs. */
  lemma ForcedMatches(r: string, j: nat)
    requires ForcedAt(r, j)
    ensures MatchAt(r, j)
  {
    ForcedShape();
    assert r[j..j + 14] == r[j..j + 17][..14];
    assert r[j + 14] == r[j..j + 17][14];
  }

  /** The forced setting at the front of a text. */
  lemma ForcedAtFront(x: string)
    ensures ForcedAt(Forced + x, 0)
  {
    assert (Forced + x)[..|Forced|] == Forced;
  }

  /** An occurrence moves one place right when a character is put in front. */
  lemma ForcedAtShift(c: char, y: string, j: nat)
    requires ForcedAt(y, j)
    ensures ForcedAt([c] + y, j + 1)
  {
    assert ([c] + y)[j + 1..j + 1 + |Forced|] == y[j..j + |Forced|];
  }

  /** A text with a match still holds the forced setting after the replacement. */
  lemma {:induction false} ReplacedContainsForced(s: string)
    requires HasMatch(s)
    ensures ContainsForced(ReplaceAll(s))
    decreases |s|
  {
    if MatchAt(s, 0) {
      var tail := s[|ScalePrefix|..];
      var x := ReplaceAll(tail[ScaleRun(tail)..]);
      assert ReplaceAll(s) == Forced + x;
      ForcedAtFront(x);
      assert 0 < |Forced + x|;
    } else {
      var i :| 0 <= i < |s| && MatchAt(s, i);
      ShiftMatch(s, i - 1);
      assert 0 <= i - 1 < |s[1..]| && MatchAt(s[1..], i - 1);
      ReplacedContainsForced(s[1..]);
      var y := ReplaceAll(s[1..]);
      var j :| 0 <= j < |y| && ForcedAt(y, j);
      ForcedAtShift(s[0], y, j);
      assert ReplaceAll(s) == [s[0]] + y;
      assert j + 1 < |[s[0]] + y|;
    }
  }

  /** Putting text in front moves matches, occurrences and what follows them by its length. */
  lemma ShiftBy(p: string, x: string, j: nat)
    ensures MatchAt(p + x, |p| + j) <==> MatchAt(x, j)
    ensures ForcedAt(p + x, |p| + j) <==> ForcedAt(x, j)
    ensures j + |ScalePrefix| <= |x| ==> (p + x)[|p| + j + |ScalePrefix|..] == x[j + |ScalePrefix|..]
  {
    if j + |ScalePrefix| <= |x| {
      assert (p + x)[|p| + j..|p| + j + |ScalePrefix|] == x[j..j + |ScalePrefix|];
    }
    if j + |Forced| <= |x| {
      assert (p + x)[|p| + j..|p| + j + |Forced|] == x[j..j + |Forced|];
    }
  }

  /** No match starts strictly inside the replacement text: only positions 0, 4 and 6 hold an 'm', and none is followed by 'a'. */
  lemma NoMatchInsideForced(x: string, j: nat)
    requires 1 <= j < |Forced|
    ensures !MatchAt(Forced + x, j)
  {
    PrefixShape();
    var u := Forced + x;
    if j + 14 < |u| {
      assert u[j..j + 14][0] == u[j] == Forced[j];
      assert u[j..j + 14][1] == u[j + 1];
      if j + 1 < |Forced| {
        assert u[j + 1] == Forced[j + 1];
      }
      assert Forced[j] != 'm' || u[j + 1] != 'a';
    }
  }

  /** The replaced match at the front: the forced setting followed by a run of exactly "1.0". */
  lemma ForcedRunAtFront(x: string)
    requires x == [] || !IsScaleChar(x[0])
    ensures ForcedAt(Forced + x, 0) && ScaleRun((Forced + x)[|ScalePrefix|..]) == 3
  {
    ForcedAtFront(x);
    ForcedTail(x);
    RunOverOnePointZero(x);
  }

  /** What follows the prefix in the replacement text. */
  lemma ForcedTail(x: string)
    ensures (Forced + x)[|ScalePrefix|..] == "1.0" + x
  {
    ForcedShape();
  }

  /**
   * The global flag: after the replacement every match is the forced
   * setting, with nothing of the old value left behind it.
   */
  lemma {:induction false} EveryMatchForced(s: string, j: nat)
    requires MatchAt(ReplaceAll(s), j)
    ensures ForcedAt(ReplaceAll(s), j)
    ensures ScaleRun(ReplaceAll(s)[j + |ScalePrefix|..]) == 3
    decreases |s|, 1
  {
    if s == [] {
    } else if MatchAt(s, 0) {
      EveryMatchForcedAfterMatch(s, j);
    } else {
      EveryMatchForcedAfterPlain(s, j);
    }
  }

  /** The rewritten rest after a replaced match does not start with a digit or a dot. */
  lemma RestStartsPlain(rest: string)
    requires rest == [] || !IsScaleChar(rest[0])
    ensures ReplaceAll(rest) == [] || !IsScaleChar(ReplaceAll(rest)[0])
  {
    if rest != [] {
      FirstCharacter(rest);
    }
  }

  /** The step where `s` starts with a match, which becomes the replacement text. */
  lemma {:induction false} EveryMatchForcedAfterMatch(s: string, j: nat)
    requires s != [] && MatchAt(s, 0) && MatchAt(ReplaceAll(s), j)
    ensures ForcedAt(ReplaceAll(s), j)
    ensures ScaleRun(ReplaceAll(s)[j + |ScalePrefix|..]) == 3
    decreases |s|, 0
  {
    var tail := s[|ScalePrefix|..];
    var rest := tail[ScaleRun(tail)..];
    var x := ReplaceAll(rest);
    assert ReplaceAll(s) == Forced + x;
    if j == 0 {
      RestStartsPlain(rest);
      ForcedRunAtFront(x);
    } else if j < |Forced| {
      NoMatchInsideForced(x, j);
    } else {
      ShiftBy(Forced, x, j - |Forced|);
      EveryMatchForced(rest, j - |Forced|);
    }
  }

  /** The step where the first character of `s` is copied. */
  lemma {:induction false} EveryMatchForcedAfterPlain(s: string, j: nat)
    requires s != [] && !MatchAt(s, 0) && MatchAt(ReplaceAll(s), j)
    ensures ForcedAt(ReplaceAll(s), j)
    ensures ScaleRun(ReplaceAll(s)[j + |ScalePrefix|..]) == 3
    decreases |s|, 0
  {
    var y := ReplaceAll(s[1..]);
    assert ReplaceAll(s) == [s[0]] + y;
    if j == 0 {
      assert [s[0]] + s[1..] == s;
      NoNewMatchAtFront([s[0]], s[1..]);
    } else {
      ShiftBy([s[0]], y, j - 1);
      EveryMatchForced(s[1..], j - 1);
    }
  }

  // ---------------------------------------------------------------- the appended case

  /** Appending to a text without a match creates no match before the appended setting. */
  lemma AppendedHasNoEarlyMatch(s: string, i: nat)
    requires !HasMatch(s) && i < |s| + |Separator|
    ensures !MatchAt(s + Separator + Forced, i)
  {
    PrefixShape();
    var r := s + Separator + Forced;
    assert r[|s|] == ',' && r[|s| + 1] == ' ';
    if i + 14 < |s| {
      assert r[i..i + 14] == s[i..i + 14];
      assert r[i + 14] == s[i + 14];
      assert !MatchAt(s, i);
    } else if i + 14 == |s| {
      assert r[i + 14] == ',';
    } else if i <= |s| {
      assert r[i..i + 14][|s| - i] == ',';
      assert ScalePrefix[|s| - i] != ',';
    } else {
      assert r[i..i + 14][0] == ' ';
    }
  }

  /** The replacement text is left as it is. */
  lemma ForcedIsFixed()
    ensures ReplaceAll(Forced) == Forced
  {
    ForcedThenPlain([]);
    assert Forced + [] == Forced;
  }

  /** After appending, the text holds a match and the replacement leaves it alone. */
  lemma AppendedIsFixed(s: string)
    requires !HasMatch(s)
    ensures HasMatch(s + Separator + Forced)
    ensures ReplaceAll(s + Separator + Forced) == s + Separator + Forced
  {
    var r := s + Separator + Forced;
    AppendedFrontClean(s);
    PlainPrefixKept(s + Separator, Forced);
    ForcedIsFixed();
    AppendedHoldsForced(s);
    ForcedMatches(r, |s| + 2);
  }

  /** No match starts in the content or the separator once the setting is appended. */
  lemma AppendedFrontClean(s: string)
    requires !HasMatch(s)
    ensures forall i :: 0 <= i < |s + Separator| ==> !MatchAt((s + Separator) + Forced, i)
  {
    assert s + Separator + Forced == (s + Separator) + Forced;
    forall i | 0 <= i < |s + Separator|
      ensures !MatchAt((s + Separator) + Forced, i)
    {
      AppendedHasNoEarlyMatch(s, i);
    }
  }

  /** The appended setting sits right after the separator. */
  lemma AppendedHoldsForced(s: string)
    ensures (s + Separator) + Forced == s + Separator + Forced
    ensures ForcedAt(s + Separator + Forced, |s| + 2)
  {
    var r := s + Separator + Forced;
    assert r[|s| + 2..|s| + 2 + |Forced|] == Forced;
  }

  // ---------------------------------------------------------------- the rewrite

  /** A non-empty content always ends up holding `maximum-scale=1.0`. */
  lemma RewriteForcesScale(content: string)
    requires content != []
    ensures ContainsForced(Rewrite(content))
  {
    if HasMatch(content) {
      ReplacedContainsForced(content);
    } else {
      var r := content + Separator + Forced;
      assert r[|content| + 2..|content| + 2 + |Forced|] == Forced;
      assert ForcedAt(r, |content| + 2);
    }
  }

  /** Every `maximum-scale=` setting in a rewritten non-empty content reads exactly `maximum-scale=1.0`. */
  lemma RewriteForcesEveryMatch(content: string, j: nat)
    requires content != [] && MatchAt(Rewrite(content), j)
    ensures ForcedAt(Rewrite(content), j)
    ensures ScaleRun(Rewrite(content)[j + |ScalePrefix|..]) == 3
  {
    if HasMatch(content) {
      EveryMatchForced(content, j);
    } else {
      AppendedIsFixed(content);
      EveryMatchForced(content + Separator + Forced, j);
    }
  }

  /** Rewriting twice is rewriting once, so repeated focus events leave the content stable. */
  lemma RewriteIdempotent(content: string)
    ensures Rewrite(Rewrite(content)) == Rewrite(content)
  {
    if content == [] {
    } else if HasMatch(content) {
      ReplacedContainsForced(content);
      var j :| 0 <= j < |ReplaceAll(content)| && ForcedAt(ReplaceAll(content), j);
      ForcedMatches(ReplaceAll(content), j);
      ReplaceAllIdempotent(content);
    } else {
      AppendedIsFixed(content);
    }
  }

  /** A second focus event writes back what the first one wrote. */
  lemma FocusTwiceIsFocusOnce(content: Option<string>)
    ensures OnFocus(OnFocus(content)) == OnFocus(content)
  {
    if content.Some? {
      RewriteIdempotent(content.value);
    }
  }
}
