/**
 * The JavaScript string operations the handler and the page rely on:
 * global replacement of a literal pattern by the empty string, `trim`, and
 * the decimal rendering of an integer inside a template literal.
 */
module Strings {
  import opened Wrappers

  /** `pat` occurs in `s` starting at index `i`. */
  predicate OccursAt(s: string, pat: string, i: nat) {
    i + |pat| <= |s| && s[i..i + |pat|] == pat
  }

  /** `pat` occurs somewhere in `s`. */
  predicate Occurs(s: string, pat: string) {
    exists i: nat | i <= |s| :: OccursAt(s, pat, i)
  }

  /** An occurrence inside a slice of `s` is an occurrence in `s`. */
  lemma OccursInSlice(s: string, pat: string, lo: nat, hi: nat)
    requires lo <= hi <= |s|
    requires Occurs(s[lo..hi], pat)
    ensures Occurs(s, pat)
  {
    var t := s[lo..hi];
    var i: nat :| i <= |t| && OccursAt(t, pat, i);
    var inS, inT := s[lo + i..lo + i + |pat|], t[i..i + |pat|];
    assert forall k :: 0 <= k < |pat| ==> inS[k] == inT[k];
    assert OccursAt(s, pat, lo + i);
  }

  /** An occurrence in `[c] + rest` is at its first index or is one in `rest`. */
  lemma OccursCons(c: char, rest: string, pat: string)
    ensures Occurs([c] + rest, pat) ==> OccursAt([c] + rest, pat, 0) || Occurs(rest, pat)
  {
    var s := [c] + rest;
    if Occurs(s, pat) && !OccursAt(s, pat, 0) {
      var i: nat :| i <= |s| && OccursAt(s, pat, i);
      assert 1 <= i && i - 1 + |pat| <= |rest|;
      var inS, inRest := s[i..i + |pat|], rest[i - 1..i - 1 + |pat|];
      forall k | 0 <= k < |pat|
        ensures inS[k] == inRest[k]
      {
        assert inS[k] == s[i + k] == rest[i - 1 + k];
      }
      assert OccursAt(rest, pat, i - 1);
    }
  }

  /**
   * `s.replace(/pat/g, "")` for a pattern with no regular-expression
   * metacharacters: the scan goes left to right and deletes every match it
   * meets, resuming after the match, so matches never overlap.
   */
  function RemoveAll(s: string, pat: string): (r: string)
    requires |pat| > 0
    ensures |r| <= |s|
    decreases |s|
  {
    if |s| < |pat| then s
    else if s[..|pat|] == pat then RemoveAll(s[|pat|..], pat)
    else [s[0]] + RemoveAll(s[1..], pat)
  }

  /** Removal changes the text exactly when the pattern occurs in it. */
  lemma {:induction false} RemoveAllIdentity(s: string, pat: string)
    requires |pat| > 0
    ensures RemoveAll(s, pat) == s <==> !Occurs(s, pat)
    decreases |s|
  {
    if |s| < |pat| {
    } else if s[..|pat|] == pat {
      assert OccursAt(s, pat, 0);
      assert |RemoveAll(s[|pat|..], pat)| <= |s| - |pat|;
    } else {
      var tail := s[1..];
      var rest := RemoveAll(tail, pat);
      RemoveAllIdentity(tail, pat);
      assert !OccursAt(s, pat, 0);
      OccursTail(s, pat);
      assert RemoveAll(s, pat) == [s[0]] + rest;
      assert [s[0]] + rest == s <==> rest == tail by {
        if [s[0]] + rest == s {
          assert rest == ([s[0]] + rest)[1..];
        }
      }
    }
  }

  /** Past a first character where the pattern does not start, an occurrence is one in the tail. */
  lemma OccursTail(s: string, pat: string)
    requires |s| > 0 && !OccursAt(s, pat, 0)
    ensures Occurs(s, pat) <==> Occurs(s[1..], pat)
  {
    assert [s[0]] + s[1..] == s;
    OccursCons(s[0], s[1..], pat);
    if Occurs(s[1..], pat) {
      assert s[1..|s|] == s[1..];
      OccursInSlice(s, pat, 1, |s|);
    }
  }

  /**
   * The characters `String.prototype.trim` removes: the WhiteSpace and
   * LineTerminator code points of ECMA-262 (with the Unicode category Zs).
   */
  predicate IsWhitespace(c: char) {
    || c == '\t' || c == '\U{000B}' || c == '\U{000C}' || c == ' '
    || c == '\U{00A0}' || c == '\U{FEFF}' || c == '\U{1680}'
    || ('\U{2000}' <= c <= '\U{200A}')
    || c == '\U{202F}' || c == '\U{205F}' || c == '\U{3000}'
    || c == '\n' || c == '\r' || c == '\U{2028}' || c == '\U{2029}'
  }

  /** Neither end of `s` is whitespace. */
  predicate IsTrimmed(s: string) {
    s == [] || (!IsWhitespace(s[0]) && !IsWhitespace(s[|s| - 1]))
  }

  /** The index of the first non-whitespace character at or after `i`, or `|s|`. */
  function TextStart(s: string, i: nat): (lo: nat)
    requires i <= |s|
    ensures i <= lo <= |s|
    ensures forall k :: i <= k < lo ==> IsWhitespace(s[k])
    ensures lo == |s| || !IsWhitespace(s[lo])
    decreases |s| - i
  {
    if i < |s| && IsWhitespace(s[i]) then TextStart(s, i + 1) else i
  }

  /** The index just past the last non-whitespace character of `s[lo..hi]`, or `lo`. */
  function TextEnd(s: string, lo: nat, hi: nat): (e: nat)
    requires lo <= hi <= |s|
    ensures lo <= e <= hi
    ensures forall k :: e <= k < hi ==> IsWhitespace(s[k])
    ensures e == lo || !IsWhitespace(s[e - 1])
    decreases hi - lo
  {
    if lo < hi && IsWhitespace(s[hi - 1]) then TextEnd(s, lo, hi - 1) else hi
  }

  /** `s.trim()`: both ends stripped of whitespace; the result starts and ends with non-whitespace. */
  function Trim(s: string): (r: string)
    ensures |r| <= |s| && IsTrimmed(r)
  {
    var lo := TextStart(s, 0);
    var hi := TextEnd(s, lo, |s|);
    assert hi > lo ==> s[lo..hi][0] == s[lo] && s[lo..hi][hi - lo - 1] == s[hi - 1];
    s[lo..hi]
  }

  /**
   * The trimmed text is the slice of `s` that starts where the leading
   * whitespace ends, and only whitespace surrounds it.
   */
  lemma TrimIsSlice(s: string)
    ensures var lo, r := TextStart(s, 0), Trim(s);
            && lo + |r| <= |s| && r == s[lo..lo + |r|]
            && (forall i :: 0 <= i < lo ==> IsWhitespace(s[i]))
            && (forall i :: lo + |r| <= i < |s| ==> IsWhitespace(s[i]))
  {
  }

  /**
   * Any slice of `s` that is trimmed and has only whitespace around it is
   * the trimmed text: `trim` is determined by what it keeps and drops.
   */
  lemma TrimCharacterised(s: string, lo: nat, hi: nat)
    requires lo <= hi <= |s|
    requires forall k :: 0 <= k < lo ==> IsWhitespace(s[k])
    requires forall k :: hi <= k < |s| ==> IsWhitespace(s[k])
    requires IsTrimmed(s[lo..hi])
    ensures Trim(s) == s[lo..hi]
  {
    var start := TextStart(s, 0);
    if lo == hi {
      assert forall k :: 0 <= k < |s| ==> IsWhitespace(s[k]);
      assert start == |s|;
    } else {
      assert !IsWhitespace(s[lo]) && !IsWhitespace(s[hi - 1]) by {
        assert s[lo..hi][0] == s[lo];
        assert s[lo..hi][hi - lo - 1] == s[hi - 1];
      }
      assert start == lo;
      var end := TextEnd(s, start, |s|);
      assert end == hi;
    }
  }

  /** Trimming leaves a text unchanged exactly when it is already trimmed. */
  lemma TrimFixpoint(s: string)
    ensures Trim(s) == s <==> IsTrimmed(s)
  {
    if IsTrimmed(s) {
      assert s[0..|s|] == s;
      TrimCharacterised(s, 0, |s|);
    }
  }

  /** Trimming never creates an occurrence of a pattern. */
  lemma TrimKeepsAbsence(s: string, pat: string)
    requires !Occurs(s, pat)
    ensures !Occurs(Trim(s), pat)
  {
    var lo := TextStart(s, 0);
    var hi := TextEnd(s, lo, |s|);
    if Occurs(Trim(s), pat) {
      OccursInSlice(s, pat, lo, hi);
    }
  }

  /** The decimal digit for `d`. */
  function Digit(d: nat): (c: char)
    requires d < 10
    ensures '0' <= c <= '9' && (c - '0') as nat == d
  {
    (d + '0' as int) as char
  }

  /** Every character of `s` is a decimal digit. */
  predicate IsDigits(s: string) {
    forall i :: 0 <= i < |s| ==> '0' <= s[i] <= '9'
  }

  /** The value of a string of decimal digits. */
  function DigitsValue(s: string): nat
    requires IsDigits(s)
  {
    if s == [] then 0 else 10 * DigitsValue(s[..|s| - 1]) + (s[|s| - 1] - '0') as nat
  }

  /** `${n}` for a natural number: its decimal digits, without leading zeros. */
  function NatToString(n: nat): (r: string)
    ensures |r| > 0 && IsDigits(r)
    ensures r[0] == '0' ==> n == 0
    ensures n == 0 ==> r == "0"
    decreases n
  {
    if n < 10 then [Digit(n)] else NatToString(n / 10) + [Digit(n % 10)]
  }

  /** Reading the digits back gives the number that was rendered. */
  lemma {:induction false} NatToStringRoundTrip(n: nat)
    ensures DigitsValue(NatToString(n)) == n
    decreases n
  {
    var r := NatToString(n);
    if n >= 10 {
      NatToStringRoundTrip(n / 10);
      assert r[..|r| - 1] == NatToString(n / 10);
    }
  }

  /**
   * The value of an optionally signed, non-empty string of decimal digits;
   * `None` for any other text.
   */
  function IntValue(s: string): Option<int> {
    if |s| > 1 && s[0] == '-' && IsDigits(s[1..]) then Some(-(DigitsValue(s[1..]) as int))
    else if |s| > 0 && IsDigits(s) then Some(DigitsValue(s))
    else None
  }

  /**
   * `${n}` for an integer: a minus sign when negative, then the decimal
   * digits of its magnitude without a leading zero; "0" for zero.
   */
  function IntToString(n: int): (r: string)
    ensures |r| > 0
    ensures n < 0 <==> r[0] == '-'
    ensures var d := if n < 0 then r[1..] else r;
            |d| > 0 && IsDigits(d) && (d[0] == '0' ==> n == 0)
    ensures n == 0 ==> r == "0"
  {
    if n < 0 then
      var d := NatToString(-n);
      assert ("-" + d)[1..] == d;
      "-" + d
    else NatToString(n)
  }

  /** Reading a rendered integer back gives the integer. */
  lemma IntToStringRoundTrip(n: int)
    ensures IntValue(IntToString(n)) == Some(n)
  {
    if n < 0 {
      NegativeRoundTrip(-n);
    } else {
      var r := NatToString(n);
      assert IntToString(n) == r && IsDigits(r) && r[0] != '-';
      NatToStringRoundTrip(n);
    }
  }

  /** A minus sign before the digits of `m` reads back as `-m`. */
  lemma NegativeRoundTrip(m: nat)
    requires m > 0
    ensures IntValue("-" + NatToString(m)) == Some(-(m as int))
  {
    var digits := NatToString(m);
    var r := "-" + digits;
    assert |r| > 1 && r[0] == '-';
    assert r[1..] == digits;
    NatToStringRoundTrip(m);
  }

  /** The strings of `parts` occur in `s` one after another, without overlapping. */
  predicate AppearInOrder(s: string, parts: seq<string>)
    decreases |parts|
  {
    parts == [] || exists i: nat | i <= |s| :: OccursAt(s, parts[0], i) && AppearInOrder(s[i + |parts[0]|..], parts[1..])
  }

  /** `parts` appear in order in `s`, the first of them at index `i`. */
  lemma AppearInOrderAt(s: string, i: nat, parts: seq<string>)
    requires parts != [] && i <= |s| && OccursAt(s, parts[0], i)
    requires AppearInOrder(s[i + |parts[0]|..], parts[1..])
    ensures AppearInOrder(s, parts)
  {
  }

  /** An occurrence stays where it is when text is put after. */
  lemma OccursAtConcat(s: string, t: string, pat: string, i: nat)
    requires OccursAt(s, pat, i)
    ensures OccursAt(s + t, pat, i)
  {
    var inLong, inS := (s + t)[i..i + |pat|], s[i..i + |pat|];
    forall k | 0 <= k < |pat|
      ensures inLong[k] == inS[k]
    {
      assert inLong[k] == (s + t)[i + k] == s[i + k];
    }
  }

  /** An occurrence moves by the length of the text put in front. */
  lemma OccursAtPrefix(pre: string, s: string, pat: string, i: nat)
    requires OccursAt(s, pat, i)
    ensures OccursAt(pre + s, pat, |pre| + i)
  {
    var inLong, inS := (pre + s)[|pre| + i..|pre| + i + |pat|], s[i..i + |pat|];
    forall k | 0 <= k < |pat|
      ensures inLong[k] == inS[k]
    {
      assert inLong[k] == (pre + s)[|pre| + i + k] == s[i + k];
    }
  }

  /** Dropping a prefix of `s` from `s + t`. */
  lemma DropConcat(s: string, t: string, j: nat)
    requires j <= |s|
    ensures (s + t)[j..] == s[j..] + t
  {
    var l, r := (s + t)[j..], s[j..] + t;
    forall k | 0 <= k < |l|
      ensures l[k] == r[k]
    {
      if j + k < |s| {
        assert l[k] == s[j + k] == r[k];
      } else {
        assert l[k] == t[j + k - |s|] == r[k];
      }
    }
  }

  /** Text put in front does not disturb the order of the parts. */
  lemma {:induction false} AppearInOrderPrefix(pre: string, s: string, parts: seq<string>)
    requires AppearInOrder(s, parts)
    ensures AppearInOrder(pre + s, parts)
  {
    if parts != [] {
      var p := parts[0];
      var i: nat :| i <= |s| && OccursAt(s, p, i) && AppearInOrder(s[i + |p|..], parts[1..]);
      OccursAtPrefix(pre, s, p, i);
      assert (pre + s)[|pre| + i + |p|..] == s[i + |p|..];
      AppearInOrderAt(pre + s, |pre| + i, parts);
    }
  }

  /** Text put after does not disturb the order of the parts. */
  lemma {:induction false} AppearInOrderAppend(s: string, t: string, parts: seq<string>)
    requires AppearInOrder(s, parts)
    ensures AppearInOrder(s + t, parts)
    decreases |parts|
  {
    if parts != [] {
      var p := parts[0];
      var i: nat :| i <= |s| && OccursAt(s, p, i) && AppearInOrder(s[i + |p|..], parts[1..]);
      OccursAtConcat(s, t, p, i);
      AppearInOrderAppend(s[i + |p|..], t, parts[1..]);
      DropConcat(s, t, i + |p|);
      AppearInOrderAt(s + t, i, parts);
    }
  }

  /** A value put after a text joins its parts as the last one. */
  lemma {:induction false} AppearInOrderSnoc(s: string, v: string, parts: seq<string>)
    requires AppearInOrder(s, parts)
    ensures AppearInOrder(s + v, parts + [v])
    decreases |parts|
  {
    var q := parts + [v];
    if parts == [] {
      assert q == [v];
      assert (s + v)[|s|..|s| + |v|] == v;
      assert (s + v)[|s| + |v|..] == [];
      AppearInOrderAt(s + v, |s|, q);
    } else {
      var p := parts[0];
      var i: nat :| i <= |s| && OccursAt(s, p, i) && AppearInOrder(s[i + |p|..], parts[1..]);
      OccursAtConcat(s, v, p, i);
      AppearInOrderSnoc(s[i + |p|..], v, parts[1..]);
      DropConcat(s, v, i + |p|);
      assert q[0] == p && q[1..] == parts[1..] + [v];
      AppearInOrderAt(s + v, i, q);
    }
  }

  /** A value and then more text put after a text: the value joins its parts as the last one. */
  lemma AppearInOrderSnocAppend(s: string, v: string, t: string, parts: seq<string>)
    requires AppearInOrder(s, parts)
    ensures AppearInOrder(s + v + t, parts + [v])
  {
    AppearInOrderSnoc(s, v, parts);
    AppearInOrderAppend(s + v, t, parts + [v]);
  }

  /** Five values between six pieces of fixed text appear in order. */
  lemma FiveInOrder(l0: string, l1: string, l2: string, l3: string, l4: string, l5: string,
                    vs: seq<string>)
    requires |vs| == 5
    ensures AppearInOrder(l0 + vs[0] + l1 + vs[1] + l2 + vs[2] + l3 + vs[3] + l4 + vs[4] + l5, vs)
  {
    var parts: seq<string> := [];
    AppearInOrderSnocAppend(l0, vs[0], l1, parts);
    parts := parts + [vs[0]];
    AppearInOrderSnocAppend(l0 + vs[0] + l1, vs[1], l2, parts);
    parts := parts + [vs[1]];
    AppearInOrderSnocAppend(l0 + vs[0] + l1 + vs[1] + l2, vs[2], l3, parts);
    parts := parts + [vs[2]];
    AppearInOrderSnocAppend(l0 + vs[0] + l1 + vs[1] + l2 + vs[2] + l3, vs[3], l4, parts);
    parts := parts + [vs[3]];
    AppearInOrderSnocAppend(l0 + vs[0] + l1 + vs[1] + l2 + vs[2] + l3 + vs[3] + l4, vs[4], l5, parts);
    parts := parts + [vs[4]];
    assert parts == vs;
  }
}
