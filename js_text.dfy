/**
 * The JavaScript string operations the application relies on, over Dafny's
 * `string` (a sequence of Unicode scalar values): whitespace as `trim` and the
 * regular-expression class `\s` see it, UTF-16 length, `split` on one
 * character, `join`, `startsWith`, global replacement of a literal pattern and
 * the decimal rendering of integral numbers.
 */
module JsText {

  /** ECMAScript WhiteSpace and LineTerminator code points: what `String.prototype.trim` strips and `\s` matches. */
  predicate IsSpace(c: char) {
    c == '\t' || c == '\n' || c == '\U{000B}' || c == '\U{000C}' || c == '\r' || c == ' ' ||
    c == '\U{00A0}' || c == '\U{1680}' || ('\U{2000}' <= c <= '\U{200A}') ||
    c == '\U{2028}' || c == '\U{2029}' || c == '\U{202F}' || c == '\U{205F}' ||
    c == '\U{3000}' || c == '\U{FEFF}'
  }

  predicate NoSpace(s: string) {
    forall i :: 0 <= i < |s| ==> !IsSpace(s[i])
  }

  /** Drops leading whitespace; the result is the longest suffix that does not start with whitespace. */
  function TrimStart(s: string): (r: string)
    ensures |r| <= |s| && r == s[|s| - |r|..]
    ensures r == [] || !IsSpace(r[0])
    ensures forall i :: 0 <= i < |s| - |r| ==> IsSpace(s[i])
  {
    if s != [] && IsSpace(s[0]) then TrimStart(s[1..]) else s
  }

  /** Drops trailing whitespace; the result is the longest prefix that does not end with whitespace. */
  function TrimEnd(s: string): (r: string)
    ensures |r| <= |s| && r == s[..|r|]
    ensures r == [] || !IsSpace(r[|r| - 1])
    ensures forall i :: |r| <= i < |s| ==> IsSpace(s[i])
  {
    if s != [] && IsSpace(s[|s| - 1]) then TrimEnd(s[..|s| - 1]) else s
  }

  /** `String.prototype.trim`. */
  function Trim(s: string): string {
    TrimEnd(TrimStart(s))
  }

  /** A trimmed string is empty exactly when the input is all whitespace. */
  lemma TrimEmptyIffAllSpace(s: string)
    ensures Trim(s) == [] <==> forall i :: 0 <= i < |s| ==> IsSpace(s[i])
  {
    var t := TrimStart(s);
    if Trim(s) == [] {
      assert t == [];
    } else {
      assert t != [] && !IsSpace(t[0]);
      assert s[|s| - |t|] == t[0];
    }
  }

  /** A string that neither starts nor ends with whitespace is its own trim. */
  lemma TrimUnchanged(s: string)
    requires s != [] && !IsSpace(s[0]) && !IsSpace(s[|s| - 1])
    ensures Trim(s) == s
  {
    assert TrimStart(s) == s;
  }

  /** Number of UTF-16 code units of one character: two for a character outside the Basic Multilingual Plane. */
  function UnitCount(c: char): nat {
    if c as int < 0x10000 then 1 else 2
  }

  /** UTF-16 encoding: the values `charCodeAt` returns, in order. */
  function CodeUnits(s: string): (r: seq<int>)
    ensures |r| >= |s|
    ensures forall i :: 0 <= i < |r| ==> 0 <= r[i] < 0x10000
  {
    if s == [] then []
    else
      var c := s[0] as int;
      var head := if c < 0x10000 then [c] else [0xD800 + (c - 0x10000) / 0x400, 0xDC00 + (c - 0x10000) % 0x400];
      head + CodeUnits(s[1..])
  }

  /** `String.prototype.length`: the number of UTF-16 code units. */
  function JsLength(s: string): nat {
    |CodeUnits(s)|
  }

  lemma {:induction false} JsLengthAppend(a: string, b: string)
    ensures CodeUnits(a + b) == CodeUnits(a) + CodeUnits(b)
    ensures JsLength(a + b) == JsLength(a) + JsLength(b)
  {
    if a == [] {
      assert a + b == b;
    } else {
      assert (a + b)[1..] == a[1..] + b;
      JsLengthAppend(a[1..], b);
    }
  }

  /** A character of the Basic Multilingual Plane is one code unit whose value is the code point. */
  lemma CodeUnitsBmp(s: string)
    requires forall i :: 0 <= i < |s| ==> s[i] as int < 0x10000
    ensures |CodeUnits(s)| == |s|
    ensures forall i :: 0 <= i < |s| ==> CodeUnits(s)[i] == s[i] as int
  {
    if s != [] {
      CodeUnitsBmp(s[1..]);
    }
  }

  function StartsWith(s: string, prefix: string): bool {
    |prefix| <= |s| && s[..|prefix|] == prefix
  }

  function EndsWith(s: string, suffix: string): bool {
    |suffix| <= |s| && s[|s| - |suffix|..] == suffix
  }

  predicate OccursAt(p: string, s: string, i: int) {
    0 <= i <= |s| - |p| && s[i..i + |p|] == p
  }

  /** `s.includes(p)` for strings. */
  predicate IsInfix(p: string, s: string) {
    exists i :: 0 <= i <= |s| && OccursAt(p, s, i)
  }

  lemma InfixOfConcat(a: string, p: string, b: string)
    ensures IsInfix(p, a + p + b)
  {
    var s := a + p + b;
    assert s[|a|..|a| + |p|] == p;
    assert OccursAt(p, s, |a|);
  }

  /** `s.split(sep)` for a one-character separator: always at least one piece. */
  function Split(s: string, sep: char): (r: seq<string>)
    ensures |r| >= 1
    decreases |s|
  {
    if s == [] then [[]]
    else
      var rest := Split(s[1..], sep);
      if s[0] == sep then [[]] + rest else [[s[0]] + rest[0]] + rest[1..]
  }

  /** `xs.join(sep)`. */
  function Join(xs: seq<string>, sep: string): string {
    if |xs| == 0 then []
    else if |xs| == 1 then xs[0]
    else xs[0] + sep + Join(xs[1..], sep)
  }

  /** No piece of a split holds the separator. */
  lemma {:induction false} SplitPiecesAvoidSeparator(s: string, sep: char)
    ensures forall k, i :: 0 <= k < |Split(s, sep)| && 0 <= i < |Split(s, sep)[k]| ==> Split(s, sep)[k][i] != sep
  {
    if s != [] {
      SplitPiecesAvoidSeparator(s[1..], sep);
    }
  }

  /** Joining the pieces of a split with the same separator gives back the string. */
  lemma {:induction false} JoinSplit(s: string, sep: char)
    ensures Join(Split(s, sep), [sep]) == s
  {
    if s != [] {
      var rest := Split(s[1..], sep);
      JoinSplit(s[1..], sep);
      if s[0] == sep {
        assert Split(s, sep) == [[]] + rest;
        assert Join([[]] + rest, [sep]) == [] + [sep] + Join(rest, [sep]);
      } else {
        var xs := Split(s, sep);
        assert xs == [[s[0]] + rest[0]] + rest[1..];
        if |rest| == 1 {
          assert Join(xs, [sep]) == [s[0]] + rest[0];
        } else {
          assert Join(rest, [sep]) == rest[0] + [sep] + Join(rest[1..], [sep]);
          assert xs[1..] == rest[1..];
          assert Join(xs, [sep]) == [s[0]] + rest[0] + [sep] + Join(rest[1..], [sep]);
        }
      }
    }
  }

  /** Splitting a join of separator-free pieces gives back the pieces. */
  lemma {:induction false} SplitJoin(xs: seq<string>, sep: char)
    requires |xs| >= 1
    requires forall k, i :: 0 <= k < |xs| && 0 <= i < |xs[k]| ==> xs[k][i] != sep
    ensures Split(Join(xs, [sep]), sep) == xs
  {
    if |xs| == 1 {
      SplitWord(xs[0], [], sep);
      assert xs[0] + [] == xs[0];
      assert Split([], sep) == [[]];
      assert [xs[0] + []] == xs;
    } else {
      SplitJoin(xs[1..], sep);
      var tail := Join(xs[1..], [sep]);
      assert Join(xs, [sep]) == xs[0] + ([sep] + tail);
      SplitWord(xs[0], [sep] + tail, sep);
      var st := Split([sep] + tail, sep);
      assert st == [[]] + Split(tail, sep) by {
        assert ([sep] + tail)[1..] == tail;
      }
      assert st[0] == [] && st[1..] == xs[1..];
      assert xs[0] + st[0] == xs[0];
      assert [xs[0]] + xs[1..] == xs;
    }
  }

  /** A separator-free word in front of a string is glued to the first piece. */
  lemma {:induction false} SplitWord(w: string, t: string, sep: char)
    requires forall i :: 0 <= i < |w| ==> w[i] != sep
    ensures Split(w + t, sep) == [w + Split(t, sep)[0]] + Split(t, sep)[1..]
    decreases |w|
  {
    if w != [] {
      assert (w + t)[1..] == w[1..] + t;
      SplitWord(w[1..], t, sep);
      assert [w[0]] + (w[1..] + Split(t, sep)[0]) == w + Split(t, sep)[0];
    } else {
      assert w + t == t;
      assert w + Split(t, sep)[0] == Split(t, sep)[0];
      assert [Split(t, sep)[0]] + Split(t, sep)[1..] == Split(t, sep);
    }
  }

  /**
   * The text that replaces one match when `String.prototype.replace` is given
   * a replacement string and a pattern without capture groups: `$$` is a
   * dollar sign, `$&` the match, `` $` `` the text before the match, `$'` the
   * text after it, and any other `$` stands for itself.
   */
  function Substitution(rep: string, matched: string, before: string, after: string): string
    decreases |rep|
  {
    if rep == [] then []
    else if rep[0] == '$' && |rep| >= 2 && rep[1] in "$&`'" then
      (if rep[1] == '$' then "$" else if rep[1] == '&' then matched else if rep[1] == '`' then before else after) +
      Substitution(rep[2..], matched, before, after)
    else [rep[0]] + Substitution(rep[1..], matched, before, after)
  }

  /** A replacement without a dollar sign is inserted as it is. */
  lemma {:induction false} SubstitutionPlain(rep: string, matched: string, before: string, after: string)
    requires '$' !in rep
    ensures Substitution(rep, matched, before, after) == rep
    decreases |rep|
  {
    if rep != [] {
      assert rep[0] != '$';
      assert '$' !in rep[1..] by {
        forall k | 0 <= k < |rep| - 1 ensures rep[1..][k] != '$' {
          assert rep[1..][k] == rep[k + 1];
        }
      }
      SubstitutionPlain(rep[1..], matched, before, after);
    }
  }

  /**
   * `s.replace(/pat/g, rep)` from position `i` of `s` on, for a pattern that
   * matches only the literal text `pat`: leftmost matches first, without
   * overlaps, each replaced by its `Substitution`, which sees the whole of
   * `s` around the match.
   */
  function ReplaceFrom(s: string, i: nat, pat: string, rep: string): string
    requires pat != [] && i <= |s|
    decreases |s| - i
  {
    if |s| - i < |pat| then s[i..]
    else if s[i..i + |pat|] == pat then
      Substitution(rep, pat, s[..i], s[i + |pat|..]) + ReplaceFrom(s, i + |pat|, pat, rep)
    else [s[i]] + ReplaceFrom(s, i + 1, pat, rep)
  }

  /** `s.replace(/pat/g, rep)` for a pattern that matches only the literal text `pat`. */
  function ReplaceAll(s: string, pat: string, rep: string): string
    requires pat != []
  {
    ReplaceFrom(s, 0, pat, rep)
  }

  /** In a string that starts with the pattern, that occurrence is replaced first, with nothing before it. */
  lemma ReplaceAllLeading(pat: string, t: string, rep: string)
    requires pat != []
    ensures ReplaceAll(pat + t, pat, rep) == Substitution(rep, pat, "", t) + ReplaceFrom(pat + t, |pat|, pat, rep)
  {
    var s := pat + t;
    assert s[0..|pat|] == pat;
    assert s[..0] == "";
    assert s[|pat|..] == t;
  }

  function DigitChar(d: nat): char
    requires d < 10
  {
    ['0', '1', '2', '3', '4', '5', '6', '7', '8', '9'][d]
  }

  predicate IsDigit(c: char) {
    '0' <= c <= '9'
  }

  /** Decimal rendering of a natural number, without leading zeros. */
  function NatToString(n: nat): (r: string)
    ensures |r| >= 1
    ensures forall i :: 0 <= i < |r| ==> IsDigit(r[i])
  {
    if n < 10 then [DigitChar(n)] else NatToString(n / 10) + [DigitChar(n % 10)]
  }

  /** `String(n)` for an integral number. */
  function IntToString(n: int): string {
    if n < 0 then "-" + NatToString(-n) else NatToString(n)
  }

  /** The KELVIN SIGN, the one non-ASCII character whose lower case is ASCII ('k'). */
  const Kelvin: char := '\U{212A}'

  /**
   * `toLowerCase` of one character whose lower case is ASCII: 'A'..'Z' and
   * the KELVIN SIGN. Every other character is kept; its lower case, like
   * itself, holds a non-ASCII character, so a comparison of a lowered text
   * with an ASCII name comes out as it does in JavaScript.
   */
  function LowerChar(c: char): char {
    if 'A' <= c <= 'Z' then (c as int + 32) as char else if c == Kelvin then 'k' else c
  }

  /** `toLowerCase`, character by character. */
  function LowerCase(s: string): (r: string)
    ensures |r| == |s|
  {
    if s == [] then [] else [LowerChar(s[0])] + LowerCase(s[1..])
  }

  /** Each character of the lowered text is its own character lowered. */
  lemma {:induction false} LowerCaseAt(s: string)
    ensures forall i :: 0 <= i < |s| ==> LowerCase(s)[i] == LowerChar(s[i])
  {
    if s != [] {
      LowerCaseAt(s[1..]);
      assert forall i :: 1 <= i < |s| ==> LowerCase(s)[i] == LowerCase(s[1..])[i - 1];
    }
  }

  /** A lowered character is ASCII exactly when it was ASCII or the KELVIN SIGN. */
  lemma LowerCaseAscii(s: string)
    ensures forall i :: 0 <= i < |s| ==>
      (LowerCase(s)[i] < 128 as char <==> s[i] < 128 as char || s[i] == Kelvin)
  {
    LowerCaseAt(s);
  }

  /** Every element, in order, with repeated occurrences of `x` removed: `xs.filter(v => v !== x)`. */
  function RemoveAll(xs: seq<string>, x: string): (r: seq<string>)
    ensures x !in r
    ensures forall y :: y in r <==> y in xs && y != x
    ensures |r| <= |xs|
    ensures x in xs ==> |r| < |xs|
  {
    if xs == [] then []
    else if xs[0] == x then RemoveAll(xs[1..], x)
    else [xs[0]] + RemoveAll(xs[1..], x)
  }
}
