// The JavaScript string operations the app's logic is built from, on
// strings as sequences of characters.
module JsString {
  import opened Wrappers

  /** The characters `String.prototype.trim`, `parseInt` and the regular
      expression class `\s` treat as white space: ECMAScript's WhiteSpace and
      LineTerminator productions. */
  predicate IsSpace(c: char)
  {
    c == ' ' || c == '\t' || c == '\n' || c == '\r' || c == '\U{000B}' || c == '\U{000C}'
    || c == '\U{00A0}' || c == '\U{1680}' || ('\U{2000}' <= c <= '\U{200A}')
    || c == '\U{2028}' || c == '\U{2029}' || c == '\U{202F}' || c == '\U{205F}'
    || c == '\U{3000}' || c == '\U{FEFF}'
  }

  predicate AllSpace(s: string)
  {
    forall i :: 0 <= i < |s| ==> IsSpace(s[i])
  }

  predicate IsDigit(c: char)
  {
    '0' <= c <= '9'
  }

  function DigitValue(c: char): (d: nat)
    requires IsDigit(c)
    ensures d < 10
  {
    c as int - '0' as int
  }

  function DigitChar(d: nat): (c: char)
    requires d < 10
    ensures IsDigit(c) && DigitValue(c) == d
  {
    ('0' as int + d) as char
  }

  // ---------------------------------------------------------------- case

  /** `toLowerCase` on the ASCII letters; every other character is kept. */
  function LowerChar(c: char): char
  {
    if 'A' <= c <= 'Z' then (c as int + 32) as char else c
  }

  function UpperChar(c: char): char
  {
    if 'a' <= c <= 'z' then (c as int - 32) as char else c
  }

  function ToLower(s: string): (r: string)
    ensures |r| == |s| && forall i :: 0 <= i < |s| ==> r[i] == LowerChar(s[i])
  {
    seq(|s|, i requires 0 <= i < |s| => LowerChar(s[i]))
  }

  function ToUpper(s: string): (r: string)
    ensures |r| == |s| && forall i :: 0 <= i < |s| ==> r[i] == UpperChar(s[i])
  {
    seq(|s|, i requires 0 <= i < |s| => UpperChar(s[i]))
  }

  /** Lower-casing forgets an earlier change of case. */
  lemma LowerOfUpper(s: string)
    ensures ToLower(ToUpper(s)) == ToLower(s)
    ensures ToLower(ToLower(s)) == ToLower(s)
  {
  }

  lemma CaseKeepsSpace(c: char)
    ensures IsSpace(LowerChar(c)) == IsSpace(c)
  {
  }

  // ---------------------------------------------------------------- trim

  /** `String.prototype.trimStart`. */
  function TrimStart(s: string): string
  {
    if s != [] && IsSpace(s[0]) then TrimStart(s[1..]) else s
  }

  /** `String.prototype.trimEnd`. */
  function TrimEnd(s: string): string
  {
    if s != [] && IsSpace(s[|s| - 1]) then TrimEnd(s[..|s| - 1]) else s
  }

  /** trimStart removes white space from the start only, and all of it. */
  lemma {:induction false} TrimStartShape(s: string)
    ensures var r := TrimStart(s);
            |r| <= |s| && r == s[|s| - |r|..] && AllSpace(s[..|s| - |r|])
            && (r == [] || !IsSpace(r[0]))
    decreases |s|
  {
    if s != [] && IsSpace(s[0]) {
      TrimStartShape(s[1..]);
      var r := TrimStart(s[1..]);
      assert s[1..][..|s| - 1 - |r|] == s[1..|s| - |r|];
      assert s[..|s| - |r|] == [s[0]] + s[1..|s| - |r|];
    } else {
      assert s[..0] == [];
    }
  }

  /** trimEnd removes white space from the end only, and all of it. */
  lemma {:induction false} TrimEndShape(s: string)
    ensures var r := TrimEnd(s);
            |r| <= |s| && r == s[..|r|] && AllSpace(s[|r|..])
            && (r == [] || !IsSpace(r[|r| - 1]))
    decreases |s|
  {
    if s != [] && IsSpace(s[|s| - 1]) {
      TrimEndShape(s[..|s| - 1]);
      var r := TrimEnd(s[..|s| - 1]);
      assert s[..|s| - 1][|r|..] == s[|r|..|s| - 1];
      assert s[|r|..] == s[|r|..|s| - 1] + [s[|s| - 1]];
    } else {
      assert s[|s|..] == [];
    }
  }

  /** `String.prototype.trim`. */
  function Trim(s: string): string
  {
    TrimEnd(TrimStart(s))
  }

  lemma {:induction false} TrimStartSkipsSpace(p: string, s: string)
    requires AllSpace(p)
    ensures TrimStart(p + s) == TrimStart(s)
    decreases |p|
  {
    if p != [] {
      assert (p + s)[0] == p[0];
      assert (p + s)[1..] == p[1..] + s;
      assert TrimStart(p + s) == TrimStart(p[1..] + s);
      TrimStartSkipsSpace(p[1..], s);
    } else {
      assert p + s == s;
    }
  }

  lemma {:induction false} TrimEndSkipsSpace(s: string, q: string)
    requires AllSpace(q)
    ensures TrimEnd(s + q) == TrimEnd(s)
    decreases |q|
  {
    if q != [] {
      assert (s + q)[|s + q| - 1] == q[|q| - 1];
      assert (s + q)[..|s + q| - 1] == s + q[..|q| - 1];
      assert TrimEnd(s + q) == TrimEnd(s + q[..|q| - 1]);
      TrimEndSkipsSpace(s, q[..|q| - 1]);
    } else {
      assert s + q == s;
    }
  }

  lemma {:induction false} TrimStartOfAllSpace(s: string)
    requires AllSpace(s)
    ensures TrimStart(s) == []
    decreases |s|
  {
    if s != [] {
      TrimStartOfAllSpace(s[1..]);
    }
  }

  lemma {:induction false} TrimStartAppend(s: string, q: string)
    requires !AllSpace(s)
    ensures TrimStart(s + q) == TrimStart(s) + q
    decreases |s|
  {
    if IsSpace(s[0]) {
      assert (s + q)[1..] == s[1..] + q;
      TrimStartAppend(s[1..], q);
    }
  }

  /** Surrounding white space never matters to `trim`. */
  lemma TrimIgnoresPadding(p: string, s: string, q: string)
    requires AllSpace(p) && AllSpace(q)
    ensures Trim(p + s + q) == Trim(s)
  {
    assert p + s + q == p + (s + q);
    TrimStartSkipsSpace(p, s + q);
    if AllSpace(s) {
      assert AllSpace(s + q);
      TrimStartOfAllSpace(s + q);
      TrimStartOfAllSpace(s);
    } else {
      TrimStartAppend(s, q);
      TrimEndSkipsSpace(TrimStart(s), q);
    }
  }

  /** `!s.trim()`: the trimmed text is empty exactly when all of it is space. */
  lemma {:induction false} TrimEmptyIffAllSpace(s: string)
    ensures Trim(s) == [] <==> AllSpace(s)
  {
    if AllSpace(s) {
      TrimStartOfAllSpace(s);
    } else {
      var t := TrimStart(s);
      TrimStartShape(s);
      TrimEndShape(t);
      assert t != [] by {
        assert s[..|s|] == s;
      }
      assert TrimEnd(t) != [] by {
        assert t[0..] == t;
      }
    }
  }

  // ---------------------------------------------------------------- search

  function StartsWith(s: string, prefix: string): bool
  {
    |prefix| <= |s| && s[..|prefix|] == prefix
  }

  /** part occurs in s at position i. */
  predicate OccursAt(s: string, part: string, i: int)
  {
    0 <= i <= |s| - |part| && s[i..i + |part|] == part
  }

  /** `String.prototype.includes`. */
  function Contains(s: string, part: string): (b: bool)
    ensures b <==> exists i :: OccursAt(s, part, i)
    decreases |s|
  {
    if StartsWith(s, part) then
      assert OccursAt(s, part, 0);
      true
    else if s == [] then false
    else
      var r := Contains(s[1..], part);
      assert forall i :: OccursAt(s[1..], part, i) ==> OccursAt(s, part, i + 1);
      assert forall i :: OccursAt(s, part, i) ==> i == 0 || OccursAt(s[1..], part, i - 1);
      r
  }

  /** `String.prototype.substring(start, end)`: both ends clamped to the
      string, swapped when given in the wrong order. */
  function Substring(s: string, start: nat, end: nat): (r: string)
    ensures var lo := if start <= end then start else end;
            var hi := if start <= end then end else start;
            var a := if lo <= |s| then lo else |s|;
            var b := if hi <= |s| then hi else |s|;
            r == s[a..b]
  {
    var lo := if start <= end then start else end;
    var hi := if start <= end then end else start;
    s[if lo <= |s| then lo else |s| .. if hi <= |s| then hi else |s|]
  }

  /** `slice(0, n)` — the first n characters, or all of a shorter string. */
  function Prefix(s: string, n: nat): (r: string)
    ensures |r| == (if n <= |s| then n else |s|) && StartsWith(s, r)
  {
    if n <= |s| then s[..n] else s
  }

  // ---------------------------------------------------------------- split

  /** `String.prototype.split(sep)` for a one-character separator. */
  function Split(s: string, sep: char): (parts: seq<string>)
    ensures |parts| >= 1
    decreases |s|
  {
    if s == [] then [""]
    else
      var rest := Split(s[1..], sep);
      if s[0] == sep then [""] + rest
      else [[s[0]] + rest[0]] + rest[1..]
  }

  /** No piece holds the separator. */
  lemma {:induction false} SplitPiecesFree(s: string, sep: char)
    ensures forall k :: 0 <= k < |Split(s, sep)| ==> sep !in Split(s, sep)[k]
    decreases |s|
  {
    if s != [] {
      SplitPiecesFree(s[1..], sep);
      var rest := Split(s[1..], sep);
      if s[0] != sep {
        assert sep !in rest[0];
        assert Split(s, sep)[0] == [s[0]] + rest[0];
        assert forall k :: 1 <= k < |Split(s, sep)| ==> Split(s, sep)[k] == rest[k];
      }
    }
  }

  /** `Array.prototype.join(sep)`. */
  function Join(parts: seq<string>, sep: char): string
    requires |parts| >= 1
    decreases |parts|
  {
    if |parts| == 1 then parts[0] else parts[0] + [sep] + Join(parts[1..], sep)
  }

  /** Splitting loses nothing: joining the pieces back gives the string. */
  lemma {:induction false} JoinSplit(s: string, sep: char)
    ensures Join(Split(s, sep), sep) == s
    decreases |s|
  {
    if s != [] {
      JoinSplit(s[1..], sep);
      var rest := Split(s[1..], sep);
      if s[0] == sep {
        assert ([""] + rest)[1..] == rest;
      } else {
        var parts := [[s[0]] + rest[0]] + rest[1..];
        if |rest| == 1 {
          assert parts == [[s[0]] + rest[0]];
        } else {
          assert parts[1..] == rest[1..];
          assert Join(rest, sep) == rest[0] + [sep] + Join(rest[1..], sep);
        }
      }
    }
  }

  /** The text before the first `sep`: `s.split(sep)[0]`. */
  lemma {:induction false} SplitFirst(s: string, sep: char)
    ensures StartsWith(s, Split(s, sep)[0])
    ensures |Split(s, sep)[0]| < |s| ==> s[|Split(s, sep)[0]|] == sep
    decreases |s|
  {
    if s != [] && s[0] != sep {
      SplitFirst(s[1..], sep);
    }
  }

  // ---------------------------------------------------------------- numbers

  function NatToString(n: nat): (s: string)
    ensures |s| >= 1 && forall i :: 0 <= i < |s| ==> IsDigit(s[i])
    decreases n
  {
    if n < 10 then [DigitChar(n)] else NatToString(n / 10) + [DigitChar(n % 10)]
  }

  /** The longest run of digits at the start of s. */
  function DigitPrefix(s: string): (d: string)
    ensures StartsWith(s, d)
    ensures forall i :: 0 <= i < |d| ==> IsDigit(d[i])
    ensures |d| < |s| ==> !IsDigit(s[|d|])
    decreases |s|
  {
    if s != [] && IsDigit(s[0]) then [s[0]] + DigitPrefix(s[1..]) else []
  }

  function DigitsValue(d: string): nat
    requires forall i :: 0 <= i < |d| ==> IsDigit(d[i])
    decreases |d|
  {
    if d == [] then 0 else DigitsValue(d[..|d| - 1]) * 10 + DigitValue(d[|d| - 1])
  }

  /** `parseInt(s, 10)`: leading white space and one sign are skipped, then the
      longest run of digits is read; `None` stands for `NaN` (no digits). */
  function ParseInt(s: string): Option<int>
  {
    ParseSigned(TrimStart(s))
  }

  /** `parseInt` after the white space: an optional sign, then the digits. */
  function ParseSigned(t: string): Option<int>
  {
    if t != [] && t[0] == '-' then
      var v := ReadDigits(t[1..]);
      if v.Some? then Some(-(v.value as int)) else None
    else if t != [] && t[0] == '+' then
      var v := ReadDigits(t[1..]);
      if v.Some? then Some(v.value as int) else None
    else
      var v := ReadDigits(t);
      if v.Some? then Some(v.value as int) else None
  }

  /** The value of the longest run of digits at the start, if there is one. */
  function ReadDigits(t: string): Option<nat>
  {
    var d := DigitPrefix(t);
    if d == [] then None else Some(DigitsValue(d))
  }

  lemma {:induction false} DigitsOfNat(n: nat)
    ensures DigitsValue(NatToString(n)) == n
    decreases n
  {
    if n >= 10 {
      DigitsOfNat(n / 10);
      var s := NatToString(n / 10) + [DigitChar(n % 10)];
      assert s[..|s| - 1] == NatToString(n / 10);
    }
  }

  lemma {:induction false} DigitPrefixOfDigits(s: string)
    requires forall i :: 0 <= i < |s| ==> IsDigit(s[i])
    ensures DigitPrefix(s) == s
    decreases |s|
  {
    if s != [] {
      DigitPrefixOfDigits(s[1..]);
    }
  }

  /** `parseInt` reads back exactly what `String(n)` writes. */
  lemma ParseIntOfNat(n: nat)
    ensures ParseInt(NatToString(n)) == Some(n)
  {
    ParseIntDigitsThen(NatToString(n), []);
    assert NatToString(n) + [] == NatToString(n);
    DigitsOfNat(n);
  }

  /** Text after the digits does not change what `parseInt` reads. */
  lemma ParseIntIgnoresTail(n: nat, tail: string)
    requires tail == [] || !IsDigit(tail[0])
    ensures ParseInt(NatToString(n) + tail) == Some(n)
  {
    ParseIntDigitsThen(NatToString(n), tail);
    DigitsOfNat(n);
  }

  lemma DigitNotSpace(c: char)
    requires IsDigit(c)
    ensures !IsSpace(c) && c != '-' && c != '+'
  {
  }

  lemma TrimStartNoSpace(s: string)
    requires s != [] && !IsSpace(s[0])
    ensures TrimStart(s) == s
  {
  }

  lemma TrimEndNoSpace(s: string)
    requires s != [] && !IsSpace(s[|s| - 1])
    ensures TrimEnd(s) == s
  {
  }

  /** A run of digits followed by a non-digit reads as the run's value. */
  lemma ParseIntDigitsThen(d: string, tail: string)
    requires d != [] && forall i :: 0 <= i < |d| ==> IsDigit(d[i])
    requires tail == [] || !IsDigit(tail[0])
    ensures ParseInt(d + tail) == Some(DigitsValue(d))
  {
    var s := d + tail;
    assert s[0] == d[0];
    DigitNotSpace(s[0]);
    TrimStartNoSpace(s);
    DigitPrefixAppend(d, tail);
    UnsignedReads(s, DigitsValue(d));
  }

  /** Without a sign, `parseInt` reads the digits at the start. */
  lemma UnsignedReads(s: string, v: nat)
    requires s != [] && s[0] != '-' && s[0] != '+'
    requires ReadDigits(s) == Some(v)
    ensures ParseSigned(s) == Some(v as int)
  {
  }

  lemma {:induction false} DigitPrefixAppend(d: string, tail: string)
    requires forall i :: 0 <= i < |d| ==> IsDigit(d[i])
    requires tail == [] || !IsDigit(tail[0])
    ensures DigitPrefix(d + tail) == d
    decreases |d|
  {
    if d != [] {
      assert (d + tail)[1..] == d[1..] + tail;
      DigitPrefixAppend(d[1..], tail);
    }
  }

  /** No digits after the optional sign: `NaN`. */
  lemma ParseIntNoDigits(s: string)
    requires s == [] || (!IsDigit(s[0]) && !IsSpace(s[0]) && s[0] != '-' && s[0] != '+')
    ensures ParseInt(s) == None
  {
  }
}
