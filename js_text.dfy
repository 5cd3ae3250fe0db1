/** The few JavaScript string built-ins that the components' rules are made
    of: the regular-expression classes `\s` and `\d`, `trim`, `toLowerCase`,
    `startsWith`, `includes`, `slice` and `join`. Strings are sequences of
    characters. */
module JsText {

  import opened Wrappers

  /** The characters that `\s` matches and `String.prototype.trim` strips:
      the WhiteSpace and LineTerminator characters of ECMAScript. */
  predicate IsSpace(c: char) {
    c == ' ' || c == '\t' || c == '\n' || c == '\U{B}' || c == '\U{C}' || c == '\r'
    || c == '\U{A0}' || c == '\U{1680}' || ('\U{2000}' <= c <= '\U{200A}')
    || c == '\U{2028}' || c == '\U{2029}' || c == '\U{202F}' || c == '\U{205F}'
    || c == '\U{3000}' || c == '\U{FEFF}'
  }

  predicate AllSpace(s: string) {
    forall i :: 0 <= i < |s| ==> IsSpace(s[i])
  }

  /** The class `\d`: ASCII digits only. */
  predicate IsDigit(c: char) {
    '0' <= c <= '9'
  }

  predicate AllDigits(s: string) {
    forall i :: 0 <= i < |s| ==> IsDigit(s[i])
  }

  /** `s.replace(/\D/g, "")`: every digit of `s`, in order, and nothing else. */
  function Digits(s: string): (r: string)
    ensures AllDigits(r)
    ensures |r| <= |s|
  {
    if s == [] then [] else (if IsDigit(s[0]) then [s[0]] else []) + Digits(s[1..])
  }

  /** Removing the non-digits distributes over concatenation: the digits of
      each part are kept, whole and in order. */
  lemma {:induction false} DigitsAppend(a: string, b: string)
    ensures Digits(a + b) == Digits(a) + Digits(b)
  {
    if a == [] {
      assert a + b == b;
    } else {
      assert (a + b)[1..] == a[1..] + b;
      DigitsAppend(a[1..], b);
    }
  }

  /** A string of digits passes through unchanged. */
  lemma {:induction false} DigitsOfDigits(s: string)
    requires AllDigits(s)
    ensures Digits(s) == s
  {
    if s != [] {
      DigitsOfDigits(s[1..]);
    }
  }

  /** Letters between two runs of digits are dropped and the runs joined. */
  lemma DigitsAround(a: string, b: string, c: string)
    requires AllDigits(a) && AllDigits(c)
    requires forall i :: 0 <= i < |b| ==> !IsDigit(b[i])
    ensures Digits(a + b + c) == a + c
  {
    assert Digits(a + b) == a by {
      DigitsAppend(a, b);
      DigitsOfDigits(a);
      NoDigits(b);
      assert a + [] == a;
    }
    assert Digits(a + b + c) == a + c by {
      DigitsAppend(a + b, c);
      DigitsOfDigits(c);
    }
  }

  lemma {:induction false} NoDigits(s: string)
    requires forall i :: 0 <= i < |s| ==> !IsDigit(s[i])
    ensures Digits(s) == ""
  {
    if s != [] {
      NoDigits(s[1..]);
    }
  }

  /** `s` has a digit other than '0'. */
  predicate HasNonZeroDigit(s: string) {
    exists i :: 0 <= i < |s| && IsDigit(s[i]) && s[i] != '0'
  }

  /** Dropping the non-digits keeps every non-zero digit. */
  lemma {:induction false} DigitsNonZero(s: string)
    ensures HasNonZeroDigit(Digits(s)) <==> HasNonZeroDigit(s)
  {
    if s != [] {
      var head := if IsDigit(s[0]) then [s[0]] else [];
      var rest := Digits(s[1..]);
      DigitsNonZero(s[1..]);
      assert Digits(s) == head + rest;
      if HasNonZeroDigit(s[1..]) {
        var i :| 0 <= i < |s[1..]| && IsDigit(s[1..][i]) && s[1..][i] != '0';
        assert s[i + 1] == s[1..][i];
      }
      if HasNonZeroDigit(rest) {
        var i :| 0 <= i < |rest| && IsDigit(rest[i]) && rest[i] != '0';
        assert Digits(s)[|head| + i] == rest[i];
      }
      if HasNonZeroDigit(s) && !HasNonZeroDigit(s[1..]) {
        assert forall i :: 1 <= i < |s| ==> s[i] == s[1..][i - 1];
        assert IsDigit(s[0]) && s[0] != '0';
        assert Digits(s)[0] == s[0];
      }
    }
  }

  /** Each character occurs in `Digits(s)` exactly as often as in `s` when it
      is a digit, and not at all otherwise. */
  lemma {:induction false} DigitsCount(s: string, c: char)
    ensures multiset(Digits(s))[c] == if IsDigit(c) then multiset(s)[c] else 0
  {
    if s != [] {
      DigitsCount(s[1..], c);
      assert s == [s[0]] + s[1..];
      assert multiset(s) == multiset([s[0]]) + multiset(s[1..]);
    }
  }

  /** `s.slice(0, n)`. */
  function Take<T>(s: seq<T>, n: nat): (r: seq<T>)
    ensures |r| == if n < |s| then n else |s|
    ensures r <= s
  {
    if n < |s| then s[..n] else s
  }

  /** The value of a decimal numeral; the empty numeral is 0, as `Number("")` is. */
  function DecimalValue(s: string): nat
    requires AllDigits(s)
  {
    if s == [] then 0 else 10 * DecimalValue(s[..|s| - 1]) + (s[|s| - 1] as int - '0' as int)
  }

  /** A numeral has value at least 1 exactly when one of its digits is not 0. */
  lemma {:induction false} DecimalValuePositive(s: string)
    requires AllDigits(s)
    ensures DecimalValue(s) >= 1 <==> exists i :: 0 <= i < |s| && s[i] != '0'
  {
    if s != [] {
      var init := s[..|s| - 1];
      DecimalValuePositive(init);
      if DecimalValue(init) >= 1 {
        var i :| 0 <= i < |init| && init[i] != '0';
        assert s[i] != '0';
      } else if s[|s| - 1] == '0' {
        assert forall i :: 0 <= i < |s| ==> s[i] == '0' by {
          forall i | 0 <= i < |s| ensures s[i] == '0' {
            if i < |init| { assert init[i] == s[i]; }
          }
        }
      }
    }
  }

  /** The least numeral value that `Number` rounds to Infinity:
      2^1024 - 2^970, halfway between the largest double, 2^1024 - 2^971,
      and 2^1024 (round-half-to-even sends that midpoint up). */
  const OverflowBound: nat :=
    0xFFFF_FFFF_FFFF_FC00_0000_0000_0000_0000_0000_0000_0000_0000_0000_0000_0000_0000_0000_0000_0000_0000_0000_0000_0000_0000_0000_0000_0000_0000_0000_0000_0000_0000_0000_0000_0000_0000_0000_0000_0000_0000_0000_0000_0000_0000_0000_0000_0000_0000_0000_0000_0000_0000_0000_0000_0000_0000_0000_0000_0000_0000_0000_0000_0000_0000

  /** A JavaScript number, as far as the rules here can tell them apart. */
  datatype JsNumber = Finite(value: int) | Infinity | NaN

  /** `Number(s)` on the strings it is applied to here: a numeral gives its
      value, or Infinity once the value reaches 2^1024 - 2^970, half a unit
      above the largest double; anything else is NaN. */
  function ToNumber(s: string): (r: JsNumber)
    ensures r.NaN? <==> !AllDigits(s)
    ensures r.Infinity? <==> AllDigits(s) && DecimalValue(s) >= OverflowBound
    ensures r.Finite? ==> r.value == DecimalValue(s) && 0 <= r.value < OverflowBound
  {
    if !AllDigits(s) then NaN
    else if DecimalValue(s) >= OverflowBound then Infinity
    else Finite(DecimalValue(s))
  }

  /** `String.prototype.trimStart`. */
  function TrimStart(s: string): (r: string)
    ensures |r| <= |s| && r == s[|s| - |r|..]
    ensures r == [] || !IsSpace(r[0])
    ensures AllSpace(s[..|s| - |r|])
  {
    if s != [] && IsSpace(s[0]) then TrimStart(s[1..]) else s
  }

  /** `String.prototype.trimEnd`. */
  function TrimEnd(s: string): (r: string)
    ensures |r| <= |s| && r == s[..|r|]
    ensures r == [] || !IsSpace(r[|r| - 1])
    ensures AllSpace(s[|r|..])
  {
    if s != [] && IsSpace(s[|s| - 1]) then TrimEnd(s[..|s| - 1]) else s
  }

  /** `String.prototype.trim`. */
  function Trim(s: string): string {
    TrimEnd(TrimStart(s))
  }

  /** Trimming leaves the empty string exactly when every character is white space. */
  lemma TrimEmpty(s: string)
    ensures Trim(s) == "" <==> AllSpace(s)
  {
    var t := TrimStart(s);
    if t != "" {
      assert t == s[|s| - |t|..];
      assert !IsSpace(s[|s| - |t|]);
    } else {
      assert s[..|s|] == s;
    }
  }

  /** `toLowerCase` on ASCII letters. */
  function LowerChar(c: char): char {
    if 'A' <= c <= 'Z' then (c as int + 32) as char else c
  }

  function Lower(s: string): string {
    seq(|s|, i requires 0 <= i < |s| => LowerChar(s[i]))
  }

  /** `s.startsWith(p)`. */
  predicate StartsWith(s: string, p: string) {
    |p| <= |s| && s[..|p|] == p
  }

  /** `sub` occurs in `s` starting at index `i`. */
  predicate OccursAt(s: string, sub: string, i: int) {
    0 <= i <= |s| - |sub| && s[i..i + |sub|] == sub
  }

  /** `s.includes(sub)`. */
  predicate Includes(s: string, sub: string) {
    exists i | 0 <= i <= |s| - |sub| :: OccursAt(s, sub, i)
  }

  /** `items.join(sep)`. */
  function Join(items: seq<string>, sep: string): string {
    if items == [] then ""
    else if |items| == 1 then items[0]
    else items[0] + sep + Join(items[1..], sep)
  }

  /** An occurrence in `b` is an occurrence in `a + b`, shifted by `|a|`. */
  lemma OccursShift(a: string, b: string, sub: string, j: int)
    requires OccursAt(b, sub, j)
    ensures OccursAt(a + b, sub, |a| + j)
  {
    assert (a + b)[|a| + j..|a| + j + |sub|] == b[j..j + |sub|];
  }

  /** An occurrence in `a` is an occurrence in `a + b`, at the same index. */
  lemma OccursPrefix(a: string, b: string, sub: string, j: int)
    requires OccursAt(a, sub, j)
    ensures OccursAt(a + b, sub, j)
  {
    assert (a + b)[j..j + |sub|] == a[j..j + |sub|];
  }

  /** Every item occurs in the joined text. */
  lemma {:induction false} JoinIncludes(items: seq<string>, sep: string, k: int)
    requires 0 <= k < |items|
    ensures Includes(Join(items, sep), items[k])
  {
    var s := Join(items, sep);
    if |items| == 1 {
      assert s[0..|items[0]|] == items[0];
      assert OccursAt(s, items[0], 0);
    } else {
      var rest := Join(items[1..], sep);
      assert s == items[0] + (sep + rest);
      if k == 0 {
        assert items[0][0..|items[0]|] == items[0];
        OccursPrefix(items[0], sep + rest, items[0], 0);
        assert OccursAt(s, items[0], 0);
      } else {
        JoinIncludes(items[1..], sep, k - 1);
        var j :| 0 <= j <= |rest| - |items[k]| && OccursAt(rest, items[k], j);
        OccursShift(items[0] + sep, rest, items[k], j);
        assert s == (items[0] + sep) + rest;
        assert OccursAt(s, items[k], |items[0] + sep| + j);
      }
    }
  }

  /** Text that occurs in `b` occurs in `a + b + c`. */
  lemma IncludesWithin(a: string, b: string, c: string, sub: string)
    requires Includes(b, sub)
    ensures Includes(a + b + c, sub)
  {
    var j :| 0 <= j <= |b| - |sub| && OccursAt(b, sub, j);
    OccursPrefix(b, c, sub, j);
    OccursShift(a, b + c, sub, j);
    assert a + b + c == a + (b + c);
    assert OccursAt(a + b + c, sub, |a| + j);
  }
}
