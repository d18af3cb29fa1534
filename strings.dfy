/** The string operations the core relies on, with Python's meaning:
    `+=` concatenation, `str.endswith`, `sep.join(parts)`, `s.split(sep)`
    and `str(n)` for a non-negative integer. */
module Strings {

  /** `s.endswith(suffix)`. */
  predicate EndsWith(s: string, suffix: string)
  {
    |suffix| <= |s| && s[|s| - |suffix|..] == suffix
  }

  /** The text obtained by `text += part` for each part in order, from "". */
  function Concat(parts: seq<string>): string
  {
    if parts == [] then "" else Concat(parts[..|parts| - 1]) + parts[|parts| - 1]
  }

  /** Every part occurs in the concatenation, in order, right after the parts
      before it. */
  lemma {:induction false} ConcatAppend(a: seq<string>, b: seq<string>)
    ensures Concat(a + b) == Concat(a) + Concat(b)
  {
    if b == [] {
      assert a + b == a;
    } else {
      var b' := b[..|b| - 1];
      assert (a + b)[..|a + b| - 1] == a + b';
      ConcatAppend(a, b');
    }
  }

  /** `sep.join(parts)` for a one-character separator. */
  function Join(sep: char, parts: seq<string>): string
  {
    if |parts| == 0 then ""
    else if |parts| == 1 then parts[0]
    else parts[0] + [sep] + Join(sep, parts[1..])
  }

  /** `s.split(sep)`: always at least one piece; the pieces hold no `sep`. */
  function Split(sep: char, s: string): (parts: seq<string>)
    ensures |parts| >= 1
    ensures forall i :: 0 <= i < |parts| ==> sep !in parts[i]
  {
    if |s| == 0 then [""]
    else if s[0] == sep then [""] + Split(sep, s[1..])
    else
      var rest := Split(sep, s[1..]);
      [[s[0]] + rest[0]] + rest[1..]
  }

  /** Splitting text that starts with a separator-free piece `p`: `p` is glued
      to the front of the first piece of the rest. */
  lemma {:induction false} SplitAfterPlainPrefix(sep: char, p: string, tail: string)
    requires sep !in p
    ensures Split(sep, p + tail) == [p + Split(sep, tail)[0]] + Split(sep, tail)[1..]
  {
    if p == [] {
      var parts := Split(sep, tail);
      assert p + tail == tail && p + parts[0] == parts[0];
      assert [parts[0]] + parts[1..] == parts;
    } else {
      SplitAfterPlainPrefix(sep, p[1..], tail);
      assert (p + tail)[1..] == p[1..] + tail;
      assert [p[0]] + (p[1..] + Split(sep, tail)[0]) == p + Split(sep, tail)[0];
    }
  }

  /** Splitting undoes joining whenever no part contains the separator. */
  lemma {:induction false} SplitJoin(sep: char, parts: seq<string>)
    requires |parts| >= 1
    requires forall i :: 0 <= i < |parts| ==> sep !in parts[i]
    ensures Split(sep, Join(sep, parts)) == parts
  {
    if |parts| == 1 {
      SplitAfterPlainPrefix(sep, parts[0], "");
      assert parts[0] + "" == parts[0];
    } else {
      var rest := Join(sep, parts[1..]);
      SplitJoin(sep, parts[1..]);
      SplitAfterPlainPrefix(sep, parts[0], [sep] + rest);
      assert ([sep] + rest)[0] == sep && ([sep] + rest)[1..] == rest;
      assert Split(sep, [sep] + rest) == [""] + parts[1..];
      assert parts[0] + "" == parts[0];
      assert parts[0] + [sep] + rest == parts[0] + ([sep] + rest);
      assert [parts[0]] + parts[1..] == parts;
    }
  }

  /** The decimal digit for `d < 10`. */
  function DigitChar(d: nat): char
    requires d < 10
  {
    ('0' as int + d) as char
  }

  /** The value of a decimal digit character. */
  function DigitValue(c: char): nat
  {
    if '0' <= c <= '9' then c as int - '0' as int else 0
  }

  /** `str(n)` for `n >= 0`: decimal digits, no sign, no leading zero. */
  function NatToString(n: nat): (s: string)
    ensures 1 <= |s|
    ensures forall i :: 0 <= i < |s| ==> '0' <= s[i] <= '9'
    ensures s[0] == '0' ==> n == 0
    decreases n
  {
    if n < 10 then [DigitChar(n)] else NatToString(n / 10) + [DigitChar(n % 10)]
  }

  /** `int(s)` for a string of decimal digits. */
  function ParseNat(s: string): nat
  {
    if |s| == 0 then 0 else 10 * ParseNat(s[..|s| - 1]) + DigitValue(s[|s| - 1])
  }

  lemma {:induction false} ParseNatToString(n: nat)
    ensures ParseNat(NatToString(n)) == n
    decreases n
  {
    var s := NatToString(n);
    if n < 10 {
      assert s[..0] == "";
    } else {
      ParseNatToString(n / 10);
      assert s[..|s| - 1] == NatToString(n / 10);
    }
  }

  /** Different numbers get different decimal strings. */
  lemma NatToStringInjective(a: nat, b: nat)
    ensures NatToString(a) == NatToString(b) <==> a == b
  {
    ParseNatToString(a);
    ParseNatToString(b);
  }
}
