/** String helpers with Python's meaning: `sep.join`, ASCII `str.lower`,
    `str.endswith` and `str(int)`. */
module Text {

  /** `sep.join(parts)` */
  function Join(sep: string, parts: seq<string>): string
    decreases |parts|
  {
    if |parts| == 0 then ""
    else if |parts| == 1 then parts[0]
    else Join(sep, parts[..|parts| - 1]) + sep + parts[|parts| - 1]
  }

  /** Total length of `parts`, each followed by one separator: in `Join(sep, parts + more)`,
      the part after `parts` starts at this index. */
  function Span(sep: string, parts: seq<string>): nat
    decreases |parts|
  {
    if |parts| == 0 then 0 else Span(sep, parts[..|parts| - 1]) + |parts[|parts| - 1]| + |sep|
  }

  lemma {:induction false} JoinLength(sep: string, parts: seq<string>)
    requires |parts| > 0
    ensures |Join(sep, parts)| + |sep| == Span(sep, parts)
    decreases |parts|
  {
    if |parts| > 1 {
      JoinLength(sep, parts[..|parts| - 1]);
    }
  }

  /** Part `k` stands in the joined string at offset `Span(sep, parts[..k])`, unchanged, and is
      followed by the separator unless it is the last part. */
  lemma {:induction false} JoinPartAt(sep: string, parts: seq<string>, k: nat)
    requires k < |parts|
    ensures Span(sep, parts[..k]) + |parts[k]| <= |Join(sep, parts)|
    ensures Join(sep, parts)[Span(sep, parts[..k])..Span(sep, parts[..k]) + |parts[k]|] == parts[k]
    ensures k + 1 < |parts| ==>
      Span(sep, parts[..k]) + |parts[k]| + |sep| <= |Join(sep, parts)| &&
      Join(sep, parts)[Span(sep, parts[..k]) + |parts[k]|..Span(sep, parts[..k]) + |parts[k]| + |sep|] == sep
    decreases |parts|
  {
    var n := |parts|;
    if n > 1 {
      var init := parts[..n - 1];
      JoinLength(sep, init);
      assert Join(sep, parts) == Join(sep, init) + sep + parts[n - 1];
      if k == n - 1 {
        assert parts[..k] == init;
      } else {
        JoinPartAt(sep, init, k);
        assert init[..k] == parts[..k];
        assert init[k] == parts[k];
        if k + 1 == n - 1 {
          assert init[..k + 1] == parts[..k + 1];
          assert (parts[..k + 1])[..k] == parts[..k];
          assert Span(sep, init) == Span(sep, parts[..k]) + |parts[k]| + |sep|;
        }
      }
    }
  }

  /** Joining one more part appends the separator and that part. */
  lemma JoinAppend(sep: string, parts: seq<string>, p: string)
    requires |parts| > 0
    ensures Join(sep, parts + [p]) == Join(sep, parts) + sep + p
  {
    assert (parts + [p])[..|parts|] == parts;
  }

  /** Joining reads the parts from the front too: the first part, the separator, the rest. */
  lemma {:induction false} JoinCons(sep: string, p: string, parts: seq<string>)
    requires |parts| > 0
    ensures Join(sep, [p] + parts) == p + sep + Join(sep, parts)
    decreases |parts|
  {
    var n := |parts|;
    if n == 1 {
      assert [p] + parts == [p, parts[0]];
      assert ([p] + parts)[..1] == [p];
    } else {
      var init := parts[..n - 1];
      assert ([p] + parts)[..n] == [p] + init;
      JoinCons(sep, p, init);
    }
  }

  function LowerChar(c: char): char
  {
    if 'A' <= c <= 'Z' then (c as int + 32) as char else c
  }

  /** `s.lower()` on ASCII letters; every other character is kept. */
  function Lower(s: string): string
    decreases |s|
  {
    if s == [] then [] else [LowerChar(s[0])] + Lower(s[1..])
  }

  lemma {:induction false} LowerLength(s: string)
    ensures |Lower(s)| == |s|
    ensures forall i :: 0 <= i < |s| ==> Lower(s)[i] == LowerChar(s[i])
    decreases |s|
  {
    if s != [] {
      LowerLength(s[1..]);
    }
  }

  lemma LowerAppend(a: string, b: string)
    ensures Lower(a + b) == Lower(a) + Lower(b)
  {
    LowerLength(a);
    LowerLength(b);
    LowerLength(a + b);
  }

  /** Lower-casing twice changes nothing more. */
  lemma LowerIdempotent(s: string)
    ensures Lower(Lower(s)) == Lower(s)
  {
    LowerLength(s);
    LowerLength(Lower(s));
  }

  /** `k in s` on two strings: `k` occurs somewhere in `s` (the empty string occurs everywhere). */
  predicate Contains(s: string, k: string)
    decreases |s|
  {
    k <= s || (s != [] && Contains(s[1..], k))
  }

  /** `k` occurs in `s` starting at index `i`. */
  predicate OccursAt(s: string, k: string, i: int)
  {
    0 <= i <= |s| - |k| && s[i..i + |k|] == k
  }

  /** `k in s` holds exactly when `k` occurs in `s` at some index. */
  lemma {:induction false} ContainsAt(s: string, k: string)
    ensures Contains(s, k) <==> exists i :: OccursAt(s, k, i)
    decreases |s|
  {
    if k <= s {
      assert OccursAt(s, k, 0);
    } else if s == [] {
    } else {
      ContainsAt(s[1..], k);
      if Contains(s, k) {
        var i :| OccursAt(s[1..], k, i);
        assert s[i + 1..i + 1 + |k|] == s[1..][i..i + |k|];
        assert OccursAt(s, k, i + 1);
      } else {
        forall i | OccursAt(s, k, i) ensures false {
          if i > 0 {
            assert s[i..i + |k|] == s[1..][i - 1..i - 1 + |k|];
            assert OccursAt(s[1..], k, i - 1);
          }
        }
      }
    }
  }

  /** A string whose first character `s` lacks does not occur in `s`. */
  lemma {:induction false} FirstCharMissing(s: string, k: string)
    requires k != [] && k[0] !in s
    ensures !Contains(s, k)
    decreases |s|
  {
    if s != [] {
      assert s[0] in s;
      FirstCharMissing(s[1..], k);
    }
  }

  predicate EndsWith(s: string, suffix: string)
  {
    |suffix| <= |s| && s[|s| - |suffix|..] == suffix
  }

  predicate IsDigit(c: char)
  {
    '0' <= c <= '9'
  }

  predicate AllDigits(s: string)
  {
    forall i :: 0 <= i < |s| ==> IsDigit(s[i])
  }

  function DigitChar(d: nat): (c: char)
    requires d < 10
    ensures IsDigit(c)
  {
    ('0' as int + d) as char
  }

  function DigitValue(c: char): nat
    requires IsDigit(c)
  {
    c as int - '0' as int
  }

  predicate IsHexDigit(c: char)
  {
    '0' <= c <= '9' || 'a' <= c <= 'f'
  }

  /** A lower-case hexadecimal digit, as `hex()` and `uuid.hex` write them. */
  function HexDigit(n: nat): (c: char)
    requires n < 16
    ensures IsHexDigit(c)
  {
    if n < 10 then DigitChar(n) else ('a' as int + n - 10) as char
  }

  function HexValue(c: char): nat
    requires IsHexDigit(c)
  {
    if c <= '9' then c as int - '0' as int else c as int - 'a' as int + 10
  }

  /** The number that a run of decimal digits spells. */
  function DigitsValue(s: string): nat
    requires AllDigits(s)
    decreases |s|
  {
    if s == [] then 0 else 10 * DigitsValue(s[..|s| - 1]) + DigitValue(s[|s| - 1])
  }

  /** `str(n)` for a non-negative integer: decimal digits without leading zeros. */
  function NatToString(n: nat): (s: string)
    ensures |s| > 0 && AllDigits(s)
    ensures |s| > 1 ==> s[0] != '0'
    decreases n
  {
    if n < 10 then [DigitChar(n)] else NatToString(n / 10) + [DigitChar(n % 10)]
  }

  /** `str(i)`: a minus sign before the digits of a negative number. */
  function IntToString(i: int): string
  {
    if i < 0 then "-" + NatToString(-i) else NatToString(i)
  }

  /** Reading the digits back gives the number: the rendering loses nothing. */
  lemma {:induction false} NatToStringRoundTrip(n: nat)
    ensures DigitsValue(NatToString(n)) == n
    decreases n
  {
    if n >= 10 {
      NatToStringRoundTrip(n / 10);
      var s := NatToString(n);
      assert s[..|s| - 1] == NatToString(n / 10);
    }
  }

  /** Two digits, zero-padded, as `strftime` writes months, days, hours, minutes and seconds. */
  function Pad2(n: nat): (s: string)
    requires n < 100
    ensures |s| == 2 && AllDigits(s)
  {
    [DigitChar(n / 10), DigitChar(n % 10)]
  }

  /** Four digits, zero-padded. */
  function Pad4(n: nat): (s: string)
    requires n < 10000
    ensures |s| == 4 && AllDigits(s)
  {
    Pad2(n / 100) + Pad2(n % 100)
  }

  lemma Pad2RoundTrip(n: nat)
    requires n < 100
    ensures DigitsValue(Pad2(n)) == n
  {
    var s := Pad2(n);
    assert s[..1] == [DigitChar(n / 10)];
    assert DigitsValue(s[..1]) == n / 10 by {
      assert [DigitChar(n / 10)][..0] == [];
    }
  }

  lemma Pad2Injective(a: nat, b: nat)
    requires a < 100 && b < 100
    ensures Pad2(a) == Pad2(b) ==> a == b
  {
    Pad2RoundTrip(a);
    Pad2RoundTrip(b);
  }

  lemma Pad4Injective(a: nat, b: nat)
    requires a < 10000 && b < 10000
    ensures Pad4(a) == Pad4(b) ==> a == b
  {
    if Pad4(a) == Pad4(b) {
      assert Pad4(a)[..2] == Pad2(a / 100) && Pad4(b)[..2] == Pad2(b / 100);
      assert Pad4(a)[2..] == Pad2(a % 100) && Pad4(b)[2..] == Pad2(b % 100);
      Pad2Injective(a / 100, b / 100);
      Pad2Injective(a % 100, b % 100);
    }
  }
}
