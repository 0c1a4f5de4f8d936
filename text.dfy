/** The pieces of Python's string library that the scripts use to build
    request names and URLs: `str.split` with a one-character separator,
    `str(n)` on a non-negative integer, and `str.zfill`. */
module Text {

  // ----- split and join -----

  /** Position of the first occurrence of `c` in `s`. */
  function IndexOf(s: string, c: char): (i: nat)
    requires c in s
    ensures i < |s| && s[i] == c && c !in s[..i]
  {
    if s[0] == c then 0
    else
      var j := IndexOf(s[1..], c);
      assert s[..j + 1] == [s[0]] + s[1..][..j];
      1 + j
  }

  /** Python's `s.split(sep)` for a one-character separator: the pieces
      between separators, in order, with empty pieces kept. */
  function Split(s: string, sep: char): (parts: seq<string>)
    ensures |parts| >= 1
    decreases |s|
  {
    if sep in s then
      var i := IndexOf(s, sep);
      [s[..i]] + Split(s[i + 1..], sep)
    else
      [s]
  }

  /** Python's `sep.join(parts)`, the inverse of `Split`. */
  function Join(parts: seq<string>, sep: char): string
  {
    if |parts| == 0 then ""
    else if |parts| == 1 then parts[0]
    else parts[0] + [sep] + Join(parts[1..], sep)
  }

  /** Joining two non-empty lists of pieces puts one separator between the
      two joined halves. */
  lemma {:induction false} JoinAppend(a: seq<string>, b: seq<string>, sep: char)
    requires |a| >= 1 && |b| >= 1
    ensures Join(a + b, sep) == Join(a, sep) + [sep] + Join(b, sep)
  {
    if |a| > 1 {
      assert (a + b)[1..] == a[1..] + b;
      JoinAppend(a[1..], b, sep);
    } else {
      assert (a + b)[1..] == b;
    }
  }

  /** No piece contains the separator. */
  predicate SeparatorFree(parts: seq<string>, sep: char)
  {
    forall k :: 0 <= k < |parts| ==> sep !in parts[k]
  }

  lemma {:induction false} SplitPiecesAreSeparatorFree(s: string, sep: char)
    ensures SeparatorFree(Split(s, sep), sep)
    decreases |s|
  {
    if sep in s {
      var i := IndexOf(s, sep);
      SplitPiecesAreSeparatorFree(s[i + 1..], sep);
    }
  }

  /** Splitting loses nothing: joining the pieces gives back the string. */
  lemma {:induction false} JoinSplit(s: string, sep: char)
    ensures Join(Split(s, sep), sep) == s
    decreases |s|
  {
    if sep in s {
      var i := IndexOf(s, sep);
      var rest := Split(s[i + 1..], sep);
      JoinSplit(s[i + 1..], sep);
      assert Split(s, sep) == [s[..i]] + rest && Split(s, sep)[1..] == rest;
      assert Join(Split(s, sep), sep) == s[..i] + [sep] + Join(rest, sep);
      assert s == s[..i] + [sep] + s[i + 1..];
    }
  }

  /** Splitting undoes joining pieces that do not contain the separator. */
  lemma {:induction false} SplitJoin(parts: seq<string>, sep: char)
    requires |parts| >= 1 && SeparatorFree(parts, sep)
    ensures Split(Join(parts, sep), sep) == parts
  {
    if |parts| > 1 {
      var head := parts[0];
      var tail := Join(parts[1..], sep);
      var s := head + [sep] + tail;
      assert sep !in head;
      assert s[|head|] == sep;
      var i := IndexOf(s, sep);
      assert s[..i] == head;
      assert s[i + 1..] == tail;
      SplitJoin(parts[1..], sep);
    }
  }

  /** The first piece of a split is the longest prefix free of the separator:
      the string cut at its first separator, or all of it when there is none. */
  lemma SplitHead(s: string, sep: char)
    ensures Split(s, sep)[0] <= s
    ensures sep !in Split(s, sep)[0]
    ensures |Split(s, sep)[0]| == |s| || s[|Split(s, sep)[0]|] == sep
  {
    SplitPiecesAreSeparatorFree(s, sep);
  }

  // ----- decimal numerals -----

  predicate IsDigit(ch: char)
  {
    '0' <= ch <= '9'
  }

  predicate IsDecimal(s: string)
  {
    forall k :: 0 <= k < |s| ==> IsDigit(s[k])
  }

  function DigitChar(d: nat): (ch: char)
    requires d < 10
    ensures IsDigit(ch)
  {
    ('0' as int + d) as char
  }

  /** Python's `str(n)` for a non-negative `n`: its decimal numeral, without
      leading zeros. */
  function NatToString(n: nat): (s: string)
    ensures |s| >= 1 && IsDecimal(s)
    ensures |s| > 1 ==> s[0] != '0'
  {
    if n < 10 then [DigitChar(n)] else NatToString(n / 10) + [DigitChar(n % 10)]
  }

  /** The number a string of decimal digits denotes (leading zeros allowed). */
  function DecimalValue(s: string): nat
    requires IsDecimal(s)
  {
    if |s| == 0 then 0
    else 10 * DecimalValue(s[..|s| - 1]) + (s[|s| - 1] as int - '0' as int)
  }

  /** Reading back the numeral `str(n)` gives `n`. */
  lemma {:induction false} NatToStringRoundTrip(n: nat)
    ensures DecimalValue(NatToString(n)) == n
  {
    if n >= 10 {
      var s := NatToString(n);
      NatToStringRoundTrip(n / 10);
      assert s[..|s| - 1] == NatToString(n / 10);
    }
  }

  // ----- zero padding -----

  function Zeros(k: nat): (z: string)
    ensures |z| == k && forall i :: 0 <= i < k ==> z[i] == '0'
  {
    seq(k, _ => '0')
  }

  /** Python's `s.zfill(width)`: pads `s` on the left with '0' up to `width`
      characters, after a leading sign if there is one. */
  function Zfill(s: string, width: nat): (r: string)
    ensures |r| == if |s| >= width then |s| else width
  {
    if |s| >= width then s
    else if |s| > 0 && (s[0] == '+' || s[0] == '-') then [s[0]] + Zeros(width - |s|) + s[1..]
    else Zeros(width - |s|) + s
  }

  /** Leading zeros do not change the number a numeral denotes. */
  lemma {:induction false} LeadingZeros(k: nat, s: string)
    requires IsDecimal(s)
    ensures IsDecimal(Zeros(k) + s)
    ensures DecimalValue(Zeros(k) + s) == DecimalValue(s)
    decreases |s|, k
  {
    var z := Zeros(k) + s;
    if |s| == 0 {
      assert z == Zeros(k);
      if k > 0 {
        assert z[..|z| - 1] == Zeros(k - 1) + s;
        LeadingZeros(k - 1, s);
      }
    } else {
      assert z[..|z| - 1] == Zeros(k) + s[..|s| - 1];
      LeadingZeros(k, s[..|s| - 1]);
    }
  }

  /** Zero-padding a numeral keeps it a numeral of the same value, ending in
      the original digits. */
  lemma ZfillNumeral(s: string, width: nat)
    requires IsDecimal(s)
    ensures IsDecimal(Zfill(s, width))
    ensures DecimalValue(Zfill(s, width)) == DecimalValue(s)
    ensures Zfill(s, width)[|Zfill(s, width)| - |s|..] == s
  {
    if |s| < width {
      LeadingZeros(width - |s|, s);
    }
  }

  /** `str(n).zfill(2)` for 1 <= n <= 99 is the two digits of `n`. */
  lemma TwoDigitPadding(n: nat)
    requires 1 <= n <= 99
    ensures Zfill(NatToString(n), 2) == [DigitChar(n / 10), DigitChar(n % 10)]
  {
    if n >= 10 {
      assert NatToString(n / 10) == [DigitChar(n / 10)];
    } else {
      assert DigitChar(0) == '0';
    }
  }

  /** `str(n).zfill(width)` still denotes `n`. */
  lemma PaddedNumberValue(n: nat, width: nat)
    ensures IsDecimal(Zfill(NatToString(n), width))
    ensures DecimalValue(Zfill(NatToString(n), width)) == n
  {
    ZfillNumeral(NatToString(n), width);
    NatToStringRoundTrip(n);
  }
}
