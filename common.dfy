// Shared vocabulary: optional values, error results, time and money units,
// and the few java.lang.String / java.lang.Math operations the entities use.
// Integer operations follow Java; string lengths count UTF-16 code units,
// and case folding covers ASCII letters only.

module Common {

  datatype Option<T> = None | Some(value: T)

  /** The result of an operation that throws in the source: `Fail` carries the exception message. */
  datatype Outcome<T> = Ok(value: T) | Fail(message: string)

  /** A LocalDateTime, as a count of seconds on one time line. */
  type Time = int

  /** A scale-2 BigDecimal amount, as a whole count of hundredths (paise, cents). */
  type Money = int

  type UserId = nat

  const SecondsPerMinute: int := 60
  const SecondsPerHour: int := 3600
  const SecondsPerDay: int := 86400

  function Min(a: int, b: int): (r: int)
    ensures r <= a && r <= b && (r == a || r == b)
  {
    if a <= b then a else b
  }

  function Max(a: int, b: int): (r: int)
    ensures r >= a && r >= b && (r == a || r == b)
  {
    if a >= b then a else b
  }

  function Abs(a: int): (r: nat)
    ensures r == a || r == -a
  {
    if a >= 0 then a else -a
  }

  /** Java's `/` on integers: the quotient is truncated toward zero. */
  function JavaDiv(a: int, b: int): (q: int)
    requires b > 0
    ensures Abs(q * b) <= Abs(a) < Abs(q * b) + b
    ensures a >= 0 ==> q >= 0
    ensures a <= 0 ==> q <= 0
  {
    if a >= 0 then a / b else -((-a) / b)
  }

  /**
   * BigDecimal's HALF_UP rounding of a / d to a whole number: to the nearest
   * integer, ties away from zero.
   */
  function HalfUpDiv(a: int, d: int): (q: int)
    requires d > 0
    ensures a >= 0 ==> 2 * a - d < 2 * q * d <= 2 * a + d
    ensures a < 0 ==> 2 * a - d <= 2 * q * d < 2 * a + d
    ensures a >= 0 ==> q >= 0
  {
    if a >= 0 then (2 * a + d) / (2 * d) else -((2 * (-a) + d) / (2 * d))
  }

  /** java.time.Duration.between(from, to) in whole units of `unit` seconds (toMinutes, toHours, toDays). */
  function DurationIn(from: Time, to: Time, unit: int): (n: int)
    requires unit > 0
    ensures from <= to ==> n == (to - from) / unit
    ensures from > to ==> n <= 0
  {
    JavaDiv(to - from, unit)
  }

  // ---------------------------------------------------------------------
  // java.lang.String

  /** `s.startsWith(p)` */
  predicate StartsWith(s: string, p: string) {
    |p| <= |s| && s[..|p|] == p
  }

  /** `s.contains(sub)`: `sub` occurs in `s` as a contiguous block. */
  predicate Contains(s: string, sub: string)
    decreases |s|
  {
    StartsWith(s, sub) || (|s| > 0 && Contains(s[1..], sub))
  }

  /** Whitespace in the sense of String.trim: every character up to and including ' '. */
  predicate IsTrimmable(c: char) {
    c <= ' '
  }

  /** The text without its leading whitespace. */
  function TrimStart(s: string): (r: string)
    ensures |r| <= |s|
    decreases |s|
  {
    if |s| > 0 && IsTrimmable(s[0]) then TrimStart(s[1..]) else s
  }

  /** TrimStart drops a run of whitespace from the front and stops at the first other character. */
  lemma {:induction false} TrimStartDropsLeadingBlanks(s: string)
    ensures TrimStart(s) == s[|s| - |TrimStart(s)|..]
    ensures TrimStart(s) == [] || !IsTrimmable(TrimStart(s)[0])
    ensures forall i :: 0 <= i < |s| - |TrimStart(s)| ==> IsTrimmable(s[i])
    decreases |s|
  {
    if |s| > 0 && IsTrimmable(s[0]) {
      TrimStartDropsLeadingBlanks(s[1..]);
    }
  }

  /** The text without its trailing whitespace. */
  function TrimEnd(s: string): (r: string)
    ensures |r| <= |s|
    decreases |s|
  {
    if |s| > 0 && IsTrimmable(s[|s| - 1]) then TrimEnd(s[..|s| - 1]) else s
  }

  /** TrimEnd drops a run of whitespace from the back and stops at the last other character. */
  lemma {:induction false} TrimEndDropsTrailingBlanks(s: string)
    ensures TrimEnd(s) == s[..|TrimEnd(s)|]
    ensures TrimEnd(s) == [] || !IsTrimmable(TrimEnd(s)[|TrimEnd(s)| - 1])
    ensures forall i :: |TrimEnd(s)| <= i < |s| ==> IsTrimmable(s[i])
    decreases |s|
  {
    if |s| > 0 && IsTrimmable(s[|s| - 1]) {
      TrimEndDropsTrailingBlanks(s[..|s| - 1]);
    }
  }

  /** `s.trim()` */
  function Trim(s: string): (r: string)
    ensures |r| <= |s|
    ensures r == [] || (!IsTrimmable(r[0]) && !IsTrimmable(r[|r| - 1]))
  {
    TrimStartDropsLeadingBlanks(s);
    TrimEndDropsTrailingBlanks(TrimStart(s));
    TrimEnd(TrimStart(s))
  }

  /** `s.trim().isEmpty()`, the test commonly written for a blank string. */
  predicate IsBlank(s: string) {
    Trim(s) == []
  }

  function UpperAscii(c: char): char {
    if 'a' <= c <= 'z' then (c as int - 32) as char else c
  }

  /** The UTF-16 code units of one character: two for a character outside the Basic Multilingual Plane. */
  function Utf16Units(c: char): (n: nat)
    ensures n == 1 || n == 2
    ensures n == 2 <==> c as int >= 0x10000
  {
    if c as int >= 0x10000 then 2 else 1
  }

  /** Every character of `s` is in the Basic Multilingual Plane, so each is one UTF-16 unit. */
  predicate AllBmp(s: string) {
    forall i :: 0 <= i < |s| ==> s[i] as int < 0x10000
  }

  /** `s.length()`: the number of UTF-16 code units. */
  function Utf16Length(s: string): (n: nat)
    ensures |s| <= n <= 2 * |s|
    ensures AllBmp(s) ==> n == |s|
    decreases |s|
  {
    if s == [] then 0
    else
      assert AllBmp(s) ==> AllBmp(s[1..]) by {
        if AllBmp(s) {
          forall i | 0 <= i < |s[1..]| ensures s[1..][i] as int < 0x10000 {
            assert s[1..][i] == s[i + 1];
          }
        }
      }
      Utf16Units(s[0]) + Utf16Length(s[1..])
  }

  /** The UTF-16 length of a concatenation is the sum of the lengths. */
  lemma {:induction false} Utf16LengthConcat(a: string, b: string)
    ensures Utf16Length(a + b) == Utf16Length(a) + Utf16Length(b)
    decreases |a|
  {
    if a == [] {
      assert a + b == b;
    } else {
      assert (a + b)[0] == a[0];
      assert (a + b)[1..] == a[1..] + b;
      Utf16LengthConcat(a[1..], b);
    }
  }

  /**
   * `s.substring(0, units)` when `s` is longer: the longest prefix of at
   * most `units` UTF-16 code units, so a surrogate pair is never split.
   */
  function Utf16Prefix(s: string, units: int): (r: string)
    ensures |r| <= |s| && r == s[..|r|]
    ensures units >= 0 ==> Utf16Length(r) <= units
    ensures |r| < |s| ==> Utf16Length(r) + Utf16Units(s[|r|]) > units
    decreases |s|
  {
    if s == [] || Utf16Units(s[0]) > units then []
    else
      var rest := Utf16Prefix(s[1..], units - Utf16Units(s[0]));
      assert ([s[0]] + rest)[0] == s[0] && ([s[0]] + rest)[1..] == rest;
      [s[0]] + rest
  }

  /** On text in the Basic Multilingual Plane the prefix is the first `units` characters. */
  lemma {:induction false} Utf16PrefixOfBmp(s: string, units: nat)
    requires AllBmp(s) && units <= |s|
    ensures Utf16Prefix(s, units) == s[..units]
  {
    var r := Utf16Prefix(s, units);
    assert AllBmp(r) by {
      forall i | 0 <= i < |r| ensures r[i] as int < 0x10000 {
        assert r[i] == s[i];
      }
    }
  }

  /** `s.toLowerCase()` for ASCII letters. */
  function LowerAscii(s: string): (r: string)
    ensures |r| == |s|
    ensures forall i :: 0 <= i < |s| && !('A' <= s[i] <= 'Z') ==> r[i] == s[i]
    ensures forall i :: 0 <= i < |s| && 'A' <= s[i] <= 'Z' ==> 'a' <= r[i] <= 'z' && UpperAscii(r[i]) == s[i]
    ensures forall i :: 0 <= i < |r| ==> !('A' <= r[i] <= 'Z')
  {
    seq(|s|, i requires 0 <= i < |s| => if 'A' <= s[i] <= 'Z' then (s[i] as int + 32) as char else s[i])
  }

  /** Lower-casing a lower-cased text changes nothing more. */
  lemma LowerAsciiIdempotent(s: string)
    ensures LowerAscii(LowerAscii(s)) == LowerAscii(s)
  {
    var once := LowerAscii(s);
    var twice := LowerAscii(once);
    forall i | 0 <= i < |once| ensures twice[i] == once[i] {
      assert !('A' <= once[i] <= 'Z');
    }
  }

  /** `a.equalsIgnoreCase(b)` for ASCII letters. */
  predicate EqualsIgnoreCase(a: string, b: string)
    decreases |a|
  {
    |a| == |b| && (|a| == 0 || (UpperAscii(a[0]) == UpperAscii(b[0]) && EqualsIgnoreCase(a[1..], b[1..])))
  }

  /** A text equals its lower-cased form, ignoring case. */
  lemma {:induction false} LowerAsciiEqualsIgnoringCase(s: string)
    ensures EqualsIgnoreCase(LowerAscii(s), s)
    decreases |s|
  {
    if |s| > 0 {
      var r := LowerAscii(s);
      assert r[1..] == LowerAscii(s[1..]);
      LowerAsciiEqualsIgnoringCase(s[1..]);
    }
  }

  /** Comparing ignoring case does not depend on the order of the two texts. */
  lemma {:induction false} EqualsIgnoreCaseIsSymmetric(a: string, b: string)
    ensures EqualsIgnoreCase(a, b) <==> EqualsIgnoreCase(b, a)
    decreases |a|
  {
    if |a| == |b| && |a| > 0 {
      EqualsIgnoreCaseIsSymmetric(a[1..], b[1..]);
    }
  }

  /** Every piece of `s` between occurrences of `sep`, empty pieces included. */
  function Pieces(s: string, sep: char): (r: seq<string>)
    ensures |r| >= 1
    decreases |s|
  {
    if |s| == 0 then [""]
    else
      var rest := Pieces(s[1..], sep);
      if s[0] == sep then [""] + rest else [[s[0]] + rest[0]] + rest[1..]
  }

  /** The inverse of Pieces: the pieces put back together with `sep` between them. */
  function Join(ps: seq<string>, sep: char): string
    requires |ps| >= 1
    decreases |ps|
  {
    if |ps| == 1 then ps[0] else ps[0] + [sep] + Join(ps[1..], sep)
  }

  lemma {:induction false} JoinPieces(s: string, sep: char)
    ensures Join(Pieces(s, sep), sep) == s
    ensures forall k :: 0 <= k < |Pieces(s, sep)| ==> sep !in Pieces(s, sep)[k]
    decreases |s|
  {
    if |s| > 0 {
      JoinPieces(s[1..], sep);
      var rest := Pieces(s[1..], sep);
      if s[0] != sep {
        var r := Pieces(s, sep);
        assert r == [[s[0]] + rest[0]] + rest[1..];
        if |rest| == 1 {
          assert Join(r, sep) == [s[0]] + rest[0];
        } else {
          assert r[1..] == rest[1..];
          assert Join(rest, sep) == rest[0] + [sep] + Join(rest[1..], sep);
        }
        forall k | 0 <= k < |r| ensures sep !in r[k] {
          if k > 0 { assert r[k] == rest[k]; }
        }
      } else {
        var r := Pieces(s, sep);
        assert r[1..] == rest;
      }
    }
  }

  function DropTrailingEmpty(ps: seq<string>): (r: seq<string>)
    ensures |r| <= |ps| && r == ps[..|r|]
    ensures r == [] || r[|r| - 1] != ""
    ensures forall k :: |r| <= k < |ps| ==> ps[k] == ""
    decreases |ps|
  {
    if |ps| > 0 && ps[|ps| - 1] == "" then DropTrailingEmpty(ps[..|ps| - 1]) else ps
  }

  /**
   * `s.split(",")` for a one-character separator: when the separator does not
   * occur the whole string is the one piece (so "" gives [""]); otherwise the
   * pieces without the trailing empty ones.
   */
  function Split(s: string, sep: char): (r: seq<string>)
    ensures sep !in s ==> r == [s]
    ensures forall k :: 0 <= k < |r| ==> sep !in r[k]
  {
    JoinPieces(s, sep);
    if sep !in s then [s] else DropTrailingEmpty(Pieces(s, sep))
  }

  lemma {:induction false} PiecesWithoutSeparator(s: string, sep: char)
    requires sep !in s
    ensures Pieces(s, sep) == [s]
    decreases |s|
  {
    if |s| > 0 {
      assert sep !in s[1..] by {
        forall i | 0 <= i < |s[1..]| ensures s[1..][i] != sep { assert s[1..][i] == s[i + 1]; }
      }
      PiecesWithoutSeparator(s[1..], sep);
      assert [s[0]] + s[1..] == s;
    }
  }

  // ---------------------------------------------------------------------
  // String.valueOf / string concatenation of numbers

  function DigitChar(d: nat): (c: char)
    requires d < 10
    ensures '0' <= c <= '9'
  {
    ['0', '1', '2', '3', '4', '5', '6', '7', '8', '9'][d]
  }

  function DigitValue(c: char): nat
  {
    if '0' <= c <= '9' then c as int - '0' as int else 0
  }

  /** A digit's character reads back as the digit. */
  lemma DigitRoundTrip(d: nat)
    requires d < 10
    ensures DigitValue(DigitChar(d)) == d
  {
    assert DigitChar(d) == ['0', '1', '2', '3', '4', '5', '6', '7', '8', '9'][d];
  }

  /** The decimal text of `n`, as `"" + n` gives it: no sign, no leading zeros. */
  function DecimalText(n: nat): (s: string)
    ensures |s| >= 1
    ensures forall i :: 0 <= i < |s| ==> '0' <= s[i] <= '9'
    ensures |s| > 1 ==> s[0] != '0'
    decreases n
  {
    if n < 10 then [DigitChar(n)] else DecimalText(n / 10) + [DigitChar(n % 10)]
  }

  /** The number a string of decimal digits denotes. */
  function DecimalValue(s: string): nat
    decreases |s|
  {
    if |s| == 0 then 0 else 10 * DecimalValue(s[..|s| - 1]) + DigitValue(s[|s| - 1])
  }

  /** Reading back the decimal text of a number gives the number: distinct numbers have distinct texts. */
  lemma {:induction false} DecimalTextRoundTrip(n: nat)
    ensures DecimalValue(DecimalText(n)) == n
    decreases n
  {
    var q, r := n / 10, n % 10;
    assert n == 10 * q + r && r < 10;
    DigitRoundTrip(r);
    if n >= 10 {
      DecimalTextRoundTrip(q);
      var s := DecimalText(n);
      assert s == DecimalText(q) + [DigitChar(r)];
      assert s[..|s| - 1] == DecimalText(q) && s[|s| - 1] == DigitChar(r);
      assert DecimalValue(s) == 10 * DecimalValue(DecimalText(q)) + DigitValue(DigitChar(r));
    } else {
      var s := DecimalText(n);
      assert s == [DigitChar(n)] && s[..0] == [];
      assert DecimalValue(s) == 10 * DecimalValue([]) + DigitValue(DigitChar(n));
    }
  }

  /** Java's rendering of a nullable Long in a string concatenation. */
  function OptionalNumberText(n: Option<nat>): string {
    if n.None? then "null" else DecimalText(n.value)
  }

  // ---------------------------------------------------------------------
  // java.util.List

  predicate NoDuplicates<T(==)>(s: seq<T>) {
    forall i, j :: 0 <= i < j < |s| ==> s[i] != s[j]
  }

  /** `list.remove(x)`: the first occurrence of `x` taken out, or the list unchanged when absent. */
  function RemoveFirst<T(==)>(s: seq<T>, x: T): (r: seq<T>)
    ensures x !in s ==> r == s
    ensures x in s ==> |r| == |s| - 1
    ensures forall y :: y in r ==> y in s
    ensures forall y :: y in s && y != x ==> y in r
    decreases |s|
  {
    if |s| == 0 then s
    else if s[0] == x then s[1..]
    else [s[0]] + RemoveFirst(s[1..], x)
  }

  /** Where the first occurrence of `x` is at index `i`, exactly that element is cut out. */
  lemma {:induction false} RemoveFirstCutsFirstOccurrence<T>(s: seq<T>, x: T, i: int)
    requires 0 <= i < |s| && s[i] == x && x !in s[..i]
    ensures RemoveFirst(s, x) == s[..i] + s[i + 1..]
    decreases i
  {
    if i > 0 {
      assert s[0] in s[..i];
      assert s[1..][..i - 1] == s[1..i];
      RemoveFirstCutsFirstOccurrence(s[1..], x, i - 1);
      assert [s[0]] + s[1..i] == s[..i];
      assert s[1..][i - 1 + 1..] == s[i + 1..];
    }
  }

  /** As a bag, removing a present element takes away exactly one copy of it. */
  lemma {:induction false} RemoveFirstMultiset<T>(s: seq<T>, x: T)
    requires x in s
    ensures multiset(RemoveFirst(s, x)) == multiset(s) - multiset{x}
    decreases |s|
  {
    assert s == [s[0]] + s[1..];
    if s[0] != x {
      RemoveFirstMultiset(s[1..], x);
    }
  }

  /** Removing from a list without duplicates leaves one without duplicates, and without the element. */
  lemma {:induction false} RemoveFirstKeepsDistinct<T>(s: seq<T>, x: T)
    requires NoDuplicates(s)
    ensures NoDuplicates(RemoveFirst(s, x)) && x !in RemoveFirst(s, x)
    decreases |s|
  {
    if |s| > 0 {
      assert NoDuplicates(s[1..]) by {
        forall i, j | 0 <= i < j < |s[1..]| ensures s[1..][i] != s[1..][j] {
          assert s[1..][i] == s[i + 1] && s[1..][j] == s[j + 1];
        }
      }
      if s[0] != x {
        RemoveFirstKeepsDistinct(s[1..], x);
        var rest := RemoveFirst(s[1..], x);
        assert s[0] !in s[1..];
        assert s[0] !in rest;
        var r := [s[0]] + rest;
        forall i, j | 0 <= i < j < |r| ensures r[i] != r[j] {
          if i == 0 { assert r[j] == rest[j - 1]; } else { assert r[i] == rest[i - 1] && r[j] == rest[j - 1]; }
        }
      } else {
        assert s[0] !in s[1..];
      }
    }
  }
}
