/**
 * The few pieces of Python's `str` behaviour that the scanners rely on:
 * `sep.join(parts)`, `s.replace(a, b)` for single characters, `s.title()`
 * and `str(n)` for integers.
 */
module PyText {

  /** `sep.join(parts)`. */
  function Join(parts: seq<string>, sep: string): string
    decreases |parts|
  {
    if |parts| == 0 then ""
    else if |parts| == 1 then parts[0]
    else Join(parts[..|parts| - 1], sep) + sep + parts[|parts| - 1]
  }

  /** Total length of the parts, separators not counted. */
  function TotalLength(parts: seq<string>): nat
    decreases |parts|
  {
    if |parts| == 0 then 0 else TotalLength(parts[..|parts| - 1]) + |parts[|parts| - 1]|
  }

  /** A joined string is as long as its parts plus one separator between each neighbouring pair. */
  lemma {:induction false} JoinLength(parts: seq<string>, sep: string)
    ensures |parts| > 0 ==> |Join(parts, sep)| == TotalLength(parts) + (|parts| - 1) * |sep|
    ensures |parts| == 0 ==> Join(parts, sep) == ""
    decreases |parts|
  {
    if |parts| > 1 {
      JoinLength(parts[..|parts| - 1], sep);
      var init := parts[..|parts| - 1];
      assert init[..|init| - 1] == parts[..|parts| - 2];
      assert TotalLength(parts) == TotalLength(init) + |parts[|parts| - 1]|;
    }
  }

  /** Joining two non-empty lists of parts is joining each and putting one separator between. */
  lemma {:induction false} JoinAppend(a: seq<string>, b: seq<string>, sep: string)
    requires a != [] && b != []
    ensures Join(a + b, sep) == Join(a, sep) + sep + Join(b, sep)
    decreases |b|
  {
    var ab := a + b;
    if |b| == 1 {
      assert ab[..|ab| - 1] == a;
    } else {
      var init := b[..|b| - 1];
      assert ab[..|ab| - 1] == a + init;
      JoinAppend(a, init, sep);
    }
  }

  /** When no part is empty, the joined string is empty exactly when there are no parts. */
  lemma JoinEmptyIff(parts: seq<string>, sep: string)
    requires forall i :: 0 <= i < |parts| ==> parts[i] != ""
    ensures Join(parts, sep) == "" <==> parts == []
  {
    JoinLength(parts, sep);
    if parts != [] {
      TotalLengthAtLeastLast(parts);
    }
  }

  lemma TotalLengthAtLeastLast(parts: seq<string>)
    requires parts != []
    ensures TotalLength(parts) >= |parts[|parts| - 1]|
  {
  }

  /** `s.replace(from, to)` for a single character replaced by a single character, scanning left to right. */
  function Replace(s: string, from: char, to: char): string
    decreases |s|
  {
    if s == [] then []
    else [if s[0] == from then to else s[0]] + Replace(s[1..], from, to)
  }

  /** Replace keeps the length and swaps exactly the characters equal to `from`. */
  lemma {:induction false} ReplaceAt(s: string, from: char, to: char)
    ensures |Replace(s, from, to)| == |s|
    ensures forall i :: 0 <= i < |s| ==> Replace(s, from, to)[i] == (if s[i] == from then to else s[i])
    decreases |s|
  {
    if s != [] {
      var tail := s[1..];
      ReplaceAt(tail, from, to);
      var r := Replace(s, from, to);
      assert r[1..] == Replace(tail, from, to);
      forall i | 0 < i < |s| ensures r[i] == (if s[i] == from then to else s[i]) {
        assert r[i] == Replace(tail, from, to)[i - 1];
        assert s[i] == tail[i - 1];
      }
    }
  }

  /** The letters `str.title()` treats as cased (ASCII letters; see README). */
  predicate IsCased(c: char) {
    'a' <= c <= 'z' || 'A' <= c <= 'Z'
  }

  function ToUpper(c: char): char {
    if 'a' <= c <= 'z' then (c as int - 32) as char else c
  }

  function ToLower(c: char): char {
    if 'A' <= c <= 'Z' then (c as int + 32) as char else c
  }

  /**
   * `str.title()` on the rest of a string, `afterCased` telling whether the
   * character just before it was cased: a cased character is upper-cased after
   * an uncased one and lower-cased after a cased one; others are kept.
   */
  function TitleFrom(s: string, afterCased: bool): string
    decreases |s|
  {
    if s == [] then []
    else
      var c := s[0];
      [if !IsCased(c) then c else if afterCased then ToLower(c) else ToUpper(c)]
        + TitleFrom(s[1..], IsCased(c))
  }

  /** `s.title()`. */
  function Title(s: string): string {
    TitleFrom(s, false)
  }

  /** The character `str.title()` puts at position `i`, stated position by position. */
  ghost predicate TitledAt(s: string, r: string, i: int)
    requires 0 <= i < |s| == |r|
  {
    var afterCased := i > 0 && IsCased(s[i - 1]);
    r[i] == (if !IsCased(s[i]) then s[i] else if afterCased then ToLower(s[i]) else ToUpper(s[i]))
  }

  /** Title keeps the length and puts at each position the case the position before it decides. */
  lemma {:induction false} TitleAt(s: string)
    ensures |Title(s)| == |s|
    ensures forall i :: 0 <= i < |s| ==> TitledAt(s, Title(s), i)
  {
    TitleFromAt(s, false);
  }

  lemma {:induction false} TitleFromAt(s: string, afterCased: bool)
    ensures |TitleFrom(s, afterCased)| == |s|
    ensures s != [] ==>
              TitleFrom(s, afterCased)[0] ==
              (if !IsCased(s[0]) then s[0] else if afterCased then ToLower(s[0]) else ToUpper(s[0]))
    ensures forall i :: 0 < i < |s| ==> TitledAt(s, TitleFrom(s, afterCased), i)
    decreases |s|
  {
    if s != [] {
      var r := TitleFrom(s, afterCased);
      var tail := s[1..];
      TitleFromAt(tail, IsCased(s[0]));
      assert r[1..] == TitleFrom(tail, IsCased(s[0]));
      forall i | 0 < i < |s|
        ensures TitledAt(s, r, i)
      {
        assert r[i] == TitleFrom(tail, IsCased(s[0]))[i - 1];
        if i > 1 {
          assert TitledAt(tail, TitleFrom(tail, IsCased(s[0])), i - 1);
        }
      }
    }
  }

  /** Title-casing a title-cased string changes nothing. */
  lemma {:induction false} TitleIdempotent(s: string)
    ensures Title(Title(s)) == Title(s)
  {
    TitleFromIdempotent(s, false);
  }

  lemma {:induction false} TitleFromIdempotent(s: string, afterCased: bool)
    ensures TitleFrom(TitleFrom(s, afterCased), afterCased) == TitleFrom(s, afterCased)
    decreases |s|
  {
    if s != [] {
      var t := TitleFrom(s, afterCased);
      assert t[0] == (if !IsCased(s[0]) then s[0] else if afterCased then ToLower(s[0]) else ToUpper(s[0]));
      assert IsCased(t[0]) == IsCased(s[0]);
      assert t[1..] == TitleFrom(s[1..], IsCased(s[0]));
      TitleFromIdempotent(s[1..], IsCased(s[0]));
    }
  }

  function DigitChar(d: nat): char
    requires d < 10
  {
    "0123456789"[d]
  }

  /** Decimal digits of a natural number, most significant first, as `str(n)` prints them. */
  function Digits(n: nat): string
    decreases n
  {
    if n < 10 then [DigitChar(n)] else Digits(n / 10) + [DigitChar(n % 10)]
  }

  /** `str(i)` for a Python `int`. */
  function IntToString(i: int): string {
    if i < 0 then "-" + Digits(-i) else Digits(i)
  }

  /** Reads back a string of decimal digits; the inverse of `Digits`. */
  function DigitsValue(s: string): int
    decreases |s|
  {
    if s == [] then 0
    else DigitsValue(s[..|s| - 1]) * 10 + (s[|s| - 1] as int - '0' as int)
  }

  /** Reads back `str(i)`. */
  function ParseInt(s: string): int {
    if |s| > 0 && s[0] == '-' then -DigitsValue(s[1..]) else DigitsValue(s)
  }

  lemma {:induction false} DigitsRoundTrip(n: nat)
    ensures Digits(n) != [] && Digits(n)[0] != '-'
    ensures DigitsValue(Digits(n)) == n
    decreases n
  {
    var d := Digits(n);
    if n >= 10 {
      DigitsRoundTrip(n / 10);
      assert d[..|d| - 1] == Digits(n / 10);
    }
  }

  /** `str(i)` reads back to `i`. */
  lemma IntToStringRoundTrip(i: int)
    ensures ParseInt(IntToString(i)) == i
  {
    if i < 0 {
      SignedRoundTrip(-i);
    } else {
      DigitsRoundTrip(i);
      assert Digits(i)[0] != '-';
    }
  }

  lemma SignedRoundTrip(n: nat)
    requires n > 0
    ensures ParseInt("-" + Digits(n)) == -(n as int)
  {
    var s := "-" + Digits(n);
    assert s[1..] == Digits(n);
    DigitsRoundTrip(n);
  }
}
