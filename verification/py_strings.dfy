/** The few Python string operations the drivers rely on, over `string == seq<char>`. */
module PyStrings {

  /** True iff `prefix` is a prefix of `s` (Python's `s.startswith(prefix)`). */
  predicate StartsWith(s: string, prefix: string) {
    |prefix| <= |s| && s[..|prefix|] == prefix
  }

  /** True iff `sub` occurs somewhere in `s` (Python's `sub in s`). */
  predicate Contains(s: string, sub: string)
    decreases |s|
  {
    StartsWith(s, sub) || (|s| > 0 && Contains(s[1..], sub))
  }

  /** `s.split(sep)[0]`: the part of `s` before the first occurrence of `sep`,
      or the whole of `s` when `sep` does not occur. */
  function BeforeFirst(s: string, sep: string): (r: string)
    requires |sep| > 0
    ensures |r| <= |s| && r == s[..|r|]
    ensures forall i :: 0 <= i < |r| ==> !StartsWith(s[i..], sep)
    ensures |r| == |s| || StartsWith(s[|r|..], sep)
    decreases |s|
  {
    if |s| == 0 || StartsWith(s, sep) then []
    else
      var rest := BeforeFirst(s[1..], sep);
      assert forall i :: 1 <= i <= |s| ==> s[1..][i - 1..] == s[i..];
      [s[0]] + rest
  }

  /** `sep.join(parts)` for a one-character separator. */
  function Join(parts: seq<string>, sep: char): string
  {
    if |parts| == 0 then []
    else if |parts| == 1 then parts[0]
    else parts[0] + [sep] + Join(parts[1..], sep)
  }

  /** `s.split(sep)` for a one-character separator: the maximal `sep`-free pieces. */
  function Split(s: string, sep: char): (r: seq<string>)
    ensures |r| >= 1
    ensures forall i :: 0 <= i < |r| ==> sep !in r[i]
    ensures Join(r, sep) == s
    decreases |s|
  {
    if |s| == 0 then [[]]
    else
      var rest := Split(s[1..], sep);
      if s[0] == sep then
        assert ([[]] + rest)[1..] == rest;
        [[]] + rest
      else
        var r := [[s[0]] + rest[0]] + rest[1..];
        assert r[1..] == rest[1..];
        assert |rest| > 1 ==> Join(rest, sep) == rest[0] + [sep] + Join(rest[1..], sep);
        r
  }

  /** Splitting past a `sep`-free first piece. */
  lemma {:induction false} SplitCons(u: string, sep: char, w: string)
    requires sep !in u
    ensures Split(u + [sep] + w, sep) == [u] + Split(w, sep)
    decreases |u|
  {
    var s := u + [sep] + w;
    if |u| == 0 {
      assert s[1..] == w;
    } else {
      assert s[1..] == u[1..] + [sep] + w;
      SplitCons(u[1..], sep, w);
      assert [s[0]] + u[1..] == u;
    }
  }

  /** Splitting undoes joining, when no piece holds the separator. */
  lemma {:induction false} SplitJoin(parts: seq<string>, sep: char)
    requires |parts| >= 1
    requires forall i :: 0 <= i < |parts| ==> sep !in parts[i]
    ensures Split(Join(parts, sep), sep) == parts
    decreases |parts|
  {
    if |parts| == 1 {
      SplitNoSep(parts[0], sep);
    } else {
      SplitJoin(parts[1..], sep);
      SplitCons(parts[0], sep, Join(parts[1..], sep));
      assert [parts[0]] + parts[1..] == parts;
    }
  }

  /** A string without the separator splits into itself alone. */
  lemma {:induction false} SplitNoSep(s: string, sep: char)
    requires sep !in s
    ensures Split(s, sep) == [s]
    decreases |s|
  {
    if |s| > 0 {
      SplitNoSep(s[1..], sep);
      assert [s[0]] + s[1..] == s;
    }
  }

  /** Joining a single piece adds no separator. */
  lemma JoinOne(parts: seq<string>, sep: char)
    ensures |parts| == 1 ==> Join(parts, sep) == parts[0]
  {
  }

  /** A string splits into more than one piece exactly when it holds the separator. */
  lemma SplitOnePiece(s: string, sep: char)
    ensures |Split(s, sep)| == 1 <==> sep !in s
  {
    if sep !in s {
      SplitNoSep(s, sep);
    } else {
      JoinOne(Split(s, sep), sep);
    }
  }

  /** A string with no `sub` inside stays free of it when a character is dropped in front. */
  lemma ContainsTail(s: string, sub: string)
    requires |s| > 0 && !Contains(s, sub)
    ensures !Contains(s[1..], sub)
  {
  }

  /** The first occurrence of `sep` cannot start inside a `sep`-free piece that is
      followed by a character `sep` does not contain. */
  lemma {:induction false} BeforeFirstCons(u: string, c: char, w: string, sep: string)
    requires |sep| > 0 && c !in sep
    requires !Contains(u, sep)
    ensures BeforeFirst(u + [c] + w, sep) == u + [c] + BeforeFirst(w, sep)
    decreases |u|
  {
    var s := u + [c] + w;
    assert !StartsWith(s, sep) by {
      if |sep| <= |u| {
        assert s[..|sep|] == u[..|sep|];
      } else if |sep| <= |s| {
        assert s[..|sep|][|u|] == c;
      }
    }
    if |u| == 0 {
      assert s[1..] == w;
    } else {
      assert s[1..] == u[1..] + [c] + w;
      ContainsTail(u, sep);
      BeforeFirstCons(u[1..], c, w, sep);
      assert [s[0]] + u[1..] == u;
    }
  }

  /** A string lacking the first character of `sub` does not contain `sub`. */
  lemma {:induction false} MissingFirstChar(s: string, sub: string)
    requires |sub| > 0 && sub[0] !in s
    ensures !Contains(s, sub)
    decreases |s|
  {
    if |s| > 0 {
      MissingFirstChar(s[1..], sub);
    }
  }

  predicate IsDigit(c: char) {
    '0' <= c <= '9'
  }

  predicate AllDigits(s: string) {
    forall i :: 0 <= i < |s| ==> IsDigit(s[i])
  }

  function DigitChar(d: nat): (c: char)
    requires d < 10
    ensures IsDigit(c)
  {
    ('0' as int + d) as char
  }

  function DigitValue(c: char): nat
    requires IsDigit(c)
  {
    c as int - '0' as int
  }

  /** `str(n)` for a non-negative integer: its decimal digits, no leading zero. */
  function Decimal(n: nat): (r: string)
    ensures |r| >= 1 && AllDigits(r)
    ensures |r| == 1 <==> n < 10
    ensures r[0] != '0' || n == 0
  {
    if n < 10 then [DigitChar(n)] else Decimal(n / 10) + [DigitChar(n % 10)]
  }

  /** `int(s)` for a non-empty string of decimal digits (leading zeros allowed). */
  function ParseDecimal(s: string): nat
    requires AllDigits(s)
  {
    if |s| == 0 then 0 else ParseDecimal(s[..|s| - 1]) * 10 + DigitValue(s[|s| - 1])
  }

  /** Reading back the digits `str(n)` prints gives `n`. */
  lemma {:induction false} ParseDecimalOfDecimal(n: nat)
    ensures ParseDecimal(Decimal(n)) == n
  {
    if n >= 10 {
      var d := Decimal(n);
      assert d[..|d| - 1] == Decimal(n / 10);
      ParseDecimalOfDecimal(n / 10);
    }
  }

  /** A leading zero does not change the value read. */
  lemma {:induction false} ParseDecimalLeadingZero(s: string)
    requires AllDigits(s)
    ensures ParseDecimal("0" + s) == ParseDecimal(s)
    decreases |s|
  {
    if |s| > 0 {
      assert ("0" + s)[..|s|] == "0" + s[..|s| - 1];
      ParseDecimalLeadingZero(s[..|s| - 1]);
    }
  }

  /** `f'{n:02}'`: the decimal digits of `n`, zero-padded on the left to width two. */
  function Pad2(n: nat): (r: string)
    ensures |r| >= 2 && AllDigits(r)
    ensures n < 10 ==> |r| == 2
    ensures ParseDecimal(r) == n
    ensures n >= 10 ==> r == Decimal(n)
  {
    ParseDecimalOfDecimal(n);
    if n < 10 then
      ParseDecimalLeadingZero(Decimal(n));
      "0" + Decimal(n)
    else Decimal(n)
  }
}
