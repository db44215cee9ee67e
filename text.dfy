/** String helpers the core relies on: decimal digits, `QString::number`,
    `QString::contains`, `QString::replace(QString, QString)`, splitting text
    into lines, and the digit-chopping loop of `cutDigitsFromEnd`. */
module Text {

  // ---------------------------------------------------------------------------
  // Digits and decimal numerals
  // ---------------------------------------------------------------------------

  predicate IsDigit(c: char) {
    '0' <= c <= '9'
  }

  predicate AllDigits(s: string) {
    forall i :: 0 <= i < |s| ==> IsDigit(s[i])
  }

  function DigitValue(c: char): nat
    requires IsDigit(c)
  {
    c as int - '0' as int
  }

  function DigitChar(d: nat): (c: char)
    requires d < 10
    ensures IsDigit(c) && DigitValue(c) == d
  {
    ('0' as int + d) as char
  }

  /** The value of a decimal numeral, most significant digit first
      (`QString::toInt` on a digit string, without its 32-bit limit). */
  function DigitsValue(s: string): nat
    requires AllDigits(s)
  {
    if s == [] then 0 else DigitsValue(s[..|s| - 1]) * 10 + DigitValue(s[|s| - 1])
  }

  /** `QString::number(n)` for a non-negative `n`: the shortest decimal numeral. */
  function Decimal(n: nat): (r: string)
    ensures r != [] && AllDigits(r)
  {
    if n < 10 then [DigitChar(n)] else Decimal(n / 10) + [DigitChar(n % 10)]
  }

  /** Reading back what `Decimal` wrote gives the number. */
  lemma {:induction false} DecimalValue(n: nat)
    ensures DigitsValue(Decimal(n)) == n
  {
    if n >= 10 {
      DecimalValue(n / 10);
      var s := Decimal(n);
      assert s[..|s| - 1] == Decimal(n / 10);
    }
  }

  // ---------------------------------------------------------------------------
  // cutDigitsFromEnd
  // ---------------------------------------------------------------------------

  /** `s` without its maximal run of trailing decimal digits. */
  function CutDigits(s: string): (r: string)
    ensures r <= s
    ensures AllDigits(s[|r|..])
    ensures r == [] || !IsDigit(r[|r| - 1])
    decreases |s|
  {
    if s != [] && IsDigit(s[|s| - 1]) then CutDigits(s[..|s| - 1]) else s
  }

  /** The maximal run of trailing decimal digits of `s` (possibly empty). */
  function TrailingDigits(s: string): (d: string)
    ensures AllDigits(d) && s == CutDigits(s) + d
  {
    s[|CutDigits(s)|..]
  }

  /** `CutDigits` is the only way to split `s` into a part that does not end in
      a digit followed by an all-digit part. */
  lemma CutDigitsUnique(s: string, p: string, d: string)
    requires s == p + d && AllDigits(d)
    requires p == [] || !IsDigit(p[|p| - 1])
    ensures CutDigits(s) == p
  {
    var r := CutDigits(s);
    assert r == s[..|r|] && p == s[..|p|];
  }

  /** Cutting twice cuts no more than cutting once. */
  lemma CutDigitsIdempotent(s: string)
    ensures CutDigits(CutDigits(s)) == CutDigits(s)
  {
    CutDigitsUnique(CutDigits(s), CutDigits(s), []);
  }

  /** Cutting the digits of a name renumbered with `Decimal(n)` gives back
      the cut name. */
  lemma CutDigitsRenumbered(s: string, n: nat)
    ensures CutDigits(CutDigits(s) + Decimal(n)) == CutDigits(s)
  {
    CutDigitsUnique(CutDigits(s) + Decimal(n), CutDigits(s), Decimal(n));
  }

  /** `BlueprintData::cutDigitsFromEnd`: chops the last character while it is a
      digit. */
  method CutDigitsFromEnd(s0: string) returns (s: string)
    ensures s == CutDigits(s0)
  {
    s := s0;
    while |s| > 0
      invariant s <= s0 && AllDigits(s0[|s|..])
      invariant CutDigits(s0) == CutDigits(s)
      decreases |s|
    {
      var c := s[|s| - 1];
      if '0' <= c <= '9' {
        s := s[..|s| - 1];
      } else {
        break;
      }
    }
  }

  // ---------------------------------------------------------------------------
  // QString::contains and QString::replace
  // ---------------------------------------------------------------------------

  /** `s.contains(p)`: `p` occurs in `s` at some offset. */
  predicate Contains(s: string, p: string)
    decreases |s|
  {
    p <= s || (s != [] && Contains(s[1..], p))
  }

  lemma {:induction false} ContainsAfter(x: string, y: string, p: string)
    requires Contains(y, p)
    ensures Contains(x + y, p)
    decreases |x|
  {
    if x != [] {
      assert (x + y)[1..] == x[1..] + y;
      ContainsAfter(x[1..], y, p);
      assert Contains((x + y)[1..], p);
    } else {
      assert x + y == y;
    }
  }

  /** `s.replace(p, q)`: every occurrence of `p`, found left to right without
      overlap, becomes `q`. */
  function ReplaceAll(s: string, p: string, q: string): string
    requires p != []
    decreases |s|
  {
    if s == [] then []
    else if p <= s then q + ReplaceAll(s[|p|..], p, q)
    else [s[0]] + ReplaceAll(s[1..], p, q)
  }

  /** Text that does not contain the pattern is left alone. */
  lemma {:induction false} ReplaceAllAbsent(s: string, p: string, q: string)
    requires p != [] && !Contains(s, p)
    ensures ReplaceAll(s, p, q) == s
    decreases |s|
  {
    if s != [] {
      ReplaceAllAbsent(s[1..], p, q);
    }
  }

  /** Replacing a pattern by itself changes nothing. */
  lemma {:induction false} ReplaceAllSame(s: string, p: string)
    requires p != []
    ensures ReplaceAll(s, p, p) == s
    decreases |s|
  {
    if s != [] {
      if p <= s {
        ReplaceAllSame(s[|p|..], p);
        assert s == p + s[|p|..];
      } else {
        ReplaceAllSame(s[1..], p);
      }
    }
  }

  /** A leading occurrence is replaced and the rest is processed on its own. */
  lemma ReplaceAllLeading(p: string, t: string, q: string)
    requires p != []
    ensures ReplaceAll(p + t, p, q) == q + ReplaceAll(t, p, q)
  {
    assert p <= p + t && (p + t)[|p|..] == t;
  }

  /** A first character that cannot start the pattern is copied. */
  lemma ReplaceAllKeepsHead(c: char, t: string, p: string, q: string)
    requires p != [] && p[0] != c
    ensures ReplaceAll([c] + t, p, q) == [c] + ReplaceAll(t, p, q)
  {
    assert !(p <= [c] + t);
    assert ([c] + t)[1..] == t;
  }

  lemma ReplaceAllNonEmpty(s: string, p: string, q: string)
    requires p != [] && s != [] && q != []
    ensures ReplaceAll(s, p, q) != []
  {
  }

  // ---------------------------------------------------------------------------
  // Lines
  // ---------------------------------------------------------------------------

  /** The segments of `s` between line feeds (always at least one). */
  function SplitLines(s: string): (r: seq<string>)
    ensures |r| >= 1
    ensures forall i :: 0 <= i < |r| ==> '\n' !in r[i]
    decreases |s|
  {
    if s == [] then [""]
    else
      var rest := SplitLines(s[1..]);
      if s[0] == '\n' then [""] + rest else [[s[0]] + rest[0]] + rest[1..]
  }

  /** The lines joined with line feeds. */
  function JoinLines(ls: seq<string>): string
    requires |ls| >= 1
    decreases |ls|
  {
    if |ls| == 1 then ls[0] else ls[0] + "\n" + JoinLines(ls[1..])
  }

  lemma {:induction false} SplitLinesPrefix(a: string, t: string)
    requires '\n' !in a
    ensures SplitLines(a + t) == [a + SplitLines(t)[0]] + SplitLines(t)[1..]
    decreases |a|
  {
    if a != [] {
      assert (a + t)[1..] == a[1..] + t;
      SplitLinesPrefix(a[1..], t);
      assert [a[0]] + (a[1..] + SplitLines(t)[0]) == a + SplitLines(t)[0];
    } else {
      var ls := SplitLines(t);
      assert a + t == t && a + ls[0] == ls[0];
      assert ls == [ls[0]] + ls[1..];
    }
  }

  /** Splitting what was joined gives back lines that had no line feed. */
  lemma {:induction false} SplitJoin(ls: seq<string>)
    requires |ls| >= 1 && forall i :: 0 <= i < |ls| ==> '\n' !in ls[i]
    ensures SplitLines(JoinLines(ls)) == ls
    decreases |ls|
  {
    if |ls| == 1 {
      SplitLinesPrefix(ls[0], "");
      assert ls[0] + "" == ls[0];
    } else {
      SplitJoin(ls[1..]);
      var rest := JoinLines(ls[1..]);
      assert ls[0] + "\n" + rest == ls[0] + ("\n" + rest);
      assert ("\n" + rest)[1..] == rest;
      assert SplitLines("\n" + rest) == [""] + SplitLines(rest);
      SplitLinesPrefix(ls[0], "\n" + rest);
      assert ls[0] + "" == ls[0];
      assert ls == [ls[0]] + ls[1..];
    }
  }

  /** Joining the lines of `s` gives back `s`. */
  lemma {:induction false} JoinSplit(s: string)
    ensures JoinLines(SplitLines(s)) == s
    decreases |s|
  {
    if s != [] {
      JoinSplit(s[1..]);
      var rest := SplitLines(s[1..]);
      if s[0] == '\n' {
        assert SplitLines(s) == [""] + rest;
        assert SplitLines(s)[1..] == rest;
        assert s == "\n" + s[1..];
      } else {
        var ls := SplitLines(s);
        assert ls[0] == [s[0]] + rest[0];
        if |rest| == 1 {
          assert s == [s[0]] + s[1..];
        } else {
          assert ls[1..] == rest[1..];
          assert JoinLines(rest) == rest[0] + "\n" + JoinLines(rest[1..]);
          assert s == [s[0]] + s[1..];
        }
      }
    }
  }

  /** A line starting with `p` makes the joined text contain `p`. */
  lemma {:induction false} JoinedLineContains(ls: seq<string>, k: nat, p: string)
    requires |ls| >= 1 && k < |ls| && p <= ls[k]
    ensures Contains(JoinLines(ls), p)
    decreases k
  {
    if k == 0 {
      if |ls| > 1 {
        assert p <= ls[0] + "\n" + JoinLines(ls[1..]);
      }
    } else {
      JoinedLineContains(ls[1..], k - 1, p);
      ContainsAfter(ls[0] + "\n", JoinLines(ls[1..]), p);
    }
  }
}
