/** Hand-written matchers for the three fixed regular expressions of
    `BlueprintData.cpp` and the two textual fix-ups applied to the serialised
    output.

    - ` (\d+)$` (no options): a space, then digits up to the end of the text or
      up to a line feed that ends the text (PCRE's `$`).
    - `\nMissile number=(\d+)\n`: the first line, other than the first and the
      last, that reads `Missile number=` followed only by digits.
    - `^Missile number=(\d+)$` with the multiline option: any whole line of that
      shape; replacing all matches rewrites each such line. */
module Patterns {
  import opened Wrappers
  import opened Text

  // ---------------------------------------------------------------------------
  // " (\d+)$"
  // ---------------------------------------------------------------------------

  predicate EndsWithLineFeed(s: string) {
    s != [] && s[|s| - 1] == '\n'
  }

  /** The number a ` (\d+)$` match captures in `s`, if there is a match. */
  function TrailingNumber(s: string): (r: Option<nat>)
    ensures r.Some? ==>
      var t := if EndsWithLineFeed(s) then s[..|s| - 1] else s;
      var head := CutDigits(t);
      |head| < |t| && head != [] && head[|head| - 1] == ' ' && r.value == DigitsValue(TrailingDigits(t))
  {
    var t := if EndsWithLineFeed(s) then s[..|s| - 1] else s;
    var head := CutDigits(t);
    if |head| < |t| && head != [] && head[|head| - 1] == ' ' then Some(DigitsValue(t[|head|..]))
    else None
  }

  /** Any text, a space and a non-empty digit run match, with or without one
      line feed after the digits. */
  lemma TrailingNumberOf(p: string, d: string)
    requires d != [] && AllDigits(d)
    ensures TrailingNumber(p + " " + d) == Some(DigitsValue(d))
    ensures TrailingNumber(p + " " + d + "\n") == Some(DigitsValue(d))
  {
    CutDigitsUnique(p + " " + d, p + " ", d);
    var s := p + " " + d + "\n";
    assert EndsWithLineFeed(s) && s[..|s| - 1] == p + " " + d;
  }

  /** The number is written after a space at the end (or before a final line
      feed), so renumbering a name that has one, when it does not end in a line
      feed, gives a name whose number is the new one. */
  lemma RenumberedName(s: string, n: nat)
    requires TrailingNumber(s).Some? && !EndsWithLineFeed(s)
    ensures TrailingNumber(CutDigits(s) + Decimal(n)) == Some(n)
  {
    var head := CutDigits(s);
    var p := head[..|head| - 1];
    assert head == p + " ";
    TrailingNumberOf(p, Decimal(n));
    DecimalValue(n);
  }

  /** As written, a name whose digits are followed by a final line feed has a
      number, but `cutDigitsFromEnd` leaves it whole, so the renumbered name has
      none. */
  lemma RenumberedNameWithLineFeed()
    ensures TrailingNumber("A 1\n") == Some(1)
    ensures TrailingNumber(CutDigits("A 1\n") + Decimal(2)) == None
  {
    TrailingNumberOf("A", "1");
    assert "A" + " " + "1" + "\n" == "A 1\n";
    assert DigitsValue("1") == 1 by {
      assert "1"[..0] == [];
    }
    assert CutDigits("A 1\n") == "A 1\n";
    var s := "A 1\n" + Decimal(2);
    assert Decimal(2) == "2";
    assert s == "A 1\n2";
    assert !EndsWithLineFeed(s);
    CutDigitsUnique(s, "A 1\n", "2");
  }

  // ---------------------------------------------------------------------------
  // The missile number in the payload
  // ---------------------------------------------------------------------------

  const Marker: string := "Missile number="

  /** A whole line reading `Missile number=` and one or more digits. */
  predicate IsMissileLine(l: string) {
    Marker <= l && |l| > |Marker| && AllDigits(l[|Marker|..])
  }

  function MissileLineNumber(l: string): nat
    requires IsMissileLine(l)
  {
    DigitsValue(l[|Marker|..])
  }

  /** The number on the first missile line among `ls[i..]` that is not the last
      line. */
  function FirstMissileFrom(ls: seq<string>, i: nat): (r: Option<nat>)
    ensures r.None? <==> forall k :: i <= k < |ls| - 1 ==> !IsMissileLine(ls[k])
    ensures r.Some? ==> exists k :: i <= k < |ls| - 1 && IsMissileLine(ls[k]) && r.value == MissileLineNumber(ls[k])
    decreases |ls| - i
  {
    if i + 1 >= |ls| then None
    else if IsMissileLine(ls[i]) then Some(MissileLineNumber(ls[i]))
    else FirstMissileFrom(ls, i + 1)
  }

  /** The first missile line from `i` on decides the result. */
  lemma {:induction false} FirstMissileAt(ls: seq<string>, i: nat, k: nat)
    requires i <= k < |ls| - 1 && IsMissileLine(ls[k])
    requires forall j :: i <= j < k ==> !IsMissileLine(ls[j])
    ensures FirstMissileFrom(ls, i) == Some(MissileLineNumber(ls[k]))
    decreases k - i
  {
    if i < k {
      FirstMissileAt(ls, i + 1, k);
    }
  }

  /** What `\nMissile number=(\d+)\n` captures in the payload text: the missile
      line must have a line feed before and after it. */
  function MissileNumber(text: string): Option<nat> {
    FirstMissileFrom(SplitLines(text), 1)
  }

  /** `^Missile number=(\d+)$` (multiline) matches somewhere in the text. */
  predicate HasMissileLine(text: string) {
    var ls := SplitLines(text);
    exists i :: 0 <= i < |ls| && IsMissileLine(ls[i])
  }

  lemma MissileNumberHasLine(text: string)
    requires MissileNumber(text).Some?
    ensures HasMissileLine(text)
  {
  }

  function RenumberLine(l: string, n: nat): string {
    if IsMissileLine(l) then Marker + Decimal(n) else l
  }

  function RenumberLines(ls: seq<string>, n: nat): (ms: seq<string>)
    ensures |ms| == |ls|
  {
    seq(|ls|, i requires 0 <= i < |ls| => RenumberLine(ls[i], n))
  }

  /** `replace` of `^Missile number=(\d+)$` (multiline) by
      `Missile number=<n>`. */
  function RenumberPayload(text: string, n: nat): string {
    JoinLines(RenumberLines(SplitLines(text), n))
  }

  lemma RenumberedLinesHaveNoLineFeed(ls: seq<string>, n: nat)
    requires forall i :: 0 <= i < |ls| ==> '\n' !in ls[i]
    ensures forall i :: 0 <= i < |ls| ==> '\n' !in RenumberLines(ls, n)[i]
  {
    forall i | 0 <= i < |ls|
      ensures '\n' !in RenumberLines(ls, n)[i]
    {
      if IsMissileLine(ls[i]) {
        var d := Decimal(n);
        assert forall j :: 0 <= j < |d| ==> (Marker + d)[|Marker| + j] == d[j];
      }
    }
  }

  /** Line by line, the renumbered payload has a `Missile number=<n>` line
      where the payload had a missile line, and the same line elsewhere. */
  lemma RenumberPayloadLines(text: string, n: nat)
    ensures var ls := SplitLines(text);
      var ms := SplitLines(RenumberPayload(text, n));
      |ms| == |ls| &&
      forall i :: 0 <= i < |ls| ==>
        ms[i] == (if IsMissileLine(ls[i]) then Marker + Decimal(n) else ls[i])
  {
    var ls := SplitLines(text);
    RenumberedLinesHaveNoLineFeed(ls, n);
    SplitJoin(RenumberLines(ls, n));
  }

  /** Extracting the number from a renumbered payload gives the new number. */
  lemma RenumberedPayloadNumber(text: string, n: nat)
    requires MissileNumber(text).Some?
    ensures MissileNumber(RenumberPayload(text, n)) == Some(n)
  {
    var ls := SplitLines(text);
    RenumberPayloadLines(text, n);
    var ms := SplitLines(RenumberPayload(text, n));
    var k :| 1 <= k < |ls| - 1 && IsMissileLine(ls[k]) && forall j :: 1 <= j < k ==> !IsMissileLine(ls[j]) by {
      FirstMissileIndex(ls, 1);
    }
    assert ms[k] == Marker + Decimal(n);
    assert (Marker + Decimal(n))[|Marker|..] == Decimal(n);
    assert IsMissileLine(ms[k]);
    DecimalValue(n);
    FirstMissileAt(ms, 1, k);
  }

  /** When there is a missile line from `i` on, there is a first one. */
  lemma {:induction false} FirstMissileIndex(ls: seq<string>, i: nat)
    requires FirstMissileFrom(ls, i).Some?
    ensures exists k :: i <= k < |ls| - 1 && IsMissileLine(ls[k]) && forall j :: i <= j < k ==> !IsMissileLine(ls[j])
    decreases |ls| - i
  {
    if !IsMissileLine(ls[i]) {
      FirstMissileIndex(ls, i + 1);
    }
  }

  /** A payload with a missile line still contains the marker once renumbered. */
  lemma RenumberedPayloadKeepsMarker(text: string, n: nat)
    requires HasMissileLine(text)
    ensures Contains(RenumberPayload(text, n), Marker)
  {
    var ls := SplitLines(text);
    var k :| 0 <= k < |ls| && IsMissileLine(ls[k]);
    var ms := RenumberLines(ls, n);
    assert Marker <= ms[k];
    JoinedLineContains(ms, k, Marker);
  }

  // ---------------------------------------------------------------------------
  // Output fix-ups
  // ---------------------------------------------------------------------------

  /** Every `/>` becomes ` />`. */
  function SpaceSelfClosing(s: string): string {
    ReplaceAll(s, "/>", " />")
  }

  /** Every `&quot;` becomes `"`. */
  function UnescapeQuotes(s: string): string {
    ReplaceAll(s, "&quot;", "\"")
  }

  /** Both fix-ups, in the order the source applies them. */
  function FixUp(s: string): string {
    UnescapeQuotes(SpaceSelfClosing(s))
  }

  /** The first character after the space fix-up is the original first character
      or the inserted space. */
  lemma SpaceSelfClosingHead(s: string)
    requires s != []
    ensures SpaceSelfClosing(s) != [] && SpaceSelfClosing(s)[0] in {s[0], ' '}
  {
  }

  /** After the space fix-up, the text does not start with `/>` and every `/>`
      in it follows a space. */
  lemma {:induction false} SpaceSelfClosingSpaced(s: string)
    ensures var r := SpaceSelfClosing(s);
      !("/>" <= r) &&
      forall i :: 1 <= i <= |r| - 2 && r[i] == '/' && r[i + 1] == '>' ==> r[i - 1] == ' '
    decreases |s|
  {
    var r := SpaceSelfClosing(s);
    if s != [] {
      if "/>" <= s {
        var t := s[2..];
        SpaceSelfClosingSpaced(t);
        var rt := SpaceSelfClosing(t);
        assert r == " />" + rt;
        forall i | 1 <= i <= |r| - 2 && r[i] == '/' && r[i + 1] == '>'
          ensures r[i - 1] == ' '
        {
          if i >= 4 {
            assert r[i] == rt[i - 3] && r[i + 1] == rt[i - 2] && r[i - 1] == rt[i - 4];
          }
        }
      } else {
        var t := s[1..];
        SpaceSelfClosingSpaced(t);
        var rt := SpaceSelfClosing(t);
        assert r == [s[0]] + rt;
        if t != [] {
          SpaceSelfClosingHead(t);
        }
        forall i | 1 <= i <= |r| - 2 && r[i] == '/' && r[i + 1] == '>'
          ensures r[i - 1] == ' '
        {
          if i >= 2 {
            assert r[i] == rt[i - 1] && r[i + 1] == rt[i] && r[i - 1] == rt[i - 2];
          }
        }
      }
    }
  }

  /** The serialiser writes every `"` as `&quot;`; for text without `&`, the
      quote fix-up gives the text back. */
  function EscapeQuotes(t: string): string {
    if t == [] then [] else (if t[0] == '"' then "&quot;" else [t[0]]) + EscapeQuotes(t[1..])
  }

  lemma {:induction false} UnescapeQuotesUndoesEscape(t: string)
    requires '&' !in t
    ensures UnescapeQuotes(EscapeQuotes(t)) == t
    decreases |t|
  {
    if t != [] {
      UnescapeQuotesUndoesEscape(t[1..]);
      if t[0] == '"' {
        ReplaceAllLeading("&quot;", EscapeQuotes(t[1..]), "\"");
      } else {
        ReplaceAllKeepsHead(t[0], EscapeQuotes(t[1..]), "&quot;", "\"");
      }
      assert t == [t[0]] + t[1..];
    }
  }
}
