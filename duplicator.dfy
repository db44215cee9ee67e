/** The console program around `BlueprintData`: the digit-string check, the
    prompt that reads a number in a range, and the loop that writes the
    numbered copies.

    Console input is a sequence of lines. The file system is reduced to one
    question per copy, `writable(folderName)`: whether the copy's `bp.sbc` may
    be written (the folder may be created, any old copy may be replaced, and the
    file opens for writing). */
module Duplicator {
  import opened Wrappers
  import opened Text
  import opened XmlStream
  import opened Patterns
  import opened Blueprint
  import opened RoundTrip

  // ---------------------------------------------------------------------------
  // isOnlyDigitsAndAtLeastOne
  // ---------------------------------------------------------------------------

  /** `isOnlyDigitsAndAtLeastOne`: a non-empty run of `'0'..'9'`. */
  method IsOnlyDigitsAndAtLeastOne(s: string) returns (b: bool)
    ensures b <==> |s| >= 1 && AllDigits(s)
  {
    if |s| < 1 {
      return false;
    }
    for i := 0 to |s|
      invariant forall j :: 0 <= j < i ==> IsDigit(s[j])
    {
      var c := s[i];
      if c < '0' || c > '9' {
        return false;
      }
    }
    return true;
  }

  // ---------------------------------------------------------------------------
  // readNumericInputOrQuit
  // ---------------------------------------------------------------------------

  /** The largest value `QString::toInt` accepts. */
  const IntMax: int := 0x7fff_ffff

  /** `QString::toInt` on a digit string: its value, unless it does not fit. */
  function ToInt(s: string): (r: Option<int>)
    requires AllDigits(s)
    ensures r.Some? <==> DigitsValue(s) <= IntMax
    ensures r.Some? ==> r.value == DigitsValue(s) && 0 <= r.value <= IntMax
  {
    if DigitsValue(s) <= IntMax then Some(DigitsValue(s)) else None
  }

  predicate IsQuit(line: string) {
    line == "q" || line == "quit"
  }

  /** The number a reply stands for, when it is one the prompt accepts. */
  function Accepted(line: string, min: int, max: int): Option<int> {
    if |line| >= 1 && AllDigits(line) && DigitsValue(line) <= IntMax && min <= DigitsValue(line) <= max
    then Some(DigitsValue(line))
    else None
  }

  /** A reply the prompt skips: neither a quit nor an accepted number. */
  predicate Rejected(line: string, min: int, max: int) {
    !IsQuit(line) && Accepted(line, min, max).None?
  }

  /** How the prompt ends: a number chosen or a quit, each after reading
      `consumed` lines; or the input ran out while every reply was skipped. */
  datatype Reply = Chosen(choice: int, consumed: nat) | Quit(consumed: nat) | Exhausted

  /** The prompt's answer to the replies from line `k` on. */
  function Answer(lines: seq<string>, min: int, max: int, k: nat): (r: Reply)
    requires k <= |lines|
    ensures r.Chosen? ==>
      k < r.consumed <= |lines| && min <= r.choice <= max &&
      Accepted(lines[r.consumed - 1], min, max) == Some(r.choice) && !IsQuit(lines[r.consumed - 1])
    ensures r.Quit? ==> k < r.consumed <= |lines| && IsQuit(lines[r.consumed - 1])
    ensures r.Chosen? || r.Quit? ==> forall j :: k <= j < r.consumed - 1 ==> Rejected(lines[j], min, max)
    ensures r.Exhausted? ==> forall j :: k <= j < |lines| ==> Rejected(lines[j], min, max)
    decreases |lines| - k
  {
    if k == |lines| then Exhausted
    else if IsQuit(lines[k]) then Quit(k + 1)
    else match Accepted(lines[k], min, max)
      case Some(v) => Chosen(v, k + 1)
      case None => Answer(lines, min, max, k + 1)
  }

  /** `readNumericInputOrQuit` over the console lines `lines`. The source loops
      for ever once the input has run out; here that is `Exhausted`. */
  method ReadNumericInputOrQuit(lines: seq<string>, min: int, max: int) returns (r: Reply)
    ensures r == Answer(lines, min, max, 0)
  {
    var i := 0;
    while i < |lines|
      invariant i <= |lines|
      invariant Answer(lines, min, max, i) == Answer(lines, min, max, 0)
    {
      var reply := lines[i];
      i := i + 1;
      if reply == "q" || reply == "quit" {
        return Quit(i);
      }
      var digits := IsOnlyDigitsAndAtLeastOne(reply);
      if !digits {
        continue;
      }
      var ok := ToInt(reply);
      if ok.None? {
        continue;
      }
      var choice := ok.value;
      if choice < min || choice > max {
        continue;
      }
      return Chosen(choice, i);
    }
    return Exhausted;
  }

  /** A reply is read as the number it spells: `Decimal(n)` is accepted
      wherever `n` is in range. */
  lemma DecimalAccepted(n: nat, min: int, max: int)
    requires min <= n <= max && n <= IntMax
    ensures Accepted(Decimal(n), min, max) == Some(n)
  {
    DecimalValue(n);
  }

  // ---------------------------------------------------------------------------
  // The copy loop of `main`
  // ---------------------------------------------------------------------------

  /** A copy as written: its id, its folder and its `bp.sbc` content. */
  datatype Copy = Copy(id: nat, folderName: string, content: string)

  /** The folder of copy `id`: the display name with its number replaced. */
  function CopyName(bp: BlueprintData, id: nat): string {
    CutDigits(bp.displayName) + Decimal(id)
  }

  function CopyFor(data: seq<Token>, bp: BlueprintData, id: nat, serialize: seq<Token> -> string): Copy {
    Copy(id, CopyName(bp, id), ToXml(data, bp, id, serialize))
  }

  /** Why the copy loop stopped. */
  datatype Stop = Completed | RewriteFailed | NotWritten

  /** The loop of `main` that writes `copyCount` copies numbered from
      `firstIndex`. It stops at the first copy whose rewrite is empty, or whose
      file may not be written. */
  method DuplicateBlueprint(data: seq<Token>, bp: BlueprintData, firstIndex: nat, copyCount: nat,
                            serialize: seq<Token> -> string, writable: string -> bool)
    returns (copies: seq<Copy>, stop: Stop)
    ensures |copies| <= copyCount
    ensures forall i :: 0 <= i < |copies| ==>
      copies[i] == CopyFor(data, bp, firstIndex + i, serialize) &&
      copies[i].content != "" && writable(copies[i].folderName)
    ensures stop.Completed? <==> |copies| == copyCount
    ensures stop.RewriteFailed? ==> ToXml(data, bp, firstIndex + |copies|, serialize) == ""
    ensures stop.NotWritten? ==>
      ToXml(data, bp, firstIndex + |copies|, serialize) != "" && !writable(CopyName(bp, firstIndex + |copies|))
  {
    copies := [];
    var id := firstIndex;
    for i := 0 to copyCount
      invariant id == firstIndex + i && |copies| == i
      invariant forall j :: 0 <= j < i ==>
        copies[j] == CopyFor(data, bp, firstIndex + j, serialize) &&
        copies[j].content != "" && writable(copies[j].folderName)
    {
      var copyData := ToXmlWithNewId(data, bp, id, serialize);
      if copyData == "" {
        return copies, RewriteFailed;
      }
      var copyName := CutDigitsFromEnd(bp.displayName);
      copyName := copyName + Decimal(id);
      if !writable(copyName) {
        return copies, NotWritten;
      }
      copies := copies + [Copy(id, copyName, copyData)];
      id := id + 1;
    }
    stop := Completed;
  }

  /** Different ids give different folders, so no copy overwrites another. */
  lemma CopyNamesDistinct(bp: BlueprintData, m: nat, n: nat)
    requires m != n
    ensures CopyName(bp, m) != CopyName(bp, n)
  {
    var p := CutDigits(bp.displayName);
    if CopyName(bp, m) == CopyName(bp, n) {
      assert Decimal(m) == CopyName(bp, m)[|p|..];
      DecimalValue(m);
      DecimalValue(n);
    }
  }

  /** The copy's folder name carries the copy's id as its number, when the
      display name ends in a space and a number. */
  lemma CopyNameNumber(bp: BlueprintData, id: nat)
    requires TrailingNumber(bp.displayName).Some? && !EndsWithLineFeed(bp.displayName)
    ensures TrailingNumber(CopyName(bp, id)) == Some(id)
  {
    RenumberedName(bp.displayName, id);
  }

  /** With a serializer that never renders tokens as nothing, the rewrite of an
      accepted blueprint is never empty, so the loop only stops early when a
      file may not be written. */
  lemma ToXmlNotEmpty(data: seq<Token>, bp: BlueprintData, id: nat, serialize: seq<Token> -> string)
    requires Extract(data) == Some(bp)
    requires forall ts: seq<Token> :: ts != [] ==> serialize(ts) != ""
    ensures ToXml(data, bp, id, serialize) != ""
  {
    var sEnd := Scan(data, 0, Initial).value;
    MissileNumberHasLine(sEnd.customData);
    Simulation(data, 0, Initial, sEnd, [], RenamingFor(bp, id));
    var out := RewriteTokens(data, bp, id).value;
    assert out != [];
    ReplaceAllNonEmpty(serialize(out), "/>", " />");
    ReplaceAllNonEmpty(SpaceSelfClosing(serialize(out)), "&quot;", "\"");
  }
}
