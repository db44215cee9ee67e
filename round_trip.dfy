/** What a renumbered copy reads back as.

    `toXMLWithNewId` walks the token stream exactly as `fromXml` does and
    rewrites what `fromXml` reads at the four sites and in the payload. So when
    `fromXml` accepts a blueprint, the rewrite succeeds, and reading the copy
    back gives the same blueprint with the new names, item names and number.
    This is stated on tokens: the writer's output is read back as the tokens it
    was given. */
module RoundTrip {
  import opened Wrappers
  import opened Text
  import opened XmlStream
  import opened Patterns
  import opened Blueprint

  /** Every item name renamed, in order. */
  function RenameItems(items: seq<string>, rn: Renaming): (r: seq<string>)
    ensures |r| == |items|
  {
    seq(|items|, i requires 0 <= i < |items| => RenameItem(items[i], rn))
  }

  /** The state the scan of the copy is in, where the scan of the original is
      in state `s`: every field found so far carries its rewritten value. */
  function Renamed(s: ScanState, rn: Renaming): ScanState {
    ScanState(
      s.stack,
      s.haveIdSubType, if s.haveIdSubType then rn.idSubType else s.idSubType,
      s.haveDisplayName, if s.haveDisplayName then rn.displayName else s.displayName,
      s.haveGroupName, if s.haveGroupName then rn.groupName else s.groupName,
      s.haveCustomData, if s.haveCustomData then RenumberPayload(s.customData, rn.newId) else s.customData,
      RenameItems(s.itemNames, rn))
  }

  /** The record the copy should read back as. */
  function Renumbered(bp: BlueprintData, newId: nat): BlueprintData {
    var rn := RenamingFor(bp, newId);
    BlueprintData(rn.idSubType, rn.displayName, rn.groupName,
      RenameItems(bp.itemNames, rn),
      newId)
  }

  /** Text written as one `Characters` token followed by the end tag reads back
      as that text. */
  lemma WrittenText(out: seq<Token>, i: nat, x: string)
    requires i + 1 < |out| && out[i] == Characters(x) && out[i + 1] == EndElement
    ensures ElementText(out, i, "") == Some((x, i + 2))
  {
    assert "" + x == x;
  }

  /** The item rename maps the old group prefix to the new one. */
  lemma RenamedItemPrefix(item: string, rn: Renaming)
    requires ItemPrefix(rn.oldGroupName) <= item
    ensures ItemPrefix(rn.groupName) <= RenameItem(item, rn)
  {
    var p, q := rn.OldItemPrefix(), rn.NewItemPrefix();
    var rest := item[|ItemPrefix(rn.oldGroupName)|..];
    assert item == p + ([' '] + rest);
    ReplaceAllLeading(p, [' '] + rest, q);
    ReplaceAllKeepsHead(' ', rest, p, q);
    assert RenameItem(item, rn) == q + [' '] + ReplaceAll(rest, p, q);
  }

  /** An item whose name mentions the old group only in its prefix keeps the
      rest of its name. */
  lemma RenamedItemKeepsRest(rest: string, rn: Renaming)
    requires !Contains(rest, rn.OldItemPrefix())
    ensures RenameItem(ItemPrefix(rn.oldGroupName) + rest, rn) == ItemPrefix(rn.groupName) + rest
  {
    var p, q := rn.OldItemPrefix(), rn.NewItemPrefix();
    var t := [' '] + rest;
    assert ItemPrefix(rn.oldGroupName) + rest == p + t;
    ReplaceAllLeading(p, t, q);
    ReplaceAllKeepsHead(' ', rest, p, q);
    ReplaceAllAbsent(rest, p, q);
    assert ItemPrefix(rn.groupName) + rest == q + t;
  }

  /** Rewriting from `pos` succeeds whenever scanning from `pos` does (and the
      payload, if any, has a line the rewrite can renumber), and scanning what
      was written from where it starts ends in the renamed final state. */
  lemma {:induction false} Simulation(tokens: seq<Token>, pos: nat, s: ScanState, sEnd: ScanState,
                                      out: seq<Token>, rn: Renaming)
    requires Scan(tokens, pos, s) == Some(sEnd)
    requires sEnd.haveCustomData ==> HasMissileLine(sEnd.customData)
    ensures Rewrite(tokens, pos, s.stack, out, rn).Some?
    ensures Scan(Rewrite(tokens, pos, s.stack, out, rn).value, |out|, Renamed(s, rn)) == Some(Renamed(sEnd, rn))
    decreases |tokens| - pos, 1
  {
    match tokens[pos]
    case StartElement(name, ns, decls, attrs) =>
      var site := SiteOf(Top(s.stack), name);
      if site == IdSite {
        SimulationId(tokens, pos, s, sEnd, out, rn);
      } else if site == Plain {
        SimulationPlain(tokens, pos, s, sEnd, out, rn);
      } else {
        SimulationText(tokens, pos, s, sEnd, out, rn);
      }
    case EndElement =>
      SimulationEnd(tokens, pos, s, sEnd, out, rn);
    case StartDocument =>
      Simulation(tokens, pos + 1, s, sEnd, out + [StartDocument], rn);
      var r := Rewrite(tokens, pos + 1, s.stack, out + [StartDocument], rn).value;
      assert r[|out|] == StartDocument;
    case EndDocument =>
      assert (out + [EndDocument])[|out|] == EndDocument;
    case Characters(t) =>
      SimulationCharacters(tokens, pos, s, sEnd, out, rn);
  }

  lemma {:induction false} SimulationId(tokens: seq<Token>, pos: nat, s: ScanState, sEnd: ScanState,
                                        out: seq<Token>, rn: Renaming)
    requires Scan(tokens, pos, s) == Some(sEnd)
    requires sEnd.haveCustomData ==> HasMissileLine(sEnd.customData)
    requires pos < |tokens| && tokens[pos].StartElement? && SiteOf(Top(s.stack), tokens[pos].name) == IdSite
    ensures Rewrite(tokens, pos, s.stack, out, rn).Some?
    ensures Scan(Rewrite(tokens, pos, s.stack, out, rn).value, |out|, Renamed(s, rn)) == Some(Renamed(sEnd, rn))
    decreases |tokens| - pos, 0
  {
    var StartElement(name, ns, decls, attrs) := tokens[pos];
    var pushed := s.stack + [name];
    assert Lookup(attrs, "", "Subtype").Some?;
    var v := Lookup(attrs, "", "Subtype").value;
    var s' := s.(stack := pushed, haveIdSubType := true, idSubType := v);
    var tag := IdStartTag(name, ns, decls, attrs, rn);
    assert Scan(tokens, pos + 1, s') == Some(sEnd) by {
      ScanAtId(tokens, pos, s);
    }
    assert Rewrite(tokens, pos, s.stack, out, rn) == Rewrite(tokens, pos + 1, pushed, out + [tag], rn) by {
      RewriteAtId(tokens, pos, s.stack, out, rn);
    }
    Simulation(tokens, pos + 1, s', sEnd, out + [tag], rn);
    var r := Rewrite(tokens, pos + 1, pushed, out + [tag], rn).value;
    IdReadBack(r, |out|, s, name, ns, decls, attrs, v, rn);
  }

  /** The scan of the copy reads the written `Id` tag as the new grid name. */
  lemma IdReadBack(r: seq<Token>, i: nat, s: ScanState, name: string, ns: string,
                   decls: seq<NamespaceDeclaration>, attrs: seq<Attribute>, v: string, rn: Renaming)
    requires i < |r| && r[i] == IdStartTag(name, ns, decls, attrs, rn)
    requires SiteOf(Top(s.stack), name) == IdSite
    ensures Scan(r, i, Renamed(s, rn)) ==
      Scan(r, i + 1, Renamed(s.(stack := s.stack + [name], haveIdSubType := true, idSubType := v), rn))
  {
    IdStartTagSubtype(name, ns, decls, attrs, rn);
    ScanAtId(r, i, Renamed(s, rn));
  }

  /** The `Id` tag written carries the new `Subtype`. */
  lemma IdStartTagSubtype(name: string, ns: string, decls: seq<NamespaceDeclaration>, attrs: seq<Attribute>, rn: Renaming)
    ensures Lookup(IdStartTag(name, ns, decls, attrs, rn).attributes, "", "Subtype") == Some(rn.idSubType)
  {
    var a := IdStartTag(name, ns, decls, attrs, rn).attributes;
    assert !Names(a[0], "", "Subtype") && Names(a[1], "", "Subtype");
    assert a[1..][1..] == [];
  }

  lemma {:induction false} SimulationPlain(tokens: seq<Token>, pos: nat, s: ScanState, sEnd: ScanState,
                                           out: seq<Token>, rn: Renaming)
    requires Scan(tokens, pos, s) == Some(sEnd)
    requires sEnd.haveCustomData ==> HasMissileLine(sEnd.customData)
    requires pos < |tokens| && tokens[pos].StartElement? && SiteOf(Top(s.stack), tokens[pos].name) == Plain
    ensures Rewrite(tokens, pos, s.stack, out, rn).Some?
    ensures Scan(Rewrite(tokens, pos, s.stack, out, rn).value, |out|, Renamed(s, rn)) == Some(Renamed(sEnd, rn))
    decreases |tokens| - pos, 0
  {
    var tag := tokens[pos];
    var pushed := s.stack + [tag.name];
    Simulation(tokens, pos + 1, s.(stack := pushed), sEnd, out + [tag], rn);
    var r := Rewrite(tokens, pos + 1, pushed, out + [tag], rn).value;
    assert r[|out|] == tag;
    assert Renamed(s.(stack := pushed), rn) == Renamed(s, rn).(stack := pushed);
  }

  lemma RenamedFound(s: ScanState, site: Site, text: string, rn: Renaming)
    requires site in {DisplayNameSite, GroupNameSite, CustomNameSite}
    ensures Renamed(Found(s, site, text), rn) == Found(Renamed(s, rn), site, Written(site, text, rn))
  {
    if site == CustomNameSite {
      assert Renamed(Found(s, site, text), rn).itemNames == Renamed(s, rn).itemNames + [RenameItem(text, rn)];
    }
  }

  /** The three sites whose text `readElementText` consumes. */
  lemma {:induction false} SimulationText(tokens: seq<Token>, pos: nat, s: ScanState, sEnd: ScanState,
                                          out: seq<Token>, rn: Renaming)
    requires Scan(tokens, pos, s) == Some(sEnd)
    requires sEnd.haveCustomData ==> HasMissileLine(sEnd.customData)
    requires pos < |tokens| && tokens[pos].StartElement?
    requires SiteOf(Top(s.stack), tokens[pos].name) in {DisplayNameSite, GroupNameSite, CustomNameSite}
    ensures Rewrite(tokens, pos, s.stack, out, rn).Some?
    ensures Scan(Rewrite(tokens, pos, s.stack, out, rn).value, |out|, Renamed(s, rn)) == Some(Renamed(sEnd, rn))
    decreases |tokens| - pos, 0
  {
    var StartElement(name, ns, decls, attrs) := tokens[pos];
    var site := SiteOf(Top(s.stack), name);
    assert ElementText(tokens, pos + 1, "").Some?;
    var (text, next) := ElementText(tokens, pos + 1, "").value;
    ScanAtText(tokens, pos, s);
    RewriteAtText(tokens, pos, s.stack, out, rn);
    var written := Written(site, text, rn);
    var chunk := [StartElement(name, ns, decls, []), Characters(written), EndElement];
    var s' := Found(s, site, text);
    Simulation(tokens, next, s', sEnd, out + chunk, rn);
    var r := Rewrite(tokens, next, s.stack, out + chunk, rn).value;
    assert r[|out|] == chunk[0] && r[|out| + 1] == chunk[1] && r[|out| + 2] == chunk[2];
    TextReadBack(r, |out|, s, name, ns, decls, site, text, rn);
  }

  /** The scan of the copy reads a written text site as the renamed text. */
  lemma TextReadBack(r: seq<Token>, i: nat, s: ScanState, name: string, ns: string,
                     decls: seq<NamespaceDeclaration>, site: Site, text: string, rn: Renaming)
    requires i + 2 < |r| && r[i] == StartElement(name, ns, decls, [])
    requires r[i + 1] == Characters(Written(site, text, rn)) && r[i + 2] == EndElement
    requires site == SiteOf(Top(s.stack), name) && site in {DisplayNameSite, GroupNameSite, CustomNameSite}
    requires site == GroupNameSite ==> !s.haveGroupName
    ensures Scan(r, i, Renamed(s, rn)) == Scan(r, i + 3, Renamed(Found(s, site, text), rn))
  {
    WrittenText(r, i + 1, Written(site, text, rn));
    var rs := Renamed(s, rn);
    assert rs.haveGroupName == s.haveGroupName;
    ScanAtText(r, i, rs);
    RenamedFound(s, site, text, rn);
  }

  lemma {:induction false} SimulationEnd(tokens: seq<Token>, pos: nat, s: ScanState, sEnd: ScanState,
                                         out: seq<Token>, rn: Renaming)
    requires Scan(tokens, pos, s) == Some(sEnd)
    requires sEnd.haveCustomData ==> HasMissileLine(sEnd.customData)
    requires pos < |tokens| && tokens[pos].EndElement?
    ensures Rewrite(tokens, pos, s.stack, out, rn).Some?
    ensures Scan(Rewrite(tokens, pos, s.stack, out, rn).value, |out|, Renamed(s, rn)) == Some(Renamed(sEnd, rn))
    decreases |tokens| - pos, 0
  {
    Simulation(tokens, pos + 1, s.(stack := Pop(s.stack)), sEnd, out + [EndElement], rn);
    var r := Rewrite(tokens, pos + 1, Pop(s.stack), out + [EndElement], rn).value;
    assert r[|out|] == EndElement;
    assert Renamed(s.(stack := Pop(s.stack)), rn) == Renamed(s, rn).(stack := Pop(s.stack));
  }

  lemma {:induction false} SimulationCharacters(tokens: seq<Token>, pos: nat, s: ScanState, sEnd: ScanState,
                                                out: seq<Token>, rn: Renaming)
    requires Scan(tokens, pos, s) == Some(sEnd)
    requires sEnd.haveCustomData ==> HasMissileLine(sEnd.customData)
    requires pos < |tokens| && tokens[pos].Characters?
    ensures Rewrite(tokens, pos, s.stack, out, rn).Some?
    ensures Scan(Rewrite(tokens, pos, s.stack, out, rn).value, |out|, Renamed(s, rn)) == Some(Renamed(sEnd, rn))
    decreases |tokens| - pos, 0
  {
    var t := tokens[pos].text;
    var t' := RewriteCharacters(t, rn.newId);
    if Contains(t, Marker) {
      var s' := s.(haveCustomData := true, customData := t);
      Simulation(tokens, pos + 1, s', sEnd, out + [Characters(t')], rn);
      RenumberedPayloadKeepsMarker(t, rn.newId);
      assert Renamed(s', rn) == Renamed(s, rn).(haveCustomData := true, customData := t');
    } else {
      Simulation(tokens, pos + 1, s, sEnd, out + [Characters(t')], rn);
    }
    var r := Rewrite(tokens, pos + 1, s.stack, out + [Characters(t')], rn).value;
    assert r[|out|] == Characters(t');
  }

  /** `toXMLWithNewId` succeeds on every blueprint `fromXml` accepts. */
  lemma RewriteSucceeds(tokens: seq<Token>, bp: BlueprintData, newId: nat)
    requires Extract(tokens) == Some(bp)
    ensures RewriteTokens(tokens, bp, newId).Some?
  {
    var sEnd := Scan(tokens, 0, Initial).value;
    MissileNumberHasLine(sEnd.customData);
    Simulation(tokens, 0, Initial, sEnd, [], RenamingFor(bp, newId));
  }

  /** Item names that carry the old group prefix carry the new one once
      renamed. */
  lemma RenamedItemsPrefixed(items: seq<string>, rn: Renaming)
    requires AllPrefixed(items, ItemPrefix(rn.oldGroupName))
    ensures AllPrefixed(RenameItems(items, rn), ItemPrefix(rn.groupName))
  {
    forall i | 0 <= i < |items|
      ensures ItemPrefix(rn.groupName) <= RenameItem(items[i], rn)
    {
      RenamedItemPrefix(items[i], rn);
    }
  }

  /** The renamed fields all carry the new number. */
  lemma RenamedNumbers(s: ScanState, bp: BlueprintData, newId: nat)
    requires s.haveIdSubType && s.haveDisplayName && s.haveGroupName && s.haveCustomData
    requires s.idSubType == bp.gridName && s.displayName == bp.displayName && s.groupName == bp.groupName
    requires NumbersAgree(s)
    requires !EndsWithLineFeed(bp.gridName) && !EndsWithLineFeed(bp.displayName) && !EndsWithLineFeed(bp.groupName)
    ensures var s' := Renamed(s, RenamingFor(bp, newId));
      TrailingNumber(s'.idSubType) == Some(newId) && TrailingNumber(s'.displayName) == Some(newId) &&
      TrailingNumber(s'.groupName) == Some(newId) && MissileNumber(s'.customData) == Some(newId)
  {
    RenumberedName(bp.gridName, newId);
    RenumberedName(bp.displayName, newId);
    RenumberedName(bp.groupName, newId);
    RenumberedPayloadNumber(s.customData, newId);
  }

  /** The checks after the loop accept a state whose fields all carry `n`. */
  lemma ValidateAccepts(s: ScanState, n: nat)
    requires s.haveIdSubType && s.haveDisplayName && s.haveGroupName && |s.itemNames| > 0 && s.haveCustomData
    requires AllPrefixed(s.itemNames, ItemPrefix(s.groupName))
    requires TrailingNumber(s.idSubType) == Some(n) && TrailingNumber(s.displayName) == Some(n)
    requires TrailingNumber(s.groupName) == Some(n) && MissileNumber(s.customData) == Some(n)
    ensures Validate(s) == Some(BlueprintData(s.idSubType, s.displayName, s.groupName, s.itemNames, n))
  {
  }

  /** The checks after the loop accept the renamed final state of a scan they
      accepted, and yield the renumbered record. */
  lemma ValidateRenamed(s: ScanState, bp: BlueprintData, newId: nat)
    requires s.haveIdSubType && s.haveDisplayName && s.haveGroupName && s.haveCustomData
    requires s.idSubType == bp.gridName && s.displayName == bp.displayName && s.groupName == bp.groupName
    requires s.itemNames == bp.itemNames && |s.itemNames| > 0 && AllPrefixed(s.itemNames, ItemPrefix(bp.groupName))
    requires NumbersAgree(s)
    requires !EndsWithLineFeed(bp.gridName) && !EndsWithLineFeed(bp.displayName) && !EndsWithLineFeed(bp.groupName)
    ensures Validate(Renamed(s, RenamingFor(bp, newId))) == Some(Renumbered(bp, newId))
  {
    var rn := RenamingFor(bp, newId);
    RenamedItemsPrefixed(s.itemNames, rn);
    RenamedNumbers(s, bp, newId);
    ValidateAccepts(Renamed(s, rn), newId);
  }

  /** Reading the renumbered copy back gives the renumbered record: the new
      grid, display and group names, every item's group prefix replaced, and
      the new number. The three names must not end in a line feed (see
      `RenumberedNameWithLineFeed` for what happens otherwise). */
  lemma RoundTrip(tokens: seq<Token>, bp: BlueprintData, newId: nat)
    requires Extract(tokens) == Some(bp)
    requires !EndsWithLineFeed(bp.gridName) && !EndsWithLineFeed(bp.displayName) && !EndsWithLineFeed(bp.groupName)
    ensures RewriteTokens(tokens, bp, newId).Some?
    ensures Extract(RewriteTokens(tokens, bp, newId).value) == Some(Renumbered(bp, newId))
  {
    var rn := RenamingFor(bp, newId);
    var sEnd := Scan(tokens, 0, Initial).value;
    MissileNumberHasLine(sEnd.customData);
    Simulation(tokens, 0, Initial, sEnd, [], rn);
    assert Renamed(Initial, rn) == Initial;
    ValidateRenamed(sEnd, bp, newId);
  }

  /** Renumbering a copy twice is renumbering it once with the second number,
      whatever the names look like. */
  lemma RenumberedTwice(bp: BlueprintData, m: nat, n: nat)
    ensures Renumbered(Renumbered(bp, m), n).gridName == Renumbered(bp, n).gridName
    ensures Renumbered(Renumbered(bp, m), n).displayName == Renumbered(bp, n).displayName
    ensures Renumbered(Renumbered(bp, m), n).groupName == Renumbered(bp, n).groupName
  {
    CutDigitsRenumbered(bp.gridName, m);
    CutDigitsRenumbered(bp.displayName, m);
    CutDigitsRenumbered(bp.groupName, m);
  }

  /** A copy numbered with the blueprint's own id keeps its item names when
      the group name's digits are exactly `QString::number` of that id. */
  lemma SameNumberKeepsItems(bp: BlueprintData, item: string)
    requires Decimal(bp.id) == TrailingDigits(bp.groupName)
    ensures RenameItem(item, RenamingFor(bp, bp.id)) == item
  {
    var rn := RenamingFor(bp, bp.id);
    assert rn.groupName == bp.groupName;
    ReplaceAllSame(item, rn.OldItemPrefix());
  }

  /** A copy numbered with the blueprint's own id is the same blueprint when
      each name's digits are exactly `QString::number` of that id. */
  lemma SameNumberRecord(bp: BlueprintData)
    requires TrailingDigits(bp.gridName) == Decimal(bp.id)
    requires TrailingDigits(bp.displayName) == Decimal(bp.id)
    requires TrailingDigits(bp.groupName) == Decimal(bp.id)
    ensures Renumbered(bp, bp.id) == bp
  {
    var rn := RenamingFor(bp, bp.id);
    forall i | 0 <= i < |bp.itemNames|
      ensures RenameItems(bp.itemNames, rn)[i] == bp.itemNames[i]
    {
      SameNumberKeepsItems(bp, bp.itemNames[i]);
    }
  }

  /** Such a blueprint's copy with its own id reads back as the blueprint
      itself. */
  lemma SameNumberRoundTrip(tokens: seq<Token>, bp: BlueprintData)
    requires Extract(tokens) == Some(bp)
    requires TrailingDigits(bp.gridName) == Decimal(bp.id)
    requires TrailingDigits(bp.displayName) == Decimal(bp.id)
    requires TrailingDigits(bp.groupName) == Decimal(bp.id)
    requires !EndsWithLineFeed(bp.gridName) && !EndsWithLineFeed(bp.displayName) && !EndsWithLineFeed(bp.groupName)
    ensures RewriteTokens(tokens, bp, bp.id).Some?
    ensures Extract(RewriteTokens(tokens, bp, bp.id).value) == Some(bp)
  {
    RoundTrip(tokens, bp, bp.id);
    SameNumberRecord(bp);
  }

  /** With a zero-padded number the same id renames the items: the group
      `"G 042"` has number 42, but its copy with id 42 is named `"G 42"`, so
      the item `"(G 042) W"` becomes `"(G 42) W"`. */
  lemma PaddedNumberRenamesItems(group: string, item: string)
    requires group == "G 042" && item == "(G 042) W"
    ensures TrailingNumber(group) == Some(42)
    ensures RenameItem(item, RenamingFor(BlueprintData(group, group, group, [item], 42), 42)) == "(G 42) W"
  {
    PaddedGroupNumber(group);
    var rn := RenamingFor(BlueprintData(group, group, group, [item], 42), 42);
    PaddedPrefixes(group, rn);
    PaddedReplace(item, rn.OldItemPrefix(), rn.NewItemPrefix());
  }

  lemma PaddedPrefixes(group: string, rn: Renaming)
    requires group == "G 042" && rn.oldGroupName == group && rn.groupName == CutDigits(group) + Decimal(42)
    ensures rn.OldItemPrefix() == "(G 042)" && rn.NewItemPrefix() == "(G 42)"
  {
    assert rn.groupName == "G 42" by {
      PaddedGroupCut(group);
      assert Decimal(42) == "42" by {
        assert Decimal(4) == "4";
      }
      assert "G " + "42" == "G 42";
    }
    assert rn.OldItemPrefix() == "(" + group + ")";
    assert rn.NewItemPrefix() == "(" + "G 42" + ")";
  }

  lemma PaddedGroupNumber(group: string)
    requires group == "G 042"
    ensures TrailingNumber(group) == Some(42)
  {
    var digits := "042";
    assert group == "G" + " " + digits;
    assert DigitsValue(digits) == 42 by {
      var d2, d1 := digits[..2], digits[..1];
      assert d1[..0] == [] && DigitsValue(d1) == 0;
      assert d2[..1] == d1 && DigitsValue(d2) == 4;
      assert digits[..2] == d2;
    }
    TrailingNumberOf("G", digits);
  }

  lemma PaddedGroupCut(group: string)
    requires group == "G 042"
    ensures CutDigits(group) == "G "
  {
    var digits := "042";
    assert group == "G " + digits;
    CutDigitsUnique(group, "G ", digits);
  }

  lemma PaddedReplace(item: string, p: string, q: string)
    requires item == "(G 042) W" && p == "(G 042)" && q == "(G 42)"
    ensures ReplaceAll(item, p, q) == "(G 42) W"
  {
    var rest := " W";
    assert item == p + rest;
    ReplaceAllLeading(p, rest, q);
    assert !Contains(rest, p) by {
      assert !Contains(rest[1..][1..], p);
      assert !Contains(rest[1..], p);
    }
    ReplaceAllAbsent(rest, p, q);
  }
}
