/** `BlueprintData`: the identity record of a missile blueprint, its extraction
    from the blueprint's XML (`fromXml`) and the renumbered copy of that XML
    (`toXMLWithNewId`).

    Both passes walk the same token stream with a stack of open element names
    and recognise four sites by (parent, element):
    `ShipBlueprint/Id` (attribute `Subtype`), `CubeGrid/DisplayName`,
    `MyObjectBuilder_BlockGroup/Name` and `MyObjectBuilder_CubeBlock/CustomName`.
    Each pass is given twice: as a function that says what it computes (`Scan`
    and `Validate`, `Rewrite`) and as the imperative loop of the source
    (`FromXml`, `ToXmlWithNewId`), proved equal to it. */
module Blueprint {
  import opened Wrappers
  import opened Text
  import opened XmlStream
  import opened Patterns

  /** The immutable record `fromXml` returns. `gridName` is the `Subtype` of the
      blueprint's `Id`. */
  datatype BlueprintData = BlueprintData(
    gridName: string,
    displayName: string,
    groupName: string,
    itemNames: seq<string>,
    id: nat)

  // ---------------------------------------------------------------------------
  // The four sites
  // ---------------------------------------------------------------------------

  datatype Site = IdSite | DisplayNameSite | GroupNameSite | CustomNameSite | Plain

  /** The name on top of the stack; the empty name when the stack is empty. */
  function Top(stack: seq<string>): string {
    if stack == [] then "" else stack[|stack| - 1]
  }

  function SiteOf(parent: string, name: string): Site {
    if parent == "ShipBlueprint" && name == "Id" then IdSite
    else if parent == "CubeGrid" && name == "DisplayName" then DisplayNameSite
    else if parent == "MyObjectBuilder_BlockGroup" && name == "Name" then GroupNameSite
    else if parent == "MyObjectBuilder_CubeBlock" && name == "CustomName" then CustomNameSite
    else Plain
  }

  function Pop(stack: seq<string>): seq<string>
    requires stack != []
  {
    stack[..|stack| - 1]
  }

  // ---------------------------------------------------------------------------
  // fromXml
  // ---------------------------------------------------------------------------

  /** The local variables of `fromXml`'s loop. */
  datatype ScanState = ScanState(
    stack: seq<string>,
    haveIdSubType: bool, idSubType: string,
    haveDisplayName: bool, displayName: string,
    haveGroupName: bool, groupName: string,
    haveCustomData: bool, customData: string,
    itemNames: seq<string>)

  const Initial := ScanState([], false, "", false, "", false, "", false, "", [])

  /** The scan from `pos` on, in state `s`: the state when the document ends, or
      `None` when `fromXml` gives up (a structural error, a second block group,
      a second payload, a missing `Subtype`, an unhandled token or a reader
      error). A successful scan ends with an empty stack, only adds items, and
      never changes a group name or payload once found. */
  function Scan(tokens: seq<Token>, pos: nat, s: ScanState): (r: Option<ScanState>)
    ensures r.Some? ==> r.value.stack == []
    ensures r.Some? ==> s.itemNames <= r.value.itemNames
    ensures r.Some? && s.haveIdSubType ==> r.value.haveIdSubType
    ensures r.Some? && s.haveDisplayName ==> r.value.haveDisplayName
    ensures r.Some? && s.haveGroupName ==> r.value.haveGroupName && r.value.groupName == s.groupName
    ensures r.Some? && s.haveCustomData ==> r.value.haveCustomData && r.value.customData == s.customData
    decreases |tokens| - pos
  {
    if pos >= |tokens| then None
    else match tokens[pos]
      case StartElement(name, _, _, attrs) =>
        var pushed := s.stack + [name];
        (match SiteOf(Top(s.stack), name)
         case IdSite =>
           (match Lookup(attrs, "", "Subtype")
            case None => None
            case Some(v) => Scan(tokens, pos + 1, s.(stack := pushed, haveIdSubType := true, idSubType := v)))
         case DisplayNameSite =>
           (match ElementText(tokens, pos + 1, "")
            case None => None
            case Some((text, next)) => Scan(tokens, next, s.(haveDisplayName := true, displayName := text)))
         case GroupNameSite =>
           if s.haveGroupName then None
           else (match ElementText(tokens, pos + 1, "")
             case None => None
             case Some((text, next)) => Scan(tokens, next, s.(haveGroupName := true, groupName := text)))
         case CustomNameSite =>
           (match ElementText(tokens, pos + 1, "")
            case None => None
            case Some((text, next)) =>
              var r := Scan(tokens, next, s.(itemNames := s.itemNames + [text]));
              assert r.Some? ==> s.itemNames <= s.itemNames + [text] <= r.value.itemNames;
              r)
         case Plain => Scan(tokens, pos + 1, s.(stack := pushed)))
      case EndElement =>
        if s.stack == [] then None else Scan(tokens, pos + 1, s.(stack := Pop(s.stack)))
      case StartDocument =>
        if s.stack != [] then None else Scan(tokens, pos + 1, s)
      case EndDocument =>
        if s.stack != [] then None else Some(s)
      case Characters(t) =>
        if !Contains(t, Marker) then Scan(tokens, pos + 1, s)
        else if s.haveCustomData then None
        else Scan(tokens, pos + 1, s.(haveCustomData := true, customData := t))
      case Invalid => None
      case Comment => None
      case Other => None
  }

  /** The prefix every item name must carry (`"(%1) "` with the group name). */
  function ItemPrefix(groupName: string): string {
    "(" + groupName + ") "
  }

  predicate AllPrefixed(items: seq<string>, prefix: string) {
    forall i :: 0 <= i < |items| ==> prefix <= items[i]
  }

  /** The four numbers exist and are equal. */
  predicate NumbersAgree(s: ScanState) {
    TrailingNumber(s.idSubType).Some? && TrailingNumber(s.displayName).Some? &&
    TrailingNumber(s.groupName).Some? && MissileNumber(s.customData).Some? &&
    TrailingNumber(s.idSubType).value == TrailingNumber(s.displayName).value &&
    TrailingNumber(s.displayName).value == TrailingNumber(s.groupName).value &&
    TrailingNumber(s.idSubType).value == MissileNumber(s.customData).value
  }

  /** The four number matches and their comparison: the common number, when
      the three names and the payload all have one and they are equal. */
  function CommonNumber(s: ScanState): (r: Option<nat>)
    ensures r.Some? <==> NumbersAgree(s)
    ensures r.Some? ==>
      TrailingNumber(s.idSubType) == Some(r.value) && TrailingNumber(s.displayName) == Some(r.value) &&
      TrailingNumber(s.groupName) == Some(r.value) && MissileNumber(s.customData) == Some(r.value)
  {
    var grid := TrailingNumber(s.idSubType);
    var display := TrailingNumber(s.displayName);
    var group := TrailingNumber(s.groupName);
    var missile := MissileNumber(s.customData);
    if grid.None? || display.None? || group.None? || missile.None? then None
    else if grid.value != display.value || display.value != group.value || grid.value != missile.value then None
    else Some(group.value)
  }

  /** The checks after the loop of `fromXml`. A record is produced exactly when
      all five fields were found, there is at least one item, every item carries
      the group prefix and the four numbers agree; it holds the fields found and
      that common number. */
  function Validate(s: ScanState): (r: Option<BlueprintData>)
    ensures r.Some? <==>
      s.haveIdSubType && s.haveDisplayName && s.haveGroupName && |s.itemNames| > 0 &&
      s.haveCustomData && AllPrefixed(s.itemNames, ItemPrefix(s.groupName)) && NumbersAgree(s)
    ensures r.Some? ==>
      r.value.gridName == s.idSubType && r.value.displayName == s.displayName &&
      r.value.groupName == s.groupName && r.value.itemNames == s.itemNames &&
      TrailingNumber(s.idSubType) == Some(r.value.id) && TrailingNumber(s.displayName) == Some(r.value.id) &&
      TrailingNumber(s.groupName) == Some(r.value.id) && MissileNumber(s.customData) == Some(r.value.id)
  {
    if !s.haveIdSubType || !s.haveDisplayName || !s.haveGroupName || |s.itemNames| == 0 || !s.haveCustomData then
      None
    else if !AllPrefixed(s.itemNames, ItemPrefix(s.groupName)) then
      None
    else match CommonNumber(s)
      case None => None
      case Some(n) => Some(BlueprintData(s.idSubType, s.displayName, s.groupName, s.itemNames, n))
  }

  /** What `fromXml` returns for a token stream. */
  function Extract(tokens: seq<Token>): Option<BlueprintData> {
    match Scan(tokens, 0, Initial)
    case None => None
    case Some(s) => Validate(s)
  }

  /** Where the loop of `fromXml` stands: still reading at `pos`, or stopped
      with or without a reader error. */
  function ScanResume(tokens: seq<Token>, pos: nat, atEnd: bool, hasError: bool, s: ScanState): Option<ScanState> {
    if hasError then None
    else if atEnd then (if s.stack == [] then Some(s) else None)
    else Scan(tokens, pos, s)
  }

  /** The `StartElement` case of `fromXml`'s loop, the start tag having just
      been read: pushes the name, and at the four sites records the `Subtype`
      or reads the element's text, popping the name again since the end tag was
      consumed with the text. */
  method ScanStartElement(reader: StreamReader, name: string, attrs: seq<Attribute>, s: ScanState)
    returns (next: ScanState, abort: bool)
    requires reader.Valid() && !reader.atEnd && 0 < reader.pos
    requires reader.tokens[reader.pos - 1].StartElement?
    requires reader.tokens[reader.pos - 1].name == name && reader.tokens[reader.pos - 1].attributes == attrs
    modifies reader
    ensures reader.Valid() && old(reader.pos) <= reader.pos
    ensures reader.atEnd ==> reader.hasError
    ensures abort ==> Scan(reader.tokens, old(reader.pos) - 1, s) == None
    ensures !abort ==>
      ScanResume(reader.tokens, reader.pos, reader.atEnd, reader.hasError, next)
        == Scan(reader.tokens, old(reader.pos) - 1, s)
  {
    var stack := s.stack;
    var top := if stack == [] then "" else stack[|stack| - 1];
    stack := stack + [name];
    next, abort := s.(stack := stack), false;
    var site := SiteOf(top, name);
    if site == IdSite {
      next := next.(haveIdSubType := true);
      if Lookup(attrs, "", "Subtype").None? {
        return next, true;
      }
      next := next.(idSubType := AttributeValue(attrs, "", "Subtype"));
    } else if site == DisplayNameSite {
      var text := reader.ReadElementText();
      // the end tag was consumed with the text
      next := next.(haveDisplayName := true, displayName := text, stack := stack[..|stack| - 1]);
    } else if site == GroupNameSite {
      if s.haveGroupName {
        return next, true;
      }
      var text := reader.ReadElementText();
      next := next.(haveGroupName := true, groupName := text, stack := stack[..|stack| - 1]);
    } else if site == CustomNameSite {
      var text := reader.ReadElementText();
      next := next.(itemNames := next.itemNames + [text], stack := stack[..|stack| - 1]);
    }
  }

  /** One turn of `fromXml`'s loop: reads a token and handles it. `abort` is a
      `return std::nullopt` from inside the loop. */
  method ScanToken(reader: StreamReader, s: ScanState) returns (next: ScanState, abort: bool)
    requires reader.Valid() && !reader.atEnd
    modifies reader
    ensures reader.Valid() && old(reader.pos) <= reader.pos
    ensures old(reader.pos) < reader.pos || reader.atEnd
    ensures !abort && reader.atEnd && !reader.hasError ==> next.stack == []
    ensures abort ==> Scan(reader.tokens, old(reader.pos), s) == None
    ensures !abort ==>
      ScanResume(reader.tokens, reader.pos, reader.atEnd, reader.hasError, next)
        == Scan(reader.tokens, old(reader.pos), s)
  {
    next, abort := s, false;
    var token := reader.ReadNext();
    match token {
      case Invalid =>
      case StartElement(name, _, _, attrs) =>
        next, abort := ScanStartElement(reader, name, attrs, s);
      case EndElement =>
        if s.stack == [] {
          return s, true;
        }
        next := s.(stack := s.stack[..|s.stack| - 1]);
      case StartDocument =>
        if s.stack != [] {
          return s, true;
        }
      case EndDocument =>
        if s.stack != [] {
          return s, true;
        }
      case Characters(characters) =>
        if Contains(characters, Marker) {
          if s.haveCustomData {
            return s, true;
          }
          next := s.(haveCustomData := true, customData := characters);
        }
      case _ =>
        return s, true;
    }
  }

  /** `BlueprintData::fromXml`. The loop's local variables (the stack, the
      `have*` flags and the fields found) are kept together in `state`. */
  method FromXml(data: seq<Token>) returns (r: Option<BlueprintData>)
    ensures r == Extract(data)
  {
    var reader := new StreamReader(data);
    var state := Initial;

    while !reader.atEnd
      invariant reader.Valid() && reader.tokens == data
      invariant ScanResume(data, reader.pos, reader.atEnd, reader.hasError, state) == Scan(data, 0, Initial)
      invariant reader.atEnd && !reader.hasError ==> state.stack == []
      decreases |data| - reader.pos, if reader.atEnd then 0 else 1
    {
      var abort;
      state, abort := ScanToken(reader, state);
      if abort {
        return None;
      }
    }
    if reader.hasError {
      return None;
    }
    r := CheckFields(state);
  }

  /** The checks after the loop of `fromXml`, in the source's order. */
  method CheckFields(s: ScanState) returns (r: Option<BlueprintData>)
    ensures r == Validate(s)
  {
    if !s.haveIdSubType || !s.haveDisplayName || !s.haveGroupName || |s.itemNames| == 0 || !s.haveCustomData {
      return None;
    }
    var prefixed := HasPrefix(s.itemNames, ItemPrefix(s.groupName));
    if !prefixed {
      return None;
    }
    var n := CommonNumber(s);
    if n.None? {
      return None;
    }
    return Some(BlueprintData(s.idSubType, s.displayName, s.groupName, s.itemNames, n.value));
  }

  /** The loop over the item names: does every one start with `prefix`? */
  method HasPrefix(items: seq<string>, prefix: string) returns (b: bool)
    ensures b <==> AllPrefixed(items, prefix)
  {
    for i := 0 to |items|
      invariant forall j :: 0 <= j < i ==> prefix <= items[j]
    {
      if !(prefix <= items[i]) {
        return false;
      }
    }
    return true;
  }

  // ---------------------------------------------------------------------------
  // toXMLWithNewId
  // ---------------------------------------------------------------------------

  /** The replacement strings computed before the rewrite loop: the three new
      names, and the group name the item prefixes are taken from. */
  datatype Renaming = Renaming(
    idSubType: string, displayName: string, groupName: string,
    oldGroupName: string, newId: nat)
  {
    function OldItemPrefix(): string { "(" + oldGroupName + ")" }
    function NewItemPrefix(): string { "(" + groupName + ")" }
  }

  function RenamingFor(bp: BlueprintData, newId: nat): Renaming {
    Renaming(
      CutDigits(bp.gridName) + Decimal(newId),
      CutDigits(bp.displayName) + Decimal(newId),
      CutDigits(bp.groupName) + Decimal(newId),
      bp.groupName,
      newId)
  }

  /** The new name of an item: every `(<old group>)` becomes `(<new group>)`. */
  function RenameItem(item: string, rn: Renaming): string {
    ReplaceAll(item, rn.OldItemPrefix(), rn.NewItemPrefix())
  }

  /** The start tag written for `ShipBlueprint/Id`: only `Type` and the new
      `Subtype`. */
  function IdStartTag(name: string, ns: string, decls: seq<NamespaceDeclaration>, attrs: seq<Attribute>, rn: Renaming): Token {
    StartElement(name, ns, decls,
      [Attribute("", "Type", AttributeValue(attrs, "", "Type")), Attribute("", "Subtype", rn.idSubType)])
  }

  /** The text written for a top-level text node. */
  function RewriteCharacters(t: string, n: nat): string {
    if Contains(t, Marker) then RenumberPayload(t, n) else t
  }

  /** The rewrite from `pos` on with the stack `stack`, having written `out`: the
      tokens written when the document ends, or `None` when `toXMLWithNewId`
      gives up (returns an empty byte array). What was written is never taken
      back. */
  function Rewrite(tokens: seq<Token>, pos: nat, stack: seq<string>, out: seq<Token>, rn: Renaming): (r: Option<seq<Token>>)
    ensures r.Some? ==> out <= r.value
    decreases |tokens| - pos
  {
    if pos >= |tokens| then None
    else match tokens[pos]
      case StartElement(name, ns, decls, attrs) =>
        var pushed := stack + [name];
        (match SiteOf(Top(stack), name)
         case IdSite =>
           if Lookup(attrs, "", "Subtype").None? then None
           else Rewrite(tokens, pos + 1, pushed, out + [IdStartTag(name, ns, decls, attrs, rn)], rn)
         case DisplayNameSite =>
           (match ElementText(tokens, pos + 1, "")
            case None => None
            case Some((_, next)) =>
              Rewrite(tokens, next, stack, out + [StartElement(name, ns, decls, []), Characters(rn.displayName), EndElement], rn))
         case GroupNameSite =>
           (match ElementText(tokens, pos + 1, "")
            case None => None
            case Some((_, next)) =>
              Rewrite(tokens, next, stack, out + [StartElement(name, ns, decls, []), Characters(rn.groupName), EndElement], rn))
         case CustomNameSite =>
           (match ElementText(tokens, pos + 1, "")
            case None => None
            case Some((text, next)) =>
              Rewrite(tokens, next, stack,
                out + [StartElement(name, ns, decls, []), Characters(RenameItem(text, rn)), EndElement], rn))
         case Plain => Rewrite(tokens, pos + 1, pushed, out + [StartElement(name, ns, decls, attrs)], rn))
      case EndElement =>
        if stack == [] then None else Rewrite(tokens, pos + 1, Pop(stack), out + [EndElement], rn)
      case StartDocument =>
        if stack != [] then None else Rewrite(tokens, pos + 1, stack, out + [StartDocument], rn)
      case EndDocument =>
        if stack != [] then None else Some(out + [EndDocument])
      case Characters(t) =>
        if Contains(t, Marker) && !HasMissileLine(t) then None
        else Rewrite(tokens, pos + 1, stack, out + [Characters(RewriteCharacters(t, rn.newId))], rn)
      case Invalid => None
      case Comment => None
      case Other => None
  }

  /** The tokens `toXMLWithNewId` writes for `data`, before serialisation. */
  function RewriteTokens(data: seq<Token>, bp: BlueprintData, newId: nat): Option<seq<Token>> {
    Rewrite(data, 0, [], [], RenamingFor(bp, newId))
  }

  /** What `toXMLWithNewId` returns: the serialised tokens with the two
      fix-ups, or the empty array on failure. */
  function ToXml(data: seq<Token>, bp: BlueprintData, newId: nat, serialize: seq<Token> -> string): string {
    match RewriteTokens(data, bp, newId)
    case None => ""
    case Some(out) => FixUp(serialize(out))
  }

  // ---------------------------------------------------------------------------
  // Single steps of the two passes at the four sites
  // ---------------------------------------------------------------------------

  /** What `fromXml` records on reading `text` at one of the three text sites. */
  function Found(s: ScanState, site: Site, text: string): ScanState {
    if site == DisplayNameSite then s.(haveDisplayName := true, displayName := text)
    else if site == GroupNameSite then s.(haveGroupName := true, groupName := text)
    else s.(itemNames := s.itemNames + [text])
  }

  /** The text written at a text site. */
  function Written(site: Site, text: string, rn: Renaming): string {
    if site == DisplayNameSite then rn.displayName
    else if site == GroupNameSite then rn.groupName
    else RenameItem(text, rn)
  }

  /** One `fromXml` step over an `Id` start tag with a `Subtype`. */
  lemma ScanAtId(tokens: seq<Token>, pos: nat, s: ScanState)
    requires pos < |tokens| && tokens[pos].StartElement?
    requires SiteOf(Top(s.stack), tokens[pos].name) == IdSite
    requires Lookup(tokens[pos].attributes, "", "Subtype").Some?
    ensures Scan(tokens, pos, s) == Scan(tokens, pos + 1,
      s.(stack := s.stack + [tokens[pos].name], haveIdSubType := true,
         idSubType := Lookup(tokens[pos].attributes, "", "Subtype").value))
  {
  }

  /** One `fromXml` step over a text site whose text can be read. */
  lemma ScanAtText(tokens: seq<Token>, pos: nat, s: ScanState)
    requires pos < |tokens| && tokens[pos].StartElement?
    requires SiteOf(Top(s.stack), tokens[pos].name) in {DisplayNameSite, GroupNameSite, CustomNameSite}
    requires SiteOf(Top(s.stack), tokens[pos].name) == GroupNameSite ==> !s.haveGroupName
    requires ElementText(tokens, pos + 1, "").Some?
    ensures var (text, next) := ElementText(tokens, pos + 1, "").value;
      Scan(tokens, pos, s) == Scan(tokens, next, Found(s, SiteOf(Top(s.stack), tokens[pos].name), text))
  {
  }

  /** One `toXMLWithNewId` step over an `Id` start tag with a `Subtype`. */
  lemma RewriteAtId(tokens: seq<Token>, pos: nat, stack: seq<string>, out: seq<Token>, rn: Renaming)
    requires pos < |tokens| && tokens[pos].StartElement?
    requires SiteOf(Top(stack), tokens[pos].name) == IdSite
    requires Lookup(tokens[pos].attributes, "", "Subtype").Some?
    ensures var t := tokens[pos];
      Rewrite(tokens, pos, stack, out, rn) ==
        Rewrite(tokens, pos + 1, stack + [t.name],
          out + [IdStartTag(t.name, t.namespaceUri, t.namespaceDeclarations, t.attributes, rn)], rn)
  {
  }

  /** One `toXMLWithNewId` step over a text site whose text can be read. */
  lemma RewriteAtText(tokens: seq<Token>, pos: nat, stack: seq<string>, out: seq<Token>, rn: Renaming)
    requires pos < |tokens| && tokens[pos].StartElement?
    requires SiteOf(Top(stack), tokens[pos].name) in {DisplayNameSite, GroupNameSite, CustomNameSite}
    requires ElementText(tokens, pos + 1, "").Some?
    ensures var (text, next) := ElementText(tokens, pos + 1, "").value;
      var site := SiteOf(Top(stack), tokens[pos].name);
      var written := Written(site, text, rn);
      Rewrite(tokens, pos, stack, out, rn) ==
        Rewrite(tokens, next, stack,
          out + [StartElement(tokens[pos].name, tokens[pos].namespaceUri, tokens[pos].namespaceDeclarations, []),
                 Characters(written), EndElement], rn)
  {
  }

  // ---------------------------------------------------------------------------
  // Where `fromXml` gives up
  // ---------------------------------------------------------------------------

  /** A second block-group `Name` makes `fromXml` give up. */
  lemma ScanRejectsSecondGroup(tokens: seq<Token>, pos: nat, s: ScanState)
    requires pos < |tokens| && tokens[pos].StartElement?
    requires SiteOf(Top(s.stack), tokens[pos].name) == GroupNameSite && s.haveGroupName
    ensures Scan(tokens, pos, s) == None
  {
  }

  /** A second text node containing `Missile number=` makes `fromXml` give up. */
  lemma ScanRejectsSecondPayload(tokens: seq<Token>, pos: nat, s: ScanState)
    requires pos < |tokens| && tokens[pos].Characters? && Contains(tokens[pos].text, Marker)
    requires s.haveCustomData
    ensures Scan(tokens, pos, s) == None
  {
  }

  /** A `ShipBlueprint/Id` without a `Subtype` attribute makes `fromXml` give
      up. */
  lemma ScanRejectsMissingSubtype(tokens: seq<Token>, pos: nat, s: ScanState)
    requires pos < |tokens| && tokens[pos].StartElement?
    requires SiteOf(Top(s.stack), tokens[pos].name) == IdSite
    requires Lookup(tokens[pos].attributes, "", "Subtype").None?
    ensures Scan(tokens, pos, s) == None
  {
  }

  /** A text site whose text cannot be read (`readElementText` fails) makes
      `fromXml` give up. */
  lemma ScanRejectsUnreadableText(tokens: seq<Token>, pos: nat, s: ScanState)
    requires pos < |tokens| && tokens[pos].StartElement?
    requires SiteOf(Top(s.stack), tokens[pos].name) in {DisplayNameSite, GroupNameSite, CustomNameSite}
    requires ElementText(tokens, pos + 1, "").None?
    ensures Scan(tokens, pos, s) == None
  {
  }

  /** `fromXml` gives up on an end tag with nothing open, on a document token
      inside an element, on a token kind it does not handle, on a reader error
      and when the tokens run out before the end of the document. */
  lemma ScanRejectsStructure(tokens: seq<Token>, pos: nat, s: ScanState)
    requires pos >= |tokens| ||
      (tokens[pos].EndElement? && s.stack == []) ||
      ((tokens[pos].StartDocument? || tokens[pos].EndDocument?) && s.stack != []) ||
      tokens[pos].Comment? || tokens[pos].Other? || tokens[pos].Invalid?
    ensures Scan(tokens, pos, s) == None
  {
  }

  /** One block group with one `Name` element scans; the same document with a
      second `Name` element does not, so it is the duplicate that is
      rejected. */
  lemma TwoGroupNamesRejected(one: seq<Token>, two: seq<Token>)
    requires one == [StartDocument,
      StartElement("MyObjectBuilder_BlockGroup", "", [], []),
      StartElement("Name", "", [], []), Characters("G 1"), EndElement,
      EndElement, EndDocument]
    requires two == [StartDocument,
      StartElement("MyObjectBuilder_BlockGroup", "", [], []),
      StartElement("Name", "", [], []), Characters("G 1"), EndElement,
      StartElement("Name", "", [], []), Characters("G 1"), EndElement,
      EndElement, EndDocument]
    ensures Scan(one, 0, Initial).Some?
    ensures Scan(two, 0, Initial) == None
  {
    var s2 := GroupNameRead(one);
    assert Scan(one, 5, s2) == Some(s2.(stack := []));
    s2 := GroupNameRead(two);
    ScanRejectsSecondGroup(two, 5, s2);
  }

  /** The opening of both documents above: the group `Name` is read and the
      scan resumes after its end tag, inside the block group. */
  lemma GroupNameRead(tokens: seq<Token>) returns (s2: ScanState)
    requires |tokens| >= 5 && tokens[0] == StartDocument
    requires tokens[1] == StartElement("MyObjectBuilder_BlockGroup", "", [], [])
    requires tokens[2] == StartElement("Name", "", [], [])
    requires tokens[3] == Characters("G 1") && tokens[4] == EndElement
    ensures s2 == Initial.(stack := ["MyObjectBuilder_BlockGroup"], haveGroupName := true, groupName := "G 1")
    ensures Scan(tokens, 0, Initial) == Scan(tokens, 5, s2)
  {
    var s1 := Initial.(stack := ["MyObjectBuilder_BlockGroup"]);
    s2 := s1.(haveGroupName := true, groupName := "G 1");
    assert Scan(tokens, 0, Initial) == Scan(tokens, 1, Initial);
    assert Initial.stack + ["MyObjectBuilder_BlockGroup"] == s1.stack;
    assert Scan(tokens, 1, Initial) == Scan(tokens, 2, s1);
    assert "" + "G 1" == "G 1";
    assert ElementText(tokens, 3, "") == Some(("G 1", 5));
    ScanAtText(tokens, 2, s1);
  }

  // ---------------------------------------------------------------------------
  // What `toXMLWithNewId` copies, and where it gives up
  // ---------------------------------------------------------------------------

  /** A start tag outside the four sites is written as read, with its
      namespace declarations and attributes. */
  lemma RewriteCopiesPlainTag(tokens: seq<Token>, pos: nat, stack: seq<string>, out: seq<Token>, rn: Renaming)
    requires pos < |tokens| && tokens[pos].StartElement?
    requires SiteOf(Top(stack), tokens[pos].name) == Plain
    ensures Rewrite(tokens, pos, stack, out, rn) ==
      Rewrite(tokens, pos + 1, stack + [tokens[pos].name], out + [tokens[pos]], rn)
  {
  }

  /** End tags, the start of the document and text without the marker are
      written as read; the end of the document is written and ends the
      rewrite. */
  lemma RewriteCopiesToken(tokens: seq<Token>, pos: nat, stack: seq<string>, out: seq<Token>, rn: Renaming)
    requires pos < |tokens|
    requires (tokens[pos].EndElement? && stack != []) || (tokens[pos].StartDocument? && stack == []) ||
      (tokens[pos].Characters? && !Contains(tokens[pos].text, Marker))
    ensures Rewrite(tokens, pos, stack, out, rn) ==
      Rewrite(tokens, pos + 1, if tokens[pos].EndElement? then Pop(stack) else stack, out + [tokens[pos]], rn)
  {
  }

  lemma RewriteCopiesEndDocument(tokens: seq<Token>, pos: nat, out: seq<Token>, rn: Renaming)
    requires pos < |tokens| && tokens[pos].EndDocument?
    ensures Rewrite(tokens, pos, [], out, rn) == Some(out + [EndDocument])
  {
  }

  /** A text node with the marker and a missile line is written with every
      missile line renumbered. */
  lemma RewriteRenumbersPayload(tokens: seq<Token>, pos: nat, stack: seq<string>, out: seq<Token>, rn: Renaming)
    requires pos < |tokens| && tokens[pos].Characters?
    requires Contains(tokens[pos].text, Marker) && HasMissileLine(tokens[pos].text)
    ensures Rewrite(tokens, pos, stack, out, rn) ==
      Rewrite(tokens, pos + 1, stack, out + [Characters(RenumberPayload(tokens[pos].text, rn.newId))], rn)
  {
  }

  /** A text node with the marker but no `Missile number=<digits>` line makes
      `toXMLWithNewId` give up. */
  lemma RewriteRejectsPayloadWithoutLine(tokens: seq<Token>, pos: nat, stack: seq<string>, out: seq<Token>, rn: Renaming)
    requires pos < |tokens| && tokens[pos].Characters?
    requires Contains(tokens[pos].text, Marker) && !HasMissileLine(tokens[pos].text)
    ensures Rewrite(tokens, pos, stack, out, rn) == None
  {
  }

  /** `toXMLWithNewId` gives up on an `Id` without `Subtype`, on a text site
      whose text cannot be read, on an end tag with nothing open, on a
      document token inside an element, on a token kind it does not handle,
      on a reader error and when the tokens run out. */
  lemma RewriteRejectsStructure(tokens: seq<Token>, pos: nat, stack: seq<string>, out: seq<Token>, rn: Renaming)
    requires pos >= |tokens| ||
      (tokens[pos].StartElement? && SiteOf(Top(stack), tokens[pos].name) == IdSite &&
       Lookup(tokens[pos].attributes, "", "Subtype").None?) ||
      (tokens[pos].StartElement? &&
       SiteOf(Top(stack), tokens[pos].name) in {DisplayNameSite, GroupNameSite, CustomNameSite} &&
       ElementText(tokens, pos + 1, "").None?) ||
      (tokens[pos].EndElement? && stack == []) ||
      ((tokens[pos].StartDocument? || tokens[pos].EndDocument?) && stack != []) ||
      tokens[pos].Comment? || tokens[pos].Other? || tokens[pos].Invalid?
    ensures Rewrite(tokens, pos, stack, out, rn) == None
  {
  }

  /** When the rewrite of `data` reaches a text node with the marker but no
      missile line, `toXMLWithNewId` returns the empty array. */
  lemma ToXmlEmptyOnPayloadWithoutLine(data: seq<Token>, bp: BlueprintData, newId: nat,
                                       serialize: seq<Token> -> string,
                                       pos: nat, stack: seq<string>, out: seq<Token>)
    requires RewriteTokens(data, bp, newId) == Rewrite(data, pos, stack, out, RenamingFor(bp, newId))
    requires pos < |data| && data[pos].Characters?
    requires Contains(data[pos].text, Marker) && !HasMissileLine(data[pos].text)
    ensures ToXml(data, bp, newId, serialize) == ""
  {
    RewriteRejectsPayloadWithoutLine(data, pos, stack, out, RenamingFor(bp, newId));
  }

  function RewriteResume(tokens: seq<Token>, pos: nat, atEnd: bool, hasError: bool,
                         stack: seq<string>, out: seq<Token>, rn: Renaming): Option<seq<Token>> {
    if hasError then None
    else if atEnd then (if stack == [] then Some(out) else None)
    else Rewrite(tokens, pos, stack, out, rn)
  }

  /** `writeStartElement` followed by the loop over the namespace
      declarations. */
  method WriteStartTag(writer: TokenWriter, ns: string, name: string, decls: seq<NamespaceDeclaration>)
    modifies writer
    ensures writer.events == old(writer.events) + [StartElement(name, ns, decls, [])]
  {
    writer.WriteStartElement(ns, name);
    for i := 0 to |decls|
      invariant writer.events == old(writer.events) + [StartElement(name, ns, decls[..i], [])]
    {
      writer.WriteNamespace(decls[i]);
      assert decls[..i] + [decls[i]] == decls[..i + 1];
    }
    assert decls[..|decls|] == decls;
  }

  /** The `StartElement` case of `toXMLWithNewId`'s loop, the start tag having
      just been read: copies the tag, and at the four sites writes the new
      `Subtype` or the new element text instead of the old. */
  method RewriteStartElement(reader: StreamReader, writer: TokenWriter, stack: seq<string>,
                             name: string, ns: string, decls: seq<NamespaceDeclaration>, attrs: seq<Attribute>,
                             rn: Renaming)
    returns (newStack: seq<string>, abort: bool)
    requires reader.Valid() && !reader.atEnd && 0 < reader.pos
    requires reader.tokens[reader.pos - 1] == StartElement(name, ns, decls, attrs)
    modifies reader, writer
    ensures reader.Valid() && old(reader.pos) <= reader.pos
    ensures reader.atEnd ==> reader.hasError
    ensures abort ==> Rewrite(reader.tokens, old(reader.pos) - 1, stack, old(writer.events), rn) == None
    ensures !abort ==>
      RewriteResume(reader.tokens, reader.pos, reader.atEnd, reader.hasError, newStack, writer.events, rn)
        == Rewrite(reader.tokens, old(reader.pos) - 1, stack, old(writer.events), rn)
  {
    var top := if stack == [] then "" else stack[|stack| - 1];
    var site := SiteOf(top, name);
    if site in {DisplayNameSite, GroupNameSite, CustomNameSite} {
      RewriteElementText(reader, writer, stack, name, ns, decls, attrs, rn);
      return stack, false;
    }
    ghost var at, before := reader.pos - 1, writer.events;
    newStack, abort := stack + [name], false;
    WriteStartTag(writer, ns, name, decls);
    assert writer.events[..|writer.events| - 1] == before;
    if site == IdSite {
      if Lookup(attrs, "", "Subtype").None? {
        return newStack, true;
      }
      RewriteAtId(reader.tokens, at, stack, before, rn);
      writer.WriteAttributes([Attribute("", "Type", AttributeValue(attrs, "", "Type"))]);
      assert writer.events[..|writer.events| - 1] == before;
      writer.WriteAttributes([Attribute("", "Subtype", rn.idSubType)]);
      assert [] + [Attribute("", "Type", AttributeValue(attrs, "", "Type"))] + [Attribute("", "Subtype", rn.idSubType)]
        == IdStartTag(name, ns, decls, attrs, rn).attributes;
      assert writer.events == before + [IdStartTag(name, ns, decls, attrs, rn)];
    } else {
      writer.WriteAttributes(attrs);
      assert [] + attrs == attrs;
      assert writer.events == before + [StartElement(name, ns, decls, attrs)];
    }
  }

  /** The three sites whose old text is consumed with `readElementText`: the
      start tag, the new text and the end tag are written. */
  method RewriteElementText(reader: StreamReader, writer: TokenWriter, stack: seq<string>,
                            name: string, ns: string, decls: seq<NamespaceDeclaration>, attrs: seq<Attribute>,
                            rn: Renaming)
    requires reader.Valid() && !reader.atEnd && 0 < reader.pos
    requires reader.tokens[reader.pos - 1] == StartElement(name, ns, decls, attrs)
    requires SiteOf(Top(stack), name) in {DisplayNameSite, GroupNameSite, CustomNameSite}
    modifies reader, writer
    ensures reader.Valid() && old(reader.pos) <= reader.pos
    ensures reader.atEnd ==> reader.hasError
    ensures RewriteResume(reader.tokens, reader.pos, reader.atEnd, reader.hasError, stack, writer.events, rn)
      == Rewrite(reader.tokens, old(reader.pos) - 1, stack, old(writer.events), rn)
  {
    ghost var at, before := reader.pos - 1, writer.events;
    var site := SiteOf(if stack == [] then "" else stack[|stack| - 1], name);
    WriteStartTag(writer, ns, name, decls);
    var text;
    if site == DisplayNameSite {
      text := rn.displayName;
      writer.WriteCharacters(text);
      var _ := reader.ReadElementText();
    } else if site == GroupNameSite {
      text := rn.groupName;
      writer.WriteCharacters(text);
      var _ := reader.ReadElementText();
    } else {
      var oldItemName := reader.ReadElementText();
      text := ReplaceAll(oldItemName, rn.OldItemPrefix(), rn.NewItemPrefix());
      writer.WriteCharacters(text);
    }
    writer.WriteEndElement();
    if ElementText(reader.tokens, at + 1, "").Some? {
      RewriteAtText(reader.tokens, at, stack, before, rn);
      assert text == Written(site, ElementText(reader.tokens, at + 1, "").value.0, rn);
      assert writer.events == before + [StartElement(name, ns, decls, []), Characters(text), EndElement];
    }
  }

  /** One turn of `toXMLWithNewId`'s loop. `abort` is a `return QByteArray()`
      from inside the loop. */
  method RewriteToken(reader: StreamReader, writer: TokenWriter, stack: seq<string>, rn: Renaming)
    returns (newStack: seq<string>, abort: bool)
    requires reader.Valid() && !reader.atEnd
    modifies reader, writer
    ensures reader.Valid() && old(reader.pos) <= reader.pos
    ensures old(reader.pos) < reader.pos || reader.atEnd
    ensures !abort && reader.atEnd && !reader.hasError ==> newStack == []
    ensures abort ==> Rewrite(reader.tokens, old(reader.pos), stack, old(writer.events), rn) == None
    ensures !abort ==>
      RewriteResume(reader.tokens, reader.pos, reader.atEnd, reader.hasError, newStack, writer.events, rn)
        == Rewrite(reader.tokens, old(reader.pos), stack, old(writer.events), rn)
  {
    newStack, abort := stack, false;
    var token := reader.ReadNext();
    match token {
      case Invalid =>
      case StartElement(name, ns, decls, attrs) =>
        newStack, abort := RewriteStartElement(reader, writer, stack, name, ns, decls, attrs, rn);
      case EndElement =>
        if stack == [] {
          return stack, true;
        }
        newStack := stack[..|stack| - 1];
        writer.WriteEndElement();
      case StartDocument =>
        if stack != [] {
          return stack, true;
        }
        writer.WriteStartDocument();
      case EndDocument =>
        if stack != [] {
          return stack, true;
        }
        writer.WriteEndDocument();
      case Characters(characters) =>
        var text := characters;
        if Contains(characters, Marker) {
          if !HasMissileLine(characters) {
            return stack, true;
          }
          text := RenumberPayload(characters, rn.newId);
        }
        writer.WriteCharacters(text);
      case _ =>
        return stack, true;
    }
  }

  /** `BlueprintData::toXMLWithNewId`; `serialize` stands for the writer's
      rendering of its tokens. */
  method ToXmlWithNewId(data: seq<Token>, bp: BlueprintData, newId: nat, serialize: seq<Token> -> string)
    returns (result: string)
    ensures result == ToXml(data, bp, newId, serialize)
  {
    var idSubType := CutDigitsFromEnd(bp.gridName);
    var displayName := CutDigitsFromEnd(bp.displayName);
    var groupName := CutDigitsFromEnd(bp.groupName);
    var rn := Renaming(idSubType + Decimal(newId), displayName + Decimal(newId), groupName + Decimal(newId),
                       bp.groupName, newId);

    var reader := new StreamReader(data);
    var writer := new TokenWriter();
    var stack: seq<string> := [];

    while !reader.atEnd
      invariant reader.Valid() && reader.tokens == data
      invariant RewriteResume(data, reader.pos, reader.atEnd, reader.hasError, stack, writer.events, rn)
        == RewriteTokens(data, bp, newId)
      invariant reader.atEnd && !reader.hasError ==> stack == []
      decreases |data| - reader.pos, if reader.atEnd then 0 else 1
    {
      var abort;
      stack, abort := RewriteToken(reader, writer, stack, rn);
      if abort {
        return "";
      }
    }
    if reader.hasError {
      return "";
    }

    var fix := serialize(writer.events);
    fix := ReplaceAll(fix, "/>", " />");
    fix := ReplaceAll(fix, "&quot;", "\"");
    return fix;
  }
}
