/** The XML stream the core reads and writes, abstracted as tokens.

    `StreamReader` stands for `QXmlStreamReader` over a whole buffer: it hands
    out the tokens one at a time, stops after the end of the document or after
    an error, and reports running out of tokens before the end of the document
    as an error (Qt's premature-end-of-document error). `ReadElementText` is the
    cursor step of `QXmlStreamReader::readElementText`: it consumes the text of
    the current element together with its end tag.

    `TokenWriter` stands for `QXmlStreamWriter`: what it writes is again a token
    sequence, where a start tag carries the namespace declarations and
    attributes written right after it. Turning tokens into text (indentation,
    escaping) is not part of this model. */
module XmlStream {
  import opened Wrappers

  datatype Attribute = Attribute(namespaceUri: string, name: string, value: string)

  datatype NamespaceDeclaration = NamespaceDeclaration(prefix: string, namespaceUri: string)

  datatype Token =
    | StartDocument
    | EndDocument
    | StartElement(name: string, namespaceUri: string,
                   namespaceDeclarations: seq<NamespaceDeclaration>,
                   attributes: seq<Attribute>)
    | EndElement
    | Characters(text: string)
    | Comment    // comments and processing instructions
    | Other      // a DTD or any other token kind
    | Invalid    // the reader hit an error

  /** The attribute has that namespace and local name. */
  predicate Names(a: Attribute, ns: string, name: string) {
    a.namespaceUri == ns && a.name == name
  }

  /** `QXmlStreamAttributes::value(namespaceUri, name)`: the value of the first
      attribute with that namespace and local name, if any (`hasAttribute`). */
  function Lookup(attrs: seq<Attribute>, ns: string, name: string): (r: Option<string>)
    ensures r.Some? <==> exists i :: 0 <= i < |attrs| && Names(attrs[i], ns, name)
    decreases |attrs|
  {
    if attrs == [] then None
    else if Names(attrs[0], ns, name) then Some(attrs[0].value)
    else
      var r := Lookup(attrs[1..], ns, name);
      assert forall i :: 1 <= i < |attrs| ==> attrs[i] == attrs[1..][i - 1];
      r
  }

  /** The value found is that of the first attribute with that namespace and
      name. */
  lemma {:induction false} LookupFirst(attrs: seq<Attribute>, ns: string, name: string)
    ensures Lookup(attrs, ns, name).Some? ==>
      exists i :: 0 <= i < |attrs| && Names(attrs[i], ns, name) && Lookup(attrs, ns, name).value == attrs[i].value &&
        forall j :: 0 <= j < i ==> !Names(attrs[j], ns, name)
    decreases |attrs|
  {
    if attrs != [] && !Names(attrs[0], ns, name) {
      LookupFirst(attrs[1..], ns, name);
      if Lookup(attrs, ns, name).Some? {
        var i :| 0 <= i < |attrs[1..]| && Names(attrs[1..][i], ns, name) &&
          Lookup(attrs[1..], ns, name).value == attrs[1..][i].value &&
          forall j :: 0 <= j < i ==> !Names(attrs[1..][j], ns, name);
        assert forall j :: 1 <= j < i + 1 ==> attrs[j] == attrs[1..][j - 1];
        assert Names(attrs[i + 1], ns, name);
      }
    } else if attrs != [] {
      assert Names(attrs[0], ns, name);
    }
  }

  /** `attributes().value(namespaceUri, name)`: the empty string when absent. */
  function AttributeValue(attrs: seq<Attribute>, ns: string, name: string): string {
    match Lookup(attrs, ns, name)
    case Some(v) => v
    case None => ""
  }

  /** A token `readElementText` reads past inside an element: character data,
      or a comment or processing instruction. */
  predicate TextToken(t: Token) {
    t.Characters? || t.Comment?
  }

  /** Every token from `from` up to `to` is text. */
  predicate AllText(tokens: seq<Token>, from: nat, to: nat)
    requires from <= to <= |tokens|
  {
    forall k :: from <= k < to ==> TextToken(tokens[k])
  }

  /** Some end tag follows `pos` with only text before it. */
  predicate EndReachable(tokens: seq<Token>, pos: nat) {
    exists k :: pos <= k < |tokens| && tokens[k].EndElement? && AllText(tokens, pos, k)
  }

  /** The character data among `ts`, in order. */
  function TextOf(ts: seq<Token>): string
    decreases |ts|
  {
    if ts == [] then ""
    else (if ts[0].Characters? then ts[0].text else "") + TextOf(ts[1..])
  }

  /** What `readElementText` reads from `pos` on, with `acc` read so far:
      character data is collected, comments are skipped, the end tag finishes
      the element (the text and the position after the end tag are returned),
      and anything else, or the end of the tokens, is a reader error. */
  function ElementText(tokens: seq<Token>, pos: nat, acc: string): (r: Option<(string, nat)>)
    ensures r.Some? ==> pos < r.value.1 <= |tokens| && tokens[r.value.1 - 1] == EndElement
    ensures r.Some? ==> acc <= r.value.0
    decreases |tokens| - pos
  {
    if pos >= |tokens| then None
    else match tokens[pos]
      case Characters(t) =>
        var r := ElementText(tokens, pos + 1, acc + t);
        assert r.Some? ==> acc <= acc + t <= r.value.0;
        r
      case Comment => ElementText(tokens, pos + 1, acc)
      case EndElement => Some((acc, pos + 1))
      case _ => None
  }

  /** One step of `readElementText` over a text token. */
  function NextAcc(t: Token, acc: string): string {
    if t.Characters? then acc + t.text else acc
  }

  lemma ElementTextStep(tokens: seq<Token>, pos: nat, acc: string)
    requires pos < |tokens| && TextToken(tokens[pos])
    ensures ElementText(tokens, pos, acc) == ElementText(tokens, pos + 1, NextAcc(tokens[pos], acc))
  {
  }

  /** On success, `readElementText` has read only text before the end tag. */
  lemma {:induction false} ElementTextOnlyText(tokens: seq<Token>, pos: nat, acc: string)
    ensures var r := ElementText(tokens, pos, acc);
      r.Some? ==> AllText(tokens, pos, r.value.1 - 1)
    decreases |tokens| - pos
  {
    if pos < |tokens| && TextToken(tokens[pos]) {
      ElementTextStep(tokens, pos, acc);
      ElementTextOnlyText(tokens, pos + 1, NextAcc(tokens[pos], acc));
    }
  }

  /** On success, `readElementText` returns `acc` followed by all the
      character data it read. */
  lemma {:induction false} ElementTextReads(tokens: seq<Token>, pos: nat, acc: string)
    ensures var r := ElementText(tokens, pos, acc);
      r.Some? ==> r.value.0 == acc + TextOf(tokens[pos..r.value.1 - 1])
    decreases |tokens| - pos
  {
    if pos < |tokens| && TextToken(tokens[pos]) {
      var acc' := NextAcc(tokens[pos], acc);
      ElementTextStep(tokens, pos, acc);
      ElementTextReads(tokens, pos + 1, acc');
      var r := ElementText(tokens, pos + 1, acc');
      if r.Some? {
        TextOfFront(tokens, pos, r.value.1 - 1, acc);
      }
    } else if pos < |tokens| && tokens[pos].EndElement? {
      assert tokens[pos..pos] == [];
    }
  }

  /** The text of `tokens[pos..end]`, put after `acc`, is the text of
      `tokens[pos + 1..end]` put after the accumulator one step later. */
  lemma TextOfFront(tokens: seq<Token>, pos: nat, end: nat, acc: string)
    requires pos < end <= |tokens|
    ensures acc + TextOf(tokens[pos..end]) == NextAcc(tokens[pos], acc) + TextOf(tokens[pos + 1..end])
  {
    var u := tokens[pos..end];
    assert u[0] == tokens[pos] && u[1..] == tokens[pos + 1..end];
  }

  /** `readElementText` fails exactly when no end tag follows `pos` with only
      text before it: another token kind, or the end of the tokens, comes
      first. */
  lemma {:induction false} ElementTextFails(tokens: seq<Token>, pos: nat, acc: string)
    ensures ElementText(tokens, pos, acc).None? <==> !EndReachable(tokens, pos)
    decreases |tokens| - pos
  {
    if pos < |tokens| && TextToken(tokens[pos]) {
      ElementTextStep(tokens, pos, acc);
      ElementTextFails(tokens, pos + 1, NextAcc(tokens[pos], acc));
      ReachableThroughText(tokens, pos);
    } else if pos < |tokens| && tokens[pos].EndElement? {
      assert AllText(tokens, pos, pos);
    } else if pos < |tokens| {
      forall k | pos <= k < |tokens| && tokens[k].EndElement?
        ensures !AllText(tokens, pos, k)
      {
        assert k > pos && !TextToken(tokens[pos]);
      }
    }
  }

  /** Past a text token, an end tag is reachable exactly when it is from the
      next position. */
  lemma ReachableThroughText(tokens: seq<Token>, pos: nat)
    requires pos < |tokens| && TextToken(tokens[pos])
    ensures EndReachable(tokens, pos) <==> EndReachable(tokens, pos + 1)
  {
    if EndReachable(tokens, pos) {
      var k :| pos <= k < |tokens| && tokens[k].EndElement? && AllText(tokens, pos, k);
      assert k != pos;
      assert AllText(tokens, pos + 1, k);
    }
    if EndReachable(tokens, pos + 1) {
      var k :| pos + 1 <= k < |tokens| && tokens[k].EndElement? && AllText(tokens, pos + 1, k);
      assert AllText(tokens, pos, k);
    }
  }

  class StreamReader {
    const tokens: seq<Token>
    var pos: nat
    var atEnd: bool
    var hasError: bool

    ghost predicate Valid()
      reads this
    {
      pos <= |tokens| && (hasError ==> atEnd)
    }

    constructor (data: seq<Token>)
      ensures Valid() && tokens == data
      ensures pos == 0 && !atEnd && !hasError
    {
      tokens := data;
      pos := 0;
      atEnd := false;
      hasError := false;
    }

    /** `readNext`: the next token, or an error when the tokens ran out. */
    method ReadNext() returns (t: Token)
      requires Valid() && !atEnd
      modifies this
      ensures Valid()
      ensures t == (if old(pos) < |tokens| then tokens[old(pos)] else Invalid)
      ensures pos == (if old(pos) < |tokens| then old(pos) + 1 else old(pos))
      ensures hasError == t.Invalid?
      ensures atEnd == (t.Invalid? || t.EndDocument?)
    {
      if pos == |tokens| {
        t := Invalid;
      } else {
        t := tokens[pos];
        pos := pos + 1;
      }
      hasError := t.Invalid?;
      atEnd := t.Invalid? || t.EndDocument?;
    }

    /** `readElementText`, called right after a start tag: consumes the text
        and the matching end tag, or stops with an error. */
    method ReadElementText() returns (text: string)
      requires Valid() && !atEnd
      modifies this
      ensures Valid() && old(pos) <= pos
      ensures match ElementText(tokens, old(pos), "")
        case Some((s, next)) => text == s && pos == next && !atEnd && !hasError
        case None => atEnd && hasError
    {
      text := "";
      var done := false;
      while !done
        invariant Valid() && old(pos) <= pos
        invariant !done ==> !atEnd && !hasError
        invariant !done ==> ElementText(tokens, pos, text) == ElementText(tokens, old(pos), "")
        invariant done ==> match ElementText(tokens, old(pos), "")
          case Some((s, next)) => text == s && pos == next && !atEnd && !hasError
          case None => atEnd && hasError
        decreases |tokens| - pos, if done then 0 else 1
      {
        if pos == |tokens| {
          hasError, atEnd, done := true, true, true;
        } else {
          var t := tokens[pos];
          pos := pos + 1;
          match t {
            case Characters(s) => text := text + s;
            case Comment =>
            case EndElement => done := true;
            case _ => hasError, atEnd, done := true, true, true;
          }
        }
      }
    }
  }

  class TokenWriter {
    var events: seq<Token>

    constructor ()
      ensures events == []
    {
      events := [];
    }

    method WriteStartDocument()
      modifies this
      ensures events == old(events) + [StartDocument]
    {
      events := events + [StartDocument];
    }

    method WriteEndDocument()
      modifies this
      ensures events == old(events) + [EndDocument]
    {
      events := events + [EndDocument];
    }

    method WriteStartElement(namespaceUri: string, name: string)
      modifies this
      ensures events == old(events) + [StartElement(name, namespaceUri, [], [])]
    {
      events := events + [StartElement(name, namespaceUri, [], [])];
    }

    /** Adds a namespace declaration to the start tag just written. */
    method WriteNamespace(d: NamespaceDeclaration)
      requires events != [] && events[|events| - 1].StartElement?
      modifies this
      ensures var e := old(events)[|old(events)| - 1];
        events == old(events)[..|old(events)| - 1]
                  + [e.(namespaceDeclarations := e.namespaceDeclarations + [d])]
    {
      var e := events[|events| - 1];
      events := events[..|events| - 1] + [e.(namespaceDeclarations := e.namespaceDeclarations + [d])];
    }

    /** Adds attributes to the start tag just written (`writeAttribute`,
        `writeAttributes`). */
    method WriteAttributes(attrs: seq<Attribute>)
      requires events != [] && events[|events| - 1].StartElement?
      modifies this
      ensures var e := old(events)[|old(events)| - 1];
        events == old(events)[..|old(events)| - 1] + [e.(attributes := e.attributes + attrs)]
    {
      var e := events[|events| - 1];
      events := events[..|events| - 1] + [e.(attributes := e.attributes + attrs)];
    }

    method WriteCharacters(text: string)
      modifies this
      ensures events == old(events) + [Characters(text)]
    {
      events := events + [Characters(text)];
    }

    method WriteEndElement()
      modifies this
      ensures events == old(events) + [EndElement]
    {
      events := events + [EndElement];
    }
  }
}
