# Missile blueprint duplicator, modelled in Dafny

The program copies a Space Engineers missile blueprint (`bp.sbc`, an XML
file) into numbered copies. `BlueprintData::fromXml` reads the blueprint's
identity from the XML stream. That identity has four parts:

- the `Subtype` of `ShipBlueprint/Id` (the grid name);
- the `CubeGrid/DisplayName`;
- the single block group `Name`;
- the `CustomName` of every block, each of which must start with `(<group>) `.

It also reads the one text node holding the WHAM payload, the one containing
`Missile number=`. The grid name, display name and group name end in a
space and a number. The payload carries the same number, and all four must
agree. `BlueprintData::toXMLWithNewId` replays the same XML with a new number.
It writes the three names with their trailing digits replaced. It rewrites the
group prefix inside every item name and every `Missile number=` line of the
payload. Then it patches two details of the writer's output. The console
program (`main.cpp`) asks for the first number and the number of copies, and
writes one copy per number.

The model has these files:

- `wrappers.dfy`: `Option`.
- `text.dfy`: decimal digits, `QString::number`, the `cutDigitsFromEnd`
  loop, `contains`, `replace(QString, QString)` and splitting text into lines.
- `xml_stream.dfy`: the XML reader and writer, over tokens.
  `StreamReader` hands out tokens and implements the cursor step of
  `readElementText`. `TokenWriter` collects the tokens written; a start tag
  picks up the namespace declarations and attributes written after it.
- `patterns.dfy`: hand-written matchers for the three regular expressions,
  and the two text fix-ups applied to the output.
- `blueprint.dfy`: the record (its constructor and getters are the
  `BlueprintData` datatype), `fromXml` and `toXMLWithNewId`. Each loop is a
  method, proved equal to a function that states what it computes (`Scan` and
  `Validate`, `Rewrite`).
- `round_trip.dfy`: the two passes side by side. Rewriting succeeds on every
  blueprint that `fromXml` accepts, and the copy reads back as the renumbered
  record.
- `duplicator.dfy`: `isOnlyDigitsAndAtLeastOne`, `readNumericInputOrQuit`
  over a sequence of input lines, and the copy loop of `main`.

The XML itself is a sequence of tokens: start and end of document, a start
tag with its namespace declarations and attributes, an end tag, character
data, comments and processing instructions, any other token, and a reader
error. Running out of tokens before the end of the document is a reader
error. The writer's rendering of tokens into bytes is a function parameter,
`serialize`. Only the two fix-ups after it (`/>` to ` />`, then `&quot;` to
`"`) are modelled on text.

A copy made with the blueprint's own number is not always the same
blueprint. The new names are built with `QString::number`, which writes no
leading zeros. So a group `G 042` (number 42) becomes `G 42`, and every item
prefix `(G 042)` becomes `(G 42)` (`RoundTrip.PaddedNumberRenamesItems`).
The item names stay as they were only when the group's digits are already
`QString::number` of the id (`RoundTrip.SameNumberKeepsItems`). When the digits
of all three names are written that way, the copy is the same record
(`RoundTrip.SameNumberRecord`), and it reads back as the original blueprint
(`RoundTrip.SameNumberRoundTrip`). The model follows the code here, not the
expectation that such a copy always changes nothing.

## Model

| member | source | states |
|---|---|---|
| Text.CutDigits | src/BlueprintData.cpp:204-214 | the result is a prefix of the input, does not end in a digit, and the rest of the input is all digits |
| Text.TrailingDigits | src/BlueprintData.cpp:204-214 | the input is the cut name followed by an all-digit run |
| Text.CutDigitsUnique | src/BlueprintData.cpp:204-214 | any split into a part not ending in a digit plus an all-digit part is the one `cutDigitsFromEnd` makes |
| Text.CutDigitsIdempotent | src/BlueprintData.cpp:204-214 | cutting twice gives the same as cutting once |
| Text.CutDigitsRenumbered | src/BlueprintData.cpp:204-220 | cutting the digits of a renumbered name gives back the cut name |
| Text.CutDigitsFromEnd | src/BlueprintData.cpp:204-214 | the chopping loop returns exactly `CutDigits` of its argument |
| Text.Decimal | src/BlueprintData.cpp:218-220 | `QString::number` of a non-negative id is a non-empty digit string |
| Text.DecimalValue | src/BlueprintData.cpp:218-220 | reading back the digits `QString::number` wrote gives the number |
| Text.ReplaceAll | src/BlueprintData.cpp:280 | defines `QString::replace(QString, QString)`: every occurrence, left to right, without overlap; its properties are the lemmas below |
| Text.Contains | src/BlueprintData.cpp:118 | defines `QString::contains`: the pattern occurs at some offset |
| Text.ReplaceAllAbsent | src/BlueprintData.cpp:280 | `replace` leaves text without the pattern unchanged |
| Text.ReplaceAllSame | src/BlueprintData.cpp:280 | replacing a pattern by itself changes nothing |
| Text.ReplaceAllLeading | src/BlueprintData.cpp:280 | a leading occurrence is replaced and the rest is processed on its own |
| Text.ReplaceAllNonEmpty | src/BlueprintData.cpp:340-343 | replacing with a non-empty text never makes a non-empty text empty |
| Text.SplitJoin | src/BlueprintData.cpp:322 | splitting the joined lines gives back lines that had no line feed |
| Text.JoinSplit | src/BlueprintData.cpp:322 | joining the lines of a text gives back the text, so with `Text.SplitJoin` the line view of a payload loses nothing |
| XmlStream.Lookup | src/BlueprintData.cpp:71-77 | `hasAttribute("", "Subtype")` holds exactly when some attribute has that namespace and name |
| XmlStream.LookupFirst | src/BlueprintData.cpp:77 | `value("", "Subtype")` is the value of the first attribute with that namespace and name |
| XmlStream.AttributeValue | src/BlueprintData.cpp:257 | `attributes().value(ns, name)`: the first match's value, or the empty string |
| XmlStream.ElementText | src/BlueprintData.cpp:80 | `readElementText` ends just after an end tag and returns at least the text read so far |
| XmlStream.ElementTextOnlyText | src/BlueprintData.cpp:80 | on success only character data and comments lie between the start tag and the end tag, so the end tag is the first token that is not text |
| XmlStream.ElementTextReads | src/BlueprintData.cpp:80 | on success the text is all the character data before the end tag, in order |
| XmlStream.ElementTextFails | src/BlueprintData.cpp:80 | `readElementText` fails exactly when another token kind, or the end of the input, comes before any end tag |
| XmlStream.StreamReader.ReadNext | src/BlueprintData.cpp:54-58 | the next token, or an error at the end of the tokens; stops after the end of the document or an error |
| XmlStream.StreamReader.ReadElementText | src/BlueprintData.cpp:80-83 | consumes the text and the end tag, or stops with an error |
| XmlStream.TokenWriter.WriteStartDocument | src/BlueprintData.cpp:302-304 | appends the start of the document |
| XmlStream.TokenWriter.WriteEndDocument | src/BlueprintData.cpp:306-308 | appends the end of the document |
| XmlStream.TokenWriter.WriteStartElement | src/BlueprintData.cpp:243 | appends a start tag with no declarations or attributes yet |
| XmlStream.TokenWriter.WriteNamespace | src/BlueprintData.cpp:244-246 | adds a namespace declaration to the last start tag and changes nothing else |
| XmlStream.TokenWriter.WriteAttributes | src/BlueprintData.cpp:257-258 | adds attributes to the last start tag and changes nothing else |
| XmlStream.TokenWriter.WriteCharacters | src/BlueprintData.cpp:324 | appends a text token |
| XmlStream.TokenWriter.WriteEndElement | src/BlueprintData.cpp:298-299 | appends an end tag |
| Patterns.TrailingNumber | src/BlueprintData.cpp:163-183 | a match is a space followed by digits at the end of the text, or before a final line feed, and captures their value |
| Patterns.TrailingNumberOf | src/BlueprintData.cpp:163-183 | any text, a space and digits match, with or without one final line feed |
| Patterns.RenumberedName | src/BlueprintData.cpp:218-220 | a renumbered name that did not end in a line feed carries the new number |
| Patterns.RenumberedNameWithLineFeed | src/BlueprintData.cpp:218-220 | `"A 1\n"` matches, but its renumbered form does not |
| Patterns.FirstMissileFrom | src/BlueprintData.cpp:185-192 | there is no match exactly when no interior line is `Missile number=` and digits; a match is the number of such a line |
| Patterns.FirstMissileAt | src/BlueprintData.cpp:185-192 | the match is the first such line |
| Patterns.MissileNumber | src/BlueprintData.cpp:185-192 | `\nMissile number=(\d+)\n` on the payload: the number of the first missile line with a line feed on both sides |
| Patterns.HasMissileLine | src/BlueprintData.cpp:313-318 | the multiline `^Missile number=(\d+)$` matches some line of the text |
| Patterns.MissileNumberHasLine | src/BlueprintData.cpp:185-192 | a payload `fromXml` accepts also has a line the rewrite's pattern matches |
| Patterns.RenumberPayload | src/BlueprintData.cpp:322 | the payload with every missile line replaced; its meaning is stated by the lemmas below |
| Patterns.RenumberPayloadLines | src/BlueprintData.cpp:322 | line by line, every `Missile number=` line becomes `Missile number=<new id>` and every other line is kept |
| Patterns.RenumberedPayloadNumber | src/BlueprintData.cpp:322 | the rewritten payload yields the new number to `fromXml`'s pattern |
| Patterns.RenumberedPayloadKeepsMarker | src/BlueprintData.cpp:311-322 | the rewritten payload still contains `Missile number=` |
| Patterns.SpaceSelfClosing | src/BlueprintData.cpp:340 | defines the first fix-up, `/>` to ` />` |
| Patterns.UnescapeQuotes | src/BlueprintData.cpp:343 | defines the second fix-up, `&quot;` to `"` |
| Patterns.FixUp | src/BlueprintData.cpp:337-345 | the two fix-ups in the source's order |
| Patterns.SpaceSelfClosingHead | src/BlueprintData.cpp:340 | the first fix-up keeps a non-empty text non-empty |
| Patterns.SpaceSelfClosingSpaced | src/BlueprintData.cpp:340 | after the first fix-up, every `/>` has a space before it |
| Patterns.UnescapeQuotesUndoesEscape | src/BlueprintData.cpp:343 | the second fix-up undoes the writer's escaping of `"` in text without `&` |
| Blueprint.Scan | src/BlueprintData.cpp:54-131 | a successful scan ends with an empty stack, only adds items, and keeps the first group name and payload |
| Blueprint.CommonNumber | src/BlueprintData.cpp:163-199 | there is a common number exactly when the four matches exist and are equal, and it is each match's number |
| Blueprint.Validate | src/BlueprintData.cpp:138-201 | a record is produced exactly when all five fields were found, there is an item, every item has the group prefix and the four numbers agree; it holds the fields and that number |
| Blueprint.Extract | src/BlueprintData.cpp:35-202 | defines what `fromXml` returns: the checks applied to the final state of the scan |
| Blueprint.ScanStartElement | src/BlueprintData.cpp:62-101 | the start-tag case of the loop continues the scan or gives up exactly as `Scan` does |
| Blueprint.ScanToken | src/BlueprintData.cpp:55-131 | one turn of the loop continues the scan or gives up exactly as `Scan` does |
| Blueprint.FromXml | src/BlueprintData.cpp:35-202 | `fromXml` returns `Extract`, the checks of `Validate` applied to the final state of `Scan` |
| Blueprint.CheckFields | src/BlueprintData.cpp:138-201 | the checks after the loop, in the source's order, return `Validate` of the loop's state |
| Blueprint.HasPrefix | src/BlueprintData.cpp:155-161 | the loop over the items finds whether every item starts with the prefix |
| Blueprint.RenamingFor | src/BlueprintData.cpp:218-222 | the three new names (digits cut, the new id appended) and the old group name |
| Blueprint.RenameItem | src/BlueprintData.cpp:279-280 | an item name with every `(<old group>)` replaced by `(<new group>)` |
| Blueprint.IdStartTag | src/BlueprintData.cpp:249-258 | the `Id` start tag written: only `Type` as read and the new `Subtype` |
| Blueprint.RewriteCharacters | src/BlueprintData.cpp:310-324 | a text node with the marker is renumbered, any other text is kept |
| Blueprint.Rewrite | src/BlueprintData.cpp:233-331 | the rewrite only appends to what was written |
| Blueprint.RewriteTokens | src/BlueprintData.cpp:216-331 | the tokens `toXMLWithNewId` writes with the renaming for the new id |
| Blueprint.ToXml | src/BlueprintData.cpp:216-348 | defines what `toXMLWithNewId` returns: the fixed-up rendering, or empty on failure |
| Blueprint.ScanAtId | src/BlueprintData.cpp:69-77 | at `ShipBlueprint/Id`, `fromXml` records the `Subtype` and goes on |
| Blueprint.ScanAtText | src/BlueprintData.cpp:78-99 | at the three text sites, `fromXml` records the element's text and goes on after its end tag |
| Blueprint.RewriteAtId | src/BlueprintData.cpp:249-258 | at `ShipBlueprint/Id`, the rewrite writes a tag with only `Type` and the new `Subtype` |
| Blueprint.RewriteAtText | src/BlueprintData.cpp:259-287 | at the three text sites, the rewrite writes the start tag, the new text and the end tag |
| Blueprint.ScanRejectsSecondGroup | src/BlueprintData.cpp:84-88 | a second block-group `Name` makes `fromXml` give up |
| Blueprint.ScanRejectsSecondPayload | src/BlueprintData.cpp:117-124 | a second text node containing `Missile number=` makes `fromXml` give up |
| Blueprint.ScanRejectsMissingSubtype | src/BlueprintData.cpp:69-75 | an `Id` without `Subtype` makes `fromXml` give up |
| Blueprint.ScanRejectsUnreadableText | src/BlueprintData.cpp:78-99 | a text site whose text cannot be read makes `fromXml` give up |
| Blueprint.ScanRejectsStructure | src/BlueprintData.cpp:102-136 | an end tag with nothing open, a document token inside an element, an unhandled token, a reader error or running out of input make `fromXml` give up |
| Blueprint.TwoGroupNamesRejected | src/BlueprintData.cpp:84-88 | a block group with one `Name` element scans, and the same document with a second `Name` element does not, so the duplicate is what the scan rejects |
| Blueprint.RewriteCopiesPlainTag | src/BlueprintData.cpp:288-291 | a start tag outside the four sites is written as read, with its namespace declarations and attributes |
| Blueprint.RewriteCopiesToken | src/BlueprintData.cpp:293-325 | end tags, the start of the document and text without the marker are written unchanged |
| Blueprint.RewriteCopiesEndDocument | src/BlueprintData.cpp:306-309 | the end of the document is written and ends the rewrite |
| Blueprint.RewriteRenumbersPayload | src/BlueprintData.cpp:310-324 | a text node with the marker and a missile line is written with every missile line renumbered |
| Blueprint.RewriteRejectsPayloadWithoutLine | src/BlueprintData.cpp:312-318 | a text node with the marker but no missile line makes the rewrite give up |
| Blueprint.RewriteRejectsStructure | src/BlueprintData.cpp:249-330 | a missing `Subtype`, an unreadable text site, an end tag with nothing open, a document token inside an element, an unhandled token, a reader error or running out of input make the rewrite give up |
| Blueprint.ToXmlEmptyOnPayloadWithoutLine | src/BlueprintData.cpp:312-318 | when the rewrite reaches a text node with the marker but no missile line, `toXMLWithNewId` returns the empty array |
| Blueprint.WriteStartTag | src/BlueprintData.cpp:243-247 | the start tag is written with every namespace declaration read |
| Blueprint.RewriteStartElement | src/BlueprintData.cpp:236-292 | the start-tag case of the loop writes and continues or gives up exactly as `Rewrite` does |
| Blueprint.RewriteElementText | src/BlueprintData.cpp:259-287 | the text-site branches write and continue exactly as `Rewrite` does |
| Blueprint.RewriteToken | src/BlueprintData.cpp:233-331 | one turn of the loop writes and continues or gives up exactly as `Rewrite` does |
| Blueprint.ToXmlWithNewId | src/BlueprintData.cpp:216-348 | `toXMLWithNewId` returns the fixed-up rendering of `Rewrite`'s tokens, or the empty array when the rewrite gives up |
| RoundTrip.RenamedItemPrefix | src/BlueprintData.cpp:280 | an item with the old group prefix has the new one after the rename |
| RoundTrip.RenamedItemKeepsRest | src/BlueprintData.cpp:280 | an item mentioning the old group only in its prefix keeps the rest of its name |
| RoundTrip.IdStartTagSubtype | src/BlueprintData.cpp:257-258 | the `Id` tag written carries the new `Subtype`, so reading it back finds the new grid name |
| RoundTrip.Simulation | src/BlueprintData.cpp:233-331 | wherever the scan of the original succeeds and the payload it read, if any, has a `Missile number=<digits>` line, the rewrite succeeds, and the scan of what it wrote ends in the renamed state |
| RoundTrip.RewriteSucceeds | src/BlueprintData.cpp:216-348 | `toXMLWithNewId` never gives up on a blueprint `fromXml` accepts |
| RoundTrip.ValidateRenamed | src/BlueprintData.cpp:138-201 | the checks accept the renamed fields and give the renumbered record |
| RoundTrip.RoundTrip | src/BlueprintData.cpp:216-348 | reading the copy back gives the new names, the renamed items and the new number |
| RoundTrip.RenumberedTwice | src/BlueprintData.cpp:218-220 | for every blueprint, renumbering a copy again gives the names of renumbering the original |
| RoundTrip.SameNumberKeepsItems | src/BlueprintData.cpp:218-222 | a copy with the blueprint's own id keeps every item name, when the group's digits are `QString::number` of that id |
| RoundTrip.SameNumberRecord | src/BlueprintData.cpp:218-222 | when the grid, display and group names' digits are `QString::number` of the blueprint's id, renumbering with that id gives back the same record, items included |
| RoundTrip.SameNumberRoundTrip | src/BlueprintData.cpp:216-348 | for such a blueprint whose names do not end in a line feed, the copy with its own id is written, and reading it back gives the blueprint itself |
| RoundTrip.PaddedNumberRenamesItems | src/BlueprintData.cpp:218-222 | with the zero-padded group `G 042` (number 42), the copy with id 42 renames item `(G 042) W` to `(G 42) W` |
| Duplicator.IsOnlyDigitsAndAtLeastOne | src/main.cpp:25-36 | true exactly for a non-empty string of `'0'..'9'` |
| Duplicator.ToInt | src/main.cpp:53-58 | `toInt` on a digit string succeeds exactly when its value fits in `int`, and then returns that value |
| Duplicator.Accepted | src/main.cpp:48-64 | the number a reply stands for: a non-empty digit string whose value fits in `int` and lies in `[min, max]` |
| Duplicator.Answer | src/main.cpp:38-67 | a choice is in `[min, max]` and comes from the first reply that is a quit or an accepted number; a quit is `q` or `quit`; every earlier reply was skipped |
| Duplicator.ReadNumericInputOrQuit | src/main.cpp:38-67 | the retry loop returns `Answer` of the input lines |
| Duplicator.DecimalAccepted | src/main.cpp:48-64 | the decimal form of an in-range number is accepted as that number |
| Duplicator.DuplicateBlueprint | src/main.cpp:192-237 | copy `i` has id `firstIndex + i`, the folder of that id and the rewrite for it; the loop stops at the first empty rewrite or unwritable file, and otherwise writes all copies |
| Duplicator.CopyName | src/main.cpp:199 | the copy's folder: the display name with its digits cut and the id appended |
| Duplicator.CopyNamesDistinct | src/main.cpp:199 | different ids give different folder names |
| Duplicator.CopyNameNumber | src/main.cpp:199 | a folder name carries its copy's id as its number |
| Duplicator.ToXmlNotEmpty | src/main.cpp:193-197 | for a blueprint `fromXml` accepted, the rewrite is never empty, given a serializer that never renders tokens as nothing |

## Left out

- The XML tokenizer and the writer's rendering: escaping, indentation,
  encodings, entity references. Both are token sequences here; rendering is
  the `serialize` parameter.
- The regular expression engine. The three fixed patterns are hand-written
  matchers, on line feeds only (no `\r\n` handling).
- `QString::toInt` overflow in `fromXml`: the four numbers are unbounded
  naturals here. The source would read a digit run above 2147483647 as 0.
  The prompt's `toInt` does model the limit (`Duplicator.ToInt`).
- `Blueprint.ToXmlWithNewId`: the new id is a natural number; the source's
  `qsizetype` could be negative, and then `QString::number` writes a minus
  sign.
- `Blueprint.RewriteStartElement`: the `Id` tag of the copy has only `Type`
  and `Subtype`, as in the source; any other attribute of `Id` is dropped.
- `RoundTrip.RoundTrip`: requires that the grid, display and group names do
  not end in a line feed. The source's ` (\d+)$` also matches before a final
  line feed, but renumbering appends digits after that line feed, so such a
  copy does not read back (`Patterns.RenumberedNameWithLineFeed`).
- `RoundTrip.RoundTrip`: stated on tokens. The copy's bytes are not parsed
  back, so the fix-ups' effect on the XML is not part of it.
- `RoundTrip.SameNumberRoundTrip`: carries both restrictions of
  `RoundTrip.RoundTrip`, since it is proved from it.
- `Blueprint.Rewrite`: its own contract says only that the output extends
  what was written. That every other token is copied unchanged is stated one
  step at a time (`Blueprint.RewriteCopiesPlainTag`,
  `Blueprint.RewriteCopiesToken`), not as one statement about a whole
  document.
- `Duplicator.ReadNumericInputOrQuit`: the source loops for ever once the
  input runs out; here that ends as `Exhausted`. The value left in `choice`
  after a quit or a rejected reply is not modelled.
- `Duplicator.DuplicateBlueprint`: file and folder creation, the prompt
  before replacing an existing copy, `--force`, and the thumbnail copy are
  reduced to the `writable` parameter.
- `isValidBlueprintLocation`, `getDefaultLocalBlueprintFolder`,
  `scanBlueprints`, the blueprint selection and the file reads of `main`:
  file system I/O.
- All console output and diagnostics.
- `Options.cpp` / `Options.h`: command-line parsing.
- The header `BlueprintData.h` declares a `nameTag` field and an `Options`
  parameter that the definitions in `BlueprintData.cpp` do not have; the model
  follows `BlueprintData.cpp`.
