# Xcode project-file objects and their printer

This project models the object model of CMake's Xcode generator. It covers
`cmXCodeObject` and the text it writes into a `project.pbxproj` file.

A node has one of five kinds: OBJECT, OBJECT_LIST, STRING, ATTRIBUTE_GROUP or
OBJECT_REF. An OBJECT also has a category (`PBXGroup`, `PBXFileReference`,
…), an identifier and a comment. It carries attributes in container order.

Identifiers come from a process-wide registry:
- When the constructor is given a hashing key, the identifier is "02"
  followed by the hex of a SHA-256 digest. It is cached per prefix and key.
- Without a key, it is "01" followed by a counter zero-padded to 22 digits.
- Nodes of the other kinds get a fixed temporary text.
- Every identifier then has its hyphens stripped and is cut to 24
  characters.

The printer writes an object block. The block has the identifier line, the
`isa` line and every other attribute at its indent. Attributes are printed by
kind:
- lists of strings inline, lists of nodes one line per node
- groups one level deeper
- references as the target's identifier and comment
- strings quoted and escaped when the parser needs it

A format version above 15 turns file references and build files into the
compact one-line layout.

The model has four modules:

- `XcodeIds` (`ids.dfy`): the identifier scheme and the registry.
  - Hex and decimal rendering, zero padding, hyphen stripping, truncation.
  - The class `IdRegistry`, whose fields are the cache and the counter.
- `XcodeEscaping` (`escaping.dfy`): when a string is quoted and how it is
  escaped. Also reading escaped text back.
- `XcodeObjects` (`object.dfy`): the node as a class with the source's
  fields. Its constructor and mutators update them in place.
  - The printer methods take the text written so far and return the text
    after the operation.
  - Each method is proved equal to a text function (`WriteObject`,
    `WriteAttribute`, `WriteObjectList`, …). The functions state what the
    stream holds afterwards.
- `XcodePrinting` (`printing.dfy`): facts about those text functions.
  - Printing only appends. What it appends does not depend on the text
    already written.
  - An all-string list is its values joined by commas.
  - A group entry is written one level deeper, and a string list inside a
    group stays on the entry's line.
  - The objects section keeps the OBJECT entries in order.
  - The two layouts.
  - Concrete blocks.

The output stream is modelled as the string written so far. The registry is
an explicit object passed to the constructor rather than global state. Its
digest function is a constant of the registry.

Four behaviours of the source are easy to misread. The model keeps each one
as written:

- **Cached identifier length.** On a cache miss, `xcodeId.erase(xcodeId.begin() + 24)`
  (Source/cmXCodeObject.cxx:74-76) removes the single character at index 24.
  The cached value for prefix "02" is therefore 25 characters long
  (`HashedIdShape`). The constructor's truncation (lines 120-122) then leaves
  "02" followed by the hex of 11 digest bytes (`HashedFinalId`).
- **Inline string lists.** String elements of a list are written right after
  the opening line (lines 198-202). A comma follows every element but the
  last, and no separator or space is written between them
  (`StringListIsJoined`, `TwoStringList`).
- **Unknown kind.** For a value of kind OBJECT, PrintAttribute writes only the
  indent (lines 190 and 245-247). This is the last case of `WriteAttribute`.
- **Compact layout indent.** Print writes the two leading tabs before it
  chooses the layout (lines 156-162), so a compact block still starts with
  them (`CompactLayout`).

## Model

| member | source | states |
|---|---|---|
| XcodeObjects.TypeIndex | Source/cmXCodeObject.cxx:16-41 | every category has a position inside the name table |
| XcodeObjects.TypeOfTypeName | Source/cmXCodeObject.cxx:16-41 | every category can be read back from the name the table gives it |
| XcodeObjects.TypeNameInjective | Source/cmXCodeObject.cxx:16-41 | distinct categories are printed under distinct names |
| XcodeIds.HexOfFirstTwelve | Source/cmXCodeObject.cxx:66-71 | the hex loop renders the first 12 digest bytes as 24 lower-case hex digits, two per byte in order |
| XcodeIds.HexDigit | Source/cmXCodeObject.cxx:69-70 | a nibble is printed as a lower-case hex digit |
| XcodeIds.HexShape | Source/cmXCodeObject.cxx:66-71 | hex text is two lower-case hex digits per byte |
| XcodeIds.UnhexHex | Source/cmXCodeObject.cxx:66-71 | the hex rendering is lossless: reading two digits per byte gives the bytes back |
| XcodeIds.LookupKeyInjective | Source/cmXCodeObject.cxx:56-60 | with hyphen-free prefixes, two (prefix, key) pairs share a cache slot only if they are equal |
| XcodeIds.HashedId | Source/cmXCodeObject.cxx:73-76 | the prefix and the hex of 12 digest bytes, with the single character at index 24 erased when longer than 24 |
| XcodeIds.HashedIdShape | Source/cmXCodeObject.cxx:73-79 | the cached identifier for prefix "02" is 25 characters long, is free of hyphens, and its first 24 are "02" and the hex of 11 digest bytes |
| XcodeIds.HashedFinalId | Source/cmXCodeObject.cxx:112-122 | a hashed OBJECT's final Id is "02" and the hex of 11 digest bytes, 24 characters |
| XcodeIds.IdRegistry.UniqueXcodeId | Source/cmXCodeObject.cxx:53-81 | a hit returns the cached value and changes nothing; a miss returns the digest identifier and caches it; afterwards the key maps to the returned id, so a repeated call returns the same id; the counter is untouched; with a hyphen-free prefix the cache stays consistent |
| XcodeIds.IdRegistry.ResetIdSequence | Source/cmXCodeObject.cxx:83-87 | the counter becomes 0 whatever it was, so a reset is idempotent; the cache is kept and stays consistent |
| XcodeIds.IdRegistry.NextSequenceIndex | Source/cmXCodeObject.cxx:105 | the counter grows by one modulo 2^64 and the new value is returned; the cache is kept |
| XcodeIds.SizeModulusBound | Source/cmXCodeObject.cxx:51 | a size_t counter has fewer than 22 decimal digits, so the padding never has to cut |
| XcodeIds.ZeroPad | Source/cmXCodeObject.cxx:107-109 | the padding loop yields the digits preceded by zeros up to 22 characters |
| XcodeIds.PadLeftShape | Source/cmXCodeObject.cxx:107-109 | padded text is the width long (or the original if longer), ends with the original and has only zeros before it |
| XcodeIds.PaddedDecimal | Source/cmXCodeObject.cxx:106-109 | padding the decimal text of n to w digits is the fixed-width rendering of n |
| XcodeIds.SequenceIdShape | Source/cmXCodeObject.cxx:104-110 | a sequence identifier is "01" and 22 decimal digits: 24 characters without hyphen |
| XcodeIds.FixedDigitsMonotone | Source/cmXCodeObject.cxx:106-109 | fixed-width decimal rendering is strictly increasing in the lexicographic order |
| XcodeIds.SequenceIdsIncrease | Source/cmXCodeObject.cxx:104-110 | a later counter value gives a lexicographically larger sequence identifier |
| XcodeIds.StripHyphens | Source/cmXCodeObject.cxx:119 | the result holds no hyphen, is no longer than the input, and has only the input's characters |
| XcodeIds.StripHyphensKeepsPlainText | Source/cmXCodeObject.cxx:119 | text without hyphens is unchanged by the stripping |
| XcodeIds.StripHyphensAppend | Source/cmXCodeObject.cxx:119 | stripping distributes over concatenation |
| XcodeIds.StripHyphensIdempotent | Source/cmXCodeObject.cxx:119 | stripping twice is stripping once |
| XcodeIds.TruncateId | Source/cmXCodeObject.cxx:120-122 | the result has at most 24 characters: the input when short enough, its first 24 otherwise |
| XcodeIds.FinalId | Source/cmXCodeObject.cxx:119-122 | every stored identifier is hyphen-free and at most 24 long |
| XcodeIds.FinalIdOfLongText | Source/cmXCodeObject.cxx:119-122 | text whose first 24 characters hold no hyphen ends up as exactly those 24 |
| XcodeIds.TemporaryFinalId | Source/cmXCodeObject.cxx:114-122 | a non-OBJECT node's Id is the first 24 characters of the temporary text |
| XcodeIds.SequenceFinalId | Source/cmXCodeObject.cxx:104-122 | a sequence identifier passes stripping and truncation unchanged |
| XcodeObjects.XcodeObject.constructor | Source/cmXCodeObject.cxx:89-128 | version 15, no target object, the given category and kind, an Id that is hyphen-free and 24 long, the reserved isa attribute for an OBJECT only, an empty node; the registry changes exactly as the chosen identifier path demands |
| XcodeObjects.XcodeObject.NewId | Source/cmXCodeObject.cxx:98-122 | the temporary text for non-OBJECT kinds, the next sequence identifier without a key (counter + 1, cache kept), the digest identifier with a key (cache extended, counter kept), always hyphen-free and 24 long |
| XcodeObjects.XcodeObject.SetString | Source/cmXCodeObject.cxx:301-304 | only the string changes; a STRING node is then empty exactly when the new string is |
| XcodeObjects.XcodeObject.CopyAttributes | Source/cmXCodeObject.cxx:265-271 | attributes, list, string and referenced object are copied, kind, category, Id and comment kept; emptiness follows the copy's when the kinds agree |
| XcodeObjects.XcodeObject.IsEmpty | Source/cmXCodeObject.cxx:130-144 | per kind: the list, the string or the attributes are empty; no referenced object for OBJECT_REF and OBJECT |
| XcodeObjects.XcodeObject.Indent | Source/cmXCodeObject.cxx:146-152 | the loop appends exactly `level` tabs |
| XcodeObjects.XcodeObject.PrintString | Source/cmXCodeObject.cxx:273-294 | appends the string in its printed form: quoted and escaped when the parser needs it |
| XcodeObjects.XcodeObject.PrintEscaped | Source/cmXCodeObject.cxx:286-292 | the character loop appends the escaped text |
| XcodeObjects.XcodeObject.PrintOwnString | Source/cmXCodeObject.cxx:296-299 | appends the node's own string in printed form |
| XcodeObjects.XcodeObject.Print | Source/cmXCodeObject.cxx:154-182 | appends exactly the object block WriteObject describes |
| XcodeObjects.XcodeObject.PrintMembers | Source/cmXCodeObject.cxx:172-179 | the attribute loop appends every attribute but isa, in order, at level 3 |
| XcodeObjects.XcodeObject.PrintMember | Source/cmXCodeObject.cxx:173-178 | one step of the attribute loop extends the text of the attributes before it |
| XcodeObjects.XcodeObject.PrintAttribute | Source/cmXCodeObject.cxx:184-249 | appends exactly what WriteAttribute describes for the value's kind |
| XcodeObjects.XcodeObject.PrintListValue | Source/cmXCodeObject.cxx:192-214 | the OBJECT_LIST case, with separator and closing indent only outside a group |
| XcodeObjects.XcodeObject.PrintListItems | Source/cmXCodeObject.cxx:197-209 | the element loop appends the text of every element in order |
| XcodeObjects.XcodeObject.PrintGroupValue | Source/cmXCodeObject.cxx:216-227 | the ATTRIBUTE_GROUP case |
| XcodeObjects.XcodeObject.PrintGroupEntries | Source/cmXCodeObject.cxx:220-223 | every entry of the group in order, one level deeper |
| XcodeObjects.XcodeObject.PrintGroupEntry | Source/cmXCodeObject.cxx:220-223 | one step of the entry loop extends the text of the entries before it |
| XcodeObjects.XcodeObject.PrintRefValue | Source/cmXCodeObject.cxx:229-236 | the OBJECT_REF case |
| XcodeObjects.XcodeObject.PrintStringValue | Source/cmXCodeObject.cxx:238-243 | the STRING case |
| XcodeObjects.XcodeObject.PrintList | Source/cmXCodeObject.cxx:251-263 | appends the objects section WriteObjectList describes |
| XcodeObjects.XcodeObject.PrintListEntry | Source/cmXCodeObject.cxx:256-260 | one step of the section loop: an OBJECT's block is appended, any other node adds nothing |
| XcodeEscaping.NeedsQuote | Source/cmXCodeObject.cxx:277-281 | a string needs quotes when it is empty, holds "//", or holds a character other than a letter, a digit or one of `$ _ . /` |
| XcodeEscaping.EscapeAppend | Source/cmXCodeObject.cxx:286-292 | escaping distributes over concatenation |
| XcodeEscaping.EscapeSnoc | Source/cmXCodeObject.cxx:286-292 | escaping proceeds character by character |
| XcodeEscaping.EscapeLength | Source/cmXCodeObject.cxx:286-292 | escaping adds one character per double quote and backslash |
| XcodeEscaping.EscapeKeepsOrdinaryText | Source/cmXCodeObject.cxx:286-292 | text without double quotes and backslashes is unchanged |
| XcodeEscaping.PrintedAsIs | Source/cmXCodeObject.cxx:277-282 | a string is printed unchanged if and only if it is non-empty, all plain characters and free of "//" |
| XcodeEscaping.PrintedQuoted | Source/cmXCodeObject.cxx:277-293 | otherwise it is quoted around its escaped form, two characters plus the backslashes longer |
| XcodeEscaping.EscapeIsWellEscaped | Source/cmXCodeObject.cxx:286-292 | escaped text holds no unescaped double quote and no dangling backslash |
| XcodeEscaping.UnescapeEscape | Source/cmXCodeObject.cxx:286-292 | reading escaped text back gives the original string |
| XcodeEscaping.EscapeUnescape | Source/cmXCodeObject.cxx:286-292 | every well-escaped text is the escaped form of the string read from it |
| XcodePrinting.PlainWord | Source/cmXCodeObject.cxx:277-282 | a non-empty word of plain characters without a slash is printed bare |
| XcodePrinting.ListItemAppend | Source/cmXCodeObject.cxx:197-209 | one list element appends text that does not depend on what was written before |
| XcodePrinting.ListItemsAppend | Source/cmXCodeObject.cxx:197-209 | the same for the first n elements |
| XcodePrinting.ListValueAppend | Source/cmXCodeObject.cxx:192-214 | the same for an OBJECT_LIST value |
| XcodePrinting.RefValueAppend | Source/cmXCodeObject.cxx:229-236 | the same for an OBJECT_REF value |
| XcodePrinting.StringValueAppend | Source/cmXCodeObject.cxx:238-243 | the same for a STRING value |
| XcodePrinting.AttributeAppend | Source/cmXCodeObject.cxx:184-249 | the same for any attribute, through nested groups |
| XcodePrinting.GroupValueAppend | Source/cmXCodeObject.cxx:216-227 | the same for an ATTRIBUTE_GROUP value |
| XcodePrinting.GroupEntriesAppend | Source/cmXCodeObject.cxx:220-223 | the same for the first n group entries |
| XcodePrinting.MembersAppend | Source/cmXCodeObject.cxx:172-179 | the same for the first n attributes of an object |
| XcodePrinting.ObjectAppend | Source/cmXCodeObject.cxx:154-182 | printing an object appends its block, whatever the stream held |
| XcodePrinting.ObjectsAppend | Source/cmXCodeObject.cxx:256-260 | the same for the blocks of a sequence of objects |
| XcodePrinting.StringItemsBeforeLast | Source/cmXCodeObject.cxx:197-202 | before the last element each string value is followed by a comma |
| XcodePrinting.StringListIsJoined | Source/cmXCodeObject.cxx:197-209 | a list of strings prints its values joined by commas: none after the last, and no separator |
| XcodePrinting.GroupStringEntry | Source/cmXCodeObject.cxx:221-223 | a STRING entry of a group is written after the entries before it, one level deeper, as its quoted name and value |
| XcodePrinting.GroupStringListEntry | Source/cmXCodeObject.cxx:193-213 | a list of strings inside a group stays on the entry's line: "name = (", the values joined by commas, ");" |
| XcodePrinting.OnlyObjects | Source/cmXCodeObject.cxx:256-260 | the OBJECT entries of a sequence, all of kind OBJECT and all drawn from it |
| XcodePrinting.OnlyObjectsPrintable | Source/cmXCodeObject.cxx:256-260 | those entries are all printable when the sequence is |
| XcodePrinting.ObjectListSkipsOthers | Source/cmXCodeObject.cxx:256-260 | the section loop writes the same text for a sequence and for its OBJECT entries alone |
| XcodePrinting.ObjectListKeepsOnlyObjects | Source/cmXCodeObject.cxx:251-263 | the objects section of a sequence equals that of its OBJECT entries, in order |
| XcodePrinting.ExpandedLayout | Source/cmXCodeObject.cxx:154-182 | the expanded layout: Id line, isa line at three tabs, attributes, closing brace at two tabs |
| XcodePrinting.CompactLayout | Source/cmXCodeObject.cxx:154-182 | the compact layout: one line after the two leading tabs, a space after each attribute, no inner indent |
| XcodePrinting.GroupBlock | Source/cmXCodeObject.cxx:154-182 | a PBXGroup named foo prints its Id, the line "isa = PBXGroup;", the line "name = foo;" and the closing brace |
| XcodePrinting.GroupNameLine | Source/cmXCodeObject.cxx:172-179 | that group's attributes print as the single name line at three tabs |
| XcodePrinting.TwoStringList | Source/cmXCodeObject.cxx:192-214 | the strings foo and bar print as "files = (", a newline, "foo,bar", then the closing parenthesis at the attribute's indent |
| XcodePrinting.TwoStringListInGroup | Source/cmXCodeObject.cxx:192-214 | inside a group the same list stays on one line: "files = (foo,bar);" |
| XcodePrinting.TwoObjectList | Source/cmXCodeObject.cxx:192-214 | two non-string nodes print one per line, one level deeper, each Id and comment followed by a comma and the separator |
| XcodePrinting.RemoteIdIgnoresComment | Source/cmXCodeObject.cxx:229-236 | for remoteGlobalIDString the text depends on the target's Id only, never on its comment |
| XcodePrinting.RefShowsComment | Source/cmXCodeObject.cxx:229-236 | for any name other than remoteGlobalIDString: the quoted name, " = ", the target's Id, its comment, ";" and the separator |
| XcodePrinting.CompactFileReference | Source/cmXCodeObject.cxx:154-182 | a file reference in a version above 15 prints on one line: "isa = PBXFileReference; path = foo.c; };" after its Id |
| XcodePrinting.FileReferencePathLine | Source/cmXCodeObject.cxx:172-179 | that file reference's attributes print as "path = foo.c; " with no indent |

## Left out

- Locking: the mutex around the registry is not modelled. The model is single-threaded.
- SHA-256: not modelled. The digest is a function given to the registry's constructor.
- PrintComment and HasComment: their declarations are not part of this model.
  - The comment is a string field, with "" meaning none.
  - It is written verbatim after an identifier.
- AddAttribute and the attribute container: their declarations are not part of this model.
  - Attributes are a sequence of (name, value) pairs in container order.
  - Names are unique, which `Valid` states.
- The target pointer: it is not modelled beyond the constructor clearing it. The model has no Target field.
- The destructor: it only resets the version of a dying node, which has no observable effect.
- Short cycles back to an owner: `XcodeObjects.XcodeObject.Valid` excludes an object that is reached again from one of its attribute values. The path must run along nested attribute values (groups inside groups), and its last step may be a list element or a reference target.
  - Examples are an object whose reference attribute targets itself, a list attribute that contains its owner, and a group entry whose reference targets the object holding the group.
  - The source loops forever only when the path is made entirely of attribute groups (Source/cmXCodeObject.cxx:221-223).
  - On the other excluded graphs the source just writes the element's or target's Id and comment (lines 204-207 and 231-234). `Print`, `PrintAttribute` and `PrintList`, and the text functions behind them, do not cover those graphs.
  - Longer cycles that pass through a reference or a list element and then continue through that node's own attributes are allowed by `Valid` and printed by the model. An example is a target that lists a dependency whose reference points back to the target.
- Null pointers: `Printable` and `PrintableAsObject` require the values PrintAttribute dereferences to be present. The source would crash on a null one.
- XcodeObjects.XcodeObject.Indent: requires a non-negative level. The source's countdown loop would run through the whole integer range for a negative one, and no caller passes one.
- XcodeObjects.XcodeObject.PrintAttribute: the level and the factor are non-negative naturals rather than C++ `int`s. Every caller passes non-negative values, and products stay far below `int` overflow in any real file.
- XcodeIds.SequenceIdsIncrease: requires that the counter did not wrap around 2^64 between the two identifiers. The wrap itself is modelled in `NextSequenceIndex`.
- XcodeIds.IdRegistry.UniqueXcodeId: keeps the cache consistent only for hyphen-free prefixes. The source's only caller passes "02".
- Digest collisions: not checked, as in the source.
- Characters: C++ strings are bytes and are modelled as characters. Escaping works character by character either way.
- Stream failures: output errors are not modelled.
- XcodePrinting.GroupBlock, XcodePrinting.CompactFileReference, XcodePrinting.TwoStringList, XcodePrinting.TwoStringListInGroup, XcodePrinting.TwoObjectList: each is stated for fixed example values (the names foo, bar, foo.c, files, buildPhases). They are not stated for arbitrary text. The general statements are the layout and append lemmas.
