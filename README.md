# KeyBindingsManualFormatter, modelled in Dafny

Workspace Mechanic's keyboard-binding formatter turns the key bindings a user
made in Eclipse into a hand-readable `.kbd` audit file. It has two steps:

1. `transform` turns a multimap from qualifier (scheme, optional platform,
   context) to captured Eclipse bindings into a map from qualifier to an ADD
   change-set. A binding without a command is a removal, which is not
   supported: it throws `UnsupportedOperationException`.
2. `getBindingsPrintout` renders such a map with a `StringBuilder` as a
   JSON-shaped, single-quoted document with a fixed layout:
   - a metadata header;
   - one block per qualifier;
   - one line per binding;
   - `commandParameters` only for bindings that have parameters, each key
     and value passed through `URLEncoder` with US-ASCII.

   `dumpBindingsToFile` writes the user printout, and the system printout
   first when the debug switch is on, to `CURRENT-<type>.kbd`.

The model is organised as follows:

- `wrappers.dfy`: `Option` for Java's nullable references and `Result`
  for thrown exceptions.
- `model.dfy` (`KbaModel`): qualifiers, bindings, change-sets and the
  parser's field names. Maps are entry lists in iteration order; a hash map
  is a Dafny `map`, and `Enumerates` relates it to an entry list.
- `format_helpers.dfy` (`FormatHelpers`): `i` as a method with its
  counting loop, specified by `Indent`, and `quote`/`kd`/`kv`/`kvn`/`kvcs`/`kvcn`.
- `url_encoding.dfy` (`UrlEncoding`): `urlEncoded`, its alphabet and its
  inverse `UrlDecode`.
- `printout.dfy` (`Printout`):
  - `formatKbaBinding`, `formatCommand` and `formatParameters` as functions;
  - the document as a list of lines (`DocLines`) joined by newlines
    (`Document`);
  - `getBindingsPrintout` as a method that appends to one string, proved to
    build exactly `Document`.
- `printout_properties.dfy` (`PrintoutProperties`): the layout facts:
  - the frame;
  - the block shape and line positions;
  - the platform line iff a platform is set;
  - one block opened and closed per entry.
- `reader.dfy` (`PrintoutReader`): a reader for binding lines and
  parameter texts. Round-trip lemmas show that the printout keeps every
  parameter, with non-ASCII characters read back as '?', and every key
  sequence and command id that holds no single quote.
- `lines.dfy` (`DocumentLines`): splitting the document at its newlines
  gives back its line list.
- `transform.dfy` (`Transform`): `transform` as a loop of puts into a
  map, proved equal to the specification `Transformed`, and `transform`'s
  guarantees.
- `dump.dfy` (`Dump`): the formatter's state, the constructor from
  multimaps, the dump order and the file names.

Inside a change-set block, the opening brace and the
`scheme`/`platform`/`context`/`action`/`bindings` lines are all written at
indentation `i(2)` (lines 172-182). The binding lines and the closing `]`
are written at `i(3)` (lines 189 and 200).

## Model

| member | source | states |
|---|---|---|
| FormatHelpers.Indent | plugins/com.google.eclipse.mechanic/src/com/google/eclipse/mechanic/core/keybinding/KeyBindingsManualFormatter.java:246-252 | n levels of indentation are 2n characters |
| FormatHelpers.I | plugins/com.google.eclipse.mechanic/src/com/google/eclipse/mechanic/core/keybinding/KeyBindingsManualFormatter.java:246-252 | the counting loop yields n levels of indentation, and the empty string for n <= 0 |
| FormatHelpers.IndentIsSpaces | plugins/com.google.eclipse.mechanic/src/com/google/eclipse/mechanic/core/keybinding/KeyBindingsManualFormatter.java:246-252 | indentation is spaces only |
| FormatHelpers.QuoteShape | plugins/com.google.eclipse.mechanic/src/com/google/eclipse/mechanic/core/keybinding/KeyBindingsManualFormatter.java:274-276 | the quoted string is the string, unchanged and unescaped, between two single quotes |
| FormatHelpers.PairShapes | plugins/com.google.eclipse.mechanic/src/com/google/eclipse/mechanic/core/keybinding/KeyBindingsManualFormatter.java:254-272 | kv is kd with a quoted value; kvn, kvcs and kvcn are kv followed by a newline, ", " and ",\n"; kv adds 7 characters |
| UrlEncoding.Hex | plugins/com.google.eclipse.mechanic/src/com/google/eclipse/mechanic/core/keybinding/KeyBindingsManualFormatter.java:236-242 | a hex digit is an upper-case hex digit 0-9 or A-F whose value is n |
| UrlEncoding.UrlEncodeAlphabet | plugins/com.google.eclipse.mechanic/src/com/google/eclipse/mechanic/core/keybinding/KeyBindingsManualFormatter.java:236-242 | the encoding holds only letters, digits and . - * _ + % |
| UrlEncoding.EncodedHasNoQuote | plugins/com.google.eclipse.mechanic/src/com/google/eclipse/mechanic/core/keybinding/KeyBindingsManualFormatter.java:236-242 | the encoding never holds a single quote, so it cannot end a quoted literal |
| UrlEncoding.DecodeEncodedChar | plugins/com.google.eclipse.mechanic/src/com/google/eclipse/mechanic/core/keybinding/KeyBindingsManualFormatter.java:236-242 | each encoded character decodes to itself, or to '?' outside US-ASCII |
| UrlEncoding.DecodeEncode | plugins/com.google.eclipse.mechanic/src/com/google/eclipse/mechanic/core/keybinding/KeyBindingsManualFormatter.java:236-242 | decoding the encoding gives the input with non-ASCII characters as '?' |
| UrlEncoding.DecodeEncodeAscii | plugins/com.google.eclipse.mechanic/src/com/google/eclipse/mechanic/core/keybinding/KeyBindingsManualFormatter.java:236-242 | for ASCII input the encoding is lossless |
| Printout.AppendBindings | plugins/com.google.eclipse.mechanic/src/com/google/eclipse/mechanic/core/keybinding/KeyBindingsManualFormatter.java:183-188 | the inner loop appends formatKbaBinding for every binding in binding-list order |
| Printout.GetBindingsPrintout | plugins/com.google.eclipse.mechanic/src/com/google/eclipse/mechanic/core/keybinding/KeyBindingsManualFormatter.java:162-195 | the builder's text is exactly the document: the header lines, one block per entry in iteration order, and the footer lines, joined by newlines |
| Printout.HeaderTextLines | plugins/com.google.eclipse.mechanic/src/com/google/eclipse/mechanic/core/keybinding/KeyBindingsManualFormatter.java:163-169 | the header appends are the six header lines, each ended by a newline |
| Printout.BlockHeadTextLines | plugins/com.google.eclipse.mechanic/src/com/google/eclipse/mechanic/core/keybinding/KeyBindingsManualFormatter.java:171-182 | the block-head appends are the block's head lines, with the platform line only when a platform is set |
| Printout.BindingsTextLines | plugins/com.google.eclipse.mechanic/src/com/google/eclipse/mechanic/core/keybinding/KeyBindingsManualFormatter.java:183-188 | the binding appends are one line per binding, each ended by a newline |
| Printout.BlockTextLines | plugins/com.google.eclipse.mechanic/src/com/google/eclipse/mechanic/core/keybinding/KeyBindingsManualFormatter.java:170-191 | one iteration of the outer loop appends exactly one block's lines |
| Printout.BlocksTextLines | plugins/com.google.eclipse.mechanic/src/com/google/eclipse/mechanic/core/keybinding/KeyBindingsManualFormatter.java:170-191 | the outer loop appends the blocks of all entries, in order |
| Printout.BuiltTextIsPrintout | plugins/com.google.eclipse.mechanic/src/com/google/eclipse/mechanic/core/keybinding/KeyBindingsManualFormatter.java:162-195 | the appended text is the line list joined by newlines, with no newline after the closing brace |
| PrintoutProperties.PrintoutFrame | plugins/com.google.eclipse.mechanic/src/com/google/eclipse/mechanic/core/keybinding/KeyBindingsManualFormatter.java:163-194 | the document is the header, then the blocks, then "  ]\n}" |
| PrintoutProperties.BlocksLinesAppend | plugins/com.google.eclipse.mechanic/src/com/google/eclipse/mechanic/core/keybinding/KeyBindingsManualFormatter.java:170-191 | the blocks of two maps, one after the other, are the blocks of their concatenation |
| PrintoutProperties.BlocksLinesSingle | plugins/com.google.eclipse.mechanic/src/com/google/eclipse/mechanic/core/keybinding/KeyBindingsManualFormatter.java:170-191 | a one-entry map renders as exactly the block of its entry |
| PrintoutProperties.BlockHeadLayout | plugins/com.google.eclipse.mechanic/src/com/google/eclipse/mechanic/core/keybinding/KeyBindingsManualFormatter.java:172-182 | a block opens with "    {", then scheme, platform (if any), context, "    'action' : 'add'," and "    'bindings' : [", in that order |
| PrintoutProperties.BlockLayout | plugins/com.google.eclipse.mechanic/src/com/google/eclipse/mechanic/core/keybinding/KeyBindingsManualFormatter.java:170-190 | a block has 7 + k + n lines: its head, its n binding lines in order, then "      ]" and "    }," |
| PrintoutProperties.PlatformLineIff | plugins/com.google.eclipse.mechanic/src/com/google/eclipse/mechanic/core/keybinding/KeyBindingsManualFormatter.java:175-178 | a platform line for p is in the block iff the qualifier's platform is p |
| PrintoutProperties.FieldLineChars | plugins/com.google.eclipse.mechanic/src/com/google/eclipse/mechanic/core/keybinding/KeyBindingsManualFormatter.java:173-181 | a field line is indentation 2 and the quoted key: length and first characters |
| PrintoutProperties.FieldLineValue | plugins/com.google.eclipse.mechanic/src/com/google/eclipse/mechanic/core/keybinding/KeyBindingsManualFormatter.java:173-181 | the field's value can be read back from its line |
| PrintoutProperties.BindingLinesAt | plugins/com.google.eclipse.mechanic/src/com/google/eclipse/mechanic/core/keybinding/KeyBindingsManualFormatter.java:183-184 | there is one binding line per binding, and the i-th line is the i-th binding's |
| PrintoutProperties.BlockCounts | plugins/com.google.eclipse.mechanic/src/com/google/eclipse/mechanic/core/keybinding/KeyBindingsManualFormatter.java:172-190 | a block opens and closes exactly once |
| PrintoutProperties.DocumentBlockCount | plugins/com.google.eclipse.mechanic/src/com/google/eclipse/mechanic/core/keybinding/KeyBindingsManualFormatter.java:170-191 | the document has exactly one "    {" line and one "    }," line per map entry |
| PrintoutProperties.CommandParametersIff | plugins/com.google.eclipse.mechanic/src/com/google/eclipse/mechanic/core/keybinding/KeyBindingsManualFormatter.java:208-218 | the command part is just the command pair iff the parameter map is empty, and is longer otherwise |
| PrintoutProperties.BindingLineShape | plugins/com.google.eclipse.mechanic/src/com/google/eclipse/mechanic/core/keybinding/KeyBindingsManualFormatter.java:197-206 | a binding line opens with "      {" and ends with the trailing "}," |
| PrintoutReader.ReadQuotedOf | plugins/com.google.eclipse.mechanic/src/com/google/eclipse/mechanic/core/keybinding/KeyBindingsManualFormatter.java:274-276 | a quoted string without quotes is read back |
| PrintoutReader.ReadPairOf | plugins/com.google.eclipse.mechanic/src/com/google/eclipse/mechanic/core/keybinding/KeyBindingsManualFormatter.java:262-264 | a kv pair of quote-free strings is read back |
| PrintoutReader.EncodePairsQuoteFree | plugins/com.google.eclipse.mechanic/src/com/google/eclipse/mechanic/core/keybinding/KeyBindingsManualFormatter.java:224-229 | the encoded entries hold no quote |
| PrintoutReader.DecodeEncodePairs | plugins/com.google.eclipse.mechanic/src/com/google/eclipse/mechanic/core/keybinding/KeyBindingsManualFormatter.java:224-229 | decoding the encoded entries gives the entries with non-ASCII characters as '?' |
| PrintoutReader.ReadEntriesOf | plugins/com.google.eclipse.mechanic/src/com/google/eclipse/mechanic/core/keybinding/KeyBindingsManualFormatter.java:229-230 | the ", "-joined kv entries are read back entry by entry, in key-set order |
| PrintoutReader.FormatParametersRoundTrip | plugins/com.google.eclipse.mechanic/src/com/google/eclipse/mechanic/core/keybinding/KeyBindingsManualFormatter.java:220-234 | reading the parameters text gives back every entry in order, with non-ASCII characters as '?'; the empty map is "{}" |
| PrintoutReader.FormatParametersRoundTripAscii | plugins/com.google.eclipse.mechanic/src/com/google/eclipse/mechanic/core/keybinding/KeyBindingsManualFormatter.java:220-234 | for ASCII keys and values the parameters text gives back the map exactly |
| PrintoutReader.ReadParametersSectionOf | plugins/com.google.eclipse.mechanic/src/com/google/eclipse/mechanic/core/keybinding/KeyBindingsManualFormatter.java:213-216 | the ", 'commandParameters' : {...}" section is read back as the map |
| PrintoutReader.ReadCommandOf | plugins/com.google.eclipse.mechanic/src/com/google/eclipse/mechanic/core/keybinding/KeyBindingsManualFormatter.java:208-218 | the command part gives back the command id, followed by nothing for an empty map and by the parameters section otherwise |
| PrintoutReader.BindingLineRoundTrip | plugins/com.google.eclipse.mechanic/src/com/google/eclipse/mechanic/core/keybinding/KeyBindingsManualFormatter.java:197-218 | a binding line gives back its key sequence, command id and parameters, when the key sequence and id hold no quote |
| DocumentLines.SplitJoin | plugins/com.google.eclipse.mechanic/src/com/google/eclipse/mechanic/core/keybinding/KeyBindingsManualFormatter.java:162-195 | splitting at newlines undoes joining single lines with newlines |
| DocumentLines.FormatParametersOneLine | plugins/com.google.eclipse.mechanic/src/com/google/eclipse/mechanic/core/keybinding/KeyBindingsManualFormatter.java:220-234 | the parameters text holds no newline |
| DocumentLines.BindingLineOneLine | plugins/com.google.eclipse.mechanic/src/com/google/eclipse/mechanic/core/keybinding/KeyBindingsManualFormatter.java:197-206 | a binding renders as one line when its key sequence and id hold no newline |
| DocumentLines.DocumentSplitsIntoLines | plugins/com.google.eclipse.mechanic/src/com/google/eclipse/mechanic/core/keybinding/KeyBindingsManualFormatter.java:162-195 | split at its newlines, the document is exactly its line list, so each binding is one line |
| Transform.ParamMap | plugins/com.google.eclipse.mechanic/src/com/google/eclipse/mechanic/core/keybinding/KeyBindingsManualFormatter.java:111-121 | a null parameter map becomes the empty map; otherwise the map is kept |
| Transform.ToKbaBinding | plugins/com.google.eclipse.mechanic/src/com/google/eclipse/mechanic/core/keybinding/KeyBindingsManualFormatter.java:95-107 | a binding fails iff it has no command; otherwise it keeps the trigger sequence, command id and parameter map |
| Transform.ToKbaBindingsSpec | plugins/com.google.eclipse.mechanic/src/com/google/eclipse/mechanic/core/keybinding/KeyBindingsManualFormatter.java:94-120 | the collection maps iff every binding has a command; the bindings keep their count and order |
| Transform.TransformBindings | plugins/com.google.eclipse.mechanic/src/com/google/eclipse/mechanic/core/keybinding/KeyBindingsManualFormatter.java:90-133 | the loop of puts over the key set yields exactly the specified result: an error if any binding fails, else one change-set per key |
| Transform.TransformFailsIff | plugins/com.google.eclipse.mechanic/src/com/google/eclipse/mechanic/core/keybinding/KeyBindingsManualFormatter.java:95-101 | transform fails iff some captured binding has no command |
| Transform.TransformedChangeSets | plugins/com.google.eclipse.mechanic/src/com/google/eclipse/mechanic/core/keybinding/KeyBindingsManualFormatter.java:119-130 | each change-set copies its qualifier's scheme, platform and context, has action ADD, and holds the captured bindings in count and order, with trigger sequence, id and parameters (empty for a null map) |
| Transform.TransformedKeys | plugins/com.google.eclipse.mechanic/src/com/google/eclipse/mechanic/core/keybinding/KeyBindingsManualFormatter.java:91-131 | the result's key set is the input's |
| Dump.FileName | plugins/com.google.eclipse.mechanic/src/com/google/eclipse/mechanic/core/keybinding/KeyBindingsManualFormatter.java:152 | the file name is "CURRENT-", the type's name, then ".kbd" |
| Dump.FileNameInjective | plugins/com.google.eclipse.mechanic/src/com/google/eclipse/mechanic/core/keybinding/KeyBindingsManualFormatter.java:152 | the two binding types are written to different files |
| Dump.DebugFlagIff | plugins/com.google.eclipse.mechanic/src/com/google/eclipse/mechanic/core/keybinding/KeyBindingsManualFormatter.java:62 | the debug switch is on iff the property is exactly "true" |
| Dump.NewFormatter | plugins/com.google.eclipse.mechanic/src/com/google/eclipse/mechanic/core/keybinding/KeyBindingsManualFormatter.java:58-67 | the constructor transforms both multimaps; it fails iff either transform fails |
| Dump.DumpOrderSpec | plugins/com.google.eclipse.mechanic/src/com/google/eclipse/mechanic/core/keybinding/KeyBindingsManualFormatter.java:141-146 | user bindings are always dumped, and last; system bindings are dumped first, and only with the debug switch; file names do not repeat |
| Dump.DumpedFiles | plugins/com.google.eclipse.mechanic/src/com/google/eclipse/mechanic/core/keybinding/KeyBindingsManualFormatter.java:141-146 | the dumped files are exactly one per type in dump order |
| Dump.DumpBindingsToFile | plugins/com.google.eclipse.mechanic/src/com/google/eclipse/mechanic/core/keybinding/KeyBindingsManualFormatter.java:141-153 | each dumped file is named for its type and holds the printout of that type's map |
| Dump.TransformedDocumentBlocks | plugins/com.google.eclipse.mechanic/src/com/google/eclipse/mechanic/core/keybinding/KeyBindingsManualFormatter.java:170-191 | the printout of a transformed capture has one block per captured qualifier, whatever the hash map's order |

## Left out

- File output, `tempDir()`, `deleteOnExit` and `MechanicLog` logging (lines 69-75 and 149-159) are I/O. A dump is modelled as the list of (file name, contents) pairs it would write. The catch-and-log of a failed write is not modelled.
- Reading the system property (line 62) is process environment. Its value is a parameter of `DebugFlag`.
- The Eclipse types `Binding`, `ParameterizedCommand` and `TriggerSequence.format()` are not part of this model. A captured binding is its formatted trigger sequence and an optional command with an optional parameter map.
- The raw `Map` cast in paramMap (line 119) is taken to succeed: parameter maps are string-to-string.
- The iteration orders of `HashMap`, `Multimap.keySet()` and the parameter maps are not modelled. A map that is printed is given as an entry list in its iteration order.
- Transform.TransformBindings: `Iterables.transform` is lazy. The model applies the per-binding function eagerly, inside transform, so the exception is raised there. KbaBindingList is not part of this model.
- UrlEncoding.UrlEncode: strings are sequences of Unicode scalar values, not UTF-16 code units. A character outside US-ASCII, including one Java holds as a surrogate pair, is encoded as the charset's replacement '?', that is "%3F". An unpaired surrogate cannot be written down in the model. `UnsupportedEncodingException` cannot occur for US-ASCII and is not modelled.
- PrintoutReader.BindingLineRoundTrip: key sequences and command ids are quoted without escaping. The round trip is stated only for those that hold no single quote.
- DocumentLines.DocumentSplitsIntoLines: stated only when no scheme, platform, context, key sequence or command id holds a newline. The formatter writes such strings unchanged.
- The `bindingType` parameter of getBindingsPrintout and the `remove` local of formatKbaBinding (line 198) are unused by the source. They are not modelled.
- Java's `int` in `i(int)` is unbounded in the model. The formatter only calls it with 1, 2 and 3.
