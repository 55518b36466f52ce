# A verified model of the marble game's loaders, vector algebra and physics

This project models, in Dafny, the core of a browser marble game written in
TypeScript. The core has four parts:

- the reader of Torque `.dif` interior files;
- the vector and quaternion algebra;
- the marble's physics step with its collision responses;
- the distance-function combinators, the keyboard controllers and the
  mission-file brace nesting.

Each module follows one source file:

| module | file | what it holds |
|---|---|---|
| `Wrappers` | (shared) | `Option`, `Result`, and the JavaScript failures (`RangeError`, `TypeError`, stack overflow) a computation can stop with |
| `JsText` | (shared) | the JavaScript string and number conversions the loader relies on: `\s`, `substring`, `split`, `match(/[^c]+/g)`, unary `+` on a string |
| `DifValues` | app/difLoader.ts | bytes, little- and big-endian decoding, IEEE float bit patterns, the values a parse produces, struct definitions |
| `DifRead` | app/difLoader.ts | the reference reading of a buffer: every `Dat` read at a cursor, `bytes_match`, the PNG chunk walk, the `readStruct` interpreter |
| `DifCompile` | app/difLoader.ts | `structFromString`, `structDependencies` / `listNeededStructDefs`, and the block-stack compiler of `defStructsFromSpec` |
| `DifLoader` | app/difLoader.ts | the `Dat` class with its cursor field `i`; every method is proved to compute what `DifRead` or `DifCompile` says |
| `DifParser` | app/difParser.ts | the fixed-layout records (`Point3F`, `BoxF`, `SphereF`, `PlaneF`, `TexGenEq`), `Interior.load`, `InteriorResource.load` and the `inverted` caches |
| `DifFinalizers` | app/difFinalizers.ts | the finalizers `readStruct` applies by type name, the `Interior` constructor (plane table, poly-list walk, hull planes), `getPlane`, `Dif` |
| `Vectors` | app/3dTypes.ts | `Point` and `Quaternion`: pure operations on the values `Vec3` and `Quat`, and the in-place `…Eq` operations as methods of classes |
| `Physics` | app/physics.ts | the basic, moving and material collision responses, and `get` |
| `Marble` | app/marble.ts | the marble: its fixed `1/256` step, the collision loop and the time-debt loop of `physics` |
| `DistanceFunctions` | app/distanceFunctions.ts | `clamp`, `minMag`, `maxMag`, `df_empty`, `df_invert`, `df_union` and `df_transform` |
| `Controls` | app/controlers.ts | `peg`, the free camera's key flags, speed presets and mouse toggle, and the marble camera's controls with their one-shot rule |
| `MissionLoader` | app/mbgloader.ts | `parseBool` and the loop of `MisLoader.finish` that nests the text's pieces into a tree |

Where the source changes state in place, the model does too. The `Dat`
cursor, `Point`, `Quaternion`, the `Marble` and the two cameras are classes
whose methods change their fields. The counted loops, the block stack of
`defStructsFromSpec` and the brace stack of `finish` are `while` and `for`
loops with invariants. Every such method is proved equal to a function that
states its result or its new state, and the properties are then proved about
those functions.

A JavaScript failure is part of a result:

- a read past the end of the buffer is a `RangeError`;
- a member read on `undefined` or `null` is a `TypeError`.

The error is modelled as the outcome of the call, not excluded by a
precondition.

Numbers follow the source's types:

- integers read from the file are exact, with their width and sign made
  explicit;
- floats read from the file are kept as their IEEE bit patterns, so
  negation and truthiness are exact;
- the vector algebra works over `real`.

## Model

| member | source | states |
|---|---|---|
| JsText.Indent | app/difLoader.ts:230 | the indent of a spec line is the index of its first non-space character (the length for a blank line): every character before it is white space and the one at it is not |
| JsText.Substring | app/difLoader.ts:229 | `substring` never yields more than the string, and for in-range ordered bounds it is exactly the slice between them |
| JsText.Runs | app/difLoader.ts:195-198 | `match(/[^c]+/g)` yields only non-empty pieces, none of which contains the excluded character |
| JsText.RunsCoverText | app/difLoader.ts:195-198 | the pieces of `match(/[^c]+/g)` concatenated are the text with every excluded character removed: no other character is lost, added or reordered |
| JsText.FindFrom | app/difLoader.ts:250 | the search for `==` finds the first occurrence: the result is an occurrence and no earlier position is one, and no result means no occurrence at all |
| JsText.Split | app/difLoader.ts:268 | `split(/ to /)` always returns at least one piece |
| JsText.JoinSplit | app/difLoader.ts:268-280 | splitting on a literal separator loses nothing: the pieces joined with the separator give the line back |
| JsText.SplitPiecesAreFree | app/difLoader.ts:268-280 | no piece of a split contains the separator |
| JsText.Minus | app/difLoader.ts:274-276 | the count `g[tvar] - sval` of a `for a to numX` block is NaN exactly when either operand is NaN |
| JsText.Iterations | app/difLoader.ts:145 | a counted loop `for (i = 0; i < n; i++)` runs `n` times for a positive whole `n` and not at all for NaN or a count at most 0 |
| JsText.NaturalText | app/difLoader.ts:272 | the decimal numeral of a natural number is a non-empty string of digits |
| JsText.NumberOfNaturalText | app/difLoader.ts:272 | reading a decimal numeral with unary `+` gives back the number it was written from |
| DifValues.Unsigned | app/difLoader.ts:22-33 | an unsigned read of `N/8` bytes is below `256^(N/8)` |
| DifValues.UnsignedIsLittleEndian | app/difLoader.ts:22-33 | the big-endian reading of bytes is the little-endian reading of the same bytes reversed |
| DifValues.EncodeLittleEndian | app/difLoader.ts:22-33 | the encoding of a number below `256^w` has exactly `w` bytes |
| DifValues.DecodeEncode | app/difLoader.ts:22-33 | reading the bytes a number is encoded to gives the number back |
| DifValues.EncodeDecode | app/difLoader.ts:22-33 | encoding the number a byte string reads as gives the same bytes back, so bytes and number determine each other |
| DifValues.Signed | app/difLoader.ts:34-45 | a signed read lies in the two's-complement range of its width, is non-negative exactly when the unsigned reading is below half the range, and is the unsigned reading or that minus `256^w` |
| DifValues.Negate | app/difFinalizers.ts:198 | IEEE negation of a float keeps its width and magnitude and flips only its sign |
| DifValues.NegateIsInvolution | app/difFinalizers.ts:198 | negating a float twice gives the same bits |
| DifValues.NegateKeepsTruthiness | app/difParser.ts:156-162 | `-x` is truthy exactly when `x` is, and is NaN exactly when `x` is |
| DifValues.RefIndex | app/difFinalizers.ts:324-329 | `i & 0x7fff` is below `0x8000` |
| DifValues.PlaneRef | app/difFinalizers.ts:324-329 | a plane reference (index plus inversion bit) fits a u16 |
| DifValues.PlaneRefRoundTrip | app/difFinalizers.ts:324-329 | decoding a reference built from a plane index and a flag gives back that index (`& 0x7fff`) and that flag (`& 0x8000`) |
| DifValues.PlaneRefDecodes | app/difFinalizers.ts:324-329 | every u16 is the reference built from the index and the flag it decodes to |
| DifValues.Put | app/difLoader.ts:179 | after `r[s.key] = tmp` the key holds the stored value |
| DifValues.GetOtherAfterPut | app/difLoader.ts:179 | storing one key of a record leaves every other key's value unchanged |
| DifValues.KeysAfterPut | app/difLoader.ts:179 | storing keeps the key order: an existing key keeps its place and a new key is added last |
| DifRead.UnsignedAt | app/difLoader.ts:22-33 | an unsigned read succeeds exactly when all its bytes are inside the buffer (otherwise RangeError), and its value fits the width |
| DifRead.ByteAt | app/difLoader.ts:30-33 | a one-byte read gives the byte itself, in either byte order |
| DifRead.SignedAt | app/difLoader.ts:34-45 | a signed read succeeds exactly when its bytes are inside the buffer, and its value is in the two's-complement range |
| DifRead.FloatAt | app/difLoader.ts:46-53 | a float read succeeds exactly when its 4 or 8 bytes are inside the buffer, and has the width asked for |
| DifRead.FixedAt | app/difLoader.ts:54-77 | a primitive read succeeds exactly when it is `null` or its bytes are inside the buffer |
| DifRead.MatchAtTrue | app/difLoader.ts:329-335 | `bytes_match` is true exactly when every byte read equals the expected one, and the cursor then moves by the expected length |
| DifRead.MatchAtFalse | app/difLoader.ts:329-335 | when `bytes_match` is false the cursor stops one byte past the first mismatch (the `&&` short-circuit skips the later reads) |
| DifRead.Latin1 | app/difLoader.ts:359-360 | the chunk type string has one character per byte, each with the byte's code |
| DifRead.ChunkAt | app/difLoader.ts:356-364 | a chunk read without error has four type bytes, its data starts 8 bytes after the chunk, and the whole chunk (12 bytes plus its data) lies in the buffer |
| DifRead.ChunksFrom | app/difLoader.ts:339-348 | `PNG.load` stops at the first IEND chunk: the last chunk is typed IEND, none before it is, and the cursor ends just after it |
| DifRead.ChunksAreContiguous | app/difLoader.ts:339-364 | the chunks lie back to back: each one's data starts 8 bytes after the end of the previous chunk |
| DifRead.FieldAt | app/difLoader.ts:167-179 | a field with a `globalName` leaves in the name space the very value it stores in the record |
| DifRead.ArrayAt | app/difLoader.ts:143-155 | a counted array holds exactly `n` elements and keeps the ones read before |
| DifRead.StructsAt | app/difLoader.ts:184-190 | `readStructs(struct, n)` gives `n` records and keeps the ones read before |
| DifReadFacts.CountPriority | app/difLoader.ts:122-140 | the count comes from the first of `count`, `rcount`, `ncount`, `countf` that is present; the later ones are ignored |
| DifReadFacts.GcountIsIgnored | app/difLoader.ts:122-140 | `gcount` plays no part: a field with only `gcount` is read as one element, finalized and stored |
| DifReadFacts.CountedFieldValue | app/difLoader.ts:143-174 | an array field holds as many elements as its count's loop runs, and the type's finalizer is applied once, to the whole array |
| DifReadFacts.RawKeepsRecord | app/difLoader.ts:156-166 | reading a field's raw value into a fresh record leaves the enclosing record unchanged |
| DifReadFacts.FieldsKeepDefinitionOrder | app/difLoader.ts:117-181 | the record's keys after the remaining fields are read are the earlier keys followed by the fields' keys in definition order, a repeated key keeping its first place |
| DifReadFacts.RecordKeysInDefinitionOrder | app/difLoader.ts:110-183 | `readStruct(def)` into a fresh record produces the definition's keys in definition order |
| DifReadFacts.FixedSizeAdvances | app/difLoader.ts:110-183 | a definition made only of fixed-width primitives moves the cursor by exactly its size, and reads without error when that many bytes are there and no finalizer applies |
| DifCompile.FieldOfWords | app/difLoader.ts:198-203 | a segment of two words is `{ value, key }` with no count; any other number of words gives `{ count, value, key }` from the first three; no other member is set |
| DifCompile.InlineIsSmaller | app/difLoader.ts:93-108 | an inline definition nested in a field is strictly smaller than the definition holding it, so the recursion of `structDependencies` ends |
| DifCompile.DependenciesError | app/difLoader.ts:93-108 | every failure of `structDependencies` is the same TypeError, reading `push` of an undefined value |
| DifCompile.FieldDependenciesError | app/difLoader.ts:95-105 | a single field's dependencies fail only with that TypeError |
| DifCompile.DependenciesOfFlatten | app/difLoader.ts:93-108 | `structDependencies` fails exactly when some field, inline definitions searched, has no value; otherwise a name is a dependency exactly when it is some such field's type name or the count name of a field with a type name |
| DifCompile.FieldDependenciesOfFlatten | app/difLoader.ts:95-105 | the same characterisation for one field and the fields nested in it |
| DifCompile.AddToTop | app/difLoader.ts:293-301 | pushing a field onto the innermost block adds it at the end of that block's definition and changes no other block, kind or indent |
| DifCompile.Close | app/difLoader.ts:233-240 | closing a type block registers its definition under its name and leaves the stack below as it was; closing a count block appends a `countf` field keyed by its count name to the enclosing block and leaves `structs` unchanged |
| DifCompile.CloseKeepsShape | app/difLoader.ts:233-240 | closing a block keeps the stack below well formed, keeps every registered type, and keeps every remaining block's kind and indent |
| DifCompile.PopWhile | app/difLoader.ts:232-241 | the `while` at the head of a line leaves a well-formed stack whose innermost block is indented less than the line, and unregisters nothing |
| DifCompile.PopWhileCloses | app/difLoader.ts:232-241 | the blocks the `while` closes are exactly blocks indented at least as far as the line |
| DifCompile.PopWhileRegisters | app/difLoader.ts:232-241 | every type block the `while` closes is registered in `structs` |
| DifCompile.PopWhileKeeps | app/difLoader.ts:232-241 | the blocks left open keep their kinds and indents |
| DifCompile.CloseAll | app/difLoader.ts:306-315 | the final `while` registers `"file"` with a definition beginning with the root's fields, registers every type block still open, and unregisters nothing |
| DifCompile.Push | app/difLoader.ts:243-303 | a member line adds its field to the innermost block; an `if`, `for` or type line opens one block at the line's indent with an empty definition and the count or type name of the line; the stack stays well formed |
| DifCompile.CompileFrom | app/difLoader.ts:227-316 | compiling the remaining lines unregisters nothing, and `"file"` is registered when no exception stopped it |
| DifCompile.CompileFromStep | app/difLoader.ts:227-305 | one line is handled as the source does: close the blocks it ends, classify it, then stop with the classifier's exception (types closed so far kept) or act on it and go on with the next line |
| DifCompileFacts.FirstOccurrence | app/difLoader.ts:250 | the search returns the position of the first occurrence |
| DifCompileFacts.NoOccurrence | app/difLoader.ts:268-280 | a line without the separator's first character has no occurrence and splits into itself alone |
| DifCompileFacts.SplitTwo | app/difLoader.ts:268 | `a to b` splits into exactly `a` and `b` when neither holds the separator's first character |
| DifCompileFacts.RunsOfFree | app/difLoader.ts:195-198 | a non-empty segment without the delimiter is a single match |
| DifCompileFacts.RunsOfPair | app/difLoader.ts:251 | `a==b` matched by `/[^=]+/g` gives exactly `a` and `b` |
| DifCompileFacts.NotKeyword | app/difLoader.ts:244-265 | a line without a space is neither an `if (` nor a `for ` line |
| DifCompileFacts.ForToLine | app/difLoader.ts:268-278 | `for a to numX` opens a count block keyed by the limit with its first three characters dropped, whose closure counts `g[numX] - a` |
| DifCompileFacts.TimesLine | app/difLoader.ts:279-286 | `for N:name` opens a count block keyed by `name` whose closure counts the constant `N` |
| DifCompileFacts.IfBoolLine | app/difLoader.ts:257-263 | `if (p)` opens a count block keyed `"undefined"` (it has no count name) that counts 1 when `g[p]` is truthy and 0 otherwise |
| DifCompileFacts.IfEqLine | app/difLoader.ts:250-256 | `if (a==b)` opens a count block keyed `"undefined"` that counts 1 exactly when the string `g[a]` equals the text `b` |
| DifCompileFacts.MemberLine | app/difLoader.ts:298-301 | `<type> <name>` adds a field named `name` of type `type`, also written to the name space under `name` |
| DifCompileFacts.TypeLine | app/difLoader.ts:289-297 | `<type>` opens the definition of `type` and also reads one into a field of that name, unless it is marked `!` |
| DifLoader.Dat.constructor | app/difLoader.ts:21 | a new reader holds its view, cursor and byte order, with no definitions and no finalizers |
| DifLoader.Dat.ReadUint32 | app/difLoader.ts:22-25 | the cursor moves 4 bytes first; the result is the unsigned reading of the 4 bytes at the old cursor, or RangeError past the end |
| DifLoader.Dat.ReadUint16 | app/difLoader.ts:26-29 | the same for 2 bytes |
| DifLoader.Dat.ReadUint8 | app/difLoader.ts:30-33 | the same for 1 byte |
| DifLoader.Dat.ReadInt32 | app/difLoader.ts:34-37 | the cursor moves 4 bytes; the result is the two's-complement reading at the old cursor, or RangeError |
| DifLoader.Dat.ReadInt16 | app/difLoader.ts:38-41 | the same for 2 bytes |
| DifLoader.Dat.ReadInt8 | app/difLoader.ts:42-45 | the same for 1 byte |
| DifLoader.Dat.ReadFloat32 | app/difLoader.ts:46-49 | the cursor moves 4 bytes; the result is the single-precision number at the old cursor, or RangeError |
| DifLoader.Dat.ReadFloat64 | app/difLoader.ts:50-53 | the cursor moves 8 bytes; the result is the double at the old cursor, or RangeError |
| DifLoader.Dat.ReadBoolean | app/difLoader.ts:54-57 | the cursor moves 1 byte; any nonzero byte reads as true |
| DifLoader.Dat.SkipBytes | app/difLoader.ts:66-68 | the cursor moves by `n` and nothing is read |
| DifLoader.Dat.ReadPrim | app/difLoader.ts:58-77 | reading a primitive by its tag gives what the reference reader gives, and the cursor ends where it says |
| DifLoader.Dat.ReadThing | app/difLoader.ts:58-62 | `readThing(s)` reads the primitive named `s`; a name that is not a primitive throws TypeError |
| DifLoader.Dat.ReadStruct | app/difLoader.ts:110-183 | `readStruct` returns what the reference interpreter `StructAt` computes for the same definition, record, name space and cursor, and leaves the cursor at its end position |
| DifLoader.Dat.ReadFields | app/difLoader.ts:117-181 | the `for (let s of st)` loop reads the fields in order, each from the state the previous one left, stops at the first failure, and returns what `FieldsAt` computes |
| DifLoader.Dat.ReadField | app/difLoader.ts:117-180 | one field of the loop does what `FieldAt` says and leaves the cursor where it says |
| DifLoader.Dat.ReadRaw | app/difLoader.ts:120-166 | a field's value before finalizing is what `RawAt` says |
| DifLoader.Dat.ReadCount | app/difLoader.ts:122-140 | the count of an array field is what `CountAt` says (read from the stream only for `count`) |
| DifLoader.Dat.ReadElement | app/difLoader.ts:146-165 | one element or single value is a nested record for an inline or non-primitive type, else a primitive read |
| DifLoader.Dat.ReadStructs | app/difLoader.ts:184-190 | `readStructs(struct, n)` returns what `StructsAt` says: `n` records, each read fresh |
| DifLoader.Dat.ReadUint32Structs | app/difLoader.ts:191-193 | a u32 count is read, then that many records |
| DifLoader.Dat.StructFromString | app/difLoader.ts:194-206 | `structFromString` succeeds exactly when the text has a `;`-segment and each segment has a word (otherwise TypeError from the null match); it makes one field per segment, in order, each built from that segment's words |
| DifLoader.Dat.StructDependencies | app/difLoader.ts:93-108 | the loop computes exactly `Dependencies(def)` |
| DifLoader.Dat.ListNeededStructDefs | app/difLoader.ts:82-92 | succeeds exactly when every registered definition's dependencies do; the names listed are exactly those some registered definition depends on and that are not registered |
| DifLoader.Dat.CloseBlocks | app/difLoader.ts:232-241 | the popping loop leaves the stack and `structs` as `PopWhile` says |
| DifLoader.Dat.CloseRemaining | app/difLoader.ts:306-315 | the final popping loop leaves `structs` as `CloseAll` says |
| DifLoader.Dat.DefStructsFromSpec | app/difLoader.ts:207-317 | `defStructsFromSpec` leaves `structs` and the error as `Compile` computes them from the lines |
| DifLoader.Dat.CompileLine | app/difLoader.ts:227-305 | one line closes the blocks its indentation ends, then either stops with the classifier's error or opens or adds what it declares, so that the rest of the compilation goes on from the new stack exactly as `CompileFrom` says |
| DifLoader.BytesMatch | app/difLoader.ts:329-335 | `bytes_match` returns and moves the cursor as `MatchAt` says (reads stop at the first mismatch) |
| DifLoader.ReadTypecode | app/difLoader.ts:358 | the four type bytes are the next four bytes as they are, and the cursor moves 4; RangeError past the end |
| DifLoader.LoadChunk | app/difLoader.ts:356-364 | `new PNG_Chunk(d)` reads the chunk `ChunkAt` describes and leaves the cursor at its end |
| DifLoader.ChunksFromStep | app/difLoader.ts:342-347 | one pass of the chunk loop: read one chunk, stop after it if it is IEND, else continue from its end |
| DifLoader.LoadPng | app/difLoader.ts:339-348 | `new PNG(d)` reads the signature flag and the chunks as `PngAt` says |
| DifParser.NegatedIsInvolution | app/difParser.ts:126-135 | inverting a point's coordinates twice gives them back bit for bit |
| DifParser.PointAt | app/difParser.ts:120-124 | a point reads without error exactly when its 12 bytes are in the buffer, and fails with RangeError otherwise |
| DifParser.PlaneAt | app/difParser.ts:163-166 | a plane from the stream (normal, then distance) reads exactly when its 16 bytes are there; RangeError otherwise |
| DifParser.BoxAt | app/difParser.ts:140-143 | a box (two points) reads exactly when its 24 bytes are there; RangeError otherwise |
| DifParser.SphereAt | app/difParser.ts:148-151 | a sphere (centre, radius) reads exactly when its 16 bytes are there; RangeError otherwise |
| DifParser.TexGenAt | app/difParser.ts:179-182 | a tex-gen equation (two planes) reads exactly when its 32 bytes are there; RangeError otherwise |
| DifParser.PlaneRecordAt | app/difParser.ts:230 | a plane record reads exactly when its 8 bytes are there: the u32 normal index first, then the f32 distance |
| DifParser.PlaneEntryAt | app/difParser.ts:230 | one pass of the plane loop yields the record read, a read error when its bytes are missing, or the TypeError of `new PlaneF` when the distance is falsy (+0, -0, NaN) and the index selects a normal |
| DifParser.VisibilityAt | app/difParser.ts:238 | a point visibility is the byte at the cursor, read when it is in the buffer |
| DifParser.NodeAt | app/difParser.ts:246 | a BSP node reads exactly when its 10 bytes are there: a u16 plane index, then u32 front and back indices, in that order |
| DifParser.LeafAt | app/difParser.ts:250 | a solid leaf reads exactly when its 6 bytes are there: a u32 surface index, then a u16 surface count |
| DifParser.Records | app/difParser.ts:225-250 | a counted loop of record reads gives `n` records when no read fails |
| DifParser.RecordsThen | app/difParser.ts:225-250 | the first `k` records followed by record `k` make `k + 1` records |
| DifParser.RecordsElement | app/difParser.ts:225-250 | record `k` of a list read without error is the record at `pos + k * size` |
| DifParser.RecordsComplete | app/difParser.ts:225-250 | a list whose every record can be read is read whole |
| DifParser.RecordsFailure | app/difParser.ts:225-250 | once a record read fails, reading on does not change the outcome: the first error stands |
| DifParser.CountedAt | app/difParser.ts:223-250 | a u32 count followed by that many records leaves the cursor just past the last record |
| DifParser.ListsAt | app/difParser.ts:223-250 | the seven lists of `Interior.load` leave the cursor just past their bytes; the plane list stops at its first read error or at the first plane `new PlaneF` rejects |
| DifParser.InteriorAt | app/difParser.ts:215-255 | `Interior.load` leaves the cursor just past the interior's bytes |
| DifParser.InteriorsAt | app/difParser.ts:111-112 | `n` interiors read without error are `n` interiors |
| DifParser.InteriorsThen | app/difParser.ts:111-112 | the first `k` interiors followed by the next make `k + 1` |
| DifParser.InteriorsFailure | app/difParser.ts:111-112 | once an interior cannot be read, reading on does not change the outcome |
| DifParser.InteriorsAreContiguous | app/difParser.ts:111-112 | the interiors lie back to back: the cursor ends at the start plus the sum of their sizes |
| DifParser.InteriorsSizeAppend | app/difParser.ts:111-112 | the size of the interiors with one more added is the earlier size plus that interior's size |
| DifParser.CountedInteriorsAt | app/difParser.ts:109-112 | as many interiors are read as the u32 `numDetailLevels` says |
| DifParser.ResourceAt | app/difParser.ts:104-113 | the preview flag is the fifth byte read as a boolean (nonzero), and a preview is read exactly when that flag is set |
| DifParser.Point3F.constructor | app/difParser.ts:116-125 | a point holds the coordinates given and no inverse yet |
| DifParser.Point3F.Inverted | app/difParser.ts:126-135 | the first access creates the inverse, with negated coordinates and pointing back at this point, and caches it; every later access returns the cached object; the two stay paired |
| DifParser.PointInvertedTwice | app/difParser.ts:126-135 | `p.inverted.inverted` is `p` itself, and `p.inverted` holds the negated coordinates |
| DifParser.PlaneF.constructor | app/difParser.ts:153-162 | a plane holds the normal and the distance it is given (null and None standing for fields left undefined), with no inverse yet |
| DifParser.PlaneF.Inverted | app/difParser.ts:167-174 | the first access creates and caches the inverse: the inverted normal, the negated distance, and a link back; later accesses return the cache; an undefined normal throws a TypeError, and so does a falsy or missing distance, after the normal has cached its own inverse |
| DifParser.PlaneInvertedTwice | app/difParser.ts:167-174 | for a plane with a normal, `p.inverted` succeeds exactly when the distance is truthy, and then `p.inverted.inverted` is `p` itself and the inverse's distance is the negated distance; otherwise both throw the TypeError |
| DifParser.NewPlaneAsWritten | app/difParser.ts:156-162 | as written, a truthy distance stores normal and distance; any falsy distance (0, -0, NaN) takes the stream path, which fails on a `Point3F` |
| DifParser.PlaneThroughOriginFails | app/difParser.ts:156-162 | as written, a plane with distance +0 cannot be built from a normal |
| DifParser.InvertingZeroDistanceFails | app/difParser.ts:167-174 | as written, building a plane with distance -0 fails, and so does inverting it (its inverse's distance is +0), although such a plane loads from the stream |
| DifParser.NewPlane | app/difParser.ts:156-162 | the intended constructor always stores the normal and the distance given |
| DifParser.NewPlaneInvertsTwice | app/difParser.ts:167-174 | with the intended constructor every plane with a normal can be inverted, and inverting the inverse rebuilds the same plane |
| DifParser.NewPlaneAgreesOnTruthy | app/difParser.ts:156-162 | the as-written and the intended constructor agree exactly when the distance is truthy |
| DifParser.NewPlaneF | app/difParser.ts:156-162 | `new PlaneF(normal, dis)` succeeds exactly when `NewPlaneAsWritten` does, failing with its TypeError, and otherwise stores the normal and the distance `NewPlaneAsWritten` stores |
| DifParser.BoxF.constructor | app/difParser.ts:137-144 | a box holds the two corners given |
| DifParser.SphereF.constructor | app/difParser.ts:145-152 | a sphere holds the centre and radius given |
| DifParser.TexGenEq.constructor | app/difParser.ts:176-183 | a tex-gen equation holds the two planes given |
| DifParser.LoadPoint | app/difParser.ts:120-124 | `new Point3F(d)` fails exactly when `PointAt` does, with its error; otherwise it makes a fresh point with those coordinates and moves the cursor 12 bytes |
| DifParser.LoadPlane | app/difParser.ts:163-166 | `new PlaneF(d)` does what `PlaneAt` says: a fresh normal and then the distance, 16 bytes |
| DifParser.LoadBox | app/difParser.ts:140-143 | `new BoxF(d)` does what `BoxAt` says |
| DifParser.LoadSphere | app/difParser.ts:148-151 | `new SphereF(d)` does what `SphereAt` says |
| DifParser.LoadTexGen | app/difParser.ts:179-182 | `new TexGenEq(d)` does what `TexGenAt` says |
| DifParser.LoadNextPoint | app/difParser.ts:225-226 | one pass of a point loop extends the points read so far exactly as `Records` says |
| DifParser.LoadPoints | app/difParser.ts:223-226 | a counted point loop gives the points `CountedAt` describes, as fresh objects, and the cursor it says |
| DifParser.LoadPlaneRecord | app/difParser.ts:230 | the index and distance of one plane read as `PlaneRecordAt` says, 8 bytes |
| DifParser.LoadNextPlane | app/difParser.ts:229-230 | one pass of the plane loop extends the records read so far as `Records` says over `PlaneEntryAt`, failing as it does, and the plane built shares the normal its index names and stores the distance only when it is truthy |
| DifParser.LoadPlanes | app/difParser.ts:227-230 | the plane loop succeeds exactly when `CountedAt` over `PlaneEntryAt` does, with its error otherwise; each plane is built on the normal its index names and stores its distance when that is truthy |
| DifParser.LoadPlaneList | app/difParser.ts:229-230 | `n` passes of the plane loop read the records `Records` describes over `PlaneEntryAt`, failing as it does, and build one fresh plane per record, on the normal its index names, storing the distance when it is truthy |
| DifParser.LoadNextVisibility | app/difParser.ts:237-238 | one pass of the visibility loop reads one byte as `Records` says |
| DifParser.LoadVisibilities | app/difParser.ts:235-238 | the visibility loop gives what `CountedAt` describes |
| DifParser.LoadNextTexGen | app/difParser.ts:241-242 | one pass of the tex-gen loop reads the next record as `Records` says and builds a fresh equation holding it |
| DifParser.LoadTexGens | app/difParser.ts:239-242 | the tex-gen loop gives what `CountedAt` describes |
| DifParser.LoadNode | app/difParser.ts:246 | one BSP node read as `NodeAt` says, 10 bytes |
| DifParser.LoadNextNode | app/difParser.ts:245-246 | one pass of the BSP node loop, as `Records` says |
| DifParser.LoadNodes | app/difParser.ts:243-246 | the BSP node loop gives what `CountedAt` describes |
| DifParser.LoadLeaf | app/difParser.ts:250 | one solid leaf read as `LeafAt` says, 6 bytes |
| DifParser.LoadNextLeaf | app/difParser.ts:249-250 | one pass of the solid leaf loop, as `Records` says |
| DifParser.LoadLeaves | app/difParser.ts:247-250 | the solid leaf loop gives what `CountedAt` describes |
| DifParser.Interior.constructor | app/difParser.ts:186-207 | an interior holds every header value and list given |
| DifParser.Interior.GetPlane | app/difParser.ts:208-213 | without bit 0x8000, plane `n` or undefined past the end; with it, the `inverted` plane of plane `n & 0x7fff`, cached as `inverted` says, a TypeError when there is no such plane, and the TypeError of `new PlaneF` when that plane's distance is falsy or missing; a truthy distance comes back negated |
| DifParser.LoadLists | app/difParser.ts:223-250 | the seven list loops of `Interior.load` read what `ListsAt` describes |
| DifParser.LoadInterior | app/difParser.ts:215-255 | `Interior.load` reads what `InteriorAt` describes and leaves the cursor it says |
| DifParser.InteriorResource.constructor | app/difParser.ts:97-103 | a resource holds its version, preview flag, preview and interiors |
| DifParser.LoadNextInterior | app/difParser.ts:111-112 | one pass of the interior loop extends the interiors as `InteriorsAt` says |
| DifParser.LoadInteriorList | app/difParser.ts:111-112 | the interior loop reads `n` interiors as `InteriorsAt` says, stopping with the first error |
| DifParser.LoadPreview | app/difParser.ts:107-108 | the preview is read as a PNG only when the flag is set |
| DifParser.LoadInteriors | app/difParser.ts:109-112 | `numDetailLevels` is read, then that many interiors, as `CountedInteriorsAt` says |
| DifParser.LoadInteriorResource | app/difParser.ts:104-113 | `InteriorResource.load` reads what `ResourceAt` describes |
| DifFinalizers.Member | app/difFinalizers.ts:187-222 | reading a member fails (TypeError) only on a value that is not a record or object, i.e. undefined or null |
| DifFinalizers.Plus | app/difFinalizers.ts:287-288 | `h.polyListPlaneStart + index` is a whole number exactly when both operands are |
| DifFinalizers.Times | app/difFinalizers.ts:291 | `strings[pli] * 256` is a whole number exactly when the byte is |
| DifFinalizers.Neg | app/difFinalizers.ts:198 | unary minus negates an integer and flips the sign bit of a float; it is not modelled for anything else |
| DifFinalizers.NegTwice | app/difFinalizers.ts:198 | negating a stored number twice gives it back |
| DifFinalizers.Construct | app/difFinalizers.ts:9-18 | `new C(s.a1, …)` for a class that only stores its arguments succeeds exactly when every argument can be read, and then holds each argument under its member name, in order |
| DifFinalizers.Copies | app/difFinalizers.ts:43-77 | a constructor argument list copies each named member of the record under its own name, in order |
| DifFinalizers.CopiedMembers | app/difFinalizers.ts:9-18 | the members copied are the names given, in order, each with the record's value under that name (undefined where it has none) |
| DifFinalizers.CopiesOfRecord | app/difFinalizers.ts:9-18 | a constructor that only copies members never throws on a parsed record, and holds each named member's value |
| DifFinalizers.CopyingFinalizersStoreMembers | app/difFinalizers.ts:9-65 | the `BoxF`, `SphereF`, `PlaneF`, `ColorF`, `ItrGameEntity`, `ConvexHull` and `NullSurface` finalizers build their class from the record's members, in the constructor's order |
| DifFinalizers.LightMapTexGenStoresMembers | app/difFinalizers.ts:17 | the `LightMapTexGen` finalizer stores `finalWord`, and `texGenXDistance` and `texGenYDistance` as `x` and `y` |
| DifFinalizers.NewPoint | app/difFinalizers.ts:10 | `new Point(x, y, z)` makes a three-coordinate point, and numeric arguments are stored as given |
| DifFinalizers.PointKeepsCoordinates | app/difFinalizers.ts:10 | the `Point3F` finalizer turns a record with numeric coordinates into a `Point` with the same coordinates |
| DifFinalizers.FromCharCodes | app/difFinalizers.ts:15 | `String.fromCharCode(...codes)` yields one character per code |
| DifFinalizers.CodesOf | app/difFinalizers.ts:15 | a string has one code per character |
| DifFinalizers.FromCharCodesOfCodes | app/difFinalizers.ts:15 | the `String` finalizer gives back every text of the Basic Multilingual Plane from its codes |
| DifFinalizers.StringFinalizerOfCodes | app/difFinalizers.ts:15 | a `String` record whose `gth` holds the codes of a text of the Basic Multilingual Plane finalizes to that text |
| DifFinalizers.CharsOfCodes | app/difFinalizers.ts:15 | a member holding an array of codes that `String.fromCharCode` accepts is passed to a constructor as the text those codes spell |
| DifFinalizers.LastNamed | app/difFinalizers.ts:19-25 | the last entry naming a key is found, and none is found exactly when no entry names it |
| DifFinalizers.DictionaryLastWins | app/difFinalizers.ts:19-25 | the dictionary holds exactly the names present, each with the value of its last occurrence |
| DifFinalizers.GetOfAbsentKey | app/difFinalizers.ts:19-25 | a dictionary without a name reads undefined there |
| DifFinalizers.DictionaryFinalizerLastWins | app/difFinalizers.ts:19-25 | the `Dictionary` finalizer of a record with entries `e` holds exactly the names present, each with its last entry's value, and reads undefined elsewhere |
| DifFinalizers.NumMaterialsCountsMaterials | app/difFinalizers.ts:82-87 | a material list counts exactly the materials it was given |
| DifFinalizers.UnpackFrom | app/difFinalizers.ts:104-110 | `unpackArr` succeeds exactly when every element has the member (no element is undefined or null), and yields, in order, each element's member |
| DifFinalizers.UnpackArr | app/difFinalizers.ts:104-110 | the loop of `unpackArr` computes `Unpack` |
| DifFinalizers.NegatePoint | app/difFinalizers.ts:328 | `normal.scale(-1)` gives a three-coordinate point |
| DifFinalizers.PlaneBits | app/difFinalizers.ts:324-329 | `i & 0x7fff` is below `0x8000` |
| DifFinalizers.IndexNumber | app/difFinalizers.ts:324-329 | a whole-number index is used as given; undefined, null and booleans index no plane (`undefined & 0x8000` is 0 and `planes[undefined]` is undefined) |
| DifFinalizers.GetPlaneAsWritten | app/difFinalizers.ts:324-329 | `getPlane` as written: an index reading no plane gives undefined; without bit 0x8000, plane `i` or undefined past the end; with it, plane `i & 0x7fff` with its normal negated and its distance kept, and a TypeError when that plane is missing |
| DifFinalizers.GetPlane | app/difFinalizers.ts:324-329 | corrected `getPlane`: without bit 0x8000 it returns plane `i` (undefined past the end); with it, plane `i & 0x7fff` with both normal and distance negated |
| DifFinalizers.InvertedPlaneHasSamePoints | app/difFinalizers.ts:324-329 | the corrected inverse of a plane holds exactly the points the plane holds |
| DifFinalizers.InvertedPlaneAsWrittenMovesIt | app/difFinalizers.ts:324-329 | as written, inverting the plane z = 1 gives the plane z = -1: (0, 0, 1) is on the plane and not on its inverse |
| DifFinalizers.GetPlaneAgreesWithoutInvertBit | app/difFinalizers.ts:324-329 | the written and the corrected `getPlane` agree wherever bit 0x8000 is clear |
| DifFinalizers.GetPlaneAsWrittenAgainstIntended | app/difFinalizers.ts:324-329 | the written `getPlane` succeeds wherever the corrected one does, and they differ only in the inverted plane's distance, which the corrected one negates |
| DifFinalizers.PlanesFromPointwise | app/difFinalizers.ts:196-199 | the plane table succeeds exactly when every plane record can be built, and then plane `k` is the one built from record `k` |
| DifFinalizers.PlanesFrom | app/difFinalizers.ts:196-199 | the plane table, when it is built, has one plane per record from `i` up to `n` |
| DifFinalizers.PlaneTable | app/difFinalizers.ts:196-199 | the loop filling `this.planes` computes `PlanesFrom` |
| DifFinalizers.BytesFrom | app/difFinalizers.ts:281-307 | a run of poly-list bytes reads exactly when each byte does, and holds them in order |
| DifFinalizers.SurfacesAfterEnd | app/difFinalizers.ts:298-307 | the surface loop reads the surfaces it was asked for and stops `3 + 2 * numSurfacePoints` bytes later per surface |
| DifFinalizers.PolyListLayout | app/difFinalizers.ts:281-307 | the walk reads `numPlanes` plane indices after the count, the point count from the two bytes after them, and stops after the points and surface entries |
| DifFinalizers.ResolvedFrom | app/difFinalizers.ts:286-289 | resolving the plane indices at positions `lo … hi - 1` gives one plane per position |
| DifFinalizers.ResolvedPointwise | app/difFinalizers.ts:286-289 | each resolved plane is the plane its byte's relative index names |
| DifFinalizers.SurfacePlanes | app/difFinalizers.ts:298-307 | one plane is pushed per surface entry |
| DifFinalizers.WalkFollowsDecoding | app/difFinalizers.ts:281-307 | a walk that succeeds has read a well-formed poly-list: its planes are the decoded indices resolved one by one, its surfaces those of the decoded entries, and it stops where the decoding does |
| DifFinalizers.WalkPlanes | app/difFinalizers.ts:285-289 | the first loop reads the plane count and resolves each index as it reads it, failing exactly when a byte or a plane lookup does |
| DifFinalizers.ResolvePlaneIndices | app/difFinalizers.ts:285-289 | the loop over the plane indices resolves each one as it reads it, stopping at the first byte or plane lookup that fails, as `ResolvedFrom` says, and ends on the last index |
| DifFinalizers.WalkSurfaces | app/difFinalizers.ts:290-307 | the rest of the walk skips the points and collects the plane of each surface, failing exactly as `SurfaceSection` does |
| DifFinalizers.WalkSurfaceEntries | app/difFinalizers.ts:298-307 | the surface loop collects, for each of the surfaces `SurfacesAfter` decodes, the walked plane its index names, and ends on the last byte of the last surface; it fails exactly when `SurfacesAfter` does, with its error |
| DifFinalizers.WalkPolyList | app/difFinalizers.ts:279-307 | the byte-by-byte walk of one hull's poly-list computes `WalkOf` |
| DifFinalizers.HullSize | app/difFinalizers.ts:309 | hull number `hack` takes `[8, 6, 6, 6, 6, 6, 5][hack]` surfaces, and none past the seventh hull (the index reads undefined) |
| DifFinalizers.HullPlanesFrom | app/difFinalizers.ts:309-313 | the loop over surfaces `sf, …, n - 1` stops at the first surface whose plane cannot be found, and otherwise yields one plane per surface |
| DifFinalizers.HullPlanesPointwise | app/difFinalizers.ts:309-313 | the hull's planes are built exactly when each surface's plane can be found, plane `sf` being the plane of surface `hullSurfaceIndices[surfaceStart + sf]` |
| DifFinalizers.SelectHullPlanes | app/difFinalizers.ts:308-313 | the loop that rebuilds `surfaces` computes `HullPlanesFrom` over `HullSize(hack)` surfaces |
| DifFinalizers.InteriorHead | app/difFinalizers.ts:182-222 | an undefined or null record gives the blank interior; otherwise the interior keeps its source record and has no hulls yet |
| DifFinalizers.InteriorOf | app/difFinalizers.ts:182-322 | `new Interior(s)` of undefined or null is blank, and a built interior keeps its source record |
| DifFinalizers.BuildHull | app/difFinalizers.ts:225-319 | the hull loop's body for hull `i`, walk and all, computes `HullOf` |
| DifFinalizers.BuildHulls | app/difFinalizers.ts:225-320 | the loop over the convex hulls computes `HullsOf`: the first hull that fails stops the constructor |
| DifFinalizers.UnpackHullLists | app/difFinalizers.ts:215-222 | the eight `unpackArr` loops compute `HullListsOf` |
| DifFinalizers.NewInteriorHead | app/difFinalizers.ts:182-222 | the constructor's steps before the hull loop compute `InteriorHead` |
| DifFinalizers.NewInterior | app/difFinalizers.ts:182-322 | `new Interior(s)`, loops and all, computes `InteriorOf(s)` |
| DifFinalizers.HullContents | app/difFinalizers.ts:225-319 | a hull built without error read its record and poly-list, its poly-list decodes, and it holds `HullSize(i)` planes, plane `k` being the plane of surface `surfaceStart + k` |
| DifFinalizers.HullOfParts | app/difFinalizers.ts:225-313 | a hull built without error read its record, its poly-list position and its plane and surface starts, walked its poly-list without error, and its planes are the hull-plane loop's over `HullSize(i)` surfaces |
| DifFinalizers.InteriorHull | app/difFinalizers.ts:225-320 | hull `i` of a built interior is the one `HullOf` builds from the interior's own members |
| DifFinalizers.InteriorOfParts | app/difFinalizers.ts:182-322 | a built interior is its head with the hulls `HullsOf` collects |
| DifFinalizers.NewDif | app/difFinalizers.ts:355-363 | the loop over the detail levels computes `DifOf` |
| DifFinalizers.DifKeepsEveryLevel | app/difFinalizers.ts:355-363 | a file record with a record for each of its `numDetailLevels` levels gives a `Dif` with exactly those levels' interiors, in order |
| DifFinalizers.DifWithMissingLevelThrows | app/difFinalizers.ts:355-363 | a file record claiming more detail levels than its array holds makes `new Dif` throw |
| Vectors.AddSubCancels | app/3dTypes.ts:55-64 | `p.add(o).sub(o)` is `p` again |
| Vectors.AddCommutes | app/3dTypes.ts:55-57 | `add` does not depend on the order of its operands |
| Vectors.ScaleDistributesOverAdd | app/3dTypes.ts:55-71 | scaling a sum is the sum of the scaled vectors |
| Vectors.XyzRoundTrip | app/3dTypes.ts:199-204 | the `xyz` setter and getter are inverse: setting a point's own `xyz` changes nothing, and reading back a set triple gives the triple |
| Vectors.Mag2ScaledIsScaledMag2 | app/3dTypes.ts:101-103 | `mag2(f)` is `f²` times `mag2()`, and the default factor 1 gives `mag2()` |
| Vectors.Mag2NonNegative | app/3dTypes.ts:101-103 | `mag2()` is never negative |
| Vectors.CrossIsOrthogonal | app/3dTypes.ts:116-118 | the cross product is orthogonal to both of its operands |
| Vectors.RemoveComponentIsOrthogonal | app/3dTypes.ts:172-175 | removing the component along a nonzero `v` leaves a vector orthogonal to `v` |
| Vectors.RemoveComponentKeepsOrthogonal | app/3dTypes.ts:172-175 | removing the component along `v` changes nothing in any direction orthogonal to `v` |
| Vectors.BounceReflects | app/3dTypes.ts:180-183 | after `bounce(n, r)` the speed along `n` is `-r` times what it was |
| Vectors.BounceNormalReflects | app/3dTypes.ts:188-191 | for a unit `n`, `bounceNormal` equals `bounce` and reverses the speed along `n` scaled by `r` |
| Vectors.BounceNormalKeepsTangent | app/3dTypes.ts:188-191 | `bounceNormal` leaves every direction orthogonal to the normal unchanged |
| Vectors.AccessorsRoundTrip | app/3dTypes.ts:296-319 | the `rijk`, `xyzw` and `v` setters and getters are inverse, and `xyzw` puts the real part last |
| Vectors.ConjugateIsInvolution | app/3dTypes.ts:335-337 | conjugating twice gives the quaternion back |
| Vectors.MultiplyIsAssociative | app/3dTypes.ts:352-357 | the Hamilton product of `multiply` is associative, so `after`/`before` chains compose rotations |
| Vectors.Norm2IsMultiplicative | app/3dTypes.ts:342-357 | `norm2` of a product is the product of the `norm2`s |
| Vectors.ConjugateProductIsNorm2 | app/3dTypes.ts:335-357 | `q · conjugate(q)` is the real quaternion `norm2(q)` |
| Vectors.ConjugateFirstProductIsNorm2 | app/3dTypes.ts:335-357 | `conjugate(q) · q` is the real quaternion `norm2(q)` as well |
| Vectors.ConjugateOfProduct | app/3dTypes.ts:335-357 | the conjugate of a product is the product of the conjugates in reverse order |
| Vectors.MultiplyByScaled | app/3dTypes.ts:279-357 | scaling the right factor scales the product |
| Vectors.ScaledMultiply | app/3dTypes.ts:279-357 | scaling the left factor scales the product |
| Vectors.Norm2OfConjugate | app/3dTypes.ts:335-344 | conjugation keeps `norm2` |
| Vectors.MultiplyInverseIsIdentity | app/3dTypes.ts:327-357 | `q.multiply(q.inverse())` is the identity for every nonzero `q` |
| Vectors.RealMultiplyScales | app/3dTypes.ts:352-357 | multiplying by a real quaternion `(s, 0, 0, 0)` on either side scales by `s` |
| Vectors.SandwichIsPure | app/3dTypes.ts:361-364 | `q · p · conjugate(q)` of a pure quaternion has no real part, so `apply` loses nothing by keeping only `v` |
| Vectors.ApplyPreservesMag2 | app/3dTypes.ts:361-364 | `apply` by a unit quaternion keeps the vector's squared length: it is a rotation |
| Vectors.UnapplyUndoesApply | app/3dTypes.ts:361-368 | `unapply` undoes `apply` for a unit quaternion |
| Vectors.SwingTwistEarlyExit | app/3dTypes.ts:380-384 | an axis nearly orthogonal to the vector part exits early with the quaternion itself and the identity, whose product is the quaternion |
| Vectors.SwingTimesTwist | app/3dTypes.ts:376-388 | swing times twist is the original quaternion whenever the twist is normalised to unit norm |
| Vectors.Point.constructor | app/3dTypes.ts:37-47 | a new point holds the coordinates given |
| Vectors.Point.Copy | app/3dTypes.ts:48-50 | `copy()` is a fresh point with the same coordinates |
| Vectors.Point.Scale | app/3dTypes.ts:69-71 | `scale(s)` is a fresh point, this one scaled, this one unchanged |
| Vectors.Point.Set | app/3dTypes.ts:51-54 | `set(o)` gives this point `o`'s coordinates and returns this point |
| Vectors.Point.AddEq | app/3dTypes.ts:58-61 | `addEq(o)` adds `o` to this point in place and returns it, also when `o` is this point |
| Vectors.Point.SubEq | app/3dTypes.ts:65-68 | `subEq(o)` subtracts `o` in place and returns this point |
| Vectors.Point.ScaleEq | app/3dTypes.ts:72-75 | `scaleEq(s)` scales in place and returns this point |
| Vectors.Point.MulEq | app/3dTypes.ts:79-82 | `mulEq(o)` multiplies coordinate by coordinate in place |
| Vectors.Point.DivEq | app/3dTypes.ts:86-89 | `divEq(o)` divides coordinate by coordinate in place, for nonzero coordinates of `o` |
| Vectors.Point.NegEq | app/3dTypes.ts:93-96 | `negEq()` negates in place and returns this point |
| Vectors.Point.CrossEq | app/3dTypes.ts:119-126 | `crossEq(o)` replaces this point by its cross product with another point `o` |
| Vectors.Point.RemoveComponentEq | app/3dTypes.ts:176-179 | `removeComponentEq(v)` removes the component along a nonzero `v` in place |
| Vectors.Point.BounceEq | app/3dTypes.ts:184-187 | `bounceEq(n, r)` bounces in place, as `bounce` computes |
| Vectors.Point.BounceNormalEq | app/3dTypes.ts:192-195 | `bounceNormalEq(n, r)` bounces in place, as `bounceNormal` computes |
| Vectors.Point.SetXyz | app/3dTypes.ts:202-204 | the `xyz` setter stores the first three numbers, which the getter then returns |
| Vectors.Quaternion.Unit | app/3dTypes.ts:229-234 | `new Quaternion()` is the identity rotation |
| Vectors.Quaternion.constructor | app/3dTypes.ts:250-253 | `new Quaternion(r, i, j, k)` holds the four components given |
| Vectors.Quaternion.Set | app/3dTypes.ts:258-261 | `set(o)` gives this quaternion `o`'s components and returns it |
| Vectors.Quaternion.AddEq | app/3dTypes.ts:268-271 | `addEq(o)` adds in place |
| Vectors.Quaternion.SubEq | app/3dTypes.ts:275-278 | `subEq(o)` subtracts in place |
| Vectors.Quaternion.ScaleEq | app/3dTypes.ts:282-285 | `scaleEq(s)` scales in place |
| Vectors.Quaternion.NegEq | app/3dTypes.ts:291-294 | `negEq()` negates in place |
| Vectors.Quaternion.ConjugateEq | app/3dTypes.ts:338-341 | `conjugateEq()` conjugates in place |
| Vectors.Quaternion.InverseEq | app/3dTypes.ts:331-334 | `inverseEq()` leaves the inverse of the old value (conjugate over `norm2`) for a nonzero quaternion |
| Vectors.Quaternion.MultiplyEq | app/3dTypes.ts:358-360 | `multiplyEq(o)` leaves the product of the old value and `o`, also when `o` is this quaternion |
| Vectors.Quaternion.SetRijk | app/3dTypes.ts:302-307 | the `rijk` setter stores the first four numbers, which the getter then returns |
| Vectors.Quaternion.SetXyzw | app/3dTypes.ts:308-313 | the `xyzw` setter stores the first four numbers with the real part last, which the getter then returns |
| Vectors.Quaternion.SetV | app/3dTypes.ts:317-319 | the `v` setter replaces the vector part by the point's coordinates and keeps the real part |
| Physics.Get | app/physics.ts:51-56 | `get(o, p, d)` is `o[p]` when present and `d` when it is missing |
| Physics.GetAfterSet | app/physics.ts:51-56 | setting a member changes what `get` reads for it and for no other member |
| Physics.GetAfterRemove | app/physics.ts:51-56 | removing a member makes `get` give the default for it, and only for it |
| Physics.SetNormal | app/physics.ts:42-47 | assigning `normal` makes it the collision's normal; on a moving collision it assigns the base's and keeps the frame velocity |
| Physics.ApproachNeedsNormal | app/physics.ts:25-28 | a velocity can only approach a surface (`v·n < 0`) along a normal of nonzero length, so `removeComponentEq` is defined there |
| Physics.WeightIsNonNegative | app/physics.ts:23-78 | the weight any collision returns is never negative |
| Physics.BasicStopsApproach | app/physics.ts:21-31 | a basic collision returns `-v·n` and leaves no velocity along the normal when the velocity approaches the surface; otherwise it returns 0 and leaves the velocity unchanged |
| Physics.MovingWorksInItsFrame | app/physics.ts:33-41 | a moving collision applies its base in the frame moving with it: the velocity relative to that frame after is what the base makes of the relative velocity before, with the base's weight |
| Physics.MovingBasicStopsRelativeApproach | app/physics.ts:33-41 | a moving basic collision leaves no relative velocity along its normal |
| Physics.MaterialBounces | app/physics.ts:58-81 | for a unit normal and an approaching velocity, a material collision returns `-v·n`, reverses the speed along the normal scaled by the product of the two restitutions, and keeps every orthogonal direction |
| Physics.MaterialReflects | app/physics.ts:71-75 | for an approaching velocity and a unit normal, a material collision reverses the speed along the normal, scaled by the product of the two restitutions |
| Physics.MaterialKeepsTangent | app/physics.ts:71-75 | a material bounce keeps the speed along every direction orthogonal to the normal |
| Physics.DefaultRestitutionIsOne | app/physics.ts:65-73 | a kinematic without a material bouncing on a collision without one is reflected rigidly |
| Physics.Apply | app/physics.ts:23-78 | `c.apply(m)` changes `m.velocity` in place and returns the weight exactly as `Respond` says |
| Marble.Repeat | app/marble.ts:165 | `n` steps run the step callback `n` times, the same callback each time |
| Marble.Steps | app/marble.ts:173-178 | `physics` takes no step for a debt at most 0, at least one for a positive debt, and just enough to bring the debt into `(-1/256, 0]` |
| Marble.Settle | app/marble.ts:173-178 | the debt `physics` leaves is the debt itself when it was not positive, and otherwise lies in `(-1/256, 0]` |
| Marble.SettleIsDebtLessSteps | app/marble.ts:143-178 | the debt left is the debt less `1/256` per step taken |
| Marble.StepsRoundUp | app/marble.ts:173-178 | the number of steps is the debt rounded up to whole steps of `1/256` |
| Marble.Marble.constructor | app/marble.ts:102-132 | a new default marble holds the given position and velocity points, no force, torque, spin or ground normal, is not on the ground, has gravity `(0, -1, 0)` and an empty step callback |
| Marble.Marble.Attach | app/marble.ts:137-139 | `attach(c)` makes `c` the step callback and changes nothing else |
| Marble.Marble.Detach | app/marble.ts:140-142 | `detach()` restores the empty callback and changes nothing else |
| Marble.Marble.Integrate | app/marble.ts:147-153 | the Euler part of `step()` moves the position by the old velocity, adds gravity and force to the velocity, torque to the spin, and clears force and torque, as `Euler` says |
| Marble.Marble.Translate | app/marble.ts:147-149 | the position moves by the old velocity times the step, the velocity gains gravity along `gravityVec` and the force over the mass, and the force is cleared, as `Euler` says |
| Marble.Marble.Spin | app/marble.ts:152-153 | the angular velocity gains the torque over the moment of inertia times the step, and the torque is cleared, as `Euler` says |
| Marble.Marble.Collisions | app/marble.ts:160-163 | the collision loop applies each collision to the velocity in turn and adds each normal, scaled by the weight its `apply` returns, to the ground normal, as `Collide` says |
| Marble.Marble.Step | app/marble.ts:143-166 | `step()` takes `1/256` off the debt, advances the marble as `Advance` says, runs the step callback once and changes nothing else |
| Marble.Marble.Physics | app/marble.ts:173-178 | `physics(dt)` adds `timeRate * dt` to the debt, then takes `Steps(debt)` steps: the marble ends where those steps take it, the callback ran once per step, and the debt left is `Settle(debt)` |
| Marble.OnGroundWhenTouching | app/marble.ts:155-164 | after a step the marble is on the ground exactly when there is a world and it reported at least one collision |
| Marble.StepClearsForceAndTorque | app/marble.ts:149-153 | a step always leaves no pending force and no pending torque |
| Marble.FreeFall | app/marble.ts:143-166 | without a world, under the default gravity and with no pending force, `n` steps lower the vertical speed by `gravity * n / 256` and keep the horizontal speed |
| Marble.LandingOnAPlane | app/marble.ts:155-164 | one basic collision with a surface the marble approaches stops the marble along its normal, reports that normal scaled by the approach speed as the ground normal, and sets `onGround` |
| Marble.DebtStaysWithinOneStep | app/marble.ts:173-178 | once the debt is in `(-1/256, 0]`, `physics` with a non-negative rate and time keeps it there: the marble never lags the clock by a full step nor runs ahead of it |
| DistanceFunctions.Min | app/distanceFunctions.ts:42 | `Math.min(a, b)` is one of its arguments and at most both, `+∞` included |
| DistanceFunctions.Clamp | app/distanceFunctions.ts:47 | `clamp(n, l, h)` lies in `[l, h]` when that range is not empty, is `n` inside it, `l` (or `h` if lower) below it, and `h` above it |
| DistanceFunctions.PickLeast | app/distanceFunctions.ts:48-59 | the selection loop chooses an index of the values, and keeps a choice once it has one |
| DistanceFunctions.PickGreatest | app/distanceFunctions.ts:60-71 | the loop of `maxMag` chooses an index of the values, and keeps a choice once it has one |
| DistanceFunctions.PickLeastFrom | app/distanceFunctions.ts:51-57 | continuing from a state where the choice is the first least value so far, the loop ends with the first least value overall, or nothing when all are `+∞` |
| DistanceFunctions.PickLeastIsFirstLeast | app/distanceFunctions.ts:48-59 | started from `+∞`, the loop chooses the first of the least values, and nothing exactly when every value is `+∞` |
| DistanceFunctions.PickGreatestFrom | app/distanceFunctions.ts:63-69 | continuing from a state where the choice is the first greatest positive value so far, the loop ends with the first greatest value overall when one is positive |
| DistanceFunctions.PickGreatestIsFirstGreatest | app/distanceFunctions.ts:60-71 | started from 0, the loop chooses the first of the greatest values when one is positive, and nothing otherwise |
| DistanceFunctions.Mags | app/distanceFunctions.ts:52 | each point's `mag2()`, one per point and in order |
| DistanceFunctions.Finite | app/distanceFunctions.ts:50-53 | the squared lengths as finite values, one per point and in order, so they compare against an initial `+∞` |
| DistanceFunctions.MinMag | app/distanceFunctions.ts:48-59 | `minMag` returns the point (the object itself, not a copy) whose `mag2` is the first least, and a new zero point for no points |
| DistanceFunctions.MaxMag | app/distanceFunctions.ts:60-71 | `maxMag` returns the point whose `mag2` is the first greatest positive one, and a new zero point when none is positive |
| DistanceFunctions.Compose | app/distanceFunctions.ts:251-264 | `df_transform` passes down its own transform without an outer one, and the outer one after its own otherwise |
| DistanceFunctions.Winner | app/distanceFunctions.ts:219-229 | the loop of `df_union.gradient` chooses a child index or nothing |
| DistanceFunctions.UnionEval | app/distanceFunctions.ts:212-218 | the loop of `df_union.eval`, lowering the running bound and the radius each child is given, computes the union's distance |
| DistanceFunctions.UnionGradient | app/distanceFunctions.ts:219-230 | the loop of `df_union.gradient` returns the gradient of the child it chose, or of the default empty function |
| DistanceFunctions.EmptyIsFarAway | app/distanceFunctions.ts:179-182 | `df_empty` is `+∞` away whatever it is asked, and its gradient is the stored one |
| DistanceFunctions.EmptyUnion | app/distanceFunctions.ts:210-230 | a union of no functions is `+∞` away and has gradient `(1, 0, 0)` |
| DistanceFunctions.DoubleInvert | app/distanceFunctions.ts:191-199 | inverting twice gives back the distance at radius `+∞` and the same gradient |
| DistanceFunctions.NestedTransforms | app/distanceFunctions.ts:249-264 | a transform inside a transform evaluates its function under the outer transform after the inner one, and under `t.after(outer).after(inner)` below a further `t` |
| DistanceFunctions.Distances | app/distanceFunctions.ts:214-215 | each child's distance at radius `+∞`, one per child and in order |
| DistanceFunctions.UnionFoldOfExact | app/distanceFunctions.ts:213-217 | when no child's distance depends on the radius, the union loop from any point keeps the minimum of the bound so far and the remaining children's distances |
| DistanceFunctions.AtMostIsTransitive | app/distanceFunctions.ts:215 | the order on distances with `+∞` is transitive |
| DistanceFunctions.UnionIsNearestChild | app/distanceFunctions.ts:212-218 | with children whose distances do not depend on the radius, a union's distance is at most every child's and equal to one of them, or `+∞` with no children |
| DistanceFunctions.WinnerOfExact | app/distanceFunctions.ts:222-228 | with such children, the gradient loop chooses exactly as `minMag`'s loop does over the children's distances |
| DistanceFunctions.UnionGradientIsFirstNearest | app/distanceFunctions.ts:219-230 | with such children, a union's gradient is that of its first nearest child, and `(1, 0, 0)` when every child is `+∞` away |
| DistanceFunctions.FirstLeastIsUnique | app/distanceFunctions.ts:53 | the strict `<` makes the chosen index unique: only one index is the first least |
| DistanceFunctions.EmptyAsWritten.constructor | app/distanceFunctions.ts:180 | a new `df_empty` holds a fresh gradient point `(1, 0, 0)` |
| DistanceFunctions.EmptyAsWritten.Gradient | app/distanceFunctions.ts:182 | `gradient` returns the stored point itself, not a copy |
| DistanceFunctions.InvertGradientAsWritten | app/distanceFunctions.ts:197-199 | `df_invert.gradient` over a `df_empty` returns the empty function's own stored point, negated in place |
| DistanceFunctions.InvertedGradientFlips | app/distanceFunctions.ts:197-199 | two calls of the inverted empty function's gradient return `(-1, 0, 0)` and then `(1, 0, 0)` |
| DistanceFunctions.InvertedGradientIsStable | app/distanceFunctions.ts:191-199 | the inverted empty function's gradient is the stored gradient negated on every call: `(-1, 0, 0)` for the default |
| Controls.Peg | app/controlers.ts:17-19 | `peg(n)` lies in `[-π/2, π/2]`, is `n` inside that range and the nearer bound outside it |
| Controls.DigitSpeedIsPowerOfTwo | app/controlers.ts:53-60 | the key `Digit`k selects the speed `2^(k-5)`, from 0.0625 to 8 |
| Controls.WithSpeed | app/controlers.ts:35-39 | `scaleSpeed(s)` sets speed `s`, acceleration `25s` and drag `12.5s`, and leaves the mouse flag and the held keys |
| Controls.BackquoteTogglesOnKeyDown | app/controlers.ts:43-52 | Backquote flips `mouseCaught` on a key-down without meta, and its key-up changes nothing, with or without meta |
| Controls.DigitKeySetsSpeed | app/controlers.ts:53-60 | a digit key-down without meta scales the speeds by its power of two and leaves the rest; its key-up changes nothing |
| Controls.MovementKeys | app/controlers.ts:176-191 | a movement key is held after a key-down without meta and released after any key-up, meta or not; a key-down with meta changes nothing |
| Controls.UnknownKeysAreIgnored | app/controlers.ts:176-191 | a code that is neither a control nor a callback changes nothing on key-down or key-up |
| Controls.FreeCam.constructor | app/controlers.ts:21-34 | a new free camera has speed 4, acceleration 100, drag 50, the mouse free, no key held and both angles 0 |
| Controls.FreeCam.ScaleSpeed | app/controlers.ts:35-39 | `scaleSpeed(s)` changes the state as `WithSpeed` says and leaves the angles |
| Controls.FreeCam.Callback | app/controlers.ts:42-63 | a callback changes the state as `OnCallback` says: only on key-down, Backquote toggles the mouse and a digit sets the speed |
| Controls.FreeCam.KeyDownCallback | app/controlers.ts:176-183 | a key-down sets the control's flag and runs its callback unless meta is held, as `OnFreeKeyDown` says, and leaves the angles |
| Controls.FreeCam.KeyUpCallback | app/controlers.ts:184-191 | a key-up clears the control's flag even under meta and runs its callback without meta, as `OnFreeKeyUp` says |
| Controls.FreeCam.MouseMoveCallback | app/controlers.ts:192-195 | the angles move by the mouse speed times the movement, and nothing else changes |
| Controls.IndexOf | app/controlers.ts:394 | the lookup of a control by its key code finds the first control with that code, or reports that none has it |
| Controls.FiringRule | app/controlers.ts:265-300 | a control that is not held, has no presses left, or whose condition is false leaves everything; one that fires counts `left` down when it has one and pushes the force and torque by its magnitude |
| Controls.OneShotFiresOncePerPress | app/controlers.ts:261-279 | KeyR, pressed, fires on the first step whose condition holds and on no later step until it is pressed again |
| Controls.RepeatingFiresEveryStep | app/controlers.ts:265-279 | a pressed control without `times` fires on every step whose condition holds and stays as it is |
| Controls.OnlyKeyRIsOneShot | app/controlers.ts:255-263 | KeyR is the one control with `times` (one jump per press); every other control repeats |
| Controls.JumpPushesAlongGroundNormal | app/controlers.ts:260-296 | a pressed jump key on the ground pushes the force along the unit ground normal by `jumpImpulse` times 100 (750) and leaves the torque; off the ground it does nothing |
| Controls.PressAndRelease | app/controlers.ts:393-403 | a key-down on a control holds it and resets `left` to `times`, a key-up releases it, other codes change nothing, and no control is added or lost |
| Controls.MarbleCam.constructor | app/controlers.ts:246-263 | a new marble camera holds the six controls, none held, its target and both angles 0 |
| Controls.MarbleCam.KeyDownCallback | app/controlers.ts:393-398 | a key-down presses the control as `Press` says and leaves the angles |
| Controls.MarbleCam.KeyUpCallback | app/controlers.ts:399-403 | a key-up releases the control as `Release` says and leaves the angles |
| Controls.MarbleCam.MouseMoveCallback | app/controlers.ts:389-392 | the angles move by the mouse speed times the movement, and the controls stay |
| Controls.MarbleCam.Step | app/controlers.ts:265-332 | `step()` runs every control in declaration order: each firing one pushes the marble's force and torque in place and counts down its `left`, as `StepFrom` says |
| Controls.MarbleCam.PushTarget | app/controlers.ts:288-326 | a firing control pushes the force along its direction (the unit ground normal for `"n"`) and the torque along its torque vector, scaled by its magnitude and turned into its frame, as `Push` says |
| Controls.AddTo | app/controlers.ts:292-298 | `addEq` on the marble's force or torque adds the pushed vector in place |
| MissionLoader.ParseBool | app/mbgloader.ts:43-45 | `parseBool(s)` is true exactly when `s` is not empty |
| MissionLoader.OnlyEmptyIsFalse | app/mbgloader.ts:43-45 | `"0"`, `"false"` and `"true"` all read as true; only the empty string reads as false |
| MissionLoader.Attach | app/mbgloader.ts:158-170 | closing the innermost open group leaves one open group fewer |
| MissionLoader.Apply | app/mbgloader.ts:158-173 | one step of the loop keeps at least the root open, or stops with the `TypeError` of pushing onto `undefined` once a `}` closes the root |
| MissionLoader.Run | app/mbgloader.ts:154-177 | a run of steps keeps at least one open group when it does not stop |
| MissionLoader.PutLeaf | app/mbgloader.ts:173 | adding a leaf keeps the number of open groups and is the step of a leaf event |
| MissionLoader.FoldSubs | app/mbgloader.ts:163-176 | the inner loop over a piece's subpieces keeps at least one open group when it does not stop |
| MissionLoader.FoldPieces | app/mbgloader.ts:154-177 | the outer loop over the pieces keeps at least one open group when it does not stop |
| MissionLoader.BuildTree | app/mbgloader.ts:151-177 | the balancing loop of `finish`, on the already-split pieces, with its explicit stack, computes `Build(pieces)`: the tree, or the error that stops it |
| MissionLoader.BalanceSubs | app/mbgloader.ts:163-176 | the inner loop over one piece's subpieces, from a given stack, computes `FoldSubs(start, subs, 0)`: each subpiece after the first closes the innermost group (the `stack[stack.length - 1] is undefined` TypeError when only the outermost is left), and each is then added as a leaf |
| MissionLoader.RunAppend | app/mbgloader.ts:154-177 | running two lists of steps is running the first, then the second from where it ended, unless the first stopped |
| MissionLoader.FoldSubsRuns | app/mbgloader.ts:163-176 | the inner loop does its subpieces' events in order: a leaf for each, preceded by a close for every subpiece but the first |
| MissionLoader.FoldPiecesRuns | app/mbgloader.ts:154-177 | the two loops do the pieces' events in order: an opening for every piece but the first, then its subpieces' events |
| MissionLoader.BuildRuns | app/mbgloader.ts:151-177 | `objectTree` is what the events make of a stack holding only the root list, with every group still open already inside its parent |
| MissionLoader.AttachKeeps | app/mbgloader.ts:170 | closing a group loses no leaf and no group |
| MissionLoader.ApplyKeeps | app/mbgloader.ts:158-173 | a step adds its leaf to the leaves, in order, and its opening to the groups |
| MissionLoader.RunKeeps | app/mbgloader.ts:154-177 | a run of steps adds exactly its events' leaves, in order, and its openings to the groups |
| MissionLoader.UnwindKeeps | app/mbgloader.ts:151-160 | the tree seen from the root holds every leaf of every open group, in order, and every group but the root |
| MissionLoader.EventCounts | app/mbgloader.ts:154-177 | the events hold every subpiece as a leaf, in order, and one opening per piece after the first |
| MissionLoader.LeavesKeepTextOrder | app/mbgloader.ts:164-173 | every subpiece becomes exactly one leaf of the tree, in the order of the text |
| MissionLoader.OneGroupPerPiece | app/mbgloader.ts:155-161 | every piece after the first becomes exactly one group of the tree |
| MissionLoader.RunFailsIffTooDeep | app/mbgloader.ts:163-173 | a run of steps stops exactly when some prefix of it closes more groups than were open |
| MissionLoader.FailsIffUnbalanced | app/mbgloader.ts:151-177 | the loop stops with an error exactly when, at some point of the text, more `}`-splits than `{`-pieces have been seen |

## Left out

- Floating point. The vector algebra, the physics and the distances are over `real`, so rounding, `NaN` and overflow are not modelled. Floats read from a file keep their bit patterns, and only negation and truthiness are interpreted.
- `mag`, `norm`, `normEq`, `clamp` and `clampEq` of app/3dTypes.ts need square roots and are not modelled. The axis-angle `Quaternion` constructor, `normalize` and `addVelocity(Eq)` need cos, sin and square roots and are not modelled either. The `ROOT_ZERO`/`ROOT_INFINITY` probing loops are out too, for the same reason.
- The marble's `angle.addVelocityEq` in `step` is not modelled (cos, sin and square roots). The marble's orientation is therefore not part of its state.
- `Vectors.SwingTimesTwist` takes the norm of the raw twist as a parameter `m` and requires it to normalize the twist, because the square root is not modelled.
- `Vectors.Point.CrossEq` is stated only for a point crossed with a different point. The case `p.crossEq(p)` is not stated.
- `Vectors.Mag2NonNegative` states that `mag2` is never negative. It does not state that `mag2` is 0 only for the zero vector.
- `Marble.Marble.constructor` requires the position and velocity to be different `Point` objects. The source's default `new Point()` always gives a fresh one; the case where both arguments are the same object is not modelled.
- Marble graphics: a custom graphic's `size` and the `animate`/mesh code of app/marble.ts are not modelled. The marble is the default marble, with size `DEFAULT_RADIUS`.
- The step callback is recorded by name: each step appends the attached callback to a log, and what a controller's callback does is modelled by `Controls.MarbleCam.Step` on its own.
- The world is a function from the marble's position and velocity to the collisions it reports. `ColMesh` and its raycasting (app/physics.ts:102-120) are not modelled.
- Collisions are values, so the identity of collision objects is not modelled. A `MovingColision` whose setter writes its base's `normal` is modelled by `Physics.SetNormal` on values.
- `Controls.MarbleCam.Step` requires every control's `scale` to name a member of the marble's data. The source's six controls all do. A control naming a missing member, which would give `NaN`, is not modelled.
- `Controls.MarbleCam.Step` takes the look rotation's twist about the vertical, the look rotation and the normalised ground normal as values, because they need square roots. The `cb` member of a control is never set in the source and is not modelled.
- `peg` uses `Math.PI / 2`. The model uses its double value, 1.5707963267948966, as an exact rational; the rounding of that double is not modelled.
- DOM, THREE and PIXI glue is not modelled: event listeners, mouse capture, `attach`/`detach` of the cameras, `MarbleCam.animate` with its raycast, and `FreeCam.physics` with its quaternion rotation and square-root drag.
- DistanceFunctions.UnionGradient: gradients are returned as values, so the identity of the returned `Point` is not modelled. The union's default is not modelled as the single static `df_union.defaultDf` (app/distanceFunctions.ts:210, 221) that every union shares. `df_transform.gradient` handing its child's point object through (app/distanceFunctions.ts:258-263) is not modelled either. So the in-place flip of the Finding below is modelled only for a `df_invert` directly over a `df_empty` (`DistanceFunctions.InvertedGradientFlips`). Under `new df_invert(new df_union([]))` the flip reaches the shared default, and every later union whose children are all `+∞` away returns the flipped gradient.
- Distance functions: the leaf shapes (`df_Tri` and the finite-difference `gradient`) are answered by functions the caller supplies. Affine transforms are opaque values, composed only by `after`. `Box`, `Sphere` and the bounding getters are not part of this model.
- The convex hull kernel, `Plane`, `Box`, `Sphere`, `Color` and `AffineTransform` are not part of this model. A plane is the pair of arguments `new Plane(normal, distance)` is given, a hull is the list of planes given to `addPlanes`, and `Interior.graphic` is not modelled.
- The regular-expression splitting is taken as input, not modelled as a regular-expression engine. This covers the line split of `defStructsFromSpec` (app/difLoader.ts:226) and the splits at `{`, `}` and `;` in `MisLoader.finish` (app/mbgloader.ts:143-146, 173).
- Key order: a `DifValues.Rec` record keeps its keys in insertion order. JavaScript enumerates keys that are array indices ("0", "7") first, in ascending order, and only then the other keys in insertion order. So for a record with such keys, the order `Object.keys` and `for…in` see (app/difLoader.ts:84, 91, 107) can differ from the model's.
- DifValues.Put: keeps insertion order; for a key that is an array index, JavaScript places it among the index keys in ascending order instead.
- DifValues.KeysAfterPut: states that a new key is added last, which holds in JavaScript only for keys that are not array indices.
- DifReadFacts.FieldsKeepDefinitionOrder: states definition order for the keys read; JavaScript lists array-index keys first, so it holds there only for definitions whose field names are not array indices.
- DifReadFacts.RecordKeysInDefinitionOrder: holds in JavaScript only for definitions whose field names are not array indices, for the same reason.
- DifLoader.Dat.StructDependencies: returns the dependency names as a set. The order of the array `Object.keys(deps)` gives, with array-index names first, is not modelled.
- DifLoader.Dat.ListNeededStructDefs: returns the missing names as a set. The order of the array `Object.keys(n)` gives is not modelled, and neither is the order in which `for…in` visits the definitions.
- The loaded classes of app/difParser.ts are modelled with TypeScript's legacy class-field semantics. `Parse`'s constructor runs `load` (app/difParser.ts:55-58) before a subclass's field declarations such as `x: number;` (app/difParser.ts:116-118) would take effect. The model's fields keep what `load` stored; the `useDefineForClassFields` behaviour, which would reset them to `undefined` after `super()`, is not modelled.
- The `post` hooks of struct definitions are not modelled. No definition built by the loader's compilers carries one.
- In JavaScript, some finalizer inputs give `undefined` or `NaN` and the code goes on. Examples are an out-of-range array read, an element named by text, a lone surrogate in a string, and unary minus of a value that is not a number (app/difFinalizers.ts:198 gives `NaN` for `-undefined`). The model stops there with an error (`Undefined` or `Unmodelled`) rather than carrying `undefined` or `NaN` further.
- Recursion depth: `readStruct` over nested or cyclic struct definitions is given a `fuel` bound. Running out of fuel is an explicit `StackOverflow` error, standing for the JavaScript stack overflow; the stack size itself is not modelled.
- I/O is not modelled: `DifReader` with its `fs.readFileSync` (app/difLoader.ts:368-388), the `MisLoader.load` streams, and reading the struct description file.
- `parseNumList` and `parseNumber` parse floats through unary `+` and are not modelled. `parseRecursively`, `parseTree` and the mission object classes are not modelled either.
- In `MisLoader.finish`, the stack's entries are the very arrays that sit inside the tree. The model keeps the open groups as values and closes each into its parent on `}` or at the end, which gives the same tree; the aliasing itself is not modelled.

## Findings

| source | as written | input that shows it | evidently intended | confidence | as-written member | corrected member |
|---|---|---|---|---|---|---|
| app/difFinalizers.ts:324-329 | `getPlane(i)` with the bit `0x8000` set negates the stored plane's normal but keeps its distance, which moves the plane to the mirror position | the plane `z = 1` (normal `(0, 0, 1)`, distance 1) asked for with index `0x8000`: `(0, 0, 1)` lies on it and not on the result | the same plane facing the other way: negate the normal and the distance, as `PlaneF.inverted` does at app/difParser.ts:171 | high, not executed | DifFinalizers.InvertedPlaneAsWrittenMovesIt | DifFinalizers.InvertedPlaneHasSamePoints |
| app/difParser.ts:156-162 | `new PlaneF(normal, dis)` tests `dis` for truthiness, so a distance of `0`, `-0` or `NaN` takes the loading path and calls `load` on a `Point3F`, which throws | a plane through the origin, with distance 0; inverting a loaded plane whose distance is `-0` builds one with distance `+0` | store the normal and the distance whenever a distance is given (`dis != null`) | high, not executed | DifParser.PlaneThroughOriginFails | DifParser.NewPlaneInvertsTwice |
| app/distanceFunctions.ts:197-199 | `df_invert.gradient` negates in place (`negEq`) the point its child returns, and `df_empty.gradient` returns its stored `grad` itself, so every call flips the stored gradient | `new df_invert(new df_empty())`: the first `gradient` call gives `(-1, 0, 0)`, the second `(1, 0, 0)`; with `new df_invert(new df_union([]))` each call flips the shared `df_union.defaultDf`, so after one call every union of far-away children has gradient `(-1, 0, 0)` | return the negation of the child's gradient without changing it (`neg()`) | high, not executed | DistanceFunctions.InvertedGradientFlips | DistanceFunctions.InvertedGradientIsStable |

The loaders and the `Interior` finalizer follow the code as written. The plane loop and `inverted` build planes through `DifParser.NewPlaneF`, which fails as `NewPlaneAsWritten` does. The hulls take their planes from `DifFinalizers.GetPlaneAsWritten`. The corrected definitions, `DifParser.NewPlane` and `DifFinalizers.GetPlane`, are proved beside them. `DifParser.NewPlaneAgreesOnTruthy` and `DifFinalizers.GetPlaneAsWrittenAgainstIntended` relate each one to the code as written.
