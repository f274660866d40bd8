# Credits data encoder

A Dafny model of the generator that turns a subscriber list into the credits
data of an NES game (`generate-credits.go`). The generator emits 6502
assembler `.byte` data in a small opcode-tagged byte-code that the game's
credits routine draws row by row. The byte-code has six operations:

- EOD: end of data.
- CLEAR_ROW: clear a 32-tile row.
- INC_BYTE(n, b): n tiles b, b+1, ….
- RLE(n, b): n copies of tile b.
- BYTE_LIST(bytes): the tiles listed, terminated by `$00`.
- ATTR(b): the attribute byte of a chunk.

A *chunk* is either fixed artwork (a `GenericChunk`, a list of operations
whose lengths must sum to at most 64 tiles, i.e. two rows) or a name row (a
`Subscriber`, a name centred in one 32-tile row with blank `$20` tiles). The
generator reads the subscriber records and drops the names on an exclude
list and the rows that do not parse. It then lays out header artwork ++ one
name row per entry ++ footer artwork. It writes an index table with one entry
per chunk, then each chunk's block followed by an ATTR directive holding the
packed attribute byte `v << 2 | v`.

Modules:

- `Wrappers` (wrappers.dfy): `Run` (a value, or a Go panic that ends the run) and `Result` (Go's returned error).
- `Ops` (ops.dfy): opcodes, `GenericData`, its constructor, and its serialiser. It also has a reference reader for the serialised form.
- `Chunks` (chunks.dfy): artwork chunks and the 64-tile budget, name rows and centring, attribute packing, and the fixed header and footer artwork.
- `Entries` (entries.dfy): ASCII lower-casing, row parsing (`NewSub`) and the exclusion filter.
- `Credits` (credits.dfy): chunk assembly, the index table, the ATTR lines and the whole run.

Assembler text is modelled abstractly. A directive is a sequence of items:
a symbol (`CR_OP_RLE`), a decimal number, a `$XX` hex value or a quoted
string. A block is a chunk's optional comment, its label number and its
directives.

Points where the code behaves in a way its own names and comments do not
suggest; the model follows the code:

- The exclude entries are compared case-sensitively with the lower-cased name (`generate-credits.go:273`). Only the record's name is lower-cased, so an entry holding a capital letter never matches anything; excluding `Alice` keeps the row `Alice`.
- The centring check of a name row (`generate-credits.go:190-193`) can never fire: the two pads and the name always sum to 32. A name longer than 32 bytes does not halt the run; it gets a negative trailing pad.
- A name row is CLEAR_ROW, RLE, BYTE_LIST, RLE (`generate-credits.go:178-182`).
- CLEAR_ROW is commented `// Clear 32 tiles` (`generate-credits.go:28`), yet its Length is 0, so it counts no tile towards the 64-tile budget.
- An empty tier field is not tier 1: slicing its first byte (`generate-credits.go:168`) panics and ends the run.
- An artwork chunk's attribute is its own `Attribute` field (`generate-credits.go:62-64`); it is 0 in every chunk the generator builds.

## Model

| member | source | states |
|---|---|---|
| Ops.NewGenericData | generate-credits.go:77-117 | INC_BYTE and RLE succeed iff the length is non-zero and there is exactly one data byte, and then keep both. BYTE_LIST succeeds iff data is non-empty, with Length = number of bytes. ATTR succeeds iff there is exactly one byte, with Length 0. Every other opcode ignores its arguments and gives Length 0 and no data. Every result is well-formed. |
| Ops.WellFormedIsConstructed | generate-credits.go:77-117 | The well-formed operations are exactly the values the constructor returns from their own fields. |
| Ops.DataAsmString | generate-credits.go:119-144 | Rendering succeeds iff the opcode is one of the six defined ones and INC_BYTE, RLE and ATTR have a data byte to read. The tag comes first. INC_BYTE and RLE give the length then the one byte. ATTR gives its byte. BYTE_LIST gives every payload byte in order and then a single `$00`. |
| Ops.ConstructedRenders | generate-credits.go:119-144 | Every operation the constructor accepts with a defined opcode renders without panicking. |
| Ops.RenderedOpReadsBack | generate-credits.go:119-144 | For every well-formed operation with a defined opcode, a reader of the `.byte` line gets the operation back iff it is not a byte list containing a `$00` byte. |
| Ops.ZeroByteEndsByteList | generate-credits.go:133-138 | Example: the byte list `$41 $00 $42` reads back as the byte list `$41`, because its terminator is not escaped. |
| Chunks.AllLines | generate-credits.go:44-46 | The operations of a chunk render, one directive per operation in order, iff each one renders. Otherwise the run panics with the message of the first failing operation. |
| Chunks.GenericChunkAsmString | generate-credits.go:41-60 | The loop renders each operation and sums the Length fields. It yields exactly the specified block: a panic from the first operation that fails, or the budget panic when the sum exceeds 64. Otherwise the block carries its comment (if any), its label and the directives. |
| Chunks.ChunkBudgetRule | generate-credits.go:41-51 | For operations built by the constructor with defined opcodes, an artwork chunk renders iff their Length sum is at most 64. It then renders one directive per operation, in order, under the given label. |
| Chunks.ClearRowCountsNothing | generate-credits.go:44-47 | Appending a CLEAR_ROW leaves a chunk's counted length unchanged. |
| Chunks.SubscriberAsmString | generate-credits.go:184-198 | A name row never panics. Its directives are CLEAR_ROW, RLE(lead, `$20`), the name as a byte list ended by `$00`, and RLE(trail, `$20`). lead + length + trail = 32 for every name. lead − trail = length mod 2, so odd names lean one tile right. For names of at most 32 bytes both pads are non-negative; for longer names the trailing pad is negative. |
| Chunks.ChunkText | generate-credits.go:19-23 | A chunk of either kind that renders is labelled with the number it was rendered under. |
| Chunks.DataChunkAsmString | generate-credits.go:19-23 | Rendering a chunk of either kind gives exactly its specified rendering `ChunkText`. So an artwork chunk obeys the budget rule, a name row is centred, and the block carries the label it was rendered under. |
| Chunks.SubscriberAttribute | generate-credits.go:200-202 | A name row's value is tier − 1, converted to unsigned 64 bits (tier 0 wraps to 2^64 − 1). |
| Chunks.AttributeValue | generate-credits.go:62-64 | An artwork chunk's attribute value is its own Attribute field; a name row's is its tier − 1. |
| Chunks.Pack | generate-credits.go:468-469 | The attribute byte `v << 2 OR v` on unsigned 64-bit values is 5·v for every 2-bit value v. |
| Chunks.PackDuplicates | generate-credits.go:468-469 | For a value v ≤ 3, v shifted left by 2 and OR-ed with v holds v in bits 0-1 and again in bits 2-3, so the byte is at most 15. |
| Chunks.TierAttributeByte | generate-credits.go:200-202 | Tiers 1, 2 and 3 give the attribute bytes `$00`, `$05` and `$0A`. |
| Chunks.HeaderTopFillsBudget | generate-credits.go:382-401 | The top half of the header counts exactly 64 tiles, the whole budget. |
| Chunks.HeaderBottomCountsOneRow | generate-credits.go:403-418 | The bottom half of the header counts 32 tiles; its CLEAR_ROW counts none. |
| Chunks.HeaderChunks | generate-credits.go:371-419 | The header is three artwork chunks, each with attribute 0. |
| Chunks.FooterChunks | generate-credits.go:421-447 | The footer is four chunks. Chunk 1 is the "Thank you!!" name row of tier 1, dated at the moment of the run. The other three are artwork chunks of two operations each, with attribute 0. |
| Chunks.ArtworkRenders | generate-credits.go:371-447 | Every header and footer chunk renders under any label and has attribute value 0. |
| Entries.ToLower | generate-credits.go:273 | Lower-casing keeps the length and leaves no ASCII capital. It leaves every other character unchanged and maps each capital to its lower-case letter. |
| Entries.NewSub | generate-credits.go:152-176 | A row with fewer than 3 fields, or with a timestamp that does not parse, is a returned error. An empty tier field panics. Every other row parses: the username is field 0 unchanged and the timestamp is the parsed one. The tier is 2 iff the third field starts with '2', 3 iff it starts with '3', and 1 otherwise. |
| Entries.IsExcluded | generate-credits.go:271-276 | The loop over the exclude entries sets the flag iff the lower-cased name equals some entry exactly. It panics iff the exclude list is non-empty and the row has no field. |
| Entries.RowOutcome | generate-credits.go:271-284 | A row without fields panics when the exclude list is non-empty. An excluded row yields nothing without being parsed. Any other row panics iff parsing it panics, and yields a subscriber iff it parses. A yielded subscriber is what parsing gives, and its lower-cased name is not excluded. |
| Entries.Survivors | generate-credits.go:270-285 | The rows go through iff no row panics, and they yield at most one subscriber per row. |
| Entries.FilterRecords | generate-credits.go:270-285 | An empty record list panics. Otherwise the header record is skipped and the loop yields exactly the specified survivors of the remaining records. In that specification an excluded row is dropped before it is parsed. |
| Entries.SurvivorsAppend | generate-credits.go:270-285 | Filtering a + b yields the survivors of a followed by those of b, with the first panic winning. So surviving rows keep their input order. |
| Entries.SurvivorsNotExcluded | generate-credits.go:270-285 | No surviving subscriber's lower-cased name is on the exclude list, and every survivor has tier 1, 2 or 3. |
| Entries.CapitalisedEntryNeverMatches | generate-credits.go:273 | An exclude entry containing an ASCII capital letter never equals a lower-cased name. |
| Entries.ExcludeLowerCaseEntry | generate-credits.go:270-285 | Example: excluding `bob` drops the row `Bob` and keeps `Carol` with tier 3. |
| Entries.ExcludeEntryIsNotLowerCased | generate-credits.go:272-276 | Example: excluding `Alice` keeps the row `Alice`. |
| Credits.AllChunks | generate-credits.go:449-450 | The chunk list is the header, then one name row per subscriber in order, then the footer. |
| Credits.AttrLine | generate-credits.go:466-487 | A chunk's ATTR directive holds one hex value. It is `$00` for an artwork chunk of attribute 0, and `$00`, `$05` or `$0A` for a name row of tier 1, 2 or 3. |
| Credits.Assemble | generate-credits.go:458-491 | Assembly succeeds iff every chunk renders under its own index; otherwise it panics with the first failure. On success the index table has one entry per chunk and entry i names chunk i. Chunk i's block is followed by exactly one ATTR directive with its packed attribute byte. The count equals the number of chunks. |
| Credits.EntriesRender | generate-credits.go:449-472 | When the header and footer render under any label, every chunk of header ++ entries ++ footer renders. An entry of tier t gets attribute byte 5·(t − 1). |
| Credits.EntryBodies | generate-credits.go:449-487 | In an assembled listing, entry k is the name row of the k-th subscriber under label header + k, followed by its tier's ATTR byte. |
| Credits.GenerateCredits | generate-credits.go:449-493 | A run on no records panics. A filter panic is the run's panic. Otherwise the run never panics and emits 3 + n + 4 chunks for n survivors. The index table has one entry per chunk, and entry i names chunk i. Every chunk i of header ++ entries ++ footer renders under label i and is followed by its ATTR line. Chunk 3 + k is the name row of the k-th survivor, with attribute byte `$00`, `$05` or `$0A`. |

## Left out

- Command-line flags, the optional/required input conflicts, and splitting the `-x` list on commas: configuration glue ending in `os.Exit`. The model takes the exclude entries as a list.
- File I/O: checking that the input exists, opening it, reading it as CSV, creating the output file and writing to it. These are foreign calls; the model takes the records as a list of rows and returns the output as a value. When a chunk panics part-way through, the file already holds the index table and the earlier chunks; the model returns only the panic.
- The CSV reader's own rules, such as every record having the same number of fields: not part of this model.
- RFC 3339 timestamp parsing: a library call. It is the parameter `parse`, whose failure is the returned error.
- The hard-coded dummy name list and the switch to it when no input file exists: test data. `Assemble` and `EntriesRender` hold for any subscriber list.
- Entries.ToLower: does not model Unicode case folding; only `A`–`Z` are lowered.
- Chunks.SubscriberAsmString: measures a name in characters, whereas Go's `len` counts UTF-8 bytes. The two agree for ASCII names.
- Chunks.GenericChunkAsmString: sums the Length fields as unbounded integers. Go's `int` is 64 bits, so a sum past 2^63 would wrap around and could pass the budget test where the model panics. The label number and the pad widths of a name row are likewise unbounded.
- Exact text layout: the `%02d` labels, `%02X` hex formatting, comment lines and indentation. Directives are sequences of abstract items.
- Verbose logging, the `String()` methods, and the commented-out bit-swap and per-tier attribute code.
