/**
 * The chunks of the credits screen. A chunk is either fixed artwork
 * (GenericChunk: a list of operations within a budget of 64 tiles, two rows
 * of 32) or a name row (Subscriber: a name centred in one 32-tile row). Each
 * chunk renders as one labelled block and carries a 2-bit attribute value.
 */
module Chunks {
  import opened Wrappers
  import opened Ops

  type uint64 = x: int | 0 <= x < 0x1_0000_0000_0000_0000

  /** The moment an entry subscribed; nothing in the encoding looks inside it. */
  type Instant = int

  /** Tiles in one screen row. */
  const RowWidth := 32

  /** Tiles a fixed-artwork chunk may count: two rows. */
  const ChunkBudget := 64

  /** The blank tile the name rows are padded with. */
  const ClearTile: byte := 0x20

  datatype GenericChunk = GenericChunk(comment: string, opCodes: seq<GenericData>, attribute: uint64)

  datatype Subscriber = Subscriber(username: string, since: Instant, tier: int)

  /** The two kinds of chunk the assembler orders. */
  datatype DataChunk = Generic(chunk: GenericChunk) | Sub(sub: Subscriber)

  /** A rendered chunk: an optional comment, the label `credits_data_chunk_<index>`, and its directives. */
  datatype Block = Block(comment: Option<string>, index: int, lines: seq<Line>)

  /** The tiles the operations of a chunk are counted as emitting (their Length fields). */
  function TotalLength(ops: seq<GenericData>): int
  {
    if ops == [] then 0 else TotalLength(ops[..|ops| - 1]) + ops[|ops| - 1].length
  }

  /**
   * The directives of a list of operations, rendered in order; the first
   * operation that cannot be rendered panics.
   */
  function AllLines(ops: seq<GenericData>): (r: Run<seq<Line>>)
    ensures r.Ok? <==> forall i :: 0 <= i < |ops| ==> DataAsmString(ops[i]).Ok?
    ensures r.Ok? ==>
      && |r.value| == |ops|
      && forall i :: 0 <= i < |ops| ==> r.value[i] == DataAsmString(ops[i]).value
    ensures r.Panic? ==>
      exists j :: 0 <= j < |ops| && DataAsmString(ops[j]) == Panic(r.message) &&
        forall k :: 0 <= k < j ==> DataAsmString(ops[k]).Ok?
  {
    if ops == [] then Ok([])
    else
      var prefix := ops[..|ops| - 1];
      assert forall i :: 0 <= i < |prefix| ==> prefix[i] == ops[i];
      match AllLines(prefix)
      case Panic(m) => Panic(m)
      case Ok(ls) =>
        match DataAsmString(ops[|ops| - 1])
        case Panic(m) => Panic(m)
        case Ok(l) => Ok(ls + [l])
  }

  /** What rendering a fixed-artwork chunk yields. */
  function GenericChunkText(c: GenericChunk, num: int): Run<Block>
  {
    match AllLines(c.opCodes)
    case Panic(m) => Panic(m)
    case Ok(lines) =>
      if TotalLength(c.opCodes) > ChunkBudget then Panic("Generic code chunk length greater than 64")
      else Ok(Block(if |c.comment| > 0 then Some(c.comment) else None, num, lines))
  }

  /**
   * Renders a fixed-artwork chunk: renders every operation in order while
   * summing their lengths, then panics when the sum exceeds the budget.
   */
  method GenericChunkAsmString(c: GenericChunk, num: int) returns (r: Run<Block>)
    ensures r == GenericChunkText(c, num)
  {
    var length := 0;
    var codestrings: seq<Line> := [];
    var i := 0;
    while i < |c.opCodes|
      invariant 0 <= i <= |c.opCodes|
      invariant length == TotalLength(c.opCodes[..i])
      invariant AllLines(c.opCodes[..i]) == Ok(codestrings)
    {
      var code := c.opCodes[i];
      var line := DataAsmString(code);
      if line.Panic? {
        assert forall k :: 0 <= k < i ==> c.opCodes[..i][k] == c.opCodes[k];
        return Panic(line.message);
      }
      assert c.opCodes[..i + 1][..i] == c.opCodes[..i];
      codestrings := codestrings + [line.value];
      length := length + code.length;
      i := i + 1;
    }
    assert c.opCodes[..i] == c.opCodes;
    if length > ChunkBudget {
      return Panic("Generic code chunk length greater than 64");
    }
    var comment := if |c.comment| > 0 then Some(c.comment) else None;
    r := Ok(Block(comment, num, codestrings));
  }

  /**
   * For operations the constructor built with defined opcodes, a fixed-artwork
   * chunk renders exactly when their lengths sum to at most 64, and then
   * renders one directive per operation, in order, under label `num`.
   */
  lemma ChunkBudgetRule(c: GenericChunk, num: int)
    requires forall op :: op in c.opCodes ==> WellFormed(op) && Defined(op.opCode)
    ensures GenericChunkText(c, num).Ok? <==> TotalLength(c.opCodes) <= ChunkBudget
    ensures GenericChunkText(c, num).Ok? ==>
      var b := GenericChunkText(c, num).value;
      b.index == num && |b.lines| == |c.opCodes| &&
      forall i :: 0 <= i < |c.opCodes| ==> b.lines[i] == DataAsmString(c.opCodes[i]).value
  {
    forall i | 0 <= i < |c.opCodes|
      ensures DataAsmString(c.opCodes[i]).Ok?
    {
      assert c.opCodes[i] in c.opCodes;
    }
  }

  /** An operation list with a clear-row appended counts no more tiles, although a clear-row fills a row. */
  lemma ClearRowCountsNothing(ops: seq<GenericData>)
    ensures TotalLength(ops + [GenericData(OpClearRow, 0, [])]) == TotalLength(ops)
  {
    assert (ops + [GenericData(OpClearRow, 0, [])])[..|ops|] == ops;
  }

  /**
   * Renders a name row: a clear-row, then an RLE of blank tiles, the name
   * as a byte list, and another RLE of blank tiles. The two pads and the name
   * always add up to one row, so the length check never panics; a name of at
   * most 32 bytes gets pads that are not negative, the leading pad exceeding
   * the trailing one by the parity of the name's length; a longer name gets a
   * negative trailing pad.
   */
  function SubscriberAsmString(s: Subscriber, num: int): (r: Run<Block>)
    ensures r.Ok?
    ensures r.value.comment == None && r.value.index == num && |r.value.lines| == 4
    ensures r.value.lines[0] == [Sym("CR_OP_CLEAR_ROW")]
    ensures r.value.lines[2] == [Sym("CR_OP_BYTE_LIST"), Str(s.username), Hex(0)]
    ensures |r.value.lines[1]| == 3 && r.value.lines[1][0] == Sym("CR_OP_RLE") &&
      r.value.lines[1][1].Dec? && r.value.lines[1][2] == Hex(ClearTile)
    ensures |r.value.lines[3]| == 3 && r.value.lines[3][0] == Sym("CR_OP_RLE") &&
      r.value.lines[3][1].Dec? && r.value.lines[3][2] == Hex(ClearTile)
    ensures var lead, trail := r.value.lines[1][1].n, r.value.lines[3][1].n;
      && lead + |s.username| + trail == RowWidth
      && lead - trail == |s.username| % 2
      && (|s.username| <= RowWidth ==> lead >= 0 && trail >= 0)
      && (|s.username| > RowWidth ==> trail < 0)
  {
    var length := |s.username|;
    var half := length / 2;
    var offset := 16 - half;
    var trailing := RowWidth - (offset + length);
    var chunkLength := length + offset + trailing;
    if chunkLength != RowWidth then Panic("Chunklength is not 64 bytes")
    else
      Ok(Block(None, num, [
        [Sym("CR_OP_CLEAR_ROW")],
        [Sym("CR_OP_RLE"), Dec(offset), Hex(ClearTile)],
        [Sym("CR_OP_BYTE_LIST"), Str(s.username), Hex(0)],
        [Sym("CR_OP_RLE"), Dec(trailing), Hex(ClearTile)]]))
  }

  /** What rendering any chunk yields. */
  function ChunkText(c: DataChunk, num: int): (r: Run<Block>)
    ensures r.Ok? ==> r.value.index == num
  {
    match c
    case Generic(g) => GenericChunkText(g, num)
    case Sub(s) => SubscriberAsmString(s, num)
  }

  /** Renders any chunk, as the chunk's own AsmString does. */
  method DataChunkAsmString(c: DataChunk, num: int) returns (r: Run<Block>)
    ensures r == ChunkText(c, num)
  {
    match c
    case Generic(g) => r := GenericChunkAsmString(g, num);
    case Sub(s) => r := SubscriberAsmString(s, num);
  }

  /**
   * A name row's attribute value: its tier minus one, converted to an
   * unsigned 64-bit integer (tier 0 wraps to the largest value).
   */
  function SubscriberAttribute(s: Subscriber): (v: uint64)
    ensures 1 <= s.tier <= 0x1_0000_0000_0000_0000 ==> v == s.tier - 1
    ensures s.tier == 0 ==> v == 0xFFFF_FFFF_FFFF_FFFF
  {
    (s.tier - 1) % 0x1_0000_0000_0000_0000
  }

  /** The attribute value of a chunk: an artwork chunk's own attribute, or a name row's. */
  function AttributeValue(c: DataChunk): (v: uint64)
    ensures c.Generic? ==> v == c.chunk.attribute
    ensures c.Sub? && 1 <= c.sub.tier <= 0x1_0000_0000_0000_0000 ==> v == c.sub.tier - 1
  {
    match c
    case Generic(g) => g.attribute
    case Sub(s) => SubscriberAttribute(s)
  }

  /**
   * The attribute byte `v << 2 | v`, computed on unsigned 64-bit integers;
   * for a 2-bit value v it is 5 * v.
   */
  function Pack(v: uint64): (r: uint64)
    ensures v <= 3 ==> r == 5 * v
  {
    var p := (((v as bv64) << 2) | (v as bv64)) as int;
    assert v == 0 ==> p == 0;
    assert v == 1 ==> p == 5;
    assert v == 2 ==> p == 10;
    assert v == 3 ==> p == 15;
    p
  }

  /** For a 2-bit value, the packed byte holds the value twice: in bits 0-1 and in bits 2-3. */
  lemma PackDuplicates(v: uint64)
    requires v <= 3
    ensures Pack(v) % 4 == v && Pack(v) / 4 == v && Pack(v) <= 15
  {
  }

  /** Tiers 1, 2 and 3 give the attribute bytes $00, $05 and $0A. */
  lemma TierAttributeByte(s: Subscriber)
    requires 1 <= s.tier <= 3
    ensures Pack(AttributeValue(Sub(s))) == 5 * (s.tier - 1)
  {
    PackDuplicates(AttributeValue(Sub(s)));
  }

  /** An operation of the fixed artwork, built by the constructor; the requires is checked at each call. */
  function Built(code: OpCode, length: int, data: seq<byte>): GenericData
    requires NewGenericData(code, length, data).Ok?
  {
    NewGenericData(code, length, data).value
  }

  /** An artwork chunk of two clear-rows. */
  function BlankChunk(comment: string): DataChunk
  {
    Generic(GenericChunk(comment, [Built(OpClearRow, 0, []), Built(OpClearRow, 0, [])], 0))
  }

  /** The chunks before the entries: a blank row and the two halves of the logo header. */
  function HeaderChunks(): (r: seq<DataChunk>)
    ensures |r| == 3
    ensures forall i :: 0 <= i < 3 ==> r[i].Generic? && r[i].chunk.attribute == 0
  {
    [ BlankChunk("Blank row before header"),
      Generic(GenericChunk("Top half of header", [
        Built(OpRle, 7, [0x20]),
        Built(OpIncByte, 3, [0x10]),
        Built(OpIncByte, 6, [0x02]),
        Built(OpRle, 23, [0x20]),
        Built(OpIncByte, 3, [0x13]),
        Built(OpIncByte, 15, [0x80]),
        Built(OpRle, 7, [0x20])], 0)),
      Generic(GenericChunk("Bottom half of header", [
        Built(OpRle, 7, [0x20]),
        Built(OpIncByte, 3, [0x16]),
        Built(OpIncByte, 15, [0x90]),
        Built(OpRle, 7, [0x20]),
        Built(OpClearRow, 0, [])], 0)) ]
  }

  /**
   * The chunks after the entries: blank rows around a closing "Thank you!!"
   * name row of tier 1, dated at the moment of the run.
   */
  function FooterChunks(now: Instant): (r: seq<DataChunk>)
    ensures |r| == 4
    ensures forall i :: 0 <= i < 4 && i != 1 ==> r[i].Generic? && r[i].chunk.attribute == 0 && |r[i].chunk.opCodes| == 2
    ensures r[1].Sub? && r[1].sub.username == "Thank you!!" && r[1].sub.tier == 1 && r[1].sub.since == now
  {
    [ BlankChunk("Bottom padding for Attribute"),
      Sub(Subscriber("Thank you!!", now, 1)),
      BlankChunk("Bottom padding for Attribute"),
      BlankChunk("Bottom padding for Attribute") ]
  }

  lemma TotalLengthStep(ops: seq<GenericData>, k: nat)
    requires k < |ops|
    ensures TotalLength(ops[..k + 1]) == TotalLength(ops[..k]) + ops[k].length
  {
    assert ops[..k + 1][..k] == ops[..k];
  }

  lemma BlankChunkCountsNothing(comment: string)
    ensures TotalLength(BlankChunk(comment).chunk.opCodes) == 0
  {
    var ops := BlankChunk(comment).chunk.opCodes;
    TotalLengthStep(ops, 0);
    assert ops[..0] == [] && ops[..2] == ops;
  }

  /** The header's top half counts exactly the 64-tile budget. */
  lemma HeaderTopFillsBudget()
    ensures TotalLength(HeaderChunks()[1].chunk.opCodes) == ChunkBudget
  {
    var top := HeaderChunks()[1].chunk.opCodes;
    TotalLengthStep(top, 0); TotalLengthStep(top, 1); TotalLengthStep(top, 2); TotalLengthStep(top, 3);
    TotalLengthStep(top, 4); TotalLengthStep(top, 5); TotalLengthStep(top, 6);
    assert top[..0] == [] && top[..7] == top;
  }

  /** The header's bottom half counts 32 tiles, its clear-row counting none. */
  lemma HeaderBottomCountsOneRow()
    ensures TotalLength(HeaderChunks()[2].chunk.opCodes) == RowWidth
  {
    var bottom := HeaderChunks()[2].chunk.opCodes;
    TotalLengthStep(bottom, 0); TotalLengthStep(bottom, 1); TotalLengthStep(bottom, 2);
    TotalLengthStep(bottom, 3); TotalLengthStep(bottom, 4);
    assert bottom[..0] == [] && bottom[..5] == bottom;
  }

  /** Chunks that render under every label, with attribute value 0. */
  ghost predicate RenderAnywhere(cs: seq<DataChunk>)
  {
    forall i, num :: 0 <= i < |cs| ==> ChunkText(cs[i], num).Ok? && AttributeValue(cs[i]) == 0
  }

  /** Every header and footer chunk renders under any label, with attribute 0 (the closing name row has tier 1). */
  lemma ArtworkRenders(now: Instant)
    ensures RenderAnywhere(HeaderChunks()) && RenderAnywhere(FooterChunks(now))
  {
    var h := HeaderChunks();
    var f := FooterChunks(now);
    BlankChunkCountsNothing("Blank row before header");
    BlankChunkCountsNothing("Bottom padding for Attribute");
    HeaderTopFillsBudget();
    HeaderBottomCountsOneRow();
    forall i, num | 0 <= i < |h|
      ensures ChunkText(h[i], num).Ok? && AttributeValue(h[i]) == 0
    {
      ChunkBudgetRule(h[i].chunk, num);
    }
    forall i, num | 0 <= i < |f|
      ensures ChunkText(f[i], num).Ok? && AttributeValue(f[i]) == 0
    {
      if f[i].Generic? {
        ChunkBudgetRule(f[i].chunk, num);
      }
    }
  }
}
