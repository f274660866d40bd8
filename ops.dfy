/**
 * One operation of the credits byte-code (GenericData): an opcode, the number
 * of tiles the operation is counted as emitting, and its payload bytes; the
 * constructor that validates the payload, and the serialiser that renders an
 * operation as one `.byte` directive.
 */
module Ops {
  import opened Wrappers

  type byte = x: int | 0 <= x < 256

  /** An opcode is a plain integer; six values are defined. */
  type OpCode = int

  const OpEod: OpCode := 0
  const OpClearRow: OpCode := 1
  const OpIncByte: OpCode := 2
  const OpRle: OpCode := 3
  const OpByteList: OpCode := 4
  const OpAttr: OpCode := 5

  predicate Defined(code: OpCode) {
    OpEod <= code <= OpAttr
  }

  /** The assembler symbol of a defined opcode. */
  function OpName(code: OpCode): string
    requires Defined(code)
  {
    if code == OpEod then "CR_OP_EOD"
    else if code == OpClearRow then "CR_OP_CLEAR_ROW"
    else if code == OpIncByte then "CR_OP_INC_BYTE"
    else if code == OpRle then "CR_OP_RLE"
    else if code == OpByteList then "CR_OP_BYTE_LIST"
    else "CR_OP_ATTR"
  }

  datatype GenericData = GenericData(opCode: OpCode, length: int, data: seq<byte>)

  /** The payload rules: exactly the values the constructor can return. */
  predicate WellFormed(g: GenericData) {
    if g.opCode == OpIncByte || g.opCode == OpRle then g.length != 0 && |g.data| == 1
    else if g.opCode == OpByteList then |g.data| > 0 && g.length == |g.data|
    else if g.opCode == OpAttr then |g.data| == 1 && g.length == 0
    else g.length == 0 && g.data == []
  }

  /**
   * Builds one operation, panicking on a malformed payload. INC_BYTE and RLE
   * need a non-zero length and exactly one byte; BYTE_LIST needs some bytes
   * and counts one tile per byte; ATTR needs exactly one byte and counts no
   * tile; every other opcode ignores both arguments.
   */
  function NewGenericData(code: OpCode, length: int, data: seq<byte>): (r: Run<GenericData>)
    ensures r.Ok? ==> r.value.opCode == code && WellFormed(r.value)
    ensures code == OpIncByte || code == OpRle ==>
      (r.Ok? <==> length != 0 && |data| == 1) &&
      (r.Ok? ==> r.value.length == length && r.value.data == data)
    ensures code == OpByteList ==>
      (r.Ok? <==> data != []) &&
      (r.Ok? ==> r.value.length == |data| && r.value.data == data)
    ensures code == OpAttr ==>
      (r.Ok? <==> |data| == 1) &&
      (r.Ok? ==> r.value.length == 0 && r.value.data == data)
    ensures code != OpIncByte && code != OpRle && code != OpByteList && code != OpAttr ==>
      r == Ok(GenericData(code, 0, []))
  {
    if code == OpIncByte || code == OpRle then
      var name := OpName(code);
      if length == 0 || |data| == 0 then Panic("Missing length or data for " + name)
      else if |data| > 1 then Panic("Too much data for " + name)
      else Ok(GenericData(code, length, data))
    else if code == OpByteList then
      if |data| == 0 then Panic("Missing data for CR_OP_BYTE_LIST")
      else Ok(GenericData(code, |data|, data))
    else if code == OpAttr then
      if |data| == 0 then Panic("Missing data for CR_OP_ATTR")
      else if |data| > 1 then Panic("Too much data for CR_OP_ATTR")
      else Ok(GenericData(code, 0, data))
    else
      Ok(GenericData(code, 0, []))
  }

  /** Every well-formed operation is what the constructor builds from its own fields. */
  lemma WellFormedIsConstructed(g: GenericData)
    ensures WellFormed(g) <==> NewGenericData(g.opCode, g.length, g.data) == Ok(g)
  {
  }

  /** One item of a `.byte` directive: a symbol, a decimal number, a `$XX` hex value or a quoted string. */
  datatype Item = Sym(name: string) | Dec(n: int) | Hex(v: nat) | Str(s: string)

  /** One `.byte` directive. */
  type Line = seq<Item>

  function HexBytes(data: seq<byte>): (r: seq<Item>)
    ensures |r| == |data|
    ensures forall i :: 0 <= i < |data| ==> r[i] == Hex(data[i])
  {
    seq(|data|, i requires 0 <= i < |data| => Hex(data[i]))
  }

  /**
   * Renders an operation as its tag and payload. The six defined opcodes are
   * rendered (INC_BYTE, RLE and ATTR read their first payload byte, which
   * panics when there is none); any other opcode panics.
   */
  function DataAsmString(g: GenericData): (r: Run<Line>)
    ensures r.Ok? <==>
      Defined(g.opCode) && (g.opCode == OpIncByte || g.opCode == OpRle || g.opCode == OpAttr ==> g.data != [])
    ensures r.Ok? ==> |r.value| >= 1 && r.value[0] == Sym(OpName(g.opCode))
    ensures r.Ok? && (g.opCode == OpEod || g.opCode == OpClearRow) ==> |r.value| == 1
    ensures r.Ok? && (g.opCode == OpIncByte || g.opCode == OpRle) ==>
      r.value[1..] == [Dec(g.length), Hex(g.data[0])]
    ensures r.Ok? && g.opCode == OpAttr ==> r.value[1..] == [Hex(g.data[0])]
    ensures r.Ok? && g.opCode == OpByteList ==>
      |r.value| == |g.data| + 2 &&
      (forall i :: 0 <= i < |g.data| ==> r.value[i + 1] == Hex(g.data[i])) &&
      r.value[|g.data| + 1] == Hex(0)
  {
    if !Defined(g.opCode) then Panic("Invalid OP Code")
    else if g.opCode == OpEod || g.opCode == OpClearRow then Ok([Sym(OpName(g.opCode))])
    else if g.opCode == OpByteList then Ok([Sym(OpName(g.opCode))] + HexBytes(g.data) + [Hex(0)])
    else if g.data == [] then Panic("index out of range")
    else if g.opCode == OpAttr then Ok([Sym(OpName(g.opCode)), Hex(g.data[0])])
    else Ok([Sym(OpName(g.opCode)), Dec(g.length), Hex(g.data[0])])
  }

  /** An operation the constructor accepted, with a defined opcode, always renders. */
  lemma ConstructedRenders(code: OpCode, length: int, data: seq<byte>)
    requires Defined(code) && NewGenericData(code, length, data).Ok?
    ensures DataAsmString(NewGenericData(code, length, data).value).Ok?
  {
  }

  /**
   * A reference reader for one rendered operation, as the consumer of the
   * byte-code reads it: the tag, then its payload; a byte list runs up to its
   * first $00.
   */
  function ParseLine(line: Line): Option<GenericData>
  {
    if |line| == 0 || !line[0].Sym? then None
    else
      var tag := line[0].name;
      if tag == "CR_OP_EOD" && |line| == 1 then Some(GenericData(OpEod, 0, []))
      else if tag == "CR_OP_CLEAR_ROW" && |line| == 1 then Some(GenericData(OpClearRow, 0, []))
      else if (tag == "CR_OP_INC_BYTE" || tag == "CR_OP_RLE") && |line| == 3 &&
              line[1].Dec? && line[2].Hex? && line[2].v < 256 then
        Some(GenericData(if tag == "CR_OP_INC_BYTE" then OpIncByte else OpRle, line[1].n, [line[2].v]))
      else if tag == "CR_OP_BYTE_LIST" then
        match TakeBytes(line[1..])
        case Some(bs) => Some(GenericData(OpByteList, |bs|, bs))
        case None => None
      else if tag == "CR_OP_ATTR" && |line| == 2 && line[1].Hex? && line[1].v < 256 then
        Some(GenericData(OpAttr, 0, [line[1].v]))
      else None
  }

  /** The bytes before the first $00 of a byte list; None when the list is not terminated. */
  function TakeBytes(items: seq<Item>): Option<seq<byte>>
  {
    if |items| == 0 then None
    else if items[0] == Hex(0) then Some([])
    else if items[0].Hex? && items[0].v < 256 then
      match TakeBytes(items[1..])
      case Some(bs) => Some([items[0].v as byte] + bs)
      case None => None
    else None
  }

  lemma {:induction false} TakeBytesOfList(data: seq<byte>)
    requires 0 !in data
    ensures TakeBytes(HexBytes(data) + [Hex(0)]) == Some(data)
  {
    if data != [] {
      TakeBytesOfList(data[1..]);
      assert (HexBytes(data) + [Hex(0)])[1..] == HexBytes(data[1..]) + [Hex(0)];
      assert [data[0]] + data[1..] == data;
    }
  }

  lemma {:induction false} TakeBytesStopsAtZero(data: seq<byte>)
    requires 0 in data
    ensures TakeBytes(HexBytes(data) + [Hex(0)]).Some?
    ensures |TakeBytes(HexBytes(data) + [Hex(0)]).value| < |data|
  {
    if data[0] != 0 {
      TakeBytesStopsAtZero(data[1..]);
      assert (HexBytes(data) + [Hex(0)])[1..] == HexBytes(data[1..]) + [Hex(0)];
    }
  }

  /**
   * Rendering is lossless for every operation the constructor accepts with a
   * defined opcode, except a byte list holding a $00 byte, which the
   * terminator cuts short: the reader gets the operation back exactly when
   * no payload byte of a byte list is $00.
   */
  lemma RenderedOpReadsBack(g: GenericData)
    requires WellFormed(g) && Defined(g.opCode)
    ensures DataAsmString(g).Ok?
    ensures ParseLine(DataAsmString(g).value) == Some(g) <==> (g.opCode == OpByteList ==> 0 !in g.data)
  {
    var line := DataAsmString(g).value;
    if g.opCode == OpByteList {
      assert line[0] == Sym("CR_OP_BYTE_LIST");
      assert line[1..] == HexBytes(g.data) + [Hex(0)];
      if 0 in g.data {
        TakeBytesStopsAtZero(g.data);
      } else {
        TakeBytesOfList(g.data);
      }
    } else if g.opCode == OpIncByte {
      assert line == [Sym("CR_OP_INC_BYTE"), Dec(g.length), Hex(g.data[0])];
      assert [g.data[0]] == g.data;
    } else if g.opCode == OpRle {
      assert line == [Sym("CR_OP_RLE"), Dec(g.length), Hex(g.data[0])];
      assert [g.data[0]] == g.data;
    } else if g.opCode == OpAttr {
      assert line == [Sym("CR_OP_ATTR"), Hex(g.data[0])];
      assert [g.data[0]] == g.data;
    } else if g.opCode == OpEod {
      assert line == [Sym("CR_OP_EOD")];
    } else {
      assert line == [Sym("CR_OP_CLEAR_ROW")];
    }
  }

  /** Example: a byte list [$41, $00, $42] reads back as the byte list [$41]. */
  lemma ZeroByteEndsByteList()
    ensures ParseLine(DataAsmString(GenericData(OpByteList, 3, [0x41, 0, 0x42])).value)
         == Some(GenericData(OpByteList, 1, [0x41]))
  {
    var line := DataAsmString(GenericData(OpByteList, 3, [0x41, 0, 0x42])).value;
    assert line == [Sym("CR_OP_BYTE_LIST"), Hex(0x41), Hex(0), Hex(0x42), Hex(0)];
    assert line[1..][1..] == [Hex(0), Hex(0x42), Hex(0)];
    assert TakeBytes(line[1..][1..]) == Some([]);
    assert line[1..][0] == Hex(0x41);
    assert [0x41 as byte] + [] == [0x41];
  }
}
