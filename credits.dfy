/**
 * Assembly of the credits data: the chunk list is the header artwork, one
 * name row per surviving entry and the footer, in that order; the output is
 * an index table naming every chunk, then every chunk's block followed by one
 * ATTR directive carrying its packed attribute byte.
 */
module Credits {
  import opened Wrappers
  import opened Ops
  import opened Chunks
  import opened Entries

  /** One chunk's output: its block and the ATTR directive after it. */
  datatype ChunkOut = ChunkOut(block: Block, attrLine: Line)

  /**
   * The assembled output: the labels the index table refers to, in table
   * order, each chunk's output, and the final chunk count.
   */
  datatype Listing = Listing(table: seq<int>, bodies: seq<ChunkOut>, count: int)

  /**
   * The ATTR directive that ends a chunk: the artwork chunks the generator
   * builds get $00, and a name row of tier 1, 2 or 3 gets $00, $05 or $0A.
   */
  function AttrLine(c: DataChunk): (r: Line)
    ensures |r| == 2 && r[0] == Sym("CR_OP_ATTR") && r[1].Hex?
    ensures c.Generic? && c.chunk.attribute == 0 ==> r[1] == Hex(0)
    ensures c.Sub? && 1 <= c.sub.tier <= 3 ==> r[1] == Hex(5 * (c.sub.tier - 1))
  {
    [Sym("CR_OP_ATTR"), Hex(Pack(AttributeValue(c)))]
  }

  /** The chunk list: header, then one name row per subscriber, then footer. */
  function AllChunks(header: seq<DataChunk>, subs: seq<Subscriber>, footer: seq<DataChunk>): (r: seq<DataChunk>)
    ensures |r| == |header| + |subs| + |footer|
    ensures r[..|header|] == header
    ensures forall k :: 0 <= k < |subs| ==> r[|header| + k] == Sub(subs[k])
    ensures r[|header| + |subs|..] == footer
  {
    header + seq(|subs|, k requires 0 <= k < |subs| => Sub(subs[k])) + footer
  }

  /**
   * Writes the index table (one entry per chunk, entry i naming chunk i),
   * then, for every chunk in order, its block and one ATTR directive with
   * the packed attribute byte, counting the chunks. The first chunk that
   * cannot be rendered panics.
   */
  method Assemble(allChunks: seq<DataChunk>) returns (r: Run<Listing>)
    ensures r.Ok? <==> forall i :: 0 <= i < |allChunks| ==> ChunkText(allChunks[i], i).Ok?
    ensures r.Ok? ==>
      && |r.value.table| == |allChunks|
      && |r.value.bodies| == |allChunks|
      && r.value.count == |allChunks|
      && forall i :: 0 <= i < |allChunks| ==>
           && r.value.table[i] == i
           && r.value.bodies[i].block.index == i
           && r.value.bodies[i] == ChunkOut(ChunkText(allChunks[i], i).value, AttrLine(allChunks[i]))
    ensures r.Panic? ==>
      exists j :: 0 <= j < |allChunks| && ChunkText(allChunks[j], j) == Panic(r.message) &&
        forall k :: 0 <= k < j ==> ChunkText(allChunks[k], k).Ok?
  {
    var table: seq<int> := [];
    for i := 0 to |allChunks|
      invariant |table| == i
      invariant forall k :: 0 <= k < i ==> table[k] == k
    {
      table := table + [i];
    }

    var bodies: seq<ChunkOut> := [];
    var count := 0;
    var attr := 0;
    for i := 0 to |allChunks|
      invariant |bodies| == i && count == i
      invariant forall k :: 0 <= k < i ==>
        ChunkText(allChunks[k], k).Ok? &&
        bodies[k] == ChunkOut(ChunkText(allChunks[k], k).value, AttrLine(allChunks[k]))
    {
      var s := allChunks[i];
      attr := Pack(AttributeValue(s));
      var block := DataChunkAsmString(s, i);
      if block.Panic? {
        return Panic(block.message);
      }
      bodies := bodies + [ChunkOut(block.value, [Sym("CR_OP_ATTR"), Hex(attr)])];
      count := count + 1;
    }
    r := Ok(Listing(table, bodies, count));
  }

  /**
   * When the header and footer chunks render under every label, every chunk
   * of header ++ entries ++ footer renders, and an entry of tier 1, 2 or 3
   * gets the attribute byte $00, $05 or $0A.
   */
  lemma EntriesRender(header: seq<DataChunk>, subs: seq<Subscriber>, footer: seq<DataChunk>)
    requires RenderAnywhere(header) && RenderAnywhere(footer)
    requires forall s :: s in subs ==> 1 <= s.tier <= 3
    ensures var all := AllChunks(header, subs, footer);
      && (forall i :: 0 <= i < |all| ==> ChunkText(all[i], i).Ok?)
      && (forall k :: 0 <= k < |subs| ==> Pack(AttributeValue(all[|header| + k])) == 5 * (subs[k].tier - 1))
  {
    var all := AllChunks(header, subs, footer);
    forall i | 0 <= i < |all|
      ensures ChunkText(all[i], i).Ok?
    {
      if i < |header| {
        assert all[i] == all[..|header|][i] == header[i];
      } else if i >= |header| + |subs| {
        assert all[i] == all[|header| + |subs|..][i - |header| - |subs|] == footer[i - |header| - |subs|];
      }
    }
    forall k | 0 <= k < |subs|
      ensures Pack(AttributeValue(all[|header| + k])) == 5 * (subs[k].tier - 1)
    {
      assert subs[k] in subs;
      assert all[|header| + k] == Sub(subs[k]);
      TierAttributeByte(subs[k]);
    }
  }

  /** In an assembled listing, entry k is the name row of the k-th subscriber, with its tier's attribute byte. */
  lemma EntryBodies(header: seq<DataChunk>, subs: seq<Subscriber>, footer: seq<DataChunk>, l: Listing)
    requires forall s :: s in subs ==> 1 <= s.tier <= 3
    requires var all := AllChunks(header, subs, footer);
      && |l.bodies| == |all|
      && forall i :: 0 <= i < |all| ==>
           ChunkText(all[i], i).Ok? && l.bodies[i] == ChunkOut(ChunkText(all[i], i).value, AttrLine(all[i]))
    ensures forall k :: 0 <= k < |subs| ==>
      && l.bodies[|header| + k].block == SubscriberAsmString(subs[k], |header| + k).value
      && l.bodies[|header| + k].attrLine == [Sym("CR_OP_ATTR"), Hex(5 * (subs[k].tier - 1))]
  {
    forall k | 0 <= k < |subs|
      ensures l.bodies[|header| + k].block == SubscriberAsmString(subs[k], |header| + k).value
      ensures l.bodies[|header| + k].attrLine == [Sym("CR_OP_ATTR"), Hex(5 * (subs[k].tier - 1))]
    {
      assert subs[k] in subs;
      assert AllChunks(header, subs, footer)[|header| + k] == Sub(subs[k]);
    }
  }

  /**
   * The whole run on a subscriber list: filter the records, then assemble
   * header ++ entries ++ footer. When the filter does not panic, the run does
   * not either; it emits 3 + n + 4 chunks for n surviving entries, and entry
   * k is chunk 3 + k, rendered as the name row of the k-th survivor with
   * attribute byte $00, $05 or $0A for tier 1, 2 or 3.
   */
  method GenerateCredits(records: seq<seq<string>>, excludeNames: seq<string>,
                         parse: string -> Result<Instant>, now: Instant)
    returns (r: Run<Listing>)
    ensures records == [] ==> r.Panic?
    ensures records != [] && Survivors(records[1..], excludeNames, parse).Panic? ==>
      r == Panic(Survivors(records[1..], excludeNames, parse).message)
    ensures records != [] && Survivors(records[1..], excludeNames, parse).Ok? ==>
      var subs := Survivors(records[1..], excludeNames, parse).value;
      var all := AllChunks(HeaderChunks(), subs, FooterChunks(now));
      && r.Ok?
      && r.value.count == |HeaderChunks()| + |subs| + |FooterChunks(now)|
      && |r.value.table| == r.value.count
      && |r.value.bodies| == r.value.count
      && (forall i :: 0 <= i < r.value.count ==>
           && r.value.table[i] == i
           && ChunkText(all[i], i).Ok?
           && r.value.bodies[i] == ChunkOut(ChunkText(all[i], i).value, AttrLine(all[i])))
      && forall k :: 0 <= k < |subs| ==>
           && 1 <= subs[k].tier <= 3
           && r.value.bodies[|HeaderChunks()| + k].block == SubscriberAsmString(subs[k], |HeaderChunks()| + k).value
           && r.value.bodies[|HeaderChunks()| + k].attrLine == [Sym("CR_OP_ATTR"), Hex(5 * (subs[k].tier - 1))]
  {
    var subList := FilterRecords(records, excludeNames, parse);
    if subList.Panic? {
      return Panic(subList.message);
    }
    var subs := subList.value;
    var allChunks := AllChunks(HeaderChunks(), subs, FooterChunks(now));
    SurvivorsNotExcluded(records[1..], excludeNames, parse);
    ArtworkRenders(now);
    EntriesRender(HeaderChunks(), subs, FooterChunks(now));
    r := Assemble(allChunks);
    EntryBodies(HeaderChunks(), subs, FooterChunks(now), r.value);
  }
}
