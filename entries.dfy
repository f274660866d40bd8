/**
 * Turning the rows of the subscriber list into name-row entries: parsing one
 * row into a Subscriber, and the loop over the rows that drops the names on
 * the exclude list and the rows that do not parse.
 */
module Entries {
  import opened Wrappers
  import opened Chunks

  /** The message of Go's panic on an index past the end. */
  const IndexPanic := "index out of range"

  predicate IsUpper(c: char) {
    'A' <= c <= 'Z'
  }

  function LowerChar(c: char): char {
    if IsUpper(c) then (c as int + 32) as char else c
  }

  /** Lower-cases the ASCII letters of a string. */
  function ToLower(s: string): (r: string)
    ensures |r| == |s|
    ensures forall i :: 0 <= i < |s| ==> !IsUpper(r[i])
    ensures forall i :: 0 <= i < |s| && !IsUpper(s[i]) ==> r[i] == s[i]
    ensures forall i :: 0 <= i < |s| && IsUpper(s[i]) ==> r[i] as int == s[i] as int + 32
  {
    seq(|s|, i requires 0 <= i < |s| => LowerChar(s[i]))
  }

  /**
   * Parses one row (name, RFC 3339 timestamp, tier marker). A row of fewer
   * than three fields, or whose timestamp does not parse, is an error; an
   * empty tier marker panics (its first byte is sliced out); otherwise the
   * tier is 2 or 3 when the marker starts with '2' or '3', and 1 for any
   * other first character. The name is the first field unchanged.
   */
  function NewSub(row: seq<string>, parse: string -> Result<Instant>): (r: Run<Result<Subscriber>>)
    ensures |row| < 3 ==> r.Ok? && r.value.Failure?
    ensures |row| >= 3 && parse(row[1]).Failure? ==> r == Ok(Failure(parse(row[1]).error))
    ensures r.Panic? <==> |row| >= 3 && parse(row[1]).Success? && row[2] == ""
    ensures |row| >= 3 && parse(row[1]).Success? && row[2] != "" ==> r.Ok? && r.value.Success?
    ensures r.Ok? && r.value.Success? ==>
      var s := r.value.value;
      && |row| >= 3 && row[2] != ""
      && s.username == row[0]
      && s.since == parse(row[1]).value
      && 1 <= s.tier <= 3
      && (s.tier == 2 <==> row[2][0] == '2')
      && (s.tier == 3 <==> row[2][0] == '3')
  {
    if |row| < 3 then Ok(Failure("Invalid row"))
    else match parse(row[1])
      case Failure(e) => Ok(Failure(e))
      case Success(since) =>
        if row[2] == [] then Panic("slice bounds out of range")
        else
          var tier := if row[2][0] == '2' then 2 else if row[2][0] == '3' then 3 else 1;
          Ok(Success(Subscriber(row[0], since, tier)))
  }

  /**
   * The exclude flag of one row, set by comparing every exclude entry with
   * the lower-cased name. The entries themselves are not lower-cased. The
   * name is read only inside the loop, so a row without fields panics only
   * when the exclude list is not empty.
   */
  method IsExcluded(row: seq<string>, excludeNames: seq<string>) returns (r: Run<bool>)
    ensures r.Panic? <==> excludeNames != [] && row == []
    ensures r.Panic? ==> r.message == IndexPanic
    ensures r.Ok? ==> (r.value <==> row != [] && ToLower(row[0]) in excludeNames)
  {
    var exclude := false;
    for j := 0 to |excludeNames|
      invariant j > 0 ==> row != []
      invariant exclude <==> row != [] && ToLower(row[0]) in excludeNames[..j]
    {
      if row == [] {
        return Panic(IndexPanic);
      }
      if excludeNames[j] == ToLower(row[0]) {
        exclude := true;
      }
      assert excludeNames[..j + 1] == excludeNames[..j] + [excludeNames[j]];
    }
    assert excludeNames[..|excludeNames|] == excludeNames;
    r := Ok(exclude);
  }

  /**
   * What one row contributes: a subscriber, nothing (excluded or unparsable),
   * or a panic. The exclude flag is computed first, so an excluded row is
   * dropped without being parsed.
   */
  function RowOutcome(row: seq<string>, excludeNames: seq<string>, parse: string -> Result<Instant>): (r: Run<Option<Subscriber>>)
    ensures excludeNames != [] && row == [] ==> r == Panic(IndexPanic)
    ensures row != [] && ToLower(row[0]) in excludeNames ==> r == Ok(None)
    ensures (row == [] ==> excludeNames == []) && (row != [] ==> ToLower(row[0]) !in excludeNames) ==>
      && (r.Panic? <==> NewSub(row, parse).Panic?)
      && (r.Ok? && r.value.Some? <==> NewSub(row, parse).Ok? && NewSub(row, parse).value.Success?)
    ensures r.Ok? && r.value.Some? ==>
      && NewSub(row, parse) == Ok(Success(r.value.value))
      && ToLower(r.value.value.username) !in excludeNames
  {
    if excludeNames != [] && row == [] then Panic(IndexPanic)
    else if row != [] && ToLower(row[0]) in excludeNames then Ok(None)
    else match NewSub(row, parse)
      case Panic(m) => Panic(m)
      case Ok(Failure(_)) => Ok(None)
      case Ok(Success(s)) => Ok(Some(s))
  }

  /**
   * The subscribers the rows yield, in row order; the first row that panics
   * ends the run. The run goes through exactly when no row panics, and it
   * keeps at most one subscriber per row.
   */
  function Survivors(rows: seq<seq<string>>, excludeNames: seq<string>, parse: string -> Result<Instant>): (r: Run<seq<Subscriber>>)
    ensures r.Ok? <==> forall j :: 0 <= j < |rows| ==> RowOutcome(rows[j], excludeNames, parse).Ok?
    ensures r.Ok? ==> |r.value| <= |rows|
  {
    if rows == [] then Ok([])
    else
      assert forall j :: 0 <= j < |rows| - 1 ==> rows[..|rows| - 1][j] == rows[j];
      match Survivors(rows[..|rows| - 1], excludeNames, parse)
      case Panic(m) => Panic(m)
      case Ok(subs) =>
        match RowOutcome(rows[|rows| - 1], excludeNames, parse)
        case Panic(m) => Panic(m)
        case Ok(None) => Ok(subs)
        case Ok(Some(s)) => Ok(subs + [s])
  }

  /** Sequencing of two runs: the first panic wins, otherwise the results are joined. */
  function Then(a: Run<seq<Subscriber>>, b: Run<seq<Subscriber>>): Run<seq<Subscriber>>
  {
    match a
    case Panic(m) => Panic(m)
    case Ok(x) =>
      match b
      case Panic(m) => Panic(m)
      case Ok(y) => Ok(x + y)
  }

  /**
   * The filter works row by row: the rows of a + b yield what the rows of a
   * yield followed by what the rows of b yield, so survivors keep their input
   * order.
   */
  lemma {:induction false} SurvivorsAppend(a: seq<seq<string>>, b: seq<seq<string>>, excludeNames: seq<string>, parse: string -> Result<Instant>)
    ensures Survivors(a + b, excludeNames, parse) == Then(Survivors(a, excludeNames, parse), Survivors(b, excludeNames, parse))
  {
    if b == [] {
      assert a + b == a;
      if Survivors(a, excludeNames, parse).Ok? {
        assert Survivors(a, excludeNames, parse).value + [] == Survivors(a, excludeNames, parse).value;
      }
    } else {
      var b' := b[..|b| - 1];
      assert (a + b)[..|a + b| - 1] == a + b';
      assert (a + b)[|a + b| - 1] == b[|b| - 1];
      SurvivorsAppend(a, b', excludeNames, parse);
      var last := RowOutcome(b[|b| - 1], excludeNames, parse);
      match Survivors(a, excludeNames, parse)
      case Panic(_) =>
      case Ok(x) =>
        match Survivors(b', excludeNames, parse)
        case Panic(_) =>
        case Ok(y) =>
          if last.Ok? && last.value.Some? {
            assert x + y + [last.value.value] == x + (y + [last.value.value]);
          }
    }
  }

  /**
   * A subscriber the filter keeps has a name whose lower-cased form is not on
   * the exclude list, and a tier of 1, 2 or 3.
   */
  lemma {:induction false} SurvivorsNotExcluded(rows: seq<seq<string>>, excludeNames: seq<string>, parse: string -> Result<Instant>)
    requires Survivors(rows, excludeNames, parse).Ok?
    ensures forall s :: s in Survivors(rows, excludeNames, parse).value ==>
      ToLower(s.username) !in excludeNames && 1 <= s.tier <= 3
  {
    if rows != [] {
      SurvivorsNotExcluded(rows[..|rows| - 1], excludeNames, parse);
    }
  }

  /**
   * Skips the header record, then, for every other record, computes its
   * exclude flag and, unless excluded, parses it, keeping the subscribers
   * that parse. An empty record list panics (there is no header to skip).
   */
  method FilterRecords(records: seq<seq<string>>, excludeNames: seq<string>, parse: string -> Result<Instant>)
    returns (r: Run<seq<Subscriber>>)
    ensures records == [] ==> r.Panic?
    ensures records != [] ==> r == Survivors(records[1..], excludeNames, parse)
  {
    if records == [] {
      return Panic("slice bounds out of range");
    }
    var rows := records[1..];
    var subList: seq<Subscriber> := [];
    var i := 0;
    while i < |rows|
      invariant 0 <= i <= |rows|
      invariant Survivors(rows[..i], excludeNames, parse) == Ok(subList)
    {
      var row := rows[i];
      assert rows[..i + 1][..i] == rows[..i];
      var exclude := IsExcluded(row, excludeNames);
      if exclude.Panic? {
        SurvivorsAppend(rows[..i + 1], rows[i + 1..], excludeNames, parse);
        assert rows[..i + 1] + rows[i + 1..] == rows;
        return Panic(exclude.message);
      }
      if !exclude.value {
        var sub := NewSub(row, parse);
        if sub.Panic? {
          SurvivorsAppend(rows[..i + 1], rows[i + 1..], excludeNames, parse);
          assert rows[..i + 1] + rows[i + 1..] == rows;
          return Panic(sub.message);
        }
        if sub.value.Success? {
          subList := subList + [sub.value.value];
        }
      }
      i := i + 1;
    }
    assert rows[..i] == rows;
    r := Ok(subList);
  }

  /**
   * The exclude entries are compared as given: an entry holding an ASCII
   * capital letter never matches any name.
   */
  lemma CapitalisedEntryNeverMatches(entry: string, name: string, i: nat)
    requires i < |entry| && IsUpper(entry[i])
    ensures ToLower(name) != entry
  {
  }

  /** Example: with "bob" excluded, Bob is dropped and Carol is kept with tier 3. */
  lemma ExcludeLowerCaseEntry(ts: string, parse: string -> Result<Instant>)
    requires parse(ts).Success?
    ensures Survivors([["Bob", ts, "1-tier"], ["Carol", ts, "3-tier"]], ["bob"], parse)
         == Ok([Subscriber("Carol", parse(ts).value, 3)])
  {
    var rows := [["Bob", ts, "1-tier"], ["Carol", ts, "3-tier"]];
    assert ToLower("Bob") == "bob";
    assert ToLower("Carol")[0] == 'c';
    assert rows[..1][..0] == [];
    assert RowOutcome(rows[0], ["bob"], parse) == Ok(None);
    assert RowOutcome(rows[1], ["bob"], parse) == Ok(Some(Subscriber("Carol", parse(ts).value, 3)));
    assert Survivors(rows[..1], ["bob"], parse) == Ok([]);
    assert rows[..1] == rows[..|rows| - 1];
    assert [] + [Subscriber("Carol", parse(ts).value, 3)] == [Subscriber("Carol", parse(ts).value, 3)];
  }

  /** Example: with "Alice" excluded, the row for Alice is still kept. */
  lemma ExcludeEntryIsNotLowerCased(ts: string, parse: string -> Result<Instant>)
    requires parse(ts).Success?
    ensures Survivors([["Alice", ts, "1"]], ["Alice"], parse)
         == Ok([Subscriber("Alice", parse(ts).value, 1)])
  {
    var rows := [["Alice", ts, "1"]];
    CapitalisedEntryNeverMatches("Alice", "Alice", 0);
    assert rows[..0] == [];
    assert RowOutcome(rows[0], ["Alice"], parse) == Ok(Some(Subscriber("Alice", parse(ts).value, 1)));
    assert [] + [Subscriber("Alice", parse(ts).value, 1)] == [Subscriber("Alice", parse(ts).value, 1)];
  }
}
