/**
 * Append-only ledgers of one JSON record per line, each append framed by newlines and possibly cut
 * short by a crash at any byte.
 */
module Jsonl {
  import opened Wrappers

  /** Characters stand for the bytes of the file. */
  type Bytes = string

  /** How a record is written as one line and what reading a line gives. */
  datatype Codec<!T> = Codec(write: T -> Bytes, parse: Bytes -> Option<T>)

  predicate Blank(line: Bytes) {
    forall c :: c in line ==> c in " \t\r\n"
  }

  /** JSON of an object: no newline in it, reads back, and no proper prefix of it parses. */
  ghost predicate Sound<T(!new)>(codec: Codec<T>) {
    && (forall r :: '\n' !in codec.write(r) && !Blank(codec.write(r)) && codec.parse(codec.write(r)) == Some(r))
    && (forall r: T, k: nat :: k < |codec.write(r)| ==> codec.parse(codec.write(r)[..k]) == None)
  }

  /** `body.split("\n")`. */
  function Lines(body: Bytes): seq<Bytes> {
    if body == "" then [""]
    else if body[0] == '\n' then [""] + Lines(body[1..])
    else Extend(body[0], Lines(body[1..]))
  }

  /** Put a character in front of the first line. */
  function Extend(c: char, lines: seq<Bytes>): seq<Bytes> {
    if lines == [] then [[c]] else [[c] + lines[0]] + lines[1..]
  }

  function Rows<T>(lines: seq<Bytes>, codec: Codec<T>): seq<T> {
    if lines == [] then [] else Row(lines[0], codec) + Rows(lines[1..], codec)
  }

  function Row<T>(line: Bytes, codec: Codec<T>): seq<T> {
    if Blank(line) then []
    else
      var row := codec.parse(line);
      if row.Some? then [row.value] else []
  }

  function ReadLedger<T>(body: Bytes, codec: Codec<T>): seq<T> {
    Rows(Lines(body), codec)
  }

  function Frame<T>(record: T, codec: Codec<T>): Bytes {
    "\n" + codec.write(record) + "\n"
  }

  /** The bytes of an append that reached the file. */
  function Cut(frame: Bytes, cut: nat): Bytes {
    if cut < |frame| then frame[..cut] else frame
  }

  datatype Write<T> = Write(record: T, cut: nat)

  function Appended<T>(body: Bytes, w: Write<T>, codec: Codec<T>): Bytes {
    body + Cut(Frame(w.record, codec), w.cut)
  }

  function Body<T>(prior: Bytes, writes: seq<Write<T>>, codec: Codec<T>): Bytes
    decreases |writes|
  {
    if writes == [] then prior else Body(Appended(prior, writes[0], codec), writes[1..], codec)
  }

  /** The JSON text of the record is in the file; its closing newline may be missing. */
  predicate ReachedWhole<T>(w: Write<T>, codec: Codec<T>) {
    w.cut >= |codec.write(w.record)| + 1
  }

  function Whole<T>(writes: seq<Write<T>>, codec: Codec<T>): seq<T> {
    if writes == [] then []
    else (if ReachedWhole(writes[0], codec) then [writes[0].record] else []) + Whole(writes[1..], codec)
  }

  lemma ExtendJoin(c: char, a: seq<Bytes>, b: seq<Bytes>)
    requires a != []
    ensures Extend(c, a + b) == Extend(c, a) + b
  {
    assert (a + b)[1..] == a[1..] + b;
  }

  lemma {:induction false} LinesSome(body: Bytes)
    ensures Lines(body) != []
  {
  }

  /** A newline ends one piece of the file and starts the next. */
  lemma {:induction false} LinesJoin(a: Bytes, b: Bytes)
    ensures Lines(a + "\n" + b) == Lines(a) + Lines(b)
  {
    var all := a + "\n" + b;
    if a == "" {
      assert all[1..] == b;
    } else {
      LinesJoin(a[1..], b);
      assert all[0] == a[0] && all[1..] == a[1..] + "\n" + b;
      LinesSome(a[1..]);
      if a[0] == '\n' {
        assert [""] + (Lines(a[1..]) + Lines(b)) == ([""] + Lines(a[1..])) + Lines(b);
      } else {
        ExtendJoin(a[0], Lines(a[1..]), Lines(b));
      }
    }
  }

  lemma {:induction false} RowsJoin<T>(a: seq<Bytes>, b: seq<Bytes>, codec: Codec<T>)
    ensures Rows(a + b, codec) == Rows(a, codec) + Rows(b, codec)
  {
    if a == [] {
      assert a + b == b;
    } else {
      hide Row;
      RowsJoin(a[1..], b, codec);
      assert (a + b)[1..] == a[1..] + b && (a + b)[0] == a[0];
      var first, middle, last := Row(a[0], codec), Rows(a[1..], codec), Rows(b, codec);
      assert first + (middle + last) == (first + middle) + last;
    }
  }

  lemma {:induction false} OneLine(line: Bytes)
    requires '\n' !in line
    ensures Lines(line) == [line]
  {
    if line != "" {
      assert line[0] in line && '\n' !in line[1..];
      OneLine(line[1..]);
      assert [line[0]] + line[1..] == line;
      assert Lines(line) == Extend(line[0], [line[1..]]);
    }
  }

  lemma ReadJoin<T>(a: Bytes, b: Bytes, codec: Codec<T>)
    ensures ReadLedger(a + "\n" + b, codec) == ReadLedger(a, codec) + ReadLedger(b, codec)
  {
    LinesJoin(a, b);
    RowsJoin(Lines(a), Lines(b), codec);
  }

  lemma ReadLine<T>(line: Bytes, codec: Codec<T>)
    requires '\n' !in line
    ensures ReadLedger(line, codec) == Row(line, codec)
  {
    OneLine(line);
    assert Rows([line][1..], codec) == [];
  }

  /** What a reader sees of one cut frame, after its leading newline. */
  lemma ReadTail<T(!new)>(r: T, k: nat, codec: Codec<T>)
    requires Sound(codec) && k <= |codec.write(r)| + 1
    ensures ReadLedger((codec.write(r) + "\n")[..k], codec) == if k >= |codec.write(r)| then [r] else []
  {
    var json := codec.write(r);
    var tail := (json + "\n")[..k];
    if k <= |json| {
      assert tail == json[..k];
      assert json[..|json|] == json;
      ReadLine(tail, codec);
    } else {
      assert tail == json + "\n" + "";
      ReadJoin(json, "", codec);
      ReadLine(json, codec);
      ReadLine("", codec);
    }
  }

  /** The file after an append that wrote anything: what was there, a newline, and some of the line. */
  lemma AppendedIs<T>(body: Bytes, w: Write<T>, codec: Codec<T>) returns (k: nat, tail: Bytes)
    requires w.cut > 0
    ensures k <= |codec.write(w.record)| + 1 && tail == (codec.write(w.record) + "\n")[..k]
    ensures Appended(body, w, codec) == body + "\n" + tail
    ensures k >= |codec.write(w.record)| <==> ReachedWhole(w, codec)
  {
    var json, frame := codec.write(w.record), Frame(w.record, codec);
    k := (if w.cut < |frame| then w.cut else |frame|) - 1;
    tail := (json + "\n")[..k];
    assert Cut(frame, w.cut) == "\n" + tail;
    assert body + ("\n" + tail) == body + "\n" + tail;
  }

  /** One append adds its record exactly when the record's text reached the file whole. */
  lemma AppendReads<T(!new)>(body: Bytes, w: Write<T>, codec: Codec<T>)
    requires Sound(codec)
    ensures ReadLedger(Appended(body, w, codec), codec)
            == ReadLedger(body, codec) + if ReachedWhole(w, codec) then [w.record] else []
  {
    if w.cut == 0 {
      assert Appended(body, w, codec) == body;
    } else {
      var k, tail := AppendedIs(body, w, codec);
      ReadTail(w.record, k, codec);
      ReadJoin(body, tail, codec);
    }
  }

  lemma Chain<T>(before: seq<T>, first: seq<T>, next: seq<T>, rest: seq<T>, last: seq<T>)
    requires next == before + first && last == next + rest
    ensures last == before + (first + rest)
  {
  }

  /**
   * For any sequence of appends, each cut at any byte, on any file: readers get what they got before,
   * followed in order by exactly the records whose text reached the file whole.
   */
  lemma {:induction false} ReadsExactlyWholeRecords<T(!new)>(prior: Bytes, writes: seq<Write<T>>, codec: Codec<T>)
    requires Sound(codec)
    ensures ReadLedger(Body(prior, writes, codec), codec) == ReadLedger(prior, codec) + Whole(writes, codec)
    decreases |writes|
  {
    if writes == [] {
      assert Body(prior, writes, codec) == prior && Whole(writes, codec) == [];
    } else {
      var next := Appended(prior, writes[0], codec);
      AppendReads(prior, writes[0], codec);
      ReadsExactlyWholeRecords(next, writes[1..], codec);
      Chain(ReadLedger(prior, codec), if ReachedWhole(writes[0], codec) then [writes[0].record] else [],
            ReadLedger(next, codec), Whole(writes[1..], codec), ReadLedger(Body(next, writes[1..], codec), codec));
    }
  }

  class LedgerFile<T(!new)> {
    const codec: Codec<T>
    var body: Bytes

    constructor (codec: Codec<T>, body: Bytes)
      ensures this.codec == codec && this.body == body
    {
      this.codec, this.body := codec, body;
    }

    /** One write call that puts `cut` bytes of the frame into the file; anything short is an error. */
    method Append(record: T, cut: nat) returns (ok: bool)
      modifies this
      ensures body == Appended(old(body), Write(record, cut), codec)
      ensures ok <==> cut >= |Frame(record, codec)|
    {
      var bytes := "\n" + codec.write(record) + "\n";
      var written := if cut < |bytes| then cut else |bytes|;
      body := body + bytes[..written];
      assert bytes[..|bytes|] == bytes;
      ok := written == |bytes|;
    }

    /** Blank lines and lines that do not parse are skipped. */
    method Read() returns (rows: seq<T>)
      ensures rows == ReadLedger(body, codec)
    {
      rows := ParseLines(Lines(body), codec);
    }
  }

  method ParseLines<T>(lines: seq<Bytes>, codec: Codec<T>) returns (rows: seq<T>)
    ensures rows == Rows(lines, codec)
  {
    rows := [];
    for i := 0 to |lines|
      invariant rows == Rows(lines[..i], codec)
    {
      RowsNext(lines[..i], lines[i], codec);
      assert lines[..i + 1] == lines[..i] + [lines[i]];
      if Blank(lines[i]) { continue; }
      var row := codec.parse(lines[i]);
      if row.Some? { rows := rows + [row.value]; }
    }
    assert lines[..|lines|] == lines;
  }

  lemma RowsNext<T>(lines: seq<Bytes>, line: Bytes, codec: Codec<T>)
    ensures Rows(lines + [line], codec) == Rows(lines, codec) + Row(line, codec)
  {
    RowsJoin(lines, [line], codec);
    assert [line][1..] == [];
    assert Rows([line], codec) == Row(line, codec) + Rows([], codec);
  }
}
