/** The streaming reader of newline-separated records (runners/codex.py, _iter_jsonl_records). */
module RecordReader {

  type Byte = bv8

  const NEWLINE: Byte := 10

  const EVENT_MAX_BYTES: nat := 32 * 1024 * 1024

  /** What is kept of a line, and how many bytes of it are dropped. */
  datatype Record = Record(data: seq<Byte>, omitted: nat)

  // ---- reference: split the whole stream, then clip each line ----

  /** The lines of a stream; the last one is not terminated and may be empty. */
  function Split(s: seq<Byte>): (lines: seq<seq<Byte>>)
    ensures |lines| > 0
  {
    if s == [] then [[]]
    else
      var lines, b := Split(s[..|s| - 1]), s[|s| - 1];
      if b == NEWLINE then lines + [[]] else lines[|lines| - 1 := lines[|lines| - 1] + [b]]
  }

  /** The inverse of Split. */
  function Join(lines: seq<seq<Byte>>): seq<Byte>
    requires |lines| > 0
  {
    if |lines| == 1 then lines[0] else Join(lines[..|lines| - 1]) + [NEWLINE] + lines[|lines| - 1]
  }

  lemma {:induction false} JoinSplit(s: seq<Byte>)
    ensures Join(Split(s)) == s
    ensures forall line | line in Split(s) :: NEWLINE !in line
  {
    if s != [] {
      var init := s[..|s| - 1];
      JoinSplit(init);
      var lines := Split(init);
      if s[|s| - 1] == NEWLINE {
        assert Split(s)[..|lines|] == lines;
      } else {
        assert Split(s)[..|lines| - 1] == lines[..|lines| - 1];
      }
    }
  }

  lemma {:induction false} SplitJoin(lines: seq<seq<Byte>>)
    requires |lines| > 0 && forall line | line in lines :: NEWLINE !in line
    ensures Split(Join(lines)) == lines
  {
    if |lines| == 1 {
      SplitMore([], lines[0]);
      assert [] + lines[0] == lines[0];
    } else {
      var init, last := lines[..|lines| - 1], lines[|lines| - 1];
      SplitJoin(init);
      var s := Join(init) + [NEWLINE];
      assert s[..|s| - 1] == Join(init) && last in lines;
      assert Split(s) == init + [[]];
      SplitMore(s, last);
      assert [] + last == last;
    }
  }

  /** Bytes without a newline extend the last line. */
  lemma {:induction false} SplitMore(s: seq<Byte>, piece: seq<Byte>)
    requires NEWLINE !in piece
    ensures Split(s + piece) == Split(s)[|Split(s)| - 1 := Split(s)[|Split(s)| - 1] + piece]
  {
    var last := Split(s)[|Split(s)| - 1];
    if piece == [] {
      assert s + piece == s && last + piece == last;
    } else {
      var init, b := piece[..|piece| - 1], piece[|piece| - 1];
      SplitMore(s, init);
      assert (s + piece)[..|s + piece| - 1] == s + init && b in piece;
      assert last + init + [b] == last + piece;
    }
  }

  function Clip(line: seq<Byte>): Record {
    if |line| <= EVENT_MAX_BYTES then Record(line, 0)
    else Record(line[..EVENT_MAX_BYTES], |line| - EVENT_MAX_BYTES)
  }

  function ClipAll(lines: seq<seq<Byte>>): seq<Record> {
    seq(|lines|, i requires 0 <= i < |lines| => Clip(lines[i]))
  }

  /** Every terminated line is a record; an unterminated one is, unless it is empty. */
  function Records(s: seq<Byte>): seq<Record> {
    var lines := Split(s);
    if lines[|lines| - 1] == [] then ClipAll(lines[..|lines| - 1]) else ClipAll(lines)
  }

  // ---- the reader ----

  function Flatten(chunks: seq<seq<Byte>>): seq<Byte> {
    if chunks == [] then [] else Flatten(chunks[..|chunks| - 1]) + chunks[|chunks| - 1]
  }

  /** An empty chunk is the end of the stream. */
  function BeforeEnd(chunks: seq<seq<Byte>>): seq<seq<Byte>> {
    if chunks == [] || chunks[0] == [] then [] else [chunks[0]] + BeforeEnd(chunks[1..])
  }

  /** chunk.find(newline, start) */
  method Find(chunk: seq<Byte>, start: nat) returns (newline: int)
    requires start <= |chunk|
    ensures newline == -1 ==> NEWLINE !in chunk[start..]
    ensures newline != -1 ==> start <= newline < |chunk| && chunk[newline] == NEWLINE && NEWLINE !in chunk[start..newline]
  {
    newline := start;
    while newline < |chunk|
      invariant start <= newline <= |chunk| && NEWLINE !in chunk[start..newline]
    {
      if chunk[newline] == NEWLINE {
        return;
      }
      newline := newline + 1;
    }
    newline := -1;
  }

  /** What the reader holds once it has consumed `done`. */
  ghost predicate Holds(done: seq<Byte>, records: seq<Record>, buffer: seq<Byte>, omitted: nat) {
    var lines := Split(done);
    records == ClipAll(lines[..|lines| - 1]) && Record(buffer, omitted) == Clip(lines[|lines| - 1])
  }

  lemma HoldsMore(done: seq<Byte>, records: seq<Record>, buffer: seq<Byte>, omitted: nat, piece: seq<Byte>,
                  buffer': seq<Byte>, omitted': nat)
    requires Holds(done, records, buffer, omitted) && NEWLINE !in piece
    requires if omitted > 0 then buffer' == buffer && omitted' == omitted + |piece|
             else if |piece| <= EVENT_MAX_BYTES - |buffer| then buffer' == buffer + piece && omitted' == 0
             else buffer' == buffer + piece[..EVENT_MAX_BYTES - |buffer|] && omitted' == |piece| - (EVENT_MAX_BYTES - |buffer|)
    ensures Holds(done + piece, records, buffer', omitted')
  {
    SplitMore(done, piece);
    var lines := Split(done);
    assert Split(done + piece)[..|lines| - 1] == lines[..|lines| - 1];
  }

  lemma HoldsNewline(done: seq<Byte>, records: seq<Record>, buffer: seq<Byte>, omitted: nat)
    requires Holds(done, records, buffer, omitted)
    ensures Holds(done + [NEWLINE], records + [Record(buffer, omitted)], [], 0)
  {
  }

  /** However the stream is cut into chunks, the reader yields the records of the whole stream. */
  method ReadRecords(chunks: seq<seq<Byte>>) returns (records: seq<Record>)
    ensures records == Records(Flatten(BeforeEnd(chunks)))
  {
    records := [];
    var buffer: seq<Byte>, omitted: nat := [], 0;
    var i := 0;
    ghost var done: seq<Byte> := [];
    while i < |chunks| && chunks[i] != []
      invariant 0 <= i <= |chunks|
      invariant Consumed(chunks, i)
      invariant done == Flatten(chunks[..i])
      invariant Holds(done, records, buffer, omitted)
    {
      var chunk := chunks[i];
      records, buffer, omitted := ReadChunk(chunk, records, buffer, omitted, done);
      FlattenMore(chunks, i);
      ConsumedMore(chunks, i);
      done := done + chunk;
      i := i + 1;
    }
    assert BeforeEnd(chunks) == chunks[..i];
    LastRecord(done, records, buffer, omitted);
    if buffer != [] || omitted > 0 {
      records := records + [Record(buffer, omitted)];
    }
  }

  lemma LastRecord(done: seq<Byte>, records: seq<Record>, buffer: seq<Byte>, omitted: nat)
    requires Holds(done, records, buffer, omitted)
    ensures Records(done) == if buffer != [] || omitted > 0 then records + [Record(buffer, omitted)] else records
  {
  }

  lemma FlattenMore(chunks: seq<seq<Byte>>, i: nat)
    requires i < |chunks|
    ensures Flatten(chunks[..i + 1]) == Flatten(chunks[..i]) + chunks[i]
  {
    assert chunks[..i + 1][..i] == chunks[..i];
  }

  ghost predicate Consumed(chunks: seq<seq<Byte>>, i: nat) {
    i <= |chunks| && BeforeEnd(chunks) == chunks[..i] + BeforeEnd(chunks[i..])
  }

  lemma ConsumedMore(chunks: seq<seq<Byte>>, i: nat)
    requires Consumed(chunks, i) && i < |chunks| && chunks[i] != []
    ensures Consumed(chunks, i + 1)
  {
  }

  method ReadChunk(chunk: seq<Byte>, records0: seq<Record>, buffer0: seq<Byte>, omitted0: nat, ghost done: seq<Byte>)
    returns (records: seq<Record>, buffer: seq<Byte>, omitted: nat)
    requires Holds(done, records0, buffer0, omitted0)
    ensures Holds(done + chunk, records, buffer, omitted)
  {
    records, buffer, omitted := records0, buffer0, omitted0;
    var start := 0;
    assert done + chunk[..0] == done;
    while start < |chunk|
      invariant start <= |chunk| && Holds(done + chunk[..start], records, buffer, omitted)
    {
      var newline := Find(chunk, start);
      var end := if newline >= 0 then newline else |chunk|;
      var piece := chunk[start..end];
      ghost var was := buffer;
      ghost var wasOmitted := omitted;
      if omitted > 0 {
        omitted := omitted + |piece|;
      } else {
        var remaining := EVENT_MAX_BYTES - |buffer|;
        if |piece| <= remaining {
          buffer := buffer + piece;
        } else {
          buffer := buffer + piece[..remaining];
          omitted := |piece| - remaining;
        }
      }
      HoldsMore(done + chunk[..start], records, was, wasOmitted, piece, buffer, omitted);
      assert done + chunk[..start] + piece == done + chunk[..end];
      if newline >= 0 {
        HoldsNewline(done + chunk[..end], records, buffer, omitted);
        assert done + chunk[..end] + [NEWLINE] == done + chunk[..end + 1];
        records := records + [Record(buffer, omitted)];
        buffer, omitted := [], 0;
        start := newline + 1;
      } else {
        start := |chunk|;
      }
    }
    assert chunk[..|chunk|] == chunk;
  }

  // ---- no byte is lost or counted twice ----

  function Bytes(records: seq<Record>): nat {
    if records == [] then 0
    else Bytes(records[..|records| - 1]) + |records[|records| - 1].data| + records[|records| - 1].omitted
  }

  function Newlines(s: seq<Byte>): nat {
    if s == [] then 0 else Newlines(s[..|s| - 1]) + if s[|s| - 1] == NEWLINE then 1 else 0
  }

  lemma {:induction false} Conservation(s: seq<Byte>)
    ensures Bytes(Records(s)) + Newlines(s) == |s|
  {
    SplitConserves(s);
    var lines := Split(s);
    if lines[|lines| - 1] == [] {
      assert ClipAll(lines)[..|lines| - 1] == ClipAll(lines[..|lines| - 1]);
    }
  }

  lemma {:induction false} SplitConserves(s: seq<Byte>)
    ensures Bytes(ClipAll(Split(s))) + Newlines(s) == |s|
  {
    if s == [] {
      assert ClipAll([[]])[..0] == [];
    } else {
      var init, b := s[..|s| - 1], s[|s| - 1];
      SplitConserves(init);
      var lines, more := Split(init), Split(s);
      var n := |more| - 1;
      if b == NEWLINE {
        assert ClipAll(more)[..n] == ClipAll(lines);
      } else {
        assert ClipAll(more)[..n] == ClipAll(lines)[..n];
      }
    }
  }
}
