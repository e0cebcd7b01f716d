/** Splitting the app-server's stderr into log entries while it arrives in chunks. */
module AppServerStderr {

  type Byte = bv8

  const NEWLINE: Byte := 10
  const ENTRY_BYTES := 4096

  /** One entry of the tail: the bytes kept of a line, and whether the line was longer. */
  datatype Entry = Entry(bytes: seq<Byte>, truncated: bool)

  /** `data.split(b"\n")`: the pieces between newlines, at least one. */
  function Split(data: seq<Byte>): (parts: seq<seq<Byte>>)
    ensures |parts| > 0
  {
    if data == [] then [[]]
    else
      var rest := Split(data[1..]);
      if data[0] == NEWLINE then [[]] + rest else [[data[0]] + rest[0]] + rest[1..]
  }

  function Kept(line: seq<Byte>): seq<Byte> {
    if |line| <= ENTRY_BYTES then line else line[..ENTRY_BYTES]
  }

  function EntryOf(line: seq<Byte>): Entry {
    Entry(Kept(line), |line| > ENTRY_BYTES)
  }

  function EntriesOf(lines: seq<seq<Byte>>): seq<Entry> {
    seq(|lines|, i requires 0 <= i < |lines| => EntryOf(lines[i]))
  }

  function AllButLast<T>(s: seq<T>): seq<T>
    requires |s| > 0
  {
    s[..|s| - 1]
  }

  function Last<T>(s: seq<T>): T
    requires |s| > 0
  {
    s[|s| - 1]
  }

  /** What a whole stream should log: its lines, without a final empty one. */
  function StreamEntries(data: seq<Byte>): seq<Entry> {
    var parts := Split(data);
    EntriesOf(if Last(parts) == [] then AllButLast(parts) else parts)
  }

  function Concat(chunks: seq<seq<Byte>>): seq<Byte> {
    if chunks == [] then [] else Concat(AllButLast(chunks)) + Last(chunks)
  }

  /** The stream ends at the first empty read. */
  function UpToEof(blocks: seq<seq<Byte>>): seq<seq<Byte>> {
    if blocks == [] || blocks[0] == [] then [] else [blocks[0]] + UpToEof(blocks[1..])
  }

  /* ---- splitting is compatible with concatenation ---- */

  /** Splitting a longer text continues the last piece of the shorter one. */
  lemma {:induction false} SplitConcat(a: seq<Byte>, b: seq<Byte>)
    ensures Split(a + b) == AllButLast(Split(a)) + [Last(Split(a)) + Split(b)[0]] + Split(b)[1..]
  {
    if a == [] {
      assert a + b == b && [] + Split(b)[0] == Split(b)[0];
      assert Split(b) == [Split(b)[0]] + Split(b)[1..];
    } else {
      assert (a + b)[1..] == a[1..] + b;
      SplitConcat(a[1..], b);
      SplitHead(a, Split(a[1..]), Split(b));
    }
  }

  lemma SplitHead(a: seq<Byte>, rest: seq<seq<Byte>>, more: seq<seq<Byte>>)
    requires a != [] && |rest| > 0 && |more| > 0
    ensures var joined := AllButLast(rest) + [Last(rest) + more[0]] + more[1..];
      var parts := if a[0] == NEWLINE then [[]] + rest else [[a[0]] + rest[0]] + rest[1..];
      (if a[0] == NEWLINE then [[]] + joined else [[a[0]] + joined[0]] + joined[1..])
        == AllButLast(parts) + [Last(parts) + more[0]] + more[1..]
  {
    if |rest| == 1 && a[0] != NEWLINE {
      assert [a[0]] + (rest[0] + more[0]) == ([a[0]] + rest[0]) + more[0];
    }
  }

  function Join(parts: seq<seq<Byte>>): seq<Byte>
    requires |parts| > 0
  {
    if |parts| == 1 then parts[0] else parts[0] + [NEWLINE] + Join(parts[1..])
  }

  /** The pieces hold no newline and, joined by newlines, give the text back. */
  lemma {:induction false} SplitMeansLines(data: seq<Byte>)
    ensures Join(Split(data)) == data
    ensures forall i :: 0 <= i < |Split(data)| ==> NEWLINE !in Split(data)[i]
  {
    if data != [] {
      SplitMeansLines(data[1..]);
      var rest := Split(data[1..]);
      if data[0] == NEWLINE {
        assert Split(data)[1..] == rest;
      } else {
        assert Split(data)[1..] == rest[1..];
      }
    }
  }

  /** The entries of a stream are its lines: of each the first 4096 bytes, marked as truncated exactly if it is longer. A
      stream that ends with a newline has no further line. */
  lemma EntriesAreLines(data: seq<Byte>)
    ensures var lines, entries := Split(data), StreamEntries(data);
      && |entries| == (if lines[|lines| - 1] == [] then |lines| - 1 else |lines|)
      && forall k :: 0 <= k < |entries| ==>
        && (entries[k].truncated <==> |lines[k]| > 4096)
        && (|lines[k]| <= 4096 ==> entries[k].bytes == lines[k])
        && (|lines[k]| > 4096 ==> entries[k].bytes == lines[k][..4096])
  {
  }

  /** The reader's state: what was logged and the line in progress. */
  ghost predicate InProgress(data: seq<Byte>, entries: seq<Entry>, buffered: seq<Byte>, truncated: bool) {
    var parts := Split(data);
    && entries == EntriesOf(AllButLast(parts))
    && buffered == Kept(Last(parts)) && truncated == (|Last(parts)| > ENTRY_BYTES)
  }

  /** One piece of a chunk, appended to the line in progress. */
  lemma PieceExtendsLine(line: seq<Byte>, piece: seq<Byte>)
    ensures var remaining := ENTRY_BYTES - |Kept(line)|;
      && Kept(line + piece) == Kept(line) + (if |piece| <= remaining then piece else piece[..remaining])
      && (|line + piece| > ENTRY_BYTES <==> |line| > ENTRY_BYTES || |piece| > remaining)
  {
  }

  method AppendPiece(buffered: seq<Byte>, truncated: bool, piece: seq<Byte>, ghost line: seq<Byte>)
    returns (buffered': seq<Byte>, truncated': bool)
    requires buffered == Kept(line) && truncated == (|line| > ENTRY_BYTES)
    ensures buffered' == Kept(line + piece) && truncated' == (|line + piece| > ENTRY_BYTES)
  {
    PieceExtendsLine(line, piece);
    buffered', truncated' := buffered, truncated;
    var remaining := ENTRY_BYTES - |buffered|;
    if remaining > 0 {
      buffered' := buffered + if |piece| <= remaining then piece else piece[..remaining];
    }
    if |piece| > remaining {
      truncated' := true;
    }
  }

  /** The loop over the pieces of one chunk; `data` is what came before it. Every piece but the last
      completes a line. */
  method ReadChunk(ghost data: seq<Byte>, entries: seq<Entry>, buffered: seq<Byte>, truncated: bool, chunk: seq<Byte>)
    returns (entries': seq<Entry>, buffered': seq<Byte>, truncated': bool)
    requires InProgress(data, entries, buffered, truncated)
    ensures InProgress(data + chunk, entries', buffered', truncated')
  {
    var parts := Split(chunk);
    SplitConcat(data, chunk);
    ghost var lines, line := AllButLast(Split(data)), Last(Split(data));
    entries', buffered', truncated' := entries, buffered, truncated;
    var index := 0;
    while index < |parts| - 1
      invariant 0 <= index < |parts|
      invariant entries' == EntriesOf(lines) && buffered' == Kept(line) && truncated' == (|line| > ENTRY_BYTES)
      invariant Split(data + chunk) == lines + [line + parts[index]] + parts[index + 1..]
    {
      buffered', truncated' := AppendPiece(buffered', truncated', parts[index], line);
      entries' := LogEntry(entries', buffered', truncated', lines, line + parts[index]);
      NextPiece(lines, line + parts[index], parts, index);
      lines, line := lines + [line + parts[index]], [];
      buffered', truncated' := [], false;
      index := index + 1;
    }
    buffered', truncated' := AppendPiece(buffered', truncated', parts[index], line);
    assert Split(data + chunk) == lines + [line + parts[index]];
  }

  lemma NextPiece(lines: seq<seq<Byte>>, line: seq<Byte>, parts: seq<seq<Byte>>, index: nat)
    requires index + 1 < |parts|
    ensures lines + [line] + parts[index + 1..] == (lines + [line]) + [[] + parts[index + 1]] + parts[index + 2..]
  {
    assert [] + parts[index + 1] == parts[index + 1];
    assert parts[index + 1..] == [parts[index + 1]] + parts[index + 2..];
  }

  method LogEntry(entries: seq<Entry>, buffered: seq<Byte>, truncated: bool,
                  ghost lines: seq<seq<Byte>>, ghost line: seq<Byte>) returns (entries': seq<Entry>)
    requires entries == EntriesOf(lines) && buffered == Kept(line) && truncated == (|line| > ENTRY_BYTES)
    ensures entries' == EntriesOf(lines + [line])
  {
    entries' := entries + [Entry(buffered, truncated)];
  }

  /** `_drain_stderr`: the entries are those of the whole stream, however it was cut into blocks. */
  method DrainStderr(blocks: seq<seq<Byte>>, tailLines: nat) returns (entries: seq<Entry>, tail: seq<Entry>)
    ensures entries == StreamEntries(Concat(UpToEof(blocks)))
    ensures |tail| == (if |entries| <= tailLines then |entries| else tailLines)
    ensures entries[|entries| - |tail|..] == tail
  {
    entries := [];
    var buffered: seq<Byte>, truncated := [], false;
    ghost var data := [];
    var i := 0;
    FirstRead(blocks);
    while i < |blocks| && blocks[i] != []
      invariant 0 <= i <= |blocks| && HasRead(blocks, i, data)
      invariant InProgress(data, entries, buffered, truncated)
    {
      entries, buffered, truncated := ReadChunk(data, entries, buffered, truncated, blocks[i]);
      NextRead(blocks, i, data);
      data, i := data + blocks[i], i + 1;
    }
    LastRead(blocks, i, data);
    entries := LogRest(data, entries, buffered, truncated);
    tail := if |entries| <= tailLines then entries else entries[|entries| - tailLines..];
  }

  /** End of stream: a line without a newline is logged too. */
  method LogRest(ghost data: seq<Byte>, entries: seq<Entry>, buffered: seq<Byte>, truncated: bool)
    returns (entries': seq<Entry>)
    requires InProgress(data, entries, buffered, truncated)
    ensures entries' == StreamEntries(data)
  {
    entries' := entries;
    ghost var parts := Split(data);
    if |buffered| > 0 || truncated {
      entries' := LogEntry(entries, buffered, truncated, AllButLast(parts), Last(parts));
      assert parts == AllButLast(parts) + [Last(parts)];
    }
  }

  /** The first `i` blocks hold `data`, and the stream did not end within them. */
  ghost predicate HasRead(blocks: seq<seq<Byte>>, i: nat, data: seq<Byte>) {
    i <= |blocks| && data == Concat(blocks[..i]) && UpToEof(blocks) == blocks[..i] + UpToEof(blocks[i..])
  }

  lemma FirstRead(blocks: seq<seq<Byte>>)
    ensures HasRead(blocks, 0, []) && InProgress([], [], [], false)
  {
    assert blocks[0..] == blocks && blocks[..0] == [] && [] + UpToEof(blocks) == UpToEof(blocks);
    assert AllButLast(Split([])) == [];
  }

  lemma NextRead(blocks: seq<seq<Byte>>, i: nat, data: seq<Byte>)
    requires HasRead(blocks, i, data) && i < |blocks| && blocks[i] != []
    ensures HasRead(blocks, i + 1, data + blocks[i])
  {
    assert AllButLast(blocks[..i + 1]) == blocks[..i] && blocks[i..][1..] == blocks[i + 1..];
    assert blocks[..i + 1] == blocks[..i] + [blocks[i]];
  }

  lemma LastRead(blocks: seq<seq<Byte>>, i: nat, data: seq<Byte>)
    requires HasRead(blocks, i, data) && (i == |blocks| || blocks[i] == [])
    ensures data == Concat(UpToEof(blocks))
  {
    assert UpToEof(blocks[i..]) == [];
    assert UpToEof(blocks) == blocks[..i];
  }
}
