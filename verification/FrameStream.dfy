/** Reading and writing frames on a stream, and a snapshot sent in chunks. */
module FrameStream {
  import opened Bytes
  import opened FrameCodec

  const HEADER_SIZE := 9

  /** A stream of bytes: what is still to be read, or what was written. */
  class Stream {
    var data: seq<Byte>

    constructor (bytes: seq<Byte>)
      ensures data == bytes
    {
      data := bytes;
    }

    /** Filling part of a buffer completely, or running into the end of the stream. */
    method ReadFull(buffer: array<Byte>, lo: nat, hi: nat) returns (ok: bool)
      requires lo <= hi <= buffer.Length
      modifies this, buffer
      ensures ok <==> |old(data)| >= hi - lo
      ensures ok ==> data == old(data)[hi - lo..] && buffer[lo..hi] == old(data)[..hi - lo]
      ensures !ok ==> data == []
      ensures buffer[..lo] == old(buffer[..lo])
    {
      var i := lo;
      while i < hi && data != []
        invariant lo <= i <= hi && i - lo <= |old(data)| && data == old(data)[i - lo..]
        invariant buffer[lo..i] == old(data)[..i - lo] && buffer[..lo] == old(buffer[..lo])
      {
        buffer[i] := data[0];
        assert buffer[lo..i + 1] == buffer[lo..i] + [data[0]];
        data := data[1..];
        i := i + 1;
      }
      ok := i == hi;
    }

    /** Reading the type and the whole length field into the header buffer. */
    method ReadHeader(header: array<Byte>) returns (ok: bool)
      requires header.Length == HEADER_SIZE
      modifies this, header
      ensures ok <==> |old(data)| >= 2 && |old(data)| >= 1 + VarintLen(old(data)[1])
      ensures ok ==> var n := 1 + VarintLen(old(data)[1]); header[..n] == old(data)[..n] && data == old(data)[n..]
    {
      ghost var raw := data;
      ok := ReadFull(header, 0, 2);
      if !ok { return; }
      assert header[..2] == raw[..2] && header[1] == header[..2][1];
      var varintLen := VarintLen(header[1]);
      if varintLen > 1 {
        ok := ReadFull(header, 2, 1 + varintLen);
        if !ok { return; }
        assert header[..1 + varintLen] == header[..2] + header[2..1 + varintLen];
      }
    }

    /** Reading one frame, header first.  A header that was read completely always holds a varint. */
    method Read(maxPayload: int) returns (r: Result<Frame>)
      modifies this
      ensures match Decode(old(data), maxPayload)
        case Ok((f, total)) => r == Ok(f) && data == old(data)[total..]
        case Err(e) => r == Err(e)
    {
      ghost var raw := data;
      var header := new Byte[HEADER_SIZE];
      var ok := ReadHeader(header);
      if !ok { return Err(TruncatedVarint); }
      ghost var n := 1 + VarintLen(raw[1]);
      assert header[1] == header[..n][1] && header[0] == header[..n][0];
      var varint := header[1..1 + VarintLen(header[1])];
      assert varint == header[..n][1..] == raw[1..][..n - 1];
      SamePrefixSameVarint(raw[1..], varint);
      var (payloadLen, varintLen) := DecodeVarint(varint).value;
      if payloadLen > Limit(maxPayload) { return Err(PayloadTooLarge); }
      var payload := new Byte[payloadLen];
      ok := ReadFull(payload, 0, payloadLen);
      if !ok { return Err(UnexpectedEof); }
      SplitRest(raw, n, payloadLen);
      assert payload[..] == payload[0..payloadLen];
      r := Ok(Frame(header[0], payload[..]));
    }

    method Write(f: Frame) returns (error: Result<()>)
      modifies this
      ensures error == (if |f.payload| <= MAX_VARINT then Ok(()) else Err(InvalidVarint))
      ensures data == if error.Ok? then old(data) + Wire(f) else old(data)
    {
      var raw := Encode(f);
      if raw.Err? { return Err(raw.error); }
      data := data + raw.value;
      error := Ok(());
    }
  }

  lemma SplitRest(raw: seq<Byte>, n: nat, len: nat)
    requires n + len <= |raw|
    ensures raw[n..][..len] == raw[n..n + len] && raw[n..][len..] == raw[n + len..]
  {
  }

  /** Decoding a varint looks at no more bytes than the varint has. */
  lemma SamePrefixSameVarint(raw: seq<Byte>, head: seq<Byte>)
    requires |raw| > 0 && |head| == VarintLen(raw[0]) <= |raw| && head == raw[..|head|]
    ensures DecodeVarint(head) == DecodeVarint(raw) && DecodeVarint(raw).Ok?
  {
    assert head[..|head|] == head;
  }

  // ----- snapshots -----

  const SNAPSHOT_BEGIN: Byte := 0x10
  const SNAPSHOT_CHUNK: Byte := 0x11
  const SNAPSHOT_END: Byte := 0x13

  function MaxPayload(configured: int): (n: nat)
    ensures n > 0
  {
    if configured <= 0 then DEFAULT_MAX_PAYLOAD else configured
  }

  /** The snapshot cut into pieces of `max` bytes, the last one possibly shorter. */
  function Chunks(snapshot: seq<Byte>, max: nat): (cs: seq<seq<Byte>>)
    requires max > 0
    decreases |snapshot|
  {
    if |snapshot| == 0 then [] else if |snapshot| <= max then [snapshot]
      else [snapshot[..max]] + Chunks(snapshot[max..], max)
  }

  /** Together the chunks are the snapshot. */
  lemma {:induction false} ChunksJoin(snapshot: seq<Byte>, max: nat)
    requires max > 0
    ensures Joined(Chunks(snapshot, max)) == snapshot
    decreases |snapshot|
  {
    if |snapshot| == 0 {
    } else if |snapshot| <= max {
      assert Joined([snapshot]) == snapshot + Joined([]);
    } else {
      var head, rest := snapshot[..max], snapshot[max..];
      ChunksJoin(rest, max);
      assert ([head] + Chunks(rest, max))[1..] == Chunks(rest, max);
    }
  }

  /** Chunks are never empty and keep the limit. */
  lemma {:induction false} ChunkSizes(snapshot: seq<Byte>, max: nat, i: nat)
    requires max > 0 && i < |Chunks(snapshot, max)|
    ensures 0 < |Chunks(snapshot, max)[i]| <= max && |Chunks(snapshot, max)[i]| <= |snapshot|
    decreases |snapshot|
  {
    if |snapshot| > max && i > 0 { ChunkSizes(snapshot[max..], max, i - 1); }
  }

  /** Their number is the rounded-up quotient. */
  lemma {:induction false} ChunkCount(snapshot: seq<Byte>, max: nat)
    requires max > 0
    ensures max * (|Chunks(snapshot, max)| - 1) < |snapshot| <= max * |Chunks(snapshot, max)| || snapshot == []
    ensures snapshot == [] <==> Chunks(snapshot, max) == []
    decreases |snapshot|
  {
    if |snapshot| > max { ChunkCount(snapshot[max..], max); }
  }

  function ChunkFrames(cs: seq<seq<Byte>>): seq<Frame> {
    seq(|cs|, i requires 0 <= i < |cs| => Frame(SNAPSHOT_CHUNK, cs[i]))
  }

  /** All frames of a snapshot: begin, chunks, and an end that tells their number. */
  function SnapshotFrames(begin: seq<Byte>, snapshot: seq<Byte>, max: nat, end: nat -> seq<Byte>): seq<Frame>
    requires max > 0
  {
    var cs := Chunks(snapshot, max);
    [Frame(SNAPSHOT_BEGIN, begin)] + ChunkFrames(cs) + [Frame(SNAPSHOT_END, end(|cs|))]
  }

  /** A snapshot written to a stream reads back as its frames. */
  lemma SnapshotRoundTrip(begin: seq<Byte>, snapshot: seq<Byte>, max: nat, end: nat -> seq<Byte>, readLimit: int)
    requires max > 0 && |snapshot| <= MAX_VARINT && (max <= Limit(readLimit) || |snapshot| <= Limit(readLimit))
    requires |begin| <= MAX_VARINT && |begin| <= Limit(readLimit)
    requires |end(|Chunks(snapshot, max)|)| <= MAX_VARINT && |end(|Chunks(snapshot, max)|)| <= Limit(readLimit)
    ensures var fs := SnapshotFrames(begin, snapshot, max, end); DecodeAll(WireAll(fs), readLimit) == Ok(fs)
  {
    var fs := SnapshotFrames(begin, snapshot, max, end);
    forall i | 0 <= i < |fs| ensures |fs[i].payload| <= MAX_VARINT && |fs[i].payload| <= Limit(readLimit) {
      if 0 < i <= |Chunks(snapshot, max)| { ChunkSizes(snapshot, max, i - 1); }
    }
    AllRoundTrip(fs, readLimit);
  }

  function Payloads(fs: seq<Frame>): seq<seq<Byte>> {
    seq(|fs|, i requires 0 <= i < |fs| => fs[i].payload)
  }

  /** A whole snapshot as it arrives: begin, chunk frames that together are the snapshot, and an end with their
      number. */
  predicate Delivers(fs: seq<Frame>, begin: seq<Byte>, snapshot: seq<Byte>, end: nat -> seq<Byte>) {
    && |fs| >= 2
    && fs[0] == Frame(SNAPSHOT_BEGIN, begin)
    && fs[|fs| - 1] == Frame(SNAPSHOT_END, end(|fs| - 2))
    && (forall i :: 0 < i < |fs| - 1 ==> fs[i].typ == SNAPSHOT_CHUNK)
    && Joined(Payloads(fs[1..|fs| - 1])) == snapshot
  }

  lemma FramesDeliver(begin: seq<Byte>, snapshot: seq<Byte>, max: nat, end: nat -> seq<Byte>)
    requires max > 0
    ensures Delivers(SnapshotFrames(begin, snapshot, max, end), begin, snapshot, end)
  {
    var fs, cs := SnapshotFrames(begin, snapshot, max, end), Chunks(snapshot, max);
    assert fs[1..|fs| - 1] == ChunkFrames(cs);
    assert Payloads(ChunkFrames(cs)) == cs;
    ChunksJoin(snapshot, max);
  }

  /** Reading frame after frame what was written for a snapshot delivers the snapshot: its chunks joined are the
      snapshot, and their number is the one the end frame tells. */
  lemma SnapshotArrives(begin: seq<Byte>, snapshot: seq<Byte>, max: nat, end: nat -> seq<Byte>, readLimit: int)
    requires max > 0 && |snapshot| <= MAX_VARINT && (max <= Limit(readLimit) || |snapshot| <= Limit(readLimit))
    requires |begin| <= MAX_VARINT && |begin| <= Limit(readLimit)
    requires |end(|Chunks(snapshot, max)|)| <= MAX_VARINT && |end(|Chunks(snapshot, max)|)| <= Limit(readLimit)
    ensures var r := DecodeAll(WireAll(SnapshotFrames(begin, snapshot, max, end)), readLimit);
      r.Ok? && Delivers(r.value, begin, snapshot, end)
  {
    SnapshotRoundTrip(begin, snapshot, max, end, readLimit);
    FramesDeliver(begin, snapshot, max, end);
  }

  /** Frames already read, before what is still to come. */
  function After(fs: seq<Frame>, rest: Result<seq<Frame>>): Result<seq<Frame>> {
    match rest
    case Ok(gs) => Ok(fs + gs)
    case Err(e) => Err(e)
  }

  lemma AfterStart(raw: seq<Byte>, maxPayload: int)
    ensures After([], DecodeAll(raw, maxPayload)) == DecodeAll(raw, maxPayload)
  {
    var r := DecodeAll(raw, maxPayload);
    assert r.Ok? ==> [] + r.value == r.value;
  }

  lemma AfterEnd(fs: seq<Frame>, maxPayload: int)
    ensures After(fs, DecodeAll([], maxPayload)) == Ok(fs)
  {
    assert fs + [] == fs;
  }

  lemma AfterOne(fs: seq<Frame>, raw: seq<Byte>, maxPayload: int)
    requires raw != []
    ensures var d := Decode(raw, maxPayload);
      After(fs, DecodeAll(raw, maxPayload)) ==
        if d.Ok? then After(fs + [d.value.0], DecodeAll(raw[d.value.1..], maxPayload)) else Err(d.error)
  {
    var d := Decode(raw, maxPayload);
    if d.Ok? {
      var rest := DecodeAll(raw[d.value.1..], maxPayload);
      assert rest.Ok? ==> fs + ([d.value.0] + rest.value) == (fs + [d.value.0]) + rest.value;
    }
  }

  /** What a receiver gets that reads frame after frame until the stream ends or a frame is refused. */
  method ReadAll(stream: Stream, maxPayload: int) returns (r: Result<seq<Frame>>)
    modifies stream
    ensures r == DecodeAll(old(stream.data), maxPayload)
  {
    var fs: seq<Frame> := [];
    AfterStart(stream.data, maxPayload);
    while stream.data != []
      invariant DecodeAll(old(stream.data), maxPayload) == After(fs, DecodeAll(stream.data, maxPayload))
      decreases |stream.data|
    {
      AfterOne(fs, stream.data, maxPayload);
      var f := stream.Read(maxPayload);
      if f.Err? { return Err(f.error); }
      fs := fs + [f.value];
    }
    AfterEnd(fs, maxPayload);
    r := Ok(fs);
  }

  lemma {:induction false} ChunksStep(snapshot: seq<Byte>, max: nat, start: nat)
    requires max > 0 && start < |snapshot|
    ensures var end := if start + max > |snapshot| then |snapshot| else start + max;
      Chunks(snapshot[start..], max) == [snapshot[start..end]] + Chunks(snapshot[end..], max)
  {
    var rest := snapshot[start..];
    if |rest| > max {
      assert rest[..max] == snapshot[start..start + max] && rest[max..] == snapshot[start + max..];
    } else {
      assert snapshot[start..|snapshot|] == rest && snapshot[|snapshot|..] == [];
    }
  }

  /** The loop that writes a snapshot in chunks and counts them. */
  method WriteChunks(stream: Stream, snapshot: seq<Byte>, max: nat) returns (chunkCount: nat, error: Result<()>)
    requires max > 0
    modifies stream
    ensures |snapshot| <= MAX_VARINT ==> error == Ok(())
    ensures error.Ok? ==>
      chunkCount == |Chunks(snapshot, max)|
      && stream.data == old(stream.data) + WireAll(ChunkFrames(Chunks(snapshot, max)))
  {
    chunkCount := 0;
    error := Ok(());
    ghost var base := stream.data;
    ghost var done: seq<seq<Byte>> := [];
    assert snapshot[0..] == snapshot;
    var start := 0;
    while start < |snapshot|
      invariant 0 <= start <= |snapshot| && chunkCount == |done| && error == Ok(())
      invariant done + Chunks(snapshot[start..], max) == Chunks(snapshot, max)
      invariant stream.data == base + WireAll(ChunkFrames(done))
      decreases |snapshot| - start
    {
      var end := start + max;
      if end > |snapshot| { end := |snapshot|; }
      var piece := snapshot[start..end];
      error := stream.Write(Frame(SNAPSHOT_CHUNK, piece));
      if error.Err? { return; }
      ChunkTaken(done, snapshot, max, start, end, piece);
      ChunkWritten(base, done, piece);
      done := done + [piece];
      chunkCount := chunkCount + 1;
      start := end;
    }
    assert done + [] == done;
  }

  lemma ChunkTaken(done: seq<seq<Byte>>, snapshot: seq<Byte>, max: nat, start: nat, end: nat, piece: seq<Byte>)
    requires max > 0 && start < |snapshot| && end == (if start + max > |snapshot| then |snapshot| else start + max)
      && piece == snapshot[start..end]
    ensures (done + [piece]) + Chunks(snapshot[end..], max) == done + Chunks(snapshot[start..], max)
  {
    ChunksStep(snapshot, max, start);
    assert done + ([piece] + Chunks(snapshot[end..], max)) == (done + [piece]) + Chunks(snapshot[end..], max);
  }

  lemma ChunkWritten(base: seq<Byte>, done: seq<seq<Byte>>, c: seq<Byte>)
    ensures base + WireAll(ChunkFrames(done)) + Wire(Frame(SNAPSHOT_CHUNK, c)) ==
      base + WireAll(ChunkFrames(done + [c]))
  {
    assert ChunkFrames(done + [c]) == ChunkFrames(done) + [Frame(SNAPSHOT_CHUNK, c)];
    WireAllSnoc(ChunkFrames(done), Frame(SNAPSHOT_CHUNK, c));
  }

  lemma WiresBetween(b: Frame, fs: seq<Frame>, e: Frame)
    ensures Wires([b] + fs + [e]) == [Wire(b)] + Wires(fs) + [Wire(e)]
  {
  }

  /** The bytes of a whole snapshot, after what was on the stream before. */
  lemma SnapshotWire(base: seq<Byte>, begin: seq<Byte>, snapshot: seq<Byte>, max: nat, end: nat -> seq<Byte>)
    requires max > 0
    ensures var cs := Chunks(snapshot, max);
      base + Wire(Frame(SNAPSHOT_BEGIN, begin)) + WireAll(ChunkFrames(cs)) + Wire(Frame(SNAPSHOT_END, end(|cs|)))
      == base + WireAll(SnapshotFrames(begin, snapshot, max, end))
  {
    var cs := Chunks(snapshot, max);
    var b, fs, e := Frame(SNAPSHOT_BEGIN, begin), ChunkFrames(cs), Frame(SNAPSHOT_END, end(|cs|));
    JoinedBetween(base, Wire(b), Wires(fs), Wire(e));
    WiresBetween(b, fs, e);
  }

  /** Writing a snapshot: begin, chunks if there is one, and an end that tells their number. */
  method WriteSnapshot(stream: Stream, begin: seq<Byte>, snapshot: seq<Byte>, present: bool, configured: int,
                       end: nat -> seq<Byte>) returns (error: Result<()>)
    modifies stream
    ensures var shown := if present then snapshot else [];
      error.Ok? ==> stream.data == old(stream.data) + WireAll(SnapshotFrames(begin, shown, MaxPayload(configured), end))
    ensures |begin| <= MAX_VARINT && |snapshot| <= MAX_VARINT && (forall n :: |end(n)| <= MAX_VARINT) ==> error.Ok?
  {
    var max := MaxPayload(configured);
    SnapshotWire(stream.data, begin, if present then snapshot else [], max, end);
    error := stream.Write(Frame(SNAPSHOT_BEGIN, begin));
    if error.Err? { return; }
    var chunkCount;
    chunkCount, error := WriteChunks(stream, if present then snapshot else [], max);
    if error.Err? { return; }
    error := stream.Write(Frame(SNAPSHOT_END, end(chunkCount)));
  }
}
