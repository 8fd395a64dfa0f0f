/** Frames on the wire: a type byte, a variable-length integer (section 16 of RFC 9000)
    and that many bytes of payload. */
module FrameCodec {
  import opened Bytes

  datatype Frame = Frame(typ: Byte, payload: seq<Byte>)
  datatype Error = TruncatedVarint | PayloadTooLarge | UnexpectedEof | InvalidVarint
  datatype Result<T> = Ok(value: T) | Err(error: Error)

  const MAX_VARINT := 4_611_686_018_427_387_903
  const DEFAULT_MAX_PAYLOAD := 0x10_0000

  // ----- variable-length integers -----

  function VarintLen(first: Byte): nat {
    match first / 64
    case 0 => 1
    case 1 => 2
    case 2 => 4
    case _ => 8
  }

  /** The number of bytes a value is written in. */
  function Width(n: nat): nat {
    if n <= 63 then 1 else if n <= 16_383 then 2 else if n <= 1_073_741_823 then 4 else 8
  }

  /** The value with the tag of its width in the two highest bits. */
  function Tagged(n: nat): nat {
    if n <= 63 then n else if n <= 16_383 then n + 0x4000 else if n <= 1_073_741_823 then n + 0x8000_0000
      else n + 0xc000_0000_0000_0000
  }

  function EncodeVarint(n: nat): Result<seq<Byte>> {
    if n <= MAX_VARINT then Ok(BigEndian(Tagged(n), Width(n))) else Err(InvalidVarint)
  }

  /** The value without the two bits that tell the length. */
  function Masked(n: nat, len: nat): nat {
    match len
    case 1 => n % 0x40
    case 2 => n % 0x4000
    case 4 => n % 0x4000_0000
    case _ => n % 0x4000_0000_0000_0000
  }

  function DecodeVarint(raw: seq<Byte>): (r: Result<(nat, nat)>)
    ensures r.Ok? ==> 1 <= r.value.1 <= |raw| && r.value.1 <= 8 && r.value.0 <= MAX_VARINT
  {
    if |raw| == 0 then Err(TruncatedVarint) else
      var len := VarintLen(raw[0]);
      if |raw| < len then Err(TruncatedVarint) else Ok((Masked(Value(raw[..len]), len), len))
  }

  /** Reading a notation whose first byte tells its length. */
  lemma TaggedReads(m: nat, w: nat, tail: seq<Byte>)
    requires w > 0 && m < Pow256(w) && VarintLen(BigEndian(m, w)[0]) == w
    ensures DecodeVarint(BigEndian(m, w) + tail) == Ok((Masked(m, w), w))
  {
    var s := BigEndian(m, w);
    ValueOfBigEndian(m, w);
    assert (s + tail)[..w] == s && (s + tail)[0] == s[0];
  }

  /** The first byte counts how often the weight of the rest goes into the number. */
  lemma HeadBounds(m: nat, w: nat, unit: nat)
    requires w > 0 && unit == Pow256(w - 1) && m < Pow256(w)
    ensures var b: int := BigEndian(m, w)[0]; b * unit <= m < b * unit + unit
  {
    var s := BigEndian(m, w);
    ValueOfBigEndian(m, w);
    ValueHead(s);
    ValueBound(s[1..]);
  }

  lemma Less(x: int, y: int, unit: nat)
    requires x * unit < y * unit
    ensures x < y
  {
    assert x >= y ==> (x - y) * unit >= 0;
  }

  /** The first byte of a number in a quarter of its range tells the quarter. */
  lemma FirstByte(m: nat, w: nat, unit: nat, low: int, high: int)
    requires w > 0 && unit == Pow256(w - 1) && m < Pow256(w) && low * unit <= m < high * unit
    ensures low <= BigEndian(m, w)[0] < high
  {
    var b: int := BigEndian(m, w)[0];
    HeadBounds(m, w, unit);
    assert (b + 1) * unit == b * unit + unit;
    Less(low, b + 1, unit);
    Less(b, high, unit);
  }

  lemma TagTellsLength(n: nat)
    requires n <= MAX_VARINT
    ensures Tagged(n) < Pow256(Width(n)) && VarintLen(BigEndian(Tagged(n), Width(n))[0]) == Width(n)
      && Masked(Tagged(n), Width(n)) == n
  {
    Powers();
    assert Pow256(0) == 1 && Pow256(3) == 0x100_0000 && Pow256(7) == 0x100_0000_0000_0000;
    var tag := if n <= 63 then 0 else if n <= 16_383 then 1 else if n <= 1_073_741_823 then 2 else 3;
    FirstByte(Tagged(n), Width(n), Pow256(Width(n) - 1), 64 * tag, 64 * tag + 64);
  }

  /** A varint is read back, whatever follows it. */
  lemma VarintRoundTrip(n: nat, tail: seq<Byte>)
    requires n <= MAX_VARINT
    ensures EncodeVarint(n).Ok? && DecodeVarint(EncodeVarint(n).value + tail) == Ok((n, |EncodeVarint(n).value|))
  {
    TagTellsLength(n);
    TaggedReads(Tagged(n), Width(n), tail);
  }

  // ----- frames -----

  function Encode(f: Frame): Result<seq<Byte>> {
    match EncodeVarint(|f.payload|)
    case Err(e) => Err(e)
    case Ok(length) => Ok([f.typ] + length + f.payload)
  }

  /** The limit as the program compares it: an unsigned 64-bit number. */
  function Limit(maxPayload: int): int {
    maxPayload % 0x1_0000_0000_0000_0000
  }

  function Decode(raw: seq<Byte>, maxPayload: int): (r: Result<(Frame, nat)>)
    ensures r.Ok? ==> 2 <= r.value.1 <= |raw|
  {
    if |raw| < 2 then Err(TruncatedVarint) else
      match DecodeVarint(raw[1..])
      case Err(e) => Err(e)
      case Ok((payloadLen, varintLen)) =>
        if payloadLen > Limit(maxPayload) then Err(PayloadTooLarge) else
          var header := 1 + varintLen;
          var total := header + payloadLen;
          if |raw| < total then Err(UnexpectedEof) else Ok((Frame(raw[0], raw[header..total]), total))
  }

  /** An encoded frame within the limit is read back, whatever follows it. */
  lemma FrameRoundTrip(f: Frame, tail: seq<Byte>, maxPayload: int)
    requires |f.payload| <= MAX_VARINT && |f.payload| <= Limit(maxPayload)
    ensures Encode(f).Ok? && Decode(Encode(f).value + tail, maxPayload) == Ok((f, |Encode(f).value|))
  {
    var length := EncodeVarint(|f.payload|).value;
    VarintRoundTrip(|f.payload|, f.payload + tail);
    var raw := Encode(f).value + tail;
    assert raw[1..] == length + (f.payload + tail);
    assert raw[1 + |length|..1 + |length| + |f.payload|] == f.payload;
  }

  // ----- sequences of frames -----

  /** The bytes of a frame that can be encoded. */
  function Wire(f: Frame): seq<Byte> {
    if Encode(f).Ok? then Encode(f).value else []
  }

  /** Frames written one after the other. */
  function WireAll(fs: seq<Frame>): seq<Byte> {
    Joined(Wires(fs))
  }

  function Wires(fs: seq<Frame>): seq<seq<Byte>> {
    seq(|fs|, i requires 0 <= i < |fs| => Wire(fs[i]))
  }

  /** Reading frames until nothing is left. */
  function DecodeAll(raw: seq<Byte>, maxPayload: int): Result<seq<Frame>>
    decreases |raw|
  {
    if raw == [] then Ok([]) else
      match Decode(raw, maxPayload)
      case Err(e) => Err(e)
      case Ok((f, total)) =>
        match DecodeAll(raw[total..], maxPayload)
        case Err(e) => Err(e)
        case Ok(rest) => Ok([f] + rest)
  }

  ghost predicate Fits(fs: seq<Frame>, maxPayload: int) {
    forall i :: 0 <= i < |fs| ==> |fs[i].payload| <= MAX_VARINT && |fs[i].payload| <= Limit(maxPayload)
  }

  /** One frame before bytes that read back. */
  lemma OneMoreFrame(f: Frame, rest: seq<Byte>, gs: seq<Frame>, maxPayload: int)
    requires |f.payload| <= MAX_VARINT && |f.payload| <= Limit(maxPayload) && DecodeAll(rest, maxPayload) == Ok(gs)
    ensures DecodeAll(Wire(f) + rest, maxPayload) == Ok([f] + gs)
  {
    FrameRoundTrip(f, rest, maxPayload);
    assert (Wire(f) + rest)[|Wire(f)|..] == rest;
  }

  lemma WireAllHead(fs: seq<Frame>)
    requires fs != []
    ensures WireAll(fs) == Wire(fs[0]) + WireAll(fs[1..])
  {
    assert Wires(fs)[1..] == Wires(fs[1..]);
  }

  /** A concatenation of encoded frames reads back as exactly that list. */
  lemma {:induction false} AllRoundTrip(fs: seq<Frame>, maxPayload: int)
    requires Fits(fs, maxPayload)
    ensures DecodeAll(WireAll(fs), maxPayload) == Ok(fs)
  {
    if fs != [] {
      AllRoundTrip(fs[1..], maxPayload);
      WireAllHead(fs);
      OneMoreFrame(fs[0], WireAll(fs[1..]), fs[1..], maxPayload);
      assert [fs[0]] + fs[1..] == fs;
    }
  }

  lemma WireAllSnoc(fs: seq<Frame>, f: Frame)
    ensures WireAll(fs + [f]) == WireAll(fs) + Wire(f)
  {
    assert Wires(fs + [f]) == Wires(fs) + [Wire(f)];
    JoinedSnoc(Wires(fs), Wire(f));
  }

  // ----- what is accepted -----

  /** Cutting the tag off is taking the remainder. */
  lemma TagCutOff(tag: int, low: int, len: nat, rest: nat, value: int)
    requires (len == 1 || len == 2 || len == 4 || len == 8) && 0 <= low < 64 && 0 <= tag < 4
    requires rest < Pow256(len - 1) && value == (64 * tag + low) * Pow256(len - 1) + rest
    ensures 0 <= value && Masked(value, len) == value - 64 * tag * Pow256(len - 1)
  {
    Powers();
    assert Pow256(0) == 1 && Pow256(3) == 0x100_0000 && Pow256(7) == 0x100_0000_0000_0000;
    match len
    case 1 => assert value == 64 * tag + (low + rest);
    case 2 => assert value == 0x4000 * tag + (0x100 * low + rest);
    case 4 => assert value == 0x4000_0000 * tag + (0x100_0000 * low + rest);
    case _ => assert value == 0x4000_0000_0000_0000 * tag + (0x100_0000_0000_0000 * low + rest);
  }

  lemma VarintIs(raw: seq<Byte>)
    requires |raw| > 0 && |raw| >= VarintLen(raw[0])
    ensures var len := VarintLen(raw[0]); var tag: int := raw[0] / 64;
      && Value(raw[..len]) - 64 * tag * Pow256(len - 1) >= 0
      && DecodeVarint(raw) == Ok((Value(raw[..len]) - 64 * tag * Pow256(len - 1), len))
  {
    var len, head := VarintLen(raw[0]), raw[..VarintLen(raw[0])];
    ValueHead(head);
    ValueBound(head[1..]);
    var tag: int, low: int := head[0] / 64, head[0] % 64;
    TagCutOff(tag, low, len, Value(head[1..]), Value(head));
  }

  /** The number that a header announces: its length field without the two bits that tell the field's own length. */
  function Announced(raw: seq<Byte>): (n: nat)
    requires |raw| >= 2 && |raw| >= 1 + VarintLen(raw[1])
  {
    var len := VarintLen(raw[1]);
    var tag: int := raw[1] / 64;
    VarintIs(raw[1..]);
    assert raw[1..][..len] == raw[1..1 + len];
    Value(raw[1..1 + len]) - 64 * tag * Pow256(len - 1)
  }

  /** A frame is read exactly if its header is whole, announces a payload within the limit, and the payload is whole; it
      takes just these bytes.  Anything else is an error of its own. */
  lemma DecodeExactly(raw: seq<Byte>, maxPayload: int)
    ensures Decode(raw, maxPayload) ==
      if |raw| < 2 || |raw| < 1 + VarintLen(raw[1]) then Err(TruncatedVarint)
      else if Announced(raw) > maxPayload % 0x1_0000_0000_0000_0000 then Err(PayloadTooLarge)
      else if |raw| < 1 + VarintLen(raw[1]) + Announced(raw) then Err(UnexpectedEof)
      else
        var start := 1 + VarintLen(raw[1]);
        Ok((Frame(raw[0], raw[start..start + Announced(raw)]), start + Announced(raw)))
  {
    if |raw| >= 2 && |raw| >= 1 + VarintLen(raw[1]) {
      VarintIs(raw[1..]);
      assert raw[1..][..VarintLen(raw[1])] == raw[1..1 + VarintLen(raw[1])];
    }
  }

  /** The length field takes the least of one, two, four and eight bytes that holds the number. */
  lemma EncodedLength(f: Frame)
    requires |f.payload| <= MAX_VARINT
    ensures var n := |f.payload|;
      Encode(f).Ok? && Encode(f).value[0] == f.typ && |Encode(f).value| ==
        1 + (if n < 0x40 then 1 else if n < 0x4000 then 2 else if n < 0x4000_0000 then 4 else 8) + n
  {
  }
}
