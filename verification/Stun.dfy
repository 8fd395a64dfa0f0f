/** STUN Binding messages with an XOR-MAPPED-ADDRESS attribute (sections 5, 14 and 14.2 of RFC 8489). */
module Stun {
  import opened Common
  import opened Bytes
  import opened Xor

  const BINDING_REQUEST := 0x0001
  const BINDING_RESPONSE := 0x0101
  const XOR_MAPPED_ADDRESS := 0x0020
  const HEADER_LEN := 20
  const TRANSACTION_LEN := 12

  /** The four bytes of the magic cookie 0x2112A442; its upper half masks a port, byte by byte. */
  const COOKIE: seq<Byte> := [0x21, 0x12, 0xA4, 0x42]
  const COOKIE_TOP: seq<Byte> := [0x21, 0x12]

  type Transaction = s: seq<Byte> | |s| == TRANSACTION_LEN witness seq(TRANSACTION_LEN, i => 0)

  /** A UDP address as the network library holds it: raw bytes, of any length. */
  datatype Address = Address(ip: seq<Byte>, port: int)

  function U16(s: seq<Byte>, at: nat): nat
    requires at + 2 <= |s|
  {
    var high: int := s[at];
    256 * high + s[at + 1]
  }

  function U16Bytes(n: int): seq<Byte> {
    [n / 256 % 256, n % 256]
  }

  // ----- addresses -----

  const V4_PREFIX: seq<Byte> := [0, 0, 0, 0, 0, 0, 0, 0, 0, 0, 0xff, 0xff]

  /** The four-byte form: of a four-byte address, or of a v4-mapped sixteen-byte one. */
  function To4(ip: seq<Byte>): (r: Option<seq<Byte>>)
    ensures r.Some? ==> |r.value| == 4
  {
    if |ip| == 4 then Some(ip)
    else if |ip| == 16 && ip[..12] == V4_PREFIX then Some(ip[12..])
    else None
  }

  function To16(ip: seq<Byte>): (r: Option<seq<Byte>>)
    ensures r.Some? ==> |r.value| == 16
  {
    if |ip| == 4 then Some(V4_PREFIX + ip) else if |ip| == 16 then Some(ip) else None
  }

  function XorKey(id: Transaction): seq<Byte> { COOKIE + id }

  /** The attribute's value: a zero byte, the family, the masked port and the masked address. */
  function MaskedValue(family: Byte, port: int, ip: seq<Byte>, key: seq<Byte>): seq<Byte>
    requires |ip| == |key|
  {
    [0, family] + XorBytes(U16Bytes(port % 0x1_0000), COOKIE_TOP) + XorBytes(ip, key)
  }

  function AddressValue(a: Address, id: Transaction): Option<seq<Byte>> {
    if To4(a.ip).Some? then Some(MaskedValue(0x01, a.port, To4(a.ip).value, COOKIE))
    else if To16(a.ip).Some? then Some(MaskedValue(0x02, a.port, To16(a.ip).value, XorKey(id)))
    else None
  }

  function ParseValue(value: seq<Byte>, id: Transaction): Option<Address> {
    if |value| < 4 || value[0] != 0 then None else
      var port := U16(XorBytes(value[2..4], COOKIE_TOP), 0);
      if value[1] == 0x01 then
        if |value| != 8 then None else Some(Address(XorBytes(value[4..], COOKIE), port))
      else if value[1] == 0x02 then
        if |value| != 20 then None else Some(Address(XorBytes(value[4..], XorKey(id)), port))
      else None
  }

  /** The address a receiver sees: the four-byte form if there is one. */
  function Canonical(a: Address): Address {
    Address(if To4(a.ip).Some? then To4(a.ip).value else a.ip, a.port)
  }

  lemma U16RoundTrip(n: nat, before: seq<Byte>, after: seq<Byte>)
    requires n < 0x1_0000
    ensures U16(before + U16Bytes(n) + after, |before|) == n
  {
    var s := before + U16Bytes(n) + after;
    assert s[|before|] == n / 256 && s[|before| + 1] == n % 256;
  }

  lemma ValueParts(family: Byte, port: seq<Byte>, body: seq<Byte>)
    requires |port| == 2
    ensures var value := [0, family] + port + body;
      value[0] == 0 && value[1] == family && value[2..4] == port && value[4..] == body && |value| == 4 + |body|
  {
  }

  lemma PortRoundTrip(port: nat)
    requires port < 0x1_0000
    ensures U16(XorBytes(XorBytes(U16Bytes(port), COOKIE_TOP), COOKIE_TOP), 0) == port
  {
    XorBytesTwice(U16Bytes(port), COOKIE_TOP);
    U16RoundTrip(port, [], []);
    assert [] + U16Bytes(port) + [] == U16Bytes(port);
  }

  lemma MaskedRoundTrip(family: Byte, port: nat, ip: seq<Byte>, key: seq<Byte>, id: Transaction)
    requires port < 0x1_0000
    requires (family == 0x01 && |ip| == 4 && key == COOKIE) || (family == 0x02 && |ip| == 16 && key == XorKey(id))
    ensures ParseValue(MaskedValue(family, port, ip, key), id) == Some(Address(ip, port))
      && |MaskedValue(family, port, ip, key)| == 4 + |ip|
  {
    assert port % 0x1_0000 == port;
    ValueParts(family, XorBytes(U16Bytes(port), COOKIE_TOP), XorBytes(ip, key));
    PortRoundTrip(port);
    XorBytesTwice(ip, key);
  }

  /** A mapped address is read back with the transaction id it was masked with. */
  lemma ValueRoundTrip(a: Address, id: Transaction)
    requires AddressValue(a, id).Some? && 0 <= a.port < 0x1_0000
    ensures ParseValue(AddressValue(a, id).value, id) == Some(Canonical(a))
    ensures |AddressValue(a, id).value| == 8 || |AddressValue(a, id).value| == 20
  {
    if To4(a.ip).Some? {
      MaskedRoundTrip(0x01, a.port, To4(a.ip).value, COOKIE, id);
    } else {
      MaskedRoundTrip(0x02, a.port, To16(a.ip).value, XorKey(id), id);
    }
  }

  // ----- messages -----

  function Header(typ: int, length: int, id: Transaction): seq<Byte> {
    U16Bytes(typ) + U16Bytes(length) + COOKIE + id
  }

  function BuildRequest(id: Transaction): seq<Byte> { Header(BINDING_REQUEST, 0, id) }

  /** The transaction id of a well-formed message of the given type. */
  function MessageId(message: seq<Byte>, typ: int): (r: Option<Transaction>)
    ensures r.Some? ==> |message| >= HEADER_LEN
  {
    if |message| < HEADER_LEN then None
    else if U16(message, 0) != typ then None
    else if U16(message, 2) != |message| - HEADER_LEN || U16(message, 2) % 4 != 0 then None
    else if message[4..8] != COOKIE then None
    else Some(message[8..20])
  }

  function Padding(n: nat): nat {
    if n % 4 == 0 then 0 else 4 - n % 4
  }

  function Attribute(typ: int, value: seq<Byte>): seq<Byte> {
    U16Bytes(typ) + U16Bytes(|value|) + value
  }

  /** The response to a request from an address; nothing for a malformed request or an address of odd length. */
  function BuildResponse(request: seq<Byte>, from: Option<Address>): Option<seq<Byte>> {
    match MessageId(request, BINDING_REQUEST)
    case None => None
    case Some(id) =>
      if from.None? || AddressValue(from.value, id).None? then None else
        var value := AddressValue(from.value, id).value;
        Some(Header(BINDING_RESPONSE, 4 + |value|, id) + Attribute(XOR_MAPPED_ADDRESS, value))
  }

  /** Walking the attributes to the first mapped address. */
  function Walk(attrs: seq<Byte>, id: Transaction): Option<Address>
    decreases |attrs|
  {
    if |attrs| < 4 then None else
      var typ, length := U16(attrs, 0), U16(attrs, 2);
      if 4 + length > |attrs| then None
      else if typ == XOR_MAPPED_ADDRESS then ParseValue(attrs[4..4 + length], id)
      else
        var padded := 4 + length + Padding(length);
        if padded > |attrs| then None else Walk(attrs[padded..], id)
  }

  function Parse(message: seq<Byte>): Option<(Address, Transaction)> {
    match MessageId(message, BINDING_RESPONSE)
    case None => None
    case Some(id) =>
      match Walk(message[HEADER_LEN..], id)
      case None => None
      case Some(a) => Some((a, id))
  }

  // ----- round trips -----

  lemma HeaderIs(typ: nat, length: nat, id: Transaction, body: seq<Byte>)
    requires typ < 0x1_0000 && length < 0x1_0000 && length == |body| && length % 4 == 0
    ensures var m := Header(typ, length, id) + body;
      MessageId(m, typ) == Some(id) && m[HEADER_LEN..] == body && |Header(typ, length, id)| == HEADER_LEN
  {
    var m := Header(typ, length, id) + body;
    U16RoundTrip(typ, [], U16Bytes(length) + COOKIE + id + body);
    assert m == [] + U16Bytes(typ) + (U16Bytes(length) + COOKIE + id + body);
    U16RoundTrip(length, U16Bytes(typ), COOKIE + id + body);
    assert m == U16Bytes(typ) + U16Bytes(length) + (COOKIE + id + body);
    assert m[4..8] == COOKIE && m[8..20] == id;
  }

  /** Every request the program builds is accepted, with its transaction id. */
  lemma RequestRoundTrip(id: Transaction)
    ensures MessageId(BuildRequest(id), BINDING_REQUEST) == Some(id)
  {
    HeaderIs(BINDING_REQUEST, 0, id, []);
    assert BuildRequest(id) + [] == BuildRequest(id);
  }

  lemma WalkFinds(typ: nat, value: seq<Byte>, after: seq<Byte>, id: Transaction)
    requires typ < 0x1_0000 && |value| < 0x1_0000
    ensures var attrs := Attribute(typ, value) + after;
      U16(attrs, 0) == typ && U16(attrs, 2) == |value| && |attrs| == 4 + |value| + |after|
        && attrs[4..4 + |value|] == value && attrs[4 + |value|..] == after
  {
    var attrs := Attribute(typ, value) + after;
    U16RoundTrip(typ, [], U16Bytes(|value|) + value + after);
    assert attrs == [] + U16Bytes(typ) + (U16Bytes(|value|) + value + after);
    U16RoundTrip(|value|, U16Bytes(typ), value + after);
    assert attrs == U16Bytes(typ) + U16Bytes(|value|) + (value + after);
  }

  /** An attribute other than the mapped address: its value, and padding of any content. */
  datatype Other = Other(typ: nat, value: seq<Byte>, pad: seq<Byte>)

  predicate Plain(o: Other) {
    o.typ < 0x1_0000 && o.typ != XOR_MAPPED_ADDRESS && |o.value| < 0x1_0000 && |o.pad| == Padding(|o.value|)
  }

  function Others(os: seq<Other>): seq<Byte> {
    if os == [] then [] else Attribute(os[0].typ, os[0].value) + os[0].pad + Others(os[1..])
  }

  lemma WalkSkipsOne(o: Other, tail: seq<Byte>, id: Transaction)
    requires Plain(o)
    ensures Walk(Attribute(o.typ, o.value) + (o.pad + tail), id) == Walk(tail, id)
  {
    var attrs := Attribute(o.typ, o.value) + (o.pad + tail);
    WalkFinds(o.typ, o.value, o.pad + tail, id);
    assert attrs[4 + |o.value| + |o.pad|..] == tail;
  }

  /** Attributes before it do not change what the walk finds. */
  lemma {:induction false} WalkSkips(os: seq<Other>, rest: seq<Byte>, id: Transaction)
    requires forall i :: 0 <= i < |os| ==> Plain(os[i])
    ensures Walk(Others(os) + rest, id) == Walk(rest, id)
  {
    if os == [] {
      assert [] + rest == rest;
    } else {
      WalkSkips(os[1..], rest, id);
      WalkSkipsOne(os[0], Others(os[1..]) + rest, id);
      OthersSplit(os, rest);
    }
  }

  lemma OthersSplit(os: seq<Other>, rest: seq<Byte>)
    requires os != []
    ensures Others(os) + rest == Attribute(os[0].typ, os[0].value) + (os[0].pad + (Others(os[1..]) + rest))
  {
    var a, p, t := Attribute(os[0].typ, os[0].value), os[0].pad, Others(os[1..]);
    assert a + p + t + rest == a + (p + (t + rest));
  }

  lemma {:induction false} OthersAligned(os: seq<Other>)
    requires forall i :: 0 <= i < |os| ==> Plain(os[i])
    ensures |Others(os)| % 4 == 0
  {
    if os != [] {
      OthersAligned(os[1..]);
      var n := |os[0].value|;
      assert (n + Padding(n)) % 4 == 0;
      Aligned(|Others(os[1..])|, n + Padding(n), |Others(os)|);
    }
  }

  lemma Aligned(before: nat, value: nat, all: nat)
    requires before % 4 == 0 && value % 4 == 0 && all == before + 4 + value
    ensures all % 4 == 0
  {
  }

  lemma WalkAddress(value: seq<Byte>, id: Transaction)
    requires |value| < 0x1_0000
    ensures Walk(Attribute(XOR_MAPPED_ADDRESS, value), id) == ParseValue(value, id)
  {
    WalkFinds(XOR_MAPPED_ADDRESS, value, [], id);
    assert Attribute(XOR_MAPPED_ADDRESS, value) + [] == Attribute(XOR_MAPPED_ADDRESS, value);
  }

  lemma ParseBody(body: seq<Byte>, id: Transaction)
    requires |body| < 0x1_0000 && |body| % 4 == 0
    ensures Parse(Header(BINDING_RESPONSE, |body|, id) + body) == match Walk(body, id) case None => None
      case Some(a) => Some((a, id))
  {
    HeaderIs(BINDING_RESPONSE, |body|, id, body);
  }

  /** The address attribute, after any other well-formed attributes, is found and unmasked. */
  lemma ResponseRoundTrip(a: Address, id: Transaction, os: seq<Other>)
    requires AddressValue(a, id).Some? && 0 <= a.port < 0x1_0000
    requires forall i :: 0 <= i < |os| ==> Plain(os[i])
    requires |Others(os)| + 24 < 0x1_0000
    ensures var body := Others(os) + Attribute(XOR_MAPPED_ADDRESS, AddressValue(a, id).value);
      Parse(Header(BINDING_RESPONSE, |body|, id) + body) == Some((Canonical(a), id))
  {
    var value := AddressValue(a, id).value;
    ValueRoundTrip(a, id);
    OthersAligned(os);
    WalkSkips(os, Attribute(XOR_MAPPED_ADDRESS, value), id);
    WalkAddress(value, id);
    var body := Others(os) + Attribute(XOR_MAPPED_ADDRESS, value);
    Aligned(|Others(os)|, |value|, |body|);
    ParseBody(body, id);
  }

  /** For every valid request and every address, parsing the built response returns that address and transaction id. */
  lemma BindingRoundTrip(request: seq<Byte>, a: Address)
    requires MessageId(request, BINDING_REQUEST).Some? && (|a.ip| == 4 || |a.ip| == 16) && 0 <= a.port < 0x1_0000
    ensures BuildResponse(request, Some(a)).Some?
    ensures Parse(BuildResponse(request, Some(a)).value) ==
      Some((Canonical(a), MessageId(request, BINDING_REQUEST).value))
  {
    var id := MessageId(request, BINDING_REQUEST).value;
    ResponseRoundTrip(a, id, []);
    var attr := Attribute(XOR_MAPPED_ADDRESS, AddressValue(a, id).value);
    assert [] + attr == attr && |attr| == 4 + |AddressValue(a, id).value|;
  }

  /** A response is built exactly for well-formed requests from addresses of four or sixteen bytes. */
  lemma ResponseExactlyWhen(request: seq<Byte>, from: Option<Address>)
    ensures BuildResponse(request, from).Some? <==>
      MessageId(request, BINDING_REQUEST).Some? && from.Some? && (|from.value.ip| == 4 || |from.value.ip| == 16)
  {
  }

  // ----- the program's loops -----

  /** Masking an address byte by byte into the value buffer. */
  method MaskInto(value: array<Byte>, ip: seq<Byte>, key: seq<Byte>)
    requires |ip| == |key| && value.Length == 4 + |ip|
    modifies value
    ensures value[4..] == XorBytes(ip, key) && value[..4] == old(value[..4])
  {
    for i := 0 to |ip|
      invariant value[4..4 + i] == XorBytes(ip, key)[..i] && value[..4] == old(value[..4])
    {
      value[4 + i] := XorByte(ip[i], key[i]);
      assert value[4..4 + i + 1] == value[4..4 + i] + [value[4 + i]];
    }
    assert value[4..4 + |ip|] == value[4..];
  }

  method XorMappedAddressValue(a: Address, id: Transaction) returns (r: Option<seq<Byte>>)
    ensures r == AddressValue(a, id)
  {
    var four := To4(a.ip);
    var ip := if four.Some? then four else To16(a.ip);
    if ip.None? { return None; }
    var value := new Byte[4 + |ip.value|];
    value[0] := 0;
    value[1] := if four.Some? then 0x01 else 0x02;
    var port := XorBytes(U16Bytes(a.port % 0x1_0000), COOKIE_TOP);
    value[2], value[3] := port[0], port[1];
    ghost var head := value[..4];
    MaskInto(value, ip.value, if four.Some? then COOKIE else XorKey(id));
    assert value[..] == value[..4] + value[4..];
    assert head == [0, if four.Some? then 0x01 else 0x02] + port;
    r := Some(value[..]);
  }

  /** The walk over the attributes of any bytes at all: it stays in bounds and ends. */
  method ParseBindingSuccess(message: seq<Byte>) returns (r: Option<(Address, Transaction)>)
    ensures r == Parse(message)
  {
    var id := MessageId(message, BINDING_RESPONSE);
    if id.None? { return None; }
    var attrs := message[HEADER_LEN..];
    while |attrs| >= 4
      invariant Walk(attrs, id.value) == Walk(message[HEADER_LEN..], id.value)
      decreases |attrs|
    {
      var typ, length := U16(attrs, 0), U16(attrs, 2);
      var valueEnd := 4 + length;
      if valueEnd > |attrs| { return None; }
      if typ == XOR_MAPPED_ADDRESS {
        var addr := ParseValue(attrs[4..valueEnd], id.value);
        return if addr.Some? then Some((addr.value, id.value)) else None;
      }
      var padded := valueEnd + Padding(length);
      if padded > |attrs| { return None; }
      attrs := attrs[padded..];
    }
    r := None;
  }

  // ----- the layout -----

  /** A request is the type, a length of zero, the cookie and the transaction id, and nothing else. */
  lemma RequestLayout(id: Transaction)
    ensures BuildRequest(id) == [0x00, 0x01, 0x00, 0x00, 0x21, 0x12, 0xA4, 0x42] + id
  {
    assert U16Bytes(BINDING_REQUEST) == [0x00, 0x01] && U16Bytes(0) == [0x00, 0x00];
  }

  /** The two bytes of a number below 65536 are told by the number. */
  lemma U16Told(s: seq<Byte>, at: nat)
    requires at + 2 <= |s|
    ensures s[at..at + 2] == U16Bytes(U16(s, at)) && U16(s, at) < 0x1_0000
  {
  }

  /** A message of a type is well-formed exactly if it is a header of that type with its own length, a multiple of four,
      before its body; then it has the header's transaction id. */
  lemma WellFormedExactly(m: seq<Byte>, typ: nat, id: Transaction)
    requires typ < 0x1_0000
    ensures MessageId(m, typ) == Some(id) <==>
      && |m| >= HEADER_LEN && |m| - HEADER_LEN < 0x1_0000 && (|m| - HEADER_LEN) % 4 == 0
      && m == U16Bytes(typ) + U16Bytes(|m| - HEADER_LEN) + [0x21, 0x12, 0xA4, 0x42] + id + m[HEADER_LEN..]
  {
    if MessageId(m, typ) == Some(id) {
      U16Told(m, 0);
      U16Told(m, 2);
      assert m == m[0..2] + m[2..4] + m[4..8] + m[8..20] + m[20..];
    } else if |m| >= HEADER_LEN && |m| - HEADER_LEN < 0x1_0000 && (|m| - HEADER_LEN) % 4 == 0
      && m == U16Bytes(typ) + U16Bytes(|m| - HEADER_LEN) + [0x21, 0x12, 0xA4, 0x42] + id + m[HEADER_LEN..] {
      HeaderIs(typ, |m| - HEADER_LEN, id, m[HEADER_LEN..]);
      assert false;
    }
  }

  /** A response answers with its own type, the request's transaction id, and one attribute with the masked address. */
  lemma ResponseLayout(request: seq<Byte>, a: Address, id: Transaction)
    requires MessageId(request, BINDING_REQUEST) == Some(id) && AddressValue(a, id).Some?
    ensures var value := AddressValue(a, id).value;
      BuildResponse(request, Some(a)) ==
        Some([0x01, 0x01] + U16Bytes(4 + |value|) + [0x21, 0x12, 0xA4, 0x42] + id
             + [0x00, 0x20] + U16Bytes(|value|) + value)
  {
    var value := AddressValue(a, id).value;
    assert U16Bytes(BINDING_RESPONSE) == [0x01, 0x01] && U16Bytes(XOR_MAPPED_ADDRESS) == [0x00, 0x20];
    assert Header(BINDING_RESPONSE, 4 + |value|, id) + Attribute(XOR_MAPPED_ADDRESS, value) ==
      [0x01, 0x01] + U16Bytes(4 + |value|) + [0x21, 0x12, 0xA4, 0x42] + id
      + [0x00, 0x20] + U16Bytes(|value|) + value;
  }

  /** An attribute value is accepted exactly if it is a zero byte, a family, and a port and an address of that family's
      width under the cookie, or under the cookie and the transaction id. */
  lemma ValueExactly(value: seq<Byte>, id: Transaction, a: Address)
    ensures ParseValue(value, id) == Some(a) <==>
      && 0 <= a.port < 0x1_0000
      && ((|a.ip| == 4 && value == MaskedValue(0x01, a.port, a.ip, [0x21, 0x12, 0xA4, 0x42]))
          || (|a.ip| == 16 && value == MaskedValue(0x02, a.port, a.ip, [0x21, 0x12, 0xA4, 0x42] + id)))
  {
    if ParseValue(value, id) == Some(a) {
      ValueIsMasked(value, id, a);
    } else if 0 <= a.port < 0x1_0000 {
      if |a.ip| == 4 { MaskedRoundTrip(0x01, a.port, a.ip, COOKIE, id); }
      if |a.ip| == 16 { MaskedRoundTrip(0x02, a.port, a.ip, XorKey(id), id); }
    }
  }

  lemma ThreeParts(value: seq<Byte>)
    requires |value| >= 4
    ensures value == [value[0], value[1]] + value[2..4] + value[4..]
  {
  }

  lemma PortBytes(s: seq<Byte>)
    requires |s| == 2
    ensures U16(s, 0) < 0x1_0000 && U16Bytes(U16(s, 0) % 0x1_0000) == s
  {
    U16Told(s, 0);
    assert s[0..2] == s;
  }

  lemma PortIsMasked(masked: seq<Byte>)
    requires |masked| == 2
    ensures var port := U16(XorBytes(masked, COOKIE_TOP), 0);
      port < 0x1_0000 && XorBytes(U16Bytes(port % 0x1_0000), COOKIE_TOP) == masked
  {
    PortBytes(XorBytes(masked, COOKIE_TOP));
    XorBytesTwice(masked, COOKIE_TOP);
  }

  lemma PartsAreMasked(value: seq<Byte>, key: seq<Byte>)
    requires |value| == 4 + |key| && value[0] == 0
    ensures var port := U16(XorBytes(value[2..4], COOKIE_TOP), 0);
      port < 0x1_0000 && value == MaskedValue(value[1], port, XorBytes(value[4..], key), key)
  {
    PortIsMasked(value[2..4]);
    XorBytesTwice(value[4..], key);
    ThreeParts(value);
  }

  lemma ValueIsMasked(value: seq<Byte>, id: Transaction, a: Address)
    requires ParseValue(value, id) == Some(a)
    ensures 0 <= a.port < 0x1_0000
    ensures if value[1] == 0x01 then |a.ip| == 4 && value == MaskedValue(0x01, a.port, a.ip, COOKIE)
            else |a.ip| == 16 && value == MaskedValue(0x02, a.port, a.ip, XorKey(id))
  {
    if value[1] == 0x01 { PartsAreMasked(value, COOKIE); } else { PartsAreMasked(value, XorKey(id)); }
  }
}
