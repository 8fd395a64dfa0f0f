/** Exclusive or of numbers and byte strings, by arithmetic on their binary digits. */
module Xor {
  import opened Bytes

  function Pow2(n: nat): (r: nat)
    ensures r > 0
  {
    if n == 0 then 1 else 2 * Pow2(n - 1)
  }

  /** The exclusive or of the low `n` binary digits. */
  function XorBits(a: nat, b: nat, n: nat): nat {
    if n == 0 then 0 else 2 * XorBits(a / 2, b / 2, n - 1) + if a % 2 == b % 2 then 0 else 1
  }

  lemma {:induction false} XorBound(a: nat, b: nat, n: nat)
    ensures XorBits(a, b, n) < Pow2(n)
  {
    if n > 0 { XorBound(a / 2, b / 2, n - 1); }
  }

  /** Masking twice with the same key gives the number back. */
  lemma {:induction false} XorTwice(a: nat, b: nat, n: nat)
    requires a < Pow2(n)
    ensures XorBits(XorBits(a, b, n), b, n) == a
  {
    if n > 0 {
      XorTwice(a / 2, b / 2, n - 1);
      var x := XorBits(a, b, n);
      assert x / 2 == XorBits(a / 2, b / 2, n - 1);
      assert x % 2 == if a % 2 == b % 2 then 0 else 1;
    }
  }

  function ByteBits(): nat { 8 }

  lemma BytePower()
    ensures Pow2(ByteBits()) == 256
  {
    assert Pow2(4) == 16 && Pow2(8) == 256;
  }

  function XorByte(a: Byte, b: Byte): Byte {
    BytePower();
    XorBound(a, b, ByteBits());
    XorBits(a, b, ByteBits())
  }

  lemma XorByteTwice(a: Byte, b: Byte)
    ensures XorByte(XorByte(a, b), b) == a
  {
    BytePower();
    XorTwice(a, b, ByteBits());
  }

  /** Byte by byte, as far as the key goes. */
  function XorBytes(s: seq<Byte>, key: seq<Byte>): (r: seq<Byte>)
    requires |s| == |key|
    ensures |r| == |s|
  {
    seq(|s|, i requires 0 <= i < |s| => XorByte(s[i], key[i]))
  }

  lemma XorBytesTwice(s: seq<Byte>, key: seq<Byte>)
    requires |s| == |key|
    ensures XorBytes(XorBytes(s, key), key) == s
  {
    forall i | 0 <= i < |s| ensures XorBytes(XorBytes(s, key), key)[i] == s[i] { XorByteTwice(s[i], key[i]); }
  }

  /** One binary digit of a number. */
  function Bit(a: nat, i: nat): nat { if i == 0 then a % 2 else Bit(a / 2, i - 1) }

  /** Each binary digit of the exclusive or is set exactly if the digits differ. */
  lemma {:induction false} XorExactly(a: nat, b: nat, n: nat, i: nat)
    requires i < n
    ensures Bit(XorBits(a, b, n), i) == if Bit(a, i) != Bit(b, i) then 1 else 0
  {
    var x := XorBits(a, b, n);
    assert x / 2 == XorBits(a / 2, b / 2, n - 1) && x % 2 == if a % 2 == b % 2 then 0 else 1;
    if i > 0 { XorExactly(a / 2, b / 2, n - 1, i - 1); }
  }

  lemma XorByteExactly(a: Byte, b: Byte, i: nat)
    requires i < 8
    ensures Bit(XorByte(a, b), i) == if Bit(a, i) != Bit(b, i) then 1 else 0
  {
    XorExactly(a, b, ByteBits(), i);
  }
}
