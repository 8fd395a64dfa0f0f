/** Bytes, and numbers in network byte order. */
module Bytes {

  type Byte = n: int | 0 <= n < 256

  function Pow256(w: nat): (r: nat)
    ensures r > 0
  {
    if w == 0 then 1 else 256 * Pow256(w - 1)
  }

  /** The low `w` bytes of `n`, most significant first. */
  function BigEndian(n: nat, w: nat): (s: seq<Byte>)
    ensures |s| == w
  {
    if w == 0 then [] else BigEndian(n / 256, w - 1) + [n % 256]
  }

  function Value(s: seq<Byte>): nat {
    if s == [] then 0 else 256 * Value(s[..|s| - 1]) + s[|s| - 1]
  }

  lemma {:induction false} ValueBound(s: seq<Byte>)
    ensures Value(s) < Pow256(|s|)
  {
    if s != [] { ValueBound(s[..|s| - 1]); }
  }

  /** A last digit after a number that is a weighted head and a tail. */
  lemma Shifted(head: int, weight: int, tail: int, last: int)
    ensures 256 * (head * weight + tail) + last == head * (256 * weight) + (256 * tail + last)
  {
  }

  lemma ValueSnoc(s: seq<Byte>, last: Byte)
    ensures Value(s + [last]) == 256 * Value(s) + last
  {
    assert (s + [last])[..|s|] == s;
  }

  /** The first byte carries the weight of all the others. */
  lemma {:induction false} ValueHead(s: seq<Byte>)
    requires s != []
    ensures Value(s) == s[0] * Pow256(|s| - 1) + Value(s[1..])
  {
    if |s| > 1 {
      var init, last := s[..|s| - 1], s[|s| - 1];
      ValueHead(init);
      ValueSnoc(init, last);
      ValueSnoc(init[1..], last);
      assert s == init + [last] && s[1..] == init[1..] + [last];
      Shifted(init[0], Pow256(|s| - 2), Value(init[1..]), last);
    }
  }

  /** A number that fits is read back. */
  lemma {:induction false} ValueOfBigEndian(n: nat, w: nat)
    requires n < Pow256(w)
    ensures Value(BigEndian(n, w)) == n
  {
    if w > 0 {
      assert n / 256 < Pow256(w - 1);
      ValueOfBigEndian(n / 256, w - 1);
      assert BigEndian(n, w)[..w - 1] == BigEndian(n / 256, w - 1);
    }
  }

  /** Every byte string is the notation of its value. */
  lemma {:induction false} BigEndianOfValue(s: seq<Byte>)
    ensures BigEndian(Value(s), |s|) == s
  {
    if s != [] {
      var init := s[..|s| - 1];
      BigEndianOfValue(init);
      assert Value(s) / 256 == Value(init) && Value(s) % 256 == s[|s| - 1];
      assert s == init + [s[|s| - 1]];
    }
  }

  lemma Powers()
    ensures Pow256(1) == 0x100 && Pow256(2) == 0x1_0000 && Pow256(4) == 0x1_0000_0000
      && Pow256(8) == 0x1_0000_0000_0000_0000
  {
    assert Pow256(3) == 0x100_0000;
    assert Pow256(5) == 0x100_0000_0000;
    assert Pow256(6) == 0x1_0000_0000_0000;
    assert Pow256(7) == 0x100_0000_0000_0000;
  }

  // ----- byte strings in a row -----

  function Joined(parts: seq<seq<Byte>>): seq<Byte> {
    if parts == [] then [] else parts[0] + Joined(parts[1..])
  }

  lemma {:induction false} JoinedSnoc(parts: seq<seq<Byte>>, last: seq<Byte>)
    ensures Joined(parts + [last]) == Joined(parts) + last
  {
    if parts == [] {
      assert [last][1..] == [];
    } else {
      JoinedSnoc(parts[1..], last);
      assert (parts + [last])[1..] == parts[1..] + [last];
    }
  }

  lemma JoinedBetween(base: seq<Byte>, first: seq<Byte>, parts: seq<seq<Byte>>, last: seq<Byte>)
    ensures base + first + Joined(parts) + last == base + Joined([first] + parts + [last])
  {
    JoinedSnoc([first] + parts, last);
    assert ([first] + parts)[1..] == parts;
  }
}
