/** Base45 text of byte strings (section 4 of RFC 9285), and the decoder that inverts it. */
module Base45 {
  import opened Common
  import opened Bytes

  type Digit = n: int | 0 <= n < 45

  const FIGURES: string := "0123456789"
  const LETTERS1: string := "ABCDEFGHIJKLM"
  const LETTERS2: string := "NOPQRSTUVWXYZ"
  const SIGNS: string := " $%*+-./:"
  const ALPHABET: string := FIGURES + LETTERS1 + LETTERS2 + SIGNS

  /** Two bytes make three digits, a single last byte two; the least significant digit comes first. */
  function Pair(a: Byte, b: Byte): (r: seq<Digit>)
    ensures |r| == 3
  {
    var high: int := a;
    var v := 256 * high + b;
    [v % 2025 % 45, v % 2025 / 45, v / 2025]
  }

  function Single(a: Byte): (r: seq<Digit>)
    ensures |r| == 2
  {
    [a % 45, a / 45]
  }

  function Digits(data: seq<Byte>): seq<Digit> {
    if data == [] then [] else if |data| == 1 then Single(data[0]) else Pair(data[0], data[1]) + Digits(data[2..])
  }

  function Number3(c: Digit, d: Digit, e: Digit): int {
    var x: int, y: int := d, e;
    c + 45 * x + 2025 * y
  }

  /** The decoder: three digits make two bytes, two digits one; anything out of range is refused. */
  function Decoded(ds: seq<Digit>): Option<seq<Byte>> {
    if ds == [] then Some([])
    else if |ds| == 1 then None
    else if |ds| == 2 then
      var n := Number3(ds[0], ds[1], 0);
      if n > 255 then None else Some([n])
    else
      var n := Number3(ds[0], ds[1], ds[2]);
      if n > 65535 then None else
        match Decoded(ds[3..])
        case None => None
        case Some(rest) => Some([n / 256, n % 256] + rest)
  }

  lemma PairReads(a: Byte, b: Byte)
    ensures var p := Pair(a, b); var n := Number3(p[0], p[1], p[2]); n <= 65535 && n / 256 == a && n % 256 == b
  {
    var high: int := a;
    var v := 256 * high + b;
    assert v == 2025 * (v / 2025) + v % 2025 && v % 2025 == 45 * (v % 2025 / 45) + v % 2025 % 45;
    assert v / 256 == a && v % 256 == b;
  }

  lemma PairDecoded(a: Byte, b: Byte, rest: seq<Digit>)
    requires Decoded(rest).Some?
    ensures Decoded(Pair(a, b) + rest) == Some([a, b] + Decoded(rest).value)
  {
    var p := Pair(a, b);
    var ds := p + rest;
    assert |ds| >= 3 && ds[3..] == rest && ds[0] == p[0] && ds[1] == p[1] && ds[2] == p[2];
    PairReads(a, b);
  }

  lemma SingleDecoded(a: Byte)
    ensures Decoded(Single(a)) == Some([a])
  {
    assert a == 45 * (a / 45) + a % 45;
  }

  /** Decoding the digits of any byte string gives it back. */
  lemma {:induction false} DecodedDigits(data: seq<Byte>)
    ensures Decoded(Digits(data)) == Some(data)
  {
    if |data| == 1 {
      SingleDecoded(data[0]);
      assert data == [data[0]];
    } else if data != [] {
      DecodedDigits(data[2..]);
      PairDecoded(data[0], data[1], Digits(data[2..]));
      assert data == [data[0], data[1]] + data[2..];
    }
  }

  lemma PairOfNumber(c: Digit, d: Digit, e: Digit)
    requires Number3(c, d, e) <= 65535
    ensures var n := Number3(c, d, e); Pair(n / 256, n % 256) == [c, d, e]
  {
    var x: int, y: int := d, e;
    var low := c + 45 * x;
    var n := 2025 * y + low;
    assert 0 <= low < 2025;
    assert n / 2025 == y && n % 2025 == low;
    assert low / 45 == x && low % 45 == c;
    assert 256 * (n / 256) + n % 256 == n;
  }

  /** Whatever decodes is what its bytes encode to: every text has at most one byte string, and the other way round. */
  lemma {:induction false} DigitsOfDecoded(ds: seq<Digit>)
    requires Decoded(ds).Some?
    ensures Digits(Decoded(ds).value) == ds
    decreases |ds|
  {
    if |ds| == 2 {
      var x: int := ds[1];
      var n := ds[0] + 45 * x;
      assert n / 45 == x && n % 45 == ds[0];
      assert ds == [ds[0], ds[1]];
    } else if |ds| > 2 {
      DigitsOfDecoded(ds[3..]);
      PairOfNumber(ds[0], ds[1], ds[2]);
      var n, rest := Number3(ds[0], ds[1], ds[2]), Decoded(ds[3..]).value;
      var data := [n / 256, n % 256] + rest;
      assert data[2..] == rest;
      assert ds == [ds[0], ds[1], ds[2]] + ds[3..];
    }
  }

  /** Three digits for every two bytes, two for a last one. */
  lemma {:induction false} DigitCount(data: seq<Byte>)
    ensures |Digits(data)| == 3 * (|data| / 2) + 2 * (|data| % 2)
  {
    if |data| >= 2 { DigitCount(data[2..]); }
  }

  // ----- text -----

  /** The character of a digit: figures, letters, then nine signs. */
  function Char(d: Digit): char {
    if d < 10 then '0' + d as char
    else if d < 36 then 'A' + (d - 10) as char
    else match d case 36 => ' ' case 37 => '$' case 38 => '%' case 39 => '*' case 40 => '+' case 41 => '-'
      case 42 => '.' case 43 => '/' case _ => ':'
  }

  function Index(c: char): Option<Digit> {
    if '0' <= c <= '9' then Some((c - '0') as int)
    else if 'A' <= c <= 'Z' then Some((c - 'A') as int + 10)
    else match c case ' ' => Some(36) case '$' => Some(37) case '%' => Some(38) case '*' => Some(39)
      case '+' => Some(40)
      case '-' => Some(41) case '.' => Some(42) case '/' => Some(43) case ':' => Some(44) case _ => None
  }

  lemma FigureAt(d: nat)
    requires d < 10
    ensures |FIGURES| == 10 && FIGURES[d] == Char(d)
  {
    assert FIGURES[0] == '0' && FIGURES[1] == '1' && FIGURES[2] == '2' && FIGURES[3] == '3' && FIGURES[4] == '4'
      && FIGURES[5] == '5' && FIGURES[6] == '6' && FIGURES[7] == '7' && FIGURES[8] == '8' && FIGURES[9] == '9';
  }

  lemma LetterAt(d: nat)
    requires d < 13
    ensures |LETTERS1| == 13 && LETTERS1[d] == Char(10 + d) && |LETTERS2| == 13 && LETTERS2[d] == Char(23 + d)
  {
    assert LETTERS1[0] == 'A' && LETTERS1[1] == 'B' && LETTERS1[2] == 'C' && LETTERS1[3] == 'D' && LETTERS1[4] == 'E'
      && LETTERS1[5] == 'F' && LETTERS1[6] == 'G' && LETTERS1[7] == 'H' && LETTERS1[8] == 'I' && LETTERS1[9] == 'J'
      && LETTERS1[10] == 'K' && LETTERS1[11] == 'L' && LETTERS1[12] == 'M';
    assert LETTERS2[0] == 'N' && LETTERS2[1] == 'O' && LETTERS2[2] == 'P' && LETTERS2[3] == 'Q' && LETTERS2[4] == 'R'
      && LETTERS2[5] == 'S' && LETTERS2[6] == 'T' && LETTERS2[7] == 'U' && LETTERS2[8] == 'V' && LETTERS2[9] == 'W'
      && LETTERS2[10] == 'X' && LETTERS2[11] == 'Y' && LETTERS2[12] == 'Z';
  }

  lemma SignAt(d: nat)
    requires d < 9
    ensures |SIGNS| == 9 && SIGNS[d] == Char(36 + d)
  {
    assert SIGNS[0] == ' ' && SIGNS[1] == '$' && SIGNS[2] == '%' && SIGNS[3] == '*' && SIGNS[4] == '+'
      && SIGNS[5] == '-' && SIGNS[6] == '.' && SIGNS[7] == '/' && SIGNS[8] == ':';
  }

  lemma PartAt(a: string, b: string, c: string, d: string, i: nat)
    requires |a| == 10 && |b| == 13 && |c| == 13 && |d| == 9 && i < 45
    ensures |a + b + c + d| == 45
    ensures (a + b + c + d)[i] == if i < 10 then a[i] else if i < 23 then b[i - 10] else if i < 36 then c[i - 23]
      else d[i - 36]
  {
  }

  /** The characters are those of the alphabet, in its order. */
  lemma CharIsAlphabet(d: Digit)
    ensures |ALPHABET| == 45 && ALPHABET[d] == Char(d)
  {
    FigureAt(if d < 10 then d else 0);
    LetterAt(if 10 <= d < 23 then d - 10 else if 23 <= d < 36 then d - 23 else 0);
    SignAt(if d >= 36 then d - 36 else 0);
    PartAt(FIGURES, LETTERS1, LETTERS2, SIGNS, d);
  }

  /** The characters are all different: each is found at its own place. */
  lemma IndexOfChar(d: Digit)
    ensures Index(Char(d)) == Some(d)
  {
  }

  lemma CharOfIndex(c: char)
    requires Index(c).Some?
    ensures Char(Index(c).value) == c
  {
  }

  function Encode(data: seq<Byte>): string {
    TextOf(Digits(data))
  }

  function TextDigits(s: string): Option<seq<Digit>> {
    if s == [] then Some([]) else
      match Index(s[0])
      case None => None
      case Some(d) =>
        match TextDigits(s[1..])
        case None => None
        case Some(rest) => Some([d] + rest)
  }

  function Decode(s: string): Option<seq<Byte>> {
    match TextDigits(s)
    case None => None
    case Some(ds) => Decoded(ds)
  }

  function TextOf(ds: seq<Digit>): (r: string)
    ensures |r| == |ds|
  {
    seq(|ds|, i requires 0 <= i < |ds| => Char(ds[i]))
  }

  lemma {:induction false} TextDigitsOf(ds: seq<Digit>)
    ensures TextDigits(TextOf(ds)) == Some(ds)
  {
    if ds != [] {
      TextDigitsOf(ds[1..]);
      IndexOfChar(ds[0]);
      assert TextOf(ds)[1..] == TextOf(ds[1..]) && [ds[0]] + ds[1..] == ds;
    }
  }

  /** The decoder inverts the encoder on every byte string. */
  lemma RoundTrip(data: seq<Byte>)
    ensures Decode(Encode(data)) == Some(data)
  {
    DecodedDigits(data);
    TextDigitsOf(Digits(data));
  }

  lemma TextDigitsStep(s: string)
    requires s != [] && TextDigits(s).Some?
    ensures Index(s[0]).Some? && TextDigits(s[1..]).Some?
      && TextDigits(s).value == [Index(s[0]).value] + TextDigits(s[1..]).value
  {
  }

  lemma TextOfOne(d: Digit)
    ensures TextOf([d]) == [Char(d)]
  {
  }

  lemma {:induction false} TextOfDigits(s: string)
    requires TextDigits(s).Some?
    ensures TextOf(TextDigits(s).value) == s
  {
    if s != [] {
      TextDigitsStep(s);
      TextOfDigits(s[1..]);
      CharOfIndex(s[0]);
      TextAppend([Index(s[0]).value], TextDigits(s[1..]).value);
      TextOfOne(Index(s[0]).value);
      assert [s[0]] + s[1..] == s;
    }
  }

  /** A text that decodes is the text its bytes encode to. */
  lemma DecodeIsExact(s: string)
    requires Decode(s).Some?
    ensures Encode(Decode(s).value) == s
  {
    TextOfDigits(s);
    DigitsOfDecoded(TextDigits(s).value);
  }

  lemma {:induction false} DigitsSnoc2(data: seq<Byte>, a: Byte, b: Byte)
    requires |data| % 2 == 0
    ensures Digits(data + [a, b]) == Digits(data) + Pair(a, b)
  {
    if data == [] {
      assert (data + [a, b])[2..] == [];
    } else {
      DigitsSnoc2(data[2..], a, b);
      assert (data + [a, b])[2..] == data[2..] + [a, b];
    }
  }

  lemma {:induction false} DigitsSnoc1(data: seq<Byte>, a: Byte)
    requires |data| % 2 == 0
    ensures Digits(data + [a]) == Digits(data) + Single(a)
  {
    if data != [] {
      DigitsSnoc1(data[2..], a);
      assert (data + [a])[2..] == data[2..] + [a];
    }
  }

  lemma TextAppend(ds: seq<Digit>, more: seq<Digit>)
    ensures TextOf(ds + more) == TextOf(ds) + TextOf(more)
  {
  }

  /** The program's loop, two bytes at a time. */
  method Base45Encode(data: seq<Byte>) returns (out: string)
    ensures out == Encode(data) && |out| == 3 * (|data| / 2) + 2 * (|data| % 2)
  {
    out := "";
    var i := 0;
    while i < |data|
      invariant 0 <= i <= |data| && Written(data, i, out)
      decreases |data| - i
    {
      if i + 1 < |data| {
        var group := EncodePair(data[i], data[i + 1]);
        PairStep(data, i, out);
        out := out + group;
        i := i + 2;
      } else {
        var group := EncodeSingle(data[i]);
        SingleStep(data, i, out);
        out := out + group;
        i := i + 1;
      }
    }
    AllWritten(data, out);
  }

  method EncodePair(a: Byte, b: Byte) returns (group: string)
    ensures group == TextOf(Pair(a, b))
  {
    var value := (a as int) * 256 + b as int;
    var e := value / 2025;
    value := value % 2025;
    var d := value / 45;
    var c := value % 45;
    CharIsAlphabet(c);
    CharIsAlphabet(d);
    CharIsAlphabet(e);
    group := [ALPHABET[c], ALPHABET[d], ALPHABET[e]];
    assert Pair(a, b) == [c, d, e];
  }

  method EncodeSingle(a: Byte) returns (group: string)
    ensures group == TextOf(Single(a))
  {
    var d := a / 45;
    var c := a % 45;
    CharIsAlphabet(c);
    CharIsAlphabet(d);
    group := [ALPHABET[c], ALPHABET[d]];
    assert Single(a) == [c, d];
  }

  /** The text of the first `i` bytes, which are whole pairs or everything. */
  ghost predicate Written(data: seq<Byte>, i: nat, out: string) {
    i <= |data| && (i % 2 == 0 || i == |data|) && out == TextOf(Digits(data[..i]))
  }

  lemma AllWritten(data: seq<Byte>, out: string)
    requires Written(data, |data|, out)
    ensures out == Encode(data) && |out| == 3 * (|data| / 2) + 2 * (|data| % 2)
  {
    assert data[..|data|] == data;
    DigitCount(data);
  }

  lemma PairStep(data: seq<Byte>, i: nat, out: string)
    requires i + 1 < |data| && Written(data, i, out)
    ensures Written(data, i + 2, out + TextOf(Pair(data[i], data[i + 1])))
  {
    DigitsSnoc2(data[..i], data[i], data[i + 1]);
    assert data[..i + 2] == data[..i] + [data[i], data[i + 1]];
    TextAppend(Digits(data[..i]), Pair(data[i], data[i + 1]));
  }

  lemma SingleStep(data: seq<Byte>, i: nat, out: string)
    requires i + 1 == |data| && Written(data, i, out)
    ensures Written(data, i + 1, out + TextOf(Single(data[i])))
  {
    DigitsSnoc1(data[..i], data[i]);
    assert data[..i + 1] == data[..i] + [data[i]];
    TextAppend(Digits(data[..i]), Single(data[i]));
  }

  /** The first example of section 4.3 of RFC 9285. */
  lemma Example()
    ensures Encode([0x41, 0x42]) == "BB8"
  {
    assert Pair(0x41, 0x42) == [11, 11, 8];
    assert Digits([0x41, 0x42]) == Pair(0x41, 0x42) + Digits([]);
    assert TextOf([11, 11, 8]) == [Char(11), Char(11), Char(8)];
  }
}
