/** What the bytes of a geoip.dat entry mean: addresses, prefixes and country codes. */
module GeoAddresses {
  import opened Wrappers
  import opened Arithmetic
  import opened Octets
  import opened GeoIp

  // ----- Prefixes -----

  function Pow2(n: nat): (p: nat)
    ensures p > 0
  {
    if n == 0 then 1 else 2 * Pow2(n - 1)
  }

  lemma HalvedFirst(v: nat, p: nat)
    requires p > 0
    ensures v / 2 / p == v / (2 * p)
  {
    var q, r := v / 2 / p, v / 2 % p;
    assert v / 2 == q * p + r;
    var s := 2 * r + v % 2;
    assert v == 2 * (q * p + r) + v % 2 == q * (2 * p) + s;
    QuotientAndRemainder(v, 2 * p, q, s);
  }

  lemma {:induction false} ShiftedDivides(v: nat, n: nat)
    ensures Shifted(v, n) == v / Pow2(n)
  {
    if n > 0 {
      ShiftedDivides(v / 2, n - 1);
      HalvedFirst(v, Pow2(n - 1));
    }
  }

  /** A prefix contains the addresses of its width that agree with it but for the last bits. */
  lemma PrefixContains(p: Block, a: Addr)
    ensures Contains(p, a) <==>
              && a.width == p.addr.width
              && a.value / Pow2(p.addr.width - p.bits) == p.addr.value / Pow2(p.addr.width - p.bits)
  {
    ShiftedDivides(p.addr.value, p.addr.width - p.bits);
    if a.width == p.addr.width { ShiftedDivides(a.value, p.addr.width - p.bits); }
  }

  // ----- Addresses -----

  function ValueOfFour(a: Byte, b: Byte, c: Byte, d: Byte): nat {
    a as nat * 16_777_216 + b as nat * 65_536 + c as nat * 256 + d as nat
  }

  lemma BigEndianOneMore(s: seq<Byte>, b: Byte)
    ensures BigEndian(s + [b]) == 256 * BigEndian(s) + b as nat
  {
    assert (s + [b])[..|s|] == s;
  }

  lemma BigEndianFourMore(s: seq<Byte>, a: Byte, b: Byte, c: Byte, d: Byte)
    ensures BigEndian(s + [a, b, c, d]) == BigEndian(s) * 0x1_0000_0000 + ValueOfFour(a, b, c, d)
  {
    BigEndianOneMore(s, a);
    BigEndianOneMore(s + [a], b);
    BigEndianOneMore(s + [a] + [b], c);
    BigEndianOneMore(s + [a] + [b] + [c], d);
    assert s + [a] + [b] + [c] + [d] == s + [a, b, c, d];
  }

  /** Ten zeros and two bytes 255 before an IPv4 address. */
  const MAPPED: seq<Byte> := [0, 0, 0, 0, 0, 0, 0, 0, 0, 0, 255, 255]

  lemma EightZeros()
    ensures BigEndian([0, 0, 0, 0, 0, 0, 0, 0]) == 0
  {
    var four: seq<Byte> := [0, 0, 0, 0];
    BigEndianFourMore([], 0, 0, 0, 0);
    assert [] + four == four;
    BigEndianFourMore(four, 0, 0, 0, 0);
    assert four + four == [0, 0, 0, 0, 0, 0, 0, 0];
  }

  lemma MappedIs()
    ensures BigEndian(MAPPED) == 0xffff
  {
    var eight: seq<Byte> := [0, 0, 0, 0, 0, 0, 0, 0];
    EightZeros();
    BigEndianFourMore(eight, 0, 0, 255, 255);
    assert eight + [0, 0, 255, 255] == MAPPED;
  }

  /** The CIDR entry of an IPv4 address, plain or mapped into IPv6: it is passed over exactly if it asks for more
      than 32 bits, and else contains the IPv4 addresses that agree with it in the bits asked for. */
  lemma Ipv4Block(raw: seq<Byte>, a: Byte, b: Byte, c: Byte, d: Byte, bits: nat, x: Addr)
    requires raw == [a, b, c, d] || raw == MAPPED + [a, b, c, d]
    ensures BlockOf(raw, bits).Some? <==> bits <= 32
    ensures BlockOf(raw, bits).Some? ==>
              (Contains(BlockOf(raw, bits).value, x) <==>
               x.width == 32 && x.value / Pow2(32 - bits) == ValueOfFour(a, b, c, d) / Pow2(32 - bits))
  {
    var v := ValueOfFour(a, b, c, d);
    Ipv4Address(raw, a, b, c, d);
    if bits <= 32 {
      MaskingIsHarmless(Prefix(Addr(32, v), bits), x);
      PrefixContains(Prefix(Addr(32, v), bits), x);
    }
  }

  lemma Ipv4Address(raw: seq<Byte>, a: Byte, b: Byte, c: Byte, d: Byte)
    requires raw == [a, b, c, d] || raw == MAPPED + [a, b, c, d]
    ensures AddrFromSlice(raw).Some? && Unmap(AddrFromSlice(raw).value) == Addr(32, ValueOfFour(a, b, c, d))
  {
    var v := ValueOfFour(a, b, c, d);
    if raw == [a, b, c, d] {
      BigEndianFourMore([], a, b, c, d);
      assert [] + [a, b, c, d] == [a, b, c, d];
    } else {
      BigEndianFourMore(MAPPED, a, b, c, d);
      MappedIs();
      QuotientAndRemainder(BigEndian(raw), 0x1_0000_0000, 0xffff, v);
    }
  }

  /** A CIDR entry whose address is neither four nor sixteen bytes long is passed over. */
  lemma OtherLengthsArePassedOver(raw: seq<Byte>, bits: nat)
    requires |raw| != 4 && |raw| != 16
    ensures BlockOf(raw, bits) == None
  {
  }

  /** The CIDR entry of any other IPv6 address, which has at most 128 bits. */
  lemma Ipv6Block(raw: seq<Byte>, bits: nat, x: Addr)
    requires |raw| == 16 && BigEndian(raw) / 0x1_0000_0000 != 0xffff
    ensures BlockOf(raw, bits).Some? <==> bits <= 128
    ensures BlockOf(raw, bits).Some? ==>
              (Contains(BlockOf(raw, bits).value, x) <==>
               x.width == 128 && x.value / Pow2(128 - bits) == BigEndian(raw) / Pow2(128 - bits))
  {
    if bits <= 128 {
      MaskingIsHarmless(Prefix(Addr(128, BigEndian(raw)), bits), x);
      PrefixContains(Prefix(Addr(128, BigEndian(raw)), bits), x);
    }
  }

  // ----- Country codes -----

  lemma {:induction false} BlanksGoLeft(front: Code, s: Code)
    requires (forall b :: b in front ==> IsBlankByte(b)) && (s != [] ==> !IsBlankByte(s[0]))
    ensures TrimmedLeft(front + s) == s
  {
    if front == [] {
      assert front + s == s;
    } else {
      assert (front + s)[1..] == front[1..] + s;
      BlanksGoLeft(front[1..], s);
    }
  }

  lemma {:induction false} BlanksGoRight(s: Code, back: Code)
    requires (forall b :: b in back ==> IsBlankByte(b)) && (s != [] ==> !IsBlankByte(s[|s| - 1]))
    ensures TrimmedRight(s + back) == s
  {
    if back == [] {
      assert s + back == s;
    } else {
      assert (s + back)[..|s + back| - 1] == s + back[..|back| - 1];
      BlanksGoRight(s, back[..|back| - 1]);
    }
  }

  function Capital(b: Byte): Byte {
    if 97 <= b <= 122 then b - 32 else b
  }

  /** A country counts if it is not reversed and its code, without the blanks around it, has two bytes; the
      answer is the code in capitals. */
  lemma CountryCounts(c: Country, front: Code, code: Code, back: Code)
    requires c.code == front + code + back
    requires forall b :: b in front || b in back ==> b in {9, 10, 11, 12, 13, 32}
    requires forall b :: b in code ==> b !in {9, 10, 11, 12, 13, 32}
    ensures IsUsable(c) <==> !c.reverse && |code| == 2
    ensures |code| == 2 ==> Normal(c.code) == [Capital(code[0]), Capital(code[1])]
  {
    if code == [] {
      assert c.code == (front + back) + [];
      BlanksGoLeft(front + back, []);
    } else {
      assert c.code == front + (code + back);
      assert code[0] in code && code[|code| - 1] in code && (code + back)[0] == code[0];
      BlanksGoLeft(front, code + back);
      BlanksGoRight(code, back);
    }
  }
}
