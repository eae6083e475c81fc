/** The key hash of the LMO format. */
module SuperFastHash {
  import opened Octets

  function Unsigned(b: Byte): bv32 {
    b as bv32
  }

  /** A byte as a signed one, widened. */
  function Signed(b: Byte): bv32 {
    if b < 128 then b as bv32 else (b as bv32) | 0xFFFF_FF00
  }

  function Get16(data: seq<Byte>, at: nat): bv32
    requires at + 1 < |data|
  {
    Unsigned(data[at]) | (Unsigned(data[at + 1]) << 8)
  }

  /** Four bytes mixed into the hash. */
  function Mixed(hash: bv32, low: bv32, high: bv32): bv32 {
    var sum := hash + low;
    var mixed := (sum << 16) ^ ((high << 11) ^ sum);
    mixed + (mixed >> 11)
  }

  /** The hash of the length and the first k blocks of four. */
  function Blocks(data: seq<Byte>, seed: bv32, k: nat): bv32
    requires 4 * k <= |data|
  {
    if k == 0 then seed
    else Mixed(Blocks(data, seed, k - 1), Get16(data, 4 * k - 4), Get16(data, 4 * k - 2))
  }

  /** The bytes after the last block of four. */
  datatype Rest = Nothing | One(last: bv32) | Two(pair: bv32) | Three(pair: bv32, last: bv32)

  function RestOf(data: seq<Byte>): Rest {
    var at := |data| / 4 * 4;
    match |data| % 4
    case 3 => Three(Get16(data, at), Signed(data[at + 2]))
    case 2 => Two(Get16(data, at))
    case 1 => One(Signed(data[at]))
    case _ => Nothing
  }

  function WithRest(hash: bv32, rest: Rest): bv32 {
    match rest
    case Nothing => hash
    case One(last) =>
      var a := hash + last;
      var b := a ^ (a << 10);
      b + (b >> 1)
    case Two(pair) =>
      var a := hash + pair;
      var b := a ^ (a << 11);
      b + (b >> 17)
    case Three(pair, last) =>
      var a := hash + pair;
      var b := a ^ (a << 16);
      var c := b ^ (last << 18);
      c + (c >> 11)
  }

  function Avalanche(hash: bv32): bv32 {
    var a := hash ^ (hash << 3);
    var b := a + (a >> 5);
    var c := b ^ (b << 4);
    var d := c + (c >> 17);
    var e := d ^ (d << 25);
    e + (e >> 6)
  }

  function Seed(length: nat): bv32 {
    (length % 0x1_0000_0000) as bv32
  }

  function HashOf(data: seq<Byte>): bv32 {
    if data == [] then 0 else Avalanche(WithRest(Blocks(data, Seed(|data|), |data| / 4), RestOf(data)))
  }

  method MixBlocks(data: seq<Byte>) returns (hash: bv32)
    ensures hash == Blocks(data, Seed(|data|), |data| / 4)
  {
    hash := Seed(|data|);
    var offset := 0;
    for block := 0 to |data| / 4
      invariant offset == 4 * block && hash == Blocks(data, Seed(|data|), block)
    {
      hash := Mixed(hash, Get16(data, offset), Get16(data, offset + 2));
      offset := offset + 4;
    }
  }

  method SfhHash(data: seq<Byte>) returns (hash: bv32)
    ensures hash == HashOf(data)
  {
    if |data| == 0 {
      return 0;
    }
    hash := MixBlocks(data);
    hash := Avalanche(WithRest(hash, RestOf(data)));
  }

  // ----- Known hashes -----

  function Bits(n: nat): bv32
    requires n < 0x1_0000_0000
  {
    n as bv32
  }

  lemma SmallRemainder(n: nat)
    requires n < 0x1_0000_0000
    ensures n % 0x1_0000_0000 == n
  {
  }

  lemma SeedIsLength(length: nat)
    requires length < 0x1_0000_0000
    ensures Seed(length) == Bits(length)
  {
    SmallRemainder(length);
    var n := length % 0x1_0000_0000;
    assert Bits(n) == Bits(length);
  }

  lemma SmallSeeds()
    ensures Seed(1) == 1 && Seed(2) == 2 && Seed(3) == 3 && Seed(8) == 8
  {
    SeedIsLength(1);
    SeedIsLength(2);
    SeedIsLength(3);
    SeedIsLength(8);
  }

  lemma Get16Is(data: seq<Byte>, at: nat, low: bv32, high: bv32)
    requires at + 1 < |data| && low == Unsigned(data[at]) && high == Unsigned(data[at + 1])
    ensures Get16(data, at) == low | (high << 8)
  {
  }

  lemma SettingsPairs(data: seq<Byte>)
    requires data == [83, 101, 116, 116, 105, 110, 103, 115]
    ensures Get16(data, 0) == 0x6553 && Get16(data, 2) == 0x7474
    ensures Get16(data, 4) == 0x6E69 && Get16(data, 6) == 0x7367
  {
    Get16Is(data, 0, 83, 101);
    Get16Is(data, 2, 116, 116);
    Get16Is(data, 4, 105, 110);
    Get16Is(data, 6, 103, 115);
  }

  lemma TwoBlocks(data: seq<Byte>, a: bv32, b: bv32, c: bv32, d: bv32)
    requires |data| == 8 && Get16(data, 0) == a && Get16(data, 2) == b && Get16(data, 4) == c && Get16(data, 6) == d
    ensures HashOf(data) == Avalanche(Mixed(Mixed(Seed(8), a, b), c, d))
  {
    assert Blocks(data, Seed(8), 1) == Mixed(Seed(8), a, b);
  }

  /** "Settings": two blocks and nothing after them. */
  lemma HashOfSettings()
    ensures HashOf([83, 101, 116, 116, 105, 110, 103, 115]) == 0x60CC_7D18
  {
    var data := [83, 101, 116, 116, 105, 110, 103, 115];
    SettingsPairs(data);
    SmallSeeds();
    TwoBlocks(data, 0x6553, 0x7474, 0x6E69, 0x7367);
    assert Mixed(8, 0x6553, 0x7474) == 0x6705_A473;
    assert Mixed(0x6705_A473, 0x6E69, 0x7367) == 0x764F_F301;
  }

  lemma NoBlocks(data: seq<Byte>, seed: bv32, rest: Rest)
    requires 0 < |data| < 4 && Seed(|data|) == seed && RestOf(data) == rest
    ensures HashOf(data) == Avalanche(WithRest(seed, rest))
  {
  }

  /** One byte left over, which is negative as a signed one. */
  lemma HashOfHighByte()
    ensures HashOf([208]) == 0x51EA_B2F2
  {
    SmallSeeds();
    assert Signed(208) == 0xFFFF_FFD0;
    NoBlocks([208], 1, One(0xFFFF_FFD0));
  }

  /** "Up": two bytes left over. */
  lemma HashOfUp()
    ensures HashOf([85, 112]) == 0x3860_E577
  {
    SmallSeeds();
    Get16Is([85, 112], 0, 85, 112);
    NoBlocks([85, 112], 2, Two(0x7055));
  }

  lemma RestOfThree(data: seq<Byte>)
    requires data == [78, 111, 233]
    ensures RestOf(data) == Three(0x6F4E, 0xFFFF_FFE9)
  {
    Get16Is(data, 0, 78, 111);
    assert Signed(233) == 0xFFFF_FFE9;
  }

  /** "No" and a byte that is negative as a signed one: three bytes left over. */
  lemma HashOfThree()
    ensures HashOf([78, 111, 233]) == 0xF213_96E2
  {
    SmallSeeds();
    RestOfThree([78, 111, 233]);
    NoBlocks([78, 111, 233], 3, Three(0x6F4E, 0xFFFF_FFE9));
  }

  lemma SavedParts(data: seq<Byte>)
    requires data == [83, 97, 118, 101, 100]
    ensures Get16(data, 0) == 0x6153 && Get16(data, 2) == 0x6576 && RestOf(data) == One(0x64)
  {
    Get16Is(data, 0, 83, 97);
    Get16Is(data, 2, 118, 101);
  }

  lemma OneBlock(data: seq<Byte>, seed: bv32, a: bv32, b: bv32, rest: Rest)
    requires |data| == 5 && Seed(5) == seed && Get16(data, 0) == a && Get16(data, 2) == b && RestOf(data) == rest
    ensures HashOf(data) == Avalanche(WithRest(Mixed(seed, a, b), rest))
  {
    assert Blocks(data, Seed(5), 0) == Seed(5);
  }

  /** "Saved": a block and one byte. */
  lemma HashOfSaved()
    ensures HashOf([83, 97, 118, 101, 100]) == 0xF71F_9D77
  {
    SeedIsLength(5);
    SavedParts([83, 97, 118, 101, 100]);
    OneBlock([83, 97, 118, 101, 100], 5, 0x6153, 0x6576, One(0x64));
  }
}
