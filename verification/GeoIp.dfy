/** Looking up the country of an address in a geoip.dat file. Addresses carry no zone and are unmapped, as
    the lookup makes them first; codes are normalised for ASCII. */
module GeoIp {
  import opened Wrappers
  import opened Octets
  import opened Protobuf

  // ----- Addresses and prefixes -----

  datatype Addr = Addr(width: nat, value: nat)

  datatype Prefix = Prefix(addr: Addr, bits: nat)

  function BigEndian(bytes: seq<Byte>): nat {
    if bytes == [] then 0 else 256 * BigEndian(bytes[..|bytes| - 1]) + bytes[|bytes| - 1]
  }

  function AddrFromSlice(raw: seq<Byte>): (a: Option<Addr>)
    ensures a.Some? ==> a.value.width in {32, 128}
  {
    if |raw| == 4 then Some(Addr(32, BigEndian(raw)))
    else if |raw| == 16 then Some(Addr(128, BigEndian(raw)))
    else None
  }

  const IPV4_SPACE := 0x1_0000_0000

  /** An IPv4 address in IPv6 clothes becomes an IPv4 address. */
  function Unmap(a: Addr): (r: Addr)
    ensures a.width in {32, 128} ==> r.width in {32, 128}
  {
    if a.width == 128 && a.value / IPV4_SPACE == 0xffff then Addr(32, a.value % IPV4_SPACE) else a
  }

  function Shifted(v: nat, n: nat): nat {
    if n == 0 then v else Shifted(v / 2, n - 1)
  }

  function Raised(v: nat, n: nat): nat {
    if n == 0 then v else 2 * Raised(v, n - 1)
  }

  /** The address without the bits after the first `bits`. */
  function Network(a: Addr, bits: nat): nat
    requires bits <= a.width
  {
    Shifted(a.value, a.width - bits)
  }

  function Masked(p: Prefix): (r: Prefix)
    requires p.bits <= p.addr.width
    ensures r.bits == p.bits && r.addr.width == p.addr.width
  {
    Prefix(Addr(p.addr.width, Raised(Network(p.addr, p.bits), p.addr.width - p.bits)), p.bits)
  }

  predicate Contains(p: Prefix, a: Addr)
    requires p.bits <= p.addr.width
  {
    p.addr.width == a.width && Network(a, p.bits) == Network(p.addr, p.bits)
  }

  lemma {:induction false} ShiftedBack(v: nat, n: nat)
    ensures Shifted(Raised(v, n), n) == v
  {
    if n > 0 { ShiftedBack(v, n - 1); }
  }

  /** Masking does not change which addresses a prefix contains. */
  lemma MaskingIsHarmless(p: Prefix, a: Addr)
    requires p.bits <= p.addr.width
    ensures Contains(Masked(p), a) <==> Contains(p, a)
  {
    ShiftedBack(Network(p.addr, p.bits), p.addr.width - p.bits);
  }

  type Block = p: Prefix | p.bits <= p.addr.width witness Prefix(Addr(0, 0), 0)

  // ----- Reading -----

  /** The prefix the two fields of a CIDR message describe; unusable ones are passed over. */
  function BlockOf(raw: seq<Byte>, bits: nat): Option<Block> {
    match AddrFromSlice(raw)
    case None => None
    case Some(mapped) =>
      var a := Unmap(mapped);
      if bits > a.width then None else Some(Masked(Prefix(a, bits)))
  }

  function CidrFrom(data: seq<Byte>, raw: seq<Byte>, bits: nat): Result<Option<Block>, Error>
    decreases |data|
  {
    if data == [] then Ok(BlockOf(raw, bits))
    else
      match ConsumeField(data)
      case Err(e) => Err(e)
      case Ok(f) =>
        if f.number == 1 && f.wire == 2 then CidrFrom(f.rest, f.payload, bits)
        else if f.number == 2 && f.wire == 0 then
          match VarintFrom(f.payload, 0)
          case None => Err(InvalidValue)
          case Some(v) => CidrFrom(f.rest, raw, v.0)
        else CidrFrom(f.rest, raw, bits)
  }

  method ParseCIDR(bytes: seq<Byte>) returns (result: Result<Option<Block>, Error>)
    ensures result == CidrFrom(bytes, [], 0)
  {
    var data := bytes;
    var raw: seq<Byte>, bits := [], 0;
    while |data| > 0
      invariant CidrFrom(bytes, [], 0) == CidrFrom(data, raw, bits)
      decreases |data|
    {
      var field := ConsumeField(data);
      if field.Err? {
        return Err(field.error);
      }
      var f := field.value;
      data := f.rest;
      if f.number == 1 && f.wire == 2 {
        raw := f.payload;
      } else if f.number == 2 && f.wire == 0 {
        var value, size := Uvarint(f.payload);
        if size == 0 {
          return Err(InvalidValue);
        }
        bits := value;
      }
    }
    return Ok(BlockOf(raw, bits));
  }

  datatype Country = Country(code: seq<Byte>, blocks: seq<Block>, reverse: bool)

  function CountryFrom(data: seq<Byte>, country: Country): Result<Country, Error>
    decreases |data|
  {
    if data == [] then Ok(country)
    else
      match ConsumeField(data)
      case Err(e) => Err(e)
      case Ok(f) =>
        if f.number == 1 && f.wire == 2 then CountryFrom(f.rest, country.(code := f.payload))
        else if f.number == 2 && f.wire == 2 then
          match CidrFrom(f.payload, [], 0)
          case Err(e) => Err(e)
          case Ok(b) => CountryFrom(f.rest, WithBlock(country, b))
        else if f.number == 3 && f.wire == 0 then
          match VarintFrom(f.payload, 0)
          case None => Err(InvalidValue)
          case Some(v) => CountryFrom(f.rest, country.(reverse := v.0 != 0))
        else CountryFrom(f.rest, country)
  }

  function WithBlock(country: Country, b: Option<Block>): Country {
    if b.Some? then country.(blocks := country.blocks + [b.value]) else country
  }

  const NO_COUNTRY := Country([], [], false)

  method ParseCountry(bytes: seq<Byte>) returns (result: Result<Country, Error>)
    ensures result == CountryFrom(bytes, NO_COUNTRY)
  {
    var data := bytes;
    var code: seq<Byte>, blocks: seq<Block>, reverse := [], [], false;
    while |data| > 0
      invariant CountryFrom(bytes, NO_COUNTRY) == CountryFrom(data, Country(code, blocks, reverse))
      decreases |data|
    {
      var field := ConsumeField(data);
      if field.Err? {
        return Err(field.error);
      }
      var f := field.value;
      data := f.rest;
      if f.number == 1 && f.wire == 2 {
        code := f.payload;
      } else if f.number == 2 && f.wire == 2 {
        var parsed := ParseCIDR(f.payload);
        if parsed.Err? {
          return Err(parsed.error);
        }
        if parsed.value.Some? {
          blocks := blocks + [parsed.value.value];
        }
      } else if f.number == 3 && f.wire == 0 {
        var value, size := Uvarint(f.payload);
        if size == 0 {
          return Err(InvalidValue);
        }
        reverse := value != 0;
      }
    }
    return Ok(Country(code, blocks, reverse));
  }

  // ----- The lookup -----

  type Code = seq<Byte>

  predicate IsBlankByte(b: Byte) {
    b == 32 || 9 <= b <= 13
  }

  function TrimmedLeft(s: Code): Code {
    if s != [] && IsBlankByte(s[0]) then TrimmedLeft(s[1..]) else s
  }

  function TrimmedRight(s: Code): Code {
    if s != [] && IsBlankByte(s[|s| - 1]) then TrimmedRight(s[..|s| - 1]) else s
  }

  function Upper(s: Code): (r: Code)
    ensures |r| == |s|
  {
    seq(|s|, i requires 0 <= i < |s| => if 97 <= s[i] <= 122 then s[i] - 32 else s[i])
  }

  function Normal(code: Code): Code {
    Upper(TrimmedRight(TrimmedLeft(code)))
  }

  predicate IsUsable(c: Country) {
    !c.reverse && |Normal(c.code)| == 2
  }

  predicate Covers(c: Country, a: Addr) {
    exists b :: b in c.blocks && Contains(b, a)
  }

  type Answers = map<Addr, Code>

  function Extended(answers: Answers, wanted: set<Addr>, c: Country): Answers {
    if IsUsable(c) then answers + map a | a in wanted && a !in answers && Covers(c, a) :: Normal(c.code) else answers
  }

  function LookupFrom(data: seq<Byte>, wanted: set<Addr>, answers: Answers): Result<Answers, Error>
    decreases |data|
  {
    if data == [] || |answers| >= |wanted| then Ok(answers)
    else
      match ConsumeField(data)
      case Err(e) => Err(e)
      case Ok(f) =>
        if f.number != 1 || f.wire != 2 then LookupFrom(f.rest, wanted, answers)
        else
          match CountryFrom(f.payload, NO_COUNTRY)
          case Err(e) => Err(e)
          case Ok(c) => LookupFrom(f.rest, wanted, Extended(answers, wanted, c))
  }

  method ExtendAnswers(answers: Answers, wanted: set<Addr>, c: Country) returns (extended: Answers)
    requires IsUsable(c)
    ensures extended == Extended(answers, wanted, c)
  {
    extended := answers;
    var left := wanted;
    while left != {}
      invariant left <= wanted
      invariant extended == answers + map a | a in wanted - left && a !in answers && Covers(c, a) :: Normal(c.code)
      decreases |left|
    {
      var address :| address in left;
      left := left - {address};
      if address in answers {
        continue;
      }
      var i := 0;
      while i < |c.blocks| && !Contains(c.blocks[i], address)
        invariant 0 <= i <= |c.blocks| && forall j :: 0 <= j < i ==> !Contains(c.blocks[j], address)
      {
        i := i + 1;
      }
      if i < |c.blocks| {
        assert Covers(c, address);
        extended := extended[address := Normal(c.code)];
      } else {
        assert !Covers(c, address);
      }
    }
    assert wanted - left == wanted;
  }

  method LookupFile(bytes: seq<Byte>, wanted: set<Addr>) returns (result: Result<Answers, Error>)
    ensures result == LookupFrom(bytes, wanted, map[])
  {
    var data := bytes;
    var answers: Answers := map[];
    while |data| > 0 && |answers| < |wanted|
      invariant LookupFrom(bytes, wanted, map[]) == LookupFrom(data, wanted, answers)
      decreases |data|
    {
      var field := ConsumeField(data);
      if field.Err? {
        return Err(field.error);
      }
      var f := field.value;
      data := f.rest;
      if f.number != 1 || f.wire != 2 {
        continue;
      }
      var country := ParseCountry(f.payload);
      if country.Err? {
        return Err(country.error);
      }
      if !IsUsable(country.value) {
        continue;
      }
      answers := ExtendAnswers(answers, wanted, country.value);
    }
    return Ok(answers);
  }

  // ----- Messages and what they mean -----

  /** A CIDR message: its fields in any order, repeated or missing, among unknown ones. */
  function CidrMeaning(records: seq<Record>, raw: seq<Byte>, bits: nat): Option<Block> {
    if records == [] then BlockOf(raw, bits)
    else
      var next := CidrState(records[0], raw, bits);
      CidrMeaning(records[1..], next.0, next.1)
  }

  /** The two fields after one more record. */
  function CidrState(r: Record, raw: seq<Byte>, bits: nat): (seq<Byte>, nat) {
    match r
    case Bytes(n, b) => (if n == 1 then b else raw, bits)
    case Varint(n, v) => (raw, if n == 2 then v else bits)
    case _ => (raw, bits)
  }

  lemma CidrStep(r: Record, tail: seq<Byte>, raw: seq<Byte>, bits: nat)
    requires r.Valid()
    ensures var next := CidrState(r, raw, bits);
            CidrFrom(r.Encoded() + tail, raw, bits) == CidrFrom(tail, next.0, next.1)
  {
    FieldRoundTrip(r, tail);
    assert r.Encoded() + tail != [];
    if r.Varint? {
      VarintRoundTrip(r.value, []);
      assert EncodedVarint(r.value) + [] == EncodedVarint(r.value);
    }
  }

  lemma {:induction false} CidrIsRead(records: seq<Record>, raw: seq<Byte>, bits: nat)
    requires AllValid(records)
    ensures CidrFrom(EncodedRecords(records), raw, bits) == Ok(CidrMeaning(records, raw, bits))
  {
    if records != [] {
      var r, rest := records[0], records[1..];
      assert r in records && forall x :: x in rest ==> x in records;
      CidrStep(r, EncodedRecords(rest), raw, bits);
      var next := CidrState(r, raw, bits);
      CidrIsRead(rest, next.0, next.1);
    }
  }

  datatype CountryField =
    | CodeField(code: Code)
    | CidrField(records: seq<Record>)
    | ReverseField(value: nat)
    | OtherField(record: Record)
  {
    function AsRecord(): Record {
      match this
      case CodeField(c) => Bytes(1, c)
      case CidrField(rs) => Bytes(2, EncodedRecords(rs))
      case ReverseField(v) => Varint(3, v)
      case OtherField(r) => r
    }

    predicate Valid() {
      && AsRecord().Valid()
      && (CidrField? ==> AllValid(records))
      && (OtherField? ==> !(record.Bytes? && record.number in {1, 2}) && !(record.Varint? && record.number == 3))
    }

    function Added(c: Country): Country {
      match this
      case CodeField(code) => c.(code := code)
      case CidrField(rs) => WithBlock(c, CidrMeaning(rs, [], 0))
      case ReverseField(v) => c.(reverse := v != 0)
      case OtherField(_) => c
    }
  }

  function CountryMeaning(fields: seq<CountryField>, c: Country): Country {
    if fields == [] then c else CountryMeaning(fields[1..], fields[0].Added(c))
  }

  function EncodedCountry(fields: seq<CountryField>): seq<Byte> {
    if fields == [] then [] else fields[0].AsRecord().Encoded() + EncodedCountry(fields[1..])
  }

  predicate AllCountryFieldsValid(fields: seq<CountryField>) {
    forall f :: f in fields ==> f.Valid()
  }

  lemma CountryStep(field: CountryField, tail: seq<Byte>, c: Country)
    requires field.Valid()
    ensures CountryFrom(field.AsRecord().Encoded() + tail, c) == CountryFrom(tail, field.Added(c))
  {
    var r := field.AsRecord();
    FieldRoundTrip(r, tail);
    assert r.Encoded() + tail != [];
    if field.CidrField? {
      CidrIsRead(field.records, [], 0);
    } else if field.ReverseField? {
      VarintRoundTrip(field.value, []);
      assert EncodedVarint(field.value) + [] == EncodedVarint(field.value);
    }
  }

  lemma {:induction false} CountryIsRead(fields: seq<CountryField>, c: Country)
    requires AllCountryFieldsValid(fields)
    ensures CountryFrom(EncodedCountry(fields), c) == Ok(CountryMeaning(fields, c))
  {
    if fields != [] {
      var rest := fields[1..];
      assert fields[0] in fields && forall x :: x in rest ==> x in fields;
      CountryStep(fields[0], EncodedCountry(rest), c);
      CountryIsRead(rest, fields[0].Added(c));
    }
  }

  datatype FileField = CountryEntry(fields: seq<CountryField>) | OtherEntry(record: Record)
  {
    function AsRecord(): Record {
      match this case CountryEntry(fields) => Bytes(1, EncodedCountry(fields)) case OtherEntry(r) => r
    }

    predicate Valid() {
      AsRecord().Valid()
      && match this
         case CountryEntry(fields) => AllCountryFieldsValid(fields)
         case OtherEntry(r) => !(r.Bytes? && r.number == 1)
    }

    /** The answer the entry gives for an address. */
    function Answer(a: Addr): Option<Code> {
      match this
      case OtherEntry(_) => None
      case CountryEntry(fields) =>
        var c := CountryMeaning(fields, NO_COUNTRY);
        if IsUsable(c) && Covers(c, a) then Some(Normal(c.code)) else None
    }
  }

  function EncodedFile(file: seq<FileField>): seq<Byte> {
    if file == [] then [] else file[0].AsRecord().Encoded() + EncodedFile(file[1..])
  }

  /** The first answer in file order. */
  function FirstAnswer(file: seq<FileField>, a: Addr): Option<Code> {
    if file == [] then None
    else if file[0].Answer(a).Some? then file[0].Answer(a)
    else FirstAnswer(file[1..], a)
  }

  lemma AllAnswered(answers: Answers, wanted: set<Addr>)
    requires answers.Keys <= wanted && |answers| >= |wanted|
    ensures answers.Keys == wanted
  {
    var missing := wanted - answers.Keys;
    assert wanted == answers.Keys + missing && |answers.Keys| == |answers|;
    assert |wanted| == |answers.Keys| + |missing|;
  }

  /** The answers after one more entry. */
  function Advanced(answers: Answers, wanted: set<Addr>, entry: FileField): Answers {
    match entry
    case OtherEntry(_) => answers
    case CountryEntry(fields) => Extended(answers, wanted, CountryMeaning(fields, NO_COUNTRY))
  }

  lemma LookupStep(entry: FileField, tail: seq<Byte>, wanted: set<Addr>, answers: Answers)
    requires entry.Valid() && |answers| < |wanted|
    ensures LookupFrom(entry.AsRecord().Encoded() + tail, wanted, answers) ==
              LookupFrom(tail, wanted, Advanced(answers, wanted, entry))
  {
    var r := entry.AsRecord();
    FieldRoundTrip(r, tail);
    assert r.Encoded() + tail != [];
    if entry.CountryEntry? { CountryIsRead(entry.fields, NO_COUNTRY); }
  }

  lemma AdvancedAnswers(answers: Answers, wanted: set<Addr>, entry: FileField)
    requires answers.Keys <= wanted
    ensures var next := Advanced(answers, wanted, entry);
            && next.Keys <= wanted
            && (forall a :: a in next <==> a in answers || (a in wanted && entry.Answer(a).Some?))
            && (forall a :: a in next ==> next[a] == if a in answers then answers[a] else entry.Answer(a).value)
  {
  }

  lemma {:induction false} LookupFromAnswers(file: seq<FileField>, wanted: set<Addr>, answers: Answers)
    requires (forall f :: f in file ==> f.Valid()) && answers.Keys <= wanted
    ensures var r := LookupFrom(EncodedFile(file), wanted, answers);
            && r.Ok?
            && (forall a :: a in r.value <==> a in answers || (a in wanted && FirstAnswer(file, a).Some?))
            && (forall a :: a in r.value ==>
                  r.value[a] == if a in answers then answers[a] else FirstAnswer(file, a).value)
  {
    if |answers| >= |wanted| {
      AllAnswered(answers, wanted);
    } else if file != [] {
      var entry, rest := file[0], file[1..];
      assert entry in file && forall x :: x in rest ==> x in file;
      LookupStep(entry, EncodedFile(rest), wanted, answers);
      AdvancedAnswers(answers, wanted, entry);
      LookupFromAnswers(rest, wanted, Advanced(answers, wanted, entry));
    }
  }

  /** For every encoded list of countries, with fields in any order and unknown ones anywhere, the lookup
      gives each address the first usable country in file order that covers it, and no other answer. */
  lemma LookupFindsFirstCountry(file: seq<FileField>, wanted: set<Addr>)
    requires forall f :: f in file ==> f.Valid()
    ensures var r := LookupFrom(EncodedFile(file), wanted, map[]);
            r.Ok? && forall a :: a in wanted ==>
              (if a in r.value then Some(r.value[a]) else None) == FirstAnswer(file, a)
    ensures LookupFrom(EncodedFile(file), wanted, map[]).value.Keys <= wanted
  {
    LookupFromAnswers(file, wanted, map[]);
  }
}
