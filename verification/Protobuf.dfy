/** The Protocol Buffers wire format as the GeoIP reader takes it apart, and an encoder for it (Protocol
    Buffers Encoding specification, sections "Base 128 Varints" and "Message Structure"). */
module Protobuf {
  import opened Wrappers
  import opened Octets

  const MAX_VARINT_LENGTH := 10

  function Power2(n: nat): (p: nat)
    ensures p >= 1
  {
    if n == 0 then 1 else 2 * Power2(n - 1)
  }

  // ----- Varints -----

  /** The varint at the start of the data and its size, when `i` of its bytes were read before; nothing if
      the data ends within it or it does not fit 64 bits. */
  function VarintFrom(data: seq<Byte>, i: nat): (r: Option<(nat, nat)>)
    ensures r.Some? ==> 0 < r.value.1 <= |data|
    decreases |data|
  {
    if data == [] || i >= MAX_VARINT_LENGTH then None
    else if data[0] < 128 then
      if i == MAX_VARINT_LENGTH - 1 && data[0] > 1 then None else Some((data[0], 1))
    else
      match VarintFrom(data[1..], i + 1)
      case None => None
      case Some((value, size)) => Some((data[0] - 128 + 128 * value, size + 1))
  }

  /** Size 0 when there is no varint; the library's negative sizes for an overflow mean the same here. */
  method Uvarint(data: seq<Byte>) returns (value: nat, size: nat)
    ensures match VarintFrom(data, 0) case None => size == 0 case Some(r) => (value, size) == r
  {
    var i := 0;
    var weight := 1;
    value := 0;
    while i < |data|
      invariant 0 <= i <= |data| && i <= MAX_VARINT_LENGTH && weight >= 1
      invariant match VarintFrom(data[i..], i)
                case None => VarintFrom(data, 0) == None
                case Some((v, n)) => VarintFrom(data, 0) == Some((value + weight * v, i + n))
    {
      if i == MAX_VARINT_LENGTH {
        return 0, 0;
      }
      var b := data[i];
      assert data[i..][1..] == data[i + 1..];
      if b < 128 {
        if i == MAX_VARINT_LENGTH - 1 && b > 1 {
          return 0, 0;
        }
        return value + weight * b, i + 1;
      }
      Distribute(weight, b - 128, VarintFrom(data[i + 1..], i + 1));
      value := value + weight * (b - 128);
      weight := weight * 128;
      i := i + 1;
    }
    return 0, 0;
  }

  lemma Distribute(weight: nat, low: nat, rest: Option<(nat, nat)>)
    ensures rest.Some? ==> weight * (low + 128 * rest.value.0) == weight * low + weight * 128 * rest.value.0
  {
  }

  function EncodedVarint(v: nat): (bytes: seq<Byte>)
    ensures bytes != []
  {
    if v < 128 then [v] else [128 + v % 128] + EncodedVarint(v / 128)
  }

  lemma {:induction false} VarintRoundTripFrom(v: nat, i: nat, rest: seq<Byte>)
    requires i < MAX_VARINT_LENGTH && v < Power2(64 - 7 * i)
    ensures VarintFrom(EncodedVarint(v) + rest, i) == Some((v, |EncodedVarint(v)|))
    decreases v
  {
    var bytes := EncodedVarint(v);
    assert Power2(1) == 2;
    assert v >= 128 ==> i < MAX_VARINT_LENGTH - 1;
    if v >= 128 {
      SevenFewer(57 - 7 * i);
      VarintRoundTripFrom(v / 128, i + 1, rest);
      assert (bytes + rest)[1..] == EncodedVarint(v / 128) + rest;
    }
  }

  lemma SevenFewer(n: nat)
    ensures Power2(n + 7) == 128 * Power2(n)
  {
    assert Power2(n + 7) == 2 * Power2(n + 6);
    assert Power2(n + 6) == 2 * Power2(n + 5);
    assert Power2(n + 5) == 2 * Power2(n + 4);
    assert Power2(n + 4) == 2 * Power2(n + 3);
    assert Power2(n + 3) == 2 * Power2(n + 2);
    assert Power2(n + 2) == 2 * Power2(n + 1);
  }

  /** Every 64-bit value is read back from its encoding, whatever follows. */
  lemma VarintRoundTrip(v: nat, rest: seq<Byte>)
    requires v < Power2(64)
    ensures VarintFrom(EncodedVarint(v) + rest, 0) == Some((v, |EncodedVarint(v)|))
  {
    VarintRoundTripFrom(v, 0, rest);
  }

  /** And nothing read exceeds 64 bits. */
  lemma {:induction false} VarintFits(data: seq<Byte>, i: nat)
    requires i <= MAX_VARINT_LENGTH && VarintFrom(data, i).Some?
    ensures i < MAX_VARINT_LENGTH && VarintFrom(data, i).value.0 < Power2(64 - 7 * i)
    decreases |data|
  {
    assert Power2(1) == 2;
    if i < MAX_VARINT_LENGTH - 1 {
      SevenFewer(57 - 7 * i);
      if data[0] >= 128 { VarintFits(data[1..], i + 1); }
    }
  }

  // ----- Fields -----

  datatype Field = Field(number: nat, wire: nat, payload: seq<Byte>, rest: seq<Byte>)

  datatype Error =
    | InvalidKey
    | InvalidVarint
    | TruncatedFixed64
    | InvalidLength
    | TruncatedFixed32
    | UnsupportedWire(wire: nat)
    | InvalidValue

  /** The field whose payload follows `skip` bytes and is `length` long. */
  function Cut(number: nat, wire: nat, data: seq<Byte>, skip: nat, length: nat): (f: Field)
    requires skip + length <= |data|
    ensures |f.payload| == length && |f.rest| == |data| - skip - length
  {
    Field(number, wire, data[skip..skip + length], data[skip + length..])
  }

  function ConsumeValue(number: nat, wire: nat, data: seq<Byte>): (r: Result<Field, Error>)
    ensures r.Ok? ==> |r.value.payload| + |r.value.rest| <= |data|
  {
    if wire == 0 then
      match VarintFrom(data, 0)
      case None => Err(InvalidVarint)
      case Some(v) => Ok(Cut(number, wire, data, 0, v.1))
    else if wire == 1 then
      if |data| < 8 then Err(TruncatedFixed64) else Ok(Cut(number, wire, data, 0, 8))
    else if wire == 2 then
      match VarintFrom(data, 0)
      case None => Err(InvalidLength)
      case Some(v) => if v.0 > |data| - v.1 then Err(InvalidLength) else Ok(Cut(number, wire, data, v.1, v.0))
    else if wire == 5 then
      if |data| < 4 then Err(TruncatedFixed32) else Ok(Cut(number, wire, data, 0, 4))
    else Err(UnsupportedWire(wire))
  }

  function ConsumeField(data: seq<Byte>): (r: Result<Field, Error>)
    ensures r.Ok? ==> |r.value.payload| + |r.value.rest| < |data|
  {
    match VarintFrom(data, 0)
    case None => Err(InvalidKey)
    case Some(key) => ConsumeValue(key.0 / 8, key.0 % 8, data[key.1..])
  }

  lemma SuffixOfSuffix(data: seq<Byte>, cut: nat, k: nat)
    requires cut + k <= |data|
    ensures data[cut..][|data| - cut - k..] == data[|data| - k..]
  {
  }

  lemma ValueIsCut(number: nat, wire: nat, data: seq<Byte>)
    requires ConsumeValue(number, wire, data).Ok?
    ensures var f := ConsumeValue(number, wire, data).value;
            data[|data| - |f.rest| - |f.payload|..] == f.payload + f.rest
  {
  }

  /** Reading a field takes a non-empty front of the data off, which ends with its payload. */
  lemma FieldIsCutFromTheFront(data: seq<Byte>)
    requires ConsumeField(data).Ok?
    ensures var f := ConsumeField(data).value;
            |f.payload| + |f.rest| < |data| && data[|data| - |f.rest| - |f.payload|..] == f.payload + f.rest
  {
    var key := VarintFrom(data, 0).value;
    var f := ConsumeField(data).value;
    ValueIsCut(key.0 / 8, key.0 % 8, data[key.1..]);
    SuffixOfSuffix(data, key.1, |f.rest| + |f.payload|);
  }

  /** The records a message is made of. Groups, which the reader rejects, are not among them. */
  datatype Record =
    | Varint(number: nat, value: nat)
    | Fixed64(number: nat, bits64: seq<Byte>)
    | Bytes(number: nat, bytes: seq<Byte>)
    | Fixed32(number: nat, bits32: seq<Byte>)
  {
    function Wire(): nat {
      match this case Varint(_, _) => 0 case Fixed64(_, _) => 1 case Bytes(_, _) => 2 case Fixed32(_, _) => 5
    }

    function Payload(): seq<Byte> {
      match this
      case Varint(_, v) => EncodedVarint(v)
      case Fixed64(_, b) => b
      case Bytes(_, b) => b
      case Fixed32(_, b) => b
    }

    predicate Valid() {
      number < Power2(61) &&
      match this
      case Varint(_, v) => v < Power2(64)
      case Fixed64(_, b) => |b| == 8
      case Bytes(_, b) => |b| < Power2(64)
      case Fixed32(_, b) => |b| == 4
    }

    function Length(): seq<Byte> {
      if Bytes? then EncodedVarint(|bytes|) else []
    }

    function Encoded(): seq<Byte> {
      EncodedVarint(8 * number + Wire()) + Length() + Payload()
    }
  }

  predicate AllValid(records: seq<Record>) {
    forall r :: r in records ==> r.Valid()
  }

  function EncodedRecords(records: seq<Record>): seq<Byte> {
    if records == [] then [] else records[0].Encoded() + EncodedRecords(records[1..])
  }

  lemma ValueRoundTrip(r: Record, rest: seq<Byte>)
    requires r.Valid()
    ensures ConsumeValue(r.number, r.Wire(),
                         r.Length() + r.Payload() + rest) == Ok(Field(r.number, r.Wire(), r.Payload(), rest))
  {
    var after := r.Length() + r.Payload() + rest;
    match r {
      case Varint(_, v) =>
        assert after == EncodedVarint(v) + rest;
        VarintRoundTrip(v, rest);
      case Bytes(_, b) =>
        assert after == EncodedVarint(|b|) + (b + rest);
        VarintRoundTrip(|b|, b + rest);
      case Fixed64(_, b) =>
        assert after == b + rest;
      case Fixed32(_, b) =>
        assert after == b + rest;
    }
    CutApart(r.number, r.Wire(), r.Length(), r.Payload(), rest);
  }

  lemma CutApart(number: nat, wire: nat, length: seq<Byte>, payload: seq<Byte>, rest: seq<Byte>)
    ensures Cut(number, wire, length + payload + rest, |length|, |payload|) == Field(number, wire, payload, rest)
  {
  }

  lemma KeyParts(number: nat, wire: nat)
    requires number < Power2(61) && wire < 8
    ensures (8 * number + wire) / 8 == number && (8 * number + wire) % 8 == wire && 8 * number + wire < Power2(64)
  {
    assert Power2(64) == 2 * Power2(63) && Power2(63) == 2 * Power2(62) && Power2(62) == 2 * Power2(61);
  }

  lemma KeyIsRead(number: nat, wire: nat, after: seq<Byte>)
    requires number < Power2(61) && wire < 8
    ensures ConsumeField(EncodedVarint(8 * number + wire) + after) == ConsumeValue(number, wire, after)
  {
    var key := EncodedVarint(8 * number + wire);
    KeyParts(number, wire);
    VarintRoundTrip(8 * number + wire, after);
    assert (key + after)[|key|..] == after;
  }

  lemma Regroup(k: seq<Byte>, l: seq<Byte>, p: seq<Byte>, rest: seq<Byte>)
    ensures k + l + p + rest == k + (l + p + rest)
  {
  }

  /** A field is read back from its encoding, whatever follows. */
  lemma FieldRoundTrip(r: Record, rest: seq<Byte>)
    requires r.Valid()
    ensures ConsumeField(r.Encoded() + rest) == Ok(Field(r.number, r.Wire(), r.Payload(), rest))
  {
    Regroup(EncodedVarint(8 * r.number + r.Wire()), r.Length(), r.Payload(), rest);
    KeyIsRead(r.number, r.Wire(), r.Length() + r.Payload() + rest);
    ValueRoundTrip(r, rest);
  }
}
