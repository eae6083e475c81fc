/** Writing a translation catalog in the LMO format, and reading a text back from it the way LuCI does, by
    binary search. Texts are byte strings; the key hash is any function. */
module Lmo {
  import opened Wrappers
  import opened Octets
  import opened Sorting
  import SuperFastHash

  type Text = seq<Byte>
  type Word = w: int | 0 <= w < 0x1_0000_0000
  type Hash = Text -> Word

  /** The hash LuCI uses; up to `Translate` nothing depends on which one it is. */
  function LuciHash(text: Text): Word {
    SuperFastHash.HashOf(text) as int
  }

  const WORD_SPACE := 0x1_0000_0000

  datatype Message = Message(context: Text, id: Text, plural: Text, values: map<nat, Text>)

  datatype Entry = Entry(keyId: Word, valueN: Word, offset: Word, length: Word)

  /** One text of the catalog under the hash of its key. */
  datatype Item = Item(keyId: Word, valueN: nat, text: Text)

  // ----- Which texts are written -----

  function Digits(n: nat): Text {
    if n < 10 then [48 + n] else Digits(n / 10) + [48 + n % 10]
  }

  function Value(m: Message, index: nat): Text {
    if index in m.values then m.values[index] else []
  }

  function Key(m: Message, index: nat): Text {
    (if m.context != [] then m.context + [1] else []) + m.id + (if m.plural != [] then [2] + Digits(index) else [])
  }

  /** The first line, without the break, and what follows it. */
  function Line(s: Text): (Text, Option<Text>) {
    if s == [] then ([], None)
    else if s[0] == 10 then ([], Some(s[1..]))
    else
      var (line, rest) := Line(s[1..]);
      ([s[0]] + line, rest)
  }

  lemma LineIsShorter(s: Text)
    ensures Line(s).1.Some? ==> |Line(s).1.value| < |s|
  {
    if s != [] && s[0] != 10 { LineIsShorter(s[1..]); }
  }

  /** "Plural-Forms: " */
  const PLURAL_FORMS: Text := [80, 108, 117, 114, 97, 108, 45, 70, 111, 114, 109, 115, 58, 32]

  function PluralFormula(header: Text): Text
    decreases |header|
  {
    var (line, rest) := Line(header);
    if PLURAL_FORMS <= line then line[|PLURAL_FORMS|..]
    else if rest.None? then []
    else
      LineIsShorter(header);
      PluralFormula(rest.value)
  }

  /** Empty texts and texts that hash like their key are not written. */
  function ItemsFrom(m: Message, count: nat, hash: Hash): (items: seq<Item>)
    ensures |items| <= count
  {
    if count == 0 then []
    else
      var before, index := ItemsFrom(m, count - 1, hash), count - 1;
      if Value(m, index) == [] || hash(Key(m, index)) == hash(Value(m, index)) then before
      else before + [Item(hash(Key(m, index)), |m.values|, Value(m, index))]
  }

  function ItemsOf(m: Message, hash: Hash): seq<Item> {
    if m.id == [] then
      var formula := PluralFormula(Value(m, 0));
      if formula == [] then [] else [Item(0, 0, formula)]
    else ItemsFrom(m, |m.values|, hash)
  }

  function Items(messages: seq<Message>, hash: Hash): seq<Item> {
    if messages == [] then []
    else Items(messages[..|messages| - 1], hash) + ItemsOf(messages[|messages| - 1], hash)
  }

  predicate IsWritten(m: Message, index: nat, hash: Hash) {
    Value(m, index) != [] && hash(Key(m, index)) != hash(Value(m, index))
  }

  /** The text at an index is written under its key. */
  predicate IsWrittenAs(m: Message, index: nat, hash: Hash, item: Item) {
    && IsWritten(m, index, hash)
    && item == Item(hash(Key(m, index)), |m.values|, Value(m, index))
  }

  /** Only indices below the number of texts are looked at, so a text beyond a gap in the indices is lost. */
  lemma {:induction false} WrittenTexts(m: Message, count: nat, hash: Hash, item: Item)
    ensures item in ItemsFrom(m, count, hash) <==>
              exists index :: 0 <= index < count && IsWrittenAs(m, index, hash, item)
  {
    if count > 0 {
      WrittenTexts(m, count - 1, hash, item);
      if IsWrittenAs(m, count - 1, hash, item) {
        assert item in ItemsFrom(m, count, hash);
      }
    }
  }

  /** A message with the texts 0 and 2 loses the second one, which sits at the index of its count. */
  lemma TextBeyondGapIsLost(id: Text, first: Text, last: Text, hash: Hash)
    requires id != [] && first != [] && last != [] && last != first
    ensures var m := Message([], id, [], map[0 := first, 2 := last]);
            Value(m, 2) == last && forall item :: item in ItemsOf(m, hash) ==> item.text != last
  {
    var m := Message([], id, [], map[0 := first, 2 := last]);
    assert m.values.Keys == {0, 2};
    assert |m.values| == 2 by { assert |m.values.Keys| == 2; }
    forall item | item in ItemsOf(m, hash) ensures item.text != last {
      WrittenTexts(m, |m.values|, hash, item);
      var index :| 0 <= index < 2 && IsWrittenAs(m, index, hash, item);
    }
  }

  // ----- Where they are written -----

  function Padding(n: nat): (p: nat)
    ensures p < 4 && (n + p) % 4 == 0
  {
    (4 - n % 4) % 4
  }

  function Zeros(n: nat): (z: Text)
    ensures |z| == n
  {
    seq(n, _ => 0)
  }

  function Appended(data: Text, text: Text): Text {
    data + text + Zeros(Padding(|data| + |text|))
  }

  /** Numbers are kept in 32 bits, so they wrap beyond. */
  function Wrapped(n: nat): Word {
    n % WORD_SPACE
  }

  function Data(items: seq<Item>): Text {
    if items == [] then [] else Appended(Data(items[..|items| - 1]), items[|items| - 1].text)
  }

  function Entries(items: seq<Item>): (entries: seq<Entry>)
    ensures |entries| == |items|
  {
    if items == [] then []
    else
      var before, item := items[..|items| - 1], items[|items| - 1];
      Entries(before) + [Entry(item.keyId, Wrapped(item.valueN), Wrapped(|Data(before)|), Wrapped(|item.text|))]
  }

  lemma ItemsGrow(items: seq<Item>, item: Item)
    ensures Data(items + [item]) == Appended(Data(items), item.text)
    ensures Entries(items + [item]) ==
              Entries(items) + [Entry(item.keyId, Wrapped(item.valueN), Wrapped(|Data(items)|), Wrapped(|item.text|))]
  {
    assert (items + [item])[..|items|] == items;
  }

  class Encoder {
    var data: Text
    var entries: seq<Entry>

    ghost predicate Holds(items: seq<Item>)
      reads this
    {
      data == Data(items) && entries == Entries(items)
    }

    constructor ()
      ensures Holds([])
    {
      data, entries := [], [];
    }

    method Pad()
      modifies this`data
      ensures data == old(data) + Zeros(Padding(|old(data)|))
    {
      ghost var written, padded := data, 0;
      while |data| % 4 != 0
        invariant padded <= Padding(|written|) && data == written + Zeros(padded)
        decreases Padding(|written|) - padded
      {
        assert padded < Padding(|written|);
        data := data + [0];
        padded := padded + 1;
        assert Zeros(padded) == Zeros(padded - 1) + [0];
      }
      assert padded == Padding(|written|);
    }

    method Add(item: Item, ghost items: seq<Item>)
      requires Holds(items)
      modifies this
      ensures Holds(items + [item])
    {
      ItemsGrow(items, item);
      entries := entries + [Entry(item.keyId, Wrapped(item.valueN), Wrapped(|data|), Wrapped(|item.text|))];
      data := data + item.text;
      Pad();
    }

    method AddTexts(m: Message, hash: Hash, ghost items: seq<Item>)
      requires Holds(items)
      modifies this
      ensures Holds(items + ItemsFrom(m, |m.values|, hash))
    {
      ghost var all := items;
      assert items + [] == items;
      for index := 0 to |m.values|
        invariant all == items + ItemsFrom(m, index, hash) && Holds(all)
      {
        var value, key := Value(m, index), Key(m, index);
        if value == [] || hash(key) == hash(value) {
          continue;
        }
        var item := Item(hash(key), |m.values|, value);
        Add(item, all);
        assert all + [item] == items + (ItemsFrom(m, index, hash) + [item]);
        all := all + [item];
      }
    }

    method AddMessage(m: Message, hash: Hash, ghost items: seq<Item>)
      requires Holds(items)
      modifies this
      ensures Holds(items + ItemsOf(m, hash))
    {
      if m.id == [] {
        var formula := PluralFormula(Value(m, 0));
        if formula != [] {
          Add(Item(0, 0, formula), items);
        } else {
          assert items + [] == items;
        }
      } else {
        AddTexts(m, hash, items);
      }
    }

    method EncodeMessages(messages: seq<Message>, hash: Hash)
      requires Holds([])
      modifies this
      ensures Holds(Items(messages, hash))
    {
      for i := 0 to |messages|
        invariant Holds(Items(messages[..i], hash))
      {
        assert messages[..i + 1][..i] == messages[..i];
        AddMessage(messages[i], hash, Items(messages[..i], hash));
      }
      assert messages[..|messages|] == messages;
    }
  }

  // ----- The layout -----

  predicate Spells(data: Text, e: Entry, text: Text) {
    e.offset + e.length <= |data| && data[e.offset..e.offset + e.length] == text
  }

  lemma SpellsStays(data: Text, more: Text, e: Entry, text: Text)
    requires Spells(data, e, text)
    ensures Spells(data + more, e, text)
  {
    assert (data + more)[e.offset..e.offset + e.length] == data[e.offset..e.offset + e.length];
  }

  lemma AppendedSpells(data: Text, text: Text, e: Entry)
    requires e.offset == |data| && e.length == |text|
    ensures Spells(Appended(data, text), e, text)
  {
    assert Appended(data, text)[|data|..|data| + |text|] == text;
  }

  /** What the entries of a catalog satisfy. */
  ghost predicate IsLayout(items: seq<Item>, data: Text, entries: seq<Entry>) {
    && |entries| == |items| && |data| % 4 == 0
    && (forall i :: 0 <= i < |items| ==>
          entries[i].keyId == items[i].keyId && entries[i].offset % 4 == 0 && Spells(data, entries[i], items[i].text))
    && (forall i, j :: 0 <= i < j < |items| ==> entries[i].offset + entries[i].length <= entries[j].offset)
  }

  lemma LayoutGrows(items: seq<Item>, data: Text, entries: seq<Entry>, item: Item, e: Entry)
    requires IsLayout(items, data, entries) && e.keyId == item.keyId && e.offset == |data| && e.length == |item.text|
    ensures IsLayout(items + [item], Appended(data, item.text), entries + [e])
  {
    var grown, all, index := Appended(data, item.text), items + [item], entries + [e];
    AppendedSpells(data, item.text, e);
    forall i | 0 <= i < |all|
      ensures index[i].keyId == all[i].keyId && index[i].offset % 4 == 0 && Spells(grown, index[i], all[i].text)
    {
      if i < |items| {
        assert grown == data + (item.text + Zeros(Padding(|data| + |item.text|)));
        SpellsStays(data, item.text + Zeros(Padding(|data| + |item.text|)), entries[i], items[i].text);
      }
    }
    forall i, j | 0 <= i < j < |all| ensures index[i].offset + index[i].length <= index[j].offset {
      if j == |items| { assert Spells(data, entries[i], items[i].text); }
    }
  }

  lemma SmallIsNotWrapped(n: nat)
    requires n < WORD_SPACE
    ensures Wrapped(n) == n
  {
  }

  lemma LayoutStep(items: seq<Item>, item: Item)
    requires IsLayout(items, Data(items), Entries(items)) && |Data(items)| < WORD_SPACE && |item.text| < WORD_SPACE
    ensures IsLayout(items + [item], Data(items + [item]), Entries(items + [item]))
  {
    var e := Entry(item.keyId, Wrapped(item.valueN), Wrapped(|Data(items)|), Wrapped(|item.text|));
    ItemsGrow(items, item);
    SmallIsNotWrapped(|Data(items)|);
    SmallIsNotWrapped(|item.text|);
    LayoutGrows(items, Data(items), Entries(items), item, e);
  }

  lemma DataIsLonger(items: seq<Item>, item: Item)
    ensures |Data(items + [item])| >= |Data(items)| + |item.text|
  {
    ItemsGrow(items, item);
  }

  /** As long as the data stays under 2^32 bytes, every entry is aligned, lies inside the data, ends before
      the next one starts and spells its text. */
  lemma {:induction false} LayoutIsSound(items: seq<Item>)
    requires |Data(items)| < WORD_SPACE
    ensures IsLayout(items, Data(items), Entries(items))
  {
    if items != [] {
      var before, item := items[..|items| - 1], items[|items| - 1];
      assert items == before + [item];
      DataIsLonger(before, item);
      LayoutIsSound(before);
      LayoutStep(before, item);
    }
  }

  // ----- The file -----

  function WordBytes(w: Word): (b: Text)
    ensures |b| == 4
  {
    [w / 0x100 / 0x100 / 0x100, w / 0x100 / 0x100 % 0x100, w / 0x100 % 0x100, w % 0x100]
  }

  function WordAt(file: Text, at: nat): Word
    requires at + 4 <= |file|
  {
    var a: int, b: int, c: int, d: int := file[at], file[at + 1], file[at + 2], file[at + 3];
    0x100 * (0x100 * (0x100 * a + b) + c) + d
  }

  lemma WordRoundTrip(w: Word)
    ensures WordAt(WordBytes(w), 0) == w
  {
  }

  function EntryBytes(e: Entry): (b: Text)
    ensures |b| == 16
  {
    WordBytes(e.keyId) + WordBytes(e.valueN) + WordBytes(e.offset) + WordBytes(e.length)
  }

  function IndexBytes(entries: seq<Entry>): (b: Text)
    ensures |b| == 16 * |entries|
  {
    if entries == [] then [] else IndexBytes(entries[..|entries| - 1]) + EntryBytes(entries[|entries| - 1])
  }

  predicate KeyLess(a: Entry, b: Entry) {
    a.keyId < b.keyId
  }

  function Assembled(data: Text, index: seq<Entry>): Text {
    data + IndexBytes(index) + WordBytes(Wrapped(|data|))
  }

  method Assemble(data: Text, index: seq<Entry>) returns (file: Text)
    ensures file == Assembled(data, index)
  {
    file := data;
    for i := 0 to |index|
      invariant file == data + IndexBytes(index[..i])
    {
      assert index[..i + 1][..i] == index[..i];
      file := file + EntryBytes(index[i]);
    }
    assert index[..|index|] == index;
    file := file + WordBytes(Wrapped(|data|));
  }

  /** A catalog without texts is an error. */
  method Compile(messages: seq<Message>, hash: Hash) returns (file: Option<Text>)
    ensures var items := Items(messages, hash);
            file == if items == [] then None else Some(Assembled(Data(items), StableSort(Entries(items), KeyLess)))
  {
    var encoder := new Encoder();
    encoder.EncodeMessages(messages, hash);
    if |encoder.entries| == 0 {
      return None;
    }
    var assembled := Assemble(encoder.data, StableSort(encoder.entries, KeyLess));
    file := Some(assembled);
  }

  // ----- Reading a text back -----

  function EntryAt(file: Text, base: nat, k: nat): Entry
    requires base + 16 * k + 16 <= |file|
  {
    var at := base + 16 * k;
    Entry(WordAt(file, at), WordAt(file, at + 4), WordAt(file, at + 8), WordAt(file, at + 12))
  }

  lemma WordIsRead(before: Text, w: Word, after: Text)
    ensures WordAt(before + WordBytes(w) + after, |before|) == w
  {
    WordRoundTrip(w);
    var all := before + WordBytes(w) + after;
    assert forall i :: 0 <= i < 4 ==> all[|before| + i] == WordBytes(w)[i];
  }

  lemma EntryIsRead(before: Text, e: Entry, after: Text)
    ensures EntryAt(before + EntryBytes(e) + after, |before|, 0) == e
  {
    var all := before + EntryBytes(e) + after;
    var a, b, c, d := WordBytes(e.keyId), WordBytes(e.valueN), WordBytes(e.offset), WordBytes(e.length);
    assert all == before + a + (b + c + d + after);
    assert all == (before + a) + b + (c + d + after);
    assert all == (before + a + b) + c + (d + after);
    assert all == (before + a + b + c) + d + after;
    WordIsRead(before, e.keyId, b + c + d + after);
    WordIsRead(before + a, e.valueN, c + d + after);
    WordIsRead(before + a + b, e.offset, d + after);
    WordIsRead(before + a + b + c, e.length, after);
  }

  lemma EntryShift(file: Text, base: nat, k: nat)
    requires base + 16 * k + 16 <= |file|
    ensures EntryAt(file, base, k) == EntryAt(file, base + 16 * k, 0)
  {
  }

  lemma Regroup(a: Text, b: Text, c: Text, d: Text)
    ensures a + (b + c) + d == a + b + (c + d)
    ensures a + (b + c) + d == a + b + c + d
  {
  }

  lemma LastEntryIsRead(before: Text, front: Text, last: Entry, after: Text, k: nat)
    requires |front| == 16 * k
    ensures EntryAt(before + front + EntryBytes(last) + after, |before|, k) == last
  {
    EntryShift(before + front + EntryBytes(last) + after, |before|, k);
    EntryIsRead(before + front, last, after);
  }

  lemma {:induction false} IndexIsRead(before: Text, index: seq<Entry>, after: Text, k: nat)
    requires k < |index|
    ensures EntryAt(before + IndexBytes(index) + after, |before|, k) == index[k]
  {
    var front, last := index[..|index| - 1], index[|index| - 1];
    Regroup(before, IndexBytes(front), EntryBytes(last), after);
    if k < |front| {
      IndexIsRead(before, front, EntryBytes(last) + after, k);
    } else {
      LastEntryIsRead(before, IndexBytes(front), last, after, k);
    }
  }

  lemma TrailerIsRead(data: Text, index: seq<Entry>)
    requires |data| < WORD_SPACE
    ensures WordAt(Assembled(data, index), |Assembled(data, index)| - 4) == |data|
  {
    var before, w := data + IndexBytes(index), Wrapped(|data|);
    WordIsRead(before, w, []);
    assert Assembled(data, index) == before + WordBytes(w) + [];
  }

  lemma TextIsRead(data: Text, index: seq<Entry>, e: Entry)
    requires e.offset + e.length <= |data|
    ensures Assembled(data, index)[e.offset..e.offset + e.length] == data[e.offset..e.offset + e.length]
  {
    assert Assembled(data, index) == data + (IndexBytes(index) + WordBytes(Wrapped(|data|)));
  }

  /** All keys before lo are smaller, all from hi on greater. */
  ghost predicate IsNarrowed(index: seq<Entry>, key: Word, lo: nat, hi: nat) {
    && lo <= hi <= |index|
    && (forall i :: 0 <= i < lo ==> index[i].keyId < key)
    && (forall i :: hi <= i < |index| ==> index[i].keyId > key)
  }

  lemma Narrow(index: seq<Entry>, key: Word, lo: nat, hi: nat, mid: nat)
    requires Sorted(index, KeyLess) && IsNarrowed(index, key, lo, hi) && lo <= mid < hi
    ensures index[mid].keyId < key ==> IsNarrowed(index, key, mid + 1, hi)
    ensures index[mid].keyId > key ==> IsNarrowed(index, key, lo, mid)
  {
    forall i | 0 <= i < mid ensures index[i].keyId <= index[mid].keyId { assert !KeyLess(index[mid], index[i]); }
    forall i | mid < i < |index| ensures index[i].keyId >= index[mid].keyId { assert !KeyLess(index[i], index[mid]); }
  }

  /** A reader: the index starts where the last word says, and is searched by halving. */
  method Find(file: Text, key: Word, ghost data: Text, ghost index: seq<Entry>) returns (found: Option<Text>)
    requires file == Assembled(data, index) && |data| < WORD_SPACE && Sorted(index, KeyLess)
    requires forall e :: e in index ==> e.offset + e.length <= |data|
    ensures found.None? <==> forall e :: e in index ==> e.keyId != key
    ensures found.Some? ==> exists e :: e in index && e.keyId == key && Spells(data, e, found.value)
  {
    TrailerIsRead(data, index);
    var base: nat := WordAt(file, |file| - 4);
    var lo: nat, hi: nat := 0, (|file| - 4 - base) / 16;
    while lo < hi
      invariant IsNarrowed(index, key, lo, hi)
    {
      var mid := (lo + hi) / 2;
      IndexIsRead(data, index, WordBytes(Wrapped(|data|)), mid);
      var e := EntryAt(file, base, mid);
      assert e == index[mid] && e in index;
      Narrow(index, key, lo, hi, mid);
      if e.keyId == key {
        TextIsRead(data, index, e);
        return Some(file[e.offset..e.offset + e.length]);
      }
      if e.keyId < key {
        lo := mid + 1;
      } else {
        hi := mid;
      }
    }
    found := None;
  }

  /** For every catalog under 2^32 bytes, the reader finds a text exactly for the stored keys, and it is a
      text stored under that key hash; so each text whose key hash is its own is recovered. */
  method CompileAndFind(messages: seq<Message>, hash: Hash, key: Word) returns (file: Option<Text>, found: Option<Text>)
    requires |Data(Items(messages, hash))| < WORD_SPACE
    ensures var items := Items(messages, hash);
            && (file.None? <==> items == [])
            && (found.None? <==> forall item :: item in items ==> item.keyId != key)
            && (found.Some? ==> exists item :: item in items && item.keyId == key && item.text == found.value)
  {
    ghost var items := Items(messages, hash);
    ghost var entries := Entries(items);
    LayoutIsSound(items);
    file := Compile(messages, hash);
    if file.None? {
      return None, None;
    }
    KeyLessIsOrder();
    SortSorts(entries, KeyLess);
    ghost var index := StableSort(entries, KeyLess);
    forall e ensures e in index <==> e in entries { SortKeepsMembers(entries, KeyLess, e); }
    found := Find(file.value, key, Data(items), index);
    StoredAlike(items, Data(items), entries, index, key, found);
  }

  lemma KeyLessIsOrder()
    ensures IsOrder(KeyLess)
  {
  }

  lemma StoredAlike(items: seq<Item>, data: Text, entries: seq<Entry>, index: seq<Entry>, key: Word,
                    found: Option<Text>)
    requires IsLayout(items, data, entries) && forall e :: e in index <==> e in entries
    requires found.None? <==> forall e :: e in index ==> e.keyId != key
    requires found.Some? ==> exists e :: e in index && e.keyId == key && Spells(data, e, found.value)
    ensures found.None? <==> forall item :: item in items ==> item.keyId != key
    ensures found.Some? ==> exists item :: item in items && item.keyId == key && item.text == found.value
  {
    if found.Some? {
      var e :| e in index && e.keyId == key && Spells(data, e, found.value);
      var i :| 0 <= i < |entries| && entries[i] == e;
      assert items[i] in items && items[i].keyId == key && Spells(data, e, items[i].text);
    } else {
      forall item | item in items ensures item.keyId != key {
        var i :| 0 <= i < |items| && items[i] == item;
        assert entries[i] in entries;
      }
    }
  }

  // ----- Looking a text up by its key -----

  lemma {:induction false} MessageIsCompiled(messages: seq<Message>, m: Message, hash: Hash, item: Item)
    requires m in messages && item in ItemsOf(m, hash)
    ensures item in Items(messages, hash)
  {
    var front, last := messages[..|messages| - 1], messages[|messages| - 1];
    assert messages == front + [last];
    if m in front { MessageIsCompiled(front, m, hash, item); }
  }

  /** Every text stored under the key's hash is the same one. */
  ghost predicate IsUnambiguous(messages: seq<Message>, hash: Hash, key: Text, text: Text) {
    forall item :: item in Items(messages, hash) && item.keyId == hash(key) ==> item.text == text
  }

  lemma WrittenIsCompiled(messages: seq<Message>, m: Message, index: nat, hash: Hash)
    requires m in messages && m.id != [] && index < |m.values| && IsWritten(m, index, hash)
    ensures Item(hash(Key(m, index)), |m.values|, Value(m, index)) in Items(messages, hash)
  {
    var item := Item(hash(Key(m, index)), |m.values|, Value(m, index));
    WrittenTexts(m, |m.values|, hash, item);
    assert IsWrittenAs(m, index, hash, item);
    MessageIsCompiled(messages, m, hash, item);
  }

  /** With the hash of the program a reader that hashes a message's key gets its text back, unless the text
      is empty or hashes like its key, or a text stored under the same hash is another one. */
  method Translate(messages: seq<Message>, m: Message, index: nat) returns (found: Option<Text>)
    requires |Data(Items(messages, LuciHash))| < WORD_SPACE
    requires m in messages && m.id != [] && index < |m.values|
    ensures IsWritten(m, index, LuciHash) && IsUnambiguous(messages, LuciHash, Key(m, index), Value(m, index)) ==>
              found == Some(Value(m, index))
    ensures found.None? <==> forall item :: item in Items(messages, LuciHash) ==> item.keyId != LuciHash(Key(m, index))
  {
    var word := SuperFastHash.SfhHash(Key(m, index));
    var file;
    file, found := CompileAndFind(messages, LuciHash, word as int);
    if IsWritten(m, index, LuciHash) {
      WrittenIsCompiled(messages, m, index, LuciHash);
    }
  }
}
