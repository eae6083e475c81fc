/** How keys and the header of a translation catalog are laid out. */
module LmoTexts {
  import opened Wrappers
  import opened Octets
  import opened Lmo

  // ----- Keys -----

  /** The number a row of digits spells. */
  function NumberOf(digits: Text): int {
    if digits == [] then 0 else 10 * NumberOf(digits[..|digits| - 1]) + (digits[|digits| - 1] as int - 48)
  }

  lemma {:induction false} DigitsSpell(n: nat)
    ensures Digits(n) != [] && NumberOf(Digits(n)) == n
    ensures forall d :: d in Digits(n) ==> 48 <= d <= 57
    ensures n > 0 ==> Digits(n)[0] != 48
  {
    if n < 10 {
      assert [48 + n][..0] == [];
    } else {
      DigitsSpell(n / 10);
      assert (Digits(n / 10) + [48 + n % 10])[..|Digits(n / 10)|] == Digits(n / 10);
    }
  }

  /** A key is the message's ID, after its context and a byte 1 if it has one, and before a byte 2 and the index
      in decimal if it has a plural. */
  lemma KeyLayout(m: Message, index: nat) returns (digits: Text)
    ensures digits != [] && NumberOf(digits) == index && (index > 0 ==> digits[0] != 48)
    ensures forall d :: d in digits ==> 48 <= d <= 57
    ensures m.context == [] && m.plural == [] ==> Key(m, index) == m.id
    ensures m.context != [] && m.plural == [] ==> Key(m, index) == m.context + [1] + m.id
    ensures m.context == [] && m.plural != [] ==> Key(m, index) == m.id + [2] + digits
    ensures m.context != [] && m.plural != [] ==> Key(m, index) == m.context + [1] + m.id + [2] + digits
  {
    digits := Digits(index);
    DigitsSpell(index);
  }

  /** What precedes the first such byte, and what follows it. */
  function Cut(s: Text, b: Byte): (Text, Option<Text>) {
    if s == [] then ([], None)
    else if s[0] == b then ([], Some(s[1..]))
    else
      var (front, rest) := Cut(s[1..], b);
      ([s[0]] + front, rest)
  }

  lemma {:induction false} CutAt(front: Text, b: Byte, rest: Text)
    requires b !in front
    ensures Cut(front + [b] + rest, b) == (front, Some(rest))
  {
    var s := front + [b] + rest;
    if front == [] {
      assert s[0] == b && s[1..] == rest;
    } else {
      assert s[0] == front[0] && s[1..] == front[1..] + [b] + rest;
      CutAt(front[1..], b, rest);
      assert [front[0]] + front[1..] == front;
    }
  }

  lemma {:induction false} CutNowhere(s: Text, b: Byte)
    requires b !in s
    ensures Cut(s, b) == (s, None)
  {
    if s != [] {
      CutNowhere(s[1..], b);
      assert [s[0]] + s[1..] == s;
    }
  }

  /** Neither separator occurs in the context or the ID. */
  predicate IsPlain(m: Message) {
    1 !in m.context && 2 !in m.context && 1 !in m.id && 2 !in m.id
  }

  function AfterContext(m: Message, index: nat): Text {
    if m.plural == [] then m.id else m.id + [2] + Digits(index)
  }

  lemma PluralIsCut(m: Message, index: nat)
    requires IsPlain(m)
    ensures 1 !in AfterContext(m, index)
    ensures Cut(AfterContext(m, index), 2) == (m.id, if m.plural == [] then None else Some(Digits(index)))
  {
    DigitsSpell(index);
    if m.plural == [] { CutNowhere(m.id, 2); } else { CutAt(m.id, 2, Digits(index)); }
  }

  lemma ContextIsCut(m: Message, index: nat)
    requires IsPlain(m) && 1 !in AfterContext(m, index)
    ensures Cut(Key(m, index), 1) ==
              if m.context == [] then (AfterContext(m, index), None) else (m.context, Some(AfterContext(m, index)))
  {
    if m.context == [] {
      assert Key(m, index) == AfterContext(m, index);
      CutNowhere(AfterContext(m, index), 1);
    } else {
      assert Key(m, index) == m.context + [1] + AfterContext(m, index);
      CutAt(m.context, 1, AfterContext(m, index));
    }
  }

  /** Messages whose context and ID hold neither separator share a key only if they agree in both and in having
      a plural, and then only for the same index. */
  lemma KeysAreDistinct(m: Message, i: nat, n: Message, j: nat)
    requires IsPlain(m) && IsPlain(n) && Key(m, i) == Key(n, j)
    ensures m.context == n.context && m.id == n.id && (m.plural == [] <==> n.plural == [])
    ensures m.plural != [] ==> i == j
  {
    PluralIsCut(m, i);
    PluralIsCut(n, j);
    ContextIsCut(m, i);
    ContextIsCut(n, j);
    DigitsSpell(i);
    DigitsSpell(j);
  }

  // ----- The header -----

  /** Lines one under the other, each with its break. */
  function Lines(lines: seq<Text>): Text {
    if lines == [] then [] else lines[0] + [10] + Lines(lines[1..])
  }

  lemma {:induction false} LineIsFirst(line: Text, rest: Text)
    requires 10 !in line
    ensures Line(line) == (line, None)
    ensures Line(line + [10] + rest) == (line, Some(rest))
  {
    var s := line + [10] + rest;
    if line == [] {
      assert s[0] == 10 && s[1..] == rest;
    } else {
      assert s[0] == line[0] && s[1..] == line[1..] + [10] + rest;
      LineIsFirst(line[1..], rest);
      assert [line[0]] + line[1..] == line;
    }
  }

  lemma NextLine(line: Text, rest: Text)
    requires 10 !in line && !(PLURAL_FORMS <= line)
    ensures PluralFormula(line) == [] && PluralFormula(line + [10] + rest) == PluralFormula(rest)
  {
    LineIsFirst(line, rest);
  }

  lemma FormulaLine(formula: Text, rest: Text)
    requires 10 !in formula
    ensures PluralFormula(PLURAL_FORMS + formula) == formula
    ensures PluralFormula(PLURAL_FORMS + formula + [10] + rest) == formula
  {
    LineIsFirst(PLURAL_FORMS + formula, rest);
    assert (PLURAL_FORMS + formula)[|PLURAL_FORMS|..] == formula;
  }

  /** Lines that start otherwise are passed over. */
  lemma {:induction false} LinesArePassed(before: seq<Text>, rest: Text)
    requires forall line :: line in before ==> 10 !in line && !(PLURAL_FORMS <= line)
    ensures PluralFormula(Lines(before) + rest) == PluralFormula(rest)
  {
    if before == [] {
      assert Lines(before) + rest == rest;
    } else {
      var first, others := before[0], before[1..];
      assert first in before && forall line :: line in others ==> line in before;
      LinesArePassed(others, rest);
      NextLine(first, Lines(others) + rest);
      assert Lines(before) + rest == first + [10] + (Lines(others) + rest);
    }
  }

  /** The plural formula is what follows "Plural-Forms: " on the first line that starts so; without such a line
      there is none. */
  lemma FormulaIsFound(before: seq<Text>, formula: Text, last: Text, rest: Text)
    requires forall line :: line in before || line == last ==> 10 !in line && !(PLURAL_FORMS <= line)
    requires 10 !in formula
    ensures PluralFormula(Lines(before) + (PLURAL_FORMS + formula)) == formula
    ensures PluralFormula(Lines(before) + (PLURAL_FORMS + formula + [10] + rest)) == formula
    ensures PluralFormula(Lines(before) + last) == []
  {
    LinesArePassed(before, PLURAL_FORMS + formula);
    LinesArePassed(before, PLURAL_FORMS + formula + [10] + rest);
    LinesArePassed(before, last);
    FormulaLine(formula, rest);
    NextLine(last, []);
  }
}
