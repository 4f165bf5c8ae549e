/** JSON texts by the grammar of RFC 8259 (sections 2 to 7), as trees that spell out every character. */
module JsonText {
  import opened Text

  /** One character of a string as written: itself, or a backslash and the character after it. The four hexadecimal
      digits after \u are written as themselves. */
  datatype Unit = Plain(c: char) | Escape(e: char)

  /** The pieces a text is written in. */
  datatype Token = Word(w: string) | Str(units: seq<Unit>) | Mark(c: char)

  // ----- spelling -----

  function SpellUnit(u: Unit): string {
    match u
    case Plain(c) => [c]
    case Escape(e) => ['\\', e]
  }

  function SpellUnits(units: seq<Unit>): string {
    if units == [] then "" else SpellUnit(units[0]) + SpellUnits(units[1..])
  }

  function Spell(t: Token): string {
    match t
    case Word(w) => w
    case Str(units) => "\"" + (SpellUnits(units) + "\"")
    case Mark(c) => [c]
  }

  function SpellAll(ts: seq<Token>): string {
    if ts == [] then "" else Spell(ts[0]) + SpellAll(ts[1..])
  }

  // ----- the grammar -----

  predicate Digits(s: string) {
    s != "" && forall i :: 0 <= i < |s| ==> IsDigit(s[i])
  }

  predicate Space(c: char) { c == ' ' || c == '\t' || c == '\n' || c == '\r' }

  predicate Spaces(s: string) {
    forall i :: 0 <= i < |s| ==> Space(s[i])
  }

  /** Section 7: anything but quotation mark, backslash and control characters, or an escape. */
  predicate UnitOk(u: Unit) {
    match u
    case Plain(c) => c != '"' && c != '\\' && c >= ' '
    case Escape(e) => e in "\"\\/bfnrtu"
  }

  predicate UnitsOk(units: seq<Unit>) {
    forall i :: 0 <= i < |units| ==> UnitOk(units[i])
  }

  /** An escaped u is followed by four hexadecimal digits. */
  predicate Hex(u: Unit) {
    u.Plain? && ('0' <= u.c <= '9' || 'a' <= u.c <= 'f' || 'A' <= u.c <= 'F')
  }

  predicate StringOk(units: seq<Unit>) {
    && UnitsOk(units)
    && forall i :: 0 <= i < |units| && units[i] == Escape('u') ==>
         i + 4 < |units| && Hex(units[i + 1]) && Hex(units[i + 2]) && Hex(units[i + 3]) && Hex(units[i + 4])
  }

  /** Section 6: a part after the point, and a power of ten with or without a sign. */
  datatype Exponent = Exponent(letter: char, sign: Option<char>, digits: string)

  datatype Json =
    | Literal(word: string)
    | Number(negative: bool, whole: string, fraction: Option<string>, exponent: Option<Exponent>)
    | Letters(units: seq<Unit>)
    | Container(isObject: bool, entries: Entries, last: string)

  /** An entry of an array or a member of an object, with the white space the grammar allows around it. */
  datatype Name = Name(units: seq<Unit>, before: string, after: string)

  datatype Entries = Nil | Cons(lead: string, name: Option<Name>, value: Json, trail: string, rest: Entries)

  predicate ExponentOk(e: Exponent) {
    (e.letter == 'e' || e.letter == 'E') && (e.sign.Some? ==>
                                               e.sign.value == '+' || e.sign.value == '-') && Digits(e.digits)
  }

  predicate JsonOk(v: Json) {
    match v
    case Literal(w) => w == "true" || w == "false" || w == "null"
    case Number(_, whole, fraction, exponent) =>
      && Digits(whole) && (|whole| > 1 ==> whole[0] != '0')
      && (fraction.Some? ==> Digits(fraction.value)) && (exponent.Some? ==> ExponentOk(exponent.value))
    case Letters(units) => StringOk(units)
    case Container(isObject, entries, last) => EntriesOk(entries, isObject) && Spaces(last)
  }

  predicate EntriesOk(es: Entries, isObject: bool) {
    match es
    case Nil => true
    case Cons(lead, name, value, trail, rest) =>
      && Spaces(lead) && Spaces(trail) && name.Some? == isObject
      && (name.Some? ==> StringOk(name.value.units) && Spaces(name.value.before) && Spaces(name.value.after))
      && JsonOk(value) && EntriesOk(rest, isObject)
  }

  // ----- how it is written -----

  function Marks(s: string): seq<Token> {
    seq(|s|, i requires 0 <= i < |s| => Mark(s[i]))
  }

  /** The exponent's letter belongs to the word before it, and so do its digits when it has no sign. */
  function ExponentWord(exponent: Option<Exponent>): string {
    match exponent
    case None => ""
    case Some(e) => if e.sign.None? then [e.letter] + e.digits else [e.letter]
  }

  function ExponentTail(exponent: Option<Exponent>): seq<Token> {
    if exponent.Some? && exponent.value.sign.Some? then [Mark(exponent.value.sign.value), Word(exponent.value.digits)] else []
  }

  function NumberTokens(whole: string, fraction: Option<string>, exponent: Option<Exponent>): seq<Token> {
    match fraction
    case None => [Word(whole + ExponentWord(exponent))] + ExponentTail(exponent)
    case Some(f) => [Word(whole), Mark('.'), Word(f + ExponentWord(exponent))] + ExponentTail(exponent)
  }

  function Tokens(v: Json): seq<Token> {
    match v
    case Literal(w) => [Word(w)]
    case Number(negative, whole, fraction, exponent) => (if negative then [Mark('-')] else []) + NumberTokens(whole, fraction, exponent)
    case Letters(units) => [Str(units)]
    case Container(isObject, entries, last) =>
      [Mark(if isObject then '{' else '[')] + (EntryTokens(entries, true) + Marks(last)) + [Mark(if isObject then '}' else ']')]
  }

  function NameTokens(name: Option<Name>): seq<Token> {
    match name
    case None => []
    case Some(n) => [Str(n.units)] + Marks(n.before) + [Mark(':')] + Marks(n.after)
  }

  function EntryTokens(es: Entries, first: bool): seq<Token> {
    match es
    case Nil => []
    case Cons(lead, name, value, trail, rest) =>
      (if first then [] else [Mark(',')]) + Marks(lead) + NameTokens(name) + Tokens(value) + Marks(trail) + EntryTokens(rest, false)
  }

  function Write(v: Json): string {
    SpellAll(Tokens(v))
  }
}
