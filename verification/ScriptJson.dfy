/** The scanner over JSON: an object or array at the top level is cut out whole, and nothing in it is taken for a
    comment or a regular expression. */
module ScriptJson {
  import opened Text
  import opened JsonText
  import opened ScriptLexer

  // ----- tokens the scanner takes in stride -----

  predicate MarkOk(c: char) {
    Space(c) || Opens(c) || Closes(c) || c == ':' || c == ',' || c == '.' || c == '+' || c == '-'
  }

  predicate TokenOk(t: Token) {
    match t
    case Word(w) => w != "" && forall i :: 0 <= i < |w| ==> WordByte(w[i])
    case Str(units) => UnitsOk(units)
    case Mark(c) => MarkOk(c)
  }

  /** A mark that joins to anything. */
  predicate Loose(t: Token) {
    t.Mark? && t.c != '+' && t.c != '-'
  }

  /** Two words would read as one, and a doubled sign as an increment. */
  predicate Seam(a: Token, b: Token) {
    !(a.Word? && b.Word?) && !(a.Mark? && a == b && !Loose(a))
  }

  predicate Sound(ts: seq<Token>) {
    (forall i :: 0 <= i < |ts| ==> TokenOk(ts[i])) && forall i :: 0 <= i < |ts| - 1 ==> Seam(ts[i], ts[i + 1])
  }

  function Rise(t: Token): int {
    if t.Mark? && Opens(t.c) then 1 else if t.Mark? && Closes(t.c) then -1 else 0
  }

  function Delta(ts: seq<Token>): int {
    if ts == [] then 0 else Delta(ts[..|ts| - 1]) + Rise(ts[|ts| - 1])
  }

  /** Brackets balance, and none closes what it did not open. */
  ghost predicate Neutral(ts: seq<Token>) {
    Delta(ts) == 0 && forall k :: 0 <= k <= |ts| ==> Delta(ts[..k]) >= 0
  }

  lemma {:induction false} DeltaJoin(a: seq<Token>, b: seq<Token>)
    ensures Delta(a + b) == Delta(a) + Delta(b)
  {
    if b == [] {
      assert a + b == a;
    } else {
      assert (a + b)[..|a + b| - 1] == a + b[..|b| - 1];
      DeltaJoin(a, b[..|b| - 1]);
    }
  }

  lemma NeutralJoin(a: seq<Token>, b: seq<Token>)
    requires Neutral(a) && Neutral(b)
    ensures Neutral(a + b)
  {
    DeltaJoin(a, b);
    forall k | 0 <= k <= |a + b|
      ensures Delta((a + b)[..k]) >= 0
    {
      if k <= |a| {
        assert (a + b)[..k] == a[..k];
      } else {
        assert (a + b)[..k] == a + b[..k - |a|];
        DeltaJoin(a, b[..k - |a|]);
      }
    }
  }

  /** Inside its brackets a neutral text stays at least one deep. */
  lemma Enclosed(open: Token, inner: seq<Token>, close: Token, k: nat)
    requires Rise(open) == 1 && Rise(close) == -1 && Neutral(inner) && k <= |inner|
    ensures Delta(([open] + inner)[..k + 1]) == 1 + Delta(inner[..k]) >= 1
    ensures Delta([open] + inner + [close]) == 0
  {
    assert ([open] + inner)[..k + 1] == [open] + inner[..k];
    DeltaJoin([open], inner[..k]);
    DeltaJoin([open] + inner, [close]);
    DeltaJoin([open], inner);
    assert Delta([open]) == Delta([]) + 1 && Delta([close]) == Delta([]) - 1;
  }

  lemma NeutralWrap(open: Token, inner: seq<Token>, close: Token)
    requires Rise(open) == 1 && Rise(close) == -1 && Neutral(inner)
    ensures Neutral([open] + inner + [close])
  {
    var all := [open] + inner + [close];
    forall k | 0 <= k <= |all|
      ensures Delta(all[..k]) >= 0
    {
      Enclosed(open, inner, close, if 0 < k <= |inner| + 1 then k - 1 else 0);
      if k == |all| {
        assert all[..k] == all;
      } else if k > 0 {
        assert all[..k] == ([open] + inner)[..k];
      }
    }
    Enclosed(open, inner, close, 0);
  }

  lemma {:induction false} FlatNeutral(ts: seq<Token>)
    requires forall i :: 0 <= i < |ts| ==> Rise(ts[i]) == 0
    ensures Neutral(ts)
  {
    if ts != [] {
      var init := ts[..|ts| - 1];
      FlatNeutral(init);
      forall k | 0 <= k <= |ts|
        ensures Delta(ts[..k]) >= 0
      {
        assert k < |ts| ==> ts[..k] == init[..k];
        assert k == |ts| ==> ts[..k] == ts;
      }
    }
  }

  // ----- joining -----

  predicate EndsLoose(ts: seq<Token>) {
    ts == [] || Loose(ts[|ts| - 1])
  }

  predicate StartsLoose(ts: seq<Token>) {
    ts == [] || Loose(ts[0])
  }

  /** Sound and balanced. */
  ghost predicate Good(ts: seq<Token>) {
    Sound(ts) && Neutral(ts)
  }

  lemma GoodJoin(a: seq<Token>, b: seq<Token>)
    requires Good(a) && Good(b) && (EndsLoose(a) || StartsLoose(b))
    ensures Good(a + b)
    ensures EndsLoose(b) && (b != [] || EndsLoose(a)) ==> EndsLoose(a + b)
    ensures StartsLoose(a) && (a != [] || StartsLoose(b)) ==> StartsLoose(a + b)
  {
    NeutralJoin(a, b);
    forall i | 0 <= i < |a + b| - 1
      ensures Seam((a + b)[i], (a + b)[i + 1])
    {
      if i == |a| - 1 {
        assert (a + b)[i] == a[|a| - 1] && (a + b)[i + 1] == b[0];
      }
    }
  }

  lemma SpacesGood(s: string)
    requires Spaces(s)
    ensures Good(Marks(s)) && EndsLoose(Marks(s)) && StartsLoose(Marks(s))
  {
    FlatNeutral(Marks(s));
  }

  lemma OneGood(t: Token)
    requires TokenOk(t) && Rise(t) == 0
    ensures Good([t])
  {
    FlatNeutral([t]);
  }

  // ----- JSON is written in such tokens -----

  lemma DigitsWord(s: string, t: string)
    requires Digits(s) && forall i :: 0 <= i < |t| ==> WordByte(t[i])
    ensures TokenOk(Word(s + t)) && TokenOk(Word(s))
  {
  }

  lemma ExponentGood(exponent: Option<Exponent>)
    requires exponent.Some? ==> ExponentOk(exponent.value)
    ensures forall i :: 0 <= i < |ExponentWord(exponent)| ==> WordByte(ExponentWord(exponent)[i])
    ensures var tail := ExponentTail(exponent);
            tail == [] || (|tail| == 2 && tail[0].Mark? && (tail[0].c == '+' || tail[0].c == '-') && tail[1].Word? && TokenOk(tail[1]))
  {
  }

  /** A word and what may follow it in a number. */
  lemma WordAndTail(w: string, tail: seq<Token>)
    requires TokenOk(Word(w))
    requires tail == [] || (|tail| == 2 && tail[0].Mark? && (tail[0].c == '+' || tail[0].c == '-') && tail[1].Word? && TokenOk(tail[1]))
    ensures Good([Word(w)] + tail)
  {
    FlatNeutral([Word(w)] + tail);
  }

  lemma NumberGood(whole: string, fraction: Option<string>, exponent: Option<Exponent>)
    requires Digits(whole) && (fraction.Some? ==> Digits(fraction.value))
    requires (exponent.Some? ==> ExponentOk(exponent.value))
    ensures Good(NumberTokens(whole, fraction, exponent)) && NumberTokens(whole, fraction, exponent)[0].Word?
  {
    ExponentGood(exponent);
    DigitsWord(whole, ExponentWord(exponent));
    match fraction
    case None => WordAndTail(whole + ExponentWord(exponent), ExponentTail(exponent));
    case Some(f) =>
      DigitsWord(f, ExponentWord(exponent));
      var last := [Word(f + ExponentWord(exponent))] + ExponentTail(exponent);
      WordAndTail(f + ExponentWord(exponent), ExponentTail(exponent));
      OneGood(Word(whole));
      OneGood(Mark('.'));
      GoodJoin([Word(whole)], [Mark('.')]);
      GoodJoin([Word(whole)] + [Mark('.')], last);
      assert NumberTokens(whole, fraction, exponent) == [Word(whole)] + [Mark('.')] + last;
  }

  lemma SignedGood(negative: bool, number: seq<Token>)
    requires Good(number) && number != [] && number[0].Word?
    ensures Good((if negative then [Mark('-')] else []) + number)
  {
    var sign := if negative then [Mark('-')] else [];
    FlatNeutral(sign);
    NeutralJoin(sign, number);
  }

  lemma NameGood(name: Option<Name>)
    requires name.Some? ==> StringOk(name.value.units) && Spaces(name.value.before) && Spaces(name.value.after)
    ensures Good(NameTokens(name)) && EndsLoose(NameTokens(name))
  {
    if name.Some? {
      var n := name.value;
      var str, colon := [Str(n.units)], [Mark(':')];
      OneGood(Str(n.units));
      OneGood(Mark(':'));
      SpacesGood(n.before);
      SpacesGood(n.after);
      GoodJoin(str, Marks(n.before));
      GoodJoin(str + Marks(n.before), colon);
      GoodJoin(str + Marks(n.before) + colon, Marks(n.after));
    } else {
      FlatNeutral([]);
    }
  }

  lemma {:induction false} JsonGood(v: Json)
    requires JsonOk(v)
    ensures Good(Tokens(v))
    decreases v
  {
    match v
    case Literal(w) => OneGood(Word(w));
    case Number(negative, whole, fraction, exponent) =>
      NumberGood(whole, fraction, exponent);
      SignedGood(negative, NumberTokens(whole, fraction, exponent));
    case Letters(units) => OneGood(Str(units));
    case Container(isObject, entries, last) =>
      ContainerGood(isObject, entries, last);
  }

  lemma {:induction false} InnerGood(isObject: bool, entries: Entries, last: string)
    requires EntriesOk(entries, isObject) && Spaces(last)
    ensures Good(EntryTokens(entries, true) + Marks(last))
    decreases entries, 1
  {
    EntriesGood(entries, isObject, true);
    SpacesGood(last);
    GoodJoin(EntryTokens(entries, true), Marks(last));
  }

  lemma {:induction false} ContainerGood(isObject: bool, entries: Entries, last: string)
    requires EntriesOk(entries, isObject) && Spaces(last)
    ensures Good(Tokens(Container(isObject, entries, last)))
    decreases entries, 2
  {
    var open, close := Mark(if isObject then '{' else '['), Mark(if isObject then '}' else ']');
    var inner := EntryTokens(entries, true) + Marks(last);
    InnerGood(isObject, entries, last);
    NeutralWrap(open, inner, close);
    WrapSound(open, inner, close);
  }

  lemma WrapSound(open: Token, inner: seq<Token>, close: Token)
    requires Sound(inner) && Loose(open) && Loose(close) && TokenOk(open) && TokenOk(close)
    ensures Sound([open] + inner + [close])
  {
    var all := [open] + inner + [close];
    forall i | 0 <= i < |all| - 1
      ensures Seam(all[i], all[i + 1])
    {
      if 0 < i < |inner| {
        assert all[i] == inner[i - 1] && all[i + 1] == inner[i];
      }
    }
  }

  lemma {:induction false} EntriesGood(es: Entries, isObject: bool, first: bool)
    requires EntriesOk(es, isObject)
    ensures Good(EntryTokens(es, first)) && (!first ==> StartsLoose(EntryTokens(es, first)))
    decreases es, 0
  {
    match es
    case Nil => FlatNeutral([]);
    case Cons(lead, name, value, trail, rest) =>
      var comma := if first then [] else [Mark(',')];
      var a := comma + Marks(lead);
      var b := a + NameTokens(name);
      var c := b + Tokens(value);
      var d := c + Marks(trail);
      FlatNeutral(comma);
      SpacesGood(lead);
      SpacesGood(trail);
      NameGood(name);
      JsonGood(value);
      EntriesGood(rest, isObject, false);
      GoodJoin(comma, Marks(lead));
      GoodJoin(a, NameTokens(name));
      GoodJoin(b, Tokens(value));
      GoodJoin(c, Marks(trail));
      GoodJoin(d, EntryTokens(rest, false));
  }

  // ----- scanning tokens -----

  /** Neither in a comment nor in a regular expression. */
  predicate Calm(m: Mode) {
    m == Code || m.Quoted?
  }

  /** A place in the script and the state there. */
  datatype Point = Point(at: nat, state: Lexer)

  predicate StepTo(script: string, a: Point, b: Point) {
    a.at < |script| && Step(script, a.at, a.state) == Next(b.at, b.state) && Calm(b.state.mode)
  }

  predicate IsPath(script: string, path: seq<Point>) {
    path != [] && forall k :: 0 <= k < |path| - 1 ==> StepTo(script, path[k], path[k + 1])
  }

  /** The scanner goes from i to j, and from s to t, without entering a comment or a regular expression. */
  ghost predicate Through(script: string, i: nat, s: Lexer, j: nat, t: Lexer) {
    exists path :: IsPath(script, path) && path[0] == Point(i, s) && path[|path| - 1] == Point(j, t)
  }

  lemma OneStep(script: string, i: nat, s: Lexer, j: nat, t: Lexer)
    requires i < |script| && Step(script, i, s) == Next(j, t) && Calm(t.mode)
    ensures Through(script, i, s, j, t)
  {
    var path := [Point(i, s), Point(j, t)];
    assert StepTo(script, path[0], path[1]);
    assert IsPath(script, path);
  }

  lemma NoStep(script: string, i: nat, s: Lexer, end: nat)
    requires end == i
    ensures Through(script, i, s, end, s)
  {
    assert IsPath(script, [Point(i, s)]);
  }

  lemma ThroughJoin(script: string, i: nat, s: Lexer, j: nat, t: Lexer, k: nat, u: Lexer)
    requires Through(script, i, s, j, t) && Through(script, j, t, k, u)
    ensures Through(script, i, s, k, u)
  {
    var a :| IsPath(script, a) && a[0] == Point(i, s) && a[|a| - 1] == Point(j, t);
    var b :| IsPath(script, b) && b[0] == Point(j, t) && b[|b| - 1] == Point(k, u);
    var path := a + b[1..];
    forall m | 0 <= m < |path| - 1
      ensures StepTo(script, path[m], path[m + 1])
    {
      if m < |a| - 1 {
        assert StepTo(script, a[m], a[m + 1]);
      } else {
        assert StepTo(script, b[m - (|a| - 1)], b[m - (|a| - 1) + 1]);
      }
    }
    assert path[|path| - 1] == Point(k, u);
  }

  lemma {:induction false} PathScan(script: string, path: seq<Point>)
    requires IsPath(script, path) && path[0].at <= |script|
    ensures path[0].at <= path[|path| - 1].at <= |script|
    ensures Scan(script, path[0].at, path[0].state) == Scan(script, path[|path| - 1].at, path[|path| - 1].state)
    decreases |path|
  {
    if |path| > 1 {
      assert StepTo(script, path[0], path[1]);
      PathScan(script, path[1..]);
    }
  }

  lemma ThroughScan(script: string, i: nat, s: Lexer, j: nat, t: Lexer)
    requires i <= |script| && Through(script, i, s, j, t)
    ensures i <= j <= |script| && Scan(script, i, s) == Scan(script, j, t)
  {
    var path :| IsPath(script, path) && path[0] == Point(i, s) && path[|path| - 1] == Point(j, t);
    PathScan(script, path);
  }

  predicate Placed(script: string, i: nat, text: string) {
    i + |text| <= |script| && script[i..i + |text|] == text
  }

  lemma PlacedSplit(script: string, i: nat, a: string, b: string)
    requires Placed(script, i, a + b)
    ensures Placed(script, i, a) && Placed(script, i + |a|, b)
  {
    assert script[i..i + |a|] == (a + b)[..|a|];
    assert script[i + |a|..i + |a + b|] == (a + b)[|a|..];
  }

  /** Inside a bracket only the depth, the operand and the member flags of the state move. */
  predicate Inside(s: Lexer, t: Lexer, rise: int) {
    t.mode == Code && t.depth == s.depth + rise && t.start == s.start && t.slices == s.slices && t.youtube == s.youtube
  }

  lemma {:induction false} WordEndIs(script: string, i: nat, j: nat)
    requires i <= j <= |script| && (forall k :: i <= k < j ==> WordByte(script[k]))
    requires (j < |script| ==> !WordByte(script[j]))
    ensures WordEnd(script, i) == j
    decreases j - i
  {
    if i < j {
      WordEndIs(script, i + 1, j);
    }
  }

  lemma WordThrough(script: string, i: nat, s: Lexer, w: string, end: nat) returns (t: Lexer)
    requires TokenOk(Word(w)) && Placed(script, i, w) && end == i + |w| < |script| && !WordByte(script[end])
    requires s.mode == Code && s.depth >= 1
    ensures Through(script, i, s, end, t) && Inside(s, t, 0)
  {
    assert forall k :: i <= k < end ==> script[k] == w[k - i];
    WordEndIs(script, i, end);
    t := Step(script, i, s).state;
    OneStep(script, i, s, end, t);
  }

  lemma MarkThrough(script: string, i: nat, s: Lexer, end: nat) returns (t: Lexer)
    requires end == i + 1 < |script| && MarkOk(script[i]) && s.mode == Code && s.depth >= 1
    requires s.depth + Rise(Mark(script[i])) >= 1 && (script[i] == '+' || script[i] == '-' ==> script[end] != script[i])
    ensures Through(script, i, s, end, t) && Inside(s, t, Rise(Mark(script[i])))
  {
    t := Step(script, i, s).state;
    OneStep(script, i, s, end, t);
  }

  // ----- strings -----

  lemma UnitThrough(script: string, i: nat, s: Lexer, u: Unit)
    requires UnitOk(u) && Placed(script, i, SpellUnit(u)) && s.mode == Quoted('"', false)
    ensures Through(script, i, s, i + |SpellUnit(u)|, s)
  {
    assert script[i] == SpellUnit(u)[0];
    if u.Escape? {
      assert script[i + 1] == SpellUnit(u)[1];
      var t := s.(mode := Quoted('"', true));
      OneStep(script, i, s, i + 1, t);
      OneStep(script, i + 1, t, i + 2, s);
      ThroughJoin(script, i, s, i + 1, t, i + 2, s);
    } else {
      OneStep(script, i, s, i + 1, s);
    }
  }

  lemma {:induction false} UnitsThrough(script: string, i: nat, s: Lexer, units: seq<Unit>, end: nat)
    requires UnitsOk(units) && Placed(script, i, SpellUnits(units))
    requires s.mode == Quoted('"', false) && end == i + |SpellUnits(units)|
    ensures Through(script, i, s, end, s)
    decreases |units|
  {
    if units == [] {
      NoStep(script, i, s, end);
    } else {
      var first := SpellUnit(units[0]);
      PlacedSplit(script, i, first, SpellUnits(units[1..]));
      UnitThrough(script, i, s, units[0]);
      UnitsThrough(script, i + |first|, s, units[1..], end);
      ThroughJoin(script, i, s, i + |first|, s, end, s);
    }
  }

  lemma OpenQuote(script: string, i: nat, s: Lexer) returns (q: Lexer)
    requires i < |script| && script[i] == '"' && s.mode == Code && s.depth >= 1
    ensures Through(script, i, s, i + 1, q) && q.mode == Quoted('"', false) && Inside(s, q.(mode := Code), 0)
  {
    q := Step(script, i, s).state;
    OneStep(script, i, s, i + 1, q);
  }

  lemma CloseQuote(script: string, j: nat, q: Lexer, end: nat)
    requires j < |script| && script[j] == '"' && q.mode == Quoted('"', false) && end == j + 1
    ensures Through(script, j, q, end, q.(mode := Code))
  {
    OneStep(script, j, q, end, q.(mode := Code));
  }

  lemma StrThrough(script: string, i: nat, s: Lexer, units: seq<Unit>, end: nat) returns (t: Lexer)
    requires UnitsOk(units) && Placed(script, i, Spell(Str(units))) && s.mode == Code && s.depth >= 1
    requires end == i + |Spell(Str(units))|
    ensures Through(script, i, s, end, t) && Inside(s, t, 0)
  {
    var body := SpellUnits(units);
    var j := end - 1;
    PlacedSplit(script, i, "\"", body + "\"");
    PlacedSplit(script, i + 1, body, "\"");
    assert script[i..i + 1][0] == '"' && script[j..j + 1][0] == '"';
    var q := OpenQuote(script, i, s);
    UnitsThrough(script, i + 1, q, units, j);
    CloseQuote(script, j, q, end);
    t := q.(mode := Code);
    ThroughJoin(script, i + 1, q, j, q, end, t);
    ThroughJoin(script, i, s, i + 1, q, end, t);
  }

  // ----- runs of tokens -----

  /** What follows does not run into the token. */
  predicate EndsAt(t: Token, next: char) {
    (t.Word? ==> !WordByte(next)) && (t.Mark? && !Loose(t) ==> next != t.c)
  }

  lemma TokenThrough(script: string, i: nat, s: Lexer, t: Token, end: nat) returns (u: Lexer)
    requires TokenOk(t) && Placed(script, i, Spell(t)) && end == i + |Spell(t)| < |script| && EndsAt(t, script[end])
    requires s.mode == Code && s.depth >= 1 && s.depth + Rise(t) >= 1
    ensures Through(script, i, s, end, u) && Inside(s, u, Rise(t))
  {
    match t
    case Word(w) => u := WordThrough(script, i, s, w, end);
    case Str(units) => u := StrThrough(script, i, s, units, end);
    case Mark(c) =>
      assert script[i..i + 1][0] == c;
      u := MarkThrough(script, i, s, end);
  }

  lemma SeamEnds(t: Token, next: Token)
    requires TokenOk(t) && TokenOk(next) && Seam(t, next)
    ensures Spell(next) != "" && EndsAt(t, Spell(next)[0])
  {
  }

  lemma DeltaFirst(ts: seq<Token>, k: nat)
    requires ts != [] && k < |ts|
    ensures Delta(ts[..k + 1]) == Rise(ts[0]) + Delta(ts[1..][..k])
  {
    assert ts[..k + 1] == [ts[0]] + ts[1..][..k];
    DeltaJoin([ts[0]], ts[1..][..k]);
    assert Delta([ts[0]]) == Delta([]) + Rise(ts[0]);
  }

  /** Read from depth d, the tokens never close the bracket around them. */
  ghost predicate Deep(ts: seq<Token>, d: int)
    decreases |ts|
  {
    d >= 1 && (ts != [] ==> Deep(ts[1..], d + Rise(ts[0])))
  }

  function DepthAfter(ts: seq<Token>, d: int): int
    decreases |ts|
  {
    if ts == [] then d else DepthAfter(ts[1..], d + Rise(ts[0]))
  }

  lemma DeepRest(ts: seq<Token>, d: int, e: int)
    requires Deep(ts, d) && ts != [] && e == d + Rise(ts[0])
    ensures Deep(ts[1..], e) && DepthAfter(ts, d) == DepthAfter(ts[1..], e)
  {
  }

  lemma DeepHere(ts: seq<Token>, d: int)
    requires Deep(ts, d)
    ensures d >= 1 && (ts != [] ==> d + Rise(ts[0]) >= 1)
  {
  }

  lemma {:induction false} PrefixesDeep(ts: seq<Token>, d: int)
    requires forall k :: 0 <= k <= |ts| ==> d + Delta(ts[..k]) >= 1
    ensures Deep(ts, d) && DepthAfter(ts, d) == d + Delta(ts)
    decreases |ts|
  {
    assert ts[..0] == [] && ts[..|ts|] == ts;
    if ts != [] {
      var rest := ts[1..];
      forall k | 0 <= k <= |rest|
        ensures Delta(ts[..k + 1]) == Rise(ts[0]) + Delta(rest[..k]) && d + Rise(ts[0]) + Delta(rest[..k]) >= 1
      {
        DeltaFirst(ts, k);
      }
      PrefixesDeep(rest, d + Rise(ts[0]));
      assert rest[..|rest|] == rest && ts[..|rest| + 1] == ts;
    }
  }

  lemma NeutralDeep(ts: seq<Token>)
    requires Neutral(ts)
    ensures Deep(ts, 1) && DepthAfter(ts, 1) == 1
  {
    PrefixesDeep(ts, 1);
  }

  /** From inside a bracket, tokens that never close it are read one by one. */
  lemma {:induction false} TokensThrough(script: string, i: nat, s: Lexer, ts: seq<Token>, end: nat) returns (u: Lexer)
    requires Sound(ts) && Placed(script, i, SpellAll(ts)) && end == i + |SpellAll(ts)| < |script| && Closes(script[end])
    requires s.mode == Code && Deep(ts, s.depth)
    ensures Through(script, i, s, end, u) && Inside(s, u, DepthAfter(ts, s.depth) - s.depth)
    decreases |ts|
  {
    if ts == [] {
      NoStep(script, i, s, end);
      u := s;
    } else {
      var t, rest := ts[0], ts[1..];
      var j := i + |Spell(t)|;
      FirstToken(script, i, ts, j, end);
      DeepHere(ts, s.depth);
      var m := TokenThrough(script, i, s, t, j);
      DeepRest(ts, s.depth, m.depth);
      u := TokensThrough(script, j, m, rest, end);
      InsideOn(s, m, u, Rise(t), DepthAfter(rest, m.depth) - m.depth, DepthAfter(ts, s.depth) - s.depth);
      ThroughJoin(script, i, s, j, m, end, u);
    }
  }

  lemma InsideOn(s: Lexer, m: Lexer, u: Lexer, a: int, b: int, c: int)
    requires Inside(s, m, a) && Inside(m, u, b) && c == a + b
    ensures Inside(s, u, c)
  {
  }

  lemma FirstToken(script: string, i: nat, ts: seq<Token>, j: nat, end: nat)
    requires ts != [] && Sound(ts) && Placed(script, i, SpellAll(ts)) && end == i + |SpellAll(ts)| < |script|
    requires Closes(script[end])
    requires j == i + |Spell(ts[0])|
    ensures TokenOk(ts[0]) && Placed(script, i, Spell(ts[0])) && j < |script| && EndsAt(ts[0], script[j])
    ensures Sound(ts[1..]) && Placed(script, j, SpellAll(ts[1..])) && end == j + |SpellAll(ts[1..])|
  {
    PlacedRest(script, i, SpellAll(ts), Spell(ts[0]), SpellAll(ts[1..]), j, end);
    SoundRest(ts);
    FollowsToken(script, j, ts[0], ts[1..], end);
  }

  lemma PlacedRest(script: string, i: nat, text: string, a: string, b: string, j: nat, end: nat)
    requires Placed(script, i, text) && text == a + b && j == i + |a| && end == i + |text|
    ensures Placed(script, i, a) && Placed(script, j, b) && end == j + |b|
  {
    PlacedSplit(script, i, a, b);
  }

  lemma SoundRest(ts: seq<Token>)
    requires Sound(ts) && ts != []
    ensures TokenOk(ts[0]) && Sound(ts[1..]) && (|ts| > 1 ==> TokenOk(ts[1..][0]) && Seam(ts[0], ts[1..][0]))
  {
    var rest := ts[1..];
    forall k | 0 <= k < |rest|
      ensures TokenOk(rest[k]) && (k < |rest| - 1 ==> Seam(rest[k], rest[k + 1]))
    {
      assert ts[k + 1] == rest[k];
      assert k < |rest| - 1 ==> Seam(ts[k + 1], ts[k + 1 + 1]);
    }
    assert |ts| > 1 ==> Seam(ts[0], ts[0 + 1]);
  }

  lemma FollowsToken(script: string, j: nat, t: Token, rest: seq<Token>, end: nat)
    requires TokenOk(t) && (rest != [] ==> TokenOk(rest[0]) && Seam(t, rest[0]))
    requires Placed(script, j, SpellAll(rest)) && end == j + |SpellAll(rest)| < |script| && Closes(script[end])
    ensures j < |script| && EndsAt(t, script[j])
  {
    if rest != [] {
      SeamEnds(t, rest[0]);
      PlacedSplit(script, j, Spell(rest[0]), SpellAll(rest[1..]));
      assert script[j..j + |Spell(rest[0])|][0] == Spell(rest[0])[0];
    }
  }

  // ----- the theorem -----

  lemma {:induction false} SpellJoin(a: seq<Token>, b: seq<Token>)
    ensures SpellAll(a + b) == SpellAll(a) + SpellAll(b)
  {
    if a == [] {
      assert a + b == b;
    } else {
      assert (a + b)[1..] == a[1..] + b;
      SpellJoin(a[1..], b);
    }
  }

  lemma OpenThrough(script: string, i: nat, s: Lexer) returns (t: Lexer)
    requires i < |script| && Opens(script[i]) && s.mode == Code && s.depth == 0
    ensures Through(script, i, s, i + 1, t)
    ensures t.mode == Code && t.depth == 1 && t.start == i && t.slices == s.slices
    ensures t.youtube == OpensYoutube(script[i], s.binding)
  {
    t := Step(script, i, s).state;
    OneStep(script, i, s, i + 1, t);
  }

  lemma CloseThrough(script: string, j: nat, s: Lexer, end: nat) returns (t: Lexer)
    requires j < |script| && Closes(script[j]) && s.mode == Code && s.depth == 1 && end == j + 1
    ensures Through(script, j, s, end, t)
    ensures t.mode == Code && t.depth == 0 && t.slices == s.slices + [Slice(s.start, end, s.youtube)]
  {
    t := Step(script, j, s).state;
    OneStep(script, j, s, end, t);
  }

  lemma BracketPlaces(script: string, i: nat, open: char, text: string, close: char)
    requires Placed(script, i, [open] + (text + [close]))
    ensures i + |text| + 2 <= |script| && script[i] == open && Placed(script, i + 1, text)
    ensures script[i + 1 + |text|] == close
  {
    PlacedSplit(script, i, [open], text + [close]);
    PlacedSplit(script, i + 1, text, [close]);
    assert script[i..i + 1][0] == open && script[i + 1 + |text|..i + 2 + |text|][0] == close;
  }

  /** A bracketed run of sound, balanced tokens. */
  lemma BracketThrough(script: string, i: nat, s: Lexer, open: char, inner: seq<Token>, close: char,
                       end: nat) returns (t: Lexer)
    requires Opens(open) && Closes(close) && Good(inner) && Placed(script, i, [open] + (SpellAll(inner) + [close]))
    requires s.mode == Code && s.depth == 0 && end == i + |SpellAll(inner)| + 2
    ensures Through(script, i, s, end, t) && t.mode == Code && t.depth == 0
    ensures t.slices == s.slices + [Slice(i, end, OpensYoutube(open, s.binding))]
  {
    var text := SpellAll(inner);
    BracketPlaces(script, i, open, text, close);
    NeutralDeep(inner);
    t := BetweenBrackets(script, i, s, inner, end);
  }

  lemma BetweenBrackets(script: string, i: nat, s: Lexer, inner: seq<Token>, end: nat) returns (t: Lexer)
    requires end == i + |SpellAll(inner)| + 2 <= |script| && Opens(script[i]) && Closes(script[end - 1])
    requires Placed(script, i + 1, SpellAll(inner)) && Sound(inner) && Deep(inner, 1) && DepthAfter(inner, 1) == 1
    requires s.mode == Code && s.depth == 0
    ensures Through(script, i, s, end, t) && t.mode == Code && t.depth == 0
    ensures t.slices == s.slices + [Slice(i, end, OpensYoutube(script[i], s.binding))]
  {
    var j := end - 1;
    var a := OpenThrough(script, i, s);
    var b := TokensThrough(script, i + 1, a, inner, j);
    t := CloseThrough(script, j, b, end);
    ThroughJoin(script, i + 1, a, j, b, end, t);
    ThroughJoin(script, i, s, i + 1, a, end, t);
  }

  lemma Bracketed(open: char, inner: seq<Token>, close: char)
    ensures SpellAll([Mark(open)] + inner + [Mark(close)]) == [open] + (SpellAll(inner) + [close])
  {
    SpellJoin([Mark(open)] + inner, [Mark(close)]);
    SpellJoin([Mark(open)], inner);
    assert SpellAll([Mark(open)]) == [open] + "" && SpellAll([Mark(close)]) == [close] + "";
  }

  function OpenOf(v: Json): char
    requires v.Container?
  {
    if v.isObject then '{' else '['
  }

  /** What stands between a container's brackets. */
  function InnerOf(v: Json): seq<Token>
    requires v.Container?
  {
    EntryTokens(v.entries, true) + Marks(v.last)
  }

  lemma WrittenInBrackets(v: Json)
    requires v.Container? && JsonOk(v)
    ensures Good(InnerOf(v)) && Write(v) == [OpenOf(v)] + (SpellAll(InnerOf(v)) + [if v.isObject then '}' else ']'])
  {
    InnerGood(v.isObject, v.entries, v.last);
    Bracketed(OpenOf(v), InnerOf(v), if v.isObject then '}' else ']');
  }

  /** From any top-level place in the code, a JSON object or array is read to its last character without a comment or
      regular expression in between, the scanner is back at the top level there, and has cut out exactly that text. */
  lemma JsonIsCutOut(script: string, i: nat, s: Lexer, v: Json, end: nat) returns (t: Lexer)
    requires v.Container? && JsonOk(v) && Placed(script, i, Write(v)) && s.mode == Code && s.depth == 0
    requires end == i + |Write(v)|
    ensures Through(script, i, s, end, t) && t.mode == Code && t.depth == 0
    ensures t.slices == s.slices + [Slice(i, end, OpensYoutube(OpenOf(v), s.binding))]
  {
    WrittenInBrackets(v);
    t := BracketThrough(script, i, s, OpenOf(v), InnerOf(v), if v.isObject then '}' else ']', end);
  }

  /** So the scanner's result on any script around it is that of scanning on from after it. */
  lemma ScanSkipsJson(script: string, i: nat, s: Lexer, v: Json, end: nat) returns (t: Lexer)
    requires v.Container? && JsonOk(v) && Placed(script, i, Write(v)) && s.mode == Code && s.depth == 0
    requires end == i + |Write(v)|
    ensures t.mode == Code && t.depth == 0 && Scan(script, i, s) == Scan(script, end, t)
    ensures t.slices == s.slices + [Slice(i, end, OpensYoutube(OpenOf(v), s.binding))]
  {
    t := JsonIsCutOut(script, i, s, v, end);
    ThroughScan(script, i, s, end, t);
  }

  /** A script that is one JSON object or array is cut out whole. */
  lemma JsonAlone(v: Json)
    requires v.Container? && JsonOk(v)
    ensures Scan(Write(v), 0, INITIAL).slices == [Slice(0, |Write(v)|, false)]
  {
    var script := Write(v);
    assert script[0..|script|] == script;
    var t := ScanSkipsJson(script, 0, INITIAL, v, |script|);
  }
}
