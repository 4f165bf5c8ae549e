/** The single-pass scanner that cuts balanced objects and arrays out of a script without running it
    (serviceScriptObjects in agent/ipquality/services.go). Characters stand for bytes. */
module ScriptLexer {

  // ----- bytes -----

  predicate WordByte(c: char) {
    'a' <= c <= 'z' || 'A' <= c <= 'Z' || '0' <= c <= '9' || c == '_' || c == '$' || c >= '\U{80}'
  }

  predicate Blank(c: char) {
    c == ' ' || c == '\t' || c == '\n' || c == '\r'
  }

  /** After these a slash begins a regular expression. */
  predicate ExpectsOperand(c: char) {
    c in "=(:,;?!~&|^%*<>"
  }

  predicate OperandKeyword(word: string) {
    word in ["return", "throw", "case", "yield", "await", "delete", "void", "typeof", "new", "in", "instanceof"]
  }

  predicate Opens(c: char) { c == '{' || c == '[' }

  predicate Closes(c: char) { c == '}' || c == ']' }

  // ----- state -----

  /** What the tokens just read at the top level bind the next object to. */
  datatype Binding = Nothing | Window | WindowDot | Ytcfg | YtcfgDot | YtcfgSet | YtcfgSetOpen | InitialData | InitialDataIs

  datatype Mode =
    | Code
    | LineComment
    | BlockComment(opening: bool, star: bool)
    | Quoted(quote: char, escaped: bool)
    | Regex(inClass: bool, escapedNext: bool)

  /** A balanced piece handed to the decoder: [from, to). */
  datatype Slice = Slice(from: nat, to: nat, youtube: bool)

  datatype Lexer = Lexer(
    mode: Mode, start: nat, depth: nat, operandStart: bool, memberName: bool,
    binding: Binding, youtube: bool, slices: seq<Slice>)

  const INITIAL := Lexer(Code, 0, 0, true, false, Nothing, false, [])

  datatype Next = Next(at: nat, state: Lexer)

  // ----- words -----

  /** Where the word that runs over position i ends. */
  function WordEnd(script: string, i: nat): (j: nat)
    requires i <= |script|
    ensures i <= j <= |script|
    ensures forall k :: i <= k < j ==> WordByte(script[k])
    ensures j < |script| ==> !WordByte(script[j])
    decreases |script| - i
  {
    if i < |script| && WordByte(script[i]) then WordEnd(script, i + 1) else i
  }

  function WordBinding(word: string, binding: Binding, memberName: bool): Binding {
    if word == "ytcfg" && (!memberName || binding == WindowDot) then Ytcfg
    else if word == "ytInitialData" && (!memberName || binding == WindowDot) then InitialData
    else if word == "window" && !memberName then Window
    else if word == "set" && binding == YtcfgDot then YtcfgSet
    else Nothing
  }

  function AfterWord(s: Lexer, word: string): Lexer {
    s.(binding := if s.depth == 0 then WordBinding(word, s.binding, s.memberName) else s.binding,
       operandStart := !s.memberName && OperandKeyword(word), memberName := false)
  }

  // ----- punctuation -----

  function MarkBinding(c: char, binding: Binding): Binding {
    if c == '.' && binding == Window then WindowDot
    else if c == '.' && binding == Ytcfg then YtcfgDot
    else if c == '(' && binding == YtcfgSet then YtcfgSetOpen
    else if c == '=' && binding == InitialData then InitialDataIs
    else Nothing
  }

  predicate OpensYoutube(c: char, binding: Binding) {
    c == '{' && (binding == YtcfgSetOpen || binding == InitialDataIs)
  }

  /** At the top level punctuation extends the binding, or ends it and tells whether it bound this object. */
  function Bind(s: Lexer, c: char, comment: bool): Lexer {
    if s.depth != 0 || comment then s
    else if MarkBinding(c, s.binding) != Nothing then s.(binding := MarkBinding(c, s.binding))
    else s.(binding := Nothing, youtube := OpensYoutube(c, s.binding))
  }

  /** A slash, with the character after it: a comment, a regular expression or a division. */
  function AfterSlash(s: Lexer, follows: char): Lexer {
    if follows == '/' then s.(mode := LineComment)
    else if follows == '*' then s.(mode := BlockComment(true, false))
    else if s.operandStart then s.(mode := Regex(false, false), operandStart := false, memberName := false)
    else s.(operandStart := true, memberName := false)
  }

  function AfterOpen(s: Lexer, i: nat): Lexer {
    s.(start := if s.depth == 0 then i else s.start, depth := s.depth + 1, operandStart := true, memberName := false)
  }

  function AfterClose(s: Lexer, i: nat): Lexer {
    var t := s.(operandStart := false, memberName := false);
    if s.depth == 0 then t
    else if s.depth == 1 then t.(depth := 0, slices := s.slices + [Slice(s.start, i + 1, s.youtube)])
    else t.(depth := s.depth - 1)
  }

  /** The character after i, or a space at the end. */
  function Follows(script: string, i: nat): char {
    if i + 1 < |script| then script[i + 1] else ' '
  }

  function Punctuation(script: string, i: nat, was: Lexer): Next
    requires i < |script|
  {
    var c, f := script[i], Follows(script, i);
    var s := Bind(was, c, c == '/' && (f == '/' || f == '*'));
    if c == '\'' || c == '"' || c == '`' then Next(i + 1, s.(mode := Quoted(c, false), operandStart := false, memberName := false))
    else if c == '/' then Next(i + 1, AfterSlash(s, f))
    else if Opens(c) then Next(i + 1, AfterOpen(s, i))
    else if Closes(c) then Next(i + 1, AfterClose(s, i))
    else if c == '.' then Next(i + 1, s.(memberName := true, operandStart := false))
    else if (c == '+' || c == '-') && f == c then Next(i + 2, s.(memberName := false))
    else if c == '+' || c == '-' then Next(i + 1, s.(operandStart := true, memberName := false))
    else Next(i + 1, s.(operandStart := ExpectsOperand(c), memberName := false))
  }

  // ----- one iteration -----

  function InQuotes(s: Lexer, c: char): Lexer
    requires s.mode.Quoted?
  {
    if s.mode.escaped then s.(mode := s.mode.(escaped := false))
    else if c == '\\' then s.(mode := s.mode.(escaped := true))
    else if c == s.mode.quote then s.(mode := Code)
    else s
  }

  function InRegex(s: Lexer, c: char): Lexer
    requires s.mode.Regex?
  {
    var m := s.mode;
    if m.escapedNext then s.(mode := m.(escapedNext := false))
    else if c == '\\' then s.(mode := m.(escapedNext := true))
    else if c == '[' then s.(mode := m.(inClass := true))
    else if c == ']' then s.(mode := m.(inClass := false))
    else if c == '/' && !m.inClass then s.(mode := Code)
    else s
  }

  function InBlock(s: Lexer, c: char): Lexer
    requires s.mode.BlockComment?
  {
    if s.mode.opening then s.(mode := BlockComment(false, s.mode.star))
    else if c == '/' && s.mode.star then s.(mode := Code)
    else s.(mode := BlockComment(false, c == '*'))
  }

  function Step(script: string, i: nat, s: Lexer): (n: Next)
    requires i < |script|
    ensures i < n.at <= |script|
  {
    var c := script[i];
    match s.mode
    case LineComment => Next(i + 1, if c == '\n' || c == '\r' then s.(mode := Code) else s)
    case BlockComment(_, _) => Next(i + 1, InBlock(s, c))
    case Quoted(_, _) => Next(i + 1, InQuotes(s, c))
    case Regex(_, _) => Next(i + 1, InRegex(s, c))
    case Code =>
      if Blank(c) then Next(i + 1, s)
      else if WordByte(c) then Next(WordEnd(script, i), AfterWord(s, script[i..WordEnd(script, i)]))
      else Punctuation(script, i, s)
  }

  /** The scanner from position i to the end. */
  function Scan(script: string, i: nat, s: Lexer): Lexer
    requires i <= |script|
    decreases |script| - i
  {
    if i == |script| then s else Scan(script, Step(script, i, s).at, Step(script, i, s).state)
  }

  // ----- the slices of any script -----

  /** Slices found so far lie one after another before `end`, each from an opening to a closing bracket. */
  ghost predicate SlicesOk(script: string, slices: seq<Slice>, end: nat) {
    && (forall k :: 0 <= k < |slices| ==>
          slices[k].from + 1 < slices[k].to <= end <= |script| && Opens(script[slices[k].from]) && Closes(script[slices[k].to - 1]))
    && forall k, l :: 0 <= k < l < |slices| ==> slices[k].to <= slices[l].from
  }

  ghost predicate LexerOk(script: string, i: nat, s: Lexer) {
    if s.depth == 0 then SlicesOk(script, s.slices, i)
    else s.start < i <= |script| && SlicesOk(script, s.slices, s.start) && Opens(script[s.start])
  }

  predicate SameBrackets(s: Lexer, t: Lexer) {
    s.start == t.start && s.depth == t.depth && s.slices == t.slices
  }

  /** Only brackets in code change the depth, the start and the slices. */
  lemma StepBrackets(script: string, i: nat, s: Lexer)
    requires i < |script|
    ensures var c, n := script[i], Step(script, i, s);
            if s.mode == Code && Opens(c) then n.at == i + 1 && SameBrackets(n.state, AfterOpen(s, i))
            else if s.mode == Code && Closes(c) then n.at == i + 1 && SameBrackets(n.state, AfterClose(s, i))
            else SameBrackets(n.state, s)
  {
    if s.mode == Code {
      PunctuationBrackets(script, i, s);
    }
  }

  lemma PunctuationBrackets(script: string, i: nat, s: Lexer)
    requires i < |script|
    ensures var c, n := script[i], Punctuation(script, i, s);
            if Opens(c) then n.at == i + 1 && SameBrackets(n.state, AfterOpen(s, i))
            else if Closes(c) then n.at == i + 1 && SameBrackets(n.state, AfterClose(s, i))
            else SameBrackets(n.state, s)
  {
  }

  lemma OkLater(script: string, i: nat, s: Lexer, j: nat, t: Lexer)
    requires LexerOk(script, i, s) && i <= j <= |script| && SameBrackets(s, t)
    ensures LexerOk(script, j, t)
  {
  }

  lemma SliceFound(script: string, slices: seq<Slice>, from: nat, to: nat, youtube: bool)
    requires SlicesOk(script, slices, from) && from + 1 < to <= |script| && Opens(script[from])
    requires Closes(script[to - 1])
    ensures SlicesOk(script, slices + [Slice(from, to, youtube)], to)
  {
  }

  lemma StepKeepsOk(script: string, i: nat, s: Lexer)
    requires i < |script| && LexerOk(script, i, s)
    ensures LexerOk(script, Step(script, i, s).at, Step(script, i, s).state)
  {
    StepBrackets(script, i, s);
    var c, n := script[i], Step(script, i, s);
    if s.mode == Code && Opens(c) {
      if s.depth == 0 {
        OpenedOk(script, i, s, n.state);
      } else {
        DeeperOk(script, i, s, n.state);
      }
    } else if s.mode == Code && Closes(c) {
      ClosedOk(script, i, s, n.state);
    } else {
      OkLater(script, i, s, n.at, n.state);
    }
  }

  lemma OpenedOk(script: string, i: nat, s: Lexer, t: Lexer)
    requires i < |script| && LexerOk(script, i, s) && s.depth == 0 && Opens(script[i])
    requires SameBrackets(t, AfterOpen(s, i))
    ensures LexerOk(script, i + 1, t)
  {
  }

  lemma DeeperOk(script: string, i: nat, s: Lexer, t: Lexer)
    requires i < |script| && LexerOk(script, i, s) && s.depth > 0 && SameBrackets(t, AfterOpen(s, i))
    ensures LexerOk(script, i + 1, t)
  {
  }

  lemma ClosedOk(script: string, i: nat, s: Lexer, t: Lexer)
    requires i < |script| && LexerOk(script, i, s) && Closes(script[i]) && SameBrackets(t, AfterClose(s, i))
    ensures LexerOk(script, i + 1, t)
  {
    if s.depth == 1 {
      SliceFound(script, s.slices, s.start, i + 1, s.youtube);
    }
  }

  /** For every script the slices are disjoint, in increasing order, and bracketed. */
  lemma {:induction false} SlicesInOrder(script: string, i: nat, s: Lexer)
    requires i <= |script| && LexerOk(script, i, s)
    ensures SlicesOk(script, Scan(script, i, s).slices, |script|)
    decreases |script| - i
  {
    if i < |script| {
      StepKeepsOk(script, i, s);
      SlicesInOrder(script, Step(script, i, s).at, Step(script, i, s).state);
    }
  }
}
