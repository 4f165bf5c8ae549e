/** The scanner's loop, with the variables it updates; the decoder is a parameter. */
module ScriptObject {
  import opened ScriptLexer

  /** The pieces the decoder accepts. */
  function Decoded(script: string, slices: seq<Slice>, decodes: string -> bool): seq<Slice> {
    if slices == [] then []
    else
      var init, last := slices[..|slices| - 1], slices[|slices| - 1];
      Decoded(script, init, decodes) + if last.from <= last.to <= |script| && decodes(script[last.from..last.to]) then [last] else []
  }

  function Youtube(slices: seq<Slice>): seq<Slice> {
    if slices == [] then []
    else
      var init, last := slices[..|slices| - 1], slices[|slices| - 1];
      Youtube(init) + if last.youtube then [last] else []
  }

  /** The rest of a word. */
  method ReadWord(script: string, i: nat) returns (j: nat)
    requires i < |script| && WordByte(script[i])
    ensures j == WordEnd(script, i)
  {
    j := i + 1;
    while j < |script| && WordByte(script[j])
      invariant i < j <= |script| && WordEnd(script, i) == WordEnd(script, j)
    {
      j := j + 1;
    }
  }

  /** One character inside a comment, a string or a regular expression. */
  method Inside(mode: Mode, c: char) returns (next: Mode)
    requires mode != Code
    ensures forall s: Lexer, script: string, i: nat :: i < |script| && script[i] == c && s.mode == mode ==>
              Step(script, i, s) == Next(i + 1, s.(mode := next))
  {
    next := mode;
    match mode
    case LineComment =>
      if c == '\n' || c == '\r' {
        next := Code;
      }
    case BlockComment(opening, star) =>
      if opening {
        next := BlockComment(false, star);
      } else if c == '/' && star {
        next := Code;
      } else {
        next := BlockComment(false, c == '*');
      }
    case Quoted(quote, escaped) =>
      if escaped {
        next := Quoted(quote, false);
      } else if c == '\\' {
        next := Quoted(quote, true);
      } else if c == quote {
        next := Code;
      }
    case Regex(inClass, escapedNext) =>
      if escapedNext {
        next := Regex(inClass, false);
      } else if c == '\\' {
        next := Regex(inClass, true);
      } else if c == '[' {
        next := Regex(true, false);
      } else if c == ']' {
        next := Regex(false, false);
      } else if c == '/' && !inClass {
        next := Code;
      }
  }

  /** Punctuation in code, but for a closing bracket: the new position and variables. */
  method ReadMark(script: string, i: nat, s: Lexer) returns (at: nat, t: Lexer)
    requires i < |script| && s.mode == Code && !Blank(script[i]) && !WordByte(script[i]) && !Closes(script[i])
    ensures Next(at, t) == Step(script, i, s) && t.slices == s.slices
  {
    var c := script[i];
    var f := if i + 1 < |script| then script[i + 1] else ' ';
    var comment := c == '/' && (f == '/' || f == '*');
    var binding, youtube := s.binding, s.youtube;
    if s.depth == 0 && !comment {
      binding := MarkBinding(c, s.binding);
      if binding == Nothing {
        youtube := OpensYoutube(c, s.binding);
      }
    }
    var mode, start, depth, operandStart, memberName := Code, s.start, s.depth, s.operandStart, false;
    at := i + 1;
    if c == '\'' || c == '"' || c == '`' {
      mode, operandStart := Quoted(c, false), false;
    } else if c == '/' {
      if f == '/' {
        mode, memberName := LineComment, s.memberName;
      } else if f == '*' {
        mode, memberName := BlockComment(true, false), s.memberName;
      } else if operandStart {
        mode, operandStart := Regex(false, false), false;
      } else {
        operandStart := true;
      }
    } else if Opens(c) {
      if depth == 0 {
        start := i;
      }
      depth, operandStart := depth + 1, true;
    } else if c == '.' {
      memberName, operandStart := true, false;
    } else if c == '+' || c == '-' {
      if f == c {
        at := i + 2;
      } else {
        operandStart := true;
      }
    } else {
      operandStart := ExpectsOperand(c);
    }
    t := Lexer(mode, start, depth, operandStart, memberName, binding, youtube, s.slices);
  }

  /** A closing bracket: the depth it leaves, and whether it completes a piece. */
  method ReadClose(script: string, i: nat, s: Lexer) returns (t: Lexer, found: bool)
    requires i < |script| && s.mode == Code && Closes(script[i])
    ensures Next(i + 1, t) == Step(script, i, s)
    ensures t.slices == if found then s.slices + [Slice(s.start, i + 1, s.youtube)] else s.slices
    ensures found == (s.depth == 1)
  {
    var binding, youtube := s.binding, s.youtube;
    if s.depth == 0 {
      binding, youtube := Nothing, false;
    }
    var depth, slices := s.depth, s.slices;
    found := false;
    if depth > 0 {
      depth := depth - 1;
      found := depth == 0;
    }
    if found {
      slices := slices + [Slice(s.start, i + 1, s.youtube)];
    }
    t := Lexer(Code, s.start, depth, false, false, binding, youtube, slices);
  }

  /** One turn of the loop. */
  method Turn(script: string, i: nat, s: Lexer) returns (at: nat, t: Lexer, found: bool)
    requires i < |script|
    ensures Next(at, t) == Step(script, i, s)
    ensures t.slices == if found then s.slices + [Slice(s.start, i + 1, s.youtube)] else s.slices
    ensures found ==> s.depth == 1
  {
    var c := script[i];
    at, t, found := i + 1, s, false;
    if s.mode != Code {
      var mode := Inside(s.mode, c);
      t := s.(mode := mode);
    } else if WordByte(c) {
      at := ReadWord(script, i);
      t := AfterWord(s, script[i..at]);
    } else if Closes(c) {
      t, found := ReadClose(script, i, s);
    } else if !Blank(c) {
      at, t := ReadMark(script, i, s);
    }
  }

  lemma DecodedMore(script: string, slices: seq<Slice>, last: Slice, decodes: string -> bool)
    requires last.from <= last.to <= |script|
    ensures Decoded(script, slices + [last], decodes) ==
            Decoded(script, slices, decodes) + if decodes(script[last.from..last.to]) then [last] else []
  {
    assert (slices + [last])[..|slices|] == slices;
  }

  lemma YoutubeMore(slices: seq<Slice>, last: Slice)
    ensures Youtube(slices + [last]) == Youtube(slices) + if last.youtube then [last] else []
  {
    assert (slices + [last])[..|slices|] == slices;
  }

  lemma StartBehind(script: string, i: nat, s: Lexer)
    requires i < |script| && LexerOk(script, i, s) && s.depth == 1
    ensures s.start <= i + 1 <= |script|
  {
  }

  /** Cuts balanced pieces out of the script and keeps those that decode, in order. */
  method ServiceScriptObjects(script: string, decodes: string -> bool) returns (objects: seq<Slice>, youtubeObjects: seq<Slice>)
    ensures objects == Decoded(script, Scan(script, 0, INITIAL).slices, decodes)
    ensures youtubeObjects == Youtube(objects)
  {
    objects, youtubeObjects := [], [];
    var s, i := INITIAL, 0;
    while i < |script|
      invariant 0 <= i <= |script| && LexerOk(script, i, s) && Scan(script, i, s) == Scan(script, 0, INITIAL)
      invariant objects == Decoded(script, s.slices, decodes) && youtubeObjects == Youtube(objects)
    {
      StepKeepsOk(script, i, s);
      var at, t, found := Turn(script, i, s);
      if found {
        StartBehind(script, i, s);
        var slice := Slice(s.start, i + 1, s.youtube);
        DecodedMore(script, s.slices, slice, decodes);
        if decodes(script[slice.from..slice.to]) {
          YoutubeMore(objects, slice);
          objects := objects + [slice];
          if slice.youtube {
            youtubeObjects := youtubeObjects + [slice];
          }
        }
      }
      i, s := at, t;
    }
  }
}
