/** The scanner of src/scanner/scanner.js.

    The specification functions (`ScanWhile`, `ScanLoop`, `ScanFrom`, `ScanAll`, `LexFrom`)
    describe what one call of `scanToken`, or a run of calls, produces from a position of the
    input; the class `Scanner` is the position-driven tokenizer itself, with the fields
    `current` and `start` that its methods advance, and every method is proved to do what
    the specification functions say. */
module Scanning {
  import opened Wrappers
  import opened Token

  // ---------------------------------------------------------------------------
  // Character classes (plain ASCII range tests)
  // ---------------------------------------------------------------------------

  predicate IsDigit(ch: char) {
    '0' <= ch <= '9'
  }

  predicate IsLetter(ch: char) {
    ('a' <= ch <= 'z') || ('A' <= ch <= 'Z') || ch == '_'
  }

  /** The characters `scanToken` skips: space, newline, tab, carriage return. */
  predicate IsWhitespace(ch: char) {
    ch == ' ' || ch == '\n' || ch == '\t' || ch == '\r'
  }

  /** What `scanNumber` keeps consuming: digits and dots. */
  predicate IsNumberChar(ch: char) {
    IsDigit(ch) || ch == '.'
  }

  /** What `scanIdentifier` keeps consuming: letters (with `_`) and digits. */
  predicate IsIdentifierChar(ch: char) {
    IsLetter(ch) || IsDigit(ch)
  }

  /** The four `while (...) consume()` loops of the scanner, by what they keep consuming. */
  datatype Run = NumberRun | IdentifierRun | StringBody | CommentBody

  predicate Continues(run: Run, ch: char) {
    match run
    case NumberRun => IsNumberChar(ch)
    case IdentifierRun => IsIdentifierChar(ch)
    case StringBody => ch != '\''
    case CommentBody => ch != '\n'
  }

  /** `Scanner.reservedWords`: the nine words that are not identifiers. */
  const ReservedWords: map<string, TokenType> := map[
    "let" := Let, "if" := If, "else" := Else, "return" := Return, "fn" := Fn,
    "while" := While, "true" := True, "false" := False, "null" := Null
  ]

  /** The token type `scanIdentifier` gives a lexeme. */
  function IdentifierKind(lexeme: string): (kind: TokenType)
    ensures kind == Identifier <==> lexeme !in ReservedWords
    ensures lexeme in ReservedWords ==> kind == ReservedWords[lexeme]
  {
    if lexeme in ReservedWords then ReservedWords[lexeme] else Identifier
  }

  /** The one-character tokens of the `switch` in `scanToken`. */
  function Punctuator(ch: char): Option<TokenType> {
    match ch
    case '+' => Some(Plus)
    case '-' => Some(Minus)
    case '*' => Some(Star)
    case ';' => Some(Semicolon)
    case ':' => Some(Colon)
    case '.' => Some(Period)
    case ',' => Some(Comma)
    case '[' => Some(LeftBracket)
    case ']' => Some(RightBracket)
    case '{' => Some(LeftBrace)
    case '}' => Some(RightBrace)
    case '(' => Some(LeftParen)
    case ')' => Some(RightParen)
    case _ => None
  }

  /** The characters that merge with a following `=`: the token type alone and merged. */
  function EqualsPair(ch: char): Option<(TokenType, TokenType)> {
    match ch
    case '=' => Some((Equal, EqualEqual))
    case '!' => Some((Bang, BangEqual))
    case '<' => Some((Less, LessEqual))
    case '>' => Some((Greater, GreaterEqual))
    case _ => None
  }

  // ---------------------------------------------------------------------------
  // Specification of one scanToken call
  // ---------------------------------------------------------------------------

  /** The outcome of one `scanToken` call: the token with the `start` and `current`
      positions it leaves behind, or the message of the error it throws. */
  datatype Scan = Scanned(token: Token, start: nat, end: nat) | Failed(message: string, end: nat)

  /** The position where the loop `run` started at `i` stops: the end of the longest run
      of characters it accepts. */
  function ScanWhile(input: string, i: nat, run: Run): (e: nat)
    requires i <= |input|
    ensures i <= e <= |input|
    ensures forall k :: i <= k < e ==> Continues(run, input[k])
    ensures e == |input| || !Continues(run, input[e])
    decreases |input| - i
  {
    if i < |input| && Continues(run, input[i]) then ScanWhile(input, i + 1, run) else i
  }

  /** `scanString` after the opening quote has been consumed (`cur` is just past it). */
  function ScanStringFrom(input: string, start: nat, cur: nat): (r: Scan)
    requires start < cur <= |input|
    ensures cur <= r.end <= |input|
    ensures r.Failed? <==> forall k | cur <= k < |input| :: input[k] != '\''
    ensures r.Scanned? ==> r.token.kind == String && input[r.end - 1] == '\''
    ensures r.Scanned? ==> forall k | cur <= k < r.end - 1 :: input[k] != '\''
  {
    var q := ScanWhile(input, cur, StringBody);
    if q >= |input| then Failed("Syntax error: unterminated string", q)
    else Scanned(Token(String, input[start + 1..q]), start, q + 1)
  }

  /** The cases of the `switch` in `scanToken` that end the call: the character at `cur`
      starts a token, or is not recognized. */
  function ScanLexeme(input: string, start: nat, cur: nat): (r: Scan)
    requires start <= cur < |input|
    ensures cur < r.end <= |input|
    ensures r.Scanned? ==> r.start == start && r.token.kind != Eof
  {
    var ch := input[cur];
    var next := cur + 1;
    if Punctuator(ch).Some? then
      Scanned(Token(Punctuator(ch).value, input[start..next]), start, next)
    else if EqualsPair(ch).Some? then
      if next < |input| && input[next] == '=' then
        Scanned(Token(EqualsPair(ch).value.1, input[start..next + 1]), start, next + 1)
      else
        Scanned(Token(EqualsPair(ch).value.0, input[start..next]), start, next)
    else if ch == '\'' then
      ScanStringFrom(input, start, next)
    else if ch == '/' then
      Scanned(Token(Slash, input[start..next]), start, next)
    else if IsDigit(ch) then
      var e := ScanWhile(input, next, NumberRun);
      Scanned(Token(Number, input[start..e]), start, e)
    else if IsLetter(ch) then
      var e := ScanWhile(input, next, IdentifierRun);
      Scanned(Token(IdentifierKind(input[start..e]), input[start..e]), start, e)
    else
      Failed("Syntax error: unrecognized token \"" + [ch] + "\"", next)
  }

  /** The `while` loop of `scanToken`, with the token's first character at `start` and
      position `cur`: whitespace moves `start` past it, a `//` comment is skipped up to the
      newline (leaving `start` where it was), and any other character is handled by
      `ScanLexeme`. */
  function ScanLoop(input: string, start: nat, cur: nat): (r: Scan)
    requires start <= cur <= |input|
    ensures cur <= r.end <= |input|
    ensures cur < |input| ==> cur < r.end
    ensures r.Scanned? ==> start <= r.start <= r.end
    ensures r.Scanned? && r.token.kind == Eof ==> r.token == EofToken && r.end == |input|
    decreases |input| - cur
  {
    if cur >= |input| then Scanned(EofToken, start, cur)
    else if IsWhitespace(input[cur]) then ScanLoop(input, cur + 1, cur + 1)
    else if input[cur] == '/' && cur + 1 < |input| && input[cur + 1] == '/' then
      ScanLoop(input, start, ScanWhile(input, cur + 2, CommentBody))
    else ScanLexeme(input, start, cur)
  }

  /** Where `ScanLoop` stops skipping whitespace and comments: the pair of the
      lexeme's start and the position of its first character (or the end). */
  function Trivia(input: string, start: nat, cur: nat): (p: (nat, nat))
    requires start <= cur <= |input|
    ensures p.0 <= p.1 <= |input|
    decreases |input| - cur
  {
    if cur >= |input| then (start, cur)
    else if IsWhitespace(input[cur]) then Trivia(input, cur + 1, cur + 1)
    else if input[cur] == '/' && cur + 1 < |input| && input[cur + 1] == '/' then
      Trivia(input, start, ScanWhile(input, cur + 2, CommentBody))
    else (start, cur)
  }

  /** Skipping one whitespace character moves the lexeme's start past it. */
  lemma TriviaWhitespace(input: string, start: nat, cur: nat)
    requires start <= cur < |input| && IsWhitespace(input[cur])
    ensures Trivia(input, start, cur) == Trivia(input, cur + 1, cur + 1)
  {
  }

  /** Skipping a `//` comment leaves the lexeme's start where it was. */
  lemma TriviaComment(input: string, start: nat, cur: nat, e: nat)
    requires start <= cur && cur + 1 < |input| && input[cur] == '/' && input[cur + 1] == '/'
    requires e == ScanWhile(input, cur + 2, CommentBody)
    ensures Trivia(input, start, cur) == Trivia(input, start, e)
  {
    assert !IsWhitespace(input[cur]);
  }

  /** What `ScanLoop` does once the trivia are skipped. */
  function AfterTrivia(input: string, p: (nat, nat)): Scan
    requires p.0 <= p.1 <= |input|
  {
    if p.1 >= |input| then Scanned(EofToken, p.0, p.1) else ScanLexeme(input, p.0, p.1)
  }

  /** `ScanLoop` is trivia skipping followed by one lexeme (or the end). */
  lemma {:induction false} TriviaScan(input: string, start: nat, cur: nat)
    requires start <= cur <= |input|
    ensures ScanLoop(input, start, cur) == AfterTrivia(input, Trivia(input, start, cur))
    decreases |input| - cur
  {
    if cur >= |input| {
    } else if IsWhitespace(input[cur]) {
      TriviaScan(input, cur + 1, cur + 1);
    } else if input[cur] == '/' && cur + 1 < |input| && input[cur + 1] == '/' {
      TriviaScan(input, start, ScanWhile(input, cur + 2, CommentBody));
    }
  }
  /** When the trivia after `pos` end at a character, `scanToken` scans the lexeme there. */
  lemma LexemeAhead(input: string, pos: nat, start: nat, cur: nat)
    requires pos <= |input| && start <= cur < |input|
    requires Trivia(input, pos, pos) == (start, cur)
    ensures ScanFrom(input, pos) == ScanLexeme(input, start, cur)
  {
    TriviaScan(input, pos, pos);
  }

  /** When the trivia after `pos` run to the end, `scanToken` gives EOF. */
  lemma EndAhead(input: string, pos: nat, start: nat)
    requires pos <= |input|
    requires Trivia(input, pos, pos) == (start, |input|)
    ensures ScanFrom(input, pos) == Scanned(EofToken, start, |input|)
  {
    TriviaScan(input, pos, pos);
  }


  /** `ScanLoop` at a character that starts neither whitespace nor a comment scans a
      lexeme. */
  lemma LexemeStep(input: string, start: nat, cur: nat)
    requires start <= cur < |input|
    requires !IsWhitespace(input[cur]) && !(input[cur] == '/' && cur + 1 < |input| && input[cur + 1] == '/')
    ensures ScanLoop(input, start, cur) == ScanLexeme(input, start, cur)
  {
  }

  /** One `scanToken` call with `current == pos`. */
  function ScanFrom(input: string, pos: nat): Scan
    requires pos <= |input|
  {
    ScanLoop(input, pos, pos)
  }

  /** What `scanToken` returns or throws, as a `Result`. */
  function Outcome(s: Scan): Result<Token> {
    match s
    case Scanned(t, _, _) => Ok(t)
    case Failed(m, _) => Err(m)
  }

  // ---------------------------------------------------------------------------
  // Specification of runs of scanToken calls
  // ---------------------------------------------------------------------------

  /** `scanTokens`: call `scanToken` while the input is not exhausted. */
  function ScanAll(input: string, pos: nat): (r: Result<seq<Token>>)
    requires pos <= |input|
    ensures r.Ok? ==> |r.value| <= |input| - pos
    decreases |input| - pos
  {
    if pos >= |input| then Ok([])
    else
      match ScanFrom(input, pos)
      case Failed(m, _) => Err(m)
      case Scanned(t, _, e) =>
        var rest :- ScanAll(input, e);
        Ok([t] + rest)
  }

  /** The token stream a parser sees when it calls `scanToken` on demand: the tokens up to
      and including the first EOF, or the tokens before the first failing call together with
      that call's message. */
  datatype Lexed = Lexed(tokens: seq<Token>, failure: Option<string>)

  function LexFrom(input: string, pos: nat): Lexed
    requires pos <= |input|
    decreases |input| - pos
  {
    match ScanFrom(input, pos)
    case Failed(m, _) => Lexed([], Some(m))
    case Scanned(t, _, e) =>
      if t.kind == Eof then Lexed([t], None)
      else
        var rest := LexFrom(input, e);
        Lexed([t] + rest.tokens, rest.failure)
  }

  /** What the `k`-th call of `scanToken` on the stream gives: EOF again past a clean end,
      the error again past a failing one. */
  function TokenAt(lx: Lexed, k: nat): Result<Token> {
    if k < |lx.tokens| then Ok(lx.tokens[k])
    else if lx.failure.Some? then Err(lx.failure.value)
    else Ok(EofToken)
  }

  /** The value of `current` after `n` successful `scanToken` calls starting at `pos`;
      `None` when one of them throws. */
  function Scans(input: string, pos: nat, n: nat): (r: Option<nat>)
    requires pos <= |input|
    ensures r.Some? ==> pos <= r.value <= |input|
    decreases n
  {
    if n == 0 then Some(pos)
    else
      match ScanFrom(input, pos)
      case Failed(_, _) => None
      case Scanned(_, _, e) => Scans(input, e, n - 1)
  }

  // ---------------------------------------------------------------------------
  // The Scanner class
  // ---------------------------------------------------------------------------

  class Scanner {
    const input: string
    var current: nat
    var start: nat

    ghost predicate Valid()
      reads this
    {
      start <= current <= |input|
    }

    constructor (input: string)
      ensures this.input == input && current == 0 && start == 0
      ensures Valid()
    {
      this.input := input;
      current := 0;
      start := 0;
    }

    predicate IsAtEnd()
      reads this
    {
      current >= |input|
    }

    /** `peek()`: the character at `current`, `None` for JavaScript's `undefined`. */
    function Peek(): (ch: Option<char>)
      reads this
      ensures ch.Some? <==> current < |input|
      ensures ch.Some? ==> ch.value == input[current]
    {
      if current < |input| then Some(input[current]) else None
    }

    method Consume() returns (ch: char)
      requires current < |input|
      modifies this`current
      ensures current == old(current) + 1
      ensures ch == input[old(current)]
    {
      current := current + 1;
      ch := input[current - 1];
    }

    method Match(expected: char) returns (matched: bool)
      modifies this`current
      ensures matched <==> old(current) < |input| && input[old(current)] == expected
      ensures current == if matched then old(current) + 1 else old(current)
    {
      if IsAtEnd() {
        return false;
      }
      if Peek() != Some(expected) {
        return false;
      }
      var _ := Consume();
      return true;
    }

    /** `addToken(type)`: the token whose literal is the text from `start` to `current`. */
    function AddToken(kind: TokenType): (t: Token)
      reads this
      requires Valid()
      ensures t.kind == kind && |t.literal| == current - start
      ensures forall k :: 0 <= k < |t.literal| ==> t.literal[k] == input[start + k]
    {
      Token(kind, input[start..current])
    }

    method ScanNumber() returns (t: Token)
      requires Valid()
      modifies this`current
      ensures Valid() && current == ScanWhile(input, old(current), NumberRun)
      ensures t == Token(Number, input[start..current])
    {
      while Peek().Some? && IsNumberChar(Peek().value)
        invariant old(current) <= current <= |input|
        invariant ScanWhile(input, current, NumberRun) == ScanWhile(input, old(current), NumberRun)
        decreases |input| - current
      {
        var _ := Consume();
      }
      t := AddToken(Number);
    }

    method ScanIdentifier() returns (t: Token)
      requires Valid()
      modifies this`current
      ensures Valid() && current == ScanWhile(input, old(current), IdentifierRun)
      ensures t == Token(IdentifierKind(input[start..current]), input[start..current])
    {
      while Peek().Some? && IsIdentifierChar(Peek().value)
        invariant old(current) <= current <= |input|
        invariant ScanWhile(input, current, IdentifierRun) == ScanWhile(input, old(current), IdentifierRun)
        decreases |input| - current
      {
        var _ := Consume();
      }
      var lexeme := input[start..current];
      if lexeme in ReservedWords {
        return AddToken(ReservedWords[lexeme]);
      }
      return AddToken(Identifier);
    }

    /** Called with the opening quote just consumed. */
    method ScanString() returns (r: Result<Token>)
      requires Valid() && start < current
      modifies this`current
      ensures Valid()
      ensures r == Outcome(ScanStringFrom(input, start, old(current)))
      ensures current == ScanStringFrom(input, start, old(current)).end
    {
      while Peek().Some? && Peek().value != '\''
        invariant old(current) <= current <= |input|
        invariant ScanWhile(input, current, StringBody) == ScanWhile(input, old(current), StringBody)
        decreases |input| - current
      {
        var _ := Consume();
      }
      if IsAtEnd() {
        return Err("Syntax error: unterminated string");
      }
      var _ := Consume();
      return Ok(Token(String, input[start + 1..current - 1]));
    }

    method SkipComment()
      requires Valid()
      modifies this`current
      ensures Valid() && current == ScanWhile(input, old(current), CommentBody)
    {
      while Peek().Some? && Peek().value != '\n'
        invariant old(current) <= current <= |input|
        invariant ScanWhile(input, current, CommentBody) == ScanWhile(input, old(current), CommentBody)
        decreases |input| - current
      {
        var _ := Consume();
      }
    }

    /** The token-producing cases of the `switch` in `scanToken`, entered with the
        character `ch` just consumed and known to start neither whitespace nor a comment. */
    method ScanLexemeAfter(ch: char, ghost here: nat) returns (r: Result<Token>)
      requires Valid() && start <= here && current == here + 1 && ch == input[here]
      requires !IsWhitespace(ch) && !(ch == '/' && Peek() == Some('/'))
      modifies this`current
      ensures Valid()
      ensures r == Outcome(ScanLexeme(input, start, here))
      ensures current == ScanLexeme(input, start, here).end
    {
      ghost var spec := ScanLexeme(input, start, here);
      var single := Punctuator(ch);
      var pair := EqualsPair(ch);
      if single.Some? {
        assert spec == Scanned(Token(single.value, input[start..current]), start, current);
        return Ok(AddToken(single.value));
      } else if pair.Some? {
        var merged := Match('=');
        if merged {
          assert spec == Scanned(Token(pair.value.1, input[start..current]), start, current);
          return Ok(AddToken(pair.value.1));
        }
        assert spec == Scanned(Token(pair.value.0, input[start..current]), start, current);
        return Ok(AddToken(pair.value.0));
      } else if ch == '\'' {
        assert spec == ScanStringFrom(input, start, current);
        r := ScanString();
      } else if ch == '/' {
        assert spec == Scanned(Token(Slash, input[start..current]), start, current);
        return Ok(AddToken(Slash));
      } else if IsDigit(ch) {
        ghost var e := ScanWhile(input, current, NumberRun);
        assert spec == Scanned(Token(Number, input[start..e]), start, e);
        var t := ScanNumber();
        return Ok(t);
      } else if IsLetter(ch) {
        ghost var e := ScanWhile(input, current, IdentifierRun);
        assert spec == Scanned(Token(IdentifierKind(input[start..e]), input[start..e]), start, e);
        var t := ScanIdentifier();
        return Ok(t);
      } else {
        assert spec == Failed("Syntax error: unrecognized token \"" + [ch] + "\"", current);
        return Err("Syntax error: unrecognized token \"" + [ch] + "\"");
      }
    }

    /** `scanToken()`: the next token, skipping whitespace and `//` comments. */
    method ScanToken() returns (r: Result<Token>)
      requires Valid()
      modifies this
      ensures Valid()
      ensures r == Outcome(ScanFrom(input, old(current)))
      ensures current == ScanFrom(input, old(current)).end
      ensures ScanFrom(input, old(current)).Scanned? ==> start == ScanFrom(input, old(current)).start
    {
      ghost var pos := current;
      ghost var trivia := Trivia(input, pos, pos);
      start := current;
      while !IsAtEnd()
        invariant Valid()
        invariant Trivia(input, start, current) == trivia
        decreases |input| - current
      {
        ghost var here, from := current, start;
        var ch := Consume();
        if IsWhitespace(ch) {
          TriviaWhitespace(input, from, here);
          start := current;
        } else if ch == '/' && Peek() == Some('/') {
          var _ := Consume();
          assert current == here + 2 && input[here + 1] == '/';
          SkipComment();
          TriviaComment(input, from, here, current);
        } else {
          assert Trivia(input, start, here) == (start, here);
          LexemeAhead(input, pos, start, here);
          r := ScanLexemeAfter(ch, here);
          return;
        }
      }
      assert Trivia(input, start, current) == (start, current);
      EndAhead(input, pos, start);
      return Ok(EofToken);
    }

    /** `scanTokens()`: every token up to the end of the input. */
    method ScanTokens() returns (r: Result<seq<Token>>)
      requires Valid()
      modifies this
      ensures r == ScanAll(input, old(current))
    {
      var tokens: seq<Token> := [];
      assert ScanAll(input, current).Ok? ==> [] + ScanAll(input, current).value == ScanAll(input, current).value;
      while !IsAtEnd()
        invariant Valid()
        invariant ScanAll(input, old(current)) == Prepend(tokens, ScanAll(input, current))
        decreases |input| - current
      {
        ghost var before := current;
        var t := ScanToken();
        if t.Err? {
          return Err(t.message);
        }
        assert ScanAll(input, before) == Prepend([t.value], ScanAll(input, current));
        if ScanAll(input, current).Ok? {
          assert tokens + ([t.value] + ScanAll(input, current).value)
              == (tokens + [t.value]) + ScanAll(input, current).value;
        }
        tokens := tokens + [t.value];
      }
      assert tokens + [] == tokens;
      return Ok(tokens);
    }
  }

  /** `ts` followed by the tokens of `rest`, or the failure of `rest`. */
  function Prepend(ts: seq<Token>, rest: Result<seq<Token>>): Result<seq<Token>> {
    if rest.Ok? then Ok(ts + rest.value) else rest
  }
}
