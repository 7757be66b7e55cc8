/** Properties of the scanner specification: what one `scanToken` call skips, merges and
    keeps, that EOF is sticky, and how the on-demand token stream relates to `scanTokens`
    and to the scanner's position. */
module ScannerFacts {
  import opened Wrappers
  import opened Token
  import opened Scanning

  /** Whitespace before a token is skipped and `start` moved past it, so a scan from
      `pos` is the scan from the first position after the whitespace. */
  lemma {:induction false} WhitespaceSkipped(input: string, pos: nat, k: nat)
    requires pos <= k <= |input|
    requires forall i :: pos <= i < k ==> IsWhitespace(input[i])
    ensures ScanFrom(input, pos) == ScanFrom(input, k)
    decreases k - pos
  {
    if pos < k {
      WhitespaceSkipped(input, pos + 1, k);
    }
  }

  /** `//` starts a comment that runs up to, not including, the next newline; a comment
      that runs to the end of the input is followed by EOF. */
  lemma CommentSkipped(input: string, pos: nat)
    requires pos + 1 < |input| && input[pos] == '/' && input[pos + 1] == '/'
    ensures var c := ScanWhile(input, pos + 2, CommentBody);
      && (forall i :: pos + 2 <= i < c ==> input[i] != '\n')
      && (c == |input| || input[c] == '\n')
      && ScanFrom(input, pos) == if c == |input| then Scanned(EofToken, pos, c) else ScanFrom(input, c + 1)
  {
    var c := ScanWhile(input, pos + 2, CommentBody);
    assert ScanFrom(input, pos) == ScanLoop(input, pos, c);
  }

  /** `=`, `!`, `<` and `>` merge with an immediately following `=` and stand alone
      otherwise. */
  lemma OperatorMerged(input: string, pos: nat)
    requires pos < |input| && EqualsPair(input[pos]).Some?
    ensures var (single, merged) := EqualsPair(input[pos]).value;
      ScanFrom(input, pos) ==
        if pos + 1 < |input| && input[pos + 1] == '='
        then Scanned(Token(merged, [input[pos], '=']), pos, pos + 2)
        else Scanned(Token(single, [input[pos]]), pos, pos + 1)
  {
    LexemeStep(input, pos, pos);
    if pos + 1 < |input| && input[pos + 1] == '=' {
      SliceTwo(input, pos);
    } else {
      SliceOne(input, pos);
    }
  }

  lemma SliceOne(s: string, i: nat)
    requires i < |s|
    ensures s[i..i + 1] == [s[i]]
  {
  }

  lemma SliceTwo(s: string, i: nat)
    requires i + 1 < |s|
    ensures s[i..i + 2] == [s[i], s[i + 1]]
  {
  }

  /** A number is a digit followed by the longest run of digits and dots. */
  lemma NumberScanned(input: string, pos: nat)
    requires pos < |input| && IsDigit(input[pos])
    ensures var e := ScanWhile(input, pos + 1, NumberRun);
      && ScanFrom(input, pos) == Scanned(Token(Number, input[pos..e]), pos, e)
      && (forall i :: pos <= i < e ==> IsNumberChar(input[i]))
      && (e == |input| || !IsNumberChar(input[e]))
  {
  }

  /** An identifier is a letter or `_` followed by letters, digits and `_`; a lexeme that is
      one of the nine reserved words gets the reserved word's type. */
  lemma IdentifierScanned(input: string, pos: nat)
    requires pos < |input| && IsLetter(input[pos])
    ensures var e := ScanWhile(input, pos + 1, IdentifierRun);
      var lexeme := input[pos..e];
      && ScanFrom(input, pos) == Scanned(Token(IdentifierKind(lexeme), lexeme), pos, e)
      && (forall i :: pos <= i < e ==> IsIdentifierChar(input[i]))
      && (e == |input| || !IsIdentifierChar(input[e]))
      && (IdentifierKind(lexeme) == Identifier <==> lexeme !in ReservedWords)
  {
    assert !IsWhitespace(input[pos]) && input[pos] != '/';
    LexemeStep(input, pos, pos);
  }

  /** A string's literal is the text strictly between its quotes; an input that ends before
      the closing quote makes the scan fail. */
  lemma StringScanned(input: string, pos: nat)
    requires pos < |input| && input[pos] == '\''
    ensures var q := ScanWhile(input, pos + 1, StringBody);
      && (forall i :: pos + 1 <= i < q ==> input[i] != '\'')
      && ScanFrom(input, pos) ==
        if q == |input| then Failed("Syntax error: unterminated string", q)
        else Scanned(Token(String, input[pos + 1..q]), pos, q + 1)
  {
  }

  /** A character no rule of the `switch` accepts makes the scan fail. */
  lemma UnrecognizedFails(input: string, pos: nat)
    requires pos < |input|
    requires var ch := input[pos];
      Punctuator(ch).None? && EqualsPair(ch).None? && ch != '\'' && !IsWhitespace(ch)
      && ch != '/' && !IsDigit(ch) && !IsLetter(ch)
    ensures ScanFrom(input, pos) == Failed("Syntax error: unrecognized token \"" + [input[pos]] + "\"", pos + 1)
  {
  }

  /** At the end of the input a scan returns EOF with literal "\0" and does not move. */
  lemma ScanAtEnd(input: string)
    ensures ScanFrom(input, |input|) == Scanned(EofToken, |input|, |input|)
  {
  }

  /** Once a scan has returned EOF, every further scan returns EOF without moving. */
  lemma {:induction false} EofSticky(input: string, pos: nat, n: nat)
    requires pos <= |input|
    requires ScanFrom(input, pos).Scanned? && ScanFrom(input, pos).token.kind == Eof
    ensures Scans(input, pos, n + 1) == Some(|input|)
    decreases n
  {
    if n > 0 {
      ScanAtEnd(input);
      EofSticky(input, |input|, n - 1);
    }
  }

  /** What a token says about the text it was scanned from: the literal of every token
      except a string is the input text from `start` to `end`; a string's is that text
      without its quotes. */
  ghost predicate Shaped(input: string, pos: nat, r: Scan) {
    r.Scanned? && r.token.kind != Eof ==>
      && pos <= r.start < r.end <= |input|
      && (r.token.kind != String ==> r.token.literal == input[r.start..r.end])
      && (r.token.kind == String ==>
            r.start + 2 <= r.end && input[r.start] == '\'' && input[r.end - 1] == '\''
            && r.token.literal == input[r.start + 1..r.end - 1])
  }

  /** A token scanned where no whitespace or comment comes first. */
  lemma DirectShape(input: string, pos: nat)
    requires pos < |input|
    requires !IsWhitespace(input[pos]) || Punctuator(input[pos]).Some? || EqualsPair(input[pos]).Some?
    requires !(input[pos] == '/' && pos + 1 < |input| && input[pos + 1] == '/')
    ensures Shaped(input, pos, ScanFrom(input, pos))
  {
    assert !IsWhitespace(input[pos]);
    LexemeStep(input, pos, pos);
    LexemeShape(input, pos);
  }

  /** A lexeme scanned from its first character is `Shaped`. */
  lemma LexemeShape(input: string, pos: nat)
    requires pos < |input|
    ensures Shaped(input, pos, ScanLexeme(input, pos, pos))
  {
    if input[pos] == '\'' && Punctuator(input[pos]).None? && EqualsPair(input[pos]).None? {
      StringShape(input, pos);
    }
  }

  /** A string lexeme is `Shaped`: its literal is the text between its quotes. */
  lemma StringShape(input: string, pos: nat)
    requires pos < |input| && input[pos] == '\''
    ensures Shaped(input, pos, ScanStringFrom(input, pos, pos + 1))
  {
  }

  /** A comment closed by a newline is skipped with that newline. */
  lemma CommentEndsAt(input: string, pos: nat, c: nat)
    requires pos + 1 < |input| && input[pos] == '/' && input[pos + 1] == '/'
    requires c == ScanWhile(input, pos + 2, CommentBody) && c < |input|
    ensures ScanFrom(input, pos) == ScanFrom(input, c + 1)
  {
    CommentSkipped(input, pos);
  }

  /** A token `Shaped` for a later start is `Shaped` for an earlier one. */
  lemma ShapedLater(input: string, pos: nat, k: nat, r: Scan)
    requires pos <= k <= |input| && Shaped(input, k, r)
    ensures Shaped(input, pos, r)
  {
  }

  /** Every token a scan returns, after whatever whitespace and comments it skips, is
      `Shaped`. */
  lemma {:induction false} TokenShape(input: string, pos: nat)
    requires pos <= |input|
    ensures Shaped(input, pos, ScanFrom(input, pos))
    decreases |input| - pos
  {
    if pos < |input| {
      var ch := input[pos];
      if IsWhitespace(ch) && Punctuator(ch).None? && EqualsPair(ch).None? {
        TokenShape(input, pos + 1);
        ShapedLater(input, pos, pos + 1, ScanFrom(input, pos + 1));
        WhitespaceSkipped(input, pos, pos + 1);
      } else if ch == '/' && pos + 1 < |input| && input[pos + 1] == '/' {
        var c := ScanWhile(input, pos + 2, CommentBody);
        if c < |input| {
          TokenShape(input, c + 1);
          ShapedLater(input, pos, c + 1, ScanFrom(input, c + 1));
          CommentEndsAt(input, pos, c);
        } else {
          CommentSkipped(input, pos);
        }
      } else {
        DirectShape(input, pos);
      }
    }
  }

  /** The on-demand stream holds EOF at most once, as its last token; a clean stream ends
      with it and gives it again at every later position. */
  lemma {:induction false} StreamEndsInEof(input: string, pos: nat)
    requires pos <= |input|
    ensures var lx := LexFrom(input, pos);
      && (forall k | 0 <= k < |lx.tokens| - 1 :: lx.tokens[k].kind != Eof)
      && (lx.failure.Some? ==> forall k | 0 <= k < |lx.tokens| :: lx.tokens[k].kind != Eof)
      && (lx.failure.None? ==> |lx.tokens| > 0 && lx.tokens[|lx.tokens| - 1] == EofToken)
    decreases |input| - pos
  {
    match ScanFrom(input, pos)
    case Failed(_, _) =>
    case Scanned(t, _, e) =>
      if t.kind != Eof {
        StreamEndsInEof(input, e);
        var rest := LexFrom(input, e);
        assert LexFrom(input, pos).tokens == [t] + rest.tokens;
      }
  }

  /** Past the last token of a clean stream, every position gives EOF. */
  lemma EofForever(input: string, pos: nat, k: nat)
    requires pos <= |input| && LexFrom(input, pos).failure.None?
    requires k >= |LexFrom(input, pos).tokens| - 1
    ensures TokenAt(LexFrom(input, pos), k) == Ok(EofToken)
  {
    StreamEndsInEof(input, pos);
  }

  /** The token list the on-demand stream holds for a clean `scanTokens` result. */
  function WithEof(ts: seq<Token>): seq<Token> {
    if ts != [] && ts[|ts| - 1].kind == Eof then ts else ts + [EofToken]
  }

  lemma WithEofCons(t: Token, ts: seq<Token>)
    requires t.kind != Eof
    ensures WithEof([t] + ts) == [t] + WithEof(ts)
  {
    if ts != [] && ts[|ts| - 1].kind == Eof {
      assert ([t] + ts)[|[t] + ts| - 1] == ts[|ts| - 1];
    } else {
      assert [t] + (ts + [EofToken]) == ([t] + ts) + [EofToken];
    }
  }

  /** `scanTokens` and the on-demand stream agree: both fail with the same message, or the
      stream is the `scanTokens` result with an EOF appended unless it already ends in one. */
  lemma {:induction false} ScanAllIsLex(input: string, pos: nat)
    requires pos <= |input|
    ensures ScanAll(input, pos).Err? <==> LexFrom(input, pos).failure.Some?
    ensures ScanAll(input, pos).Err? ==> LexFrom(input, pos).failure.value == ScanAll(input, pos).message
    ensures ScanAll(input, pos).Ok? ==> LexFrom(input, pos).tokens == WithEof(ScanAll(input, pos).value)
    decreases |input| - pos
  {
    var r := ScanFrom(input, pos);
    if pos == |input| {
      ScanAtEnd(input);
    } else if r.Scanned? {
      var t, e := r.token, r.end;
      assert LexFrom(input, pos) == if t.kind == Eof then Lexed([t], None)
        else Lexed([t] + LexFrom(input, e).tokens, LexFrom(input, e).failure);
      assert ScanAll(input, pos) == Prepend([t], ScanAll(input, e));
      ScanAllIsLex(input, e);
      if t.kind == Eof {
        assert ScanAll(input, e) == Ok([]);
      } else if ScanAll(input, e).Ok? {
        WithEofCons(t, ScanAll(input, e).value);
      }
    }
  }

  /** One more scan after `n` scans. */
  lemma {:induction false} ScansStep(input: string, pos: nat, n: nat)
    requires pos <= |input| && Scans(input, pos, n).Some?
    ensures var p := Scans(input, pos, n).value;
      Scans(input, pos, n + 1) == match ScanFrom(input, p)
        case Failed(_, _) => None
        case Scanned(_, _, e) => Some(e)
    decreases n
  {
    if n > 0 {
      match ScanFrom(input, pos)
      case Scanned(_, _, e) => ScansStep(input, e, n - 1);
    }
  }

  /** The `k`-th call of `scanToken`, made where the scanner stands after `k` calls, yields
      token `k` of the on-demand stream, or the stream's failure. */
  lemma {:induction false} TokenAtScans(input: string, pos: nat, k: nat)
    requires pos <= |input| && Scans(input, pos, k).Some?
    ensures TokenAt(LexFrom(input, pos), k) == Outcome(ScanFrom(input, Scans(input, pos, k).value))
    decreases k
  {
    if k > 0 {
      var s := ScanFrom(input, pos);
      if s.Scanned? && s.token.kind == Eof {
        EofScans(input, pos, k);
      } else if s.Scanned? {
        LexStep(input, pos, k);
        TokenAtScans(input, s.end, k - 1);
      }
    }
  }

  /** Past EOF, the stream and the scanner both give EOF again. */
  lemma EofScans(input: string, pos: nat, k: nat)
    requires pos <= |input| && k > 0
    requires ScanFrom(input, pos).Scanned? && ScanFrom(input, pos).token.kind == Eof
    ensures Scans(input, pos, k) == Some(|input|)
    ensures TokenAt(LexFrom(input, pos), k) == Outcome(ScanFrom(input, |input|))
  {
    EofSticky(input, pos, k - 1);
    ScanAtEnd(input);
  }

  /** Past a token other than EOF, the stream and the scanner's position both move on by
      one call. */
  lemma LexStep(input: string, pos: nat, k: nat)
    requires pos <= |input| && k > 0
    requires ScanFrom(input, pos).Scanned? && ScanFrom(input, pos).token.kind != Eof
    ensures var e := ScanFrom(input, pos).end;
      && TokenAt(LexFrom(input, pos), k) == TokenAt(LexFrom(input, e), k - 1)
      && Scans(input, pos, k) == Scans(input, e, k - 1)
  {
  }
}
