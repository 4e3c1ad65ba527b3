/**
 * The lexer as main.py writes it: an object whose cursor, line and
 * column counters and token list change as its loops run. Every method is
 * proved to agree with the pure description in scan.dfy.
 */
module Lexing {
  import opened Tokens
  import opened Scan

  class Lexer {
    /** The source text with the padding space appended. */
    const code: string
    const filename: string
    var index: nat
    var line: nat
    var col: nat
    var tokens: seq<Token>

    /**
     * The buffer ends in the padding space, which no accumulating loop
     * takes, so those loops never read past the end.
     */
    ghost predicate Valid()
      reads this
    {
      |code| > 0 && code[|code| - 1] == ' ' && index <= |code|
    }

    /** The cursor made of the current counters. */
    ghost function Here(): Cursor
      reads this
    {
      Cursor(index, line, col)
    }

    constructor (source: string, filename: string)
      ensures Valid()
      ensures code == Padded(source) && this.filename == filename
      ensures index == 0 && line == 0 && tokens == []
    {
      code := source + " ";
      this.filename := filename;
      index, line, tokens := 0, 0, [];
      col := 0;
    }

    /**
     * Reset the counters and the token list, then dispatch on the character
     * under the cursor until the buffer is used up. The result depends on
     * `code` and `filename` alone, so a second call returns the same list.
     */
    method Lex() returns (r: Result<seq<Token>>)
      requires Valid()
      modifies this
      ensures Valid()
      ensures r == LexFrom(code, filename, Cursor(0, 0, 0))
      ensures r.Ok? ==> tokens == r.value && index == |code|
      ensures r.Ok? ==> Here() == EndOf(code, filename, Cursor(0, 0, 0))
    {
      index, line, col, tokens := 0, 0, 0, [];
      PrependNothing(LexFrom(code, filename, Here()));
      while index < |code|
        invariant Valid()
        invariant LexFrom(code, filename, Cursor(0, 0, 0)) == Prepend(tokens, LexFrom(code, filename, Here()))
        invariant EndOf(code, filename, Cursor(0, 0, 0)) == EndOf(code, filename, Here())
        decreases |code| - index
      {
        ghost var at := Here();
        var c := code[index];
        DispatchPicks(code, filename, at);
        if IsAlpha(c) {
          var t := GetNextWord();
          Advance(code, filename, at, tokens, [t], Here());
          tokens := tokens + [t];
        } else if IsDigit(c) {
          var t := GetNextNumber();
          Advance(code, filename, at, tokens, [t], Here());
          tokens := tokens + [t];
        } else if c == '"' {
          var s := GetNextString();
          if s.Fail? {
            Aborts(code, filename, at, s.error);
            return Fail(s.error);
          }
          Advance(code, filename, at, tokens, [s.value], Here());
          tokens := tokens + [s.value];
        } else if c == '\'' {
          Aborts(code, filename, at, NoCharScanner);
          return Fail(NoCharScanner);
        } else if c == '\n' {
          line := line + 1;
          index := index + 1;
          col := 0;
          assert Here() == Cursor(at.index + 1, at.line + 1, 0);
          Advance(code, filename, at, tokens, [], Here());
          assert tokens + [] == tokens;
        } else if IsSpace(c) {
          index := index + 1;
          assert Here() == Cursor(at.index + 1, at.line, at.col);
          Advance(code, filename, at, tokens, [], Here());
          assert tokens + [] == tokens;
        } else {
          var t := GetNextSymbol();
          Advance(code, filename, at, tokens, [t], Here());
          tokens := tokens + [t];
        }
      }
      assert tokens + [] == tokens;
      r := Ok(tokens);
    }

    /** Take the maximal run of letters, digits and underscores under the cursor. */
    method GetNextWord() returns (t: Token)
      requires Valid() && index < |code|
      requires IsAlpha(code[index])
      modifies this`index, this`col
      ensures Valid()
      ensures Step([t], Here()) == ScanRun(code, filename, Word, old(Here()))
      ensures t.kind == Id && t.text == code[old(index)..index] && |t.text| > 0
      ensures !Continues(Word, code[index])
    {
      var acc := "";
      while IsAlpha(code[index]) || IsDigit(code[index])
        invariant Valid() && old(index) <= index < |code|
        invariant acc == code[old(index)..index]
        invariant col == old(col) + |acc|
        invariant forall k :: old(index) <= k < index ==> Continues(Word, code[k])
        decreases |code| - index
      {
        acc := acc + [code[index]];
        index := index + 1;
        col := col + 1;
      }
      t := Token(Id, acc, index - |acc|, line, col, filename);
    }

    /**
     * Take the maximal run of characters that are neither letters, digits,
     * underscores nor whitespace; it is a Symbol token only when it equals a
     * listed symbol, and an Id token otherwise.
     */
    method GetNextSymbol() returns (t: Token)
      requires Valid() && index < |code|
      requires !(IsAlpha(code[index]) || IsDigit(code[index]) || IsSpace(code[index]))
      modifies this`index, this`col
      ensures Valid()
      ensures Step([t], Here()) == ScanRun(code, filename, Punct, old(Here()))
      ensures t.text == code[old(index)..index] && |t.text| > 0
      ensures t.kind == (if t.text in Symbols then Symbol else Id)
      ensures !Continues(Punct, code[index])
    {
      var acc := "";
      while !(IsAlpha(code[index]) || IsDigit(code[index]) || IsSpace(code[index]))
        invariant Valid() && old(index) <= index < |code|
        invariant acc == code[old(index)..index]
        invariant col == old(col) + |acc|
        invariant forall k :: old(index) <= k < index ==> Continues(Punct, code[k])
        decreases |code| - index
      {
        acc := acc + [code[index]];
        index := index + 1;
        col := col + 1;
      }
      if acc in Symbols {
        t := Token(Symbol, acc, index - |acc|, line, col, filename);
      } else {
        t := Token(Id, acc, index - |acc|, line, col, filename);
      }
    }

    /**
     * Take the maximal run of digits and dots under the cursor; it is a Float
     * token when it holds a dot and an Int token otherwise.
     */
    method GetNextNumber() returns (t: Token)
      requires Valid() && index < |code|
      requires IsDigit(code[index])
      modifies this`index, this`col
      ensures Valid()
      ensures Step([t], Here()) == ScanRun(code, filename, Number, old(Here()))
      ensures t.text == code[old(index)..index] && |t.text| > 0
      ensures t.kind == (if '.' in t.text then Float else Int)
      ensures !Continues(Number, code[index])
    {
      var acc := "";
      while IsDigit(code[index]) || code[index] == '.'
        invariant Valid() && old(index) <= index < |code|
        invariant acc == code[old(index)..index]
        invariant col == old(col) + |acc|
        invariant forall k :: old(index) <= k < index ==> Continues(Number, code[k])
        decreases |code| - index
      {
        acc := acc + [code[index]];
        index := index + 1;
        col := col + 1;
      }
      if '.' in acc {
        t := Token(Float, acc, index - |acc|, line, col, filename);
      } else {
        t := Token(Int, acc, index - |acc|, line, col, filename);
      }
    }

    /**
     * Step over the opening quote and take every character up to the next
     * quote, then step over that one too. After each character taken, the
     * next one is checked for a newline; reading past the buffer aborts.
     */
    method GetNextString() returns (r: Result<Token>)
      requires Valid() && index < |code|
      requires code[index] == '"'
      modifies this`index, this`col
      ensures Valid()
      ensures r.Ok? ==> ScanString(code, filename, old(Here())) == Ok(Step([r.value], Here()))
      ensures r.Fail? ==> ScanString(code, filename, old(Here())) == Fail(r.error)
    {
      ghost var start := Here();
      ghost var open := index;
      var acc := "";
      index := index + 1;
      while true
        invariant Valid() && open < index
        invariant acc == code[open + 1..index]
        invariant col == old(col) + |acc|
        invariant forall k :: open < k < index ==> code[k] != '"'
        invariant forall k :: open + 2 <= k <= index && k < |code| ==> code[k] != '\n'
        decreases |code| - index
      {
        if index == |code| {
          StringRunsOut(code, filename, start);
          return Fail(ReadPastEnd);
        }
        if code[index] == '"' {
          break;
        }
        acc := acc + [code[index]];
        index := index + 1;
        col := col + 1;
        if index == |code| {
          StringRunsOut(code, filename, start);
          return Fail(ReadPastEnd);
        }
        if code[index] == '\n' {
          StringBroken(code, filename, start, index);
          return Fail(UnmatchedQuote);
        }
      }
      StringClosed(code, filename, start, index);
      index := index + 1;
      col := col + 1;
      r := Ok(Token(Str, acc, index - |acc| - 2, line, col, filename));
    }
  }

  /**
   * A quote with no quote or misplaced newline before it closes the string,
   * and the scan yields the characters between the quotes.
   */
  lemma StringClosed(code: string, filename: string, at: Cursor, close: nat)
    requires at.index < close < |code| && code[at.index] == '"' && code[close] == '"'
    requires forall k :: at.index < k < close ==> code[k] != '"'
    requires forall k :: at.index + 2 <= k < close ==> code[k] != '\n'
    ensures var text := code[at.index + 1..close];
      var col := at.col + |text| + 1;
      ScanString(code, filename, at) == Ok(Step([Token(Str, text, at.index, at.line, col, filename)], Cursor(close + 1, at.line, col)))
  {
    assert Find(code, at.index + 1, '"') == close;
  }

  /** With no closing quote and no misplaced newline, the string loop reads past the end. */
  lemma StringRunsOut(code: string, filename: string, at: Cursor)
    requires at.index < |code| && code[at.index] == '"'
    requires forall k :: at.index < k < |code| ==> code[k] != '"'
    requires forall k :: at.index + 2 <= k < |code| ==> code[k] != '\n'
    ensures ScanString(code, filename, at) == Fail(ReadPastEnd)
  {
    assert Find(code, at.index + 1, '"') == |code|;
  }

  /** A newline after content and before any closing quote aborts the string. */
  lemma StringBroken(code: string, filename: string, at: Cursor, q: nat)
    requires at.index + 2 <= q < |code| && code[at.index] == '"' && code[q] == '\n'
    requires forall k :: at.index < k < q ==> code[k] != '"'
    ensures ScanString(code, filename, at) == Fail(UnmatchedQuote)
  {
  }

  /**
   * Running `lex` twice on one lexer gives the same outcome: it resets its
   * counters and token list before it starts.
   */
  method RelexIsStable(lexer: Lexer) returns (first: Result<seq<Token>>, second: Result<seq<Token>>)
    requires lexer.Valid()
    modifies lexer
    ensures first == second
  {
    first := lexer.Lex();
    second := lexer.Lex();
  }

  /**
   * A successful dispatch step from `at` to `next` hands the rest of the
   * scan to `next`: the tokens gathered so far grow by what the step emits.
   */
  lemma Advance(code: string, filename: string, at: Cursor, before: seq<Token>, emitted: seq<Token>, next: Cursor)
    requires at.index < |code| && next.index <= |code|
    requires Dispatch(code, filename, at) == Ok(Step(emitted, next))
    ensures Prepend(before, LexFrom(code, filename, at)) == Prepend(before + emitted, LexFrom(code, filename, next))
    ensures EndOf(code, filename, at) == EndOf(code, filename, next)
  {
    PrependAppend(before, emitted, LexFrom(code, filename, next));
  }

  /** Which scan a dispatch step runs, by the character under the cursor. */
  lemma DispatchPicks(code: string, filename: string, at: Cursor)
    requires at.index < |code|
    ensures var c := code[at.index];
      var r := Dispatch(code, filename, at);
      (IsAlpha(c) ==> r == Ok(ScanRun(code, filename, Word, at))) &&
      (IsDigit(c) ==> r == Ok(ScanRun(code, filename, Number, at))) &&
      (c == '"' ==> r == ScanString(code, filename, at)) &&
      (c == '\'' ==> r == Fail(NoCharScanner)) &&
      (c == '\n' ==> r == Ok(Step([], Cursor(at.index + 1, at.line + 1, 0)))) &&
      (IsSpace(c) && c != '\n' ==> r == Ok(Step([], Cursor(at.index + 1, at.line, at.col)))) &&
      (!IsAlpha(c) && !IsDigit(c) && !IsSpace(c) && c != '"' && c != '\'' ==> r == Ok(ScanRun(code, filename, Punct, at)))
  {
  }

  /** A dispatch step from `at` that aborts makes the whole scan abort with its error. */
  lemma Aborts(code: string, filename: string, at: Cursor, e: Error)
    requires at.index < |code|
    requires Dispatch(code, filename, at) == Fail(e)
    ensures LexFrom(code, filename, at) == Fail(e)
  {
  }

  /** Appending `ts` then `us` in front of a result is appending `ts + us`. */
  lemma PrependAppend(ts: seq<Token>, us: seq<Token>, rest: Result<seq<Token>>)
    ensures Prepend(ts, Prepend(us, rest)) == Prepend(ts + us, rest)
  {
    if rest.Ok? {
      assert ts + (us + rest.value) == (ts + us) + rest.value;
    }
  }

  lemma PrependNothing(rest: Result<seq<Token>>)
    ensures Prepend([], rest) == rest
  {
    if rest.Ok? {
      assert [] + rest.value == rest.value;
    }
  }

  /** The driver object: it lexes its program under the fixed label "main.dl". */
  class Interpreter {
    const code: string

    constructor (code: string)
      ensures this.code == code
    {
      this.code := code;
    }

    method Parse() returns (r: Result<seq<Token>>)
      ensures r == Lex(code, "main.dl")
    {
      var lexer := new Lexer(code, "main.dl");
      r := lexer.Lex();
    }
  }
}
