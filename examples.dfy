/**
 * Concrete runs of the lexer, each pinning down one rule or quirk of
 * main.py: how tokens are classified, where their positions point, and
 * which inputs abort. Each run is traced from the end of the buffer back
 * to its start, one dispatch step at a time.
 */
module ScanExamples {
  import opened Tokens
  import opened Scan

  /** A whitespace step emits nothing. */
  lemma Skip(code: string, f: string, at: Cursor, next: Cursor)
    requires at.index < |code| && IsSpace(code[at.index])
    requires Dispatch(code, f, at).value.next == next
    ensures LexFrom(code, f, at) == LexFrom(code, f, next)
  {
    var step := Dispatch(code, f, at).value;
    match LexFrom(code, f, next)
    case Ok(ts) => assert step.emitted + ts == ts;
    case Fail(_) =>
  }

  /** A token step puts its token in front of what follows. */
  lemma Emit(code: string, f: string, at: Cursor, t: Token, next: Cursor, rest: seq<Token>)
    requires at.index < |code| && Dispatch(code, f, at) == Ok(Step([t], next))
    requires next.index <= |code| && LexFrom(code, f, next) == Ok(rest)
    ensures LexFrom(code, f, at) == Ok([t] + rest)
    ensures rest == [] ==> LexFrom(code, f, at) == Ok([t])
  {
    assert [t] + [] == [t];
  }

  /** A token step in front of a failure fails the same way. */
  lemma EmitThenFail(code: string, f: string, at: Cursor, t: Token, next: Cursor, e: Error)
    requires at.index < |code| && Dispatch(code, f, at) == Ok(Step([t], next))
    requires next.index <= |code| && LexFrom(code, f, next) == Fail(e)
    ensures LexFrom(code, f, at) == Fail(e)
  {
  }

  /** Empty source: only the padding space is read. */
  lemma EmptySource(f: string)
    ensures Lex("", f) == Ok([])
  {
    var code := Padded("");
    assert code == " ";
    Skip(code, f, Cursor(0, 0, 0), Cursor(1, 0, 0));
  }

  /**
   * `a = 1`: an identifier, the listed symbol and an integer. Columns are
   * taken after each token, and the spaces between them add nothing.
   */
  lemma Assignment(f: string)
    ensures Lex("a = 1", f) == Ok([Token(Id, "a", 0, 0, 1, f), Token(Symbol, "=", 2, 0, 2, f), Token(Int, "1", 4, 0, 3, f)])
  {
    var code := Padded("a = 1");
    assert code == "a = 1 ";
    Skip(code, f, Cursor(5, 0, 3), Cursor(6, 0, 3));
    assert RunEnd(code, 4, Number) == 5 && code[4..5] == "1";
    Emit(code, f, Cursor(4, 0, 2), Token(Int, "1", 4, 0, 3, f), Cursor(5, 0, 3), []);
    Skip(code, f, Cursor(3, 0, 2), Cursor(4, 0, 2));
    assert RunEnd(code, 2, Punct) == 3 && code[2..3] == "=";
    Emit(code, f, Cursor(2, 0, 1), Token(Symbol, "=", 2, 0, 2, f), Cursor(3, 0, 2), [Token(Int, "1", 4, 0, 3, f)]);
    assert [Token(Symbol, "=", 2, 0, 2, f)] + [Token(Int, "1", 4, 0, 3, f)] == [Token(Symbol, "=", 2, 0, 2, f), Token(Int, "1", 4, 0, 3, f)];
    Skip(code, f, Cursor(1, 0, 1), Cursor(2, 0, 1));
    assert RunEnd(code, 0, Word) == 1 && code[0..1] == "a";
    Emit(code, f, Cursor(0, 0, 0), Token(Id, "a", 0, 0, 1, f), Cursor(1, 0, 1), [Token(Symbol, "=", 2, 0, 2, f), Token(Int, "1", 4, 0, 3, f)]);
    assert [Token(Id, "a", 0, 0, 1, f)] + [Token(Symbol, "=", 2, 0, 2, f), Token(Int, "1", 4, 0, 3, f)]
      == [Token(Id, "a", 0, 0, 1, f), Token(Symbol, "=", 2, 0, 2, f), Token(Int, "1", 4, 0, 3, f)];
  }

  /** A newline moves to the next line and resets the column. */
  lemma TwoLines(f: string)
    ensures Lex("a\nb", f) == Ok([Token(Id, "a", 0, 0, 1, f), Token(Id, "b", 2, 1, 1, f)])
  {
    var code := Padded("a\nb");
    assert code == "a\nb ";
    Skip(code, f, Cursor(3, 1, 1), Cursor(4, 1, 1));
    assert RunEnd(code, 2, Word) == 3 && code[2..3] == "b";
    Emit(code, f, Cursor(2, 1, 0), Token(Id, "b", 2, 1, 1, f), Cursor(3, 1, 1), []);
    Skip(code, f, Cursor(1, 0, 1), Cursor(2, 1, 0));
    assert RunEnd(code, 0, Word) == 1 && code[0..1] == "a";
    Emit(code, f, Cursor(0, 0, 0), Token(Id, "a", 0, 0, 1, f), Cursor(1, 0, 1), [Token(Id, "b", 2, 1, 1, f)]);
    assert [Token(Id, "a", 0, 0, 1, f)] + [Token(Id, "b", 2, 1, 1, f)] == [Token(Id, "a", 0, 0, 1, f), Token(Id, "b", 2, 1, 1, f)];
  }

  /** A punctuation run that is not a listed symbol becomes an identifier. */
  lemma DoubleEqualsIsIdentifier(f: string)
    ensures Lex("==", f) == Ok([Token(Id, "==", 0, 0, 2, f)])
  {
    var code := Padded("==");
    assert code == "== ";
    Skip(code, f, Cursor(2, 0, 2), Cursor(3, 0, 2));
    assert RunEnd(code, 0, Punct) == 2 && code[0..2] == "==";
    assert "==" !in Symbols;
    Emit(code, f, Cursor(0, 0, 0), Token(Id, "==", 0, 0, 2, f), Cursor(2, 0, 2), []);
  }

  /** Any dot makes a number a float; malformed numbers are accepted as they are. */
  lemma Numbers(f: string)
    ensures Lex("12", f) == Ok([Token(Int, "12", 0, 0, 2, f)])
    ensures Lex("1.", f) == Ok([Token(Float, "1.", 0, 0, 2, f)])
    ensures Lex("1.2.3", f) == Ok([Token(Float, "1.2.3", 0, 0, 5, f)])
  {
    var code := Padded("12");
    assert code == "12 ";
    Skip(code, f, Cursor(2, 0, 2), Cursor(3, 0, 2));
    assert RunEnd(code, 0, Number) == 2 && code[0..2] == "12";
    assert '.' !in "12";
    Emit(code, f, Cursor(0, 0, 0), Token(Int, "12", 0, 0, 2, f), Cursor(2, 0, 2), []);

    code := Padded("1.");
    assert code == "1. ";
    Skip(code, f, Cursor(2, 0, 2), Cursor(3, 0, 2));
    assert RunEnd(code, 0, Number) == 2 && code[0..2] == "1.";
    Emit(code, f, Cursor(0, 0, 0), Token(Float, "1.", 0, 0, 2, f), Cursor(2, 0, 2), []);

    code := Padded("1.2.3");
    assert code == "1.2.3 ";
    Skip(code, f, Cursor(5, 0, 5), Cursor(6, 0, 5));
    assert RunEnd(code, 0, Number) == 5 && code[0..5] == "1.2.3";
    Emit(code, f, Cursor(0, 0, 0), Token(Float, "1.2.3", 0, 0, 5, f), Cursor(5, 0, 5), []);
  }

  /** A digit run followed by letters splits into a number and a word. */
  lemma NumberThenWord(f: string)
    ensures Lex("1ab", f) == Ok([Token(Int, "1", 0, 0, 1, f), Token(Id, "ab", 1, 0, 3, f)])
  {
    var code := Padded("1ab");
    assert code == "1ab ";
    Skip(code, f, Cursor(3, 0, 3), Cursor(4, 0, 3));
    assert RunEnd(code, 1, Word) == 3 && code[1..3] == "ab";
    Emit(code, f, Cursor(1, 0, 1), Token(Id, "ab", 1, 0, 3, f), Cursor(3, 0, 3), []);
    assert RunEnd(code, 0, Number) == 1 && code[0..1] == "1";
    assert '.' !in "1";
    Emit(code, f, Cursor(0, 0, 0), Token(Int, "1", 0, 0, 1, f), Cursor(1, 0, 1), [Token(Id, "ab", 1, 0, 3, f)]);
    assert [Token(Int, "1", 0, 0, 1, f)] + [Token(Id, "ab", 1, 0, 3, f)] == [Token(Int, "1", 0, 0, 1, f), Token(Id, "ab", 1, 0, 3, f)];
  }

  /** Quotes are stripped; the opening quote adds no column, the closing one does. */
  lemma QuotedString(f: string)
    ensures Lex("\"hello\"", f) == Ok([Token(Str, "hello", 0, 0, 6, f)])
    ensures Lex("\"\"", f) == Ok([Token(Str, "", 0, 0, 1, f)])
  {
    var code := Padded("\"hello\"");
    assert code == "\"hello\" ";
    Skip(code, f, Cursor(7, 0, 6), Cursor(8, 0, 6));
    assert Find(code, 1, '"') == 6 && Find(code, 2, '\n') == 8 && code[1..6] == "hello";
    Emit(code, f, Cursor(0, 0, 0), Token(Str, "hello", 0, 0, 6, f), Cursor(7, 0, 6), []);

    code := Padded("\"\"");
    assert code == "\"\" ";
    Skip(code, f, Cursor(2, 0, 1), Cursor(3, 0, 1));
    assert Find(code, 1, '"') == 1 && Find(code, 2, '\n') == 3 && code[1..1] == "";
    Emit(code, f, Cursor(0, 0, 0), Token(Str, "", 0, 0, 1, f), Cursor(2, 0, 1), []);
  }

  /** A newline right after the opening quote is kept as content and not counted as a line. */
  lemma LeadingNewlineInString(f: string)
    ensures Lex("\"\nab\"", f) == Ok([Token(Str, "\nab", 0, 0, 4, f)])
  {
    var code := Padded("\"\nab\"");
    assert code == "\"\nab\" ";
    Skip(code, f, Cursor(5, 0, 4), Cursor(6, 0, 4));
    assert Find(code, 1, '"') == 4 && Find(code, 2, '\n') == 6 && code[1..4] == "\nab";
    Emit(code, f, Cursor(0, 0, 0), Token(Str, "\nab", 0, 0, 4, f), Cursor(5, 0, 4), []);
  }

  /** A newline after string content aborts. */
  lemma NewlineInString(f: string)
    ensures Lex("\"ab\ncd\"", f) == Fail(UnmatchedQuote)
  {
    var code := Padded("\"ab\ncd\"");
    assert code == "\"ab\ncd\" ";
    assert Find(code, 1, '"') == 6 && Find(code, 2, '\n') == 3;
  }

  /** A string without its closing quote reads past the buffer. */
  lemma UnclosedString(f: string)
    ensures Lex("\"abc", f) == Fail(ReadPastEnd)
  {
    var code := Padded("\"abc");
    assert code == "\"abc ";
    assert Find(code, 1, '"') == 5 && Find(code, 2, '\n') == 5;
  }

  /** A single quote at a dispatch position aborts. */
  lemma SingleQuote(f: string)
    ensures Lex("'a'", f) == Fail(NoCharScanner)
  {
    var code := Padded("'a'");
    assert code == "'a' ";
  }

  /**
   * A punctuation run swallows a following quote, so the string's closing
   * quote is read as an opening one and the scan reads past the buffer.
   */
  lemma PunctuationSwallowsQuote(f: string)
    ensures Lex("(\"a\")", f) == Fail(ReadPastEnd)
  {
    var code := Padded("(\"a\")");
    assert code == "(\"a\") ";
    assert Find(code, 4, '"') == 6 && Find(code, 5, '\n') == 6;
    assert LexFrom(code, f, Cursor(3, 0, 3)) == Fail(ReadPastEnd);
    assert RunEnd(code, 2, Word) == 3 && code[2..3] == "a";
    EmitThenFail(code, f, Cursor(2, 0, 2), Token(Id, "a", 2, 0, 3, f), Cursor(3, 0, 3), ReadPastEnd);
    assert RunEnd(code, 0, Punct) == 2 && code[0..2] == "(\"";
    EmitThenFail(code, f, Cursor(0, 0, 0), Token(Id, "(\"", 0, 0, 2, f), Cursor(2, 0, 2), ReadPastEnd);
  }
}
