/**
 * What the token list returned by the lexer says about its input: blank
 * input gives no tokens, every token is an exact, maximal piece of the
 * buffer with the kind its text calls for, tokens come in order without
 * overlapping, and on input without quotes the tokens spell the input with
 * its whitespace removed and carry the line and column the counters imply.
 */
module ScanProperties {
  import opened Tokens
  import opened Scan

  // ---------------------------------------------------------------------
  // Blank input

  /** From a cursor followed only by whitespace, nothing more is emitted. */
  lemma {:induction false} BlankRestGivesNothing(code: string, filename: string, at: Cursor)
    requires at.index <= |code|
    requires forall k :: at.index <= k < |code| ==> IsSpace(code[k])
    ensures LexFrom(code, filename, at) == Ok([])
    decreases |code| - at.index
  {
    if at.index < |code| {
      assert IsSpace(code[at.index]);
      var step := Dispatch(code, filename, at).value;
      BlankRestGivesNothing(code, filename, step.next);
      assert LexFrom(code, filename, at) == Ok(step.emitted + []);
      assert step.emitted + [] == [];
    }
  }

  /** Empty or whitespace-only source yields an empty token list. */
  lemma BlankSourceGivesNothing(source: string, filename: string)
    requires forall k :: 0 <= k < |source| ==> IsSpace(source[k])
    ensures Lex(source, filename) == Ok([])
  {
    BlankRestGivesNothing(Padded(source), filename, Cursor(0, 0, 0));
  }

  // ---------------------------------------------------------------------
  // Each token against the buffer

  /** The scan a non-string token came from, told by its first character. */
  function RunOf(c: char): Run {
    if IsAlpha(c) then Word else if IsDigit(c) then Number else Punct
  }

  /**
   * A word, number or punctuation token is the maximal run of its scan's
   * characters at its offset; a word is an Id, a number is a Float exactly
   * when it holds a dot, and punctuation is a Symbol exactly when it is a
   * listed symbol. A token is a string exactly when its offset holds a
   * double quote; a string token sits between two quotes at its offset,
   * holds no quote, and holds a newline at most as its first character.
   */
  ghost predicate Faithful(code: string, filename: string, t: Token) {
    t.filename == filename &&
    0 <= t.index && t.index + Width(t) <= |code| && t.index < |code| &&
    // a token is a string exactly when it starts at a double quote
    (t.kind == Str <==> code[t.index] == '"') &&
    if t.kind == Str then
      code[t.index] == '"' && code[t.index + 1 + |t.text|] == '"' &&
      code[t.index + 1..t.index + 1 + |t.text|] == t.text &&
      (forall k :: 0 <= k < |t.text| ==> t.text[k] != '"') &&
      (forall k :: 1 <= k < |t.text| ==> t.text[k] != '\n')
    else
      |t.text| > 0 &&
      var r := RunOf(t.text[0]);
      code[t.index..t.index + |t.text|] == t.text &&
      (forall k :: 0 <= k < |t.text| ==> Continues(r, t.text[k])) &&
      (t.index + |t.text| < |code| ==> !Continues(r, code[t.index + |t.text|])) &&
      (r == Word ==> t.kind == Id) &&
      (r == Number ==> (t.kind == Float || t.kind == Int) && (t.kind == Float <==> '.' in t.text)) &&
      (r == Punct ==> (t.kind == Symbol || t.kind == Id) && (t.kind == Symbol <==> t.text in Symbols))
  }

  /** The token a successful dispatch step emits is faithful to the buffer. */
  lemma StepFaithful(code: string, filename: string, at: Cursor)
    requires at.index < |code|
    requires Dispatch(code, filename, at).Ok?
    ensures forall t :: t in Dispatch(code, filename, at).value.emitted ==> Faithful(code, filename, t)
  {
    var c := code[at.index];
    if c == '"' {
      StringFaithful(code, filename, at);
    } else if !IsSpace(c) {
      RunFaithful(code, filename, at);
    }
  }

  /** The token of a word, number or punctuation step is faithful to the buffer. */
  lemma RunFaithful(code: string, filename: string, at: Cursor)
    requires at.index < |code| && !IsSpace(code[at.index])
    requires code[at.index] != '"' && code[at.index] != '\''
    ensures Dispatch(code, filename, at).Ok?
    ensures var step := Dispatch(code, filename, at).value;
      |step.emitted| == 1 && Faithful(code, filename, step.emitted[0])
  {
    var c := code[at.index];
    var step := Dispatch(code, filename, at).value;
    var r := RunOf(c);
    var j := RunEnd(code, at.index, r);
    assert Continues(r, c) && at.index < j;
    assert step == ScanRun(code, filename, r, at);
    var t := step.emitted[0];
    assert t.text == code[at.index..j] && t.text[0] == c && RunOf(t.text[0]) == r;
  }

  /** The token of a successful string step is faithful to the buffer. */
  lemma StringFaithful(code: string, filename: string, at: Cursor)
    requires at.index < |code| && code[at.index] == '"'
    requires Dispatch(code, filename, at).Ok?
    ensures var step := Dispatch(code, filename, at).value;
      |step.emitted| == 1 && Faithful(code, filename, step.emitted[0])
  {
    var step := Dispatch(code, filename, at).value;
    var close := StringEnd(code, at.index).value;
    assert step.emitted == [Token(Str, code[at.index + 1..close], at.index, at.line, step.next.col, filename)];
  }

  /** Every token of a successful lex from `at` is faithful to the buffer. */
  lemma {:induction false} AllFaithful(code: string, filename: string, at: Cursor)
    requires at.index <= |code|
    requires LexFrom(code, filename, at).Ok?
    ensures forall t :: t in LexFrom(code, filename, at).value ==> Faithful(code, filename, t)
    decreases |code| - at.index
  {
    if at.index < |code| {
      var step := Dispatch(code, filename, at).value;
      StepFaithful(code, filename, at);
      AllFaithful(code, filename, step.next);
      assert LexFrom(code, filename, at).value == step.emitted + LexFrom(code, filename, step.next).value;
    }
  }

  /** Every token `Lex` returns is faithful to the padded source. */
  lemma LexFaithful(source: string, filename: string)
    requires Lex(source, filename).Ok?
    ensures forall t :: t in Lex(source, filename).value ==> Faithful(Padded(source), filename, t)
  {
    AllFaithful(Padded(source), filename, Cursor(0, 0, 0));
  }

  // ---------------------------------------------------------------------
  // Order

  /**
   * The tokens from `at` start at or after it, stay inside the buffer, and
   * each one ends at or before the next one starts; since every token covers
   * at least one character, their offsets strictly increase.
   */
  lemma {:induction false} InOrder(code: string, filename: string, at: Cursor)
    requires at.index <= |code|
    requires LexFrom(code, filename, at).Ok?
    ensures var ts := LexFrom(code, filename, at).value;
      (forall i :: 0 <= i < |ts| ==> at.index <= ts[i].index && 0 < Width(ts[i]) && ts[i].index + Width(ts[i]) <= |code|) &&
      (forall i, j :: 0 <= i < j < |ts| ==> ts[i].index + Width(ts[i]) <= ts[j].index && ts[i].index < ts[j].index)
    decreases |code| - at.index
  {
    if at.index < |code| {
      var step := Dispatch(code, filename, at).value;
      InOrder(code, filename, step.next);
      var rest := LexFrom(code, filename, step.next).value;
      var ts := LexFrom(code, filename, at).value;
      assert ts == step.emitted + rest;
      if step.emitted != [] {
        var t := step.emitted[0];
        assert ts[0] == t && ts[1..] == rest;
        assert t.kind == Str || |t.text| > 0 by {
          StepFaithful(code, filename, at);
        }
      }
    }
  }

  // ---------------------------------------------------------------------
  // Coverage of quote-free input

  /** The characters of `s` that are not whitespace, in order. */
  function Unblank(s: string): (r: string)
    ensures |r| <= |s|
    ensures forall k :: 0 <= k < |r| ==> !IsSpace(r[k])
  {
    if s == [] then [] else (if IsSpace(s[0]) then [] else [s[0]]) + Unblank(s[1..])
  }

  /** The texts of `ts`, one after another. */
  function Texts(ts: seq<Token>): string {
    if ts == [] then [] else ts[0].text + Texts(ts[1..])
  }

  lemma {:induction false} UnblankAppend(a: string, b: string)
    ensures Unblank(a + b) == Unblank(a) + Unblank(b)
  {
    if a == [] {
      assert a + b == b;
    } else {
      assert (a + b)[0] == a[0] && (a + b)[1..] == a[1..] + b;
      UnblankAppend(a[1..], b);
    }
  }

  lemma {:induction false} UnblankSolid(s: string)
    requires forall k :: 0 <= k < |s| ==> !IsSpace(s[k])
    ensures Unblank(s) == s
  {
    if s != [] {
      UnblankSolid(s[1..]);
    }
  }

  /** No character of a word, number or punctuation run is whitespace. */
  lemma RunIsSolid(r: Run, c: char)
    requires Continues(r, c)
    ensures !IsSpace(c)
  {
  }

  lemma {:induction false} TextsAppend(ts: seq<Token>, us: seq<Token>)
    ensures Texts(ts + us) == Texts(ts) + Texts(us)
  {
    if ts == [] {
      assert ts + us == us;
    } else {
      assert (ts + us)[0] == ts[0] && (ts + us)[1..] == ts[1..] + us;
      TextsAppend(ts[1..], us);
    }
  }

  /**
   * A dispatch step on a character that is not a quote succeeds, and what
   * it emits spells the characters it stepped over, whitespace removed.
   */
  lemma StepCovers(code: string, filename: string, at: Cursor)
    requires at.index < |code| && code[at.index] != '"' && code[at.index] != '\''
    ensures Dispatch(code, filename, at).Ok?
    ensures var step := Dispatch(code, filename, at).value;
      Texts(step.emitted) == Unblank(code[at.index..step.next.index])
  {
    var i := at.index;
    var step := Dispatch(code, filename, at).value;
    var j := step.next.index;
    if IsSpace(code[i]) {
      assert code[i..j] == [code[i]];
    } else {
      var t := step.emitted[0];
      assert t.text == code[i..j];
      forall k | 0 <= k < |t.text|
        ensures !IsSpace(t.text[k])
      {
        assert t.text[k] == code[i + k];
        RunIsSolid(RunOf(code[i]), code[i + k]);
      }
      UnblankSolid(t.text);
      assert step.emitted[1..] == [];
    }
  }

  /**
   * On a buffer with no quote of either kind from `at` on, lexing cannot
   * fail, and the token texts spell the rest of the buffer with its
   * whitespace removed.
   */
  lemma {:induction false} CoversFrom(code: string, filename: string, at: Cursor)
    requires at.index <= |code|
    requires forall k :: at.index <= k < |code| ==> code[k] != '"' && code[k] != '\''
    ensures LexFrom(code, filename, at).Ok?
    ensures Texts(LexFrom(code, filename, at).value) == Unblank(code[at.index..])
    decreases |code| - at.index
  {
    if at.index < |code| {
      StepCovers(code, filename, at);
      CoversFrom(code, filename, Dispatch(code, filename, at).value.next);
      CoversJoin(code, filename, at);
    }
  }

  lemma SplitAt(s: string, i: nat, j: nat)
    requires i <= j <= |s|
    ensures s[i..j] + s[j..] == s[i..]
  {
  }

  /** A covering step followed by a covering rest covers the buffer from `at`. */
  lemma CoversJoin(code: string, filename: string, at: Cursor)
    requires at.index < |code| && code[at.index] != '"' && code[at.index] != '\''
    requires var step := Dispatch(code, filename, at);
      step.Ok? && Texts(step.value.emitted) == Unblank(code[at.index..step.value.next.index]) &&
      LexFrom(code, filename, step.value.next).Ok? &&
      Texts(LexFrom(code, filename, step.value.next).value) == Unblank(code[step.value.next.index..])
    ensures LexFrom(code, filename, at).Ok?
    ensures Texts(LexFrom(code, filename, at).value) == Unblank(code[at.index..])
  {
    var i := at.index;
    var step := Dispatch(code, filename, at).value;
    var j := step.next.index;
    var rest := LexFrom(code, filename, step.next).value;
    LexFromStep(code, filename, at);
    calc {
      Texts(LexFrom(code, filename, at).value);
      Texts(step.emitted + rest);
      { TextsAppend(step.emitted, rest); }
      Texts(step.emitted) + Texts(rest);
      Unblank(code[i..j]) + Unblank(code[j..]);
      { UnblankAppend(code[i..j], code[j..]); }
      Unblank(code[i..j] + code[j..]);
      { SplitAt(code, i, j); }
      Unblank(code[i..]);
    }
  }

  /**
   * On source with no quote of either kind, `Lex` succeeds and the token
   * texts spell the source with its whitespace removed.
   */
  lemma CoversSource(source: string, filename: string)
    requires forall k :: 0 <= k < |source| ==> source[k] != '"' && source[k] != '\''
    ensures Lex(source, filename).Ok?
    ensures Texts(Lex(source, filename).value) == Unblank(source)
  {
    var code := Padded(source);
    PaddedQuoteFree(source);
    CoversFrom(code, filename, Cursor(0, 0, 0));
    UnblankPadded(source);
  }

  /** Padding a quote-free source keeps it quote-free. */
  lemma PaddedQuoteFree(source: string)
    requires forall k :: 0 <= k < |source| ==> source[k] != '"' && source[k] != '\''
    ensures forall k :: 0 <= k < |Padded(source)| ==> Padded(source)[k] != '"' && Padded(source)[k] != '\''
  {
  }

  /** The padding space adds nothing once whitespace is removed. */
  lemma UnblankPadded(source: string)
    ensures Unblank(Padded(source)[0..]) == Unblank(source)
  {
    assert Padded(source)[0..] == source + " ";
    UnblankAppend(source, " ");
    assert Unblank(" ") == [];
    assert Unblank(source) + [] == Unblank(source);
  }

  // ---------------------------------------------------------------------
  // Line and column on quote-free input

  /** The number of newlines in `s`. */
  function Newlines(s: string): nat {
    if s == [] then 0 else Newlines(s[..|s| - 1]) + if s[|s| - 1] == '\n' then 1 else 0
  }

  /**
   * The column counter after reading `s` from the start: reset by a
   * newline, unchanged by other whitespace, one up for anything else.
   */
  function Column(s: string): nat {
    if s == [] then 0
    else if s[|s| - 1] == '\n' then 0
    else Column(s[..|s| - 1]) + if IsSpace(s[|s| - 1]) then 0 else 1
  }

  /** A run with no whitespace adds no line and one column per character. */
  lemma {:induction false} SolidCounters(code: string, i: nat, j: nat)
    requires i <= j <= |code|
    requires forall k :: i <= k < j ==> !IsSpace(code[k])
    ensures Newlines(code[..j]) == Newlines(code[..i])
    ensures Column(code[..j]) == Column(code[..i]) + (j - i)
    decreases j - i
  {
    if i < j {
      SolidCounters(code, i, j - 1);
      assert code[..j][..j - 1] == code[..j - 1];
    }
  }

  /**
   * The counters of a cursor agree with the text before it: `line` counts
   * its newlines and `col` is its column.
   */
  ghost predicate Counted(code: string, at: Cursor)
    requires at.index <= |code|
  {
    at.line == Newlines(code[..at.index]) && at.col == Column(code[..at.index])
  }

  /** Where a token says it is, measured against the text before it. */
  ghost predicate Placed(code: string, t: Token) {
    0 <= t.index <= t.index + |t.text| <= |code| &&
    t.line == Newlines(code[..t.index]) && t.col == Column(code[..t.index + |t.text|])
  }

  /**
   * A dispatch step on a character that is not a quote, from counters that
   * agree with the text, emits a well-placed token and leaves counters that
   * still agree.
   */
  lemma StepPositions(code: string, filename: string, at: Cursor)
    requires at.index < |code| && Counted(code, at)
    requires code[at.index] != '"' && code[at.index] != '\''
    ensures Dispatch(code, filename, at).Ok?
    ensures var step := Dispatch(code, filename, at).value;
      step.next.index <= |code| && Counted(code, step.next) &&
      forall t :: t in step.emitted ==> Placed(code, t)
  {
    var i := at.index;
    var step := Dispatch(code, filename, at).value;
    var j := step.next.index;
    if IsSpace(code[i]) {
      assert code[..i + 1][..i] == code[..i];
    } else {
      forall k | i <= k < j
        ensures !IsSpace(code[k])
      {
        RunIsSolid(RunOf(code[i]), code[k]);
      }
      SolidCounters(code, i, j);
    }
  }

  /**
   * On quote-free input, with counters that agree with the text so far,
   * every token's line is the number of newlines before it and its column
   * is the column just after its last character.
   */
  lemma {:induction false} PositionsFrom(code: string, filename: string, at: Cursor)
    requires at.index <= |code| && Counted(code, at)
    requires forall k :: at.index <= k < |code| ==> code[k] != '"' && code[k] != '\''
    ensures LexFrom(code, filename, at).Ok?
    ensures forall t :: t in LexFrom(code, filename, at).value ==> Placed(code, t)
    decreases |code| - at.index
  {
    CoversFrom(code, filename, at);
    if at.index < |code| {
      StepPositions(code, filename, at);
      var step := Dispatch(code, filename, at).value;
      PositionsFrom(code, filename, step.next);
      assert LexFrom(code, filename, at).value == step.emitted + LexFrom(code, filename, step.next).value;
    }
  }

  /**
   * On source without quotes, a token's line is the number of newlines
   * before it, and its column counts the non-whitespace characters from the
   * start of its line through its last character.
   */
  lemma Positions(source: string, filename: string)
    requires forall k :: 0 <= k < |source| ==> source[k] != '"' && source[k] != '\''
    ensures Lex(source, filename).Ok?
    ensures forall t :: t in Lex(source, filename).value ==>
      0 <= t.index <= t.index + |t.text| <= |source| &&
      t.line == Newlines(source[..t.index]) && t.col == Column(source[..t.index + |t.text|])
  {
    var code := Padded(source);
    PaddedQuoteFree(source);
    PositionsFrom(code, filename, Cursor(0, 0, 0));
    forall t | t in Lex(source, filename).value
      ensures t.index + |t.text| <= |source|
    {
      AllFaithful(code, filename, Cursor(0, 0, 0));
    }
    forall t | t in Lex(source, filename).value
      ensures code[..t.index] == source[..t.index] && code[..t.index + |t.text|] == source[..t.index + |t.text|]
    {
      PaddedPrefix(source, t.index);
      PaddedPrefix(source, t.index + |t.text|);
    }
  }

  lemma PaddedPrefix(source: string, n: nat)
    requires n <= |source|
    ensures Padded(source)[..n] == source[..n]
  {
  }

  /**
   * On quote-free input, with counters that agree with the text so far,
   * the loop ends at the end of the buffer with the counters of the whole buffer.
   */
  lemma {:induction false} EndFrom(code: string, filename: string, at: Cursor)
    requires at.index <= |code| && Counted(code, at)
    requires forall k :: at.index <= k < |code| ==> code[k] != '"' && code[k] != '\''
    ensures EndOf(code, filename, at) == Cursor(|code|, Newlines(code), Column(code))
    decreases |code| - at.index
  {
    if at.index == |code| {
      assert code[..at.index] == code;
    } else {
      StepPositions(code, filename, at);
      EndFrom(code, filename, Dispatch(code, filename, at).value.next);
    }
  }

  /**
   * For source without quotes, `lex` leaves the line counter at the number
   * of newlines in the source and the column at the source's last column.
   */
  lemma FinalCounters(source: string, filename: string)
    requires forall k :: 0 <= k < |source| ==> source[k] != '"' && source[k] != '\''
    ensures EndOf(Padded(source), filename, Cursor(0, 0, 0)) == Cursor(|source| + 1, Newlines(source), Column(source))
  {
    var code := Padded(source);
    assert code[..0] == [];
    PaddedQuoteFree(source);
    EndFrom(code, filename, Cursor(0, 0, 0));
    assert code[..|code| - 1] == source;
  }

  // ---------------------------------------------------------------------
  // A source that is one run

  /**
   * A source made of one run of the scan its first character selects gives
   * exactly one token: the whole source, at offset 0 on line 0, with its
   * length as column.
   */
  lemma SingleRun(s: string, filename: string)
    requires |s| > 0 && s[0] != '"' && s[0] != '\''
    requires forall k :: 0 <= k < |s| ==> Continues(RunOf(s[0]), s[k])
    ensures Lex(s, filename) == Ok([Token(Classify(RunOf(s[0]), s), s, 0, 0, |s|, filename)])
  {
    var code := Padded(s);
    var r := RunOf(s[0]);
    var j := RunEnd(code, 0, r);
    assert code[|s|] == ' ' && code[..|s|] == s;
    assert j == |s|;
    assert code[0..j] == s;
    var t := Token(Classify(r, s), s, 0, 0, |s|, filename);
    assert Dispatch(code, filename, Cursor(0, 0, 0)) == Ok(Step([t], Cursor(|s|, 0, |s|)));
    BlankRestGivesNothing(code, filename, Cursor(|s|, 0, |s|));
    assert [t] + [] == [t];
  }

  /** A source that is one word is one Id token. */
  lemma SingleWord(w: string, filename: string)
    requires |w| > 0 && IsAlpha(w[0])
    requires forall k :: 0 <= k < |w| ==> IsAlpha(w[k]) || IsDigit(w[k])
    ensures Lex(w, filename) == Ok([Token(Id, w, 0, 0, |w|, filename)])
  {
    SingleRun(w, filename);
  }

  /** A source that is one number is one token: a Float when it holds a dot, an Int otherwise. */
  lemma SingleNumber(n: string, filename: string)
    requires |n| > 0 && IsDigit(n[0])
    requires forall k :: 0 <= k < |n| ==> IsDigit(n[k]) || n[k] == '.'
    ensures Lex(n, filename) == Ok([Token(if '.' in n then Float else Int, n, 0, 0, |n|, filename)])
  {
    SingleRun(n, filename);
  }
}
