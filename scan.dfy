/**
 * A pure description of what the lexer computes: the character classes it
 * dispatches on, the end of each scanned run, the end of a quoted string,
 * one dispatch step, and the whole token list. The `Lexer` class in
 * lexer.dfy is proved to compute exactly `LexFrom`.
 */
module Scan {
  import opened Tokens

  /** `alphabet`: the ASCII letters and the underscore. */
  predicate IsAlpha(c: char) {
    'A' <= c <= 'Z' || 'a' <= c <= 'z' || c == '_'
  }

  /** `numbers`: the ASCII decimal digits. */
  predicate IsDigit(c: char) {
    '0' <= c <= '9'
  }

  /** `whitespace`: space, tab, vertical tab and newline; a carriage return is not in it. */
  predicate IsSpace(c: char) {
    c == ' ' || c == '\t' || c == '\U{000B}' || c == '\n'
  }

  /** `symbols`: the texts a punctuation run must equal to become a Symbol token. */
  const Symbols: seq<string> := ["="]

  /** Why a scan stops: the three ways main.py aborts. */
  datatype Error =
    | UnmatchedQuote  // the explicit raise when a newline follows string content
    | NoCharScanner   // a `'` at a dispatch position calls a method that does not exist
    | ReadPastEnd     // the string loop indexes past the padded buffer

  datatype Result<T> = Ok(value: T) | Fail(error: Error)

  /** The three accumulating scans and the characters each one keeps taking. */
  datatype Run = Word | Number | Punct

  predicate Continues(r: Run, c: char) {
    match r
    case Word => IsAlpha(c) || IsDigit(c)
    case Number => IsDigit(c) || c == '.'
    case Punct => !(IsAlpha(c) || IsDigit(c) || IsSpace(c))
  }

  /** Where the maximal run of `r`-characters that starts at `i` ends. */
  function RunEnd(code: string, i: nat, r: Run): (j: nat)
    requires i <= |code|
    ensures i <= j <= |code|
    ensures forall k :: i <= k < j ==> Continues(r, code[k])
    ensures j < |code| ==> !Continues(r, code[j])
    decreases |code| - i
  {
    if i < |code| && Continues(r, code[i]) then RunEnd(code, i + 1, r) else i
  }

  /** The kind of token a run becomes, decided from its whole text. */
  function Classify(r: Run, text: string): (k: Kind)
    ensures k != Str
    ensures r == Word ==> k == Id
    ensures r == Number ==> (k == Float <==> '.' in text) && (k == Int <==> '.' !in text)
    ensures r == Punct ==> (k == Symbol <==> text in Symbols) && (k == Id <==> text !in Symbols)
  {
    match r
    case Word => Id
    case Number => if '.' in text then Float else Int
    case Punct => if text in Symbols then Symbol else Id
  }

  /** The first position at or after `i` holding `c`, or `|code|` if there is none. */
  function Find(code: string, i: nat, c: char): (j: nat)
    requires i <= |code|
    ensures i <= j <= |code|
    ensures forall k :: i <= k < j ==> code[k] != c
    ensures j < |code| ==> code[j] == c
    decreases |code| - i
  {
    if i == |code| || code[i] == c then i else Find(code, i + 1, c)
  }

  /**
   * The position of the quote that closes the string opened at `open`. The
   * newline test runs only after a content character has been taken, so a
   * newline right after the opening quote is accepted as content; any later
   * newline before the closing quote aborts. With no closing quote the loop
   * reads past the end of the buffer.
   */
  function StringEnd(code: string, open: nat): (r: Result<nat>)
    requires open < |code| && code[open] == '"'
    ensures r.Ok? ==> open < r.value < |code| && code[r.value] == '"'
    ensures r.Ok? ==> forall k :: open < k < r.value ==> code[k] != '"'
    ensures r.Ok? ==> forall k :: open + 2 <= k < r.value ==> code[k] != '\n'
    ensures r.Fail? ==> r.error != NoCharScanner
    ensures r == Fail(ReadPastEnd) ==> forall k :: open < k < |code| ==> code[k] != '"'
    ensures r == Fail(UnmatchedQuote) ==>
      exists q :: open + 2 <= q < |code| && code[q] == '\n' && forall k :: open < k < q ==> code[k] != '"'
    // and conversely: a newline after content before any quote aborts, and so does a missing closing quote
    ensures (exists q :: open + 2 <= q < |code| && code[q] == '\n' && forall k :: open < k < q ==> code[k] != '"') ==>
      r == Fail(UnmatchedQuote)
    ensures (forall k :: open < k < |code| ==> code[k] != '"') ==> r.Fail?
  {
    var close := Find(code, open + 1, '"');
    var newline := if open + 2 <= |code| then Find(code, open + 2, '\n') else |code|;
    if newline < close then Fail(UnmatchedQuote)
    else if close == |code| then Fail(ReadPastEnd)
    else Ok(close)
  }

  /** The lexer's cursor: offset into the buffer, line and column counters. */
  datatype Cursor = Cursor(index: nat, line: nat, col: nat)

  /** One dispatch step: the tokens it appends (none or one) and the cursor after it. */
  datatype Step = Step(emitted: seq<Token>, next: Cursor)

  /** A word, number or punctuation scan starting at the cursor. */
  function ScanRun(code: string, filename: string, r: Run, at: Cursor): Step
    requires at.index < |code| && Continues(r, code[at.index])
  {
    var j := RunEnd(code, at.index, r);
    var text := code[at.index..j];
    var col := at.col + |text|;
    Step([Token(Classify(r, text), text, at.index, at.line, col, filename)], Cursor(j, at.line, col))
  }

  /** A string scan starting at the opening quote under the cursor. */
  function ScanString(code: string, filename: string, at: Cursor): Result<Step>
    requires at.index < |code| && code[at.index] == '"'
  {
    match StringEnd(code, at.index)
    case Fail(e) => Fail(e)
    case Ok(close) =>
      var text := code[at.index + 1..close];
      var col := at.col + |text| + 1;
      Ok(Step([Token(Str, text, at.index, at.line, col, filename)], Cursor(close + 1, at.line, col)))
  }

  /** The text a token covers in the buffer: a string token adds its two quotes. */
  function Width(t: Token): nat {
    |t.text| + if t.kind == Str then 2 else 0
  }

  /** One turn of the lexer's main loop, chosen by the character under the cursor. */
  function Dispatch(code: string, filename: string, at: Cursor): (r: Result<Step>)
    requires at.index < |code|
    // every step that does not abort moves the cursor forward
    ensures r.Ok? ==> at.index < r.value.next.index <= |code|
    // only the newline branch touches the line counter, and it resets the column
    ensures r.Ok? ==> r.value.next.line == if code[at.index] == '\n' then at.line + 1 else at.line
    ensures r.Ok? && code[at.index] == '\n' ==> r.value.next.col == 0
    // whitespace is skipped without a token and, except for newline, without a column change
    ensures r.Ok? && IsSpace(code[at.index]) ==> r.value.emitted == [] && r.value.next.index == at.index + 1
    ensures r.Ok? && IsSpace(code[at.index]) && code[at.index] != '\n' ==> r.value.next.col == at.col
    // any other character yields exactly one token that starts here and spans up to the new cursor
    ensures r.Ok? && !IsSpace(code[at.index]) ==>
      |r.value.emitted| == 1 &&
      var t := r.value.emitted[0];
      t.index == at.index && t.index + Width(t) == r.value.next.index &&
      t.line == at.line && t.col == r.value.next.col && t.filename == filename &&
      // the column counts every character taken except an opening quote
      r.value.next.col == at.col + Width(t) - (if t.kind == Str then 1 else 0)
    // only a `'` or a bad string aborts
    ensures r.Fail? <==> code[at.index] == '\'' || (code[at.index] == '"' && StringEnd(code, at.index).Fail?)
  {
    var c := code[at.index];
    if IsAlpha(c) then Ok(ScanRun(code, filename, Word, at))
    else if IsDigit(c) then Ok(ScanRun(code, filename, Number, at))
    else if c == '"' then ScanString(code, filename, at)
    else if c == '\'' then Fail(NoCharScanner)
    else if c == '\n' then Ok(Step([], Cursor(at.index + 1, at.line + 1, 0)))
    else if IsSpace(c) then Ok(Step([], at.(index := at.index + 1)))
    else Ok(ScanRun(code, filename, Punct, at))
  }

  /** `ts` placed before the tokens of `rest`, or the failure of `rest`. */
  function Prepend(ts: seq<Token>, rest: Result<seq<Token>>): Result<seq<Token>> {
    match rest
    case Ok(us) => Ok(ts + us)
    case Fail(e) => Fail(e)
  }

  /** The tokens of the buffer from the cursor to its end, or the first failure. */
  function LexFrom(code: string, filename: string, at: Cursor): (r: Result<seq<Token>>)
    requires at.index <= |code|
    // each token takes at least one character, so there are no more tokens than characters left
    ensures r.Ok? ==> |r.value| <= |code| - at.index
    decreases |code| - at.index
  {
    if at.index == |code| then Ok([])
    else
      match Dispatch(code, filename, at)
      case Fail(e) => Fail(e)
      case Ok(step) => Prepend(step.emitted, LexFrom(code, filename, step.next))
  }

  /**
   * The counters the lexer's loop is left with when it starts from `at` and
   * succeeds: the cursor at the end of the buffer. On an abort it returns the
   * cursor where the failing step began; the counters main.py leaves after an
   * abort (a failing string has already moved past its content) are not modelled.
   */
  function EndOf(code: string, filename: string, at: Cursor): (end: Cursor)
    requires at.index <= |code|
    ensures at.index <= end.index <= |code|
    // the loop reaches the end of the buffer exactly when lexing succeeds
    ensures end.index == |code| <==> LexFrom(code, filename, at).Ok?
    decreases |code| - at.index
  {
    if at.index == |code| then at
    else
      match Dispatch(code, filename, at)
      case Fail(_) => at
      case Ok(step) => EndOf(code, filename, step.next)
  }

  /** A successful dispatch step hands the rest of the scan to the cursor after it. */
  lemma LexFromStep(code: string, filename: string, at: Cursor)
    requires at.index < |code| && Dispatch(code, filename, at).Ok?
    ensures var step := Dispatch(code, filename, at).value;
      LexFrom(code, filename, at) == Prepend(step.emitted, LexFrom(code, filename, step.next)) &&
      EndOf(code, filename, at) == EndOf(code, filename, step.next)
  {
  }

  /** The buffer the lexer works on: the source with one space appended. */
  function Padded(source: string): string {
    source + " "
  }

  /** What lexing `source` under the label `filename` returns. */
  function Lex(source: string, filename: string): (r: Result<seq<Token>>)
    ensures r.Ok? ==> |r.value| <= |source| + 1
  {
    LexFrom(Padded(source), filename, Cursor(0, 0, 0))
  }
}
