# Lexer of the declarative-lang interpreter, in Dafny

This project models the lexer of a small interpreter. The lexer turns source text into a list of tokens. Each token is an identifier, a symbol, an integer, a float or a string. It records its text, its offset, the line and column counters, and a file label.

The lexer appends one space to the source as padding. It then walks the buffer and dispatches on the character under the cursor:

- a letter or `_` starts a word;
- a digit starts a number;
- `"` starts a string;
- `'` aborts;
- a newline bumps the line and resets the column;
- other whitespace is skipped;
- anything else starts a punctuation run.

Files:

- `tokens.dfy` (module `Tokens`): the token record with a kind tag, and its printed form.
- `scan.dfy` (module `Scan`): a pure description of the scan. It gives the character classes, where a run or string ends, one dispatch step (`Dispatch`), the whole token list (`LexFrom`, `Lex`) and the counters the loop stops with (`EndOf`).
- `lexer.dfy` (module `Lexing`): the `Lexer` class, with the fields and `while` loops of main.py, and the `Interpreter` driver. Each method is proved to compute what `scan.dfy` describes.
- `properties.dfy` (module `ScanProperties`): what the token list says about the input.
- `examples.dfy` (module `ScanExamples`): concrete inputs traced to their exact token lists or failures.

The model keeps these behaviours of the code:

- A token's line and column are the counters when the token is finished, not when it starts.
- Whitespace other than newline does not move the column.
- The opening quote of a string is not counted in the column. The closing quote is.
- A punctuation run takes quote characters with it.
- A newline straight after an opening quote is kept as string content, and the line counter does not move.
- A `'` at a dispatch position aborts, because the method it calls does not exist.

The three ways the code aborts are one small error type, `Scan.Error`:

- `UnmatchedQuote` is the explicit raise for a newline inside a string.
- `NoCharScanner` is the missing method behind `'`.
- `ReadPastEnd` is the string loop reading past the buffer when no closing quote follows.

Each scan routine also raises when its first character is wrong. Here that check is a `requires`. `Lexer.Lex` proves it holds at every call, so those raises cannot happen.

## Model

| member | source | states |
|---|---|---|
| `Tokens.Prefix` | main.py:12-30 | every kind's printed label ends in `": "` |
| `Tokens.Display` | main.py:9-30 | the printed form starts with the kind's label and continues with exactly the token text |
| `Tokens.DisplayIdentifies` | main.py:12-30 | two tokens that print the same have the same kind and text (no two labels clash) |
| `Scan.RunEnd` | main.py:84-110 | the word (84-87), punctuation (95-98) and number (107-110) loops stop at the end of the maximal run of their characters: every character before the end belongs to the run, and the one at the end does not |
| `Scan.StringEnd` | main.py:115-128 | a string succeeds exactly when a closing quote follows with no newline from the second content character on. A newline after content, before any quote, gives `UnmatchedQuote`. No closing quote gives a failure, and `ReadPastEnd` means there is none |
| `Scan.Classify` | main.py:89-113 | a word is always an Id; a number is a Float exactly when it holds a dot and an Int otherwise; punctuation is a Symbol exactly when it is a listed symbol and an Id otherwise; no run becomes a String |
| `Scan.ScanRun` | main.py:80-113 | no contract of its own. `Scan.Dispatch` states its step: one token starting at the cursor, ending at the new cursor, column raised by its length, line kept. `ScanProperties.StepFaithful` states that the token is the maximal run with the kind `Scan.Classify` gives |
| `Scan.ScanString` | main.py:115-130 | no contract of its own. `Scan.Dispatch` states it fails exactly when `Scan.StringEnd` fails. `ScanProperties.StepFaithful` and `AllFaithful` state that a token starting at `"` is a String token and, conversely, that a String token starts at `"`, and that its text is what lies between the quotes, without a quote and with a newline at most first. `Lexing.Lexer.GetNextString` is proved equal to it |
| `Scan.Dispatch` | main.py:52-76 | every successful step moves the cursor forward. Only a newline changes the line, by one, and resets the column. Other whitespace emits nothing and keeps the column. Any other character emits one token that starts at the cursor and ends at the new cursor. That token carries the current line and the column after its last character, and the column rises by the width taken minus the opening quote. Only `'` or a bad string aborts |
| `Scan.LexFrom` | main.py:52-78 | every token takes at least one character, so there are at most as many tokens as characters left. Its other properties are the lemmas `ScanProperties.AllFaithful`, `InOrder`, `CoversFrom` and `PositionsFrom` |
| `Scan.Lex` | main.py:35-78 | a successful lex has at most one token per character of the padded source. `ScanProperties.LexFaithful`, `CoversSource` and `Positions` state what the tokens are |
| `Scan.EndOf` | main.py:52-78 | the counters the main loop stops with: the loop reaches the end of the buffer exactly when lexing succeeds |
| `Lexing.Lexer.constructor` | main.py:34-44 | the buffer is the source plus one space; the counters and the token list start empty |
| `Lexing.Lexer.Lex` | main.py:46-78 | resets the counters and the token list, then returns exactly `LexFrom` of the buffer from cursor (0, 0, 0). On success the token list field holds the result, the cursor is at the end of the buffer, and the line and column counters are those of `Scan.EndOf` (for quote-free source, `ScanProperties.FinalCounters` gives them in closed form) |
| `Lexing.Lexer.GetNextWord` | main.py:80-89 | from a letter, takes the maximal run of letters, digits and `_`, moves index and column by its length, and returns an Id token at its start offset |
| `Lexing.Lexer.GetNextSymbol` | main.py:91-101 | from a punctuation character, takes the maximal run of characters that are not letters, digits, `_` or whitespace. The token is a Symbol exactly when the run equals a listed symbol, otherwise an Id |
| `Lexing.Lexer.GetNextNumber` | main.py:103-113 | from a digit, takes the maximal run of digits and dots. The token is a Float exactly when the run holds a dot, otherwise an Int |
| `Lexing.Lexer.GetNextString` | main.py:115-130 | agrees with `Scan.StringEnd`. On success the token text is the characters between the quotes, its offset is the opening quote, the column rises by the content length plus one, and the cursor is past the closing quote |
| `Lexing.RelexIsStable` | main.py:46-50 | two calls of `lex` on one lexer return the same outcome |
| `Lexing.Interpreter.constructor` | main.py:133-134 | keeps the program text |
| `Lexing.Interpreter.Parse` | main.py:136-137 | returns the lex of the program under the label `main.dl` |
| `ScanProperties.BlankRestGivesNothing` | main.py:67-73 | from a cursor followed only by whitespace, nothing more is emitted and nothing fails |
| `ScanProperties.BlankSourceGivesNothing` | main.py:35 | empty or whitespace-only source gives an empty token list |
| `ScanProperties.StepFaithful` | main.py:80-130 | the token of one successful step is faithful to the buffer (see `AllFaithful`) |
| `ScanProperties.RunFaithful` | main.py:80-113 | a step on a letter, digit or punctuation character that is not a quote emits one token. That token is not a String. It is the maximal run of its scan's characters at the cursor, and its kind is the one its text calls for |
| `ScanProperties.StringFaithful` | main.py:115-130 | a successful step on `"` emits one String token lying between two quotes at the cursor, with no quote inside and a newline at most first |
| `ScanProperties.AllFaithful` | main.py:52-130 | every token of a successful lex is faithful. A token is a String exactly when its offset holds `"`. A word, number or punctuation token is the maximal run of its scan's characters at its offset. A word is an Id. A number is a Float exactly when it holds a dot. Punctuation is a Symbol exactly when it is listed. A string token lies between two quotes at its offset, holds no quote, and has a newline at most as its first character |
| `ScanProperties.LexFaithful` | main.py:46-78 | every token `lex` returns is faithful to the padded source |
| `ScanProperties.InOrder` | main.py:52-76 | tokens lie inside the buffer, each covers at least one character, each ends at or before the next one starts, and their offsets strictly increase |
| `ScanProperties.StepCovers` | main.py:55-76 | a step on a character that is not a quote succeeds, and its token spells the characters it took, minus whitespace |
| `ScanProperties.CoversFrom` | main.py:52-76 | from a cursor with no `"` or `'` after it, lexing succeeds and the token texts, joined, are the rest of the buffer without whitespace |
| `ScanProperties.CoversSource` | main.py:46-78 | for source without `"` or `'`, lexing succeeds and the joined token texts are the source without whitespace |
| `ScanProperties.SolidCounters` | main.py:84-87 | a run with no whitespace adds no line and one column per character |
| `ScanProperties.StepPositions` | main.py:67-110 | a step on a character that is not a quote keeps the counters in line with the text before the cursor, and its token is placed accordingly |
| `ScanProperties.PositionsFrom` | main.py:52-110 | on quote-free input, with counters in line with the text so far, every token's line is the number of newlines before it, and its column is the column just after its last character |
| `ScanProperties.Positions` | main.py:46-110 | for source without quotes, a token's line is the number of newlines before it, and its column counts the non-whitespace characters from the start of its line through its last character |
| `ScanProperties.EndFrom` | main.py:52-78 | on quote-free input, with counters in line with the text so far, the loop stops at the end of the buffer with the newline count and last column of the whole buffer |
| `ScanProperties.FinalCounters` | main.py:46-78 | for source without quotes, `lex` leaves the line counter at the number of newlines in the source and the column at the column after its last character |
| `ScanProperties.SingleRun` | main.py:52-113 | a source that is one run of the scan its first character selects gives one token: the whole source at offset 0, line 0, with its length as column and the kind `Scan.Classify` gives |
| `ScanProperties.SingleWord` | main.py:80-89 | a source that is one word gives exactly one Id token holding the whole word |
| `ScanProperties.SingleNumber` | main.py:103-113 | a source that is one number gives exactly one token holding it: a Float when it holds a dot, an Int otherwise |
| `ScanExamples.EmptySource` | main.py:35 | `""` gives no tokens |
| `ScanExamples.Assignment` | main.py:44 | `a = 1` gives Id `a`, Symbol `=`, Int `1` with columns 1, 2, 3 |
| `ScanExamples.TwoLines` | main.py:67-70 | in `a\nb`, `a` is on line 0 and `b` on line 1 with column 1 |
| `ScanExamples.DoubleEqualsIsIdentifier` | main.py:100-101 | `==` is an Id, not a Symbol |
| `ScanExamples.Numbers` | main.py:112-113 | `12` is an Int; `1.` and `1.2.3` are Floats |
| `ScanExamples.NumberThenWord` | main.py:107 | `1ab` is Int `1` then Id `ab` |
| `ScanExamples.QuotedString` | main.py:115-130 | `"hello"` is String `hello` with column 6; `""` is an empty String with column 1 |
| `ScanExamples.LeadingNewlineInString` | main.py:119-125 | a newline right after the opening quote is content, and the line stays 0 |
| `ScanExamples.NewlineInString` | main.py:125 | a newline after content fails with `UnmatchedQuote` |
| `ScanExamples.UnclosedString` | main.py:120-125 | a string without a closing quote fails with `ReadPastEnd` |
| `ScanExamples.SingleQuote` | main.py:64-65 | `'a'` fails with `NoCharScanner` |
| `ScanExamples.PunctuationSwallowsQuote` | main.py:95 | in `("a")` the run `("` takes the opening quote. The closing quote then opens a string that never closes |

## Left out

- The `main` function's file reading of `main.dl` and its printing loop (main.py:142-151): file I/O and console output.
- `Interpreter.interpret` (main.py:139-140): an empty method with no behaviour.
- The Python identity of each failure. Raising a string is itself a TypeError in Python 3, the missing `get_next_char` is an AttributeError, and reading past the buffer is an IndexError. Here they are the three cases of `Scan.Error`.
- Lexing.Lexer.Lex: on failure the contract gives the error but not where the counters and the partial token list were left, because main.py aborts the whole run and no caller sees that state. On success it states the token list, the cursor and both counters.
- Lexing.Lexer.constructor: main.py sets `col` only in `lex`, so reading it before the first `lex` fails there. Here it starts at 0.
- The character classes and the symbol list are fixed constants (`IsAlpha`, `IsDigit`, `IsSpace`, `Symbols`), not per-object strings and lists.
