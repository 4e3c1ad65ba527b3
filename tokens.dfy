/**
 * The tokens the lexer produces. main.py has one base class with five
 * subclasses that differ only in how they print; here they are one record
 * with a kind tag.
 */
module Tokens {

  /** Which subclass of main.py's token class a token is. */
  datatype Kind = Id | Symbol | Int | Float | Str

  /**
   * A token: its text, the offset `index` into the (padded) source where it
   * starts, the line and column counters of the lexer when the token was
   * built, and the label of the file it came from.
   */
  datatype Token = Token(kind: Kind, text: string, index: int, line: int, col: int, filename: string)

  /** The label each subclass prints in front of the token text. */
  function Prefix(k: Kind): (p: string)
    ensures |p| >= 4 && p[|p| - 2..] == ": "
  {
    match k
    case Id => "id: "
    case Symbol => "sym: "
    case Int => "int: "
    case Float => "float: "
    case Str => "string: "
  }

  /** The printed form of a token: its kind's label followed by its text. */
  function Display(t: Token): (s: string)
    ensures |s| == |Prefix(t.kind)| + |t.text|
    ensures s[..|Prefix(t.kind)|] == Prefix(t.kind)
    ensures s[|Prefix(t.kind)|..] == t.text
  {
    Prefix(t.kind) + t.text
  }

  /** No two kinds share a label, so the printed form determines kind and text. */
  lemma {:induction false} DisplayIdentifies(a: Token, b: Token)
    requires Display(a) == Display(b)
    ensures a.kind == b.kind && a.text == b.text
  {
    var s := Display(a);
    assert s[..2] == Prefix(a.kind)[..2];
    assert s[..2] == Prefix(b.kind)[..2];
    match a.kind
    case Id => assert s[1] == 'd';
    case Int => assert s[1] == 'n';
    case Symbol => assert s[1] == 'y';
    case Str => assert s[1] == 't';
    case Float => assert s[0] == 'f';
  }
}
