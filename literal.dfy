/**
 * The literal formatter of the mapped-attribute loop: a loosely-typed record
 * value becomes its Terraform literal. Booleans are tested before numbers in
 * the source because Python's `bool` is a subclass of `int`; here the kinds
 * are disjoint constructors, so the order cannot matter.
 */
module Literal {
  import opened Wrappers
  import opened Text

  /**
   * A value as the record holds it. `VOther` stands for any other Python
   * object (a list, a timestamp, a mapping reached through a flat entry);
   * `display` is its `str()` text, which the source inserts between quotes.
   */
  datatype Value =
    | VBool(b: bool)
    | VInt(n: int)
    | VStr(s: string)
    | VOther(display: string)

  /** The literal text of a value. */
  function Render(v: Value): (r: string)
    ensures |r| > 0
  {
    match v
    case VBool(b) => BoolText(b)
    case VInt(n) => (NatToStringDigits(if n < 0 then -n else n); IntToString(n))
    case VStr(s) => Quote(s)
    case VOther(display) => Quote(display)
  }

  /** A boolean always renders as the bare token `true` or `false`, matching its truth value. */
  lemma RenderBool(b: bool)
    ensures Render(VBool(b)) == "true" || Render(VBool(b)) == "false"
    ensures Render(VBool(b)) == "true" <==> b
  {
  }

  /** A literal starts with a quote exactly when the value is neither a boolean nor a number. */
  lemma RenderQuotedIff(v: Value)
    ensures Render(v)[0] == '"' <==> v.VStr? || v.VOther?
  {
    if v.VInt? && v.n >= 0 {
      NatToStringDigits(v.n);
    }
  }

  /** A number renders unquoted, as the decimal text that reads back as the same integer. */
  lemma RenderIntRoundTrip(n: int)
    ensures ParseInt(Render(VInt(n))) == Some(n)
  {
    IntToStringRoundTrip(n);
  }

  /** Any other value renders as its text between quotes, verbatim. */
  lemma RenderStringVerbatim(v: Value)
    requires v.VStr? || v.VOther?
    ensures var r := Render(v);
      r[0] == '"' && r[|r| - 1] == '"' && r[1..|r| - 1] == (if v.VStr? then v.s else v.display)
  {
  }
}
