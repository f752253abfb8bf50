/**
 * Python values held in the resort configuration and in request
 * parameters: None, bools, ints, floats, strings, tuples and lists.
 */
module Fields {
  import opened Wrappers
  import opened JsonValues

  datatype Field =
    | FNone
    | FBool(b: bool)
    | FInt(i: int)
    | FFloat(x: real)
    | FStr(s: string)
    | FTuple(elems: seq<Field>)
    | FList(elems: seq<Field>)

  /** `isinstance(f, (int, float))`; a bool is an int in Python. */
  predicate IsNumeric(f: Field) {
    f.FBool? || f.FInt? || f.FFloat?
  }

  /** The number a numeric value stands for (True is 1, False is 0). */
  function NumValue(f: Field): real
    requires IsNumeric(f)
  {
    match f
    case FBool(b) => if b then 1.0 else 0.0
    case FInt(i) => i as real
    case FFloat(x) => x
  }

  function FieldTypeName(f: Field): string {
    match f
    case FNone => "NoneType"
    case FBool(_) => "bool"
    case FInt(_) => "int"
    case FFloat(_) => "float"
    case FStr(_) => "str"
    case FTuple(_) => "tuple"
    case FList(_) => "list"
  }

  function CountText(n: nat): string
    requires n < 2
  {
    if n == 0 then "0" else "1"
  }

  /**
   * `a, b = f`: a tuple, list or string of exactly two items unpacks;
   * anything else raises what Python raises.
   */
  function Unpack2(f: Field): (r: Result<(Field, Field), PyError>)
    ensures r.Ok? <==>
      ((f.FTuple? || f.FList?) && |f.elems| == 2) || (f.FStr? && |f.s| == 2)
    ensures (f.FTuple? || f.FList?) && |f.elems| == 2 ==> r == Ok((f.elems[0], f.elems[1]))
    ensures r.Err? ==> r.error.ValueError? || r.error.TypeError?
  {
    var items :=
      match f
      case FTuple(es) => Some(es)
      case FList(es) => Some(es)
      case FStr(s) => Some(seq(|s|, i requires 0 <= i < |s| => FStr([s[i]])))
      case _ => None;
    match items
    case None => Err(TypeError("cannot unpack non-iterable " + FieldTypeName(f) + " object"))
    case Some(es) =>
      if |es| > 2 then Err(ValueError("too many values to unpack (expected 2)"))
      else if |es| < 2 then Err(ValueError("not enough values to unpack (expected 2, got " + CountText(|es|) + ")"))
      else Ok((es[0], es[1]))
  }
}
