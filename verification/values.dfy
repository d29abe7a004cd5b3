/**
 * Leaf values of the parameter tree (the scalars and lists a YAML file yields), Python's
 * `float(v)` coercion as applied by `flatten`, and Python's `==` on such values.
 */
module Values {
  import opened Wrappers

  /** A non-mapping value as loaded from YAML. Python floats are modelled as reals. */
  datatype Value =
    | NoneValue
    | Bool(b: bool)
    | Int(i: int)
    | Float(r: real)
    | Str(s: string)
    | List(items: seq<Value>)

  /** The number a value stands for in Python arithmetic comparisons: bool, int and float. */
  function NumberOf(v: Value): (n: Option<real>)
    ensures n.Some? <==> (v.Bool? || v.Int? || v.Float?)
  {
    match v
    case Bool(b) => Some(if b then 1.0 else 0.0)
    case Int(i) => Some(i as real)
    case Float(r) => Some(r)
    case _ => None
  }

  /**
   * `try: v = float(v) except (TypeError, ValueError): pass`.
   * Numbers become floats; `None` and lists raise TypeError and are kept; a string becomes a
   * float when `parse` (Python's float syntax, not modelled here) accepts it and is kept otherwise.
   */
  function Coerce(v: Value, parse: string -> Option<real>): (r: Value)
    ensures NumberOf(v).Some? ==> r == Float(NumberOf(v).value)
    ensures v.Str? ==> r == (if parse(v.s).Some? then Float(parse(v.s).value) else v)
    ensures (v.NoneValue? || v.List?) ==> r == v
  {
    match v
    case Bool(_) => Float(NumberOf(v).value)
    case Int(_) => Float(NumberOf(v).value)
    case Float(_) => v
    case Str(s) => (match parse(s) case Some(x) => Float(x) case None => v)
    case NoneValue => v
    case List(_) => v
  }

  /** Applying `float(...)` twice changes nothing more than applying it once. */
  lemma CoerceIdempotent(v: Value, parse: string -> Option<real>)
    ensures Coerce(Coerce(v, parse), parse) == Coerce(v, parse)
  {
  }

  /** A value `flatten` stores unchanged: the coercion leaves it as it is. */
  predicate Stable(v: Value, parse: string -> Option<real>)
  {
    Coerce(v, parse) == v
  }

  /** Python `a == b` on values: numbers compare by magnitude across bool/int/float, lists elementwise. */
  predicate PyEq(a: Value, b: Value)
    decreases a
  {
    if NumberOf(a).Some? || NumberOf(b).Some? then
      NumberOf(a).Some? && NumberOf(b).Some? && NumberOf(a).value == NumberOf(b).value
    else
      match a
      case NoneValue => b.NoneValue?
      case Str(s) => b.Str? && b.s == s
      case List(xs) =>
        b.List? && |xs| == |b.items| &&
        forall i :: 0 <= i < |xs| ==> PyEq(xs[i], b.items[i])
      case _ => false
  }

  lemma {:induction false} PyEqReflexive(a: Value)
    ensures PyEq(a, a)
    decreases a
  {
    if a.List? {
      forall i | 0 <= i < |a.items| ensures PyEq(a.items[i], a.items[i]) {
        PyEqReflexive(a.items[i]);
      }
    }
  }

  lemma {:induction false} PyEqSymmetric(a: Value, b: Value)
    requires PyEq(a, b)
    ensures PyEq(b, a)
    decreases a
  {
    if a.List? && b.List? {
      forall i | 0 <= i < |b.items| ensures PyEq(b.items[i], a.items[i]) {
        PyEqSymmetric(a.items[i], b.items[i]);
      }
    }
  }

  lemma {:induction false} PyEqTransitive(a: Value, b: Value, c: Value)
    requires PyEq(a, b) && PyEq(b, c)
    ensures PyEq(a, c)
    decreases a
  {
    if a.List? && b.List? && c.List? {
      forall i | 0 <= i < |a.items| ensures PyEq(a.items[i], c.items[i]) {
        PyEqTransitive(a.items[i], b.items[i], c.items[i]);
      }
    }
  }

  /** Coercion keeps a number equal (in Python's sense) to what it was: `float(3) == 3`. */
  lemma CoercePreservesNumbers(v: Value, parse: string -> Option<real>)
    requires NumberOf(v).Some?
    ensures PyEq(Coerce(v, parse), v)
  {
  }
}
