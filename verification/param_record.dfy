/**
 * One entry of the flat form: a `Param` as `flatten` creates it (a name, a value and the key
 * path of its parents), with its dotted naming (`parentname`, the `pts` helper of
 * `build_table`) and its equality (`__eq__`, by value only).
 */
module ParamRecord {
  import opened Wrappers
  import opened Values

  datatype Param = Param(name: string, value: Value, parents: seq<string>)

  /** The parents a `Param` gets when none are given. */
  const DefaultParents: seq<string> := ["DEFAULT"]

  /** `".".join(parts)`. */
  function Join(parts: seq<string>): string
    decreases |parts|
  {
    if |parts| == 0 then ""
    else if |parts| == 1 then parts[0]
    else Join(parts[..|parts| - 1]) + "." + parts[|parts| - 1]
  }

  /** `Param.parentname`: the dotted path of the parents followed by the name. */
  function ParentName(p: Param): (r: string)
    ensures p.parents == [] ==> r == p.name
    ensures p.parents != [] ==> r == Join(p.parents) + "." + p.name
  {
    var parts := p.parents + [p.name];
    assert parts[..|parts| - 1] == p.parents;
    Join(parts)
  }

  /** Index of the last '.' in `s`, or -1 when there is none. */
  function LastDot(s: string): (r: int)
    ensures -1 <= r < |s|
    ensures r >= 0 ==> s[r] == '.'
    ensures forall i :: r < i < |s| ==> s[i] != '.'
    decreases |s|
  {
    if s == [] then -1
    else if s[|s| - 1] == '.' then |s| - 1
    else LastDot(s[..|s| - 1])
  }

  /** Index of the first line break in `s`, or `|s|` when there is none. */
  function LineEnd(s: string): (r: nat)
    ensures r <= |s|
    ensures forall i :: 0 <= i < r ==> s[i] != '\n'
    ensures r < |s| ==> s[r] == '\n'
  {
    if s == [] || s[0] == '\n' then 0 else 1 + LineEnd(s[1..])
  }

  /**
   * `pts(x)`: group 1 of `re.search(r"(.+)\.", x)`, or "" without a match. The leftmost match
   * starts a line (`.` does not match a line break) and, being greedy, runs to that line's last
   * '.'; it needs at least one character before that '.'.
   */
  function Pts(x: string): (r: string)
    ensures '\n' !in r
    ensures '\n' !in x ==> r == (if LastDot(x) >= 1 then x[..LastDot(x)] else "")
    decreases |x|
  {
    var e := LineEnd(x);
    var line := x[..e];
    var k := LastDot(line);
    if k >= 1 then
      assert forall i :: 0 <= i < k ==> line[..k][i] == x[i];
      line[..k]
    else if e < |x| then Pts(x[e + 1..])
    else ""
  }

  /** The last dot of `a + "." + b` is the one put between them when `b` has none. */
  lemma {:induction false} LastDotJoined(a: string, b: string)
    requires '.' !in b
    ensures LastDot(a + "." + b) == |a|
    decreases |b|
  {
    var s := a + "." + b;
    if b != [] {
      assert s[|s| - 1] == b[|b| - 1];
      assert s[..|s| - 1] == a + "." + b[..|b| - 1];
      LastDotJoined(a, b[..|b| - 1]);
    }
  }

  /**
   * The "Parents" column of the parameter table: `pts(parentname)` gives back the dotted
   * parents when the name has no dot and nothing breaks a line.
   */
  lemma PtsOfParentName(p: Param)
    requires '.' !in p.name && '\n' !in ParentName(p)
    ensures p.parents != [] ==> Pts(ParentName(p)) == Join(p.parents)
    ensures p.parents == [] ==> Pts(ParentName(p)) == ""
  {
    if p.parents != [] {
      LastDotJoined(Join(p.parents), p.name);
      assert (Join(p.parents) + "." + p.name)[..|Join(p.parents)|] == Join(p.parents);
    }
  }

  /** The operand of `==` on a `Param`: another `Param` or any plain value. */
  datatype Operand = OfParam(p: Param) | OfValue(v: Value)

  /** `Param.__eq__`: compare values only, against the other's value or the plain value. */
  function ParamEq(p: Param, other: Operand): (r: bool)
    ensures other.OfParam? ==> (r <==> PyEq(p.value, other.p.value))
    ensures other.OfValue? ==> (r <==> PyEq(p.value, other.v))
  {
    match other
    case OfParam(q) => PyEq(p.value, q.value)
    case OfValue(v) => PyEq(p.value, v)
  }

  /** Names and parents play no part in equality: a param equals its own value. */
  lemma ParamEqIgnoresNaming(p: Param, name: string, parents: seq<string>)
    ensures ParamEq(p, OfParam(Param(name, p.value, parents)))
    ensures ParamEq(p, OfValue(p.value))
  {
    PyEqReflexive(p.value);
  }

  /** Equality between params is symmetric and transitive. */
  lemma ParamEqEquivalence(p: Param, q: Param, s: Param)
    ensures ParamEq(p, OfParam(q)) ==> ParamEq(q, OfParam(p))
    ensures ParamEq(p, OfParam(q)) && ParamEq(q, OfParam(s)) ==> ParamEq(p, OfParam(s))
  {
    if ParamEq(p, OfParam(q)) {
      PyEqSymmetric(p.value, q.value);
      if ParamEq(q, OfParam(s)) { PyEqTransitive(p.value, q.value, s.value); }
    }
  }

  /** The source's `parents` as Python holds them: the default is a tuple, other paths give lists. */
  datatype PyParents = PyTuple(items: seq<string>) | PyList(items: seq<string>)

  /** `tf.none(parents, ("DEFAULT",))` as written: a tuple when no parents are given. */
  const DefaultParentsAsWritten: PyParents := PyTuple(DefaultParents)

  /** `parentname` as written: `self.parents + [self.name]` raises TypeError on a tuple. */
  function ParentNameAsWritten(parents: PyParents, name: string, value: Value): (r: Option<string>)
    ensures r.None? <==> parents.PyTuple?
    ensures r.Some? ==> r.value == ParentName(Param(name, value, parents.items))
  {
    match parents
    case PyTuple(_) => None
    case PyList(items) => Some(ParentName(Param(name, value, items)))
  }

  /** A param created without parents, e.g. `Param("dt", 0.1)`, has no `parentname` as written. */
  lemma DefaultParentsRaise()
    ensures ParentNameAsWritten(DefaultParentsAsWritten, "dt", Float(0.1)).None?
    ensures ParentNameAsWritten(PyList(DefaultParents), "dt", Float(0.1)) == Some("DEFAULT.dt")
  {
    assert Join(DefaultParents) == "DEFAULT";
    assert ParentName(Param("dt", Float(0.1), DefaultParents)) == "DEFAULT" + "." + "dt";
    assert "DEFAULT" + "." + "dt" == "DEFAULT.dt";
  }

  /** With the default parents held as a sequence, every dot-free name gets a dotted path under DEFAULT. */
  lemma {:induction false} DefaultParentName(name: string, value: Value)
    requires '.' !in name && '\n' !in name
    ensures ParentName(Param(name, value, DefaultParents)) == "DEFAULT." + name
    ensures Pts(ParentName(Param(name, value, DefaultParents))) == "DEFAULT"
  {
    var p := Param(name, value, DefaultParents);
    assert Join(DefaultParents) == "DEFAULT";
    assert ParentName(p) == "DEFAULT" + "." + name;
    PtsOfParentName(p);
  }
}
