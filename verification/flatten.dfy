/**
 * `flatten(d, parents)`: from the nested form to the flat form. Entries are visited in key
 * insertion order and sub-maps depth first; every non-map leaf becomes one `Param` whose
 * `parents` is the key path above it.
 */
module Flattening {
  import opened Wrappers
  import opened Values
  import opened Nested
  import opened ParamRecord
  import opened Seqs

  /** The params `flatten` emits for the entries of `d` from position `i` on, under `parents`. */
  function FlattenFrom(d: Dict, i: nat, parents: seq<string>, parse: string -> Option<real>): seq<Param>
    requires i <= |d.entries|
    decreases d, |d.entries| - i, 1
  {
    if i == |d.entries| then []
    else EntryParams(d, i, parents, parse) + FlattenFrom(d, i + 1, parents, parse)
  }

  /** The params of entry `i` alone: one for a plain value, those of the sub-map for a map. */
  function EntryParams(d: Dict, i: nat, parents: seq<string>, parse: string -> Option<real>): seq<Param>
    requires i < |d.entries|
    decreases d, |d.entries| - i, 0
  {
    var e := d.entries[i];
    assert e in d.entries;
    match e.item
    case Leaf(v) => [Param(e.key, Coerce(v, parse), parents)]
    case Sub(x) => FlattenFrom(x, 0, parents + [e.key], parse)
  }

  /** The whole output of `flatten(d, parents)`. */
  function Flattened(d: Dict, parents: seq<string>, parse: string -> Option<real>): seq<Param>
  {
    FlattenFrom(d, 0, parents, parse)
  }

  /**
   * `flatten`: a loop over the entries that extends `items` with the result of the recursive
   * call for a sub-map and appends one coerced `Param` for any other value.
   */
  method Flatten(d: Dict, parents: seq<string>, parse: string -> Option<real>) returns (items: seq<Param>)
    ensures items == Flattened(d, parents, parse)
    decreases d
  {
    items := [];
    var i := 0;
    while i < |d.entries|
      invariant 0 <= i <= |d.entries|
      invariant items + FlattenFrom(d, i, parents, parse) == Flattened(d, parents, parse)
    {
      var e := d.entries[i];
      assert e in d.entries;
      var newParents := parents + [e.key];
      ghost var rest := FlattenFrom(d, i + 1, parents, parse);
      match e.item {
        case Sub(x) =>
          var sub := Flatten(x, newParents, parse);
          assert FlattenFrom(d, i, parents, parse) == sub + rest;
          Assoc(items, sub, rest);
          items := items + sub;
        case Leaf(v) =>
          var w := Coerce(v, parse);
          Snoc(parents, e.key);
          var x := Param(newParents[|newParents| - 1], w, newParents[..|newParents| - 1]);
          assert FlattenFrom(d, i, parents, parse) == [x] + rest;
          Assoc(items, [x], rest);
          items := items + [x];
      }
      i := i + 1;
    }
  }

  /** Number of non-map leaves in the entries of `d` from position `i` on, at any depth. */
  function LeafCountFrom(d: Dict, i: nat): nat
    requires i <= |d.entries|
    decreases d, |d.entries| - i
  {
    if i == |d.entries| then 0
    else
      var e := d.entries[i];
      assert e in d.entries;
      (match e.item case Leaf(_) => 1 case Sub(x) => LeafCountFrom(x, 0)) + LeafCountFrom(d, i + 1)
  }

  function LeafCount(d: Dict): nat
  {
    LeafCountFrom(d, 0)
  }

  /** One param per non-map leaf: a map contributes nothing of its own. */
  lemma {:induction false} FlattenLength(d: Dict, i: nat, parents: seq<string>, parse: string -> Option<real>)
    requires i <= |d.entries|
    ensures |FlattenFrom(d, i, parents, parse)| == LeafCountFrom(d, i)
    ensures i == 0 ==> |Flattened(d, parents, parse)| == LeafCount(d)
    decreases d, |d.entries| - i
  {
    if i < |d.entries| {
      var e := d.entries[i];
      assert e in d.entries;
      if e.item.Sub? { FlattenLength(e.item.dict, 0, parents + [e.key], parse); }
      FlattenLength(d, i + 1, parents, parse);
    }
  }

  /** An empty sub-map yields no param at all. */
  lemma EmptySubMapYieldsNothing(key: string, parents: seq<string>, parse: string -> Option<real>)
    ensures Flattened(Dict([Entry(key, Sub(Empty))]), parents, parse) == []
  {
    var d := Dict([Entry(key, Sub(Empty))]);
    assert FlattenFrom(Empty, 0, parents + [key], parse) == [];
    assert EntryParams(d, 0, parents, parse) == [];
    assert FlattenFrom(d, 1, parents, parse) == [];
  }

  /** A tree with at least one entry and no empty sub-map yields at least one param. */
  lemma {:induction false} FlattenNonEmpty(d: Dict, parents: seq<string>, parse: string -> Option<real>)
    requires |d.entries| > 0 && NoEmptySub(d)
    ensures |Flattened(d, parents, parse)| > 0
    decreases d
  {
    var e := d.entries[0];
    assert e in d.entries;
    if e.item.Sub? { FlattenNonEmpty(e.item.dict, parents + [e.key], parse); }
    assert |EntryParams(d, 0, parents, parse)| > 0;
  }

  /** Each param with one more key, `k`, in front of its parents. */
  function Under(k: string, ps: seq<Param>): (r: seq<Param>)
    ensures |r| == |ps|
    ensures forall j :: 0 <= j < |ps| ==> r[j] == Param(ps[j].name, ps[j].value, [k] + ps[j].parents)
  {
    if ps == [] then [] else [Param(ps[0].name, ps[0].value, [k] + ps[0].parents)] + Under(k, ps[1..])
  }

  lemma UnderAppend(k: string, a: seq<Param>, b: seq<Param>)
    ensures Under(k, a + b) == Under(k, a) + Under(k, b)
  {
  }

  /** Flattening under a longer parent path only puts the extra key in front of every param's parents. */
  lemma {:induction false} FlattenUnder(d: Dict, i: nat, k: string, parents: seq<string>, parse: string -> Option<real>)
    requires i <= |d.entries|
    ensures FlattenFrom(d, i, [k] + parents, parse) == Under(k, FlattenFrom(d, i, parents, parse))
    decreases d, |d.entries| - i
  {
    if i < |d.entries| {
      var e := d.entries[i];
      assert e in d.entries;
      if e.item.Sub? {
        Assoc([k], parents, [e.key]);
        FlattenUnder(e.item.dict, 0, k, parents + [e.key], parse);
      }
      FlattenUnder(d, i + 1, k, parents, parse);
      var head := EntryParams(d, i, parents, parse);
      UnderAppend(k, head, FlattenFrom(d, i + 1, parents, parse));
    }
  }

  /**
   * `x` is a leaf of `d` seen from `parents`: its parents extend `parents`, the rest of its
   * parents followed by its name is the key path of a non-map leaf, and its value is that leaf
   * coerced.
   */
  predicate LeafOf(d: Dict, parents: seq<string>, x: Param, parse: string -> Option<real>)
  {
    |parents| <= |x.parents| && x.parents[..|parents|] == parents &&
    var leaf := Lookup(d, x.parents[|parents|..] + [x.name]);
    leaf.Some? && leaf.value.Leaf? && x.value == Coerce(leaf.value.value, parse)
  }

  /** A leaf of the sub-map under key `k` is a leaf of the map one level up. */
  lemma LeafOfSub(d: Dict, k: string, sub: Dict, parents: seq<string>, x: Param, parse: string -> Option<real>)
    requires Get(d, k) == Some(Sub(sub)) && LeafOf(sub, parents + [k], x, parse)
    ensures LeafOf(d, parents, x, parse)
  {
    PrefixOfLonger(x.parents, parents, k);
    DropOneMore(x.parents, |parents|, [x.name]);
  }

  /** The param made from a plain value under key `k` is a leaf of the map. */
  lemma LeafOfLeaf(d: Dict, k: string, v: Value, parents: seq<string>, parse: string -> Option<real>)
    requires Get(d, k) == Some(Leaf(v))
    ensures LeafOf(d, parents, Param(k, Coerce(v, parse), parents), parse)
  {
    EmptyRest(parents, [k]);
  }

  /** Every param `flatten` emits is a leaf of the tree. */
  lemma {:induction false} FlattenSound(d: Dict, i: nat, parents: seq<string>, parse: string -> Option<real>, n: nat)
    requires Wf(d) && i <= |d.entries| && n < |FlattenFrom(d, i, parents, parse)|
    ensures LeafOf(d, parents, FlattenFrom(d, i, parents, parse)[n], parse)
    decreases d, |d.entries| - i
  {
    var e := d.entries[i];
    assert e in d.entries;
    var head := EntryParams(d, i, parents, parse);
    var rest := FlattenFrom(d, i + 1, parents, parse);
    assert FlattenFrom(d, i, parents, parse) == head + rest;
    if n < |head| {
      assert FlattenFrom(d, i, parents, parse)[n] == head[n];
      assert Get(d, e.key) == Some(e.item) by { GetAt(d, i); }
      match e.item
      case Leaf(v) =>
        LeafOfLeaf(d, e.key, v, parents, parse);
      case Sub(sub) =>
        FlattenSound(sub, 0, parents + [e.key], parse, n);
        LeafOfSub(d, e.key, sub, parents, head[n], parse);
    } else {
      assert FlattenFrom(d, i, parents, parse)[n] == rest[n - |head|];
      FlattenSound(d, i + 1, parents, parse, n - |head|);
    }
  }

  /** Later entries' params are part of the output from an earlier position. */
  lemma {:induction false} FlattenFromSuffix(d: Dict, i: nat, j: nat, parents: seq<string>, parse: string -> Option<real>, x: Param)
    requires i <= j <= |d.entries| && x in FlattenFrom(d, j, parents, parse)
    ensures x in FlattenFrom(d, i, parents, parse)
    decreases j - i
  {
    if i < j {
      assert x in FlattenFrom(d, i + 1, parents, parse) by {
        FlattenFromSuffix(d, i + 1, j, parents, parse, x);
      }
      var e := d.entries[i];
      assert e in d.entries;
      var head := EntryParams(d, i, parents, parse);
      assert FlattenFrom(d, i, parents, parse) == head + FlattenFrom(d, i + 1, parents, parse);
      InAppend(x, head, FlattenFrom(d, i + 1, parents, parse));
    }
  }

  /** Every non-map leaf, found by its key path `q`, is emitted as a param. */
  lemma {:induction false} FlattenComplete(d: Dict, q: seq<string>, parents: seq<string>, parse: string -> Option<real>)
    requires |q| >= 1 && Lookup(d, q).Some? && Lookup(d, q).value.Leaf?
    ensures Param(q[|q| - 1], Coerce(Lookup(d, q).value.value, parse), parents + q[..|q| - 1]) in Flattened(d, parents, parse)
    decreases |q|
  {
    var j := IndexOf(d.entries, q[0]).value;
    var e := d.entries[j];
    assert e in d.entries;
    var x := Param(q[|q| - 1], Coerce(Lookup(d, q).value.value, parse), parents + q[..|q| - 1]);
    match e.item
    case Leaf(v) =>
      assert |q| == 1;
      assert x == Param(e.key, Coerce(v, parse), parents);
      assert x in FlattenFrom(d, j, parents, parse);
      FlattenFromSuffix(d, 0, j, parents, parse, x);
    case Sub(sub) =>
      FlattenComplete(sub, q[1..], parents + [e.key], parse);
      ShiftInit(parents, q);
      assert x in FlattenFrom(d, j, parents, parse);
      FlattenFromSuffix(d, 0, j, parents, parse, x);
  }
}
