/**
 * `Params.from_file`: the flat form of the loaded mapping is handed to the `Params` store,
 * which is keyed by param name (`Params[str, Param]`, filled with `self[x] = Param(x, ...)`).
 * Adding a param whose name is already stored replaces the stored one in its position, as a
 * Python dict does, so leaves with the same name under different parents collapse to one.
 */
module Loading {
  import opened Wrappers
  import opened Values
  import opened Nested
  import opened ParamRecord
  import opened Flattening
  import opened Unflattening
  import opened RoundTrip

  /** Position of the stored param named `name`, as a lookup by key finds it. */
  function NameIndex(ps: seq<Param>, name: string): (r: Option<nat>)
    ensures r.None? <==> forall j :: 0 <= j < |ps| ==> ps[j].name != name
    ensures r.Some? ==> r.value < |ps| && ps[r.value].name == name
  {
    if ps == [] then None
    else if ps[0].name == name then Some(0)
    else match NameIndex(ps[1..], name)
      case None => None
      case Some(j) => Some(j + 1)
  }

  /** `store[p.name] = p`: a stored name keeps its position and takes the new param. */
  function StoreOne(store: seq<Param>, p: Param): (r: seq<Param>)
    ensures p in r
    ensures forall x :: x in r ==> x == p || x in store
    ensures NameIndex(store, p.name).None? ==> |r| == |store| + 1 && r[..|store|] == store && r[|store|] == p
    ensures NameIndex(store, p.name).Some? ==> |r| == |store|
    ensures DistinctNames(store) ==>
      forall j :: 0 <= j < |store| ==> r[j] == (if store[j].name == p.name then p else store[j])
  {
    match NameIndex(store, p.name)
    case Some(j) =>
      assert store[j := p][j] == p;
      store[j := p]
    case None =>
      assert (store + [p])[|store|] == p;
      store + [p]
  }

  /** Adding the params one after the other. */
  function StoreAll(store: seq<Param>, ps: seq<Param>): seq<Param>
    decreases |ps|
  {
    if ps == [] then store else StoreAll(StoreOne(store, ps[0]), ps[1..])
  }

  /** The params the store holds, in its order, after being built from `ps`. */
  function Stored(ps: seq<Param>): seq<Param>
  {
    StoreAll([], ps)
  }

  /** No name is held twice. */
  predicate DistinctNames(ps: seq<Param>)
  {
    forall i, j :: 0 <= i < j < |ps| ==> ps[i].name != ps[j].name
  }

  /** The store never holds a name twice. */
  lemma StoreOneDistinct(store: seq<Param>, p: Param)
    requires DistinctNames(store)
    ensures DistinctNames(StoreOne(store, p))
  {
    var r := StoreOne(store, p);
    match NameIndex(store, p.name)
    case Some(j) =>
      forall a, b | 0 <= a < b < |r| ensures r[a].name != r[b].name {
        if a == j { assert r[b] == store[b]; }
        else if b == j { assert r[a] == store[a]; }
        else { assert r[a] == store[a] && r[b] == store[b]; }
      }
    case None =>
      forall a, b | 0 <= a < b < |r| ensures r[a].name != r[b].name {
        assert r[a] == store[a];
        if b < |store| { assert r[b] == store[b]; }
      }
  }

  lemma {:induction false} StoreAllDistinct(store: seq<Param>, ps: seq<Param>)
    requires DistinctNames(store)
    ensures DistinctNames(StoreAll(store, ps))
    decreases |ps|
  {
    if ps != [] {
      StoreOneDistinct(store, ps[0]);
      StoreAllDistinct(StoreOne(store, ps[0]), ps[1..]);
    }
  }

  /** Params whose names are all distinct are stored as they come, in order. */
  lemma {:induction false} StoreAllDistinctNames(store: seq<Param>, ps: seq<Param>)
    requires DistinctNames(store + ps)
    ensures StoreAll(store, ps) == store + ps
    decreases |ps|
  {
    if ps != [] {
      forall j | 0 <= j < |store| ensures store[j].name != ps[0].name {
        assert (store + ps)[j] == store[j] && (store + ps)[|store|] == ps[0];
      }
      var next := store + [ps[0]];
      assert next + ps[1..] == store + ps;
      StoreAllDistinctNames(next, ps[1..]);
    }
  }

  /** The store built from params with distinct names holds exactly those params. */
  lemma StoredDistinctNames(ps: seq<Param>)
    requires DistinctNames(ps)
    ensures Stored(ps) == ps
  {
    assert [] + ps == ps;
    StoreAllDistinctNames([], ps);
  }

  /** What `Params.from_file` holds for the loaded mapping `d`. */
  function FromFile(d: Dict, parse: string -> Option<real>): seq<Param>
  {
    Stored(Flattened(d, [], parse))
  }

  /** The store loaded from a file never holds a name twice. */
  lemma FromFileDistinct(d: Dict, parse: string -> Option<real>)
    ensures DistinctNames(FromFile(d, parse))
  {
    StoreAllDistinct([], Flattened(d, [], parse));
  }

  /**
   * `to_yaml` after `from_file` gives the mapping back when, besides the conditions of
   * `RoundTrip`, no two leaves of the tree share a name.
   */
  lemma LoadRoundTrip(d: Dict, parse: string -> Option<real>)
    requires Wf(d) && NoEmptySub(d) && AllStable(d, parse)
    requires DistinctNames(Flattened(d, [], parse))
    ensures FromFile(d, parse) == Flattened(d, [], parse)
    ensures Rebuilt(FromFile(d, parse)) == Some(d)
  {
    StoredDistinctNames(Flattened(d, [], parse));
    RoundTrip.RoundTrip(d, parse);
  }

  /** Two leaves named `x`: `{"a": {"x": 1}, "b": {"x": 2}}` comes back as `{"b": {"x": 2.0}}`. */
  lemma SameLeafNameLost(parse: string -> Option<real>)
    ensures var d := Dict([Entry("a", Sub(Dict([Entry("x", Leaf(Int(1)))]))), Entry("b", Sub(Dict([Entry("x", Leaf(Int(2)))])))]);
      Rebuilt(FromFile(d, parse)) == Some(Dict([Entry("b", Sub(Dict([Entry("x", Leaf(Float(2.0)))])))]))
  {
    var a := Dict([Entry("x", Leaf(Int(1)))]);
    var b := Dict([Entry("x", Leaf(Int(2)))]);
    var d := Dict([Entry("a", Sub(a)), Entry("b", Sub(b))]);
    var pa := Param("x", Float(1.0), ["a"]);
    var pb := Param("x", Float(2.0), ["b"]);
    assert FlattenFrom(a, 1, ["a"], parse) == [] && FlattenFrom(b, 1, ["b"], parse) == [];
    assert FlattenFrom(a, 0, ["a"], parse) == [pa];
    assert FlattenFrom(b, 0, ["b"], parse) == [pb];
    assert [] + ["a"] == ["a"] && [] + ["b"] == ["b"];
    assert EntryParams(d, 0, [], parse) == [pa];
    assert EntryParams(d, 1, [], parse) == [pb];
    assert FlattenFrom(d, 2, [], parse) == [];
    assert FlattenFrom(d, 1, [], parse) == [pb];
    assert Flattened(d, [], parse) == [pa] + [pb];
    assert StoreOne([], pa) == [pa];
    assert StoreOne([pa], pb) == [pb];
    assert FromFile(d, parse) == [pb] by {
      assert ([pa] + [pb])[0] == pa && ([pa] + [pb])[1..] == [pb] && [pb][1..] == [];
      assert StoreAll([], [pa] + [pb]) == StoreAll([pa], [pb]);
      assert StoreAll([pa], [pb]) == StoreAll([pb], []);
    }
    assert [pb][0] == pb && [pb][1..] == [];
    assert InsertAll(Empty, [pb]) == InsertAll(Dict([Entry("b", Sub(Dict([Entry("x", Leaf(Float(2.0)))])))]), []);
    var leaf := Dict([Entry("x", Leaf(Float(2.0)))]);
    assert Insert(Empty, [], "x", Float(2.0)) == Some(leaf);
    assert Insert(Empty, ["b"], "x", Float(2.0)) == Some(Dict([Entry("b", Sub(leaf))]));
  }
}
