/**
 * Dumping the flat form: `to_yaml` rebuilds the mapping that `flatten` produced the params of.
 * This gives the mapping back, order included, when it has distinct keys (as every dict does),
 * no empty sub-map and only leaves `float()` keeps as they are. What the name-keyed `Params`
 * store does to the flat form in between is in `Loading`.
 */
module RoundTrip {
  import opened Wrappers
  import opened Values
  import opened Nested
  import opened ParamRecord
  import opened Flattening
  import opened Unflattening
  import opened Seqs

  /** Storing two runs of params is storing the first, then the second into the result. */
  lemma {:induction false} InsertAllAppend(d: Dict, a: seq<Param>, b: seq<Param>)
    ensures InsertAll(d, a + b) == (match InsertAll(d, a) case None => None case Some(d') => InsertAll(d', b))
    decreases |a|
  {
    if a != [] {
      HeadTailAppend(a, b);
      match Insert(d, a[0].parents, a[0].name, a[0].value)
      case None =>
      case Some(d') => InsertAllAppend(d', a[1..], b);
    } else {
      AppendEmpty(b);
    }
  }

  /** Storing one param under a key holding a sub-map updates that sub-map in place. */
  lemma InsertUnderKey(cur: Dict, j: nat, k: string, x: Dict, p: Param)
    requires IndexOf(cur.entries, k) == Some(j) && cur.entries[j].item == Sub(x)
    requires Insert(x, p.parents, p.name, p.value).Some?
    ensures Insert(cur, [k] + p.parents, p.name, p.value)
      == Some(Dict(cur.entries[j := Entry(k, Sub(Insert(x, p.parents, p.name, p.value).value))]))
  {
    var path := [k] + p.parents;
    assert path[0] == k && path[1..] == p.parents;
    assert Get(cur, k) == Some(Sub(x)) && !HoldsLeaf(cur, k) && Child(cur, k) == x;
  }

  /** Params placed under an existing sub-map `k` rebuild that sub-map in place. */
  lemma {:induction false} InsertAllUnder(cur: Dict, j: nat, k: string, x: Dict, ps: seq<Param>, y: Dict)
    requires IndexOf(cur.entries, k) == Some(j) && cur.entries[j].item == Sub(x)
    requires InsertAll(x, ps) == Some(y)
    ensures InsertAll(cur, Under(k, ps)) == Some(Dict(cur.entries[j := Entry(k, Sub(y))]))
    decreases |ps|
  {
    if ps == [] {
      UpdateSame(cur.entries, j, Entry(k, Sub(y)));
    } else {
      var p0 := ps[0];
      assert Insert(x, p0.parents, p0.name, p0.value).Some?;
      var x1 := Insert(x, p0.parents, p0.name, p0.value).value;
      assert InsertAll(x1, ps[1..]) == Some(y);
      var cur1 := Dict(cur.entries[j := Entry(k, Sub(x1))]);
      assert InsertAll(cur, Under(k, ps)) == InsertAll(cur1, Under(k, ps[1..])) by {
        assert Under(k, ps)[0] == Param(p0.name, p0.value, [k] + p0.parents);
        HeadTailAppend([Under(k, ps)[0]], Under(k, ps[1..]));
        InsertUnderKey(cur, j, k, x, p0);
      }
      assert IndexOf(cur1.entries, k) == Some(j) by {
        IndexOfAgree(cur1.entries, cur.entries, k);
      }
      InsertAllUnder(cur1, j, k, x1, ps[1..], y);
      UpdateTwice(cur.entries, j, Entry(k, Sub(x1)), Entry(k, Sub(y)));
    }
  }

  /** Storing one param under a key the map lacks appends a new sub-map for that key. */
  lemma InsertUnderNewKey(cur: Dict, k: string, p: Param)
    requires IndexOf(cur.entries, k).None? && Insert(Empty, p.parents, p.name, p.value).Some?
    ensures Insert(cur, [k] + p.parents, p.name, p.value)
      == Some(Dict(cur.entries + [Entry(k, Sub(Insert(Empty, p.parents, p.name, p.value).value))]))
  {
    var path := [k] + p.parents;
    assert path[0] == k && path[1..] == p.parents;
    assert Get(cur, k).None? && !HoldsLeaf(cur, k) && Child(cur, k) == Empty;
  }

  /** Params placed under a new key `k` append one sub-map holding exactly what they rebuild. */
  lemma InsertAllUnderNew(cur: Dict, k: string, ps: seq<Param>, y: Dict)
    requires IndexOf(cur.entries, k).None? && ps != []
    requires InsertAll(Empty, ps) == Some(y)
    ensures InsertAll(cur, Under(k, ps)) == Some(Dict(cur.entries + [Entry(k, Sub(y))]))
  {
    var p0 := ps[0];
    assert Insert(Empty, p0.parents, p0.name, p0.value).Some?;
    var x1 := Insert(Empty, p0.parents, p0.name, p0.value).value;
    assert InsertAll(x1, ps[1..]) == Some(y);
    var cur1 := Dict(cur.entries + [Entry(k, Sub(x1))]);
    assert InsertAll(cur, Under(k, ps)) == InsertAll(cur1, Under(k, ps[1..])) by {
      assert Under(k, ps)[0] == Param(p0.name, p0.value, [k] + p0.parents);
      assert Under(k, ps)[1..] == Under(k, ps[1..]);
      InsertUnderNewKey(cur, k, p0);
    }
    assert IndexOf(cur1.entries, k) == Some(|cur.entries|) by {
      IndexOfAppend(cur.entries, Entry(k, Sub(x1)), k);
    }
    InsertAllUnder(cur1, |cur.entries|, k, x1, ps[1..], y);
    UpdateLast(cur.entries, Entry(k, Sub(x1)), Entry(k, Sub(y)));
  }

  /**
   * Rebuilding the params of entry `i` into a map `cur` without its key appends that entry,
   * given that a sub-map under it rebuilds to itself.
   */
  lemma RoundTripEntry(d: Dict, i: nat, cur: Dict, parse: string -> Option<real>)
    requires i < |d.entries| && NoEmptySub(d) && AllStable(d, parse)
    requires IndexOf(cur.entries, d.entries[i].key).None?
    requires d.entries[i].item.Sub? ==> Rebuilt(Flattened(d.entries[i].item.dict, [], parse)) == Some(d.entries[i].item.dict)
    ensures InsertAll(cur, FlattenFrom(d, i, [], parse)) == InsertAll(Dict(cur.entries + [d.entries[i]]), FlattenFrom(d, i + 1, [], parse))
  {
    var e := d.entries[i];
    var rest := FlattenFrom(d, i + 1, [], parse);
    var cur' := Dict(cur.entries + [e]);
    match e.item {
      case Leaf(v) =>
        var head := [Param(e.key, Coerce(v, parse), [])];
        assert FlattenFrom(d, i, [], parse) == head + rest;
        assert Coerce(v, parse) == v;
        assert Insert(cur, [], e.key, v) == Some(cur');
        InsertAllAppend(cur, head, rest);
      case Sub(x) =>
        var sub := FlattenFrom(x, 0, [], parse);
        AppendEmpty([e.key]);
        FlattenUnder(x, 0, e.key, [], parse);
        assert FlattenFrom(d, i, [], parse) == Under(e.key, sub) + rest;
        FlattenNonEmpty(x, [], parse);
        InsertAllUnderNew(cur, e.key, sub, x);
        InsertAllAppend(cur, Under(e.key, sub), rest);
    }
  }

  /** Appending entry `i` to `cur` leaves the later keys of `d` still absent from it. */
  lemma KeysStayFresh(d: Dict, i: nat, cur: Dict)
    requires i < |d.entries| && DistinctKeys(d.entries)
    requires forall j :: i <= j < |d.entries| ==> IndexOf(cur.entries, d.entries[j].key).None?
    ensures forall j :: i + 1 <= j < |d.entries| ==> IndexOf(cur.entries + [d.entries[i]], d.entries[j].key).None?
  {
    forall j | i + 1 <= j < |d.entries| ensures IndexOf(cur.entries + [d.entries[i]], d.entries[j].key).None? {
      IndexOfAppend(cur.entries, d.entries[i], d.entries[j].key);
    }
  }

  /**
   * Rebuilding the params of the entries from position `i` on into a map `cur` that holds
   * none of their keys appends those very entries to `cur`.
   */
  lemma {:induction false} RoundTripFrom(d: Dict, i: nat, cur: Dict, parse: string -> Option<real>)
    requires i <= |d.entries|
    requires Wf(d) && NoEmptySub(d) && AllStable(d, parse)
    requires forall j :: i <= j < |d.entries| ==> IndexOf(cur.entries, d.entries[j].key).None?
    ensures InsertAll(cur, FlattenFrom(d, i, [], parse)) == Some(Dict(cur.entries + d.entries[i..]))
    decreases d, |d.entries| - i
  {
    if i == |d.entries| {
      AppendWhole(cur.entries, d.entries);
    } else {
      var e := d.entries[i];
      assert e in d.entries;
      if e.item.Sub? {
        RoundTripFrom(e.item.dict, 0, Empty, parse);
        AppendWhole(cur.entries, e.item.dict.entries);
        assert Rebuilt(Flattened(e.item.dict, [], parse)) == Some(e.item.dict);
      }
      KeysStayFresh(d, i, cur);
      RoundTripFrom(d, i + 1, Dict(cur.entries + [e]), parse);
      RoundTripStep(d, i, cur, parse);
    }
  }

  /** One step of `RoundTripFrom`, given its result for the sub-map of entry `i` and for the entries after it. */
  lemma RoundTripStep(d: Dict, i: nat, cur: Dict, parse: string -> Option<real>)
    requires i < |d.entries| && NoEmptySub(d) && AllStable(d, parse)
    requires IndexOf(cur.entries, d.entries[i].key).None?
    requires d.entries[i].item.Sub? ==>
      Rebuilt(Flattened(d.entries[i].item.dict, [], parse)) == Some(d.entries[i].item.dict)
    requires InsertAll(Dict(cur.entries + [d.entries[i]]), FlattenFrom(d, i + 1, [], parse))
      == Some(Dict(cur.entries + [d.entries[i]] + d.entries[i + 1..]))
    ensures InsertAll(cur, FlattenFrom(d, i, [], parse)) == Some(Dict(cur.entries + d.entries[i..]))
  {
    RoundTripEntry(d, i, cur, parse);
    AppendNext(cur.entries, d.entries, i);
  }

  /** `to_yaml` after `flatten` gives back the loaded mapping. */
  lemma RoundTrip(d: Dict, parse: string -> Option<real>)
    requires Wf(d) && NoEmptySub(d) && AllStable(d, parse)
    ensures Rebuilt(Flattened(d, [], parse)) == Some(d)
  {
    RoundTripFrom(d, 0, Empty, parse);
    AppendWhole(Empty.entries, d.entries);
  }

  /** An empty sub-map does not survive the round trip: `{"a": {}}` comes back as `{}`. */
  lemma EmptySubMapLost(parse: string -> Option<real>)
    ensures Rebuilt(Flattened(Dict([Entry("a", Sub(Empty))]), [], parse)) == Some(Empty)
    ensures Some(Empty) != Some(Dict([Entry("a", Sub(Empty))]))
  {
    EmptySubMapYieldsNothing("a", [], parse);
  }

  /** A number is stored back as a float: `{"n": 100}` comes back as `{"n": 100.0}`. */
  lemma IntegerComesBackAsFloat(parse: string -> Option<real>)
    ensures Rebuilt(Flattened(Dict([Entry("n", Leaf(Int(100)))]), [], parse)) == Some(Dict([Entry("n", Leaf(Float(100.0)))]))
  {
    var d := Dict([Entry("n", Leaf(Int(100)))]);
    assert FlattenFrom(d, 1, [], parse) == [];
    var p := Param("n", Float(100.0), []);
    assert Flattened(d, [], parse) == [p];
    assert Insert(Empty, [], "n", Float(100.0)) == Some(Dict([Entry("n", Leaf(Float(100.0)))]));
    assert InsertAll(Empty, [p]) == InsertAll(Dict([Entry("n", Leaf(Float(100.0)))]), []);
  }
}
