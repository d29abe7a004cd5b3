/**
 * `Params.__getitem__(item)`: the sub-tree of params whose first parent is `item`, each
 * copied with that first parent dropped. With no such param the lookup falls back to the
 * base class, which this model does not see.
 */
module Selection {
  import opened Wrappers
  import opened Values
  import opened Nested
  import opened ParamRecord
  import opened Flattening
  import opened Seqs

  /** The param sits directly or indirectly under key `k`. */
  predicate UnderKey(p: Param, k: string)
  {
    |p.parents| > 0 && p.parents[0] == k
  }

  /** The params `__getitem__(k)` copies, in their original order. */
  function Matching(ps: seq<Param>, k: string): (r: seq<Param>)
    ensures |r| <= |ps|
    decreases |ps|
  {
    if ps == [] then []
    else
      var last := ps[|ps| - 1];
      Matching(ps[..|ps| - 1], k) + (if UnderKey(last, k) then [last] else [])
  }

  /** Exactly the params under `k` are selected. */
  lemma {:induction false} MatchingMembers(ps: seq<Param>, k: string)
    ensures forall x :: x in Matching(ps, k) <==> x in ps && UnderKey(x, k)
    decreases |ps|
  {
    if ps != [] {
      var last := ps[|ps| - 1];
      assert forall x :: x in ps <==> x in ps[..|ps| - 1] || x == last by {
        FrontLast(ps);
      }
      MatchingMembers(ps[..|ps| - 1], k);
    }
  }

  /** Each param with its first parent dropped, in the same order. */
  function Stripped(ps: seq<Param>): (r: seq<Param>)
    requires forall x :: x in ps ==> |x.parents| > 0
    ensures |r| == |ps|
    ensures forall j :: 0 <= j < |ps| ==> r[j] == Param(ps[j].name, ps[j].value, ps[j].parents[1..])
  {
    seq(|ps|, j requires 0 <= j < |ps| => Param(ps[j].name, ps[j].value, ps[j].parents[1..]))
  }

  /** What `__getitem__` returns: a new collection, or the base class lookup of the key. */
  datatype Selection = Group(params: seq<Param>) | Delegated(key: string)

  /** The result of `__getitem__(k)` on the params `ps`. */
  function Selected(ps: seq<Param>, k: string): Selection
  {
    var m := Matching(ps, k);
    MatchingMembers(ps, k);
    assert forall x :: x in m ==> |x.parents| > 0;
    if |m| > 0 then Group(Stripped(m)) else Delegated(k)
  }

  /**
   * `__getitem__`: a first loop copies the params whose first parent is `item`, a second loop
   * drops that first parent from each copy. The receiver's params are values here, so the
   * copies leave them as they were.
   */
  method GetItem(ps: seq<Param>, item: string) returns (r: Selection)
    ensures r == Selected(ps, item)
  {
    var cand: seq<Param> := [];
    var i := 0;
    while i < |ps|
      invariant 0 <= i <= |ps|
      invariant cand == Matching(ps[..i], item)
    {
      TakeOfTake(ps, i);
      if |ps[i].parents| > 0 && ps[i].parents[0] == item {
        cand := cand + [ps[i]];
      }
      i := i + 1;
    }
    TakeAll(ps);
    ghost var m := cand;
    assert forall t :: 0 <= t < |m| ==> |m[t].parents| > 0 by {
      MatchingMembers(ps, item);
      forall t | 0 <= t < |m| ensures |m[t].parents| > 0 { assert m[t] in m; }
    }
    if |cand| > 0 {
      var j := 0;
      while j < |cand|
        invariant 0 <= j <= |cand| && |cand| == |m|
        invariant forall t :: 0 <= t < |m| ==> |m[t].parents| > 0
        invariant forall t :: 0 <= t < j ==> cand[t] == Param(m[t].name, m[t].value, m[t].parents[1..])
        invariant forall t :: j <= t < |cand| ==> cand[t] == m[t]
      {
        cand := cand[j := Param(cand[j].name, cand[j].value, cand[j].parents[1..])];
        j := j + 1;
      }
      r := Group(cand);
    } else {
      r := Delegated(item);
    }
  }

  /** Selection keeps the order of the params: it works on each part of a sequence separately. */
  lemma {:induction false} MatchingAppend(a: seq<Param>, b: seq<Param>, k: string)
    ensures Matching(a + b, k) == Matching(a, k) + Matching(b, k)
    decreases |b|
  {
    if b == [] {
      AppendEmpty(a);
    } else {
      FrontOfAppend(a, b);
      MatchingAppend(a, b[..|b| - 1], k);
    }
  }

  /** Params all placed under one more key `k2` are selected by `k` exactly when `k == k2`. */
  lemma {:induction false} MatchingUnder(k2: string, ps: seq<Param>, k: string)
    ensures Matching(Under(k2, ps), k) == if k == k2 then Under(k2, ps) else []
    decreases |ps|
  {
    if ps != [] {
      var u := Under(k2, ps);
      var init := Under(k2, ps[..|ps| - 1]);
      var last := u[|u| - 1];
      assert u == init + [last] by {
        FrontLast(ps);
        UnderAppend(k2, ps[..|ps| - 1], [ps[|ps| - 1]]);
      }
      assert Matching(u, k) == Matching(init, k) + (if UnderKey(last, k) then [last] else []) by {
        FrontOfAppend(init, [last]);
      }
      assert Matching(init, k) == (if k == k2 then init else []) by {
        MatchingUnder(k2, ps[..|ps| - 1], k);
      }
      assert UnderKey(last, k) <==> k == k2;
    }
  }

  /** Dropping the key put in front gives the params back. */
  lemma StrippedUnder(k: string, ps: seq<Param>)
    ensures Stripped(Under(k, ps)) == ps
  {
    var s := Stripped(Under(k, ps));
    assert forall j :: 0 <= j < |ps| ==> s[j] == ps[j];
  }

  /** What `k` selects from the params of entry `i`, followed by what it selects from the rest. */
  lemma MatchingEntry(d: Dict, i: nat, k: string, parse: string -> Option<real>)
    requires i < |d.entries|
    ensures var e := d.entries[i];
      Matching(FlattenFrom(d, i, [], parse), k) ==
        (if e.key == k && e.item.Sub? then Under(k, Flattened(e.item.dict, [], parse)) else [])
        + Matching(FlattenFrom(d, i + 1, [], parse), k)
  {
    var e := d.entries[i];
    assert e in d.entries;
    var rest := FlattenFrom(d, i + 1, [], parse);
    match e.item {
      case Leaf(v) =>
        var head := [Param(e.key, Coerce(v, parse), [])];
        assert FlattenFrom(d, i, [], parse) == head + rest;
        assert Matching(head, k) == [] by { assert head[..0] == []; }
        MatchingAppend(head, rest, k);
        AppendEmpty(Matching(rest, k));
      case Sub(x) =>
        var sub := Flattened(x, [], parse);
        AppendEmpty([e.key]);
        FlattenUnder(x, 0, e.key, [], parse);
        assert FlattenFrom(d, i, [], parse) == Under(e.key, sub) + rest;
        MatchingUnder(e.key, sub, k);
        MatchingAppend(Under(e.key, sub), rest, k);
        if e.key != k { AppendEmpty(Matching(rest, k)); }
    }
  }

  /** On a flat form, `k` selects the params of the sub-map under `k` and nothing else. */
  lemma {:induction false} MatchingFlattenFrom(d: Dict, i: nat, k: string, parse: string -> Option<real>)
    requires Wf(d) && i <= |d.entries|
    ensures var jk := IndexOf(d.entries, k);
      Matching(FlattenFrom(d, i, [], parse), k) ==
        if jk.Some? && i <= jk.value && d.entries[jk.value].item.Sub?
        then Under(k, Flattened(d.entries[jk.value].item.dict, [], parse))
        else []
    decreases |d.entries| - i
  {
    if i < |d.entries| {
      var e := d.entries[i];
      var jk := IndexOf(d.entries, k);
      var rest := Matching(FlattenFrom(d, i + 1, [], parse), k);
      var head := if e.key == k && e.item.Sub? then Under(k, Flattened(e.item.dict, [], parse)) else [];
      assert Matching(FlattenFrom(d, i, [], parse), k) == head + rest by {
        MatchingEntry(d, i, k, parse);
      }
      assert rest == if jk.Some? && i + 1 <= jk.value && d.entries[jk.value].item.Sub?
        then Under(k, Flattened(d.entries[jk.value].item.dict, [], parse))
        else [] by {
        MatchingFlattenFrom(d, i + 1, k, parse);
      }
      if e.key == k {
        assert jk == Some(i) by { GetAt(d, i); }
        AppendEmpty(head);
      } else {
        assert jk.Some? ==> jk.value != i;
        AppendEmpty(rest);
      }
    }
  }

  /**
   * Selecting a key of a loaded mapping: a sub-map gives the flat form of that sub-map; a
   * plain value or a missing key falls back to the base class.
   */
  lemma SelectFlattened(d: Dict, k: string, parse: string -> Option<real>)
    requires Wf(d)
    ensures Get(d, k).Some? && Get(d, k).value.Sub? && |Flattened(Get(d, k).value.dict, [], parse)| > 0 ==>
      Selected(Flattened(d, [], parse), k) == Group(Flattened(Get(d, k).value.dict, [], parse))
    ensures Get(d, k).Some? && Get(d, k).value.Sub? && |Flattened(Get(d, k).value.dict, [], parse)| == 0 ==>
      Selected(Flattened(d, [], parse), k) == Delegated(k)
    ensures !(Get(d, k).Some? && Get(d, k).value.Sub?) ==> Selected(Flattened(d, [], parse), k) == Delegated(k)
  {
    MatchingFlattenFrom(d, 0, k, parse);
    if Get(d, k).Some? && Get(d, k).value.Sub? {
      StrippedUnder(k, Flattened(Get(d, k).value.dict, [], parse));
    }
  }
}
