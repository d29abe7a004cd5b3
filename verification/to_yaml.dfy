/**
 * `Params.to_yaml`: from the flat form back to the nested form. For each param a cursor
 * starts at the root map and moves down with `setdefault(k, {})` for every parent key; the
 * param is then stored in the map under the cursor with `update({name: value})`.
 */
module Unflattening {
  import opened Wrappers
  import opened Values
  import opened Nested
  import opened ParamRecord
  import opened Seqs

  /**
   * The nested map after storing `v` under `name` at the end of the key path `path`, creating
   * the missing maps on the way; None when the walk meets a non-map value, on which
   * `setdefault` or `update` raises AttributeError.
   */
  function Insert(d: Dict, path: seq<string>, name: string, v: Value): Option<Dict>
    decreases |path|
  {
    if path == [] then Some(Put(d, name, Leaf(v)))
    else if HoldsLeaf(d, path[0]) then None
    else Graft(d, path[0], Insert(Child(d, path[0]), path[1..], name, v))
  }

  /** The key holds a non-map value. */
  predicate HoldsLeaf(d: Dict, k: string)
  {
    Get(d, k).Some? && Get(d, k).value.Leaf?
  }

  /** The map under key `k`, or the fresh `{}` that `setdefault` would put there. */
  function Child(d: Dict, k: string): Dict
  {
    match Get(d, k)
    case Some(Sub(x)) => x
    case _ => Empty
  }

  /** Storing the (possibly failed) new version of the map under `k`. */
  function Graft(d: Dict, k: string, r: Option<Dict>): Option<Dict>
  {
    match r
    case None => None
    case Some(s) => Some(Put(d, k, Sub(s)))
  }

  /** Storing the params one after the other, in their order. */
  function InsertAll(d: Dict, ps: seq<Param>): Option<Dict>
    decreases |ps|
  {
    if ps == [] then Some(d)
    else match Insert(d, ps[0].parents, ps[0].name, ps[0].value)
      case None => None
      case Some(d') => InsertAll(d', ps[1..])
  }

  /** What `to_yaml` returns for the params `ps`, starting from `d = {}`. */
  function Rebuilt(ps: seq<Param>): Option<Dict>
  {
    InsertAll(Empty, ps)
  }

  /** The cursor is on a non-map value after walking the first `j` keys of `path`, for some j >= 1. */
  predicate Blocked(d: Dict, path: seq<string>)
  {
    exists j :: 1 <= j <= |path| && Lookup(d, path[..j]).Some? && Lookup(d, path[..j]).value.Leaf?
  }

  /** Walking one key further from a map reaches that map's entry for the key. */
  lemma {:induction false} LookupExtend(d: Dict, at: seq<string>, k: string)
    requires Lookup(d, at).Some? && Lookup(d, at).value.Sub?
    ensures var x := Lookup(d, at).value.dict;
      Lookup(d, at + [k]) == (match Get(x, k) case Some(Sub(s)) => Some(Sub(s)) case other => other)
    decreases |at|
  {
    if at != [] {
      HeadTailAppend(at, [k]);
      LookupExtend(Get(d, at[0]).value.dict, at[1..], k);
    }
  }

  /** `p.setdefault(k, {})` where the cursor `p` is the map reached by the key path `at`. */
  function SetDefaultAt(d: Dict, at: seq<string>, k: string): (r: Dict)
    requires Lookup(d, at).Some? && Lookup(d, at).value.Sub?
    ensures Lookup(r, at + [k]).Some?
    ensures Lookup(d, at + [k]).Some? ==> Lookup(r, at + [k]) == Lookup(d, at + [k])
    ensures Lookup(d, at + [k]).None? ==> Lookup(r, at + [k]) == Some(Sub(Empty))
    decreases |at|
  {
    LookupExtend(d, at, k);
    if at == [] then
      var r := SetDefault(d, k).0;
      LookupExtend(r, at, k);
      r
    else
      var x := Get(d, at[0]).value.dict;
      var r := Put(d, at[0], Sub(SetDefaultAt(x, at[1..], k)));
      HeadTailAppend(at, [k]);
      r
  }

  /** `setdefault` on a key already present changes nothing, and no path leaving `at + [k]` changes. */
  lemma {:induction false} SetDefaultAtKeeps(d: Dict, at: seq<string>, k: string, q: seq<string>)
    requires Lookup(d, at).Some? && Lookup(d, at).value.Sub?
    ensures Lookup(d, at + [k]).Some? ==> SetDefaultAt(d, at, k) == d
    ensures Diverge(q, at + [k]) ==> Lookup(SetDefaultAt(d, at, k), q) == Lookup(d, q)
    decreases |at|
  {
    var full := at + [k];
    if at == [] {
      assert full == [k];
      if Get(d, k).None? {
        PutFrame(d, k, Sub(Empty));
        if Diverge(q, full) {
          assert q[0] != k;
        }
      }
    } else {
      var x := Get(d, at[0]).value.dict;
      var x' := SetDefaultAt(x, at[1..], k);
      HeadTailAppend(at, [k]);
      SetDefaultAtKeeps(x, at[1..], k, if q == [] then q else q[1..]);
      if Lookup(d, full).Some? {
        PutSame(d, at[0], Sub(x));
      }
      if Diverge(q, full) {
        if q[0] != full[0] {
          PutFrame(d, at[0], Sub(x'));
        } else {
          var i :| 0 <= i < |q| && i < |full| && q[i] != full[i];
          assert q[1..][i - 1] != full[1..][i - 1];
        }
      }
    }
  }

  /** `p.update({k: it})` where the cursor `p` is the map reached by the key path `at`. */
  function UpdateAt(d: Dict, at: seq<string>, k: string, it: Item): (r: Dict)
    requires Lookup(d, at).Some? && Lookup(d, at).value.Sub?
    ensures Lookup(r, at + [k]) == Some(it)
    decreases |at|
  {
    if at == [] then
      var r := Put(d, k, it);
      LookupExtend(r, at, k);
      r
    else
      var x := Get(d, at[0]).value.dict;
      var r := Put(d, at[0], Sub(UpdateAt(x, at[1..], k, it)));
      HeadTailAppend(at, [k]);
      r
  }

  /** An update at the cursor leaves every key path that leaves `at + [k]` as it was. */
  lemma {:induction false} UpdateAtKeeps(d: Dict, at: seq<string>, k: string, it: Item, q: seq<string>)
    requires Lookup(d, at).Some? && Lookup(d, at).value.Sub? && Diverge(q, at + [k])
    ensures Lookup(UpdateAt(d, at, k, it), q) == Lookup(d, q)
    decreases |at|
  {
    var full := at + [k];
    if at == [] {
      assert full == [k] && q[0] != k;
      PutFrame(d, k, it);
    } else {
      var x := Get(d, at[0]).value.dict;
      HeadTailAppend(at, [k]);
      if q[0] != full[0] {
        PutFrame(d, at[0], Sub(UpdateAt(x, at[1..], k, it)));
      } else {
        var i :| 0 <= i < |q| && i < |full| && q[i] != full[i];
        assert q[1..][i - 1] != full[1..][i - 1];
        UpdateAtKeeps(x, at[1..], k, it, q[1..]);
      }
    }
  }

  /** Walking into an existing sub-map stores the param into it. */
  lemma InsertIntoSub(d: Dict, path: seq<string>, x: Dict, name: string, v: Value)
    requires path != [] && Get(d, path[0]) == Some(Sub(x))
    ensures Insert(d, path, name, v) == Graft(d, path[0], Insert(x, path[1..], name, v))
  {
    assert !HoldsLeaf(d, path[0]) && Child(d, path[0]) == x;
  }

  /** A `setdefault` at the root, for the first key of `path`, does not change where the param ends up. */
  lemma SetDefaultKeepsInsertHere(d: Dict, path: seq<string>, name: string, v: Value)
    requires path != []
    ensures Insert(SetDefault(d, path[0]).0, path, name, v) == Insert(d, path, name, v)
  {
    var k := path[0];
    if Get(d, k).None? {
      var d' := Put(d, k, Sub(Empty));
      assert SetDefault(d, k).0 == d';
      InsertIntoSub(d', path, Empty, name, v);
      assert Child(d, k) == Empty && !HoldsLeaf(d, k);
      GraftPut(d, k, Sub(Empty), Insert(Empty, path[1..], name, v));
    }
  }

  /** A `setdefault` on the walk of `path` does not change where the param ends up. */
  lemma {:induction false} SetDefaultKeepsInsert(d: Dict, at: seq<string>, path: seq<string>, name: string, v: Value)
    requires |at| < |path| && path[..|at|] == at
    requires Lookup(d, at).Some? && Lookup(d, at).value.Sub?
    ensures Insert(SetDefaultAt(d, at, path[|at|]), path, name, v) == Insert(d, path, name, v)
    decreases |at|
  {
    var k := path[|at|];
    if at == [] {
      assert SetDefaultAt(d, at, k) == SetDefault(d, k).0;
      SetDefaultKeepsInsertHere(d, path, name, v);
    } else {
      SetDefaultAtStep(d, at, k);
      var x := Get(d, at[0]).value.dict;
      var x' := SetDefaultAt(x, at[1..], k);
      assert Insert(x', path[1..], name, v) == Insert(x, path[1..], name, v) by {
        TailOfPrefix(path, at);
        assert path[1..][|at[1..]|] == k;
        SetDefaultKeepsInsert(x, at[1..], path[1..], name, v);
      }
      assert path[0] == at[0];
      InsertReplacingSub(d, path, x, x', name, v);
    }
  }

  /** Below the root, `setdefault` at `at` rebuilds the path down to the changed map. */
  lemma SetDefaultAtStep(d: Dict, at: seq<string>, k: string)
    requires at != [] && Lookup(d, at).Some? && Lookup(d, at).value.Sub?
    ensures Get(d, at[0]).Some? && Get(d, at[0]).value.Sub?
    ensures var x := Get(d, at[0]).value.dict;
      Lookup(x, at[1..]).Some? && Lookup(x, at[1..]).value.Sub? &&
      SetDefaultAt(d, at, k) == Put(d, at[0], Sub(SetDefaultAt(x, at[1..], k)))
  {
  }

  /** Replacing the sub-map on the walk by one that stores the param alike changes nothing. */
  lemma InsertReplacingSub(d: Dict, path: seq<string>, x: Dict, x': Dict, name: string, v: Value)
    requires path != [] && Get(d, path[0]) == Some(Sub(x))
    requires Insert(x', path[1..], name, v) == Insert(x, path[1..], name, v)
    ensures Insert(Put(d, path[0], Sub(x')), path, name, v) == Insert(d, path, name, v)
  {
    var inner := Insert(x, path[1..], name, v);
    InsertIntoSub(Put(d, path[0], Sub(x')), path, x', name, v);
    InsertIntoSub(d, path, x, name, v);
    GraftPut(d, path[0], Sub(x'), inner);
  }

  /** Grafting over a key just updated is grafting over the original map. */
  lemma GraftPut(d: Dict, k: string, it: Item, r: Option<Dict>)
    ensures Graft(Put(d, k, it), k, r) == Graft(d, k, r)
  {
    if r.Some? { PutPut(d, k, it, Sub(r.value)); }
  }

  /** Once the cursor is on the map at the end of `path`, storing the param is a plain update. */
  lemma {:induction false} InsertAtMap(d: Dict, path: seq<string>, name: string, v: Value)
    requires Lookup(d, path).Some? && Lookup(d, path).value.Sub?
    ensures Insert(d, path, name, v) == Some(UpdateAt(d, path, name, Leaf(v)))
    decreases |path|
  {
    if path != [] {
      InsertAtMap(Get(d, path[0]).value.dict, path[1..], name, v);
    }
  }

  /** A non-map value on the walk makes storing fail. */
  lemma {:induction false} InsertBlocked(d: Dict, at: seq<string>, path: seq<string>, name: string, v: Value)
    requires 1 <= |at| <= |path| && path[..|at|] == at
    requires Lookup(d, at).Some? && Lookup(d, at).value.Leaf?
    ensures Insert(d, path, name, v) == None
    decreases |at|
  {
    TailOfPrefix(path, at);
    match Get(d, at[0])
    case Some(Sub(x)) =>
      InsertBlocked(x, at[1..], path[1..], name, v);
    case Some(Leaf(_)) =>
  }

  /** Into a fresh map every walk succeeds. */
  lemma {:induction false} InsertIntoEmpty(path: seq<string>, name: string, v: Value)
    ensures Insert(Empty, path, name, v).Some?
    decreases |path|
  {
    if path != [] { InsertIntoEmpty(path[1..], name, v); }
  }

  /** Storing fails only when the walk along the parents meets a non-map value. */
  lemma {:induction false} FailureIsBlocked(d: Dict, path: seq<string>, name: string, v: Value)
    requires Insert(d, path, name, v).None?
    ensures Blocked(d, path)
    decreases |path|
  {
    if HoldsLeaf(d, path[0]) {
      assert path[..1] == [path[0]];
      assert Lookup(d, path[..1]).value.Leaf?;
    } else if Get(d, path[0]).Some? {
      var x := Child(d, path[0]);
      FailureIsBlocked(x, path[1..], name, v);
      var j :| 1 <= j <= |path[1..]| && Lookup(x, path[1..][..j]).Some? && Lookup(x, path[1..][..j]).value.Leaf?;
      TailOfTake(path, j + 1);
      assert Lookup(d, path[..j + 1]).value.Leaf?;
    } else {
      InsertIntoEmpty(path[1..], name, v);
      assert false;
    }
  }

  /** Storing fails exactly when the walk along the parents meets a non-map value. */
  lemma InsertFailsIffBlocked(d: Dict, path: seq<string>, name: string, v: Value)
    ensures Insert(d, path, name, v).None? <==> Blocked(d, path)
  {
    if Blocked(d, path) {
      var j :| 1 <= j <= |path| && Lookup(d, path[..j]).Some? && Lookup(d, path[..j]).value.Leaf?;
      InsertBlocked(d, path[..j], path, name, v);
    }
    if Insert(d, path, name, v).None? {
      FailureIsBlocked(d, path, name, v);
    }
  }

  /** After storing, the param's value sits at its parents followed by its name. */
  lemma {:induction false} InsertPlaces(d: Dict, path: seq<string>, name: string, v: Value)
    requires Insert(d, path, name, v).Some?
    ensures Lookup(Insert(d, path, name, v).value, path + [name]) == Some(Leaf(v))
    decreases |path|
  {
    if path != [] {
      var k, x := path[0], Child(d, path[0]);
      var x' := Insert(x, path[1..], name, v).value;
      assert Insert(d, path, name, v) == Some(Put(d, k, Sub(x')));
      InsertPlaces(x, path[1..], name, v);
      var q := path + [name];
      HeadTailAppend(path, [name]);
      assert Get(Put(d, k, Sub(x')), k) == Some(Sub(x'));
      assert Lookup(Put(d, k, Sub(x')), q) == Lookup(x', q[1..]);
    }
  }

  /** Neither key path is a prefix of the other. */
  predicate Diverge(p: seq<string>, q: seq<string>)
  {
    exists i :: 0 <= i < |p| && i < |q| && p[i] != q[i]
  }

  /**
   * Storing a param discards nothing else: every key path that leaves the param's own path
   * reaches what it reached before.
   */
  lemma {:induction false} InsertKeepsOthers(d: Dict, path: seq<string>, name: string, v: Value, q: seq<string>)
    requires Insert(d, path, name, v).Some? && Diverge(q, path + [name])
    ensures Lookup(Insert(d, path, name, v).value, q) == Lookup(d, q)
    decreases |path|
  {
    var r := Insert(d, path, name, v).value;
    var full := path + [name];
    if q[0] != full[0] {
      if path == [] {
        PutFrame(d, name, Leaf(v));
      } else {
        PutFrame(d, path[0], Sub(Insert(Child(d, path[0]), path[1..], name, v).value));
      }
    } else {
      var i :| 0 <= i < |q| && i < |full| && q[i] != full[i];
      assert i >= 1 && path != [];
      var x := Child(d, path[0]);
      HeadTailAppend(path, [name]);
      assert q[1..][i - 1] != full[1..][i - 1];
      InsertKeepsOthers(x, path[1..], name, v, q[1..]);
    }
  }

  /** Storing keeps keys distinct at every level. */
  lemma {:induction false} InsertWf(d: Dict, path: seq<string>, name: string, v: Value)
    requires Wf(d) && Insert(d, path, name, v).Some?
    ensures Wf(Insert(d, path, name, v).value)
    decreases |path|
  {
    if path == [] {
      PutWf(d, name, Leaf(v));
    } else {
      var x := Child(d, path[0]);
      if Get(d, path[0]).Some? {
        var j := IndexOf(d.entries, path[0]).value;
        assert d.entries[j] in d.entries;
      }
      InsertWf(x, path[1..], name, v);
      PutWf(d, path[0], Sub(Insert(x, path[1..], name, v).value));
    }
  }

  /** An update keeps keys distinct when the stored item has distinct keys. */
  lemma PutWf(d: Dict, k: string, it: Item)
    requires Wf(d) && (it.Sub? ==> Wf(it.dict))
    ensures Wf(Put(d, k, it))
  {
    var r := Put(d, k, it);
    forall i | 0 <= i < |r.entries| && r.entries[i].item.Sub?
      ensures Wf(r.entries[i].item.dict)
    {
      if r.entries[i].key != k {
        assert r.entries[i] == d.entries[i];
      }
    }
  }

  /**
   * One turn of the loop of `to_yaml`: a cursor walks down from the root map with
   * `setdefault(k, {})` for every parent key, then the value is stored with `update`. The
   * cursor is the key path walked so far; a non-map value under the cursor makes the next
   * `setdefault` or `update` raise, and the result is None.
   */
  method Place(d: Dict, x: Param) returns (r: Option<Dict>)
    ensures r == Insert(d, x.parents, x.name, x.value)
  {
    var cur := d;
    var j := 0;
    while j < |x.parents|
      invariant 0 <= j <= |x.parents|
      invariant Lookup(cur, x.parents[..j]).Some?
      invariant Insert(cur, x.parents, x.name, x.value) == Insert(d, x.parents, x.name, x.value)
    {
      if Lookup(cur, x.parents[..j]).value.Leaf? {
        InsertBlocked(cur, x.parents[..j], x.parents, x.name, x.value);
        return None;
      }
      WalkStep(cur, x.parents, j, x.name, x.value);
      cur := SetDefaultAt(cur, x.parents[..j], x.parents[j]);
      j := j + 1;
    }
    TakeAll(x.parents);
    if Lookup(cur, x.parents).value.Leaf? {
      InsertBlocked(cur, x.parents, x.parents, x.name, x.value);
      return None;
    }
    InsertAtMap(cur, x.parents, x.name, x.value);
    r := Some(UpdateAt(cur, x.parents, x.name, Leaf(x.value)));
  }

  /** One `setdefault` of the walk in `Place`: the cursor moves one key down and the outcome is kept. */
  lemma WalkStep(cur: Dict, path: seq<string>, j: nat, name: string, v: Value)
    requires j < |path| && Lookup(cur, path[..j]).Some? && Lookup(cur, path[..j]).value.Sub?
    ensures var next := SetDefaultAt(cur, path[..j], path[j]);
      Lookup(next, path[..j + 1]).Some? && Insert(next, path, name, v) == Insert(cur, path, name, v)
  {
    var at, k := path[..j], path[j];
    var next := SetDefaultAt(cur, at, k);
    assert Insert(next, path, name, v) == Insert(cur, path, name, v) by {
      assert path[..|at|] == at && path[|at|] == k;
      SetDefaultKeepsInsert(cur, at, path, name, v);
    }
    assert Lookup(next, at + [k]).Some?;
    PrefixExtend(path, j);
  }

  /** `to_yaml`: start from `d = {}` and place every param in turn. */
  method ToYaml(ps: seq<Param>) returns (r: Option<Dict>)
    ensures r == Rebuilt(ps)
  {
    var d := Empty;
    var i := 0;
    while i < |ps|
      invariant 0 <= i <= |ps|
      invariant InsertAll(d, ps[i..]) == Rebuilt(ps)
    {
      SuffixCons(ps, i);
      var placed := Place(d, ps[i]);
      if placed.None? {
        return None;
      }
      d := placed.value;
      i := i + 1;
    }
    r := Some(d);
  }
}
