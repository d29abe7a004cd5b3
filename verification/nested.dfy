/**
 * The nested form of the parameter tree: a Python dict loaded from YAML, whose values are
 * either leaves or further dicts. Entries keep insertion order, as Python dicts do.
 */
module Nested {
  import opened Wrappers
  import opened Values

  datatype Dict = Dict(entries: seq<Entry>)
  datatype Entry = Entry(key: string, item: Item)
  datatype Item = Leaf(value: Value) | Sub(dict: Dict)

  const Empty := Dict([])

  /** Position of key `k`: the first entry holding it, as a dict lookup finds it. */
  function IndexOf(es: seq<Entry>, k: string): (r: Option<nat>)
    ensures r.None? <==> forall j :: 0 <= j < |es| ==> es[j].key != k
    ensures r.Some? ==> r.value < |es| && es[r.value].key == k
    ensures r.Some? ==> forall j :: 0 <= j < r.value ==> es[j].key != k
  {
    if es == [] then None
    else if es[0].key == k then Some(0)
    else match IndexOf(es[1..], k)
      case None => None
      case Some(j) => Some(j + 1)
  }

  /** `d.get(k)`. */
  function Get(d: Dict, k: string): Option<Item>
  {
    match IndexOf(d.entries, k)
    case Some(j) => Some(d.entries[j].item)
    case None => None
  }

  /** Two entry lists that agree on where key `k` occurs find it at the same position. */
  lemma IndexOfAgree(a: seq<Entry>, b: seq<Entry>, k: string)
    requires |a| == |b|
    requires forall j :: 0 <= j < |a| ==> (a[j].key == k <==> b[j].key == k)
    ensures IndexOf(a, k) == IndexOf(b, k)
  {
  }

  /** Appending an entry does not move the keys already present. */
  lemma IndexOfAppend(a: seq<Entry>, e: Entry, k: string)
    ensures IndexOf(a + [e], k) == (if IndexOf(a, k).Some? then IndexOf(a, k) else if e.key == k then Some(|a|) else None)
  {
    var r := IndexOf(a + [e], k);
    if IndexOf(a, k).Some? {
      var j := IndexOf(a, k).value;
      assert (a + [e])[j].key == k;
    } else if e.key == k {
      assert (a + [e])[|a|].key == k;
    } else {
      forall j | 0 <= j < |a| + 1 ensures (a + [e])[j].key != k {
        if j < |a| { assert (a + [e])[j] == a[j]; }
      }
    }
  }

  /** `d.update({k: it})`: an existing key keeps its position, a new key goes last. */
  function Put(d: Dict, k: string, it: Item): (r: Dict)
    ensures Get(r, k) == Some(it)
    ensures Get(d, k).Some? ==> |r.entries| == |d.entries| && IndexOf(r.entries, k) == IndexOf(d.entries, k)
    ensures Get(d, k).None? ==> |r.entries| == |d.entries| + 1 && r.entries[..|d.entries|] == d.entries
  {
    match IndexOf(d.entries, k)
    case Some(j) =>
      var r := Dict(d.entries[j := Entry(k, it)]);
      assert IndexOf(r.entries, k) == Some(j) by { IndexOfAgree(r.entries, d.entries, k); }
      r
    case None =>
      var r := Dict(d.entries + [Entry(k, it)]);
      assert IndexOf(r.entries, k) == Some(|d.entries|) by { IndexOfAppend(d.entries, Entry(k, it), k); }
      r
  }

  /** An update changes no other key, and an existing key keeps its position. */
  lemma PutFrame(d: Dict, k: string, it: Item)
    ensures forall k' :: k' != k ==> Get(Put(d, k, it), k') == Get(d, k')
    ensures Get(d, k).Some? ==>
      forall j :: 0 <= j < |d.entries| ==> Put(d, k, it).entries[j].key == d.entries[j].key
  {
    var r := Put(d, k, it);
    match IndexOf(d.entries, k)
    case Some(j) =>
      forall k' | k' != k ensures Get(r, k') == Get(d, k') {
        IndexOfAgree(r.entries, d.entries, k');
      }
    case None =>
      forall k' | k' != k ensures Get(r, k') == Get(d, k') {
        IndexOfAppend(d.entries, Entry(k, it), k');
        if IndexOf(d.entries, k').Some? {
          assert r.entries[IndexOf(d.entries, k').value] == d.entries[IndexOf(d.entries, k').value];
        }
      }
  }

  /** Updating a key with the item it already holds changes nothing. */
  lemma PutSame(d: Dict, k: string, it: Item)
    requires Get(d, k) == Some(it)
    ensures Put(d, k, it) == d
  {
    var j := IndexOf(d.entries, k).value;
    assert d.entries[j] == Entry(k, it);
    assert d.entries[j := Entry(k, it)] == d.entries;
  }

  /** Updating the same key twice leaves only the second value. */
  lemma PutPut(d: Dict, k: string, a: Item, b: Item)
    ensures Put(Put(d, k, a), k, b) == Put(d, k, b)
  {
    match IndexOf(d.entries, k)
    case Some(j) =>
      var once := d.entries[j := Entry(k, a)];
      assert Put(d, k, a) == Dict(once);
      IndexOfAgree(once, d.entries, k);
      assert Put(Dict(once), k, b) == Dict(once[j := Entry(k, b)]);
      assert once[j := Entry(k, b)] == d.entries[j := Entry(k, b)];
    case None =>
      var once := d.entries + [Entry(k, a)];
      assert Put(d, k, a) == Dict(once);
      IndexOfAppend(d.entries, Entry(k, a), k);
      assert Put(Dict(once), k, b) == Dict(once[|d.entries| := Entry(k, b)]);
      assert once[|d.entries| := Entry(k, b)] == d.entries + [Entry(k, b)];
  }

  /** `d.setdefault(k, {})`: the dict afterwards and the value returned. */
  function SetDefault(d: Dict, k: string): (r: (Dict, Item))
    ensures Get(d, k).Some? ==> r == (d, Get(d, k).value)
    ensures Get(d, k).None? ==> r.1 == Sub(Empty) && r.0 == Put(d, k, Sub(Empty))
    ensures Get(r.0, k) == Some(r.1)
  {
    match Get(d, k)
    case Some(it) => (d, it)
    case None => (Put(d, k, Sub(Empty)), Sub(Empty))
  }

  /** The item reached from `d` along the key path `q`; the empty path reaches `d` itself. */
  function Lookup(d: Dict, q: seq<string>): Option<Item>
    decreases |q|
  {
    if q == [] then Some(Sub(d))
    else match Get(d, q[0])
      case None => None
      case Some(Leaf(v)) => if |q| == 1 then Some(Leaf(v)) else None
      case Some(Sub(x)) => Lookup(x, q[1..])
  }

  /** No key appears twice among the entries (a Python dict's invariant). */
  predicate DistinctKeys(es: seq<Entry>)
  {
    forall i, j :: 0 <= i < j < |es| ==> es[i].key != es[j].key
  }

  /** Distinct keys at every level of the tree. */
  predicate Wf(d: Dict)
    decreases d
  {
    DistinctKeys(d.entries) &&
    forall i :: 0 <= i < |d.entries| ==> (d.entries[i].item.Sub? ==> Wf(d.entries[i].item.dict))
  }

  /** No sub-map, at any depth, is empty. */
  predicate NoEmptySub(d: Dict)
    decreases d
  {
    forall i :: 0 <= i < |d.entries| ==>
      (d.entries[i].item.Sub? ==> |d.entries[i].item.dict.entries| > 0 && NoEmptySub(d.entries[i].item.dict))
  }

  /** Every leaf of the tree is a value the coercion of `flatten` keeps as it is. */
  predicate AllStable(d: Dict, parse: string -> Option<real>)
    decreases d
  {
    forall i :: 0 <= i < |d.entries| ==>
      match d.entries[i].item
      case Leaf(v) => Stable(v, parse)
      case Sub(x) => AllStable(x, parse)
  }

  /** With distinct keys, the entry at position `i` is the one a lookup of its key finds. */
  lemma GetAt(d: Dict, i: nat)
    requires DistinctKeys(d.entries) && i < |d.entries|
    ensures Get(d, d.entries[i].key) == Some(d.entries[i].item)
  {
  }
}
