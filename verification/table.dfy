/**
 * The naming columns of `Params.build_table`: for each param, in order, the dotted parents
 * recovered from its `parentname` by `pts`, and its name. The numeric columns are not modelled.
 */
module Table {
  import opened Wrappers
  import opened Values
  import opened Nested
  import opened ParamRecord
  import opened Flattening

  /** The "Parents" and "Name" cells of every row. */
  function NameColumns(ps: seq<Param>): (r: seq<(string, string)>)
    ensures |r| == |ps|
    ensures forall n :: 0 <= n < |ps| ==> r[n].1 == ps[n].name && '\n' !in r[n].0
  {
    seq(|ps|, n requires 0 <= n < |ps| => (Pts(ParentName(ps[n])), ps[n].name))
  }

  /** A key a dotted path can carry unambiguously: not empty, no dot, no line break. */
  predicate PlainKey(k: string)
  {
    k != "" && '.' !in k && '\n' !in k
  }

  predicate PlainPath(q: seq<string>)
  {
    forall j :: 0 <= j < |q| ==> PlainKey(q[j])
  }

  /** Every key at every depth of the tree is plain. */
  predicate PlainKeys(d: Dict)
    decreases d
  {
    forall i :: 0 <= i < |d.entries| ==>
      PlainKey(d.entries[i].key) && (d.entries[i].item.Sub? ==> PlainKeys(d.entries[i].item.dict))
  }

  /** Joining plain keys gives a non-empty string without line breaks. */
  lemma {:induction false} JoinPlain(parts: seq<string>)
    requires PlainPath(parts) && parts != []
    ensures Join(parts) != "" && '\n' !in Join(parts)
    decreases |parts|
  {
    if |parts| > 1 {
      JoinPlain(parts[..|parts| - 1]);
    }
  }

  /** The params flattened from a tree of plain keys, under plain parents, have plain paths. */
  lemma {:induction false} FlattenPlain(d: Dict, i: nat, parents: seq<string>, parse: string -> Option<real>)
    requires i <= |d.entries| && PlainKeys(d) && PlainPath(parents)
    ensures forall x :: x in FlattenFrom(d, i, parents, parse) ==> PlainPath(x.parents) && PlainKey(x.name)
    decreases d, |d.entries| - i
  {
    if i < |d.entries| {
      var e := d.entries[i];
      assert e in d.entries;
      if e.item.Sub? {
        FlattenPlain(e.item.dict, 0, parents + [e.key], parse);
      }
      FlattenPlain(d, i + 1, parents, parse);
    }
  }

  /** The cells of one param with a plain name and plain parents. */
  lemma RowOfPlain(p: Param)
    requires PlainPath(p.parents) && PlainKey(p.name)
    ensures p.parents != [] ==> Pts(ParentName(p)) == Join(p.parents)
    ensures p.parents == [] ==> Pts(ParentName(p)) == ""
  {
    if p.parents != [] {
      JoinPlain(p.parents);
    }
    PtsOfParentName(p);
  }

  /**
   * The table of a loaded tree whose keys are plain: each row shows the param's parents joined
   * by dots and its name.
   */
  lemma TableOfFlattened(d: Dict, parse: string -> Option<real>)
    requires PlainKeys(d)
    ensures var ps := Flattened(d, [], parse);
      forall n :: 0 <= n < |ps| ==> NameColumns(ps)[n] == (Join(ps[n].parents), ps[n].name)
  {
    var ps := Flattened(d, [], parse);
    FlattenPlain(d, 0, [], parse);
    forall n | 0 <= n < |ps|
      ensures NameColumns(ps)[n] == (Join(ps[n].parents), ps[n].name)
    {
      assert ps[n] in ps;
      RowOfPlain(ps[n]);
    }
  }
}
