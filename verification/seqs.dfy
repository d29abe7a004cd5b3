/** Facts about sequences of any element type, stated once so that no proof compares strings element by element. */
module Seqs {
  lemma PrefixExtend<T>(s: seq<T>, j: nat)
    requires j < |s|
    ensures s[..j + 1] == s[..j] + [s[j]]
  {
  }

  lemma SuffixCons<T>(s: seq<T>, i: nat)
    requires i < |s|
    ensures s[i..] == [s[i]] + s[i + 1..]
  {
  }

  lemma TakeAll<T>(s: seq<T>)
    ensures s[..|s|] == s
  {
  }

  /** Head and tail of a concatenation whose left part is not empty. */
  lemma HeadTailAppend<T>(a: seq<T>, b: seq<T>)
    requires a != []
    ensures (a + b)[0] == a[0] && (a + b)[1..] == a[1..] + b
  {
  }

  /** Dropping the first element of a prefix. */
  lemma TailOfPrefix<T>(s: seq<T>, p: seq<T>)
    requires 1 <= |p| <= |s| && s[..|p|] == p
    ensures s[0] == p[0] && s[1..][..|p| - 1] == p[1..]
  {
  }

  lemma TailOfTake<T>(s: seq<T>, j: nat)
    requires 1 <= j <= |s|
    ensures s[..j][0] == s[0] && s[..j][1..] == s[1..][..j - 1]
  {
  }

  lemma AppendEmpty<T>(a: seq<T>)
    ensures a + [] == a && [] + a == a
  {
  }

  /** A non-empty sequence is its front followed by its last element. */
  lemma FrontLast<T>(s: seq<T>)
    requires s != []
    ensures s == s[..|s| - 1] + [s[|s| - 1]]
  {
  }

  lemma FrontOfAppend<T>(a: seq<T>, b: seq<T>)
    requires b != []
    ensures (a + b)[..|a + b| - 1] == a + b[..|b| - 1]
    ensures (a + b)[|a + b| - 1] == b[|b| - 1]
  {
  }

  lemma TakeOfTake<T>(s: seq<T>, i: nat)
    requires i < |s|
    ensures s[..i + 1][..i] == s[..i]
  {
  }

  lemma AppendNext<T>(a: seq<T>, s: seq<T>, i: nat)
    requires i < |s|
    ensures a + [s[i]] + s[i + 1..] == a + s[i..]
  {
    assert s[i..] == [s[i]] + s[i + 1..];
  }

  lemma AppendWhole<T>(a: seq<T>, s: seq<T>)
    ensures a + s[|s|..] == a && [] + s[0..] == s
  {
  }

  lemma EmptyRest<T>(s: seq<T>, b: seq<T>)
    ensures s[|s|..] + b == b
  {
  }

  lemma Snoc<T>(a: seq<T>, x: T)
    ensures (a + [x])[..|a|] == a && (a + [x])[|a|] == x
  {
  }

  lemma Assoc<T>(a: seq<T>, b: seq<T>, c: seq<T>)
    ensures a + b + c == a + (b + c)
  {
  }

  lemma InAppend<T>(x: T, a: seq<T>, b: seq<T>)
    ensures x in a ==> x in a + b
    ensures x in b ==> x in a + b
  {
  }

  /** A prefix of `s` that extends `p` by one element agrees with `p` up to `|p|`. */
  lemma PrefixOfLonger<T>(s: seq<T>, p: seq<T>, k: T)
    requires |p| + 1 <= |s| && s[..|p| + 1] == p + [k]
    ensures s[..|p|] == p && s[|p|] == k
  {
    assert s[..|p|] == s[..|p| + 1][..|p|];
  }

  lemma DropOneMore<T>(s: seq<T>, i: nat, tail: seq<T>)
    requires i < |s|
    ensures (s[i..] + tail)[0] == s[i] && (s[i..] + tail)[1..] == s[i + 1..] + tail
  {
  }

  lemma ShiftInit<T>(a: seq<T>, s: seq<T>)
    requires |s| >= 2
    ensures a + [s[0]] + s[1..][..|s| - 2] == a + s[..|s| - 1]
  {
    assert [s[0]] + s[1..][..|s| - 2] == s[..|s| - 1];
  }

  lemma UpdateSame<T>(s: seq<T>, j: nat, v: T)
    requires j < |s| && s[j] == v
    ensures s[j := v] == s
  {
  }

  lemma UpdateTwice<T>(s: seq<T>, j: nat, a: T, b: T)
    requires j < |s|
    ensures s[j := a][j := b] == s[j := b]
  {
  }

  lemma UpdateLast<T>(a: seq<T>, x: T, y: T)
    ensures (a + [x])[|a| := y] == a + [y]
  {
  }
}
