/** Small vocabulary shared by the other modules. */
module Prelude {

  datatype Option<+T> = None | Some(value: T)

  function Front<T>(s: seq<T>): seq<T>
    requires s != []
  {
    s[..|s| - 1]
  }

  function Last<T>(s: seq<T>): T
    requires s != []
  {
    s[|s| - 1]
  }

  /** The first of distinct elements leaves both the list and the set of them. */
  lemma TakeFirst<T>(s: seq<T>, all: set<T>)
    requires s != [] && multiset(s) == multiset(all)
    ensures s[0] in all && multiset(s[1..]) == multiset(all - {s[0]})
  {
    assert s == [s[0]] + s[1..];
    assert s[0] in multiset(s);
    assert multiset(all - {s[0]}) == multiset(all) - multiset{s[0]};
  }

  /** `x` is `y` with some elements left out. */
  ghost predicate Subseq<T>(x: seq<T>, y: seq<T>)
    decreases |y|
  {
    || x == []
    || (y != [] && Subseq(x, Front(y)))
    || (y != [] && Last(x) == Last(y) && Subseq(Front(x), Front(y)))
  }

  lemma SubseqSkip<T>(x: seq<T>, y: seq<T>, e: T)
    requires Subseq(x, y)
    ensures Subseq(x, y + [e])
  {
    assert Front(y + [e]) == y;
  }

  lemma SubseqBoth<T>(x: seq<T>, y: seq<T>, e: T)
    requires Subseq(x, y)
    ensures Subseq(x + [e], y + [e])
  {
    assert Front(x + [e]) == x && Front(y + [e]) == y;
  }

  lemma {:induction false} SubseqRefl<T>(x: seq<T>)
    ensures Subseq(x, x)
    decreases |x|
  {
    if x != [] {
      SubseqRefl(Front(x));
    }
  }

  lemma {:induction false} SubseqTrans<T>(x: seq<T>, y: seq<T>, z: seq<T>)
    requires Subseq(x, y) && Subseq(y, z)
    ensures Subseq(x, z)
    decreases |z|
  {
    if x != [] {
      if Subseq(y, Front(z)) {
        SubseqTrans(x, y, Front(z));
      } else if Subseq(x, Front(y)) {
        SubseqTrans(x, Front(y), Front(z));
      } else {
        SubseqTrans(Front(x), Front(y), Front(z));
      }
    }
  }

  lemma {:induction false} SubseqAppend<T>(x: seq<T>, y: seq<T>, z: seq<T>)
    requires Subseq(x, y)
    ensures Subseq(x, y + z)
    decreases |z|
  {
    if z == [] {
      assert y + z == y;
    } else {
      SubseqAppend(x, y, Front(z));
      assert y + z == (y + Front(z)) + [Last(z)];
      SubseqSkip(x, y + Front(z), Last(z));
    }
  }

  lemma {:induction false} SubseqPrefix<T>(x: seq<T>, n: nat)
    requires n <= |x|
    ensures Subseq(x[..n], x)
  {
    SubseqRefl(x[..n]);
    SubseqAppend(x[..n], x[..n], x[n..]);
    assert x[..n] + x[n..] == x;
  }

  /** What stands at increasing positions is a subsequence. */
  lemma {:induction false} InOrderIsSubseq<T>(x: seq<T>, y: seq<T>, at: seq<nat>)
    requires |at| == |x| && forall i :: 0 <= i < |x| ==> at[i] < |y| && y[at[i]] == x[i]
    requires forall i, j :: 0 <= i < j < |x| ==> at[i] < at[j]
    ensures Subseq(x, y)
    decreases |y|
  {
    if x != [] {
      if Last(at) == |y| - 1 {
        InOrderIsSubseq(Front(x), Front(y), Front(at));
      } else {
        InOrderIsSubseq(x, Front(y), at);
      }
    }
  }

  /** Positions of a subsequence are increasing: it keeps the order of the whole. */
  lemma {:induction false} SubseqKeepsOrder<T>(x: seq<T>, y: seq<T>) returns (at: seq<nat>)
    requires Subseq(x, y)
    ensures |at| == |x| && forall i :: 0 <= i < |x| ==> at[i] < |y| && y[at[i]] == x[i]
    ensures forall i, j :: 0 <= i < j < |x| ==> at[i] < at[j]
    decreases |y|
  {
    if x == [] {
      at := [];
    } else if Subseq(x, Front(y)) {
      at := SubseqKeepsOrder(x, Front(y));
    } else {
      var front := SubseqKeepsOrder(Front(x), Front(y));
      at := front + [|y| - 1];
    }
  }
}
