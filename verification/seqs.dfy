/**
 Flattening a sequence of sequences: the order in which nested append
 loops emit their rows.
 */
module Seqs {

  /** The concatenation of the inner sequences, in order. */
  function Concat<T>(ss: seq<seq<T>>): seq<T>
    decreases |ss|
  {
    if |ss| == 0 then [] else ss[0] + Concat(ss[1..])
  }

  /** The sum of the lengths of the inner sequences. */
  function TotalLength<T>(ss: seq<seq<T>>): nat
    decreases |ss|
  {
    if |ss| == 0 then 0 else |ss[0]| + TotalLength(ss[1..])
  }

  lemma {:induction false} ConcatLength<T>(ss: seq<seq<T>>)
    ensures |Concat(ss)| == TotalLength(ss)
    decreases |ss|
  {
    if |ss| > 0 {
      ConcatLength(ss[1..]);
    }
  }

  /** Appending the first part and then the flattening of the rest appends the whole flattening. */
  lemma ConcatStep<T>(acc: seq<T>, ss: seq<seq<T>>)
    requires |ss| > 0
    ensures (acc + ss[0]) + Concat(ss[1..]) == acc + Concat(ss)
  {
    var rest := Concat(ss[1..]);
    assert Concat(ss) == ss[0] + rest;
    AppendAssoc(acc, ss[0], rest);
  }

  lemma AppendAssoc<T>(a: seq<T>, b: seq<T>, c: seq<T>)
    ensures (a + b) + c == a + (b + c)
  {
  }

  lemma {:induction false} ConcatAppend<T>(xs: seq<seq<T>>, ys: seq<seq<T>>)
    ensures Concat(xs + ys) == Concat(xs) + Concat(ys)
    decreases |xs|
  {
    if |xs| == 0 {
      assert xs + ys == ys;
    } else {
      assert (xs + ys)[1..] == xs[1..] + ys;
      ConcatAppend(xs[1..], ys);
    }
  }

  /**
   Element `j` of inner sequence `i` sits in the concatenation right after
   all the elements of the inner sequences before `i`.
   */
  lemma ConcatIndex<T>(ss: seq<seq<T>>, i: nat, j: nat)
    requires i < |ss| && j < |ss[i]|
    ensures TotalLength(ss[..i]) + j < |Concat(ss)|
    ensures Concat(ss)[TotalLength(ss[..i]) + j] == ss[i][j]
  {
    assert ss == ss[..i] + ss[i..];
    ConcatAppend(ss[..i], ss[i..]);
    ConcatLength(ss[..i]);
    ConcatLength(ss);
    assert Concat(ss[i..]) == ss[i] + Concat(ss[i + 1..]);
  }

  /** An element is in the concatenation exactly when it is in one of the inner sequences. */
  lemma {:induction false} ConcatMember<T>(ss: seq<seq<T>>, x: T)
    ensures x in Concat(ss) <==> exists i :: 0 <= i < |ss| && x in ss[i]
    decreases |ss|
  {
    if |ss| > 0 {
      ConcatMember(ss[1..], x);
      if x in Concat(ss[1..]) {
        var i :| 0 <= i < |ss[1..]| && x in ss[1..][i];
        assert x in ss[i + 1];
      }
      if exists i :: 0 <= i < |ss| && x in ss[i] {
        var i :| 0 <= i < |ss| && x in ss[i];
        if i > 0 {
          assert x in ss[1..][i - 1];
        }
      }
    }
  }
}
