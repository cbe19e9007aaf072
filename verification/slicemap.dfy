/** Model of utils/slicemap.go: `SliceMap` applies a function to every element of a slice. */
module SliceMapping {

  /** The functional specification of SliceMap: the element-wise image of `s` under `f`. */
  function MapSeq<A, B>(f: A -> B, s: seq<A>): (r: seq<B>)
    ensures |r| == |s|
    ensures forall i :: 0 <= i < |s| ==> r[i] == f(s[i])
  {
    if s == [] then [] else [f(s[0])] + MapSeq(f, s[1..])
  }

  /** Mapping distributes over concatenation: mapping a longer prefix extends the result at its end. */
  lemma {:induction false} MapSeqAppend<A, B>(f: A -> B, a: seq<A>, b: seq<A>)
    ensures MapSeq(f, a + b) == MapSeq(f, a) + MapSeq(f, b)
  {
    if a == [] {
      assert a + b == b;
    } else {
      assert (a + b)[1..] == a[1..] + b;
      MapSeqAppend(f, a[1..], b);
    }
  }

  /**
   * The append loop of SliceMap. The input is a value and is left as it is; the result has one
   * element per input element, in input order, and an empty input gives an empty result.
   */
  method SliceMap<A, B>(arr: seq<A>, fn: A -> B) returns (result: seq<B>)
    ensures result == MapSeq(fn, arr)
    ensures |result| == |arr|
    ensures forall i :: 0 <= i < |arr| ==> result[i] == fn(arr[i])
  {
    result := [];
    for k := 0 to |arr|
      invariant result == MapSeq(fn, arr[..k])
    {
      assert arr[..k + 1] == arr[..k] + [arr[k]];
      MapSeqAppend(fn, arr[..k], [arr[k]]);
      result := result + [fn(arr[k])];
    }
    assert arr[..|arr|] == arr;
  }
}
