/**
 * `for (let i = 0; i < xs.length; i += 5) { const batch = xs.slice(i, i + 5) ... }`:
 * cutting a list into consecutive slices, and putting per-slice results back together.
 */
module Batching {

  /** The slice length both batchers use. */
  const Size := 5

  /** The slices `xs[i..i + 5]` for `i = 0, 5, 10, ...`. */
  function Batches<T>(xs: seq<T>): (bs: seq<seq<T>>)
    decreases |xs|
    ensures |bs| == (|xs| + Size - 1) / Size
  {
    if xs == [] then []
    else if |xs| <= Size then [xs]
    else [xs[..Size]] + Batches(xs[Size..])
  }

  /** Concatenation of a list of lists, in order. */
  function Flatten<T>(xss: seq<seq<T>>): seq<T> {
    if xss == [] then [] else xss[0] + Flatten(xss[1..])
  }

  /** Slice `b` starts at index `b * Size` of the input and is `Size` long, except that the last
      one holds what is left. */
  lemma {:induction false} BatchAt<T>(xs: seq<T>, b: nat)
    requires b < |Batches(xs)|
    decreases |xs|
    ensures b * Size < |xs|
    ensures Batches(xs)[b] == xs[b * Size .. if b * Size + Size < |xs| then b * Size + Size else |xs|]
  {
    if b > 0 {
      var ys := xs[Size..];
      assert |xs| > Size && Batches(xs) == [xs[..Size]] + Batches(ys);
      assert Batches(xs)[b] == Batches(ys)[b - 1];
      BatchAt(ys, b - 1);
      var lo := (b - 1) * Size;
      assert lo + Size == b * Size;
      var hi := if lo + Size < |ys| then lo + Size else |ys|;
      assert ys[lo..hi] == xs[lo + Size..hi + Size];
    } else if |xs| <= Size {
      assert xs[0..|xs|] == xs;
    }
  }

  /** Every slice is non-empty and at most `Size` long. */
  lemma BatchSizes<T>(xs: seq<T>)
    ensures forall b | 0 <= b < |Batches(xs)| :: 0 < |Batches(xs)[b]| <= Size
  {
    forall b | 0 <= b < |Batches(xs)| ensures 0 < |Batches(xs)[b]| <= Size {
      BatchAt(xs, b);
    }
  }

  /** Putting the slices back together gives the input. */
  lemma {:induction false} FlattenBatches<T>(xs: seq<T>)
    decreases |xs|
    ensures Flatten(Batches(xs)) == xs
  {
    if |xs| > Size {
      FlattenBatches(xs[Size..]);
      assert Batches(xs)[1..] == Batches(xs[Size..]);
      assert xs == xs[..Size] + xs[Size..];
    }
  }

  lemma {:induction false} FlattenAppend<T>(xss: seq<seq<T>>, ys: seq<T>)
    ensures Flatten(xss + [ys]) == Flatten(xss) + ys
  {
    if xss != [] {
      assert (xss + [ys])[1..] == xss[1..] + [ys];
      FlattenAppend(xss[1..], ys);
    }
  }

  /** The loop's view: the slice taken at index `i` is the next element of `Batches`. */
  lemma {:induction false} BatchesStep<T>(xs: seq<T>, i: nat)
    requires i < |xs| && i % Size == 0
    ensures i / Size < |Batches(xs)|
    ensures Batches(xs)[i / Size] == xs[i .. if i + Size < |xs| then i + Size else |xs|]
  {
    var b := i / Size;
    assert b * Size == i;
    BatchAt(xs, b);
  }
}
