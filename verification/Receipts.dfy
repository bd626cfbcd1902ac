/** Receipts as the scheduler sees them: opaque byte strings whose provenance is kept.
    A prover's answer is represented by the constructor that says what it proves. */
module Receipts {
  datatype Receipt =
    | Raw(bytes: seq<bv8>)
    | SegmentProof(segment: nat)
    | DeferredInput(index: nat)
    | Aggregate(inputs: seq<Receipt>)
    | SnarkProof(of: Receipt)

  // vec![]
  const EMPTY := Raw([])

  /** The receipts an aggregation was made from, left to right. */
  function Leaves(r: Receipt): seq<Receipt>
    decreases r
  {
    match r
    case Aggregate(inputs) => LeavesOf(inputs)
    case _ => [r]
  }

  function LeavesOf(rs: seq<Receipt>): seq<Receipt>
    decreases rs
  {
    if rs == [] then [] else Leaves(rs[0]) + LeavesOf(rs[1..])
  }

  ghost predicate IsLeaf(r: Receipt) {
    !r.Aggregate?
  }

  /** Every leaf of r is reached through exactly d aggregations. */
  ghost predicate LeavesAtDepth(r: Receipt, d: nat)
    decreases d
  {
    if d == 0 then IsLeaf(r)
    else r.Aggregate? && forall i :: 0 <= i < |r.inputs| ==> LeavesAtDepth(r.inputs[i], d - 1)
  }

  lemma {:induction false} LeavesOfConcat(xs: seq<Receipt>, ys: seq<Receipt>)
    ensures LeavesOf(xs + ys) == LeavesOf(xs) + LeavesOf(ys)
  {
    if xs == [] {
      assert xs + ys == ys;
    } else {
      assert (xs + ys)[1..] == xs[1..] + ys;
      LeavesOfConcat(xs[1..], ys);
    }
  }

  lemma {:induction false} LeavesOfLeaves(xs: seq<Receipt>)
    requires forall i :: 0 <= i < |xs| ==> IsLeaf(xs[i])
    ensures LeavesOf(xs) == xs
  {
    if xs != [] {
      LeavesOfLeaves(xs[1..]);
    }
  }

  /** Aggregating every receipt on its own keeps the leaves. */
  lemma {:induction false} LeavesOfSingletons(xs: seq<Receipt>, ys: seq<Receipt>)
    requires |xs| == |ys| && forall i :: 0 <= i < |xs| ==> ys[i] == Aggregate([xs[i]])
    ensures LeavesOf(ys) == LeavesOf(xs)
  {
    if xs != [] {
      LeavesOfSingletons(xs[1..], ys[1..]);
      assert [xs[0]][1..] == [];
      assert LeavesOf([xs[0]]) == Leaves(xs[0]);
    }
  }

  /** Aggregating neighbours two at a time (the last one alone when odd) keeps the leaves. */
  lemma {:induction false} LeavesOfPairs(xs: seq<Receipt>, ys: seq<Receipt>)
    requires |ys| == (|xs| + 1) / 2
    requires forall j :: 0 <= j < |ys| ==>
      ys[j] == Aggregate(if 2 * j + 1 < |xs| then [xs[2 * j], xs[2 * j + 1]] else [xs[2 * j]])
    ensures LeavesOf(ys) == LeavesOf(xs)
  {
    if |xs| == 1 {
      assert ys[0] == Aggregate([xs[0]]);
      LeavesOfSingletons(xs, ys);
    } else if |xs| > 1 {
      var xs', ys' := xs[2..], ys[1..];
      forall j | 0 <= j < |ys'|
        ensures ys'[j] == Aggregate(if 2 * j + 1 < |xs'| then [xs'[2 * j], xs'[2 * j + 1]] else [xs'[2 * j]])
      {
        assert ys'[j] == ys[j + 1];
        assert xs'[2 * j] == xs[2 * (j + 1)];
      }
      LeavesOfPairs(xs', ys');
      assert ys[0] == Aggregate([xs[0], xs[1]]);
      assert xs == [xs[0], xs[1]] + xs';
      LeavesOfConcat([xs[0], xs[1]], xs');
    }
  }
}
