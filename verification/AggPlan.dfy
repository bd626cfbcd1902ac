/** The shape of the second-generation aggregation tree, defined independently of the
    loops that build it.  Nodes are numbered: the n prove tasks are 0..n-1 and the
    aggregation task at list position p is node n + p.  Plan(n)[p] lists the nodes that
    the task at position p aggregates. */
module AggPlan {
  import opened Receipts

  /** One layer above the nodes off..off+len-1, grouped two by two. */
  function Pairing(off: nat, len: nat): seq<seq<nat>> {
    seq((len + 1) / 2, j requires 0 <= j < (len + 1) / 2 =>
      if 2 * j + 1 < len then [off + 2 * j, off + 2 * j + 1] else [off + 2 * j])
  }

  /** All layers above the nodes off..off+len-1. */
  function Tower(off: nat, len: nat): seq<seq<nat>>
    decreases len
  {
    if len <= 1 then [] else Pairing(off, len) + Tower(off + len, (len + 1) / 2)
  }

  function Plan(n: nat): seq<seq<nat>> {
    seq(n, i requires 0 <= i < n => [i as nat]) + Tower(n, n)
  }

  /** ceil(len) + ceil(len/2) + ceil(len/4) + ... + 1 */
  function LayerSum(len: nat): nat
    decreases len
  {
    if len <= 1 then len else len + LayerSum((len + 1) / 2)
  }

  function CeilLog2(len: nat): nat
    decreases len
  {
    if len <= 1 then 0 else 1 + CeilLog2((len + 1) / 2)
  }

  function Pow2(k: nat): nat {
    if k == 0 then 1 else 2 * Pow2(k - 1)
  }

  lemma {:induction false} CeilLog2Meaning(len: nat)
    requires len >= 1
    ensures len <= Pow2(CeilLog2(len))
    ensures len > 1 ==> Pow2(CeilLog2(len) - 1) < len
    decreases len
  {
    if len > 1 {
      CeilLog2Meaning((len + 1) / 2);
    }
  }

  ghost predicate IsSlot(plan: seq<seq<nat>>, p: int, j: int) {
    0 <= p < |plan| && 0 <= j < |plan[p]|
  }

  /** Every slot names an earlier node, and a task has one or two of them. */
  ghost predicate KidsFirst(plan: seq<seq<nat>>, first: nat) {
    && (forall p, j :: IsSlot(plan, p, j) ==> plan[p][j] < first + p)
    && (forall p :: 0 <= p < |plan| ==> 1 <= |plan[p]| <= 2)
  }

  /** The slot of Tower(off, len) in which node x belongs: its tower position and index. */
  function TowerSlot(off: nat, len: nat, x: nat): (nat, nat)
    requires off <= x
    decreases len
  {
    if x < off + len || len <= 1 then ((x - off) / 2, (x - off) % 2)
    else
      var (p, j) := TowerSlot(off + len, (len + 1) / 2, x);
      (p + (len + 1) / 2, j)
  }

  /** Slot (p, j) of Plan(n) in which node x belongs. */
  function ParentSlot(n: nat, x: nat): (nat, nat) {
    if x < n then (x, 0) else var (p, j) := TowerSlot(n, n, x); (n + p, j)
  }

  lemma {:induction false} TowerKids(off: nat, len: nat)
    ensures KidsFirst(Tower(off, len), off + len)
    ensures forall p, j :: IsSlot(Tower(off, len), p, j) ==> off <= Tower(off, len)[p][j]
    ensures |Tower(off, len)| + len == if len == 0 then 0 else LayerSum(len)
    decreases len
  {
    if len > 1 {
      var low, high := Pairing(off, len), Tower(off + len, (len + 1) / 2);
      TowerKids(off + len, (len + 1) / 2);
      assert Tower(off, len) == low + high;
      forall p, j | IsSlot(low + high, p, j)
        ensures off <= (low + high)[p][j] < off + len + p
      {
        assert p >= |low| ==> IsSlot(high, p - |low|, j);
      }
      forall p | 0 <= p < |low + high|
        ensures 1 <= |(low + high)[p]| <= 2
      {
        assert p >= |low| ==> (low + high)[p] == high[p - |low|];
      }
    }
  }

  lemma {:induction false} TowerSlotInverse(off: nat, len: nat, p: nat, j: nat)
    requires IsSlot(Tower(off, len), p, j)
    ensures off <= Tower(off, len)[p][j] && TowerSlot(off, len, Tower(off, len)[p][j]) == (p, j)
    decreases len
  {
    var low, high := Pairing(off, len), Tower(off + len, (len + 1) / 2);
    assert Tower(off, len) == low + high;
    if p >= |low| {
      assert Tower(off, len)[p] == high[p - |low|];
      TowerSlotInverse(off + len, (len + 1) / 2, p - |low|, j);
    } else {
      assert Tower(off, len)[p] == low[p];
    }
  }

  lemma {:induction false} TowerSlotExists(off: nat, len: nat, x: nat)
    requires off <= x < off + len + |Tower(off, len)| - 1
    ensures var (p, j) := TowerSlot(off, len, x); IsSlot(Tower(off, len), p, j) && Tower(off, len)[p][j] == x
    decreases len
  {
    var low, high := Pairing(off, len), Tower(off + len, (len + 1) / 2);
    if len > 1 {
      assert Tower(off, len) == low + high;
      if x >= off + len {
        TowerSlotExists(off + len, (len + 1) / 2, x);
      } else {
        var p := (x - off) / 2;
        assert Tower(off, len)[p] == low[p];
      }
    }
  }

  /** The tree v2 builds over n prove tasks: every slot names an earlier node, the
      first n tasks take one prove task each and the later ones take agg tasks. */
  lemma {:induction false} PlanKids(n: nat)
    ensures KidsFirst(Plan(n), n)
    ensures |Plan(n)| == if n == 0 then 0 else LayerSum(n)
    ensures forall p :: 0 <= p < n ==> p < |Plan(n)| && Plan(n)[p] == [p]
    ensures forall p, j :: n <= p && IsSlot(Plan(n), p, j) ==> n <= Plan(n)[p][j]
  {
    TowerKids(n, n);
    var low, high := seq(n, i requires 0 <= i < n => [i as nat]), Tower(n, n);
    assert Plan(n) == low + high;
    forall p, j | n <= p && IsSlot(Plan(n), p, j)
      ensures n <= Plan(n)[p][j] < n + p
    {
      assert Plan(n)[p] == high[p - n];
      assert IsSlot(high, p - n, j);
    }
    forall p | n <= p < |Plan(n)|
      ensures 1 <= |Plan(n)[p]| <= 2
    {
      assert Plan(n)[p] == high[p - n];
    }
  }

  /** No node is named by two slots. */
  lemma {:induction false} OneParent(n: nat, p: nat, j: nat)
    requires IsSlot(Plan(n), p, j)
    ensures ParentSlot(n, Plan(n)[p][j]) == (p, j)
  {
    if p >= n {
      var t := Tower(n, n);
      assert Plan(n)[p] == t[p - n];
      TowerSlotInverse(n, n, p - n, j);
    } else {
      assert Plan(n)[p] == [p];
    }
  }

  /** Every node but the last one is named by exactly one slot. */
  lemma {:induction false} UniqueParent(n: nat, x: nat)
    requires x + 1 < n + |Plan(n)|
    ensures var (p, j) := ParentSlot(n, x); IsSlot(Plan(n), p, j) && Plan(n)[p][j] == x
    ensures forall q, i :: IsSlot(Plan(n), q, i) && Plan(n)[q][i] == x ==> (q, i) == ParentSlot(n, x)
  {
    PlanKids(n);
    if x >= n {
      TowerSlotExists(n, n, x);
      var (p, j) := TowerSlot(n, n, x);
      assert Plan(n)[n + p] == Tower(n, n)[p];
    }
    forall q, i | IsSlot(Plan(n), q, i) && Plan(n)[q][i] == x
      ensures (q, i) == ParentSlot(n, x)
    {
      OneParent(n, q, i);
    }
  }

  /** The list is as long as its layers, and no longer than 2n + ceil(log2 n) - 1. */
  lemma {:induction false} PlanSize(n: nat)
    requires n >= 1
    ensures |Plan(n)| == LayerSum(n)
    ensures n <= LayerSum(n) <= 2 * n + CeilLog2(n) - 1
    decreases n
  {
    PlanKids(n);
    if n > 1 {
      PlanSize((n + 1) / 2);
    }
  }

  /** The receipt node x stands for, when the prove tasks carry the given leaves. */
  function NodeReceipt(leaves: seq<Receipt>, x: nat): Receipt
    requires x < |leaves| + |Plan(|leaves|)|
    decreases x
  {
    if x < |leaves| then leaves[x]
    else
      PlanKids(|leaves|);
      var kids := Plan(|leaves|)[x - |leaves|];
      Aggregate(seq(|kids|, j requires 0 <= j < |kids| =>
        (assert IsSlot(Plan(|leaves|), x - |leaves|, j); NodeReceipt(leaves, kids[j]))))
  }

  ghost function Layer(leaves: seq<Receipt>, off: nat, len: nat): (rs: seq<Receipt>)
    requires off + len <= |leaves| + |Plan(|leaves|)|
    ensures |rs| == len
  {
    seq(len, i requires 0 <= i < len => NodeReceipt(leaves, off + i))
  }

  /** The receipt of the last task of the list. */
  function RootReceipt(leaves: seq<Receipt>): Receipt
    requires |leaves| >= 1
  {
    PlanSize(|leaves|);
    NodeReceipt(leaves, |leaves| + |Plan(|leaves|)| - 1)
  }

  /** Where the plan continues with the tower over a layer, it lists that layer's
      parents first and then the tower over those. */
  lemma {:induction false} NextLayer(n: nat, off: nat, len: nat)
    requires 2 <= len && n <= off && off + len <= n + |Plan(n)|
    requires Plan(n)[off + len - n..] == Tower(off, len)
    ensures off + len + (len + 1) / 2 <= n + |Plan(n)|
    ensures Plan(n)[off + len + (len + 1) / 2 - n..] == Tower(off + len, (len + 1) / 2)
    ensures forall j :: 0 <= j < (len + 1) / 2 ==> Plan(n)[off + len - n + j] == Pairing(off, len)[j]
  {
    var rest, low, high := Plan(n)[off + len - n..], Pairing(off, len), Tower(off + len, (len + 1) / 2);
    assert rest == low + high;
    assert Plan(n)[off + len + (len + 1) / 2 - n..] == rest[(len + 1) / 2..] == high;
    forall j | 0 <= j < (len + 1) / 2
      ensures Plan(n)[off + len - n + j] == low[j]
    {
      assert rest[j] == low[j];
    }
  }

  lemma {:induction false} NextLayerReceipt(leaves: seq<Receipt>, off: nat, len: nat, j: nat)
    requires 2 <= len && |leaves| <= off && j < (len + 1) / 2
    requires off + len + (len + 1) / 2 <= |leaves| + |Plan(|leaves|)|
    requires Plan(|leaves|)[off + len - |leaves| + j] == Pairing(off, len)[j]
    ensures var xs := Layer(leaves, off, len);
      Layer(leaves, off + len, (len + 1) / 2)[j]
        == Aggregate(if 2 * j + 1 < len then [xs[2 * j], xs[2 * j + 1]] else [xs[2 * j]])
  {
    var xs, y := Layer(leaves, off, len), NodeReceipt(leaves, off + len + j);
    if 2 * j + 1 < len {
      assert y.inputs == [xs[2 * j], xs[2 * j + 1]];
    } else {
      assert y.inputs == [xs[2 * j]];
    }
  }

  ghost predicate AllAtDepth(rs: seq<Receipt>, d: nat) {
    forall i :: 0 <= i < |rs| ==> LeavesAtDepth(rs[i], d)
  }

  /** The nodes off..off+len-1 form a complete layer: the rest of the plan is the tower
      over them, and together they aggregate all leaves in order, d levels down. */
  ghost predicate CompleteLayer(leaves: seq<Receipt>, off: nat, len: nat, d: nat) {
    && 1 <= len && 1 <= |leaves| <= off && off + len <= |leaves| + |Plan(|leaves|)|
    && Plan(|leaves|)[off + len - |leaves|..] == Tower(off, len)
    && LeavesOf(Layer(leaves, off, len)) == leaves
    && AllAtDepth(Layer(leaves, off, len), d)
  }

  lemma {:induction false} NextLayerComplete(leaves: seq<Receipt>, off: nat, len: nat, d: nat)
    requires 2 <= len && CompleteLayer(leaves, off, len, d)
    ensures CompleteLayer(leaves, off + len, (len + 1) / 2, d + 1)
  {
    NextLayer(|leaves|, off, len);
    var xs, ys := Layer(leaves, off, len), Layer(leaves, off + len, (len + 1) / 2);
    forall j | 0 <= j < (len + 1) / 2
      ensures ys[j] == Aggregate(if 2 * j + 1 < len then [xs[2 * j], xs[2 * j + 1]] else [xs[2 * j]])
    {
      NextLayerReceipt(leaves, off, len, j);
    }
    LeavesOfPairs(xs, ys);
    forall j | 0 <= j < |ys|
      ensures LeavesAtDepth(ys[j], d + 1)
    {
    }
  }

  lemma {:induction false} TopLayer(leaves: seq<Receipt>, off: nat, d: nat)
    requires CompleteLayer(leaves, off, 1, d)
    ensures Leaves(RootReceipt(leaves)) == leaves
    ensures LeavesAtDepth(RootReceipt(leaves), d)
  {
    var n, top := |leaves|, Layer(leaves, off, 1);
    assert |Plan(n)[off + 1 - n..]| == 0;
    assert top[0] == RootReceipt(leaves);
    assert LeavesOf(top) == Leaves(top[0]) + LeavesOf(top[1..]) == Leaves(top[0]);
  }

  lemma {:induction false} Climb(leaves: seq<Receipt>, off: nat, len: nat, d: nat)
    requires CompleteLayer(leaves, off, len, d)
    ensures Leaves(RootReceipt(leaves)) == leaves
    ensures LeavesAtDepth(RootReceipt(leaves), d + CeilLog2(len))
    decreases len
  {
    if len == 1 {
      TopLayer(leaves, off, d);
    } else {
      NextLayerComplete(leaves, off, len, d);
      Climb(leaves, off + len, (len + 1) / 2, d + 1);
    }
  }

  lemma {:induction false} FirstLayerComplete(leaves: seq<Receipt>)
    requires |leaves| >= 1 && forall i :: 0 <= i < |leaves| ==> IsLeaf(leaves[i])
    ensures CompleteLayer(leaves, |leaves|, |leaves|, 1)
  {
    var n := |leaves|;
    var plan := Plan(n);
    assert plan[n..] == Tower(n, n);
    var ys := Layer(leaves, n, n);
    forall i | 0 <= i < n
      ensures ys[i] == Aggregate([leaves[i]])
    {
      assert plan[n + i - n] == [i];
      assert ys[i] == NodeReceipt(leaves, n + i);
      assert ys[i].inputs == [leaves[i]];
    }
    LeavesOfSingletons(leaves, ys);
    LeavesOfLeaves(leaves);
    forall i | 0 <= i < n
      ensures LeavesAtDepth(ys[i], 1)
    {
      assert LeavesAtDepth(leaves[i], 0);
    }
  }

  /** The root aggregates every leaf, in order, exactly once, and every leaf lies
      ceil(log2 n) aggregations below its own one. */
  lemma {:induction false} RootLeaves(leaves: seq<Receipt>)
    requires |leaves| >= 1 && forall i :: 0 <= i < |leaves| ==> IsLeaf(leaves[i])
    ensures Leaves(RootReceipt(leaves)) == leaves
    ensures LeavesAtDepth(RootReceipt(leaves), 1 + CeilLog2(|leaves|))
  {
    FirstLayerComplete(leaves);
    Climb(leaves, |leaves|, |leaves|, 1);
  }
}
