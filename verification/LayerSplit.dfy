/**
  Splitting the layers over the ranks (inference/core/dist.c, `dist_split_layers`; the shared
  K/V layer choice of inference/arch/gemma4.c).  Layer 0 embeds, layers 1..blocks are the
  blocks, two more are norm and head.
*/
module LayerSplit {
  import opened Engine
  import Pipeline

  /** `size[b]` are the bytes of layer b; `shared` is gemma4's number of shared-KV layers
      (0 elsewhere); `thr[r-1]` is the running size at which the r-th cut is due. */
  datatype Input = Input(blocks: nat, ranks: nat, shared: nat, size: seq<nat>, thr: seq<nat>)
  {
    predicate Valid() {
      ranks >= 1 && |size| == blocks + 3 && |thr| >= ranks - 1
    }

    function Layers(): (n: nat) {
      blocks + 3
    }

    predicate Pinned() {
      0 < shared < blocks
    }

    /** First layer with shared rows, counted from 0 without the embedding. */
    function KvFrom(): (n: nat)
      requires Pinned()
    {
      blocks - shared
    }

    /** First layer the last rank must own, 0 when there is none. */
    function Pin(): (n: nat) {
      if Pinned() then (if KvFrom() > 1 then KvFrom() - 1 else 1) else 0
    }

    /** The blocks 1..Hi() are split among the first Early() ranks. */
    function Hi(): (n: nat) {
      if Pin() > 0 then Pin() - 1 else blocks
    }

    function Early(): (n: nat) {
      if Pin() > 0 then (if ranks > 1 then ranks - 1 else 1) else ranks
    }

    predicate Splits() {
      ranks <= blocks && Hi() >= 1 && Early() <= Hi()
    }
  }

  /** Bytes of blocks 1..b. */
  function Sum(size: seq<nat>, b: nat): (n: nat)
    requires b < |size|
  {
    if b == 0 then 0 else Sum(size, b - 1) + size[b]
  }

  ghost predicate NoneDue(i: Input, prev: nat, upto: nat, due: nat)
    requires i.Valid() && upto < |i.size|
  {
    forall b :: prev <= b <= upto ==> Sum(i.size, b) < due
  }

  /** The r-th cut: the blocks from the previous cut on are scanned; the first that reaches
      the threshold ends the range. */
  ghost predicate CutAt(i: Input, prev: nat, cut: nat, due: nat)
    requires i.Valid() && i.Hi() < |i.size| && 1 <= prev <= i.Hi() + 1
  {
    || (prev < cut <= i.Hi() + 1 && Sum(i.size, cut - 1) >= due && (cut >= 2 ==> NoneDue(i, prev, cut - 2, due)))
    || (cut == i.Hi() + 1 && NoneDue(i, prev, i.Hi(), due))
  }

  ghost predicate StepOk(i: Input, bs: seq<nat>, k: nat)
    requires i.Valid() && i.Hi() < |i.size| && 0 < k < |bs| && k <= |i.thr|
  {
    1 <= bs[k - 1] <= bs[k] <= i.Hi() + 1 && CutAt(i, bs[k - 1], bs[k], i.thr[k - 1])
  }

  /** The starts of the ranks among which the blocks `1..Hi()` are split. */
  ghost predicate Cuts(i: Input, bs: seq<nat>)
    requires i.Valid() && i.Splits() && |bs| <= i.ranks
  {
    bs != [] && bs[0] == 1 && forall k :: 0 < k < |bs| ==> StepOk(i, bs, k)
  }

  /** The start of every rank's range. */
  ghost predicate Starts(i: Input, bs: seq<nat>)
    requires i.Valid() && i.Splits()
  {
    && |bs| == i.ranks
    && (i.Pin() == 0 ==> Cuts(i, bs))
    && (i.Pin() > 0 ==> bs[i.ranks - 1] == i.Pin() && (i.ranks > 1 ==> Cuts(i, bs[..i.ranks - 1])))
  }

  lemma {:induction false} MoreCuts(i: Input, bs: seq<nat>, cut: nat)
    requires i.Valid() && i.Splits() && |bs| < i.ranks && Cuts(i, bs)
    requires 1 <= bs[|bs| - 1] <= cut <= i.Hi() + 1 && CutAt(i, bs[|bs| - 1], cut, i.thr[|bs| - 1])
    ensures Cuts(i, bs + [cut])
  {
    forall k | 0 < k <= |bs|
      ensures StepOk(i, bs + [cut], k)
    {
      if k < |bs| { assert StepOk(i, bs, k); }
    }
  }

  /** The two loops of `dist_split_layers` that fill `bs`. */
  method FindCuts(i: Input, cuts: array<nat>)
    requires i.Valid() && i.Splits() && cuts.Length == i.ranks
    modifies cuts
    ensures Cuts(i, cuts[..i.Early()])
  {
    var hi, early := i.Hi(), i.Early();
    cuts[0] := 1;
    var acc, r, b := 0, 1, 1;
    assert cuts[..1] == [1];
    while b <= hi && r < early
      invariant 1 <= b <= hi + 1 && 1 <= r <= early && acc == Sum(i.size, b - 1)
      invariant Cuts(i, cuts[..r]) && 1 <= cuts[r - 1] <= b
      invariant r < early ==> NoneDue(i, cuts[r - 1], b - 1, i.thr[r - 1])
    {
      acc := acc + i.size[b];
      if acc >= i.thr[r - 1] {
        ghost var bs := cuts[..r];
        MoreCuts(i, bs, b + 1);
        cuts[r] := b + 1;
        assert cuts[..r + 1] == bs + [b + 1];
        r := r + 1;
      }
      b := b + 1;
    }
    while r < early
      invariant 1 <= r <= early && Cuts(i, cuts[..r]) && 1 <= cuts[r - 1] <= hi + 1
      invariant r < early ==> NoneDue(i, cuts[r - 1], hi, i.thr[r - 1])
    {
      ghost var bs := cuts[..r];
      MoreCuts(i, bs, hi + 1);
      cuts[r] := hi + 1;
      assert cuts[..r + 1] == bs + [hi + 1];
      r := r + 1;
    }
  }

  /** `dist_split_layers`; `ok` is false on its error return. */
  method SplitLayers(i: Input, rank: nat) returns (ok: bool, begin: nat, end: nat, ghost bs: seq<nat>)
    requires i.Valid() && rank < i.ranks
    ensures ok <==> i.Splits()
    ensures ok ==> Starts(i, bs) && begin == Begin(bs, rank) && end == End(i, bs, rank)
  {
    if i.ranks > i.blocks || i.Hi() < 1 || i.Early() > i.Hi() {
      return false, 0, 0, [];
    }
    var pin := i.Pin();
    var cuts := new nat[i.ranks](_ => 0);
    FindCuts(i, cuts);
    if pin > 0 {
      ghost var early := cuts[..i.ranks - 1];
      cuts[i.ranks - 1] := pin;
      assert cuts[..i.ranks - 1] == early;
    } else {
      assert cuts[..i.ranks] == cuts[..];
      assert i.ranks > 1 ==> StepOk(i, cuts[..], i.ranks - 1);
    }
    // the clamp of the last start to blocks + 1 never fires
    assert cuts[i.ranks - 1] <= i.blocks + 1;
    bs := cuts[..];
    assert pin > 0 ==> bs[..i.ranks - 1] == cuts[..i.ranks - 1];
    begin := if rank == 0 then 0 else cuts[rank];
    end := if rank + 1 < i.ranks then cuts[rank + 1] else i.Layers();
    ok := true;
  }

  function Begin(bs: seq<nat>, r: nat): (n: nat)
    requires r < |bs|
  {
    if r == 0 then 0 else bs[r]
  }

  function End(i: Input, bs: seq<nat>, r: nat): (n: nat)
    requires r < |bs|
  {
    if r + 1 < |bs| then bs[r + 1] else i.Layers()
  }

  // ----- the ranges partition the layers -----

  lemma {:induction false} StartsOrdered(i: Input, bs: seq<nat>, k: nat)
    requires i.Valid() && i.Splits() && Starts(i, bs) && 0 < k < i.ranks
    ensures Begin(bs, k - 1) <= bs[k] <= i.blocks + 1
  {
    if i.Pin() == 0 {
      assert StepOk(i, bs, k);
    } else if k < i.ranks - 1 {
      assert StepOk(i, bs[..i.ranks - 1], k);
    } else if k > 1 {
      assert StepOk(i, bs[..i.ranks - 1], k - 1);
    }
  }

  lemma {:induction false} StartsMonotone(i: Input, bs: seq<nat>, j: nat, k: nat)
    requires i.Valid() && i.Splits() && Starts(i, bs) && j <= k < i.ranks
    ensures Begin(bs, j) <= Begin(bs, k)
    decreases k
  {
    if j < k {
      StartsMonotone(i, bs, j, k - 1);
      StartsOrdered(i, bs, k);
    }
  }

  ghost predicate Owns(i: Input, bs: seq<nat>, r: nat, l: nat)
    requires r < |bs|
  {
    Begin(bs, r) <= l < End(i, bs, r)
  }

  /** Whatever the sizes and the thresholds: each rank's range starts where the previous one
      ends, and every layer belongs to exactly one rank. */
  lemma {:induction false} SplitIsPartition(i: Input, bs: seq<nat>, l: nat) returns (r: nat)
    requires i.Valid() && i.Splits() && Starts(i, bs) && l < i.Layers()
    ensures Begin(bs, 0) == 0 && End(i, bs, i.ranks - 1) == i.Layers()
    ensures forall k :: 0 < k < i.ranks ==> End(i, bs, k - 1) == Begin(bs, k)
    ensures forall k :: 0 <= k < i.ranks ==> Begin(bs, k) <= End(i, bs, k)
    ensures r < i.ranks && forall k :: 0 <= k < i.ranks ==> (Owns(i, bs, k, l) <==> k == r)
  {
    forall k | 0 <= k < i.ranks
      ensures Begin(bs, k) <= End(i, bs, k)
    {
      if k + 1 < i.ranks { StartsOrdered(i, bs, k + 1); } else if k > 0 { StartsOrdered(i, bs, k); }
    }
    r := FindOwner(i, bs, l, i.ranks);
    forall k | 0 <= k < i.ranks && k != r
      ensures !Owns(i, bs, k, l)
    {
      if k < r { StartsMonotone(i, bs, k + 1, r); } else { StartsMonotone(i, bs, r + 1, k); }
    }
  }

  lemma {:induction false} FindOwner(i: Input, bs: seq<nat>, l: nat, n: nat) returns (r: nat)
    requires i.Valid() && i.Splits() && Starts(i, bs) && 0 < n <= i.ranks
    requires l < End(i, bs, n - 1)
    ensures r < n && Owns(i, bs, r, l)
  {
    if n == 1 || Begin(bs, n - 1) <= l {
      r := n - 1;
    } else {
      r := FindOwner(i, bs, l, n - 1);
    }
  }

  // ----- gemma4 shared rows -----

  /** Of the blocks, which start at layer 1, the last `shared` share rows. */
  predicate IsShared(i: Input, l: nat) {
    0 < i.shared < i.blocks && i.blocks - i.shared < l <= i.blocks
  }

  /** The layer whose rows a shared layer reads (`arch_gemma4_fwd_block`). */
  function KvLayer(i: Input, swa: bool): (l: nat)
    requires 0 < i.shared < i.blocks
  {
    i.blocks - i.shared - (if swa then 1 else 0)
  }

  /** Every shared layer and the layer whose rows it reads lie in the last rank's range. */
  lemma {:induction false} SharedKvStaysTogether(i: Input, bs: seq<nat>, l: nat, swa: bool)
    requires i.Valid() && i.Splits() && Starts(i, bs) && IsShared(i, l)
    ensures Owns(i, bs, i.ranks - 1, l) && Owns(i, bs, i.ranks - 1, KvLayer(i, swa))
    ensures !IsShared(i, KvLayer(i, swa))
  {
  }

  /** The last rank starts as late as that allows: at the highest layer that leaves no shared layer and no layer a
      shared layer may read behind. */
  lemma {:induction false} LastRankStartsLate(i: Input, bs: seq<nat>, b: nat)
    requires i.Valid() && i.Splits() && Starts(i, bs) && 0 < i.shared < i.blocks
    ensures b <= bs[i.ranks - 1] <==> forall l, swa :: IsShared(i, l) ==> b <= l && b <= KvLayer(i, swa)
  {
    assert IsShared(i, i.blocks);
    assert bs[i.ranks - 1] == KvLayer(i, true);
  }

  /** The error return, told from the sizes: the split succeeds if and only if there are as many blocks as ranks and,
      where layers share rows, a block in front of the last rank's for each of the other ranks, at least one. */
  lemma {:induction false} SplitsExactly(i: Input)
    requires i.Valid()
    ensures
      var front := if 0 < i.shared < i.blocks then i.blocks - i.shared - 2 else i.blocks;
      i.Splits() <==> i.ranks <= i.blocks && front >= 1 && (0 < i.shared < i.blocks ==> front >= i.ranks - 1)
  {
  }

  // ----- the split as the pipeline's cut points -----

  /** The layers of a model read rows as gemma4 does. */
  ghost predicate Models(i: Input, m: Model, swa: nat -> bool) {
    && i.Valid() && m.layers == i.Layers()
    && forall l :: 0 <= l < m.layers ==>
         (if IsShared(i, l) then m.kind(l) == SharedKv(KvLayer(i, swa(l))) else !m.kind(l).SharedKv?)
  }

  /** The ranges the split hands out are ranges a rank can run on its own rows. */
  lemma {:induction false} SplitRangesAreClosed(i: Input, bs: seq<nat>, m: Model, swa: nat -> bool, r: nat)
    requires Models(i, m, swa) && i.Splits() && Starts(i, bs) && r < i.ranks
    ensures Begin(bs, r) <= End(i, bs, r) <= m.layers && m.Closed(Begin(bs, r), End(i, bs, r))
  {
    var o := SplitIsPartition(i, bs, 0);
    if r + 1 < i.ranks { StartsMonotone(i, bs, r + 1, i.ranks - 1); }
    forall l | Begin(bs, r) <= l < End(i, bs, r) && m.kind(l).SharedKv?
      ensures Begin(bs, r) <= m.kind(l).src
    {
      SharedKvStaysTogether(i, bs, l, swa(l));
    }
    if i.ranks > 1 { StartsOrdered(i, bs, i.ranks - 1); }
    if r + 1 < i.ranks { StartsOrdered(i, bs, r + 1); }
  }

  /** The starts of the ranks as cut points: 0 in front, the number of layers behind. */
  function CutsOf(i: Input, bs: seq<nat>): (cut: seq<nat>)
    requires bs != []
    ensures |cut| == |bs| + 1
  {
    [0] + bs[1..] + [i.Layers()]
  }

  lemma {:induction false} CutsAt(i: Input, bs: seq<nat>, r: nat)
    requires r < |bs|
    ensures CutsOf(i, bs)[r] == Begin(bs, r) && CutsOf(i, bs)[r + 1] == End(i, bs, r)
  {
  }

  /** The split's ranges are cuts the pipeline can run on. */
  lemma {:induction false} SplitGivesCuts(i: Input, bs: seq<nat>, swa: nat -> bool, c: Pipeline.Config)
    requires Models(i, c.g.m, swa) && i.Splits() && Starts(i, bs)
    requires c.ranks == i.ranks && bs != [] && c.cut == CutsOf(i, bs)
    ensures c.CutsOk()
  {
    SameLayers(i, c.g.m, swa);
    StartsLength(i, bs);
    hide Models, Starts, CutsOf;
    forall r | 0 <= r < c.ranks
      ensures c.CutOk(r)
    {
      CutsAt(i, bs, r);
      SplitRangesAreClosed(i, bs, c.g.m, swa, r);
    }
    CutsAt(i, bs, 0);
    CutsAt(i, bs, c.ranks - 1);
  }

  lemma {:induction false} StartsLength(i: Input, bs: seq<nat>)
    requires i.Valid() && i.Splits() && Starts(i, bs)
    ensures |bs| == i.ranks
  {
  }

  lemma {:induction false} SameLayers(i: Input, m: Model, swa: nat -> bool)
    requires Models(i, m, swa)
    ensures i.Valid() && m.layers == i.Layers()
  {
  }

  /** With them any memories make a round that starts a session: everything proved of the
      pipeline's runs holds of the ranks the split sets up. */
  lemma {:induction false} FreshRound(c: Pipeline.Config)
    requires c.CutsOk() && c.ranks >= 2 && c.g.m.Valid() && c.g.m.Fits(c.mem0)
    requires |c.init| == |c.have| == c.ranks && forall r :: 0 <= r < c.ranks ==> c.g.m.Fits(c.init[r])
    requires c.start == c.have[0] == 0 && c.prompt != [] && c.g.ntokens >= 1 && |c.prompt| <= c.g.m.maxSeq
    ensures c.Valid() && c.Restored()
  {
    forall r | 0 <= r < c.ranks
      ensures c.SegmentOk(r)
    {
      assert c.CutOk(r);
    }
  }

  // ----- balance -----

  /** Equal shares: the r-th cut is due at `r/n` of the total, rounded down. */
  predicate EqualShares(i: Input)
    requires i.Valid() && i.Hi() < |i.size| && i.Early() > 0
  {
    forall r :: 0 < r < i.Early() && r <= |i.thr| ==> i.thr[r - 1] == Sum(i.size, i.Hi()) * r / i.Early()
  }

  function CeilDiv(a: nat, b: nat): (n: nat)
    requires b > 0
  {
    (a + b - 1) / b
  }

  /** Bytes of the blocks rank r gets, among the ranks that share blocks `1..Hi()`. */
  function Share(i: Input, bs: seq<nat>, r: nat): (n: int)
    requires i.Valid() && r < |bs| && i.Hi() < |i.size|
    requires 1 <= bs[r] <= i.Hi() + 1 && (r + 1 < |bs| ==> 1 <= bs[r + 1] <= i.Hi() + 1)
  {
    Sum(i.size, (if r + 1 < |bs| then bs[r + 1] else i.Hi() + 1) - 1) - Sum(i.size, bs[r] - 1)
  }

  lemma {:induction false} SumMonotone(size: seq<nat>, a: nat, b: nat)
    requires a <= b < |size|
    ensures Sum(size, a) <= Sum(size, b)
  {
    if a < b { SumMonotone(size, a, b - 1); }
  }

  lemma {:induction false} MulMonotone(a: int, b: int, n: int)
    requires a <= b && n >= 0
    ensures a * n <= b * n
  {
  }

  lemma {:induction false} LessFactor(a: int, b: int, n: int)
    requires n > 0 && a * n < b * n
    ensures a < b
  {
    if b <= a {
      MulMonotone(b, a, n);
    }
  }

  lemma {:induction false} DivBounds(a: nat, n: nat)
    requires n > 0
    ensures (a / n) * n <= a < (a / n + 1) * n
  {
    assert a == (a / n) * n + a % n;
  }

  /** Adding t before rounding down adds at most t/n rounded up. */
  lemma {:induction false} FloorStep(a: nat, t: nat, n: nat)
    requires n > 0
    ensures (a + t) / n <= a / n + CeilDiv(t, n)
  {
    var x, c, y := a / n, CeilDiv(t, n), (a + t) / n;
    DivBounds(a, n);
    DivBounds(t + n - 1, n);
    DivBounds(a + t, n);
    assert c * n >= t by {
      assert (c + 1) * n == c * n + n;
    }
    assert (x + 1 + c) * n == (x + 1) * n + c * n;
    LessFactor(y, x + 1 + c, n);
  }

  lemma {:induction false} FloorAtMost(a: nat, t: nat, n: nat)
    requires n > 0 && a <= t * n
    ensures a / n <= t
  {
    DivBounds(a, n);
    assert (t + 1) * n == t * n + n;
    LessFactor(a / n, t + 1, n);
  }

  lemma {:induction false} ShareOfTotal(total: nat, n: nat, r: nat)
    requires 0 <= r < n
    ensures total * (r + 1) / n <= total * r / n + CeilDiv(total, n)
    ensures total * (r + 1) / n <= total
    ensures r + 1 == n ==> total * (r + 1) / n == total
  {
    assert total * (r + 1) == total * r + total;
    FloorStep(total * r, total, n);
    MulMonotone(r + 1, n, total);
    FloorAtMost(total * (r + 1), total, n);
    if r + 1 == n {
      DivBounds(total * n, n);
      LessFactor(total, total * n / n + 1, n);
    }
  }

  /** What lies before a rank has reached the share due there, or nothing is left. */
  lemma {:induction false} BeforeRank(i: Input, bs: seq<nat>, r: nat)
    requires i.Valid() && i.Splits() && |bs| == i.Early() <= i.ranks && Cuts(i, bs) && EqualShares(i) && r < |bs|
    ensures 1 <= bs[r] <= i.Hi() + 1
    ensures bs[r] == i.Hi() + 1 || Sum(i.size, bs[r] - 1) >= Sum(i.size, i.Hi()) * r / i.Early()
  {
    if r > 0 { assert StepOk(i, bs, r); }
  }

  /** The rank's blocks but the last stay below the share due at its end. */
  lemma {:induction false} UptoRank(i: Input, bs: seq<nat>, r: nat)
    requires i.Valid() && i.Splits() && |bs| == i.Early() <= i.ranks && Cuts(i, bs) && EqualShares(i) && r + 1 < |bs|
    requires 1 <= bs[r] <= i.Hi()
    ensures 1 <= bs[r] < bs[r + 1] <= i.Hi() + 1
    ensures bs[r] + 2 <= bs[r + 1] ==> Sum(i.size, bs[r + 1] - 2) < Sum(i.size, i.Hi()) * (r + 1) / i.Early()
  {
    assert StepOk(i, bs, r + 1);
    ShareOfTotal(Sum(i.size, i.Hi()), i.Early(), r);
    assert Sum(i.size, i.Hi()) >= i.thr[r];
  }

  /** With equal shares every rank among those that share the blocks gets fewer bytes than an
      even share, rounded up, plus one, plus the largest block: for every size sequence. */
  lemma {:induction false} SplitIsBalanced(i: Input, bs: seq<nat>, r: nat, largest: nat)
    requires i.Valid() && i.Splits() && |bs| == i.Early() <= i.ranks && Cuts(i, bs) && EqualShares(i) && r < |bs|
    requires forall b :: 1 <= b <= i.Hi() ==> i.size[b] <= largest
    ensures 1 <= bs[r] <= i.Hi() + 1 && (r + 1 < |bs| ==> 1 <= bs[r + 1] <= i.Hi() + 1)
    ensures Share(i, bs, r) < CeilDiv(Sum(i.size, i.Hi()), i.Early()) + 1 + largest
  {
    hide Cuts, EqualShares;
    var total, n, hi := Sum(i.size, i.Hi()), i.Early(), i.Hi();
    BeforeRank(i, bs, r);
    ShareOfTotal(total, n, r);
    if r + 1 < |bs| {
      BeforeRank(i, bs, r + 1);
      if bs[r] <= hi {
        UptoRank(i, bs, r);
        var last := bs[r + 1] - 1;
        assert Sum(i.size, last) == Sum(i.size, last - 1) + i.size[last];
      } else {
        NextEmpty(i, bs, r);
      }
    }
  }

  lemma {:induction false} NextEmpty(i: Input, bs: seq<nat>, r: nat)
    requires i.Valid() && i.Splits() && |bs| <= i.ranks && Cuts(i, bs) && r + 1 < |bs| && bs[r] == i.Hi() + 1
    ensures bs[r + 1] == i.Hi() + 1
  {
    assert StepOk(i, bs, r + 1);
  }
}
