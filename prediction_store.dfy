/** The prediction store of the viewer (visualization/predictions/prediction_info.py):
    it validates a loaded or model-produced prediction tensor against the recording
    (check_preds_shape), classifies it as binary or multi-class and as single-channel
    or per-channel, and turns the bins that fall into the visible window into
    sample intervals, channel vectors and class values (compute_starts_ends_chns).

    A tensor is a numpy array: a shape and its elements in row-major order. */
module PredictionStore {
  import opened Common

  // ---------------------------------------------------------------------------
  // Tensors

  datatype Tensor = Tensor(shape: seq<nat>, data: seq<real>)

  function Product(s: seq<nat>): nat
  {
    if |s| == 0 then 1 else s[0] * Product(s[1..])
  }

  predicate WellFormed(t: Tensor)
  {
    |t.data| == Product(t.shape)
  }

  /** The number of elements of one bin (one index along the first axis). */
  function RowSize(t: Tensor): nat
    requires |t.shape| >= 1
  {
    Product(t.shape[1..])
  }

  lemma MulMono(a: int, b: int, c: nat)
    ensures a <= b ==> a * c <= b * c
  {
    if a <= b {
      assert b * c == a * c + (b - a) * c;
    }
  }

  lemma ProductTwo(s: seq<nat>)
    requires |s| == 2
    ensures Product(s) == s[0] * s[1] && Product(s[1..]) == s[1]
  {
    assert Product(s[1..][1..]) == 1;
    assert Product(s[1..]) == s[1] * 1;
  }

  lemma ProductThree(s: seq<nat>)
    requires |s| == 3
    ensures Product(s) == s[0] * (s[1] * s[2]) && Product(s[1..]) == s[1] * s[2]
  {
    ProductTwo(s[1..]);
  }

  /** a*m + k < n*m whenever a < n and k < m. */
  lemma {:induction false} IndexInside(a: nat, n: nat, k: nat, m: nat)
    requires a < n && k < m
    ensures a * m + k < n * m
  {
    MulMono(a + 1, n, m);
  }

  lemma {:induction false} RowInside(t: Tensor, b: nat)
    requires WellFormed(t) && |t.shape| >= 1 && b < t.shape[0]
    ensures b * RowSize(t) + RowSize(t) <= |t.data|
  {
    MulMono(b + 1, t.shape[0], RowSize(t));
  }

  /** preds[b]: the elements of bin b, flattened. */
  function Row(t: Tensor, b: nat): (r: seq<real>)
    requires WellFormed(t) && |t.shape| >= 1 && b < t.shape[0]
    ensures |r| == RowSize(t)
  {
    RowInside(t, b);
    t.data[b * RowSize(t) .. b * RowSize(t) + RowSize(t)]
  }

  /** np.squeeze: every axis of length 1 is dropped, the elements stay in order. */
  function SqueezeShape(s: seq<nat>): (r: seq<nat>)
    ensures Product(r) == Product(s) && |r| <= |s|
    ensures forall i :: 0 <= i < |r| ==> r[i] != 1
  {
    if |s| == 0 then []
    else if s[0] == 1 then SqueezeShape(s[1..])
    else [s[0]] + SqueezeShape(s[1..])
  }

  function Squeeze(t: Tensor): (r: Tensor)
    ensures WellFormed(t) ==> WellFormed(r)
    ensures r.data == t.data && Product(r.shape) == Product(t.shape)
    ensures |r.shape| <= |t.shape| && forall i :: 0 <= i < |r.shape| ==> r.shape[i] != 1
  {
    Tensor(SqueezeShape(t.shape), t.data)
  }

  /** preds[:, 1] of an (n, 2) array. */
  function TakeSecondColumn(t: Tensor): (r: Tensor)
    requires WellFormed(t) && |t.shape| == 2 && t.shape[1] == 2
    ensures WellFormed(r) && r.shape == [t.shape[0]]
  {
    var n := t.shape[0];
    ProductTwo(t.shape);
    Tensor([n], seq(n, k requires 0 <= k < n => (IndexInside(k, n, 1, 2); t.data[k * 2 + 1])))
  }

  /** preds[:, :, 1] of an (n, m, 2) array. */
  function TakeLastAxis(t: Tensor): (r: Tensor)
    requires WellFormed(t) && |t.shape| == 3 && t.shape[2] == 2
    ensures WellFormed(r) && r.shape == [t.shape[0], t.shape[1]]
  {
    var n, m := t.shape[0], t.shape[1];
    ProductThree(t.shape);
    ProductTwo([n, m]);
    assert n * (m * 2) == (n * m) * 2;
    Tensor([n, m], seq(n * m, k requires 0 <= k < n * m =>
      (IndexInside(k, n * m, 1, 2); t.data[k * 2 + 1])))
  }

  lemma {:induction false} MiddleIndexInside(n: nat, p: nat, k: nat)
    requires k < n * p
    ensures p > 0 && (k / p * 2 + 1) * p + k % p < n * (2 * p)
  {
    assert p != 0;
    var a := k / p;
    MulMono(n, a, p);
    assert a < n;
    IndexInside(a * 2 + 1, 2 * n, k % p, p);
    assert 2 * n * p == n * (2 * p);
  }

  /** preds[:, 1, :] of an (n, 2, p) array. */
  function TakeMiddleAxis(t: Tensor): (r: Tensor)
    requires WellFormed(t) && |t.shape| == 3 && t.shape[1] == 2
    ensures WellFormed(r) && r.shape == [t.shape[0], t.shape[2]]
  {
    var n, p := t.shape[0], t.shape[2];
    ProductThree(t.shape);
    ProductTwo([n, p]);
    Tensor([n, p], seq(n * p, k requires 0 <= k < n * p =>
      (MiddleIndexInside(n, p, k); t.data[(k / p * 2 + 1) * p + k % p])))
  }

  /** preds[1, :, :] of a (2, m, p) array. */
  function TakeFirstAxis(t: Tensor): (r: Tensor)
    requires WellFormed(t) && |t.shape| == 3 && t.shape[0] == 2
    ensures WellFormed(r) && r.shape == [t.shape[1], t.shape[2]]
  {
    var m, p := t.shape[1], t.shape[2];
    ProductThree(t.shape);
    ProductTwo([m, p]);
    Tensor([m, p], t.data[m * p ..])
  }

  // ---------------------------------------------------------------------------
  // check_preds_shape

  /** What check_preds_shape decides: the tensor it keeps with the per-channel and
      multi-class flags, a rejection (-1), or an exception escaping to the caller
      (the modulo by a zero bin count, or the first axis of a 0-d array). */
  datatype ShapeCheck =
    | Accepted(preds: Tensor, byChn: bool, multi: bool)
    | WrongShape
    | Raised

  /** The binary path: a rank-3 array loses its size-2 axis (the first such of
      axes 2, 1, 0, tried in that order), then every length-1 axis is squeezed. */
  function BinaryReduced(t: Tensor): (r: Tensor)
    requires WellFormed(t)
    ensures WellFormed(r)
    ensures forall i :: 0 <= i < |r.shape| ==> r.shape[i] != 1
  {
    var p := if |t.shape| == 3 then
               (if t.shape[2] == 2 then TakeLastAxis(t)
                else if t.shape[1] == 2 then TakeMiddleAxis(t)
                else if t.shape[0] == 2 then TakeFirstAxis(t)
                else t)
             else t;
    Squeeze(p)
  }

  /** check_preds_shape. A tensor is accepted only when its bin count divides
      fs*max_time; the kept tensor has the layout the flags announce (a binary
      per-channel tensor is (bins, nchns) with nchns > 2, a multi-class
      per-channel one is (bins, nchns, classes), a binary single-channel one
      has one value per bin unless an axis of length 0 survives), and the
      multi-class flag is set exactly when multi-class was requested. */
  function CheckShape(t: Tensor, maxTime: nat, fs: nat, nchns: nat, binary: bool): (c: ShapeCheck)
    requires WellFormed(t)
    ensures c.Accepted? ==>
      && WellFormed(c.preds) && |c.preds.shape| >= 1 && c.preds.shape[0] > 0
      && (fs * maxTime) % c.preds.shape[0] == 0
      && c.multi == !binary
      && (c.byChn && !c.multi ==> |c.preds.shape| == 2 && c.preds.shape[1] == nchns && nchns > 2)
      && (c.byChn && c.multi ==> |c.preds.shape| == 3 && c.preds.shape[1] == nchns)
      && (!c.byChn && !c.multi ==> |c.preds.shape| == 1 || (|c.preds.shape| == 2 && c.preds.shape[1] == 0))
  {
    var total := fs * maxTime;
    if binary then
      var p := BinaryReduced(t);
      if |p.shape| == 1 then
        if p.shape[0] == 0 then Raised
        else if total % p.shape[0] == 0 then Accepted(p, false, false)
        else WrongShape
      else if |p.shape| == 2 then
        if p.shape[0] == 0 then Raised
        else if total % p.shape[0] != 0 then WrongShape
        else if p.shape[1] <= 2 then
          Accepted(if p.shape[1] == 2 then TakeSecondColumn(p) else p, false, false)
        else if p.shape[1] == nchns then Accepted(p, true, false)
        else WrongShape
      else WrongShape
    else
      if |t.shape| == 0 || t.shape[0] == 0 then Raised
      else if total % t.shape[0] != 0 then WrongShape
      else if |t.shape| == 3 && t.shape[1] != nchns then WrongShape
      else Accepted(t, |t.shape| == 3, true)
  }

  /** Every bin count that divides fs*max_time is accepted for a one-dimensional
      binary tensor and for any multi-class tensor that is not rank 3, and every
      other positive count is rejected with -1 (never an exception). */
  lemma CheckShapeDivisibility(t: Tensor, maxTime: nat, fs: nat, nchns: nat)
    requires WellFormed(t) && |t.shape| >= 1 && t.shape[0] > 0
    ensures |t.shape| == 1 && t.shape[0] != 1 ==>
      (CheckShape(t, maxTime, fs, nchns, true).Accepted? <==> (fs * maxTime) % t.shape[0] == 0)
    ensures |t.shape| != 3 ==>
      (CheckShape(t, maxTime, fs, nchns, false).Accepted? <==> (fs * maxTime) % t.shape[0] == 0)
    ensures (fs * maxTime) % t.shape[0] != 0 ==> CheckShape(t, maxTime, fs, nchns, false) == WrongShape
  {
    if |t.shape| == 1 && t.shape[0] != 1 {
      assert SqueezeShape(t.shape[1..]) == [];
      assert SqueezeShape(t.shape) == t.shape;
    }
  }

  /** A (bins, 2) binary tensor keeps only its positive-class column, and a
      (bins, nchns) tensor with nchns > 2 becomes per-channel. */
  lemma BinaryTwoColumnCollapses(t: Tensor, maxTime: nat, fs: nat, nchns: nat)
    requires WellFormed(t) && |t.shape| == 2 && t.shape[0] > 1 && (fs * maxTime) % t.shape[0] == 0
    ensures t.shape[1] == 2 ==>
      CheckShape(t, maxTime, fs, nchns, true) == Accepted(TakeSecondColumn(t), false, false)
    ensures t.shape[1] > 2 && t.shape[1] == nchns ==>
      CheckShape(t, maxTime, fs, nchns, true) == Accepted(t, true, false)
    ensures t.shape[1] > 2 && t.shape[1] != nchns ==>
      CheckShape(t, maxTime, fs, nchns, true) == WrongShape
  {
    assert t.shape[1..][1..] == [];
    if t.shape[1] != 1 {
      assert SqueezeShape(t.shape[1..]) == [t.shape[1]];
      assert SqueezeShape(t.shape) == t.shape;
    }
  }

  /** A rank-3 multi-class tensor whose channel axis disagrees with nchns is refused. */
  lemma MultiClassChannelMismatch(t: Tensor, maxTime: nat, fs: nat, nchns: nat)
    requires WellFormed(t) && |t.shape| == 3 && t.shape[0] > 0 && t.shape[1] != nchns
    ensures CheckShape(t, maxTime, fs, nchns, false) == WrongShape
  {
  }

  // ---------------------------------------------------------------------------
  // Reductions over one bin

  function MaxOf(s: seq<real>): (m: real)
    requires |s| > 0
    ensures m in s
    ensures forall i :: 0 <= i < |s| ==> s[i] <= m
  {
    if |s| == 1 then s[0]
    else var m := MaxOf(s[..|s| - 1]); if s[|s| - 1] > m then s[|s| - 1] else m
  }

  /** np.argmax: the index of the first maximum. */
  function ArgMax(s: seq<real>): (k: nat)
    requires |s| > 0
    ensures k < |s|
    ensures forall i :: 0 <= i < |s| ==> s[i] <= s[k]
    ensures forall i :: 0 <= i < k ==> s[i] < s[k]
  {
    if |s| == 1 then 0
    else var k := ArgMax(s[..|s| - 1]); if s[|s| - 1] > s[k] then |s| - 1 else k
  }

  /** The scores of channel c in a bin stored as channels of ncls classes. */
  function Chunk(row: seq<real>, c: nat, ncls: nat): seq<real>
    requires c * ncls + ncls <= |row|
  {
    row[c * ncls .. c * ncls + ncls]
  }

  /** np.argmax(row, axis=1) for a bin stored as nchn channels of ncls classes. */
  function ChannelArgMax(row: seq<real>, nchn: nat, ncls: nat): (r: seq<nat>)
    requires |row| == nchn * ncls && ncls > 0
    ensures |r| == nchn
  {
    seq(nchn, c requires 0 <= c < nchn =>
      (MulMono(c + 1, nchn, ncls); ArgMax(Chunk(row, c, ncls))))
  }

  /** The value shown for display channel j when the stored channels are reversed
      and right-aligned to nchns display channels; missing channels read as 0. */
  function Remapped(row: seq<real>, nchns: nat, j: nat): real
    requires j < nchns
  {
    if nchns - 1 - j < |row| then row[nchns - 1 - j] else 0.0
  }

  /** preds_mutli_chn[i] > thresh for one bin of a binary per-channel tensor:
      display channel nchns-1-c is flagged exactly when stored channel c exceeds
      the threshold, and display channels with no stored counterpart are never
      flagged under a non-negative threshold. */
  function RemapFlags(row: seq<real>, nchns: nat, thresh: real): (r: seq<bool>)
    ensures |r| == nchns
    ensures forall c :: 0 <= c < |row| && c < nchns ==> r[nchns - 1 - c] == (row[c] > thresh)
    ensures thresh >= 0.0 ==> forall j :: 0 <= j < nchns && nchns - 1 - j >= |row| ==> !r[j]
  {
    seq(nchns, j requires 0 <= j < nchns => Remapped(row, nchns, j) > thresh)
  }

  // ---------------------------------------------------------------------------
  // compute_starts_ends_chns, specified bin by bin

  datatype ChnRow = Flags(on: seq<bool>) | Classes(ids: seq<nat>)

  datatype Overlay = Overlay(starts: seq<nat>, ends: seq<nat>, chns: seq<ChnRow>, classVals: seq<nat>)

  /** The stored state compute_starts_ends_chns reads. */
  datatype Store = Store(predWidth: nat, predByChn: bool, multiClass: bool, preds: Tensor)

  /** The arguments of compute_starts_ends_chns. */
  datatype Query = Query(thresh: real, count: nat, ws: nat, fs: nat, nchns: nat)

  /** What compute_starts_ends_chns needs of the store to run without hanging or
      raising: a positive bin width, bins that are not empty, and the layout
      check_preds_shape gives each kind of tensor. */
  predicate Drawable(st: Store)
  {
    && st.predWidth > 0
    && WellFormed(st.preds) && |st.preds.shape| >= 1 && RowSize(st.preds) > 0
    && (st.predByChn && !st.multiClass ==> |st.preds.shape| == 2)
    && (st.predByChn && st.multiClass ==> |st.preds.shape| == 3)
  }

  function Bins(st: Store): nat
    requires |st.preds.shape| >= 1
  {
    st.preds.shape[0]
  }

  function StartT(q: Query): nat { q.count * q.fs }
  function EndT(q: Query): nat { q.count * q.fs + q.ws * q.fs }

  /** The window lies inside the predicted samples. */
  predicate InRange(st: Store, q: Query)
    requires |st.preds.shape| >= 1
  {
    EndT(q) <= Bins(st) * st.predWidth
  }

  function Ceil(x: nat, d: nat): nat
    requires d > 0
  {
    (x + d - 1) / d
  }

  lemma CeilBounds(x: nat, d: nat)
    requires d > 0
    ensures x <= Ceil(x, d) * d
    ensures Ceil(x, d) == 0 || (Ceil(x, d) - 1) * d < x
  {
    var q := Ceil(x, d);
    assert (x + d - 1) == q * d + (x + d - 1) % d;
  }

  /** The only i >= 0 with (i-1)*d < x <= i*d is Ceil(x, d). */
  lemma {:induction false} CeilUnique(x: nat, d: nat, i: int)
    requires d > 0 && i >= 0 && x <= i * d && (i == 0 || (i - 1) * d < x)
    ensures i == Ceil(x, d)
  {
    CeilBounds(x, d);
    var q := Ceil(x, d);
    MulMono(i, q as int - 1, d);
    MulMono(q, i - 1, d);
  }

  lemma FloorBounds(x: nat, d: nat)
    requires d > 0
    ensures (x / d) * d <= x < (x / d + 1) * d
  {
  }

  /** Rounding up lands on the floor when d divides x and one past it otherwise. */
  lemma {:induction false} CeilOfFloor(x: nat, d: nat)
    requires d > 0
    ensures Ceil(x, d) == x / d || (Ceil(x, d) == x / d + 1 && (x / d) * d < x)
  {
    var lo := x / d;
    FloorBounds(x, d);
    if x % d != 0 {
      assert lo * d < x;
      CeilUnique(x, d, lo + 1);
    } else {
      assert lo * d == x;
      CeilUnique(x, d, lo);
    }
  }

  lemma {:induction false} CeilAtMost(x: nat, n: nat, d: nat)
    requires d > 0 && x <= n * d
    ensures Ceil(x, d) <= n
  {
    CeilBounds(x, d);
    MulMono(n, Ceil(x, d) as int - 1, d);
  }

  lemma {:induction false} CeilMono(x: nat, y: nat, d: nat)
    requires d > 0 && x <= y
    ensures Ceil(x, d) <= Ceil(y, d)
  {
    CeilBounds(y, d);
    CeilAtMost(x, Ceil(y, d), d);
  }

  /** A bin b between the floor of s/d and the ceiling of e/d reaches past s
      and starts before e. */
  lemma {:induction false} BinMeetsWindow(s: nat, e: nat, d: nat, b: nat)
    requires d > 0 && s / d <= b < Ceil(e, d)
    ensures s < (b + 1) * d && b * d < e
  {
    FloorBounds(s, d);
    MulMono(s / d + 1, b + 1, d);
    CeilBounds(e, d);
    MulMono(b, Ceil(e, d) as int - 1, d);
  }

  /** A bin after the floor of s/d starts after s. */
  lemma {:induction false} LaterBinAfterStart(s: nat, d: nat, c: nat)
    requires d > 0 && s / d < c
    ensures s < c * d
  {
    FloorBounds(s, d);
    MulMono(s / d + 1, c, d);
  }

  /** First bin touched by the window and one past the last. */
  function Lo(st: Store, q: Query): nat
    requires st.predWidth > 0
  {
    StartT(q) / st.predWidth
  }

  function Hi(st: Store, q: Query): nat
    requires st.predWidth > 0
  {
    Ceil(EndT(q), st.predWidth)
  }

  lemma {:induction false} LoHi(st: Store, q: Query)
    requires st.predWidth > 0 && |st.preds.shape| >= 1 && InRange(st, q)
    ensures Lo(st, q) <= Ceil(StartT(q), st.predWidth) <= Hi(st, q) <= Bins(st)
    ensures var c := Ceil(StartT(q), st.predWidth);
      c == Lo(st, q) || (c == Lo(st, q) + 1 && Lo(st, q) * st.predWidth < StartT(q))
  {
    CeilOfFloor(StartT(q), st.predWidth);
    CeilMono(StartT(q), EndT(q), st.predWidth);
    CeilAtMost(EndT(q), Bins(st), st.predWidth);
  }

  function BinRow(st: Store, b: nat): seq<real>
    requires Drawable(st) && b < Bins(st)
  {
    Row(st.preds, b)
  }

  /** Multi-class bins are always drawn; a binary bin is drawn when its largest
      stored value exceeds the threshold. */
  predicate Active(st: Store, q: Query, b: nat)
    requires Drawable(st) && b < Bins(st)
  {
    st.multiClass || MaxOf(BinRow(st, b)) > q.thresh
  }

  /** The first sample of bin b. */
  function Edge(st: Store, b: nat): nat
  {
    b * st.predWidth
  }

  function BinStart(st: Store, q: Query, b: nat): nat
  {
    if Edge(st, b) < StartT(q) then StartT(q) else Edge(st, b)
  }

  /** A bin ends at its own boundary, except a binary bin that begins inside the
      window, which is cut at the window's end. */
  function BinEnd(st: Store, q: Query, b: nat): nat
  {
    var e := Edge(st, b + 1);
    if st.multiClass || Edge(st, b) < StartT(q) then e
    else if e <= EndT(q) then e else EndT(q)
  }

  function ChnEntry(st: Store, q: Query, b: nat): ChnRow
    requires Drawable(st) && b < Bins(st) && st.predByChn
  {
    var row := BinRow(st, b);
    if st.multiClass then
      ProductThree(st.preds.shape);
      Classes(ChannelArgMax(row, st.preds.shape[1], st.preds.shape[2]))
    else Flags(RemapFlags(row, q.nchns, q.thresh))
  }

  /** Which bins are drawn. */
  function ActiveMask(st: Store, q: Query): (m: seq<bool>)
    requires Drawable(st)
    ensures |m| == Bins(st)
  {
    seq(Bins(st), b requires 0 <= b < Bins(st) => Active(st, q, b))
  }

  /** The positions lo..k-1 where mask holds, in increasing order. */
  function Indices(mask: seq<bool>, lo: nat, k: nat): (bs: seq<nat>)
    requires k <= |mask|
    ensures forall i :: 0 <= i < |bs| ==> lo <= bs[i] < k && mask[bs[i]]
    decreases k
  {
    if k <= lo then []
    else Indices(mask, lo, k - 1) + (if mask[k - 1] then [k - 1] else [])
  }

  /** Indices lists every position of lo..k-1 where mask holds, and is strictly increasing. */
  lemma {:induction false} IndicesComplete(mask: seq<bool>, lo: nat, k: nat)
    requires k <= |mask|
    ensures var bs := Indices(mask, lo, k);
      && (forall i, j :: 0 <= i < j < |bs| ==> bs[i] < bs[j])
      && (forall b :: lo <= b < k && mask[b] ==> b in bs)
    decreases k
  {
    if k > lo {
      IndicesComplete(mask, lo, k - 1);
    }
  }

  /** A mask that holds wherever a second one holds has at least as many positions. */
  lemma {:induction false} IndicesFewer(m1: seq<bool>, m2: seq<bool>, lo: nat, k: nat)
    requires k <= |m1| == |m2|
    requires forall b :: 0 <= b < |m2| && m2[b] ==> m1[b]
    ensures |Indices(m2, lo, k)| <= |Indices(m1, lo, k)|
    decreases k
  {
    if k > lo {
      IndicesFewer(m1, m2, lo, k - 1);
    }
  }

  /** A mask that holds throughout lo..k-1 lists every position. */
  lemma {:induction false} IndicesAll(mask: seq<bool>, lo: nat, k: nat)
    requires k <= |mask| && forall b :: lo <= b < k ==> mask[b]
    ensures var bs := Indices(mask, lo, k);
      |bs| == (if k <= lo then 0 else k - lo) && forall i :: 0 <= i < |bs| ==> bs[i] == lo + i
    decreases k
  {
    if k > lo {
      IndicesAll(mask, lo, k - 1);
    }
  }

  /** The bins Lo..k-1 that are drawn: exactly the active ones, in increasing order. */
  function ActiveBins(st: Store, q: Query, k: nat): (bs: seq<nat>)
    requires Drawable(st) && k <= Bins(st)
    ensures forall i :: 0 <= i < |bs| ==> Lo(st, q) <= bs[i] < k && Active(st, q, bs[i])
  {
    Indices(ActiveMask(st, q), Lo(st, q), k)
  }

  /** Appending bin b to each of the four lists. */
  function EmitBin(o: Overlay, st: Store, q: Query, b: nat): Overlay
    requires Drawable(st) && b < Bins(st)
  {
    Overlay(o.starts + [BinStart(st, q, b)],
            o.ends + [BinEnd(st, q, b)],
            if st.predByChn then o.chns + [ChnEntry(st, q, b)] else o.chns,
            if st.multiClass then o.classVals + [ArgMax(BinRow(st, b))] else o.classVals)
  }

  /** The intervals, channel rows and class values of a list of bins, in order. */
  function OverlayOf(st: Store, q: Query, bs: seq<nat>): (o: Overlay)
    requires Drawable(st) && forall i :: 0 <= i < |bs| ==> bs[i] < Bins(st)
    ensures |o.starts| == |bs| && |o.ends| == |bs|
    ensures |o.chns| == (if st.predByChn then |bs| else 0)
    ensures |o.classVals| == (if st.multiClass then |bs| else 0)
    decreases |bs|
  {
    if |bs| == 0 then Overlay([], [], [], [])
    else EmitBin(OverlayOf(st, q, bs[..|bs| - 1]), st, q, bs[|bs| - 1])
  }

  lemma OverlayOfSnoc(st: Store, q: Query, bs: seq<nat>, b: nat)
    requires Drawable(st) && b < Bins(st) && forall i :: 0 <= i < |bs| ==> bs[i] < Bins(st)
    ensures OverlayOf(st, q, bs + [b]) == EmitBin(OverlayOf(st, q, bs), st, q, b)
  {
    assert (bs + [b])[..|bs|] == bs;
  }

  /** Entry i of the overlay of a bin list describes bin bs[i]. */
  lemma {:induction false} OverlayOfAt(st: Store, q: Query, bs: seq<nat>, i: nat)
    requires Drawable(st) && forall i :: 0 <= i < |bs| ==> bs[i] < Bins(st)
    requires i < |bs|
    ensures OverlayOf(st, q, bs).starts[i] == BinStart(st, q, bs[i])
    ensures OverlayOf(st, q, bs).ends[i] == BinEnd(st, q, bs[i])
    ensures st.multiClass ==> OverlayOf(st, q, bs).classVals[i] == ArgMax(BinRow(st, bs[i]))
    ensures st.predByChn ==> OverlayOf(st, q, bs).chns[i] == ChnEntry(st, q, bs[i])
    decreases |bs|
  {
    if i < |bs| - 1 {
      OverlayOfAt(st, q, bs[..|bs| - 1], i);
    }
  }

  /** What compute_starts_ends_chns returns for the window: the active bins
      between the one holding count*fs and the one holding the window's end. */
  function WindowOverlay(st: Store, q: Query): Overlay
    requires Drawable(st) && InRange(st, q)
  {
    LoHi(st, q);
    OverlayOf(st, q, ActiveBins(st, q, Hi(st, q)))
  }

  // ---------------------------------------------------------------------------
  // Properties of the window overlay

  /** The stretch of a bin the window touches is non-empty and starts inside the window. */
  lemma BinInsideWindow(st: Store, q: Query, b: nat)
    requires st.predWidth > 0 && Lo(st, q) <= b < Hi(st, q) && StartT(q) < EndT(q)
    ensures StartT(q) <= BinStart(st, q, b) < BinEnd(st, q, b)
    ensures BinStart(st, q, b) < EndT(q)
  {
    BinMeetsWindow(StartT(q), EndT(q), st.predWidth, b);
  }

  /** A later bin starts after an earlier one ends. */
  lemma BinsInOrder(st: Store, q: Query, b: nat, c: nat)
    requires st.predWidth > 0 && Lo(st, q) <= b < c
    ensures BinEnd(st, q, b) <= BinStart(st, q, c)
    ensures BinStart(st, q, b) < BinStart(st, q, c)
  {
    MulMono(b + 1, c, st.predWidth);
    LaterBinAfterStart(StartT(q), st.predWidth, c);
  }

  /** Each emitted interval is non-empty and starts inside the window, and the
      intervals are strictly increasing and do not overlap. */
  lemma {:induction false} IntervalsOrdered(st: Store, q: Query)
    requires Drawable(st) && InRange(st, q) && StartT(q) < EndT(q)
    ensures var o := WindowOverlay(st, q);
      && (forall i :: 0 <= i < |o.starts| ==> StartT(q) <= o.starts[i] < o.ends[i] && o.starts[i] < EndT(q))
      && (forall i :: 0 <= i < |o.starts| - 1 ==> o.ends[i] <= o.starts[i + 1] && o.starts[i] < o.starts[i + 1])
  {
    LoHi(st, q);
    var bs := ActiveBins(st, q, Hi(st, q));
    IndicesComplete(ActiveMask(st, q), Lo(st, q), Hi(st, q));
    var o := OverlayOf(st, q, bs);
    forall i | 0 <= i < |bs|
      ensures StartT(q) <= o.starts[i] < o.ends[i] && o.starts[i] < EndT(q)
    {
      OverlayOfAt(st, q, bs, i);
      BinInsideWindow(st, q, bs[i]);
    }
    forall i | 0 <= i < |bs| - 1
      ensures o.ends[i] <= o.starts[i + 1] && o.starts[i] < o.starts[i + 1]
    {
      OverlayOfAt(st, q, bs, i);
      OverlayOfAt(st, q, bs, i + 1);
      BinsInOrder(st, q, bs[i], bs[i + 1]);
    }
  }

  /** When a bin is no wider than the window, every binary interval lies inside
      [count*fs, (count+ws)*fs). */
  lemma {:induction false} BinaryIntervalsInsideWindow(st: Store, q: Query)
    requires Drawable(st) && InRange(st, q) && !st.multiClass
    requires 0 < st.predWidth <= q.ws * q.fs
    ensures var o := WindowOverlay(st, q);
      forall i :: 0 <= i < |o.starts| ==> StartT(q) <= o.starts[i] < o.ends[i] <= EndT(q)
  {
    IntervalsOrdered(st, q);
    LoHi(st, q);
    var bs := ActiveBins(st, q, Hi(st, q));
    var o := OverlayOf(st, q, bs);
    var s, d := StartT(q), st.predWidth;
    forall i | 0 <= i < |bs|
      ensures o.ends[i] <= EndT(q)
    {
      OverlayOfAt(st, q, bs, i);
      FloorBounds(s, d);
      if bs[i] > s / d {
        LaterBinAfterStart(s, d, bs[i]);
      }
    }
  }

  /** In multi-class mode a bin's interval runs to its own boundary, and only
      the first bin can start at count*fs rather than on its boundary. */
  lemma MultiClassBin(st: Store, q: Query, b: nat)
    requires st.predWidth > 0 && st.multiClass && Lo(st, q) <= b
    ensures BinEnd(st, q, b) == Edge(st, b + 1)
    ensures b > Lo(st, q) ==> BinStart(st, q, b) == Edge(st, b)
    ensures b == Lo(st, q) ==> BinStart(st, q, b) == StartT(q)
  {
    FloorBounds(StartT(q), st.predWidth);
    if b > Lo(st, q) {
      LaterBinAfterStart(StartT(q), st.predWidth, b);
    }
  }

  /** Entry i of the overlay of the consecutive bins Lo, Lo+1, ... in multi-class mode. */
  lemma TileEntry(st: Store, q: Query, bs: seq<nat>, i: nat)
    requires Drawable(st) && st.multiClass && forall j :: 0 <= j < |bs| ==> bs[j] < Bins(st)
    requires i < |bs| && bs[i] == Lo(st, q) + i
    ensures var o := OverlayOf(st, q, bs);
      && o.classVals[i] == ArgMax(BinRow(st, bs[i]))
      && o.ends[i] == Edge(st, bs[i] + 1)
      && (i == 0 ==> o.starts[i] == StartT(q))
      && (i > 0 ==> o.starts[i] == Edge(st, bs[i]))
  {
    OverlayOfAt(st, q, bs, i);
    MultiClassBin(st, q, bs[i]);
  }

  /** In multi-class mode every bin from Lo to Hi is drawn. */
  lemma MultiClassAllActive(st: Store, q: Query)
    requires Drawable(st) && InRange(st, q) && st.multiClass
    ensures Lo(st, q) <= Hi(st, q) <= Bins(st)
    ensures var bs := ActiveBins(st, q, Hi(st, q));
      |bs| == Hi(st, q) - Lo(st, q) && forall i :: 0 <= i < |bs| ==> bs[i] == Lo(st, q) + i
  {
    LoHi(st, q);
    var m := ActiveMask(st, q);
    forall b | Lo(st, q) <= b < Hi(st, q)
      ensures m[b]
    {
    }
    IndicesAll(m, Lo(st, q), Hi(st, q));
  }

  /** The overlay of the consecutive bins Lo, Lo+1, ... in multi-class mode tiles
      its span: each end is the next start, each bin carries its class and ends on
      its boundary, and the first starts at count*fs. */
  lemma {:induction false} ConsecutiveTiles(st: Store, q: Query, bs: seq<nat>)
    requires Drawable(st) && st.multiClass
    requires forall i :: 0 <= i < |bs| ==> bs[i] < Bins(st) && bs[i] == Lo(st, q) + i
    ensures var o := OverlayOf(st, q, bs);
      && (forall i :: 0 <= i < |o.starts| - 1 ==> o.ends[i] == o.starts[i + 1])
      && (forall i :: 0 <= i < |o.starts| ==>
            && Lo(st, q) + i < Bins(st)
            && o.classVals[i] == ArgMax(BinRow(st, Lo(st, q) + i))
            && o.ends[i] == Edge(st, Lo(st, q) + i + 1))
      && (|o.starts| > 0 ==> o.starts[0] == StartT(q))
  {
    var o := OverlayOf(st, q, bs);
    forall i | 0 <= i < |bs|
      ensures o.classVals[i] == ArgMax(BinRow(st, Lo(st, q) + i))
      ensures o.ends[i] == Edge(st, Lo(st, q) + i + 1)
      ensures i > 0 ==> o.starts[i] == Edge(st, Lo(st, q) + i)
    {
      var b := bs[i];
      assert b == Lo(st, q) + i;
      TileEntry(st, q, bs, i);
      assert BinRow(st, b) == BinRow(st, Lo(st, q) + i);
    }
    if |bs| > 0 {
      TileEntry(st, q, bs, 0);
    }
    forall i | 0 <= i < |o.starts| - 1
      ensures o.ends[i] == o.starts[i + 1]
    {
      assert o.starts[i + 1] == Edge(st, Lo(st, q) + (i + 1));
    }
  }

  /** Multi-class windows are tiled: every bin from Lo to Hi is listed with its
      class, each end is the next start, the first interval starts at count*fs
      and every interval ends on its bin's boundary. */
  lemma MultiClassTiles(st: Store, q: Query)
    requires Drawable(st) && InRange(st, q) && st.multiClass
    ensures var o := WindowOverlay(st, q);
      && |o.starts| == Hi(st, q) - Lo(st, q)
      && (forall i :: 0 <= i < |o.starts| - 1 ==> o.ends[i] == o.starts[i + 1])
      && (forall i :: 0 <= i < |o.starts| ==>
            && Lo(st, q) + i < Bins(st)
            && o.classVals[i] == ArgMax(BinRow(st, Lo(st, q) + i))
            && o.ends[i] == Edge(st, Lo(st, q) + i + 1))
      && (|o.starts| > 0 ==> o.starts[0] == StartT(q))
  {
    MultiClassAllActive(st, q);
    var bs := ActiveBins(st, q, Hi(st, q));
    assert WindowOverlay(st, q) == OverlayOf(st, q, bs);
    ConsecutiveTiles(st, q, bs);
  }

  /** A bin active at the higher threshold is active at the lower one. */
  lemma MaskThreshold(st: Store, q1: Query, q2: Query)
    requires Drawable(st) && !st.multiClass
    requires q2 == q1.(thresh := q2.thresh) && q1.thresh <= q2.thresh
    ensures forall b :: 0 <= b < Bins(st) && ActiveMask(st, q2)[b] ==> ActiveMask(st, q1)[b]
  {
  }

  /** The (start, end) pairs of an overlay. */
  function Intervals(o: Overlay): seq<(nat, nat)>
    requires |o.starts| == |o.ends|
  {
    seq(|o.starts|, j requires 0 <= j < |o.starts| => (o.starts[j], o.ends[j]))
  }

  /** Bin intervals depend on the window, not on the threshold. */
  lemma SameWindow(st: Store, q1: Query, q2: Query, b: nat)
    requires StartT(q1) == StartT(q2) && EndT(q1) == EndT(q2)
    ensures BinStart(st, q1, b) == BinStart(st, q2, b) && BinEnd(st, q1, b) == BinEnd(st, q2, b)
  {
  }

  /** Raising the threshold of a binary overlay can only drop intervals: each
      interval drawn at the higher threshold is drawn at the lower one. */
  lemma {:induction false} ThresholdMonotone(st: Store, q1: Query, q2: Query)
    requires Drawable(st) && InRange(st, q1) && !st.multiClass
    requires q2 == q1.(thresh := q2.thresh) && q1.thresh <= q2.thresh
    ensures var o1, o2 := WindowOverlay(st, q1), WindowOverlay(st, q2);
      && |o2.starts| <= |o1.starts|
      && forall i :: 0 <= i < |o2.starts| ==> (o2.starts[i], o2.ends[i]) in Intervals(o1)
  {
    LoHi(st, q1);
    var lo, k := Lo(st, q1), Hi(st, q1);
    var m1, m2 := ActiveMask(st, q1), ActiveMask(st, q2);
    MaskThreshold(st, q1, q2);
    IndicesFewer(m1, m2, lo, k);
    IndicesComplete(m1, lo, k);
    var bs1, bs2 := Indices(m1, lo, k), Indices(m2, lo, k);
    assert StartT(q2) == StartT(q1) && EndT(q2) == EndT(q1);
    assert Lo(st, q2) == lo && Hi(st, q2) == k;
    var o1, o2 := OverlayOf(st, q1, bs1), OverlayOf(st, q2, bs2);
    assert WindowOverlay(st, q1) == o1;
    assert WindowOverlay(st, q2) == o2;
    forall i | 0 <= i < |o2.starts|
      ensures (o2.starts[i], o2.ends[i]) in Intervals(o1)
    {
      assert bs2[i] in bs1;
      IntervalKept(st, q1, q2, bs1, bs2, i);
    }
  }

  /** A bin listed in both overlays has the same interval in each. */
  lemma IntervalKept(st: Store, q1: Query, q2: Query, bs1: seq<nat>, bs2: seq<nat>, i: nat)
    requires Drawable(st) && StartT(q1) == StartT(q2) && EndT(q1) == EndT(q2)
    requires forall j :: 0 <= j < |bs1| ==> bs1[j] < Bins(st)
    requires forall j :: 0 <= j < |bs2| ==> bs2[j] < Bins(st)
    requires i < |bs2| && bs2[i] in bs1
    ensures var o1, o2 := OverlayOf(st, q1, bs1), OverlayOf(st, q2, bs2);
      (o2.starts[i], o2.ends[i]) in Intervals(o1)
  {
    var o1, o2 := OverlayOf(st, q1, bs1), OverlayOf(st, q2, bs2);
    var b := bs2[i];
    var j :| 0 <= j < |bs1| && bs1[j] == b;
    OverlayOfAt(st, q1, bs1, j);
    OverlayOfAt(st, q2, bs2, i);
    SameWindow(st, q1, q2, b);
    assert Intervals(o1)[j] == (o2.starts[i], o2.ends[i]);
  }

  // ---------------------------------------------------------------------------
  // The stored state

  /** An RGBA colour. */
  datatype Color = Color(r: int, g: int, b: int, alpha: int)

  /** transparent, dark blue, green, red, yellow, pink, purple */
  const ClassColors: seq<Color> := [Color(255, 255, 255, 0), Color(50, 95, 168, 50),
    Color(50, 168, 82, 50), Color(168, 52, 50, 50), Color(164, 168, 50, 50),
    Color(168, 50, 150, 50), Color(127, 50, 168, 50)]

  /** get_color for class indices below 6; None stands for the colour drawn at
      random for higher indices. */
  function GetColor(i: nat): (c: Option<Color>)
    ensures c.Some? <==> i < 6
    ensures c.Some? ==> c.value != ClassColors[6]
    ensures c.Some? ==> c.value.alpha == (if i == 0 then 0 else 50)
  {
    if i < 6 then Some(ClassColors[i]) else None
  }

  /** The palette gives distinct classes distinct colours. */
  lemma GetColorDistinct(i: nat, j: nat)
    requires i < 6 && j < 6 && i != j
    ensures GetColor(i) != GetColor(j)
  {
  }

  /** Rounding t/d up gives the floor when d divides t and one past it otherwise. */
  lemma CeilCases(t: nat, d: nat)
    requires d > 0
    ensures Ceil(t, d) * d >= t
    ensures Ceil(t, d) == t / d || Ceil(t, d) == t / d + 1
    ensures Ceil(t, d) * d > t <==> Ceil(t, d) == t / d + 1
  {
    CeilBounds(t, d);
    CeilOfFloor(t, d);
    FloorBounds(t, d);
  }

  /** The search loops of compute_starts_ends_chns: from i0, step to the first
      bin whose boundary is at or past t, which is Ceil(t, d) unless i0 is already beyond it. */
  method SearchFrom(i0: int, t: nat, d: nat) returns (i: int)
    requires d > 0
    ensures i == if i0 <= Ceil(t, d) then Ceil(t, d) else i0
  {
    var c := Ceil(t, d);
    CeilBounds(t, d);
    MulMono(c, i0, d);
    i := i0;
    while i * d < t
      invariant i0 <= c ==> i0 <= i <= c
      invariant i0 > c ==> i == i0
      decreases c - i
    {
      MulMono(c, i, d);
      i := i + 1;
    }
    MulMono(i, c - 1, d);
  }

  /** One more bin: the drawn bins below k+1 are those below k and, if active, k. */
  lemma ActiveBinsNext(st: Store, q: Query, k: nat)
    requires Drawable(st) && Lo(st, q) <= k < Bins(st)
    ensures ActiveBins(st, q, k + 1) == ActiveBins(st, q, k) + (if Active(st, q, k) then [k] else [])
  {
  }

  /** A bin at or after the first boundary past count*fs and before Hi starts on
      its own boundary and lies inside the store. */
  lemma LaterBin(st: Store, q: Query, first: nat, i: nat)
    requires st.predWidth > 0 && |st.preds.shape| >= 1 && InRange(st, q)
    requires first == Ceil(StartT(q), st.predWidth) && first <= i && i * st.predWidth < EndT(q)
    ensures Lo(st, q) <= i < Hi(st, q) <= Bins(st)
    ensures BinStart(st, q, i) == i * st.predWidth
    ensures BinEnd(st, q, i) == if st.multiClass || (i + 1) * st.predWidth <= EndT(q) then (i + 1) * st.predWidth else EndT(q)
  {
    LoHi(st, q);
    CeilBounds(StartT(q), st.predWidth);
    CeilBounds(EndT(q), st.predWidth);
    MulMono(first, i, st.predWidth);
    MulMono(Hi(st, q), i, st.predWidth);
  }

  /** One more bin: the overlay below k+1 is the one below k, with bin k appended when it is drawn. */
  lemma OverlayNext(st: Store, q: Query, k: nat)
    requires Drawable(st) && Lo(st, q) <= k < Bins(st)
    ensures OverlayOf(st, q, ActiveBins(st, q, k + 1)) ==
      if Active(st, q, k) then EmitBin(OverlayOf(st, q, ActiveBins(st, q, k)), st, q, k)
      else OverlayOf(st, q, ActiveBins(st, q, k))
  {
    var bs, bs' := ActiveBins(st, q, k), ActiveBins(st, q, k + 1);
    ActiveBinsNext(st, q, k);
    if Active(st, q, k) {
      assert bs' == bs + [k];
      OverlayOfSnoc(st, q, bs, k);
    } else {
      assert bs' == bs;
    }
  }

  // ---------------------------------------------------------------------------
  // compute_starts_ends_chns, step by step

  /** preds_mutli_chn for a binary per-channel tensor t: display channel j of
      bin b holds the stored channel the reversal and right alignment put there. */
  predicate Aligned(t: Tensor, aligned: array2<real>, nchns: nat)
    requires WellFormed(t) && |t.shape| >= 1
    reads aligned
  {
    && aligned.Length0 == t.shape[0] && aligned.Length1 == nchns
    && forall b, j :: 0 <= b < aligned.Length0 && 0 <= j < nchns ==>
         aligned[b, j] == Remapped(Row(t, b), nchns, j)
  }

  /** preds_flipped: the channels of every bin of a two-axis tensor in reverse order. */
  method FlipChannels(t: Tensor) returns (flipped: array2<real>)
    requires WellFormed(t) && |t.shape| == 2
    ensures fresh(flipped)
    ensures flipped.Length0 == t.shape[0] && flipped.Length1 == t.shape[1]
    ensures RowSize(t) == t.shape[1]
    ensures forall b, c :: 0 <= b < t.shape[0] && 0 <= c < t.shape[1] ==>
      flipped[b, c] == Row(t, b)[t.shape[1] - 1 - c]
  {
    var bins, nst := t.shape[0], t.shape[1];
    ProductTwo(t.shape);
    flipped := new real[bins, nst]((b, c) => 0.0);
    var i := 0;
    while i < nst
      invariant 0 <= i <= nst
      invariant forall b, c :: 0 <= b < bins && 0 <= c < i ==> flipped[b, c] == Row(t, b)[nst - 1 - c]
      invariant forall b, c :: 0 <= b < bins && i <= c < nst ==> flipped[b, c] == 0.0
    {
      FlipColumn(t, flipped, i);
      i := i + 1;
    }
  }

  /** One pass of the inner loop of preds_flipped: channel i of every bin
      gets stored channel nst-1-i added to it. */
  method FlipColumn(t: Tensor, flipped: array2<real>, i: nat)
    requires WellFormed(t) && |t.shape| == 2 && RowSize(t) == t.shape[1]
    requires flipped.Length0 == t.shape[0] && flipped.Length1 == t.shape[1] && i < t.shape[1]
    modifies flipped
    ensures forall b, c :: 0 <= b < flipped.Length0 && 0 <= c < flipped.Length1 ==>
      flipped[b, c] == if c == i then old(flipped[b, c]) + Row(t, b)[t.shape[1] - 1 - c] else old(flipped[b, c])
  {
    var bins, nst := t.shape[0], t.shape[1];
    var b := 0;
    while b < bins
      invariant 0 <= b <= bins
      invariant forall b' :: 0 <= b' < b ==> flipped[b', i] == old(flipped[b', i]) + Row(t, b')[nst - 1 - i]
      invariant forall b', c :: 0 <= b' < bins && 0 <= c < nst && (c != i || b' >= b) ==>
        flipped[b', c] == old(flipped[b', c])
    {
      flipped[b, i] := flipped[b, i] + Row(t, b)[nst - 1 - i];
      b := b + 1;
    }
  }

  /** preds_mutli_chn from preds_flipped: the last nchns flipped channels when
      there are at least that many, otherwise all of them placed at the right
      and zeros on the left. */
  method RightAlign(flipped: array2<real>, nchns: nat) returns (aligned: array2<real>)
    ensures fresh(aligned)
    ensures aligned.Length0 == flipped.Length0 && aligned.Length1 == nchns
    ensures forall b, j :: 0 <= b < flipped.Length0 && 0 <= j < nchns ==>
      aligned[b, j] == if j + flipped.Length1 >= nchns then flipped[b, j + flipped.Length1 - nchns] else 0.0
  {
    var bins, nst := flipped.Length0, flipped.Length1;
    aligned := new real[bins, nchns]((b, j) => 0.0);
    var off := if nst >= nchns then nst - nchns else 0;
    var pad := if nst >= nchns then 0 else nchns - nst;
    var b := 0;
    while b < bins
      invariant 0 <= b <= bins
      invariant forall b', j :: 0 <= b' < b && 0 <= j < nchns ==>
        aligned[b', j] == if j + nst >= nchns then flipped[b', j + nst - nchns] else 0.0
      invariant forall b', j :: b <= b' < bins && 0 <= j < nchns ==> aligned[b', j] == 0.0
    {
      var j := pad;
      while j < nchns
        invariant pad <= j <= nchns
        invariant forall b', j' :: 0 <= b' < b && 0 <= j' < nchns ==>
          aligned[b', j'] == if j' + nst >= nchns then flipped[b', j' + nst - nchns] else 0.0
        invariant forall j' :: 0 <= j' < nchns ==>
          aligned[b, j'] == if pad <= j' < j then flipped[b, j' + nst - nchns] else 0.0
        invariant forall b', j' :: b < b' < bins && 0 <= j' < nchns ==> aligned[b', j'] == 0.0
      {
        aligned[b, j] := aligned[b, j] + flipped[b, off + j - pad];
        j := j + 1;
      }
      b := b + 1;
    }
  }

  /** The per-channel remapping of a binary per-channel tensor, in two steps. */
  method AlignChannels(t: Tensor, nchns: nat) returns (aligned: array2<real>)
    requires WellFormed(t) && |t.shape| == 2
    ensures fresh(aligned)
    ensures Aligned(t, aligned, nchns)
  {
    var flipped := FlipChannels(t);
    aligned := RightAlign(flipped, nchns);
    ProductTwo(t.shape);
  }

  /** Appends bin b, shown as [s, e), to the four lists: the body of each
      branch of the scan. */
  method AppendBin(st: Store, q: Query, o: Overlay, b: nat, s: nat, e: nat, aligned: array2<real>)
    returns (r: Overlay)
    requires Drawable(st) && b < Bins(st)
    requires s == BinStart(st, q, b) && e == BinEnd(st, q, b)
    requires st.predByChn && !st.multiClass ==> Aligned(st.preds, aligned, q.nchns)
    ensures r == EmitBin(o, st, q, b)
  {
    r := o.(starts := o.starts + [s], ends := o.ends + [e]);
    if st.multiClass {
      r := r.(classVals := r.classVals + [ArgMax(Row(st.preds, b))]);
      if st.predByChn {
        ProductThree(st.preds.shape);
        r := r.(chns := r.chns + [Classes(ChannelArgMax(Row(st.preds, b), st.preds.shape[1], st.preds.shape[2]))]);
      }
    } else if st.predByChn {
      var flags := seq(q.nchns, j reads aligned requires 0 <= j < q.nchns => aligned[b, j] > q.thresh);
      assert flags == RemapFlags(BinRow(st, b), q.nchns, q.thresh);
      r := r.(chns := r.chns + [Flags(flags)]);
    }
  }

  /** The two search loops and the partial first bin: afterwards i is the
      first bin boundary at or past count*fs and every drawn bin before it is listed. */
  method ScanStart(st: Store, q: Query, aligned: array2<real>) returns (o: Overlay, i: int)
    requires Drawable(st) && InRange(st, q)
    requires st.predByChn && !st.multiClass ==> Aligned(st.preds, aligned, q.nchns)
    ensures i == Ceil(StartT(q), st.predWidth) && 0 <= i <= Bins(st)
    ensures o == OverlayOf(st, q, ActiveBins(st, q, i))
    ensures Scanning(st, q, i, o)
  {
    var pw, startT := st.predWidth, StartT(q);
    LoHi(st, q);
    CeilCases(startT, pw);
    CeilBounds(startT, pw);
    var lo := Lo(st, q);
    o := Overlay([], [], [], []);
    var first := SearchFrom(0, startT, pw);
    i := first - 1;
    assert ActiveBins(st, q, lo) == [];
    if i * pw < startT < (i + 1) * pw {
      // the bin holding count*fs begins before the window
      assert i + 1 == first && first * pw > startT;
      assert i == lo;
      o := LeadingBin(st, q, aligned, i);
      i := i + 1;
    } else {
      assert first == lo;
    }
    i := SearchFrom(i, startT, pw);
  }

  /** The bin holding count*fs when it begins before the window: drawn from
      count*fs to its own boundary when it is active. */
  method LeadingBin(st: Store, q: Query, aligned: array2<real>, i: nat) returns (o: Overlay)
    requires Drawable(st) && i == Lo(st, q) && i < Bins(st) && i * st.predWidth < StartT(q)
    requires st.predByChn && !st.multiClass ==> Aligned(st.preds, aligned, q.nchns)
    ensures o == OverlayOf(st, q, ActiveBins(st, q, i + 1))
  {
    assert ActiveBins(st, q, i) == [];
    OverlayNext(st, q, i);
    o := Overlay([], [], [], []);
    if st.multiClass || MaxOf(Row(st.preds, i)) > q.thresh {
      o := AppendBin(st, q, o, i, StartT(q), (i + 1) * st.predWidth, aligned);
    }
  }

  /** One pass of the main loop for bin i: appends it when it is drawn, and
      reports whether the loop returns here (the bin holds the window's end). */
  method ScanBin(st: Store, q: Query, aligned: array2<real>, o: Overlay, i: nat) returns (r: Overlay, done: bool, next: nat)
    requires Drawable(st) && InRange(st, q)
    requires st.predByChn && !st.multiClass ==> Aligned(st.preds, aligned, q.nchns)
    requires Scanning(st, q, i, o) && i * st.predWidth < EndT(q)
    ensures next == i + 1 && next <= Hi(st, q) && Scanning(st, q, next, r)
    ensures done ==> r == WindowOverlay(st, q)
  {
    next := i + 1;
    var pw, endT := st.predWidth, EndT(q);
    LaterBin(st, q, Ceil(StartT(q), pw), i);
    var active := st.multiClass || MaxOf(Row(st.preds, i)) > q.thresh;
    r, done := o, false;
    if (i + 1) * pw > endT && active {
      // the bin holding the window's end: drawn up to the end, then return
      r := AppendBin(st, q, o, i, i * pw, if st.multiClass then (i + 1) * pw else endT, aligned);
      done := true;
    } else if active {
      r := AppendBin(st, q, o, i, i * pw, (i + 1) * pw, aligned);
    }
    ScanNext(st, q, i, o, r);
    if done {
      ScanDone(st, q, i, r);
    }
  }

  /** Bin i taken into the overlay when it is active keeps the loop's state. */
  lemma ScanNext(st: Store, q: Query, i: nat, o: Overlay, r: Overlay)
    requires Drawable(st) && InRange(st, q)
    requires Scanning(st, q, i, o) && i * st.predWidth < EndT(q) && i < Bins(st)
    requires r == if Active(st, q, i) then EmitBin(o, st, q, i) else o
    ensures i + 1 <= Hi(st, q) && Scanning(st, q, i + 1, r)
  {
    LaterBin(st, q, Ceil(StartT(q), st.predWidth), i);
    OverlayNext(st, q, i);
  }

  /** Once bin i reaches past the window's end, the overlay is complete. */
  lemma ScanDone(st: Store, q: Query, i: nat, r: Overlay)
    requires Drawable(st) && InRange(st, q)
    requires Scanning(st, q, i + 1, r) && i * st.predWidth < EndT(q) < (i + 1) * st.predWidth
    ensures r == WindowOverlay(st, q)
  {
    LoHi(st, q);
    CeilUnique(EndT(q), st.predWidth, i + 1);
  }

  /** The state of the main loop before bin i: the bins from the first
      boundary at or past count*fs up to i are listed. */
  predicate Scanning(st: Store, q: Query, i: int, o: Overlay)
    requires Drawable(st) && InRange(st, q)
  {
    && Ceil(StartT(q), st.predWidth) <= i <= Hi(st, q)
    && 0 <= i <= Bins(st)
    && o == OverlayOf(st, q, ActiveBins(st, q, i))
  }

  /** The main loop: every drawn bin from the first boundary at or past
      count*fs up to the one holding the window's end. */
  method ScanRest(st: Store, q: Query, aligned: array2<real>, o0: Overlay, i0: int) returns (o: Overlay)
    requires Drawable(st) && InRange(st, q)
    requires st.predByChn && !st.multiClass ==> Aligned(st.preds, aligned, q.nchns)
    requires Scanning(st, q, i0, o0)
    ensures o == WindowOverlay(st, q)
  {
    var pw, endT := st.predWidth, EndT(q);
    LoHi(st, q);
    o := o0;
    var i := i0;
    while i * pw < endT
      invariant Scanning(st, q, i, o)
      decreases Hi(st, q) - i
    {
      var done;
      o, done, i := ScanBin(st, q, aligned, o, i);
      if done {
        return;
      }
    }
    ExitAtHi(endT, pw, i);
  }

  /** The first bin whose boundary is at or past x is Ceil(x, d). */
  lemma ExitAtHi(x: nat, d: nat, i: nat)
    requires d > 0 && i <= Ceil(x, d) && i * d >= x
    ensures i == Ceil(x, d)
  {
    CeilBounds(x, d);
    MulMono(i, Ceil(x, d) - 1, d);
  }

  class PredictionInfo {
    var ready: bool
    var modelLoaded: bool
    var dataLoaded: bool
    var predsLoaded: bool
    var plotModelPreds: bool
    var plotLoadedPreds: bool
    var predWidth: nat
    var predByChn: bool
    var multiClass: bool
    var predicted: bool
    var modelPreds: Tensor
    var preds: Tensor
    var predsToPlot: Tensor
    var modelFn: string
    var dataFn: string
    var predsFn: string

    constructor ()
      ensures !ready && !modelLoaded && !dataLoaded && !predsLoaded
      ensures !plotModelPreds && !plotLoadedPreds && !predicted
      ensures predWidth == 0 && !predByChn && !multiClass
      ensures preds == Tensor([0], []) && modelPreds == Tensor([0], []) && predsToPlot == Tensor([0], [])
      ensures modelFn == "" && dataFn == "" && predsFn == ""
    {
      ready, modelLoaded, dataLoaded, predsLoaded := false, false, false, false;
      plotModelPreds, plotLoadedPreds, predicted := false, false, false;
      predWidth, predByChn, multiClass := 0, false, false;
      preds, modelPreds, predsToPlot := Tensor([0], []), Tensor([0], []), Tensor([0], []);
      modelFn, dataFn, predsFn := "", "", "";
    }

    /** The fields compute_starts_ends_chns reads. */
    function Snapshot(): Store
      reads this
    {
      Store(predWidth, predByChn, multiClass, predsToPlot)
    }

    /** check_preds_shape: Success(0) keeps the tensor, Success(-1) rejects it,
        Failure is the exception that escapes. Both flags are cleared before any
        check, so no outcome but acceptance leaves a flag set, and only
        acceptance touches the width, the arrays and preds_loaded. */
    method CheckPredsShape(t: Tensor, modelOrPreds: bool, maxTime: nat, fs: nat, nchns: nat, binary: bool)
      returns (ret: Result<int>)
      requires WellFormed(t)
      modifies this`predByChn, this`multiClass, this`predWidth, this`modelPreds, this`preds, this`predsLoaded
      ensures var c := CheckShape(t, maxTime, fs, nchns, binary);
        && (ret == Success(0) <==> c.Accepted?)
        && (ret == Success(-1) <==> c.WrongShape?)
        && (ret.Failure? <==> c.Raised?)
        && predByChn == (c.Accepted? && c.byChn)
        && multiClass == (c.Accepted? && c.multi)
        && (c.Accepted? ==>
              && predWidth * c.preds.shape[0] == fs * maxTime
              && (modelOrPreds ==> modelPreds == c.preds && preds == old(preds) && predsLoaded == old(predsLoaded))
              && (!modelOrPreds ==> preds == c.preds && predsLoaded && modelPreds == old(modelPreds)))
        && (!c.Accepted? ==>
              predWidth == old(predWidth) && preds == old(preds) && modelPreds == old(modelPreds)
              && predsLoaded == old(predsLoaded))
    {
      predByChn := false;
      multiClass := false;
      var c := CheckShape(t, maxTime, fs, nchns, binary);
      if c.Accepted? {
        Keep(c.preds, c.byChn, c.multi, fs * maxTime, modelOrPreds);
        ret := Success(0);
      } else if c.WrongShape? {
        ret := Success(-1);
      } else {
        ret := Failure("ZeroDivisionError or IndexError");
      }
    }

    /** The success branch of check_preds_shape: record the flags and the bin
        width, and store the tensor as model output or as loaded predictions. */
    method Keep(p: Tensor, byChn: bool, multi: bool, total: nat, modelOrPreds: bool)
      requires |p.shape| >= 1 && p.shape[0] > 0 && total % p.shape[0] == 0
      modifies this`predByChn, this`multiClass, this`predWidth, this`modelPreds, this`preds, this`predsLoaded
      ensures predByChn == byChn && multiClass == multi && predWidth * p.shape[0] == total
      ensures modelOrPreds ==> modelPreds == p && preds == old(preds) && predsLoaded == old(predsLoaded)
      ensures !modelOrPreds ==> preds == p && predsLoaded && modelPreds == old(modelPreds)
    {
      predByChn := byChn;
      multiClass := multi;
      predWidth := total / p.shape[0];
      if modelOrPreds {
        modelPreds := p;
      } else {
        predsLoaded := true;
        preds := p;
      }
    }

    method CopyLoadFlags(other: PredictionInfo)
      modifies this`ready, this`modelLoaded, this`dataLoaded, this`predsLoaded
      ensures ready == old(other.ready) && modelLoaded == old(other.modelLoaded)
      ensures dataLoaded == old(other.dataLoaded) && predsLoaded == old(other.predsLoaded)
    {
      ready, modelLoaded, dataLoaded, predsLoaded := other.ready, other.modelLoaded, other.dataLoaded, other.predsLoaded;
    }

    method CopyPlotSettings(other: PredictionInfo)
      modifies this`plotModelPreds, this`plotLoadedPreds, this`predWidth, this`predByChn
      ensures plotModelPreds == old(other.plotModelPreds) && plotLoadedPreds == old(other.plotLoadedPreds)
      ensures predWidth == old(other.predWidth) && predByChn == old(other.predByChn)
    {
      plotModelPreds, plotLoadedPreds := other.plotModelPreds, other.plotLoadedPreds;
      predWidth, predByChn := other.predWidth, other.predByChn;
    }

    method CopyArrays(other: PredictionInfo)
      modifies this`modelPreds, this`preds, this`predsToPlot
      ensures modelPreds == old(other.modelPreds) && preds == old(other.preds) && predsToPlot == old(other.predsToPlot)
    {
      modelPreds, preds, predsToPlot := other.modelPreds, other.preds, other.predsToPlot;
    }

    method CopyFileNames(other: PredictionInfo)
      modifies this`modelFn, this`dataFn, this`predsFn
      ensures modelFn == old(other.modelFn) && dataFn == old(other.dataFn) && predsFn == old(other.predsFn)
    {
      modelFn, dataFn, predsFn := other.modelFn, other.dataFn, other.predsFn;
    }

    /** write_data: copies every field of other but the multi-class flag and
        `predicted`, which keep their values. */
    method WriteData(other: PredictionInfo)
      modifies this`ready, this`modelLoaded, this`dataLoaded, this`predsLoaded
      modifies this`plotModelPreds, this`plotLoadedPreds, this`predWidth, this`predByChn
      modifies this`modelPreds, this`preds, this`predsToPlot, this`modelFn, this`dataFn, this`predsFn
      ensures ready == old(other.ready) && modelLoaded == old(other.modelLoaded)
      ensures dataLoaded == old(other.dataLoaded) && predsLoaded == old(other.predsLoaded)
      ensures plotModelPreds == old(other.plotModelPreds) && plotLoadedPreds == old(other.plotLoadedPreds)
      ensures predWidth == old(other.predWidth) && predByChn == old(other.predByChn)
      ensures modelPreds == old(other.modelPreds) && preds == old(other.preds) && predsToPlot == old(other.predsToPlot)
      ensures modelFn == old(other.modelFn) && dataFn == old(other.dataFn) && predsFn == old(other.predsFn)
    {
      CopyLoadFlags(other);
      CopyArrays(other);
      CopyFileNames(other);
      CopyPlotSettings(other);
    }

    /** compute_starts_ends_chns: the intervals, channel rows and class values
        of the drawn bins of the window. The multi-class per-channel path with
        fewer stored than requested channels fails, as the source's reference
        to an undefined name does. */
    method ComputeStartsEndsChns(thresh: real, count: nat, ws: nat, fs: nat, nchns: nat)
      returns (res: Result<Overlay>)
      requires Drawable(Snapshot()) && InRange(Snapshot(), Query(thresh, count, ws, fs, nchns))
      ensures predByChn && multiClass && predsToPlot.shape[1] < nchns ==> res.Failure?
      ensures !(predByChn && multiClass && predsToPlot.shape[1] < nchns) ==>
        res == Success(WindowOverlay(Snapshot(), Query(thresh, count, ws, fs, nchns)))
    {
      var st := Snapshot();
      var q := Query(thresh, count, ws, fs, nchns);
      var aligned: array2<real> := new real[0, 0];
      if predByChn && !multiClass {
        aligned := AlignChannels(predsToPlot, nchns);
      }
      if predByChn && multiClass && predsToPlot.shape[1] < nchns {
        return Failure("NameError: preds_mutli_chn");
      }
      var o, i := ScanStart(st, q, aligned);
      o := ScanRest(st, q, aligned, o, i);
      return Success(o);
    }
  }
}
