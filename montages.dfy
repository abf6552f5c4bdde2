/** Montages built from a loaded EDF recording: recognising whether the file
    is already in the bipolar 10-20 montage, reordering its signals into the
    18 bipolar or 19 average-reference rows, deriving bipolar rows from
    average-reference ones, and reading predictions saved as extra signals. */
module Montages {
  import opened Common
  import opened LabelLookup
  import Channels
  import opened PredictionStore

  type Signal = seq<real>

  // ---------------------------------------------------------------------------
  // Label lookup

  /** The montage module's label lookup: the same three lookups as the channel
      module, but the fallback only renames single electrodes (every other
      label is retried as ""). */
  function CheckLabel(name: string, d: Dict): (r: int)
    ensures r == -1 || exists j :: 0 <= j < |d| && d[j].1 == r
  {
    var s := StagesOf(d);
    var alt := match TemporalRename(name) case Some(n) => n case None => "";
    StagedGetValue(d, name);
    StagedGetValue(d, alt);
    var r := StagedGet(s, name);
    if r != -1 then r else StagedGet(s, alt)
  }

  /** On labels without a hyphen the two lookups agree. */
  lemma CheckLabelAgrees(name: string, d: Dict)
    requires '-' !in name
    ensures CheckLabel(name, d) == Channels.CheckLabel(name, d)
  {
    FindChar(name, '-');
  }

  /** _check_montage: 0 when one of the labels occurs in the upper-cased
      label, 1 when none does. */
  function CheckMontage(name: string, labels: seq<string>): (r: int)
    ensures r == 0 || r == 1
    ensures r == 0 <==> exists i :: 0 <= i < |labels| && Contains(ToUpper(name), labels[i])
  {
    if |labels| == 0 then 1
    else if Contains(ToUpper(name), labels[|labels| - 1]) then 0
    else
      var r := CheckMontage(name, labels[..|labels| - 1]);
      assert forall i :: 0 <= i < |labels| - 1 ==> labels[..|labels| - 1][i] == labels[i];
      r
  }

  // ---------------------------------------------------------------------------
  // Rows of a montage

  function Zeros(width: nat): (r: Signal)
    ensures |r| == width && forall t :: 0 <= t < width ==> r[t] == 0.0
  {
    seq(width, _ => 0.0)
  }

  predicate Rectangular(data: seq<Signal>)
  {
    forall c :: 0 <= c < |data| ==> |data[c]| == |data[0]|
  }

  /** data.shape[1]. */
  function Width(data: seq<Signal>): nat
  {
    if |data| == 0 then 0 else |data[0]|
  }

  /** n montage rows: row k is the file's signal for labels[k] when the lookup
      finds one, and zeros otherwise (and for rows past the label list). */
  function MontageRows(labels: seq<string>, data: seq<Signal>, d: Dict, n: nat): (r: seq<Signal>)
    requires forall j :: 0 <= j < |d| ==> 0 <= d[j].1 < |data|
    ensures |r| == n
    ensures forall k :: 0 <= k < n ==> r[k] == Zeros(Width(data)) || r[k] in data
    ensures Rectangular(data) ==> forall k :: 0 <= k < n ==> |r[k]| == Width(data)
    ensures forall k :: n > k >= |labels| ==> r[k] == Zeros(Width(data))
  {
    seq(n, k requires 0 <= k < n =>
      if k < |labels| && CheckLabel(labels[k], d) != -1 then data[CheckLabel(labels[k], d)]
      else Zeros(Width(data)))
  }

  /** The row of a montage label that some recording label upper-cases to is
      the signal of the last such recording label. */
  lemma MontageRowOfKey(labels: seq<string>, data: seq<Signal>, d: Dict, n: nat, k: nat)
    requires forall j :: 0 <= j < |d| ==> 0 <= d[j].1 < |data|
    requires k < n && k < |labels|
    requires exists j :: 0 <= j < |d| && Upper(d[j].0) == labels[k]
    ensures var v := LastWith(d, Upper, labels[k]);
      && (exists j :: 0 <= j < |d| && Upper(d[j].0) == labels[k] && d[j].1 == v)
      && 0 <= v < |data| && MontageRows(labels, data, d, n)[k] == data[v]
  {
    StagedGetUpper(d, labels[k]);
  }

  class EdfMontage {
    /** The recording's label dict (the loader's labels2chns). */
    const labels2chns: Dict
    var nchns: int
    var montageData: seq<Signal>

    constructor (labels2chns: Dict, nchns: int)
      ensures this.labels2chns == labels2chns && this.nchns == nchns && montageData == []
    {
      this.labels2chns := labels2chns;
      this.nchns := nchns;
      montageData := [];
    }

    /** reorder_data: a file whose first label contains a bipolar 10-20 name
        gives the 18 bipolar rows, any other file the 19 average-reference
        rows. An empty label dict raises IndexError. */
    method ReorderData(data: seq<Signal>) returns (r: Result<seq<Signal>>)
      requires forall j :: 0 <= j < |labels2chns| ==> 0 <= labels2chns[j].1 < |data|
      modifies this`nchns, this`montageData
      ensures |labels2chns| == 0 ==> r.Failure? && nchns == old(nchns) && montageData == old(montageData)
      ensures |labels2chns| > 0 ==> r == Success(montageData)
      ensures |labels2chns| > 0 && CheckMontage(labels2chns[0].0, BIP1020) == 1 ==>
        nchns == 19 && montageData == MontageRows(AR1020, data, labels2chns, 19)
      ensures |labels2chns| > 0 && CheckMontage(labels2chns[0].0, BIP1020) == 0 ==>
        nchns == 18 && montageData == MontageRows(BIP1020, data, labels2chns, 18)
    {
      if |labels2chns| == 0 {
        return Failure("IndexError");
      }
      var mont := CheckMontage(labels2chns[0].0, BIP1020);
      if mont == 1 {
        nchns := 19;
        montageData := Ar(data);
      } else {
        nchns := 18;
        montageData := FillRows(BIP1020, data, 18);
      }
      r := Success(montageData);
    }

    /** ar: the average-reference rows, nchns of them. */
    method Ar(data: seq<Signal>) returns (rows: seq<Signal>)
      requires forall j :: 0 <= j < |labels2chns| ==> 0 <= labels2chns[j].1 < |data|
      requires nchns >= |AR1020|
      ensures rows == MontageRows(AR1020, data, labels2chns, nchns)
    {
      rows := FillRows(AR1020, data, nchns);
    }

    /** The loop shared by reorder_data and ar: start from n zero rows and copy
        in the signal of every label the lookup finds. */
    method FillRows(labels: seq<string>, data: seq<Signal>, n: nat) returns (rows: seq<Signal>)
      requires forall j :: 0 <= j < |labels2chns| ==> 0 <= labels2chns[j].1 < |data|
      requires |labels| <= n
      ensures rows == MontageRows(labels, data, labels2chns, n)
    {
      rows := seq(n, _ => Zeros(Width(data)));
      for chn := 0 to |labels|
        invariant |rows| == n
        invariant forall k :: 0 <= k < n ==>
          rows[k] == (if k < chn && CheckLabel(labels[k], labels2chns) != -1 then data[CheckLabel(labels[k], labels2chns)]
                      else Zeros(Width(data)))
      {
        var edfChn := CheckLabel(labels[chn], labels2chns);
        if edfChn != -1 {
          rows := rows[chn := data[edfChn]];
        }
      }
    }

    /** get_bipolar_from_ar: bipolar row k is the difference of the two
        average-reference rows picked for the electrodes of the k-th bipolar
        label. */
    method GetBipolarFromAr(arData: seq<Signal>) returns (rows: seq<Signal>)
      requires |arData| >= |AR1020| && Rectangular(arData)
      ensures |rows| == |BIP1020|
      ensures forall k :: 0 <= k < |BIP1020| ==>
        rows[k] == Difference(arData[BipolarPair(k).0], arData[BipolarPair(k).1])
    {
      var idx: seq<(nat, nat)> := [];
      for k := 0 to |BIP1020|
        invariant idx == BipolarPairs(k)
      {
        BipolarLabelSplits(k);
        var str0 := Split(BIP1020[k], '-')[0];
        var str1 := Split(BIP1020[k], '-')[1];
        var idx0 := ArgMaxInt(FindEach(AR1020, str0));
        var idx1 := ArgMaxInt(FindEach(AR1020, str1));
        BipolarPairsNext(k);
        idx := idx + [(idx0, idx1)];
      }
      rows := PairDifferences(arData, idx);
    }

    /** get_predictions: a "PREDICTIONS" signal is read as single-channel
        predictions; otherwise the signals "PREDICTIONS_0", "PREDICTIONS_1", …
        are read as one prediction per channel and transposed. Success(1) when
        predictions were found, Success(0) when not; a prediction signal of
        length 0 raises ZeroDivisionError once the other fields are set. */
    method GetPredictions(data: seq<Signal>, pi: PredictionInfo, maxTime: nat, fs: nat) returns (ret: Result<int>)
      requires forall j :: 0 <= j < |labels2chns| ==> 0 <= labels2chns[j].1 < |data|
      requires Rectangular(data)
      modifies pi`preds, pi`predsToPlot, pi`predsLoaded, pi`predByChn, pi`predWidth
      ensures var d := labels2chns;
        if HasKey(d, "PREDICTIONS") then
          var row := SignalAt(data, d, "PREDICTIONS");
          && pi.preds == Tensor([|row|], row) && pi.predsToPlot == pi.preds && pi.predsLoaded
          && pi.predByChn == old(pi.predByChn)
          && (ret == Success(1) <==> |row| > 0) && (ret.Failure? <==> |row| == 0)
          && (|row| > 0 ==> WidthFits(pi.predWidth, |row|, fs * maxTime))
        else if HasKey(d, PredKey(0)) then
          var rows := PredRows(data, d);
          assert |rows| > 0 && forall c :: 0 <= c < |rows| ==> |rows[c]| == |rows[0]|;
          && pi.preds == Transposed(rows) && pi.predsToPlot == pi.preds && pi.predsLoaded
          && (ret == Success(1) <==> |rows[0]| > 0) && (ret.Failure? <==> |rows[0]| == 0)
          && (|rows[0]| > 0 ==> pi.predByChn && WidthFits(pi.predWidth, |rows[0]|, fs * maxTime))
        else
          && ret == Success(0)
          && pi.preds == old(pi.preds) && pi.predsToPlot == old(pi.predsToPlot)
          && pi.predsLoaded == old(pi.predsLoaded) && pi.predByChn == old(pi.predByChn)
          && pi.predWidth == old(pi.predWidth)
    {
      var d := labels2chns;
      if HasKey(d, "PREDICTIONS") {
        var row := SignalAt(data, d, "PREDICTIONS");
        ret := StorePreds(pi, Tensor([|row|], row), |row|, fs * maxTime);
      } else if HasKey(d, PredKey(0)) {
        var rows := ReadPredRows(data, d);
        pi.predByChn := true;
        ret := StorePreds(pi, Transposed(rows), |rows[0]|, fs * maxTime);
      } else {
        ret := Success(0);
      }
    }
  }

  /** The assignments both branches of get_predictions end with: the
      predictions, their plotted copy, the loaded flag, then the width of one
      prediction in samples, total / n, which raises ZeroDivisionError for an
      empty prediction signal. */
  method StorePreds(pi: PredictionInfo, preds: Tensor, n: nat, total: nat) returns (ret: Result<int>)
    modifies pi`preds, pi`predsToPlot, pi`predsLoaded, pi`predWidth
    ensures pi.preds == preds && pi.predsToPlot == preds && pi.predsLoaded
    ensures n == 0 ==> ret.Failure? && pi.predWidth == old(pi.predWidth)
    ensures n > 0 ==> ret == Success(1) && WidthFits(pi.predWidth, n, total)
  {
    pi.preds := preds;
    pi.predsToPlot := pi.preds;
    pi.predsLoaded := true;
    if n == 0 {
      return Failure("ZeroDivisionError");
    }
    QuotientFits(total, n);
    pi.predWidth := total / n;
    ret := Success(1);
  }

  /** Integer division gives the width that fits. */
  lemma QuotientFits(total: nat, n: nat)
    requires n > 0
    ensures WidthFits(total / n, n, total)
  {
    var q, r := total / n, total % n;
    assert total == q * n + r && 0 <= r < n;
    assert (q + 1) * n == q * n + n;
  }

  // ---------------------------------------------------------------------------
  // Index used for the sampling rate

  /** (i', j') comes before (i, j) in the order getIndexForFs scans: list
      name by list name, and the dict's entries in order for each. */
  predicate Before(i': int, j': int, i: int, j: int)
  {
    i' < i || (i' == i && j' < j)
  }

  /** getIndexForFs (called with the average-reference labels as names): the
      value of the last (name, key) pair in scanning order whose key contains
      the name, or 0 when no key contains any of the names. */
  method IndexForFs(names: seq<string>, labelNames: Dict) returns (idx: int)
    ensures (forall i, j :: 0 <= i < |names| && 0 <= j < |labelNames| ==> !Contains(labelNames[j].0, names[i])) ==> idx == 0
    ensures (exists i, j :: 0 <= i < |names| && 0 <= j < |labelNames| && Contains(labelNames[j].0, names[i])) ==>
      exists i, j :: 0 <= i < |names| && 0 <= j < |labelNames| && Contains(labelNames[j].0, names[i])
        && idx == labelNames[j].1
        && forall i', j' :: 0 <= i' < |names| && 0 <= j' < |labelNames| && Before(i, j, i', j') ==>
             !Contains(labelNames[j'].0, names[i'])
  {
    var d := labelNames;
    idx := 0;
    ghost var found := false;
    ghost var bi, bj := 0, 0;
    for i := 0 to |names|
      invariant !found ==> idx == 0 && forall i', j' :: 0 <= i' < i && 0 <= j' < |d| ==> !Contains(d[j'].0, names[i'])
      invariant found ==> && 0 <= bi < i && 0 <= bj < |d| && Contains(d[bj].0, names[bi]) && idx == d[bj].1
                          && forall i', j' :: 0 <= i' < i && 0 <= j' < |d| && Before(bi, bj, i', j') ==> !Contains(d[j'].0, names[i'])
    {
      ghost var at;
      idx, at := LastKeyContaining(names[i], d, idx);
      if at != -1 {
        found, bi, bj := true, i, at;
      }
    }
    if exists i, j :: 0 <= i < |names| && 0 <= j < |d| && Contains(d[j].0, names[i]) {
      assert found;
    }
  }

  /** The inner loop of getIndexForFs: the value of the last key containing
      name (at is its position), or idx0 unchanged when no key contains it. */
  method LastKeyContaining(name: string, d: Dict, idx0: int) returns (idx: int, ghost at: int)
    ensures at == -1 <==> forall j :: 0 <= j < |d| ==> !Contains(d[j].0, name)
    ensures at == -1 ==> idx == idx0
    ensures at != -1 ==> && 0 <= at < |d| && Contains(d[at].0, name) && idx == d[at].1
                         && forall j :: at < j < |d| ==> !Contains(d[j].0, name)
    ensures (forall j :: 0 <= j < |d| ==> !Contains(d[j].0, name)) ==> idx == idx0
    ensures (exists j :: 0 <= j < |d| && Contains(d[j].0, name)) ==>
      exists j :: 0 <= j < |d| && Contains(d[j].0, name) && idx == d[j].1
                  && forall j' :: j < j' < |d| ==> !Contains(d[j'].0, name)
  {
    idx, at := idx0, -1;
    for j := 0 to |d|
      invariant at == -1 ==> idx == idx0 && forall j' :: 0 <= j' < j ==> !Contains(d[j'].0, name)
      invariant at != -1 ==> && 0 <= at < j && Contains(d[at].0, name) && idx == d[at].1
                             && forall j' :: at < j' < j ==> !Contains(d[j'].0, name)
    {
      if Contains(d[j].0, name) {
        idx, at := d[j].1, j;
      }
    }
  }

  // ---------------------------------------------------------------------------
  // Bipolar rows from average-reference rows

  function Difference(a: Signal, b: Signal): (r: Signal)
    requires |a| == |b|
    ensures |r| == |a| && forall t :: 0 <= t < |a| ==> r[t] == a[t] - b[t]
  {
    seq(|a|, t requires 0 <= t < |a| => a[t] - b[t])
  }

  /** The second loop of get_bipolar_from_ar: one row per pair of row
      indices, the first row minus the second. */
  method PairDifferences(data: seq<Signal>, pairs: seq<(nat, nat)>) returns (rows: seq<Signal>)
    requires Rectangular(data)
    requires forall k :: 0 <= k < |pairs| ==> pairs[k].0 < |data| && pairs[k].1 < |data|
    ensures |rows| == |pairs|
    ensures forall k :: 0 <= k < |pairs| ==> rows[k] == Difference(data[pairs[k].0], data[pairs[k].1])
  {
    rows := [];
    for k := 0 to |pairs|
      invariant |rows| == k
      invariant forall m :: 0 <= m < k ==> rows[m] == Difference(data[pairs[m].0], data[pairs[m].1])
    {
      rows := rows + [Difference(data[pairs[k].0], data[pairs[k].1])];
    }
  }

  /** np.char.find(labels, s): the position of s in each label, or -1. */
  function FindEach(labels: seq<string>, s: string): (r: seq<int>)
    ensures |r| == |labels| && forall i :: 0 <= i < |labels| ==> r[i] == Find(labels[i], s)
  {
    seq(|labels|, i requires 0 <= i < |labels| => Find(labels[i], s))
  }

  /** np.argmax: the first index holding the largest value. */
  function ArgMaxInt(xs: seq<int>): (k: nat)
    requires |xs| > 0
    ensures k < |xs|
    ensures forall i :: 0 <= i < |xs| ==> xs[i] <= xs[k]
    ensures forall i :: 0 <= i < k ==> xs[i] < xs[k]
  {
    if |xs| == 1 then 0
    else
      var k := ArgMaxInt(xs[..|xs| - 1]);
      assert forall i :: 0 <= i < |xs| - 1 ==> xs[..|xs| - 1][i] == xs[i];
      if xs[|xs| - 1] > xs[k] then |xs| - 1 else k
  }

  /** Every bipolar label joins two electrode names with a hyphen. */
  lemma BipolarLabelSplits(k: nat)
    requires k < |BIP1020|
    ensures '-' in BIP1020[k] && |Split(BIP1020[k], '-')| >= 2
  {
    assert '-' in BIP1020[k];
    SplitHasTwo(BIP1020[k], '-');
  }

  /** The average-reference rows picked for the two electrodes of the k-th
      bipolar label. */
  function BipolarPair(k: nat): (nat, nat)
    requires k < |BIP1020|
  {
    BipolarLabelSplits(k);
    var parts := Split(BIP1020[k], '-');
    (ArgMaxInt(FindEach(AR1020, parts[0])), ArgMaxInt(FindEach(AR1020, parts[1])))
  }

  /** The pairs of the first n bipolar labels. */
  function BipolarPairs(n: nat): (r: seq<(nat, nat)>)
    requires n <= |BIP1020|
    ensures |r| == n && forall k :: 0 <= k < n ==> r[k] == BipolarPair(k)
  {
    seq(n, k requires 0 <= k < n => BipolarPair(k))
  }

  lemma BipolarPairsNext(n: nat)
    requires n < |BIP1020|
    ensures BipolarPairs(n + 1) == BipolarPairs(n) + [BipolarPair(n)]
  {
    var longer, shorter := BipolarPairs(n + 1), BipolarPairs(n);
    assert |longer| == |shorter + [BipolarPair(n)]|;
    forall k | 0 <= k <= n
      ensures longer[k] == (shorter + [BipolarPair(n)])[k]
    {
      if k < n {
        assert longer[k] == BipolarPair(k) == shorter[k];
      }
    }
  }

  /** The row picked for an electrode contains the electrode's name whenever
      some average-reference label does, and is the first such label among
      those where the name occurs furthest in; when no label contains it the
      first row is picked. */
  lemma PickedLabelContains(labels: seq<string>, s: string)
    requires |labels| > 0
    ensures var k := ArgMaxInt(FindEach(labels, s));
      && ((exists i :: 0 <= i < |labels| && Contains(labels[i], s)) <==> Contains(labels[k], s))
      && ((forall i :: 0 <= i < |labels| ==> !Contains(labels[i], s)) ==> k == 0)
  {
    var xs := FindEach(labels, s);
    var k := ArgMaxInt(xs);
    forall i | 0 <= i < |labels|
      ensures xs[i] >= -1 && (Contains(labels[i], s) <==> xs[i] >= 0)
    {
    }
    if exists i :: 0 <= i < |labels| && Contains(labels[i], s) {
      var i :| 0 <= i < |labels| && Contains(labels[i], s);
      assert xs[k] >= xs[i] >= 0;
    } else {
      assert xs[0] == -1 == xs[k];
    }
  }

  // ---------------------------------------------------------------------------
  // Predictions saved as signals

  /** "PREDICTIONS_" + str(i). */
  function PredKey(i: nat): string
  {
    "PREDICTIONS_" + NatToString(i)
  }

  function MaxKeyLength(d: Dict): nat
  {
    if |d| == 0 then 0
    else
      var m := MaxKeyLength(d[..|d| - 1]);
      if |d[|d| - 1].0| > m then |d[|d| - 1].0| else m
  }

  lemma {:induction false} KeyLengthBound(d: Dict, j: nat)
    requires j < |d|
    ensures |d[j].0| <= MaxKeyLength(d)
    decreases |d|
  {
    if j < |d| - 1 {
      KeyLengthBound(d[..|d| - 1], j);
    }
  }

  /** A prediction key present in the dict has an index below 10 to the power
      of the longest key's length: the loop over them stops. */
  lemma PredKeyBound(d: Dict, i: nat)
    requires HasKey(d, PredKey(i))
    ensures i + 1 <= Pow10(MaxKeyLength(d))
  {
    var j :| 0 <= j < |d| && d[j].0 == PredKey(i);
    KeyLengthBound(d, j);
    NatToStringBound(i);
    Pow10Mono(|NatToString(i)|, MaxKeyLength(d));
  }

  /** The number of consecutive prediction keys "PREDICTIONS_0", … in d:
      every key below the count is present and the key at the count is not. */
  function PredCount(d: Dict): (n: nat)
    ensures forall c :: 0 <= c < n ==> HasKey(d, PredKey(c))
    ensures !HasKey(d, PredKey(n))
  {
    CountFromKeys(d, 0);
    CountFromEnd(d, 0);
    CountFrom(d, 0)
  }

  function CountFrom(d: Dict, i: nat): nat
    decreases Pow10(MaxKeyLength(d)) - i
  {
    if HasKey(d, PredKey(i)) then
      PredKeyBound(d, i);
      1 + CountFrom(d, i + 1)
    else 0
  }

  lemma {:induction false} CountFromStops(d: Dict, i: nat, n: nat)
    requires forall c :: i <= c < n ==> HasKey(d, PredKey(c))
    requires !HasKey(d, PredKey(n)) && i <= n
    ensures CountFrom(d, i) == n - i
    decreases n - i
  {
    if i < n {
      CountFromStops(d, i + 1, n);
    }
  }

  /** The key just past the run counted from i is missing. */
  lemma {:induction false} CountFromEnd(d: Dict, i: nat)
    ensures !HasKey(d, PredKey(i + CountFrom(d, i)))
    decreases Pow10(MaxKeyLength(d)) - i
  {
    if HasKey(d, PredKey(i)) {
      PredKeyBound(d, i);
      CountFromEnd(d, i + 1);
    }
  }

  lemma PredCountIs(d: Dict, n: nat)
    requires forall c :: 0 <= c < n ==> HasKey(d, PredKey(c))
    requires !HasKey(d, PredKey(n))
    ensures PredCount(d) == n
  {
    CountFromStops(d, 0, n);
  }

  lemma {:induction false} CountFromKeys(d: Dict, i: nat)
    ensures forall c :: i <= c < i + CountFrom(d, i) ==> HasKey(d, PredKey(c))
    decreases Pow10(MaxKeyLength(d)) - i
  {
    if HasKey(d, PredKey(i)) {
      PredKeyBound(d, i);
      CountFromKeys(d, i + 1);
    }
  }

  /** The signal stored under a key of the dict. */
  function SignalAt(data: seq<Signal>, d: Dict, k: string): (row: Signal)
    requires forall j :: 0 <= j < |d| ==> 0 <= d[j].1 < |data|
    requires HasKey(d, k)
    ensures row in data
  {
    var v := Get(d, k);
    var j :| 0 <= j < |d| && d[j] == (k, v);
    data[v]
  }

  /** The per-channel prediction signals, in channel order. */
  function PredRows(data: seq<Signal>, d: Dict): (rows: seq<Signal>)
    requires forall j :: 0 <= j < |d| ==> 0 <= d[j].1 < |data|
    ensures |rows| == PredCount(d)
    ensures forall c :: 0 <= c < |rows| ==> rows[c] in data
  {
    CountFromKeys(d, 0);
    seq(PredCount(d), c requires 0 <= c < PredCount(d) => SignalAt(data, d, PredKey(c)))
  }

  /** The blocks laid end to end. */
  function Flatten(blocks: seq<seq<real>>): seq<real>
  {
    if |blocks| == 0 then [] else blocks[0] + Flatten(blocks[1..])
  }

  lemma {:induction false} FlattenLength(blocks: seq<seq<real>>, m: nat)
    requires forall b :: 0 <= b < |blocks| ==> |blocks[b]| == m
    ensures |Flatten(blocks)| == |blocks| * m
    decreases |blocks|
  {
    if |blocks| > 0 {
      FlattenLength(blocks[1..], m);
      assert |blocks| * m == (|blocks| - 1) * m + m;
    }
  }

  /** Element c of block b sits at b*m + c of the flattened blocks. */
  lemma {:induction false} FlattenIndex(blocks: seq<seq<real>>, m: nat, b: nat, c: nat)
    requires forall i :: 0 <= i < |blocks| ==> |blocks[i]| == m
    requires b < |blocks| && c < m
    ensures b * m + c < |Flatten(blocks)| && Flatten(blocks)[b * m + c] == blocks[b][c]
    decreases b
  {
    FlattenLength(blocks, m);
    IndexInside(b, |blocks|, c, m);
    if b > 0 {
      FlattenIndex(blocks[1..], m, b - 1, c);
      assert b * m + c == (b - 1) * m + c + m;
    }
  }

  /** The loop of get_predictions over "PREDICTIONS_0", "PREDICTIONS_1", …:
      the signals of the consecutive prediction keys, stopping at the first
      missing one. */
  method ReadPredRows(data: seq<Signal>, d: Dict) returns (rows: seq<Signal>)
    requires forall j :: 0 <= j < |d| ==> 0 <= d[j].1 < |data|
    ensures rows == PredRows(data, d)
  {
    var i := 0;
    rows := [];
    while HasKey(d, PredKey(i))
      invariant i == |rows| && i <= Pow10(MaxKeyLength(d))
      invariant forall c :: 0 <= c < i ==> HasKey(d, PredKey(c)) && rows[c] == SignalAt(data, d, PredKey(c))
      decreases Pow10(MaxKeyLength(d)) - i
    {
      PredKeyBound(d, i);
      rows := rows + [SignalAt(data, d, PredKey(i))];
      i := i + 1;
    }
    PredCountIs(d, i);
  }

  /** np.array(rows).T for equal-length rows: a (length × channels) tensor
      whose row t holds sample t of every channel. */
  function Transposed(rows: seq<Signal>): (t: Tensor)
    requires |rows| > 0 && forall c :: 0 <= c < |rows| ==> |rows[c]| == |rows[0]|
    ensures t.shape == [|rows[0]|, |rows|] && WellFormed(t)
  {
    var n, m := |rows[0]|, |rows|;
    var samples := seq(n, s requires 0 <= s < n => seq(m, c requires 0 <= c < m => rows[c][s]));
    FlattenLength(samples, m);
    ProductTwo([n, m]);
    Tensor([n, m], Flatten(samples))
  }

  /** Entry (t, c) of the transposed predictions is sample t of channel c. */
  lemma TransposedEntry(rows: seq<Signal>, t: nat, c: nat)
    requires |rows| > 0 && forall c :: 0 <= c < |rows| ==> |rows[c]| == |rows[0]|
    requires t < |rows[0]| && c < |rows|
    ensures t * |rows| + c < |Transposed(rows).data|
    ensures Transposed(rows).data[t * |rows| + c] == rows[c][t]
  {
    var n, m := |rows[0]|, |rows|;
    var samples := seq(n, s requires 0 <= s < n => seq(m, c requires 0 <= c < m => rows[c][s]));
    FlattenIndex(samples, m, t, c);
  }

  /** The width stored for n predictions over total samples: the quotient,
      exact when n divides the total. */
  predicate WidthFits(width: nat, n: nat, total: nat)
    requires n > 0
  {
    width * n <= total < (width + 1) * n && (total % n == 0 ==> width * n == total)
  }
}
