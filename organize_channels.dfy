/** The window that reorders the plotted channels: it lists the plotted labels
    bottom row first, and on confirmation moves each channel's label, colour
    and signal row together to the position its list item was dragged to. */
module OrganizeChannels {
  import opened Common
  import Channels

  type Row = seq<real>

  /** The list rows of n items: each in 0..n-1 and no two the same, so a
      permutation of 0..n-1. */
  predicate IsPermutation(rows: seq<int>, n: nat)
  {
    && |rows| == n
    && (forall k :: 0 <= k < n ==> 0 <= rows[k] < n)
    && (forall k, k' :: 0 <= k < k' < n ==> rows[k] != rows[k'])
  }

  /** A row of zeros as long as r. */
  function ZeroRow(r: Row): (z: Row)
    ensures |z| == |r| && forall i :: 0 <= i < |z| ==> z[i] == 0.0
  {
    seq(|r|, _ => 0.0)
  }

  class OrganizeWindow {
    /** The channel info whose plotted channels are reordered. */
    const data: Channels.ChannelInfo
    /** The text of each list item, top to bottom as first listed. */
    var chnItems: seq<string>
    /** The plotted labels after "Notes", in plot order. */
    var labelsFlipped: seq<string>

    constructor (data: Channels.ChannelInfo)
      ensures this.data == data && chnItems == [] && labelsFlipped == []
    {
      this.data := data;
      chnItems, labelsFlipped := [], [];
    }

    /** populateChnList: marks the channels as organized, keeps the plotted
        labels after "Notes" in order, and lists them in reverse order (the
        bottom plotted channel first). */
    method PopulateChnList()
      modifies this`chnItems, this`labelsFlipped, data`organize
      ensures data.organize
      ensures labelsFlipped == if |data.labelsToPlot| == 0 then [] else data.labelsToPlot[1..]
      ensures chnItems == Reverse(labelsFlipped)
    {
      chnItems, labelsFlipped := [], [];
      data.organize := true;
      var labels := data.labelsToPlot;
      if |labels| == 0 {
        return;
      }
      var n := |labels|;
      for i := 0 to n - 1
        invariant data.organize
        invariant labelsFlipped == labels[1..i + 1]
        invariant |chnItems| == i && forall k :: 0 <= k < i ==> chnItems[k] == labels[n - 1 - k]
      {
        labelsFlipped := labelsFlipped + [labels[i + 1]];
        chnItems := chnItems + [labels[n - 1 - i]];
      }
      assert labels[1..n] == labels[1..];
      assert chnItems == Reverse(labelsFlipped);
    }

    /** updateChnOrder with rows[k] the list row item k ends up in: the
        plotted channels are reordered as Reordered describes, and when the
        list shows the plotted labels bottom row first, every channel moves
        with its colour and signal row to the plot row its item was dragged
        to. */
    method UpdateChnOrder(rows: seq<int>)
      requires IsPermutation(rows, |chnItems|)
      requires |chnItems| <= |data.colors| < |data.labelsToPlot|
      requires |data.colors| <= |data.dataToPlot|
      modifies data`labelsToPlot, data`colors, data`dataToPlot
      ensures Reordered(chnItems, rows, old(data.labelsToPlot), old(data.colors), old(data.dataToPlot),
                        data.labelsToPlot, data.colors, data.dataToPlot)
      ensures chnItems == Reverse(old(data.labelsToPlot)[1..|chnItems| + 1]) ==>
        ChannelsFollow(rows, |chnItems|, old(data.labelsToPlot), old(data.colors), old(data.dataToPlot),
                       data.labelsToPlot, data.colors, data.dataToPlot)
    {
      var tl, tc, td := Reorder(chnItems, rows, data.labelsToPlot, data.colors, data.dataToPlot);
      data.labelsToPlot, data.colors, data.dataToPlot := tl, tc, td;
    }
  }

  /** The plotted labels, colours and signal rows tl, tc, td after
      updateChnOrder moves the n list items to rows: "Notes" first; item k
      gives its text to plot row n-rows[k]-1 (label index n-rows[k]) and that
      row takes the colour and signal row of plot row n-k-1; the coloured rows
      past the items keep theirs; the signal rows past the colours become
      zero. */
  predicate Reordered(items: seq<string>, rows: seq<int>, labels: seq<string>, colors: seq<string>,
                      rowsData: seq<Row>, tl: seq<string>, tc: seq<string>, td: seq<Row>)
    requires IsPermutation(rows, |items|)
    requires |items| <= |colors| < |labels| && |colors| <= |rowsData|
  {
    var n, m := |items|, |colors|;
    && |tl| == m + 1 && tl[0] == "Notes" && |tc| == m && |td| == |rowsData|
    && (forall k :: 0 <= k < n ==>
          && tl[n - rows[k]] == items[k]
          && tc[n - rows[k] - 1] == colors[n - k - 1]
          && td[n - rows[k] - 1] == rowsData[n - k - 1])
    && (forall p :: n < p <= m ==> tl[p] == labels[p])
    && (forall p :: n <= p < m ==> tc[p] == colors[p] && td[p] == rowsData[p])
    && (forall p :: m <= p < |td| ==> td[p] == ZeroRow(rowsData[p]))
  }

  /** The two loops of updateChnOrder on the plotted labels, colours and
      signal rows. */
  method Reorder(items: seq<string>, rows: seq<int>, labels: seq<string>, colors: seq<string>, rowsData: seq<Row>)
    returns (tl: seq<string>, tc: seq<string>, td: seq<Row>)
    requires IsPermutation(rows, |items|)
    requires |items| <= |colors| < |labels| && |colors| <= |rowsData|
    ensures Reordered(items, rows, labels, colors, rowsData, tl, tc, td)
    ensures items == Reverse(labels[1..|items| + 1]) ==>
      ChannelsFollow(rows, |items|, labels, colors, rowsData, tl, tc, td)
  {
    var tl0, tc0, td0 := CopyRows(labels, colors, rowsData);
    assert forall p :: 1 <= p <= |colors| ==> tl0[p] == labels[p];
    tl, tc, td := MoveItems(tl0, tc0, td0, items, rows, colors, rowsData);
    if items == Reverse(labels[1..|items| + 1]) {
      ChannelsFollowItems(items, rows, labels, colors, rowsData, tl, tc, td);
    }
  }

  /** The first loop of updateChnOrder: "Notes" and the label, colour and
      signal row of every coloured channel in place, and zero signal rows
      past the colours. */
  method CopyRows(labels: seq<string>, colors: seq<string>, rowsData: seq<Row>)
    returns (tl: seq<string>, tc: seq<string>, td: seq<Row>)
    requires |colors| < |labels| && |colors| <= |rowsData|
    ensures tl == ["Notes"] + labels[1..|colors| + 1] && tc == colors
    ensures |td| == |rowsData|
    ensures forall p :: 0 <= p < |td| ==> td[p] == if p < |colors| then rowsData[p] else ZeroRow(rowsData[p])
  {
    var m := |colors|;
    tl, tc, td := ["Notes"], [], seq(|rowsData|, i requires 0 <= i < |rowsData| => ZeroRow(rowsData[i]));
    for i := 0 to m
      invariant tl == ["Notes"] + labels[1..i + 1] && tc == colors[..i] && |td| == |rowsData|
      invariant forall p :: 0 <= p < |td| ==> td[p] == if p < i then rowsData[p] else ZeroRow(rowsData[p])
    {
      tl := tl + [labels[i + 1]];
      tc := tc + [colors[i]];
      td := td[i := rowsData[i]];
    }
    assert colors[..m] == colors;
  }

  /** The second loop of updateChnOrder: item k, listed at row rows[k],
      writes its text as the label of plot row n-rows[k]-1, and the colour
      and signal row of plot row n-k-1 there. */
  method MoveItems(tl: seq<string>, tc: seq<string>, td: seq<Row>, items: seq<string>, rows: seq<int>,
                   colors: seq<string>, rowsData: seq<Row>)
    returns (tl': seq<string>, tc': seq<string>, td': seq<Row>)
    requires IsPermutation(rows, |items|)
    requires |items| <= |colors| == |tc| && |tl| == |tc| + 1 && |colors| <= |rowsData| == |td|
    ensures var n := |items|;
      && |tl'| == |tl| && |tc'| == |tc| && |td'| == |td|
      && (forall k :: 0 <= k < n ==>
            && tl'[n - rows[k]] == items[k]
            && tc'[n - rows[k] - 1] == colors[n - k - 1]
            && td'[n - rows[k] - 1] == rowsData[n - k - 1])
      && tl'[0] == tl[0]
      && (forall p :: n < p <= |tc| ==> tl'[p] == tl[p])
      && (forall p :: n <= p < |tc| ==> tc'[p] == tc[p])
      && (forall p :: n <= p < |td| ==> td'[p] == td[p])
  {
    var n := |items|;
    tl', tc', td' := tl, tc, td;
    for k := 0 to n
      invariant |tl'| == |tl| && |tc'| == |tc| && |td'| == |td|
      invariant forall k' :: 0 <= k' < k ==>
        && tl'[n - rows[k']] == items[k']
        && tc'[n - rows[k'] - 1] == colors[n - k' - 1]
        && td'[n - rows[k'] - 1] == rowsData[n - k' - 1]
      invariant tl'[0] == tl[0]
      invariant forall p :: n < p <= |tc| ==> tl'[p] == tl[p]
      invariant forall p :: n <= p < |tc| ==> tc'[p] == tc[p]
      invariant forall p :: n <= p < |td| ==> td'[p] == td[p]
    {
      var row := rows[k];
      assert 0 <= row < n && forall k' :: 0 <= k' < k ==> rows[k'] != row;
      tl' := tl'[n - row := items[k]];
      tc' := tc'[n - row - 1 := colors[n - k - 1]];
      td' := td'[n - row - 1 := rowsData[n - k - 1]];
    }
  }

  /** Where updateChnOrder sends a channel: the channel at plot row j, listed
      as item n-1-j, lands at plot row n-1-rows[n-1-j]. */
  function Destination(rows: seq<int>, n: nat, j: nat): (q: int)
    requires IsPermutation(rows, n) && j < n
    ensures 0 <= q < n
  {
    n - 1 - rows[n - 1 - j]
  }

  /** The channel at plot row j (label index j + 1), with its colour and
      signal row, is found at plot row Destination(rows, n, j) of tl, tc,
      td, for each of the first n plot rows. */
  predicate ChannelsFollow(rows: seq<int>, n: nat, labels: seq<string>, colors: seq<string>,
                           rowsData: seq<Row>, tl: seq<string>, tc: seq<string>, td: seq<Row>)
    requires IsPermutation(rows, n)
  {
    forall j :: 0 <= j < n ==>
      var q := Destination(rows, n, j);
      && q + 1 < |tl| && j + 1 < |labels| && q < |tc| && j < |colors| && q < |td| && j < |rowsData|
      && tl[q + 1] == labels[j + 1]
      && tc[q] == colors[j]
      && td[q] == rowsData[j]
  }

  /** When the items list the plotted channels bottom row first, moving item
      k to row rows[k] sends the channel at plot row j, with its colour and
      signal row, to plot row Destination(rows, n, j). */
  lemma ChannelsFollowItems(items: seq<string>, rows: seq<int>, labels: seq<string>, colors: seq<string>,
                            rowsData: seq<Row>, tl: seq<string>, tc: seq<string>, td: seq<Row>)
    requires IsPermutation(rows, |items|)
    requires |items| < |labels| && |items| <= |colors| && |items| <= |rowsData|
    requires |items| < |tl| && |items| <= |tc| && |items| <= |td|
    requires items == Reverse(labels[1..|items| + 1])
    requires var n := |items|;
      forall k :: 0 <= k < n ==>
        && tl[n - rows[k]] == items[k]
        && tc[n - rows[k] - 1] == colors[n - k - 1]
        && td[n - rows[k] - 1] == rowsData[n - k - 1]
    ensures ChannelsFollow(rows, |items|, labels, colors, rowsData, tl, tc, td)
  {
    var n := |items|;
    forall j | 0 <= j < n
      ensures tl[Destination(rows, n, j) + 1] == labels[j + 1]
    {
      assert items[n - 1 - j] == labels[1..n + 1][j];
    }
  }

  /** Some of the first n list items is placed in row q. */
  predicate Hit(rows: seq<int>, n: nat, q: int)
    requires n <= |rows|
  {
    exists k :: 0 <= k < n && rows[k] == q
  }

  /** The rows of n list items take every row 0..n-1 (pigeonhole: n distinct
      rows below n leave none out). */
  lemma {:induction false} RowsOnto(rows: seq<int>, n: nat)
    requires IsPermutation(rows, n)
    ensures forall q :: 0 <= q < n ==> Hit(rows, n, q)
    decreases n
  {
    if n > 0 {
      // the item in row n - 1 takes the row of the last item instead, which
      // leaves n - 1 distinct rows below n - 1
      var v := rows[n - 1];
      var rows' := seq(n - 1, k requires 0 <= k < n - 1 => if rows[k] == n - 1 then v else rows[k]);
      assert IsPermutation(rows', n - 1);
      RowsOnto(rows', n - 1);
      forall q | 0 <= q < n
        ensures Hit(rows, n, q)
      {
        if q == v {
          assert rows[n - 1] == q;
        } else if q == n - 1 {
          assert Hit(rows', n - 1, v);
          var k :| 0 <= k < n - 1 && rows'[k] == v;
          assert rows[k] == n - 1;
        } else {
          assert Hit(rows', n - 1, q);
          var k :| 0 <= k < n - 1 && rows'[k] == q;
          assert rows[k] == q;
        }
      }
    }
  }

  /** Some of the first n channels is sent to plot row q. */
  predicate Reached(rows: seq<int>, n: nat, q: int)
    requires IsPermutation(rows, n)
  {
    exists j :: 0 <= j < n && Destination(rows, n, j) == q
  }

  /** Distinct channels go to distinct plot rows and every one of the first
      n plot rows receives one: the reorder is a permutation of the first n
      rows. */
  lemma DestinationIsPermutation(rows: seq<int>, n: nat)
    requires IsPermutation(rows, n)
    ensures forall j, j' :: 0 <= j < j' < n ==> Destination(rows, n, j) != Destination(rows, n, j')
    ensures forall q :: 0 <= q < n ==> Reached(rows, n, q)
  {
    RowsOnto(rows, n);
    forall q | 0 <= q < n
      ensures Reached(rows, n, q)
    {
      assert Hit(rows, n, n - 1 - q);
      var k :| 0 <= k < n && rows[k] == n - 1 - q;
      assert Destination(rows, n, n - 1 - k) == q;
    }
  }

  /** Items left in the rows they were listed in send every channel back to
      its own row. */
  lemma UnmovedStays(rows: seq<int>, n: nat)
    requires IsPermutation(rows, n)
    requires forall k :: 0 <= k < n ==> rows[k] == k
    ensures forall j :: 0 <= j < n ==> Destination(rows, n, j) == j
  {
  }
}
