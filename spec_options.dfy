/** The spectrogram window: it lists the plotted channels bottom first under
    "<select channel>", and on confirmation records which channel the
    spectrogram shows (or that none is shown) and the frequency range of its
    axis. */
module Spectrogram {
  import opened Common

  const SelectChannel := "<select channel>"

  /** The spectrogram settings shared with the main window. */
  class SpecInfo {
    /** Whether a spectrogram is shown. */
    var plotSpec: bool
    /** The plotted row it shows, -1 for none. */
    var chnPlotted: int
    /** The label of that channel. */
    var chnName: string
    /** The frequency range of the axis, in Hz. */
    var minFs: real
    var maxFs: real

    constructor ()
      ensures !plotSpec && chnPlotted == -1 && chnName == "" && minFs == 1.0 && maxFs == 30.0
    {
      plotSpec, chnPlotted, chnName := false, -1, "";
      minFs, maxFs := 1.0, 30.0;
    }
  }

  class SpecOptions {
    const data: SpecInfo
    /** The combo box items, top to bottom, and the index of the one chosen
        (-1 for none). */
    var comboItems: seq<string>
    var current: int
    /** The plotted labels after "Notes", in plot order. */
    var labelsFlipped: seq<string>
    /** The editors of the axis range. */
    var minFsInput: real
    var maxFsInput: real
    /** Whether the window is still open. */
    var open: bool

    /** The window as set up before its channel list is filled: the combo box
        holds only "<select channel>" and the range editors the current
        range. */
    constructor (data: SpecInfo)
      ensures this.data == data && comboItems == [SelectChannel] && current == 0 && labelsFlipped == []
      ensures minFsInput == data.minFs && maxFsInput == data.maxFs && open
    {
      this.data := data;
      comboItems, current, labelsFlipped := [SelectChannel], 0, [];
      minFsInput, maxFsInput := data.minFs, data.maxFs;
      open := true;
    }

    /** populate_chn_list: with no plotted labels the window closes;
        otherwise the labels after "Notes" are kept in order and listed in
        reverse below "<select channel>", and the row of the channel shown
        (or the first row) is chosen; a row past the list leaves none
        chosen. */
    method PopulateChnList(labelsToPlot: seq<string>)
      requires comboItems == [SelectChannel]
      modifies this`comboItems, this`current, this`labelsFlipped, this`open
      ensures labelsFlipped == if |labelsToPlot| == 0 then [] else labelsToPlot[1..]
      ensures comboItems == [SelectChannel] + Reverse(labelsFlipped)
      ensures |labelsToPlot| == 0 ==> !open && current == old(current)
      ensures |labelsToPlot| > 0 ==> open == old(open) && current == RowOf(data.chnPlotted, |labelsToPlot|)
    {
      labelsFlipped := [];
      var n := |labelsToPlot|;
      if n == 0 {
        open := false;
        return;
      }
      for i := 0 to n - 1
        invariant open == old(open)
        invariant labelsFlipped == labelsToPlot[1..i + 1]
        invariant |comboItems| == i + 1 && comboItems[0] == SelectChannel
        invariant forall k :: 1 <= k <= i ==> comboItems[k] == labelsToPlot[n - k]
      {
        labelsFlipped := labelsFlipped + [labelsToPlot[i + 1]];
        comboItems := comboItems + [labelsToPlot[n - 1 - i]];
      }
      var listed := [SelectChannel] + Reverse(labelsFlipped);
      assert |listed| == |comboItems|;
      assert forall k :: 1 <= k < n ==> listed[k] == labelsFlipped[n - 1 - k] == labelsToPlot[n - k];
      assert comboItems == listed;
      current := RowOf(data.chnPlotted, n);
    }

    /** clear_spec: "<select channel>" is chosen and no channel is shown. */
    method ClearSpec()
      modifies this`current, data`chnPlotted
      ensures current == 0 && data.chnPlotted == -1
    {
      current := 0;
      data.chnPlotted := -1;
    }

    /** check, given the number of plotted channels: a chosen channel row r
        becomes the channel shown (plotted row nchns - r, labelled by the
        label listed at r) and turns the spectrogram on; "<select channel>"
        turns a shown spectrogram off. The axis range is taken when the
        maximum exceeds the minimum, and the window closes then or when no
        spectrogram is shown; with a spectrogram shown and a bad range it
        stays open. False where no row is chosen, since the label lookup
        raises (after the row was recorded). */
    method Check(nchns: int) returns (ok: bool)
      requires comboItems == [SelectChannel] + Reverse(labelsFlipped) && -1 <= current < |comboItems|
      modifies data`plotSpec, data`chnPlotted, data`chnName, data`minFs, data`maxFs, this`open
      ensures ok <==> current != -1
      ensures current != 0 ==> data.chnPlotted == nchns - current
      ensures !ok ==>
        && data.plotSpec == old(data.plotSpec) && data.chnName == old(data.chnName)
        && data.minFs == old(data.minFs) && data.maxFs == old(data.maxFs) && open == old(open)
      ensures ok && current != 0 ==> data.plotSpec && data.chnName == comboItems[current]
      ensures ok && current == 0 ==>
        && !data.plotSpec && data.chnName == old(data.chnName)
        && data.chnPlotted == (if old(data.plotSpec) then -1 else old(data.chnPlotted))
      ensures ok && maxFsInput > minFsInput ==> data.minFs == minFsInput && data.maxFs == maxFsInput && !open
      ensures ok && maxFsInput <= minFsInput ==>
        && data.minFs == old(data.minFs) && data.maxFs == old(data.maxFs)
        && open == (old(open) && data.plotSpec)
    {
      var row := current;
      if row != 0 {
        data.chnPlotted := nchns - row;
        if row == -1 {
          return false;
        }
        data.chnName := labelsFlipped[|labelsFlipped| - row];
        ListedLabel(labelsFlipped, row);
        if !data.plotSpec {
          data.plotSpec := true;
        }
      } else if data.plotSpec {
        data.plotSpec := false;
        data.chnPlotted := -1;
      }
      if maxFsInput > minFsInput {
        data.maxFs := maxFsInput;
        data.minFs := minFsInput;
        open := false;
      } else if !data.plotSpec {
        open := false;
      }
      ok := true;
    }
  }

  /** The combo box row populate_chn_list chooses for the channel shown among
      n plotted labels: none chosen is row 0, a channel c is row n - c - 1,
      and a row outside the list leaves none chosen. */
  function RowOf(chnPlotted: int, n: nat): (r: int)
    requires n >= 1
    ensures -1 <= r < n
    ensures 0 <= chnPlotted < n - 1 ==> 1 <= r && n - 1 - r == chnPlotted
  {
    if chnPlotted == -1 then 0
    else if 0 <= n - chnPlotted - 1 < n then n - chnPlotted - 1
    else -1
  }

  /** Row r of the list (below "<select channel>") shows the label check
      records for it. */
  lemma ListedLabel(flipped: seq<string>, r: int)
    requires 1 <= r <= |flipped|
    ensures ([SelectChannel] + Reverse(flipped))[r] == flipped[|flipped| - r]
  {
  }

  /** The channel check records for row r of a list filled from n plotted
      labels is the plotted row whose label is listed there, and filling the
      list again chooses row r once more. */
  lemma ChosenRowRoundTrip(labelsToPlot: seq<string>, r: int)
    requires 1 <= r < |labelsToPlot|
    ensures var nchns := |labelsToPlot| - 1;
      && 0 <= nchns - r < nchns
      && labelsToPlot[nchns - r + 1] == ([SelectChannel] + Reverse(labelsToPlot[1..]))[r]
      && RowOf(nchns - r, |labelsToPlot|) == r
  {
  }
}
