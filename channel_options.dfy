/** The channel-selection window: reading a montage text file and checking its
    lines against the recording's channels, the limits on the number of
    selected channels, selecting and deselecting channels, and the montage the
    checkboxes choose. */
module ChannelOptions {
  import opened Common
  import opened LabelLookup
  import Channels
  import EdfLoading
  import PredictionStore

  // ---------------------------------------------------------------------------
  // Montage text files

  /** A line of a text file up to its first line end. */
  function CutLine(line: string): (r: string)
    ensures '\n' !in r
    ensures |r| <= |line|
  {
    if |line| == 0 || line[0] == '\n' then "" else [line[0]] + CutLine(line[1..])
  }

  /** The cut is the prefix before the first line end, the whole line when
      it has none. */
  lemma {:induction false} CutLinePrefix(line: string, k: nat)
    requires k <= |line| && (k == |line| || line[k] == '\n')
    requires forall i :: 0 <= i < k ==> line[i] != '\n'
    ensures CutLine(line) == line[..k]
  {
    if |line| > 0 && line[0] != '\n' {
      CutLinePrefix(line[1..], k - 1);
    }
  }

  /** The lines _check_chns keeps: each cut at its line end, the empty ones
      dropped, in file order. */
  function TxtLines(text: seq<string>): (r: seq<string>)
    ensures |r| <= |text|
    ensures forall i :: 0 <= i < |r| ==> r[i] != "" && '\n' !in r[i]
  {
    if |text| == 0 then []
    else
      var c := CutLine(text[|text| - 1]);
      TxtLines(text[..|text| - 1]) + (if c == "" then [] else [c])
  }

  /** A string is kept exactly when it is the non-empty cut of some line. */
  lemma {:induction false} TxtLinesMembers(text: seq<string>)
    ensures forall x :: x in TxtLines(text) <==> x != "" && exists i :: 0 <= i < |text| && CutLine(text[i]) == x
  {
    if |text| > 0 {
      var init := text[..|text| - 1];
      TxtLinesMembers(init);
      forall x | x != "" && (exists i :: 0 <= i < |text| && CutLine(text[i]) == x)
        ensures x in TxtLines(text)
      {
        var i :| 0 <= i < |text| && CutLine(text[i]) == x;
        if i < |init| {
          assert init[i] == text[i];
        }
      }
      forall x | x in TxtLines(init)
        ensures exists i :: 0 <= i < |text| && CutLine(text[i]) == x
      {
        var i :| 0 <= i < |init| && CutLine(init[i]) == x;
        assert text[i] == init[i];
      }
    }
  }

  /** A file whose lines are already cut and non-empty is kept as it is. */
  lemma {:induction false} TxtLinesOfCleanText(text: seq<string>)
    requires forall i :: 0 <= i < |text| ==> text[i] != "" && '\n' !in text[i]
    ensures TxtLines(text) == text
  {
    if |text| > 0 {
      var last := text[|text| - 1];
      TxtLinesOfCleanText(text[..|text| - 1]);
      CutLinePrefix(last, |last|);
      assert last[..|last|] == last;
    }
  }

  /** The read loop of _check_chns: each line cut at its first line end, and
      popped when that leaves it empty. */
  method CleanLines(text: seq<string>) returns (lines: seq<string>)
    ensures lines == TxtLines(text)
  {
    lines := text;
    var l := 0;
    ghost var j, kept := 0, [];
    while l < |lines|
      invariant 0 <= j <= |text| && kept == TxtLines(text[..j])
      invariant lines == kept + text[j..] && l == |kept|
      decreases |lines| - l
    {
      ReadStep(text, j);
      var cut := CutAtLineEnd(lines[l]);
      lines := lines[l := cut];
      if |lines[l]| == 0 {
        lines := lines[..l] + lines[l + 1..];
      } else {
        l := l + 1;
      }
      j, kept := j + 1, TxtLines(text[..j + 1]);
    }
    assert j == |text| && text[..j] == text;
  }

  /** One pass of the read loop keeps its invariant: with the lines read so
      far kept and the others untouched, cutting the next line and popping it
      when empty keeps one more line read. */
  lemma ReadStep(text: seq<string>, j: nat)
    requires j < |text|
    ensures var kept, cut := TxtLines(text[..j]), CutLine(text[j]);
      var lines, l := kept + text[j..], |kept|;
      && l < |lines| && lines[l] == text[j]
      && lines[l := cut][l] == cut
      && (cut == "" ==>
            lines[l := cut][..l] + lines[l := cut][l + 1..] == TxtLines(text[..j + 1]) + text[j + 1..]
            && l == |TxtLines(text[..j + 1])|)
      && (cut != "" ==>
            lines[l := cut] == TxtLines(text[..j + 1]) + text[j + 1..]
            && l + 1 == |TxtLines(text[..j + 1])|)
  {
    var kept, x, rest := TxtLines(text[..j]), text[j], text[j + 1..];
    assert text[j..] == [x] + rest;
    Middle(kept, x, rest);
    Middle(kept, CutLine(x), rest);
    TxtLinesStep(text, j);
  }

  /** Replacing or dropping the element after a prefix. */
  lemma Middle<T>(a: seq<T>, x: T, b: seq<T>)
    ensures (a + [x] + b)[|a|] == x
    ensures forall y :: (a + [x] + b)[|a| := y] == a + [y] + b
    ensures (a + [x] + b)[..|a|] + (a + [x] + b)[|a| + 1..] == a + b
  {
    assert (a + [x] + b)[..|a|] == a;
    assert (a + [x] + b)[|a| + 1..] == b;
    forall y
      ensures (a + [x] + b)[|a| := y] == a + [y] + b
    {
      assert forall i :: 0 <= i < |a| + 1 + |b| ==> (a + [x] + b)[|a| := y][i] == (a + [y] + b)[i];
    }
  }

  /** Reading one more line extends the kept lines by its cut, if not empty. */
  lemma TxtLinesStep(text: seq<string>, j: nat)
    requires j < |text|
    ensures var c := CutLine(text[j]);
      TxtLines(text[..j + 1]) == TxtLines(text[..j]) + (if c == "" then [] else [c])
      && text[j..] == [text[j]] + text[j + 1..]
  {
    assert text[..j + 1][..j] == text[..j];
  }

  /** One step of the read loop: the line up to its first line end, found
      with find. */
  method CutAtLineEnd(line: string) returns (r: string)
    ensures r == CutLine(line)
  {
    r := line;
    var loc := Find(line, "\n");
    FindChar(line, '\n');
    var k := if loc != -1 then loc else |line|;
    forall i | 0 <= i < k
      ensures line[i] != '\n'
    {
      assert !OccursAt(line, "\n", i);
      assert line[i..i + 1] == [line[i]];
    }
    if loc != -1 {
      assert line[loc..loc + 1] == "\n";
      r := line[..loc];
    }
    CutLinePrefix(line, k);
  }

  /** A line as it is stored: unchanged when it is a converted channel name,
      else converted (convert stands for convert_txt_chn_names). */
  function Canonical(line: string, names: seq<string>, convert: string -> string): (r: string)
    ensures line in names ==> r == line
    ensures line !in names ==> r == convert(line)
  {
    if line in names then line else convert(line)
  }

  /** The labels _check_chns stores for a file: its lines last to first, each
      made canonical. */
  function StoredLabels(lines: seq<string>, names: seq<string>, convert: string -> string): (r: seq<string>)
    ensures |r| == |lines|
    ensures forall i :: 0 <= i < |lines| ==> r[|lines| - 1 - i] == Canonical(lines[i], names, convert)
  {
    if |lines| == 0 then []
    else [Canonical(lines[|lines| - 1], names, convert)] + StoredLabels(lines[..|lines| - 1], names, convert)
  }

  /** A file listing converted channel names only is stored reversed, and
      reversing the stored labels gives back the file's lines. */
  lemma StoredNamesReversed(lines: seq<string>, names: seq<string>, convert: string -> string)
    requires forall i :: 0 <= i < |lines| ==> lines[i] in names
    ensures StoredLabels(lines, names, convert) == Reverse(lines)
    ensures Reverse(StoredLabels(lines, names, convert)) == lines
  {
    var r := StoredLabels(lines, names, convert);
    forall i | 0 <= i < |lines|
      ensures r[i] == lines[|lines| - 1 - i]
    {
      assert r[|lines| - 1 - (|lines| - 1 - i)] == Canonical(lines[|lines| - 1 - i], names, convert);
    }
  }

  /** Every line names a channel: a converted channel name or a label of the
      recording's label dict. */
  predicate Matches(lines: seq<string>, names: seq<string>, d: Dict)
  {
    forall i :: 0 <= i < |lines| ==> lines[i] in names || HasKey(d, lines[i])
  }

  /** The name a text file is listed under: the part of the path after the
      last "/", cut to 15 characters followed by "..." when longer. */
  function ShortName(path: string): (r: string)
    ensures |r| <= 18
    ensures var base := Split(path, '/')[|Split(path, '/')| - 1];
      |base| > 15 ==> |r| == 18
    ensures var base := Split(path, '/')[|Split(path, '/')| - 1];
      (|base| <= 15 ==> r == base) && (|base| > 15 ==> r[..15] == base[..15] && r[15..] == "...")
  {
    var base := Split(path, '/')[|Split(path, '/')| - 1];
    if |base| > 15 then base[..15] + "..." else base
  }

  /** Two file names without a directory that share their first 15
      characters get the same short name, so the second of them cannot be
      loaded. */
  lemma ShortNamesCollide(a: string, b: string)
    requires '/' !in a && '/' !in b
    requires |a| > 15 && |b| > 15 && a[..15] == b[..15]
    ensures ShortName(a) == ShortName(b)
  {
    SplitNoSep(a, '/');
    SplitNoSep(b, '/');
  }

  /** What load_txt_file did with a file. */
  datatype TxtLoad = NoFile | DuplicateName | Mismatch | Added

  // ---------------------------------------------------------------------------
  // Selection

  /** The number of selected list items. */
  function NumSelected(selected: seq<bool>): (r: nat)
    ensures r <= |selected|
  {
    if |selected| == 0 then 0
    else NumSelected(selected[..|selected| - 1]) + (if selected[|selected| - 1] then 1 else 0)
  }

  /** The channel indices check collects: labels2chns of the label of each
      selected item, in list order. */
  function SelectedChannels(selected: seq<bool>, c2l: seq<string>, d: Dict): (r: seq<int>)
    requires |selected| <= |c2l|
    ensures |r| == NumSelected(selected)
  {
    if |selected| == 0 then []
    else
      var n := |selected| - 1;
      SelectedChannels(selected[..n], c2l, d) + (if selected[n] then [Get(d, c2l[n])] else [])
  }

  /** The positions of the selected items, in list order. */
  function SelectedPositions(selected: seq<bool>): (r: seq<int>)
    ensures |r| == NumSelected(selected)
    ensures forall i :: 0 <= i < |r| ==> 0 <= r[i] < |selected| && selected[r[i]]
  {
    if |selected| == 0 then []
    else
      var n := |selected| - 1;
      SelectedPositions(selected[..n]) + (if selected[n] then [n] else [])
  }

  /** When the channel labels are distinct and the label dict is their index,
      the channels check collects are exactly the positions of the selected
      items. */
  lemma {:induction false} SelectedAreSelectedPositions(selected: seq<bool>, c2l: seq<string>)
    requires |selected| <= |c2l|
    requires EdfLoading.Distinct(c2l)
    ensures SelectedChannels(selected, c2l, EdfLoading.LabelIndex(c2l)) == SelectedPositions(selected)
  {
    if |selected| > 0 {
      var n := |selected| - 1;
      SelectedAreSelectedPositions(selected[..n], c2l);
      EdfLoading.IndexInvertsList(c2l);
    }
  }

  class ChannelOptions {
    /** The channel info being loaded. */
    const data: Channels.ChannelInfo
    /** Whether each channel's list item is selected. */
    var selected: seq<bool>
    /** Which standard montages the recording supports (can_do_bip_ar). */
    const ar1020: bool
    const bip1020: bool
    const ar1010: bool
    /** Whether each montage checkbox is checked; a box the window does not
        show is never consulted. */
    var cboxAr: bool
    var cboxBip: bool
    var cboxAr1010: bool
    /** The text-file checkboxes in window order: name and checked state. */
    var txtBoxes: seq<(string, bool)>

    /** The window over data with nothing selected or checked, one unchecked
        box per text file loaded earlier. */
    constructor (data: Channels.ChannelInfo, nItems: nat, ar1020: bool, bip1020: bool, ar1010: bool, loaded: seq<string>)
      ensures this.data == data && this.ar1020 == ar1020 && this.bip1020 == bip1020 && this.ar1010 == ar1010
      ensures selected == seq(nItems, _ => false)
      ensures !cboxAr && !cboxBip && !cboxAr1010
      ensures txtBoxes == seq(|loaded|, i requires 0 <= i < |loaded| => (loaded[i], false))
    {
      this.data, this.ar1020, this.bip1020, this.ar1010 := data, ar1020, bip1020, ar1010;
      selected := seq(nItems, _ => false);
      cboxAr, cboxBip, cboxAr1010 := false, false, false;
      txtBoxes := seq(|loaded|, i requires 0 <= i < |loaded| => (loaded[i], false));
    }

    /** _check_chns over the lines of a file: 1 when every kept line names a
        channel, and then the file's labels are stored under its short name;
        0 otherwise, storing nothing. */
    method CheckChns(text: seq<string>, short: string) returns (ret: int)
      modifies data`labelsFromTxtFile
      ensures var lines := TxtLines(text);
        && (ret == 0 || ret == 1)
        && (ret == 1 <==> Matches(lines, data.convertedChnNames, data.labels2chns))
        && (ret == 0 ==> data.labelsFromTxtFile == old(data.labelsFromTxtFile))
        && (ret == 1 ==>
              data.labelsFromTxtFile == old(data.labelsFromTxtFile)[short := StoredLabels(lines, data.convertedChnNames, Channels.ConvertTxtChnName)])
    {
      var lines := CleanLines(text);
      var names, d := data.convertedChnNames, data.labels2chns;
      ret := 1;
      for i := 0 to |lines|
        invariant ret == 0 || ret == 1
        invariant ret == 1 <==> Matches(lines[..i], names, d)
      {
        assert forall k :: 0 <= k < i ==> lines[..i + 1][k] == lines[..i][k];
        if lines[i] !in names && !HasKey(d, lines[i]) {
          ret := 0;
        }
      }
      assert lines[..|lines|] == lines;
      if ret == 1 {
        var stored := StoreLines(lines, names, Channels.ConvertTxtChnName);
        data.labelsFromTxtFile := data.labelsFromTxtFile[short := stored];
      }
    }

    /** load_txt_file: a file without a name is ignored, a file whose short
        name is already loaded is refused, and any other file is checked and,
        when it matches, added as a checked box. Files loaded earlier keep
        their labels. */
    method LoadTxtFile(path: string, text: seq<string>) returns (r: TxtLoad)
      requires forall k :: 0 <= k < |txtBoxes| ==> txtBoxes[k].0 in data.labelsFromTxtFile
      requires |data.convertedChnNames| <= |selected|
      modifies data`labelsFromTxtFile, this`txtBoxes, this`selected, this`cboxAr, this`cboxBip, this`cboxAr1010
      modifies data`useLoadedTxtFile
      ensures var short := ShortName(path);
        && (|path| == 0 <==> r == NoFile)
        && (r == DuplicateName <==> |path| > 0 && short in old(data.labelsFromTxtFile))
        && (r == Added ==>
              && short !in old(data.labelsFromTxtFile)
              && data.labelsFromTxtFile == old(data.labelsFromTxtFile)[short := StoredLabels(TxtLines(text), data.convertedChnNames, Channels.ConvertTxtChnName)]
              && |txtBoxes| == |old(txtBoxes)| + 1 && txtBoxes[|old(txtBoxes)|] == (short, true)
              && (forall k :: 0 <= k < |old(txtBoxes)| ==>
                    txtBoxes[k] == (old(txtBoxes)[k].0, old(txtBoxes)[k].1 && old(txtBoxes)[k].0 == short))
              && data.useLoadedTxtFile
              && |selected| == |old(selected)|
              && (forall k :: 0 <= k < |data.convertedChnNames| ==>
                    selected[k] == (Channels.Selection(data.convertedChnNames, data.labelsFromTxtFile[short])[k] != 0))
              && (forall k :: |data.convertedChnNames| <= k < |selected| ==> selected[k] == old(selected)[k]))
        && (r == Mismatch <==>
              && |path| > 0 && short !in old(data.labelsFromTxtFile)
              && !Matches(TxtLines(text), data.convertedChnNames, data.labels2chns))
        && (r != Added ==>
              && data.labelsFromTxtFile == old(data.labelsFromTxtFile) && txtBoxes == old(txtBoxes)
              && selected == old(selected) && data.useLoadedTxtFile == old(data.useLoadedTxtFile)
              && cboxAr == old(cboxAr) && cboxBip == old(cboxBip) && cboxAr1010 == old(cboxAr1010))
    {
      if |path| == 0 {
        return NoFile;
      }
      var short := ShortName(path);
      if short in data.labelsFromTxtFile {
        return DuplicateName;
      }
      var ok := CheckChns(text, short);
      if ok == 1 {
        // setChecked(1) on the new box runs txt_file_checked before the box
        // joins the list
        TxtFileChecked(short, true);
        txtBoxes := txtBoxes + [(short, true)];
        r := Added;
      } else {
        r := Mismatch;
      }
    }

    /** txt_file_checked for the box of the file name: checking it unchecks the
        montage boxes the window shows, unchecks every other text box (each
        of which, when it was checked, re-enters this handler and deselects
        its file's channels), selects exactly the file's channels and marks
        the text-file montage in use; unchecking it deselects the file's
        channels and clears the mark. Either way only the items get_chns
        covers change. */
    method TxtFileChecked(name: string, checked: bool)
      requires name in data.labelsFromTxtFile
      requires forall k :: 0 <= k < |txtBoxes| ==> txtBoxes[k].0 in data.labelsFromTxtFile
      requires |data.convertedChnNames| <= |selected|
      modifies this`selected, this`cboxAr, this`cboxBip, this`cboxAr1010, this`txtBoxes, data`useLoadedTxtFile
      ensures var flags, n := Channels.Selection(data.convertedChnNames, data.labelsFromTxtFile[name]), |data.convertedChnNames|;
        && |selected| == |old(selected)|
        && (forall k :: n <= k < |selected| ==> selected[k] == old(selected)[k])
        && (checked ==> forall k :: 0 <= k < n ==> selected[k] == (flags[k] != 0))
        && (!checked ==> forall k :: 0 <= k < n ==> selected[k] == (old(selected)[k] && flags[k] == 0))
      ensures data.useLoadedTxtFile == checked
      ensures checked ==>
        && cboxAr == (old(cboxAr) && !ar1020)
        && cboxBip == (old(cboxBip) && !ar1020 && !bip1020)
        && cboxAr1010 == (old(cboxAr1010) && !(ar1020 && ar1010))
        && |txtBoxes| == |old(txtBoxes)|
        && forall k :: 0 <= k < |txtBoxes| ==>
             txtBoxes[k] == (old(txtBoxes)[k].0, old(txtBoxes)[k].1 && old(txtBoxes)[k].0 == name)
      ensures !checked ==>
        cboxAr == old(cboxAr) && cboxBip == old(cboxBip) && cboxAr1010 == old(cboxAr1010) && txtBoxes == old(txtBoxes)
    {
      var chns := data.GetChns(data.labelsFromTxtFile[name]);
      if !checked {
        SelectChns(chns, true);
        data.useLoadedTxtFile := false;
        return;
      }
      if ar1020 {
        cboxAr, cboxBip := false, false;
        if ar1010 {
          cboxAr1010 := false;
        }
      }
      if bip1020 {
        cboxBip := false;
      }
      UncheckOtherFiles(name);
      SelectChns(chns, false);
      data.useLoadedTxtFile := true;
    }

    /** The loop of txt_file_checked over the text boxes: every box of another
        name is unchecked, and each that was checked re-enters
        txt_file_checked, unchecked, deselecting its file's channels; items
        past the get_chns flags are untouched. */
    method UncheckOtherFiles(name: string)
      requires forall k :: 0 <= k < |txtBoxes| ==> txtBoxes[k].0 in data.labelsFromTxtFile
      requires |data.convertedChnNames| <= |selected|
      modifies this`selected, this`txtBoxes, data`useLoadedTxtFile
      ensures |selected| == |old(selected)|
      ensures forall m :: |data.convertedChnNames| <= m < |selected| ==> selected[m] == old(selected)[m]
      ensures |txtBoxes| == |old(txtBoxes)|
      ensures forall m :: 0 <= m < |txtBoxes| ==>
        txtBoxes[m] == (old(txtBoxes)[m].0, old(txtBoxes)[m].1 && old(txtBoxes)[m].0 == name)
    {
      var n := |data.convertedChnNames|;
      ghost var before, boxes := selected, txtBoxes;
      for k := 0 to |txtBoxes|
        invariant |selected| == |before| && |txtBoxes| == |boxes|
        invariant forall m :: n <= m < |selected| ==> selected[m] == before[m]
        invariant forall m :: 0 <= m < |txtBoxes| ==>
          txtBoxes[m] == (boxes[m].0, boxes[m].1 && (m >= k || boxes[m].0 == name))
      {
        if txtBoxes[k].0 != name && txtBoxes[k].1 {
          txtBoxes := txtBoxes[k := (txtBoxes[k].0, false)];
          // the toggled box re-enters txt_file_checked, unchecked
          var other := data.GetChns(data.labelsFromTxtFile[txtBoxes[k].0]);
          SelectChns(other, true);
          data.useLoadedTxtFile := false;
        }
      }
    }

    /** _select_chns: with deselectOnly the flagged items are deselected and
        the others keep their state; otherwise each item the flags cover is
        selected exactly when flagged. Items past the flags are untouched. */
    method SelectChns(chns: seq<int>, deselectOnly: bool)
      requires |chns| <= |selected|
      modifies this`selected
      ensures |selected| == |old(selected)|
      ensures forall k :: 0 <= k < |chns| ==>
        selected[k] == if deselectOnly then old(selected)[k] && chns[k] == 0 else chns[k] != 0
      ensures forall k :: |chns| <= k < |selected| ==> selected[k] == old(selected)[k]
    {
      ghost var before := selected;
      for k := 0 to |chns|
        invariant |selected| == |before|
        invariant forall m :: 0 <= m < k ==>
          selected[m] == if deselectOnly then before[m] && chns[m] == 0 else chns[m] != 0
        invariant forall m :: k <= m < |selected| ==> selected[m] == before[m]
      {
        if deselectOnly {
          if chns[k] != 0 {
            selected := selected[k := false];
          }
        } else {
          selected := selected[k := chns[k] != 0];
        }
      }
    }

    /** The selection part of check: the channels of the selected items, and
        -1 when none or more than maxChannels are selected, 0 otherwise. */
    method Check(maxChannels: int) returns (ret: int, idxs: seq<int>)
      requires |selected| <= |data.chns2labels|
      requires forall k :: 0 <= k < |selected| ==> HasKey(data.labels2chns, data.chns2labels[k])
      ensures idxs == SelectedChannels(selected, data.chns2labels, data.labels2chns)
      ensures ret == -1 || ret == 0
      ensures ret == -1 <==> NumSelected(selected) == 0 || NumSelected(selected) > maxChannels
    {
      var c2l, d := data.chns2labels, data.labels2chns;
      idxs := [];
      for k := 0 to |selected|
        invariant idxs == SelectedChannels(selected[..k], c2l, d)
      {
        assert selected[..k + 1][..k] == selected[..k];
        if selected[k] {
          idxs := idxs + [Get(d, c2l[k])];
        }
      }
      assert selected[..|selected|] == selected;
      if |idxs| > maxChannels {
        return -1, idxs;
      }
      if |idxs| == 0 {
        return -1, idxs;
      }
      ret := 0;
    }

    /** _get_mont_type: average reference 10-20 (0) before bipolar (1) before
        average reference 10-10 (2) before a text file (4, named by the last
        checked box), else 5. */
    method GetMontType() returns (montType: int, txtFileName: string)
      ensures ar1020 && cboxAr ==> montType == 0 && txtFileName == ""
      ensures !(ar1020 && cboxAr) && (ar1020 || bip1020) && cboxBip ==> montType == 1 && txtFileName == ""
      ensures !(ar1020 && cboxAr) && !((ar1020 || bip1020) && cboxBip) && ar1010 && cboxAr1010 ==>
        montType == 2 && txtFileName == ""
      ensures montType == 4 <==>
        !(ar1020 && cboxAr) && !((ar1020 || bip1020) && cboxBip) && !(ar1010 && cboxAr1010)
        && exists k :: 0 <= k < |txtBoxes| && txtBoxes[k].1
      ensures montType == 4 ==>
        exists k :: 0 <= k < |txtBoxes| && txtBoxes[k].1 && txtBoxes[k].0 == txtFileName && forall m :: k < m < |txtBoxes| ==> !txtBoxes[m].1
      ensures montType == 5 ==> txtFileName == ""
      ensures montType in {0, 1, 2, 4, 5}
    {
      montType, txtFileName := 5, "";
      if ar1020 && cboxAr {
        montType := 0;
      } else if (ar1020 || bip1020) && cboxBip {
        montType := 1;
      } else if ar1010 && cboxAr1010 {
        montType := 2;
      } else {
        var boxes := txtBoxes;
        for k := 0 to |boxes|
          invariant montType == 4 || montType == 5
          invariant montType == 4 <==> exists m :: 0 <= m < k && boxes[m].1
          invariant montType == 4 ==>
            exists m :: 0 <= m < k && boxes[m].1 && boxes[m].0 == txtFileName && forall m' :: m < m' < k ==> !boxes[m'].1
          invariant montType == 5 ==> txtFileName == ""
        {
          if boxes[k].1 {
            txtFileName := boxes[k].0;
            montType := 4;
          }
        }
      }
    }

    /** The labels stored for a file are a function of its text alone: the
        lines are canonical and reversed. */
    method StoreLines(lines: seq<string>, names: seq<string>, convert: string -> string) returns (stored: seq<string>)
      ensures stored == StoredLabels(lines, names, convert)
    {
      stored := [];
      var n := |lines|;
      for i := 0 to n
        invariant |stored| == i
        invariant forall k :: 0 <= k < i ==> stored[k] == Canonical(lines[n - 1 - k], names, convert)
      {
        var line := lines[n - 1 - i];
        if line !in names {
          line := convert(line);
        }
        stored := stored + [line];
      }
      ghost var r := StoredLabels(lines, names, convert);
      forall k | 0 <= k < n
        ensures stored[k] == r[k]
      {
        assert r[n - 1 - (n - 1 - k)] == Canonical(lines[n - 1 - k], names, convert);
      }
    }
  }

  /** check_multi_chn_preds: the predicted flag is cleared when per-channel
      predictions have a different channel count from the channels to plot,
      and kept otherwise; it is never set. */
  method CheckMultiChnPreds(pi: PredictionStore.PredictionInfo, nchnsToPlot: nat, predicted: bool)
    returns (r: bool)
    requires pi.predByChn && predicted ==> |pi.predsToPlot.shape| >= 2
    ensures r ==> predicted
    ensures r ==> !pi.predByChn || nchnsToPlot == pi.predsToPlot.shape[1]
    ensures predicted && (!pi.predByChn || nchnsToPlot == pi.predsToPlot.shape[1]) ==> r
  {
    r := predicted;
    if pi.predByChn && predicted {
      if nchnsToPlot != pi.predsToPlot.shape[1] {
        r := false;
      }
    }
  }
}
