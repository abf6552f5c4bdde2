/** Reading an EDF recording's header and signals into the viewer's channel
    layout. With a label list the channels are the list's labels in order and a
    file signal is loaded into the channel its label checks to; without one
    every file signal becomes a channel, named by its upper-cased label. The
    file itself is read by an EDF library outside this model: its labels,
    sample counts, sampling rates, duration and signals are given as an
    EdfFile value. */
module EdfLoading {
  import opened Common
  import opened LabelLookup

  type Signal = seq<real>

  // ---------------------------------------------------------------------------
  // Label check

  /** label[4:] up to its first hyphen, upper-cased: the retry of _check_label.
      It is upper case and holds no hyphen. */
  function Retry(name: string): (r: string)
    ensures IsUpper(r) && '-' !in r
  {
    var part := Split(PySliceFrom(name, 4), '-')[0];
    SplitPartsFree(PySliceFrom(name, 4), '-');
    UpperIsIdempotent(part);
    assert forall i :: 0 <= i < |part| ==> ToUpper(part)[i] != '-';
    ToUpper(part)
  }

  /** The retry of a label "xxxxE-R" whose first four characters are a
      prefix such as "EEG " is its electrode E upper-cased, and so is the
      retry of "xxxxE". */
  lemma RetryElectrode(prefix: string, e: string, rest: string)
    requires |prefix| == 4 && '-' !in e
    ensures Retry(prefix + e + "-" + rest) == ToUpper(e)
    ensures Retry(prefix + e) == ToUpper(e)
  {
    assert PySliceFrom(prefix + e + "-" + rest, 4) == e + ['-'] + rest;
    SplitAfterPart(e, rest, '-');
    assert PySliceFrom(prefix + e, 4) == e;
    SplitNoSep(e, '-');
  }

  /** _check_label: the upper-cased label when the list holds it, else the
      retry when the list holds that, else None (the source's False). */
  function CheckLabel(name: string, list: seq<string>): (r: Option<string>)
    ensures r.Some? ==> r.value in list && IsUpper(r.value)
    ensures r.Some? <==> ToUpper(name) in list || Retry(name) in list
    ensures ToUpper(name) in list ==> r == Some(ToUpper(name))
    ensures ToUpper(name) !in list && Retry(name) in list ==> r == Some(Retry(name))
  {
    UpperIsIdempotent(name);
    UpperIsIdempotent(Split(PySliceFrom(name, 4), '-')[0]);
    UpperIsIdempotent(Retry(name));
    var l := if ToUpper(name) !in list then Retry(name) else name;
    if ToUpper(l) in list then Some(ToUpper(l)) else None
  }

  /** The label list of the loader's own test. */
  const TestList: seq<string> := ["FP1-F7", "F7-T7", "T7-P7", "P7-O1", "FP2"]

  /** Short labels that miss: neither "ABC" nor "FP1" (only the first
      electrode of listed labels) is listed, and their retries are empty. */
  lemma CheckLabelMissesShort()
    ensures CheckLabel("abc", TestList) == None
    ensures CheckLabel("fp1", TestList) == None
  {
    assert ToUpper("abc") == "ABC";
    assert PySliceFrom("abc", 4) == "";
    assert ToUpper("fp1") == "FP1";
    assert PySliceFrom("fp1", 4) == "";
  }

  /** Listed labels are found upper-cased: "fp2" as "FP2", "F7-T7" as it is. */
  lemma CheckLabelFinds()
    ensures CheckLabel("fp2", TestList) == Some("FP2")
    ensures CheckLabel("F7-T7", TestList) == Some("F7-T7")
  {
    assert ToUpper("fp2") == "FP2";
    assert ToUpper("F7-T7") == "F7-T7";
  }

  /** "fp2-f4" misses: its retry is "F4", which is not listed. */
  lemma CheckLabelMissesFp2F4()
    ensures CheckLabel("fp2-f4", TestList) == None
  {
    assert ToUpper("fp2-f4") == "FP2-F4";
    assert PySliceFrom("fp2-f4", 4) == "f4";
    SplitNoSep("f4", '-');
    assert ToUpper("f4") == "F4";
  }

  /** The label a file signal is loaded under: a checked label that is not
      empty (an empty match is falsy in the source and skipped). */
  function Checked(name: string, list: seq<string>): (r: Option<string>)
    ensures r.Some? ==> r.value in list && r.value != ""
    ensures r.Some? <==> CheckLabel(name, list).Some? && CheckLabel(name, list).value != ""
  {
    match CheckLabel(name, list)
    case Some(s) => if s != "" then Some(s) else None
    case None => None
  }

  // ---------------------------------------------------------------------------
  // Label maps

  /** The index of the last occurrence of k in list, or -1. */
  function LastIndex(list: seq<string>, k: string): (r: int)
    ensures -1 <= r < |list|
    ensures r == -1 <==> k !in list
    ensures r >= 0 ==> list[r] == k && forall j :: r < j < |list| ==> list[j] != k
  {
    if |list| == 0 then -1
    else if list[|list| - 1] == k then |list| - 1
    else
      var r := LastIndex(list[..|list| - 1], k);
      assert forall j :: 0 <= j < |list| - 1 ==> list[..|list| - 1][j] == list[j];
      r
  }

  /** {label: i for i, label in enumerate(list)} in insertion order. */
  function LabelIndex(list: seq<string>): Dict
  {
    if |list| == 0 then []
    else Put(LabelIndex(list[..|list| - 1]), list[|list| - 1], |list| - 1)
  }

  /** Looking a label up in the index finds its last position in the list, and
      -1 for a label the list does not hold. */
  lemma {:induction false} GetLabelIndex(list: seq<string>, k: string)
    ensures Get(LabelIndex(list), k) == LastIndex(list, k)
    decreases |list|
  {
    if |list| > 0 {
      var init := list[..|list| - 1];
      GetLabelIndex(init, k);
      GetPut(LabelIndex(init), list[|list| - 1], |list| - 1, k);
    }
  }

  predicate Distinct(list: seq<string>)
  {
    forall i, j :: 0 <= i < j < |list| ==> list[i] != list[j]
  }

  /** With distinct labels the index and the list are inverse maps over
      0..|list|-1: each position maps back to itself, and each listed label to
      a position holding it. */
  lemma IndexInvertsList(list: seq<string>)
    requires Distinct(list)
    ensures forall c :: 0 <= c < |list| ==> Get(LabelIndex(list), list[c]) == c
    ensures forall k :: k in list ==> 0 <= Get(LabelIndex(list), k) < |list| && list[Get(LabelIndex(list), k)] == k
  {
    forall c | 0 <= c < |list|
      ensures Get(LabelIndex(list), list[c]) == c
    {
      GetLabelIndex(list, list[c]);
    }
    forall k | k in list
      ensures 0 <= Get(LabelIndex(list), k) < |list| && list[Get(LabelIndex(list), k)] == k
    {
      GetLabelIndex(list, k);
    }
  }

  /** label.upper() of every label. */
  function UpperAll(labels: seq<string>): (r: seq<string>)
    ensures |r| == |labels| && forall e :: 0 <= e < |labels| ==> r[e] == ToUpper(labels[e])
  {
    seq(|labels|, e requires 0 <= e < |labels| => ToUpper(labels[e]))
  }

  // ---------------------------------------------------------------------------
  // Placing file signals into channels

  /** The last of the first n file signals placed in channel c, or -1 when
      none of them is. */
  function LastSource(targets: seq<int>, n: nat, c: int): (r: int)
    requires n <= |targets|
    ensures -1 <= r < n
  {
    if n == 0 then -1
    else if targets[n - 1] == c then n - 1
    else LastSource(targets, n - 1, c)
  }

  /** LastSource is -1 exactly when none of the first n signals targets c, and
      otherwise a signal targeting c that no later one of them targeting c
      follows. */
  lemma {:induction false} LastSourceMeaning(targets: seq<int>, n: nat, c: int)
    requires n <= |targets|
    ensures LastSource(targets, n, c) == -1 <==> forall e :: 0 <= e < n ==> targets[e] != c
    ensures var r := LastSource(targets, n, c);
      r >= 0 ==> targets[r] == c && forall e :: r < e < n ==> targets[e] != c
  {
    if n > 0 && targets[n - 1] != c {
      LastSourceMeaning(targets, n - 1, c);
    }
  }

  lemma LastSourceStep(targets: seq<int>, n: nat, c: int)
    requires n < |targets|
    ensures LastSource(targets, n + 1, c) == if targets[n] == c then n else LastSource(targets, n, c)
  {
  }

  /** What channel c holds after the first n file signals: the value of the
      last one placed there, or dflt. */
  function Loaded<T>(targets: seq<int>, vals: seq<T>, n: nat, c: int, dflt: T): T
    requires n <= |targets| == |vals|
  {
    var k := LastSource(targets, n, c);
    if k == -1 then dflt else vals[k]
  }

  /** The m channels after every file signal has been placed. */
  function Placed<T>(targets: seq<int>, vals: seq<T>, m: nat, dflt: T): (r: seq<T>)
    requires |targets| == |vals|
    ensures |r| == m && forall c :: 0 <= c < m ==> r[c] == Loaded(targets, vals, |targets|, c, dflt)
  {
    seq(m, c requires 0 <= c < m => Loaded(targets, vals, |targets|, c, dflt))
  }

  /** _check_label of every file label, None where it gives no truthy label.
      The label lookup is pure, so the loops below take it computed up front. */
  function Keys(labels: seq<string>, list: seq<string>): (r: seq<Option<string>>)
    ensures |r| == |labels| && forall e :: 0 <= e < |labels| ==> r[e] == Checked(labels[e], list)
  {
    seq(|labels|, e requires 0 <= e < |labels| => Checked(labels[e], list))
  }

  /** labels2chns[key] of every key: the channel each file signal goes to, -1
      for one without a key. */
  function Destinations(keys: seq<Option<string>>, d: Dict): (r: seq<int>)
    ensures |r| == |keys|
    ensures forall e :: 0 <= e < |keys| ==> r[e] == match keys[e] case Some(s) => Get(d, s) case None => -1
  {
    seq(|keys|, e requires 0 <= e < |keys| => match keys[e] case Some(s) => Get(d, s) case None => -1)
  }

  /** A key load_buffers cannot place: it is missing from the dict, or names a
      channel past the buffers. */
  predicate Unplaceable(key: Option<string>, d: Dict, n: nat)
  {
    key.Some? && (!HasKey(d, key.value) || Get(d, key.value) >= n)
  }

  /** Against the index of the list itself, every key is placeable and names
      the channel of the list holding it. */
  lemma ListKeysPlaceable(labels: seq<string>, list: seq<string>)
    ensures var keys := Keys(labels, list);
      forall e :: 0 <= e < |labels| ==> keys[e].Some? ==>
        && !Unplaceable(keys[e], LabelIndex(list), |list|)
        && 0 <= Get(LabelIndex(list), keys[e].value) < |list|
        && list[Get(LabelIndex(list), keys[e].value)] == keys[e].value
  {
    var keys := Keys(labels, list);
    forall e | 0 <= e < |labels| && keys[e].Some?
      ensures !Unplaceable(keys[e], LabelIndex(list), |list|)
      ensures 0 <= Get(LabelIndex(list), keys[e].value) < |list|
      ensures list[Get(LabelIndex(list), keys[e].value)] == keys[e].value
    {
      var s := keys[e].value;
      GetLabelIndex(list, s);
      var v := Get(LabelIndex(list), s);
      assert (s, v) in LabelIndex(list);
      var i :| 0 <= i < |LabelIndex(list)| && LabelIndex(list)[i] == (s, v);
    }
  }

  // ---------------------------------------------------------------------------
  // Sampling rates

  /** eeg_info.fs: one rate for the whole file, or one per channel. */
  datatype Rate = Scalar(hz: int) | PerChannel(rates: seq<int>)

  /** `if len(set(fs)) == 1: fs = fs[0]`: the rates collapse to one number
      exactly when there is at least one and they are all equal. */
  function CollapseRates(fs: seq<int>): (r: Rate)
    ensures r.Scalar? <==> |fs| > 0 && forall i :: 0 <= i < |fs| ==> fs[i] == fs[0]
    ensures r.Scalar? ==> forall i :: 0 <= i < |fs| ==> fs[i] == r.hz
    ensures r.PerChannel? ==> r.rates == fs
  {
    if |fs| > 0 && forall i :: 0 <= i < |fs| ==> fs[i] == fs[0] then Scalar(fs[0])
    else PerChannel(fs)
  }

  // ---------------------------------------------------------------------------
  // File name

  /** fn.split('/')[-1].split('.')[0]: the file name without directory and
      extension. */
  function BaseName(fn: string): (r: string)
    ensures '/' !in r && '.' !in r
  {
    var parts := Split(fn, '/');
    var file := parts[|parts| - 1];
    SplitPartsFree(fn, '/');
    SplitPartsFree(file, '.');
    var r := Split(file, '.')[0];
    assert forall c :: c in r ==> c in file by {
      SplitPrefix(file, '.');
    }
    r
  }

  /** The first part of a split is a prefix of the text. */
  lemma {:induction false} SplitPrefix(s: string, sep: char)
    ensures Split(s, sep)[0] <= s
    decreases |s|
  {
    if |s| > 0 {
      SplitPrefix(s[1..], sep);
    }
  }

  /** dir/stem.ext names the recording stem. */
  lemma BaseNameOfPath(dir: string, stem: string, ext: string)
    requires '/' !in stem && '.' !in stem && '/' !in ext
    ensures BaseName(dir + "/" + stem + "." + ext) == stem
  {
    var file := stem + "." + ext;
    assert dir + "/" + stem + "." + ext == dir + ['/'] + file;
    SplitLastAppend(dir, file, '/');
    SplitNoSep(file, '/');
    SplitAfterPart(stem, ext, '.');
    assert file == stem + ['.'] + ext;
  }

  // ---------------------------------------------------------------------------
  // Loaded state

  /** What the EDF library reports about a file: one label, sample count,
      sampling rate and signal per file signal. */
  datatype EdfFile = EdfFile(labels: seq<string>, nsamples: seq<int>, freqs: seq<int>,
                             duration: int, signals: seq<Signal>)
  {
    predicate Valid()
    {
      |nsamples| == |labels| && |freqs| == |labels| && |signals| == |labels|
    }
  }

  /** The recording information shared by the viewer's windows. */
  class EegInfo {
    var edfFn: string
    var name: string
    var fileDuration: int
    var nsamples: seq<int>
    var labelList: seq<string>
    var labels2chns: Dict
    /** chns2labels: channel i's label at position i (its keys are 0..nchns-1). */
    var chns2labels: seq<string>
    var nchns: nat
    var fs: Rate

    constructor ()
      ensures edfFn == "" && name == "" && fileDuration == 0 && nsamples == []
      ensures labelList == [] && labels2chns == [] && chns2labels == [] && nchns == 0 && fs == Scalar(0)
    {
      edfFn, name, fileDuration, nsamples := "", "", 0, [];
      labelList, labels2chns, chns2labels, nchns, fs := [], [], [], 0, Scalar(0);
    }
  }

  class EdfLoader {
    /** The labels to load, in channel order; [] loads every file signal (the
        source's None and empty list behave alike). */
    var labelList: seq<string>

    constructor (labelList: seq<string>)
      ensures this.labelList == labelList
    {
      this.labelList := labelList;
    }

    /** load_metadata: with a label list the channels are the list's labels,
        each channel's sample count and rate coming from the last file signal
        that checks to it (0 when none does); without one every file signal is
        a channel under its upper-cased label. The rates collapse to one
        number when they are all equal. */
    method LoadMetadata(fn: string, f: EdfFile) returns (info: EegInfo)
      requires f.Valid()
      ensures fresh(info)
      ensures info.edfFn == fn && info.name == BaseName(fn) && info.fileDuration == f.duration
      ensures LaidOut(labelList, f, info.nchns, info.labelList, info.labels2chns, info.chns2labels, info.nsamples, info.fs)
    {
      info := new EegInfo();
      info.edfFn, info.name, info.fileDuration := fn, BaseName(fn), f.duration;
      SetChannels(info, labelList, f);
    }

    /** load_buffers: each file signal whose label checks against the info's
        label list goes into that label's channel, a later signal replacing an
        earlier one; channels no signal reaches keep the placeholder (None). A
        checked label missing from labels2chns raises KeyError, a channel
        outside the nchns buffers raises IndexError. */
    method LoadBuffers(info: EegInfo, f: EdfFile) returns (r: Result<seq<Option<Signal>>>)
      requires f.Valid()
      requires forall j :: 0 <= j < |info.labels2chns| ==> info.labels2chns[j].1 >= 0
      ensures var keys := Keys(f.labels, info.labelList);
        && (r.Failure? <==> exists e :: 0 <= e < |keys| && Unplaceable(keys[e], info.labels2chns, info.nchns))
        && (r.Success? ==> r.value == Placed(Destinations(keys, info.labels2chns), Present(f.signals), info.nchns, None))
    {
      r := PlaceBuffers(Keys(f.labels, info.labelList), info.labels2chns, f.signals, info.nchns);
    }
  }

  /** The channels load_metadata sets up for a file, with their sample
      counts and rates: with a label list, the list's labels, each channel's
      count and rate from the last file signal that checks to it (0 when none
      does); without one, every file signal under its upper-cased label. */
  predicate LaidOut(labelList: seq<string>, f: EdfFile, nchns: nat, list: seq<string>, l2c: Dict, c2l: seq<string>, counts: seq<int>, rate: Rate)
    requires f.Valid()
  {
    && nchns == |list|
    && (|labelList| > 0 ==>
      var t := Destinations(Keys(f.labels, labelList), LabelIndex(labelList));
      && list == labelList && l2c == LabelIndex(labelList) && c2l == labelList
      && counts == Placed(t, f.nsamples, |labelList|, 0)
      && rate == CollapseRates(Placed(t, f.freqs, |labelList|, 0)))
    && (|labelList| == 0 ==>
      && list == UpperAll(f.labels) && l2c == LabelIndex(UpperAll(f.labels)) && c2l == UpperAll(f.labels)
      && counts == f.nsamples && rate == CollapseRates(f.freqs))
  }

  /** The channel set-up of load_metadata. */
  method ChannelLayout(labelList: seq<string>, f: EdfFile) returns (list: seq<string>, l2c: Dict, c2l: seq<string>, counts: seq<int>, rate: Rate)
    requires f.Valid()
    ensures LaidOut(labelList, f, |list|, list, l2c, c2l, counts, rate)
  {
    var rates: seq<int>;
    if |labelList| > 0 {
      list := labelList;
      l2c, c2l := IndexLabels(labelList);
      counts, rates := PlaceListCounts(f.labels, labelList, f.nsamples, f.freqs);
    } else {
      counts, rates := f.nsamples, f.freqs;
      list, l2c, c2l := IndexUpperLabels(f.labels);
    }
    rate := CollapseRates(rates);
  }

  /** The channel fields load_metadata writes into the recording
      information. */
  method SetChannels(info: EegInfo, labelList: seq<string>, f: EdfFile)
    requires f.Valid()
    modifies info`nchns, info`labelList, info`labels2chns, info`chns2labels, info`nsamples, info`fs
    ensures LaidOut(labelList, f, info.nchns, info.labelList, info.labels2chns, info.chns2labels, info.nsamples, info.fs)
  {
    var list, l2c, c2l, counts, rate := ChannelLayout(labelList, f);
    info.nchns, info.labelList, info.labels2chns, info.chns2labels, info.nsamples, info.fs := |list|, list, l2c, c2l, counts, rate;
  }

  /** The signals as loaded buffers. */
  function Present(signals: seq<Signal>): (r: seq<Option<Signal>>)
    ensures |r| == |signals| && forall e :: 0 <= e < |signals| ==> r[e] == Some(signals[e])
  {
    seq(|signals|, e requires 0 <= e < |signals| => Some(signals[e]))
  }

  /** The loop of load_buffers: n placeholder buffers, each file signal with
      a key written into the key's channel; a key missing from the dict
      raises KeyError and a channel past the buffers IndexError. */
  method PlaceBuffers(keys: seq<Option<string>>, d: Dict, signals: seq<Signal>, n: nat) returns (r: Result<seq<Option<Signal>>>)
    requires |signals| == |keys|
    requires forall j :: 0 <= j < |d| ==> d[j].1 >= 0
    ensures r.Failure? <==> exists e :: 0 <= e < |keys| && Unplaceable(keys[e], d, n)
    ensures r.Success? ==> r.value == Placed(Destinations(keys, d), Present(signals), n, None)
  {
    ghost var ts, vs := Destinations(keys, d), Present(signals);
    var bufs: seq<Option<Signal>> := seq(n, _ => None);
    for e := 0 to |keys|
      invariant |bufs| == n
      invariant forall e' :: 0 <= e' < e ==> !Unplaceable(keys[e'], d, n)
      invariant forall c :: 0 <= c < n ==> bufs[c] == Loaded(ts, vs, e, c, None)
    {
      if keys[e].Some? {
        if !HasKey(d, keys[e].value) {
          return Failure("KeyError");
        }
        var chn := Get(d, keys[e].value);
        if chn >= n {
          return Failure("IndexError");
        }
        bufs := bufs[chn := Some(signals[e])];
      }
      forall c
        ensures LastSource(ts, e + 1, c) == if ts[e] == c then e else LastSource(ts, e, c)
      {
        LastSourceStep(ts, e, c);
      }
    }
    r := Success(bufs);
  }

  /** The loop of load_metadata over the label list: labels2chns maps each
      label to its position (the last one for a repeated label) and
      chns2labels lists the labels by position. */
  method IndexLabels(list: seq<string>) returns (l2c: Dict, c2l: seq<string>)
    ensures l2c == LabelIndex(list) && c2l == list
  {
    l2c, c2l := [], [];
    for c := 0 to |list|
      invariant l2c == LabelIndex(list[..c]) && c2l == list[..c]
    {
      assert list[..c + 1][..c] == list[..c];
      l2c := Put(l2c, list[c], c);
      c2l := c2l + [list[c]];
    }
    assert list[..|list|] == list;
  }

  /** The loop of load_metadata without a label list: every file label
      upper-cased, in file order, with the index of the upper-cased labels. */
  method IndexUpperLabels(labels: seq<string>) returns (list: seq<string>, l2c: Dict, c2l: seq<string>)
    ensures list == UpperAll(labels) && l2c == LabelIndex(UpperAll(labels)) && c2l == UpperAll(labels)
  {
    list, l2c, c2l := [], [], [];
    ghost var upper := UpperAll(labels);
    for e := 0 to |labels|
      invariant list == upper[..e] && c2l == upper[..e] && l2c == LabelIndex(upper[..e])
    {
      assert upper[..e + 1][..e] == upper[..e];
      list := list + [ToUpper(labels[e])];
      l2c := Put(l2c, ToUpper(labels[e]), e);
      c2l := c2l + [ToUpper(labels[e])];
    }
    assert upper[..|labels|] == upper;
  }

  /** The counts and rates load_metadata gives the channels of a label list. */
  method PlaceListCounts(labels: seq<string>, list: seq<string>, nsamples: seq<int>, freqs: seq<int>)
    returns (counts: seq<int>, fs: seq<int>)
    requires |nsamples| == |labels| && |freqs| == |labels|
    ensures var t := Destinations(Keys(labels, list), LabelIndex(list));
      counts == Placed(t, nsamples, |list|, 0) && fs == Placed(t, freqs, |list|, 0)
  {
    ListKeysPlaceable(labels, list);
    counts, fs := PlaceCounts(Keys(labels, list), LabelIndex(list), nsamples, freqs, |list|);
  }

  /** The second loop of load_metadata with a label list: channel c takes the
      sample count and rate of the last file signal whose key names c, and
      keeps 0 when none does. */
  method PlaceCounts(keys: seq<Option<string>>, d: Dict, nsamples: seq<int>, freqs: seq<int>, n: nat)
    returns (counts: seq<int>, fs: seq<int>)
    requires |nsamples| == |keys| && |freqs| == |keys|
    requires forall e :: 0 <= e < |keys| && keys[e].Some? ==> 0 <= Get(d, keys[e].value) < n
    ensures counts == Placed(Destinations(keys, d), nsamples, n, 0)
    ensures fs == Placed(Destinations(keys, d), freqs, n, 0)
  {
    ghost var ts := Destinations(keys, d);
    counts, fs := seq(n, _ => 0), seq(n, _ => 0);
    for e := 0 to |keys|
      invariant |counts| == n && |fs| == n
      invariant forall c :: 0 <= c < n ==> counts[c] == Loaded(ts, nsamples, e, c, 0) && fs[c] == Loaded(ts, freqs, e, c, 0)
    {
      if keys[e].Some? {
        var chn := Get(d, keys[e].value);
        counts := counts[chn := nsamples[e]];
        fs := fs[chn := freqs[e]];
      }
      forall c
        ensures LastSource(ts, e + 1, c) == if ts[e] == c then e else LastSource(ts, e, c)
      {
        LastSourceStep(ts, e, c);
      }
    }
  }

  // ---------------------------------------------------------------------------
  // Loading buffers after metadata

  /** When file signal e goes to channel e, channel c is last reached by signal c. */
  lemma {:induction false} LastSourceIdentity(ts: seq<int>, n: nat, c: nat)
    requires n <= |ts| && c < n
    requires forall e :: 0 <= e < |ts| ==> ts[e] == e
    ensures LastSource(ts, n, c) == c
  {
    if n - 1 != c {
      LastSourceIdentity(ts, n - 1, c);
    }
  }

  /** Checked against the upper-cased labels themselves, each file label
      comes back upper-cased, unless that is empty. */
  lemma UpperKeys(labels: seq<string>)
    ensures var keys := Keys(labels, UpperAll(labels));
      forall e :: 0 <= e < |labels| ==> keys[e] == if ToUpper(labels[e]) == "" then None else Some(ToUpper(labels[e]))
  {
    var upper := UpperAll(labels);
    forall e | 0 <= e < |labels|
      ensures ToUpper(labels[e]) in upper
    {
      assert upper[e] == ToUpper(labels[e]);
    }
  }

  /** Without a label list, loading the buffers after the metadata never
      raises, and when the upper-cased file labels are distinct and not empty
      every channel receives the file signal of the same position. */
  lemma NoListBuffersInFileOrder(labels: seq<string>, signals: seq<Signal>)
    requires |signals| == |labels|
    ensures var upper := UpperAll(labels);
      forall e :: 0 <= e < |labels| ==> !Unplaceable(Keys(labels, upper)[e], LabelIndex(upper), |labels|)
    ensures var upper := UpperAll(labels);
      Distinct(upper) && (forall e :: 0 <= e < |labels| ==> upper[e] != "") ==>
        Placed(Destinations(Keys(labels, upper), LabelIndex(upper)), Present(signals), |labels|, None) == Present(signals)
  {
    var upper := UpperAll(labels);
    ListKeysPlaceable(labels, upper);
    if Distinct(upper) && forall e :: 0 <= e < |labels| ==> upper[e] != "" {
      var keys := Keys(labels, upper);
      UpperKeys(labels);
      IndexInvertsList(upper);
      var ts := Destinations(keys, LabelIndex(upper));
      forall e | 0 <= e < |labels|
        ensures ts[e] == e
      {
        assert keys[e] == Some(upper[e]);
      }
      forall c | 0 <= c < |labels|
        ensures LastSource(ts, |ts|, c) == c
      {
        LastSourceIdentity(ts, |ts|, c);
      }
      var p := Placed(ts, Present(signals), |labels|, None);
      assert forall c :: 0 <= c < |labels| ==> p[c] == Present(signals)[c];
    }
  }

  /** With a label list, loading the buffers after the metadata never raises
      either, and channel c receives the last file signal whose label checks
      to the c-th listed label. */
  lemma ListBuffersPlaced(labels: seq<string>, list: seq<string>, signals: seq<Signal>, c: nat)
    requires |signals| == |labels| && c < |list|
    ensures forall e :: 0 <= e < |labels| ==> !Unplaceable(Keys(labels, list)[e], LabelIndex(list), |list|)
    ensures Distinct(list) ==>
      var b := Placed(Destinations(Keys(labels, list), LabelIndex(list)), Present(signals), |list|, None)[c];
      && ((forall e :: 0 <= e < |labels| ==> Checked(labels[e], list) != Some(list[c])) ==> b == None)
      && ((exists e :: 0 <= e < |labels| && Checked(labels[e], list) == Some(list[c])) ==>
            exists e :: 0 <= e < |labels| && Checked(labels[e], list) == Some(list[c]) && b == Some(signals[e])
              && forall e' :: e < e' < |labels| ==> Checked(labels[e'], list) != Some(list[c]))
  {
    var keys := Keys(labels, list);
    var ts := Destinations(keys, LabelIndex(list));
    ListKeysPlaceable(labels, list);
    if Distinct(list) {
      IndexInvertsList(list);
      forall e | 0 <= e < |labels|
        ensures ts[e] == c <==> Checked(labels[e], list) == Some(list[c])
      {
      }
      LastSourceMeaning(ts, |ts|, c);
    }
  }
}
