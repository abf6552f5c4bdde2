/** The channel-label dictionaries the loaders share: a Python dict from label to
    channel index, the staged re-keying used to match a montage label against
    the labels of a recording (upper case, then without "EEG ", then without
    "-REF"), and the standard 10-20 and 10-10 label lists. */
module LabelLookup {
  import opened Common

  /** A dict in insertion order: (key, value) pairs. */
  type Dict = seq<(string, int)>

  predicate HasKey(d: Dict, k: string)
  {
    exists i :: 0 <= i < |d| && d[i].0 == k
  }

  /** d[k] = v: an existing key keeps its place and takes the new value, a new
      key goes last. */
  function Put(d: Dict, k: string, v: int): (r: Dict)
    ensures (k, v) in r
    ensures forall e :: e in r ==> e == (k, v) || e in d
  {
    if |d| == 0 then [(k, v)]
    else if d[0].0 == k then
      assert forall e :: e in d[1..] ==> e in d;
      [(k, v)] + d[1..]
    else
      var rest := Put(d[1..], k, v);
      assert forall e :: e in d[1..] ==> e in d;
      [d[0]] + rest
  }

  /** d.get(k, -1): the value stored under k, or -1. */
  function Get(d: Dict, k: string): (r: int)
    ensures r == -1 || (k, r) in d
    ensures HasKey(d, k) ==> (k, r) in d
  {
    if |d| == 0 then -1
    else if d[0].0 == k then d[0].1
    else
      assert forall e :: e in d[1..] ==> e in d;
      assert HasKey(d, k) ==> HasKey(d[1..], k) by {
        if HasKey(d, k) {
          var i :| 0 <= i < |d| && d[i].0 == k;
          assert d[1..][i - 1].0 == k;
        }
      }
      Get(d[1..], k)
  }

  lemma {:induction false} GetPut(d: Dict, k: string, v: int, k': string)
    ensures Get(Put(d, k, v), k') == if k == k' then v else Get(d, k')
    decreases |d|
  {
    if |d| > 0 && d[0].0 != k {
      GetPut(d[1..], k, v, k');
      var r := Put(d, k, v);
      assert r[1..] == Put(d[1..], k, v);
    }
  }

  /** {f(k): v for k, v in d.items()}: keys mapped in order, a later entry
      overwriting the value of an earlier one with the same new key. */
  function Rekey(d: Dict, f: string -> string): Dict
  {
    if |d| == 0 then []
    else Put(Rekey(d[..|d| - 1], f), f(d[|d| - 1].0), d[|d| - 1].1)
  }

  /** The value of the last entry of d whose key f maps to k, or -1. */
  function LastWith(d: Dict, f: string -> string, k: string): int
  {
    if |d| == 0 then -1
    else if f(d[|d| - 1].0) == k then d[|d| - 1].1
    else LastWith(d[..|d| - 1], f, k)
  }

  /** Looking a key up after re-keying finds the last entry that maps to it. */
  lemma {:induction false} GetRekey(d: Dict, f: string -> string, k: string)
    ensures Get(Rekey(d, f), k) == LastWith(d, f, k)
    decreases |d|
  {
    if |d| > 0 {
      GetRekey(d[..|d| - 1], f, k);
      GetPut(Rekey(d[..|d| - 1], f), f(d[|d| - 1].0), d[|d| - 1].1, k);
    }
  }

  /** LastWith finds a value of d when some key maps to k and no value is -1. */
  lemma {:induction false} LastWithFound(d: Dict, f: string -> string, k: string)
    requires forall i :: 0 <= i < |d| ==> d[i].1 >= 0
    ensures (exists i :: 0 <= i < |d| && f(d[i].0) == k) <==> LastWith(d, f, k) != -1
    ensures LastWith(d, f, k) != -1 ==> exists i :: 0 <= i < |d| && f(d[i].0) == k && d[i].1 == LastWith(d, f, k)
    decreases |d|
  {
    if |d| > 0 {
      var init := d[..|d| - 1];
      LastWithFound(init, f, k);
      if f(d[|d| - 1].0) != k {
        forall i | 0 <= i < |d| && f(d[i].0) == k
          ensures exists j :: 0 <= j < |init| && f(init[j].0) == k
        {
          assert init[i] == d[i];
        }
        if LastWith(d, f, k) != -1 {
          var j :| 0 <= j < |init| && f(init[j].0) == k && init[j].1 == LastWith(init, f, k);
          assert d[j] == init[j];
        }
      }
    }
  }

  /** The values a dict holds. */
  function Values(d: Dict): set<int>
  {
    set e | e in d :: e.1
  }

  /** Every entry of a re-keyed dict carries a value of the original. */
  lemma {:induction false} RekeyValues(d: Dict, f: string -> string)
    ensures Values(Rekey(d, f)) <= Values(d)
    decreases |d|
  {
    if |d| > 0 {
      var init := d[..|d| - 1];
      RekeyValues(init, f);
      forall e | e in init
        ensures e in d
      {
        var i :| 0 <= i < |init| && init[i] == e;
        assert d[i] == e;
      }
      var last := d[|d| - 1];
      assert last in d;
      assert Rekey(d, f) == Put(Rekey(init, f), f(last.0), last.1);
      forall v | v in Values(Rekey(d, f))
        ensures v in Values(d)
      {
        var e :| e in Rekey(d, f) && e.1 == v;
        if e != (f(last.0), last.1) {
          assert e in Rekey(init, f);
          assert v in Values(Rekey(init, f));
          assert v in Values(init);
          var e' :| e' in init && e'.1 == v;
          assert e' in d;
        }
      }
    }
  }

  /** The value of a dict all of whose values are non-negative. */
  predicate NonNegValues(d: Dict)
  {
    forall i :: 0 <= i < |d| ==> d[i].1 >= 0
  }

  // ---------------------------------------------------------------------------
  // The three staged dictionaries

  /** Keys with an "EEG " prefix: the part after it (the text before "EEG " is dropped too). */
  function StripEEG(k: string): string
  {
    var loc := Find(k, "EEG ");
    if loc != -1 then k[loc + 4..] else k
  }

  /** Keys with a "-REF" suffix: the part before it (the text after "-REF" is dropped too). */
  function StripRef(k: string): string
  {
    var loc := Find(k, "-REF");
    if loc != -1 then k[..loc] else k
  }

  function Upper(k: string): string
  {
    ToUpper(k)
  }

  /** label_CAPS, labels_noEEG and labels_noRef of a recording's label dict. */
  datatype Stages = Stages(caps: Dict, noEEG: Dict, noRef: Dict)

  function StagesOf(d: Dict): Stages
  {
    var caps := Rekey(d, Upper);
    var noEEG := Rekey(caps, StripEEG);
    Stages(caps, noEEG, Rekey(noEEG, StripRef))
  }

  /** The first of the three lookups that finds the label, or -1. */
  function StagedGet(s: Stages, name: string): (r: int)
    ensures Get(s.caps, name) != -1 ==> r == Get(s.caps, name)
    ensures Get(s.caps, name) == -1 && Get(s.noEEG, name) != -1 ==> r == Get(s.noEEG, name)
    ensures r in {Get(s.caps, name), Get(s.noEEG, name), Get(s.noRef, name)}
  {
    var r := Get(s.caps, name);
    if r != -1 then r
    else
      var r := Get(s.noEEG, name);
      if r != -1 then r else Get(s.noRef, name)
  }

  /** A staged lookup returns -1 or a value of the recording's dict. */
  lemma StagedGetValue(d: Dict, name: string)
    ensures var r := StagedGet(StagesOf(d), name);
      r == -1 || exists j :: 0 <= j < |d| && d[j].1 == r
  {
    var s := StagesOf(d);
    RekeyValues(d, Upper);
    RekeyValues(s.caps, StripEEG);
    RekeyValues(s.noEEG, StripRef);
    var r := StagedGet(s, name);
    if r != -1 {
      assert (name, r) in s.caps || (name, r) in s.noEEG || (name, r) in s.noRef;
      assert r in Values(d);
      var e :| e in d && e.1 == r;
      var j :| 0 <= j < |d| && d[j] == e;
    }
  }

  /** A label some key upper-cases to is found in the first stage: the value of
      the last such key. */
  lemma StagedGetUpper(d: Dict, name: string)
    requires NonNegValues(d)
    requires exists i :: 0 <= i < |d| && Upper(d[i].0) == name
    ensures StagedGet(StagesOf(d), name) == LastWith(d, Upper, name)
    ensures exists i :: 0 <= i < |d| && Upper(d[i].0) == name && d[i].1 == StagedGet(StagesOf(d), name)
  {
    GetRekey(d, Upper, name);
    LastWithFound(d, Upper, name);
  }

  // ---------------------------------------------------------------------------
  // Standard label lists

  /** The 18 bipolar 10-20 channels. */
  const BIP1020: seq<string> := ["CZ-PZ", "FZ-CZ", "P4-O2", "C4-P4", "F4-C4", "FP2-F4",
                                 "P3-O1", "C3-P3", "F3-C3", "FP1-F3", "P8-O2", "T8-P8",
                                 "F8-T8", "FP2-F8", "P7-O1", "T7-P7", "F7-T7", "FP1-F7"]

  /** The 19 average-reference 10-20 channels. */
  const AR1020: seq<string> := ["O2", "O1", "PZ", "CZ", "FZ", "P8", "P7", "T8", "T7", "F8",
                                "F7", "P4", "P3", "C4", "C3", "F4", "F3", "FP2", "FP1"]

  /** The average-reference 10-10 channels. */
  const AR1010: seq<string> := ["IZ", "O2", "O1", "OZ", "POZ", "PZ", "CPZ", "CZ", "FCZ",
                                "FZ", "AFZ", "FPZ",
                                "P10", "P9", "TP10", "TP9", "A2", "A1", "T10", "T9", "FT10", "FT9", "F10", "F9",
                                "PO8", "PO7", "P8", "P7", "TP8", "TP7", "T8", "T7", "FT8", "FT7", "F8", "F7",
                                "AF8", "AF7", "FP2", "FP1",
                                "P6", "P5", "CP6", "CP5", "C6", "C5", "FC6", "FC5", "F6", "F5",
                                "PO4", "PO3", "P4", "P3", "CP4", "CP3", "C4", "C3", "FC4", "FC3", "F4",
                                "F3", "AF4", "AF3",
                                "P2", "P1", "CP2", "CP1", "C2", "C1", "FC2", "FC1", "F2", "F1", "NZ"]

  /** Further electrode names a channel may be given. */
  const OtherLabels: seq<string> := ["T1", "T2", "A1", "A2", "FPZ", "NZ", "AF7", "AF3", "AF1",
                                     "AFZ", "AF2", "AF4", "AF8", "F9", "F5", "F1", "F2", "F6",
                                     "F10", "FT9", "FT7", "FC5", "FC3", "FC1", "FCZ", "FC2",
                                     "FC4", "FC6", "FT8", "FT10", "T9", "C5", "C1", "C2", "C6",
                                     "T10", "TP9", "TP7", "CP5", "CP3", "CP1", "CPZ", "CP2",
                                     "CP4", "CP6", "TP8", "TP10", "P9", "P5", "P1", "P2", "P6",
                                     "P10", "PO7", "PO3", "POZ", "PO4", "PO8", "OZ", "LZ",
                                     "NZ", "FT9", "FT7", "FT8", "FT10", "IZ"]

  /** The 10-10 names of the four temporal electrodes renamed in 10-20 (T7, P7,
      T8, P8 become T3, T5, T4, T6). */
  function TemporalRename(e: string): (r: Option<string>)
    ensures r.Some? <==> e in ["T7", "P7", "T8", "P8"]
    ensures r.Some? ==> r.value in ["T3", "T5", "T4", "T6"] && IsUpper(r.value) && '-' !in r.value
  {
    if e == "T7" then Some("T3")
    else if e == "P7" then Some("T5")
    else if e == "T8" then Some("T4")
    else if e == "P8" then Some("T6")
    else None
  }
}
