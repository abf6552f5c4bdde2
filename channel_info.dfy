/** Channel-name canonicalisation for loaded recordings: matching a montage
    label against the labels stored in an EDF file, normalising the names read
    from a montage text file, and the ChannelInfo record that assigns one
    canonical name to every channel of the recording. */
module Channels {
  import opened Common
  import opened LabelLookup

  // ---------------------------------------------------------------------------
  // Matching a montage label against the file's labels

  /** The name retried when a label is not found as it is: the 10-10 temporal
      electrodes take their 10-20 names. For a bipolar label a rename of the
      second electrode is tried last in the source and so takes precedence;
      it joins the two names without the hyphen ("F7-T7" becomes "F7T3").
      Labels with nothing to rename give "". */
  function Fallback(name: string): string
  {
    if Find(name, "-") != -1 then
      FindChar(name, '-');
      SplitHasTwo(name, '-');
      var parts := Split(name, '-');
      var first, second := TemporalRename(parts[0]), TemporalRename(parts[1]);
      if second.Some? then parts[0] + second.value
      else if first.Some? then first.value + "-" + parts[1]
      else ""
    else
      match TemporalRename(name)
      case Some(n) => n
      case None => ""
  }

  /** The index of the channel a montage label names in the file's label dict
      d, or -1: the label is looked up in the upper-cased keys, then in the
      keys without "EEG ", then in the keys without "-REF", and then its
      fallback name goes through the same three lookups. */
  function CheckLabel(name: string, d: Dict): (r: int)
    ensures r == -1 || exists j :: 0 <= j < |d| && d[j].1 == r
  {
    var s := StagesOf(d);
    StagedGetValue(d, name);
    StagedGetValue(d, Fallback(name));
    var r := StagedGet(s, name);
    if r != -1 then r else StagedGet(s, Fallback(name))
  }

  /** A label that equals a key of the file up to case is found at once: it
      names the channel of the last such key. */
  lemma CheckLabelExact(name: string, d: Dict)
    requires NonNegValues(d)
    requires exists i :: 0 <= i < |d| && Upper(d[i].0) == name
    ensures CheckLabel(name, d) == LastWith(d, Upper, name)
    ensures exists i :: 0 <= i < |d| && Upper(d[i].0) == name && d[i].1 == CheckLabel(name, d)
  {
    StagedGetUpper(d, name);
  }

  /** Two electrode names joined by a hyphen split back into the two. */
  lemma SplitPair(a: string, b: string)
    requires '-' !in a && '-' !in b
    ensures Find(a + "-" + b, "-") != -1
    ensures Split(a + "-" + b, '-') == [a, b]
  {
    assert OccursAt(a + "-" + b, "-", |a|);
    SplitAfterPart(a, b, '-');
    SplitNoSep(b, '-');
    assert a + "-" + b == a + ['-'] + b;
  }

  /** The bipolar fallback keeps the hyphen only when the first electrode is
      the one renamed: "F7-T7" is retried as "F7T3". */
  lemma FallbackSecondRenamed()
    ensures Fallback("F7-T7") == "F7T3"
  {
    SplitPair("F7", "T7");
    assert "F7" + "-" + "T7" == "F7-T7";
    assert "F7" + "T3" == "F7T3";
  }

  /** "T7-O1" is retried as "T3-O1". */
  lemma FallbackFirstRenamed()
    ensures Fallback("T7-O1") == "T3-O1"
  {
    SplitPair("T7", "O1");
    assert "T7" + "-" + "O1" == "T7-O1";
    assert "T3" + "-" + "O1" == "T3-O1";
  }

  /** Storing a new key appends it. */
  lemma {:induction false} PutNew(d: Dict, k: string, v: int)
    requires forall j :: 0 <= j < |d| ==> d[j].0 != k
    ensures Put(d, k, v) == d + [(k, v)]
    decreases |d|
  {
    if |d| > 0 {
      PutNew(d[1..], k, v);
      assert d == [d[0]] + d[1..];
    }
  }

  /** Re-keying a three-entry dict whose new keys are distinct keeps its order. */
  lemma RekeyThree(d: Dict, f: string -> string)
    requires |d| == 3
    requires f(d[0].0) != f(d[1].0) && f(d[0].0) != f(d[2].0) && f(d[1].0) != f(d[2].0)
    ensures Rekey(d, f) == [(f(d[0].0), d[0].1), (f(d[1].0), d[1].1), (f(d[2].0), d[2].1)]
  {
    var e0, e1, e2 := (f(d[0].0), d[0].1), (f(d[1].0), d[1].1), (f(d[2].0), d[2].1);
    assert d[..2][..1] == d[..1];
    assert d[..1][..0] == [];
    assert Rekey(d[..1], f) == Put([], e0.0, e0.1);
    PutNew([], e0.0, e0.1);
    assert Rekey(d[..2], f) == Put([e0], e1.0, e1.1);
    PutNew([e0], e1.0, e1.1);
    assert Rekey(d, f) == Put([e0, e1], e2.0, e2.1);
    PutNew([e0, e1], e2.0, e2.1);
  }

  /** The label dict of the channel-label oracle: "t1-REF", "EEG T2" and "T3". */
  const SampleDict: Dict := [("t1-REF", 0), ("EEG T2", 1), ("T3", 2)]

  lemma SampleUpper()
    ensures Upper("t1-REF") == "T1-REF" && Upper("EEG T2") == "EEG T2" && Upper("T3") == "T3"
  {
    assert ToUpper("t1-REF") == "T1-REF";
    assert ToUpper("EEG T2") == "EEG T2";
    assert ToUpper("T3") == "T3";
  }

  lemma SampleStripEEG()
    ensures StripEEG("T1-REF") == "T1-REF" && StripEEG("EEG T2") == "T2" && StripEEG("T3") == "T3"
  {
    FindAbsent("T1-REF", "EEG ", 2);
    FindAt("EEG T2", "EEG ", 0);
    assert "EEG T2"[4..] == "T2";
    FindAbsent("T3", "EEG ", 0);
  }

  lemma SampleStripRef()
    ensures StripRef("T1-REF") == "T1" && StripRef("T2") == "T2" && StripRef("T3") == "T3"
  {
    var s := "T1-REF";
    assert s[0..4][0] != '-' && s[1..5][0] != '-';
    FindAt(s, "-REF", 2);
    assert s[..2] == "T1";
    FindAbsent("T2", "-REF", 0);
    FindAbsent("T3", "-REF", 0);
  }

  const SampleStagesValue := Stages([("T1-REF", 0), ("EEG T2", 1), ("T3", 2)],
                                    [("T1-REF", 0), ("T2", 1), ("T3", 2)],
                                    [("T1", 0), ("T2", 1), ("T3", 2)])

  lemma SampleStages()
    ensures StagesOf(SampleDict) == SampleStagesValue
  {
    SampleUpper();
    SampleStripEEG();
    SampleStripRef();
    RekeyThree(SampleDict, Upper);
    RekeyThree([("T1-REF", 0), ("EEG T2", 1), ("T3", 2)], StripEEG);
    RekeyThree([("T1-REF", 0), ("T2", 1), ("T3", 2)], StripRef);
  }

  lemma SampleFound(name: string, r: int)
    requires StagedGet(SampleStagesValue, name) == r && r != -1
    ensures CheckLabel(name, SampleDict) == r
  {
    SampleStages();
  }

  lemma SampleT1()
    ensures CheckLabel("T1", SampleDict) == 0
  {
    SampleFound("T1", 0);
  }

  lemma SampleT2()
    ensures CheckLabel("T2", SampleDict) == 1
  {
    SampleFound("T2", 1);
  }

  lemma SampleT3()
    ensures CheckLabel("T3", SampleDict) == 2
  {
    SampleFound("T3", 2);
  }

  lemma SampleRenamed(name: string, alt: string, r: int)
    requires StagedGet(SampleStagesValue, name) == -1
    requires '-' !in name && TemporalRename(name) == Some(alt)
    requires StagedGet(SampleStagesValue, alt) == r
    ensures CheckLabel(name, SampleDict) == r
  {
    SampleStages();
    FindChar(name, '-');
  }

  lemma SampleT7()
    ensures CheckLabel("T7", SampleDict) == 2
  {
    assert Get(SampleStagesValue.caps, "T7") == -1;
    assert Get(SampleStagesValue.noEEG, "T7") == -1;
    assert Get(SampleStagesValue.noRef, "T7") == -1;
    SampleRenamed("T7", "T3", 2);
  }

  lemma SampleT8()
    ensures CheckLabel("T8", SampleDict) == -1
  {
    assert Get(SampleStagesValue.caps, "T8") == -1;
    assert Get(SampleStagesValue.noEEG, "T8") == -1;
    assert Get(SampleStagesValue.noRef, "T8") == -1;
    assert Get(SampleStagesValue.caps, "T4") == -1;
    assert Get(SampleStagesValue.noEEG, "T4") == -1;
    assert Get(SampleStagesValue.noRef, "T4") == -1;
    SampleRenamed("T8", "T4", -1);
  }

  /** The channel-label oracle: with keys "t1-REF", "EEG T2" and "T3", the
      labels T1, T2 and T3 are found through the three lookups, T7 through its
      10-20 name T3, and T8 (T4 in 10-20) is not found. */
  lemma CheckLabelExamples()
    ensures CheckLabel("T1", SampleDict) == 0
    ensures CheckLabel("T2", SampleDict) == 1
    ensures CheckLabel("T3", SampleDict) == 2
    ensures CheckLabel("T7", SampleDict) == 2
    ensures CheckLabel("T8", SampleDict) == -1
  {
    SampleT1();
    SampleT2();
    SampleT3();
    SampleT7();
    SampleT8();
  }

  // ---------------------------------------------------------------------------
  // Names read from a montage text file

  /** s with the first occurrence of sub removed (s itself when there is none). */
  function RemoveFirst(s: string, sub: string): (r: string)
    ensures Find(s, sub) == -1 ==> r == s
    ensures Find(s, sub) != -1 ==> |r| == |s| - |sub|
  {
    var loc := Find(s, sub);
    if loc != -1 then s[..loc] + s[loc + |sub|..] else s
  }

  /** The text-file name after upper-casing and dropping the first "EEG " and
      the first "-REF". */
  function Cleaned(txt: string): string
  {
    RemoveFirst(RemoveFirst(ToUpper(txt), "EEG "), "-REF")
  }

  /** convert_txt_chn_names: a single electrode keeps its cleaned name, 10-10
      temporal names becoming 10-20 ones; a hyphenated name is rebuilt from
      its renamed electrodes only (the first one followed by "-"), so any
      electrode that is not renamed is dropped. Converted names are upper
      case whatever the case of the text file, and a name without a hyphen
      converts to one without. */
  function ConvertTxtChnName(txt: string): (r: string)
    ensures IsUpper(r)
    ensures '-' !in Cleaned(txt) ==> '-' !in r
  {
    UpperIsIdempotent(txt);
    RemoveFirstUpper(ToUpper(txt), "EEG ");
    RemoveFirstUpper(RemoveFirst(ToUpper(txt), "EEG "), "-REF");
    var chn := Cleaned(txt);
    FindChar(chn, '-');
    if Find(chn, "-") != -1 then
      SplitHasTwo(chn, '-');
      var parts := Split(chn, '-');
      var head := match TemporalRename(parts[0]) case Some(n) => n + "-" case None => "";
      var tail := match TemporalRename(parts[1]) case Some(n) => n case None => "";
      assert IsUpper(head) && IsUpper(tail);
      head + tail
    else
      match TemporalRename(chn)
      case Some(n) => n
      case None => chn
  }

  lemma RemoveFirstUpper(s: string, sub: string)
    requires IsUpper(s)
    ensures IsUpper(RemoveFirst(s, sub))
  {
  }

  /** A cleaned name without a hyphen converts to its 10-20 name, or stays. */
  lemma ConvertSingle(txt: string, r: string)
    requires '-' !in Cleaned(txt)
    requires r == match TemporalRename(Cleaned(txt)) case Some(n) => n case None => Cleaned(txt)
    ensures ConvertTxtChnName(txt) == r
  {
    FindChar(Cleaned(txt), '-');
  }



  lemma ConvertOneT1()
    ensures ConvertTxtChnName("t1") == "T1"
  {
    assert ToUpper("t1") == "T1";
    FindAbsent("T1", "EEG ", 0);
    FindAbsent("T1", "-REF", 0);
    FindChar("T1", '-');
  }

  lemma ConvertEegT7()
    ensures ConvertTxtChnName("EEG t7") == "T3"
  {
    assert ToUpper("EEG t7") == "EEG T7";
    assert OccursAt("EEG T7", "EEG ", 0);
    assert RemoveFirst("EEG T7", "EEG ") == "T7";
    FindAbsent("T7", "-REF", 0);
    assert Cleaned("EEG t7") == "T7";
    assert TemporalRename("T7") == Some("T3");
    ConvertSingle("EEG t7", "T3");
  }

  lemma RemoveRefT1()
    ensures RemoveFirst("T1-REF", "-REF") == "T1"
  {
    var s := "T1-REF";
    assert s[0..4][0] != '-' && s[1..5][0] != '-';
    FindAt(s, "-REF", 2);
    assert s[..2] + s[6..] == "T1";
  }

  lemma CleanedT1Ref()
    ensures Cleaned("t1-REF") == "T1"
  {
    assert ToUpper("t1-REF") == "T1-REF";
    FindAbsent("T1-REF", "EEG ", 2);
    RemoveRefT1();
  }

  lemma ConvertT1Ref()
    ensures ConvertTxtChnName("t1-REF") == "T1"
  {
    CleanedT1Ref();
    assert TemporalRename("T1") == None;
    ConvertSingle("t1-REF", "T1");
  }

  /** Names from a montage text file, as the code converts them: single
      electrodes lose "EEG " and "-REF" and take their 10-20 names. */
  lemma ConvertTxtSingleExamples()
    ensures ConvertTxtChnName("t1") == "T1"
    ensures ConvertTxtChnName("EEG t7") == "T3"
    ensures ConvertTxtChnName("t1-REF") == "T1"
  {
    ConvertOneT1();
    ConvertEegT7();
    ConvertT1Ref();
  }

  /** A hyphenated name that is already upper case and has no "EEG " or "-REF". */
  lemma CleanedPair(a: string, b: string)
    requires '-' !in a && '-' !in b && 'E' !in a && 'E' !in b
    requires IsUpper(a) && IsUpper(b)
    ensures Cleaned(a + "-" + b) == a + "-" + b
    ensures Find(a + "-" + b, "-") != -1 && Split(a + "-" + b, '-') == [a, b]
  {
    var s := a + "-" + b;
    UpperIsIdempotent(s);
    assert IsUpper(s);
    assert 'E' !in s;
    FindAbsent(s, "EEG ", 0);
    FindAbsent(s, "-REF", 2);
    SplitPair(a, b);
  }

  /** The conversion of an upper-case hyphenated name with no "EEG " or "-REF". */
  lemma ConvertPair(a: string, b: string)
    requires '-' !in a && '-' !in b && 'E' !in a && 'E' !in b
    requires IsUpper(a) && IsUpper(b)
    ensures ConvertTxtChnName(a + "-" + b) ==
      (match TemporalRename(a) case Some(n) => n + "-" case None => "") +
      (match TemporalRename(b) case Some(n) => n case None => "")
  {
    CleanedPair(a, b);
  }

  /** ConvertPair for a given name s and expected result r. */
  lemma ConvertPairIs(a: string, b: string, s: string, r: string)
    requires '-' !in a && '-' !in b && 'E' !in a && 'E' !in b
    requires IsUpper(a) && IsUpper(b)
    requires s == a + "-" + b
    requires r == (match TemporalRename(a) case Some(n) => n + "-" case None => "") +
                  (match TemporalRename(b) case Some(n) => n case None => "")
    ensures ConvertTxtChnName(s) == r
  {
    ConvertPair(a, b);
  }

  lemma ConvertT7T7()
    ensures ConvertTxtChnName("T7-T7") == "T3-T3"
  {
    assert "T7" + "-" + "T7" == "T7-T7";
    assert TemporalRename("T7") == Some("T3") && TemporalRename("T7") == Some("T3");
    assert ("T3" + "-") + "T3" == "T3-T3";
    ConvertPairIs("T7", "T7", "T7-T7", "T3-T3");
  }

  lemma ConvertP7T7()
    ensures ConvertTxtChnName("P7-T7") == "T5-T3"
  {
    assert "P7" + "-" + "T7" == "P7-T7";
    assert TemporalRename("P7") == Some("T5") && TemporalRename("T7") == Some("T3");
    assert ("T5" + "-") + "T3" == "T5-T3";
    ConvertPairIs("P7", "T7", "P7-T7", "T5-T3");
  }

  lemma ConvertT7T1()
    ensures ConvertTxtChnName("T7-T1") == "T3-"
  {
    assert "T7" + "-" + "T1" == "T7-T1";
    assert TemporalRename("T7") == Some("T3") && TemporalRename("T1") == None;
    assert ("T3" + "-") + "" == "T3-";
    ConvertPairIs("T7", "T1", "T7-T1", "T3-");
  }

  lemma ConvertT1P7()
    ensures ConvertTxtChnName("T1-P7") == "T5"
  {
    assert "T1" + "-" + "P7" == "T1-P7";
    assert TemporalRename("T1") == None && TemporalRename("P7") == Some("T5");
    assert ("") + "T5" == "T5";
    ConvertPairIs("T1", "P7", "T1-P7", "T5");
  }

  lemma ConvertCzPz()
    ensures ConvertTxtChnName("CZ-PZ") == ""
  {
    assert "CZ" + "-" + "PZ" == "CZ-PZ";
    assert TemporalRename("CZ") == None && TemporalRename("PZ") == None;
    assert ("") + "" == "";
    ConvertPairIs("CZ", "PZ", "CZ-PZ", "");
  }

  /** Hyphenated names whose two electrodes are both renamed convert as the
      tests expect. */
  lemma ConvertTxtBothRenamed()
    ensures ConvertTxtChnName("T7-T7") == "T3-T3"
    ensures ConvertTxtChnName("P7-T7") == "T5-T3"
  {
    ConvertT7T7();
    ConvertP7T7();
  }

  /** An electrode that is not renamed disappears from a hyphenated name:
      "T7-T1" gives "T3-", "T1-P7" gives "T5" and "CZ-PZ" gives "". */
  lemma ConvertTxtDropsUnrenamed()
    ensures ConvertTxtChnName("T7-T1") == "T3-"
    ensures ConvertTxtChnName("T1-P7") == "T5"
    ensures ConvertTxtChnName("CZ-PZ") == ""
  {
    ConvertT7T1();
    ConvertT1P7();
    ConvertCzPz();
  }

  // ---------------------------------------------------------------------------
  // The canonical name of every channel

  /** The label list a montage check uses: bipolar 10-20 for (0, 0), average
      reference 10-20 for (1, 0), average reference 10-10 otherwise. */
  function MontageLabels(bipAr: int, mont1010: int): (r: seq<string>)
    ensures |r| > 0
  {
    if bipAr == 0 && mont1010 == 0 then BIP1020
    else if bipAr == 1 && mont1010 == 0 then AR1020
    else AR1010
  }

  /** The last label of the list that CheckLabel sends to channel i. */
  function LastTo(labels: seq<string>, d: Dict, i: int): (r: Option<string>)
    ensures r.Some? ==> r.value in labels && CheckLabel(r.value, d) == i
    ensures r.None? <==> forall k :: 0 <= k < |labels| ==> CheckLabel(labels[k], d) != i
  {
    if |labels| == 0 then None
    else if CheckLabel(labels[|labels| - 1], d) == i then Some(labels[|labels| - 1])
    else
      var r := LastTo(labels[..|labels| - 1], d, i);
      assert forall k :: 0 <= k < |labels| - 1 ==> labels[..|labels| - 1][k] == labels[k];
      r
  }

  /** The first label of the list that CheckLabel sends to channel i. */
  function FirstTo(labels: seq<string>, d: Dict, i: int): (r: Option<string>)
    ensures r.Some? ==> r.value in labels && CheckLabel(r.value, d) == i
    ensures r.None? <==> forall k :: 0 <= k < |labels| ==> CheckLabel(labels[k], d) != i
  {
    if |labels| == 0 then None
    else
      var r := FirstTo(labels[..|labels| - 1], d, i);
      assert forall k :: 0 <= k < |labels| - 1 ==> labels[..|labels| - 1][k] == labels[k];
      if r.Some? then r
      else if CheckLabel(labels[|labels| - 1], d) == i then Some(labels[|labels| - 1])
      else None
  }

  /** A slot holding s after the labels that CheckLabel sends to channel i
      are offered to it in order, each one taken only while the slot is empty. */
  function FillFirst(labels: seq<string>, d: Dict, i: int, s: string): (r: string)
    ensures r == s || (r in labels && CheckLabel(r, d) == i)
    ensures s != "" ==> r == s
  {
    if |labels| == 0 then s
    else
      var p := FillFirst(labels[..|labels| - 1], d, i, s);
      if p == "" && CheckLabel(labels[|labels| - 1], d) == i then labels[|labels| - 1] else p
  }

  /** An empty slot takes the first label sent to channel i when no label of the list is empty. */
  lemma {:induction false} FillFirstIsFirst(labels: seq<string>, d: Dict, i: int)
    requires "" !in labels
    ensures FillFirst(labels, d, i, "") == OrElse(FirstTo(labels, d, i), "")
    decreases |labels|
  {
    if |labels| > 0 {
      var init := labels[..|labels| - 1];
      assert "" !in init by {
        forall k | 0 <= k < |init|
          ensures init[k] != ""
        {
          assert init[k] == labels[k];
        }
      }
      FillFirstIsFirst(init, d, i);
    }
  }

  function OrElse(o: Option<string>, dflt: string): string
  {
    match o
    case Some(l) => l
    case None => dflt
  }

  /** The name channel i ends up with: the last bipolar 10-20 label sent to it;
      failing that, the first average-reference 10-20 label, then the first of
      the other electrode names; failing all, the channel's own label. */
  function Resolved(chns2labels: seq<string>, d: Dict, i: nat): string
    requires i < |chns2labels|
  {
    var s := FillFirst(OtherLabels, d, i, FillFirst(AR1020, d, i, OrElse(LastTo(BIP1020, d, i), "")));
    if s == "" then chns2labels[i] else s
  }

  /** Every channel is named either by a montage label that CheckLabel sends to
      it or, when none does, by its own label. A bipolar label sent to it
      always wins, and otherwise the first average-reference label does. */
  lemma ResolvedMeaning(chns2labels: seq<string>, d: Dict, i: nat)
    requires i < |chns2labels|
    ensures var n := Resolved(chns2labels, d, i);
      || (n in BIP1020 + AR1020 + OtherLabels && CheckLabel(n, d) == i)
      || n == chns2labels[i]
    ensures (forall l :: l in BIP1020 + AR1020 + OtherLabels ==> CheckLabel(l, d) != i) ==>
      Resolved(chns2labels, d, i) == chns2labels[i]
    ensures LastTo(BIP1020, d, i).Some? ==>
      Resolved(chns2labels, d, i) == LastTo(BIP1020, d, i).value
    ensures LastTo(BIP1020, d, i).None? && FirstTo(AR1020, d, i).Some? ==>
      Resolved(chns2labels, d, i) == FirstTo(AR1020, d, i).value
  {
    assert "" !in BIP1020;
    assert "" !in AR1020;
    var all := BIP1020 + AR1020 + OtherLabels;
    var b := OrElse(LastTo(BIP1020, d, i), "");
    if LastTo(BIP1020, d, i).None? {
      FillFirstIsFirst(AR1020, d, i);
    }
    var a := FillFirst(AR1020, d, i, b);
    var o := FillFirst(OtherLabels, d, i, a);
    if forall l :: l in all ==> CheckLabel(l, d) != i {
      assert forall k :: 0 <= k < |BIP1020| ==> BIP1020[k] in all;
      assert a == "" && o == "";
    }
  }

  class ChannelInfo {
    /** The label of each channel, by channel index. */
    var chns2labels: seq<string>
    /** The channel index of each label, in the file's order. */
    var labels2chns: Dict
    /** The canonical name of each channel, filled by ConvertChnNames. */
    var convertedChnNames: seq<string>
    /** The montage text files loaded so far: short name to stored labels. */
    var labelsFromTxtFile: map<string, seq<string>>
    /** The plotted channels: "Notes" first, then one label per plotted row. */
    var labelsToPlot: seq<string>
    /** The colour of each plotted row. */
    var colors: seq<string>
    /** The plotted signal rows. */
    var dataToPlot: seq<seq<real>>
    /** Whether the plotted channels were reordered by hand. */
    var organize: bool
    /** Whether the montage comes from a checked text file. */
    var useLoadedTxtFile: bool

    constructor ()
      ensures chns2labels == [] && labels2chns == [] && convertedChnNames == []
      ensures labelsFromTxtFile == map[]
      ensures labelsToPlot == [] && colors == [] && dataToPlot == [] && !organize && !useLoadedTxtFile
    {
      labelsToPlot, colors, dataToPlot, organize, useLoadedTxtFile := [], [], [], false, false;
      chns2labels := [];
      labels2chns := [];
      convertedChnNames := [];
      labelsFromTxtFile := map[];
    }

    /** Every channel index stored in the label dict names a channel. */
    predicate IndicesValid()
      reads this
    {
      forall j :: 0 <= j < |labels2chns| ==> 0 <= labels2chns[j].1 < |chns2labels|
    }

    /** convert_chn_names: one canonical name per channel. Callers reset the
        list of converted names before calling it. */
    method ConvertChnNames()
      requires convertedChnNames == []
      requires IndicesValid()
      modifies this`convertedChnNames
      ensures |convertedChnNames| == |chns2labels|
      ensures forall i :: 0 <= i < |chns2labels| ==>
        convertedChnNames[i] == Resolved(chns2labels, labels2chns, i)
    {
      convertedChnNames := ConvertNames(chns2labels, labels2chns);
    }

    /** can_do_bip_ar: 1 when every label of the chosen montage is among the
        converted names, 0 otherwise. */
    method CanDoBipAr(bipAr: int, mont1010: int) returns (ret: int)
      ensures ret == 0 || ret == 1
      ensures ret == 1 <==> forall l :: l in MontageLabels(bipAr, mont1010) ==> l in convertedChnNames
    {
      var labels := MontageLabels(bipAr, mont1010);
      ret := 1;
      for i := 0 to |labels|
        invariant ret == 0 || ret == 1
        invariant ret == 1 <==> forall k :: 0 <= k < i ==> labels[k] in convertedChnNames
      {
        if labels[i] !in convertedChnNames {
          ret := 0;
        }
      }
    }

    /** can_do_bip_ar_idx: 1 when every label of the chosen montage is the
        converted name of one of the given channels, 0 as soon as one is not. */
    method CanDoBipArIdx(idxs: seq<int>, bipAr: int, mont1010: int) returns (ret: int)
      requires forall k :: 0 <= k < |idxs| ==> 0 <= idxs[k] < |convertedChnNames|
      ensures ret == 0 || ret == 1
      ensures ret == 1 <==> forall l :: l in MontageLabels(bipAr, mont1010) ==>
        exists k :: 0 <= k < |idxs| && convertedChnNames[idxs[k]] == l
    {
      var labels := MontageLabels(bipAr, mont1010);
      ret := 0;
      var i := 0;
      while i < |labels|
        invariant 0 <= i <= |labels|
        invariant ret == (if i == 0 then 0 else 1)
        invariant forall m :: 0 <= m < i ==> exists k :: 0 <= k < |idxs| && convertedChnNames[idxs[k]] == labels[m]
      {
        ret := 0;
        for k := 0 to |idxs|
          invariant ret == 0 || ret == 1
          invariant ret == 1 <==> exists j :: 0 <= j < k && convertedChnNames[idxs[j]] == labels[i]
        {
          if labels[i] == convertedChnNames[idxs[k]] {
            ret := 1;
          }
        }
        if ret == 0 {
          assert labels[i] in labels;
          return ret;
        }
        i := i + 1;
      }
      assert forall l :: l in labels ==> exists m :: 0 <= m < |labels| && labels[m] == l;
    }

    /** get_chns: a 0/1 flag per channel, 1 where the converted name is one of
        the labels and no earlier channel has the same name. */
    method GetChns(labels: seq<string>) returns (r: seq<int>)
      ensures r == Selection(convertedChnNames, labels)
    {
      var names := convertedChnNames;
      var n := |names|;
      var ret := new int[n];
      for i := 0 to n
        invariant forall k :: 0 <= k < i ==> ret[k] == (if names[k] in labels then 1 else 0)
      {
        if names[i] in labels {
          ret[i] := 1;
        } else {
          ret[i] := 0;
        }
      }
      // Among channels of the same name only the first keeps its flag.
      for i := 0 to n
        invariant forall k :: 0 <= k < i ==> ret[k] == Selection(names, labels)[k]
        invariant forall k :: i <= k < n ==>
          ret[k] == (if names[k] in labels && forall j :: 0 <= j < i ==> names[j] != names[k] then 1 else 0)
      {
        if ret[i] != 0 {
          ghost var before := ret[..];
          for j := 0 to n
            invariant ret[i] == 1
            invariant forall k :: 0 <= k < n && k != i ==>
              ret[k] == (if i < k < j && names[k] == names[i] then 0 else before[k])
          {
            if i != j && names[i] == names[j] {
              // the later of the two channels loses its flag
              var later := if j > i then j else i;
              ret[later] := 0;
            }
          }
        }
      }
      r := ret[..];
    }
  }

  /** The passes of convert_chn_names over the channel labels and the label
      dict. */
  method ConvertNames(chns2labels: seq<string>, d: Dict) returns (conv: seq<string>)
    requires forall j :: 0 <= j < |d| ==> 0 <= d[j].1 < |chns2labels|
    ensures |conv| == |chns2labels|
    ensures forall i :: 0 <= i < |chns2labels| ==> conv[i] == Resolved(chns2labels, d, i)
  {
    var n := |chns2labels|;
    conv := [];
    while |conv| < n
      invariant |conv| <= n
      invariant forall i :: 0 <= i < |conv| ==> conv[i] == ""
    {
      conv := conv + [""];
    }
    // Bipolar names are written whatever the slot holds: the last one wins.
    conv := WriteAll(conv, BIP1020, d);
    // Average-reference and other names only fill empty slots: the first one wins.
    conv := FillEmpty(conv, AR1020, d);
    conv := FillEmpty(conv, OtherLabels, d);
    // Slots no montage label reached take the channel's own label.
    conv := FillOwn(conv, chns2labels);
  }

  /** The last loop of convert_chn_names: an empty slot takes the channel's
      own label. */
  method FillOwn(conv: seq<string>, chns2labels: seq<string>) returns (r: seq<string>)
    requires |conv| == |chns2labels|
    ensures |r| == |conv|
    ensures forall i :: 0 <= i < |conv| ==> r[i] == if conv[i] == "" then chns2labels[i] else conv[i]
  {
    r := conv;
    for k := 0 to |conv|
      invariant |r| == |conv|
      invariant forall i :: 0 <= i < k ==> r[i] == if conv[i] == "" then chns2labels[i] else conv[i]
      invariant forall i :: k <= i < |conv| ==> r[i] == conv[i]
    {
      if r[k] == "" {
        r := r[k := chns2labels[k]];
      }
    }
  }

  method WriteAll(conv: seq<string>, labels: seq<string>, d: Dict) returns (r: seq<string>)
    requires forall j :: 0 <= j < |d| ==> 0 <= d[j].1 < |conv|
    ensures |r| == |conv|
    ensures forall i :: 0 <= i < |conv| ==> r[i] == OrElse(LastTo(labels, d, i), conv[i])
  {
    r := conv;
    for k := 0 to |labels|
      invariant |r| == |conv|
      invariant forall i :: 0 <= i < |conv| ==> r[i] == OrElse(LastTo(labels[..k], d, i), conv[i])
    {
      var ret := CheckLabel(labels[k], d);
      assert labels[..k + 1][..k] == labels[..k];
      if ret != -1 {
        r := r[ret := labels[k]];
      }
    }
    assert labels[..|labels|] == labels;
  }

  /** The fill loop of convert_chn_names for labels that only fill empty slots. */
  method FillEmpty(conv: seq<string>, labels: seq<string>, d: Dict) returns (r: seq<string>)
    requires forall j :: 0 <= j < |d| ==> 0 <= d[j].1 < |conv|
    ensures |r| == |conv|
    ensures forall i :: 0 <= i < |conv| ==> r[i] == FillFirst(labels, d, i, conv[i])
  {
    r := conv;
    for k := 0 to |labels|
      invariant |r| == |conv|
      invariant forall i :: 0 <= i < |conv| ==> r[i] == FillFirst(labels[..k], d, i, conv[i])
    {
      var ret := CheckLabel(labels[k], d);
      assert labels[..k + 1][..k] == labels[..k];
      if ret != -1 {
        if r[ret] == "" {
          r := r[ret := labels[k]];
        }
      }
    }
    assert labels[..|labels|] == labels;
  }

  /** The flags get_chns computes: 1 at the first channel of each name that is
      one of the labels. */
  function Selection(names: seq<string>, labels: seq<string>): (r: seq<int>)
    ensures |r| == |names|
  {
    seq(|names|, k requires 0 <= k < |names| =>
      if names[k] in labels && forall j :: 0 <= j < k ==> names[j] != names[k] then 1 else 0)
  }

  /** Exactly one channel is selected for each label that names some channel,
      and no channel outside the labels is selected. */
  lemma SelectionCoversOnce(names: seq<string>, labels: seq<string>)
    ensures forall k :: 0 <= k < |names| && Selection(names, labels)[k] == 1 ==> names[k] in labels
    ensures forall l :: l in labels && l in names ==>
      exists k :: 0 <= k < |names| && names[k] == l && Selection(names, labels)[k] == 1
    ensures forall k, m :: 0 <= k < m < |names| && Selection(names, labels)[k] == 1 && Selection(names, labels)[m] == 1 ==>
      names[k] != names[m]
  {
    var r := Selection(names, labels);
    forall l | l in labels && l in names
      ensures exists k :: 0 <= k < |names| && names[k] == l && r[k] == 1
    {
      var k := FirstIndex(names, l);
      assert r[k] == 1;
    }
  }

  function FirstIndex(names: seq<string>, l: string): (k: nat)
    requires l in names
    ensures k < |names| && names[k] == l
    ensures forall j :: 0 <= j < k ==> names[j] != l
  {
    if names[0] == l then 0 else 1 + FirstIndex(names[1..], l)
  }
}
