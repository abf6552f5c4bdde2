/** The main window's own bookkeeping: the position and width of the visible
    window, the amplitude scale, new annotations, the "filtered" annotations
    written into a saved file and read back on load, the topoplot channel check
    and the validation of the command line. */
module Session {
  import opened Common
  import opened FilterSettings
  import opened Numbers
  import opened PlotUtils

  // ---------------------------------------------------------------------------
  // Texts of the "filtered" annotations

  /** The part of s before the first occurrence of sub (s.split(sub)[0]). */
  function BeforeSub(s: string, sub: string): (r: string)
    ensures |r| <= |s|
  {
    var k := Find(s, sub);
    if k == -1 then s else s[..k]
  }

  lemma BeforeHz(p: string)
    requires 'z' !in p
    ensures BeforeSub(p + "Hz", "Hz") == p
  {
    var s := p + "Hz";
    assert s[|p|..|p| + 2] == "Hz";
    assert OccursAt(s, "Hz", |p|);
    forall i | 0 <= i < |p|
      ensures !OccursAt(s, "Hz", i)
    {
      assert s[i + 1] != 'z' by {
        if i + 1 < |p| {
          assert s[i + 1] == p[i + 1];
        }
      }
      assert i + 2 <= |s| ==> s[i..i + 2][1] == s[i + 1];
    }
    var k := Find(s, "Hz");
    assert k == |p|;
    assert s[..k] == p;
  }

  /** str(do_x * x): the cutoff when its stage is on; when it is off, 0 for an
      int and 0.0 for a float, negative zero ("-0.0") for a negative float. */
  function WrittenText(on: bool, x: Num): (s: string)
    ensures NumberChars(s)
    ensures s[0] == '-' <==> Signed(on, x)
  {
    if on then Text(x)
    else match x
      case Int(_) => "0"
      case Float(m, _) => if m < 0 then "-0.0" else "0.0"
  }

  /** Whether the text written for a stage starts with a minus sign. */
  predicate Signed(on: bool, x: Num)
  {
    if on then Val(x) < 0.0 else x.Float? && x.m < 0
  }

  /** The value of do_x * x. */
  function WrittenVal(on: bool, x: Num): real
  {
    if on then Val(x) else 0.0
  }

  /** float(str(do_x * x)) == do_x * x. */
  lemma ParseWritten(on: bool, x: Num)
    ensures ParseFloat(WrittenText(on, x)).Some?
    ensures Val(ParseFloat(WrittenText(on, x)).value) == WrittenVal(on, x)
  {
    if on {
      ParseText(x);
    } else {
      ParseZeros();
    }
  }

  /** The three texts of a zero read back as zero. */
  lemma ParseZeros()
    ensures ParseFloat("0") == Some(Float(0, 0))
    ensures ParseFloat("0.0") == Some(Float(0, 1)) && ParseFloat("-0.0") == Some(Float(0, 1))
  {
    assert NatToString(0) == "0";
    assert IntText(0) == "0";
    ParseIntText(0);
    ReadFloatDigits(0, 0);
    assert FloatDigits(0, 0) == "0.0";
    FloatDigitsShape(0, 0);
    ParsePlain("0.0", (0, 1));
    ParseMinus("0.0", (0, 1));
    assert "-" + "0.0" == "-0.0";
  }

  /** A number's text without a leading minus holds no "-" and no "z". */
  lemma UnsignedChars(s: string)
    requires NumberChars(s) && s[0] != '-'
    ensures '-' !in s && 'z' !in s
  {
    assert forall i :: 0 <= i < |s| ==> s[i] != '-' && s[i] != 'z';
  }

  /** A number's text with a leading minus is that minus and a text with no
      "-" and no "z". */
  lemma SignedChars(s: string)
    requires NumberChars(s) && s[0] == '-'
    ensures s == "-" + s[1..] && '-' !in s[1..] && 'z' !in s[1..]
  {
    assert forall i :: 1 <= i < |s| ==> s[i] != '-' && s[i] != 'z';
    assert forall i :: 0 <= i < |s[1..]| ==> s[1..][i] == s[i + 1];
  }

  lemma NoZ(s: string)
    requires NumberChars(s)
    ensures 'z' !in s
  {
    assert forall i :: 0 <= i < |s| ==> s[i] != 'z';
  }

  /** The text of a "X: <value>Hz" annotation after its prefix, up to "Hz". */
  function HzField(text: string, prefix: nat): string
  {
    PySliceFrom(BeforeSub(text, "Hz"), prefix)
  }

  /** The first band edge of a "BP: <a>-<b>Hz" annotation: text.split("-")[0][4:]. */
  function BandFirst(text: string): string
  {
    PySliceFrom(Split(text, '-')[0], 4)
  }

  /** The second band edge: text.split("-")[1].split("Hz")[0]. */
  function BandSecond(text: string): string
    requires |Split(text, '-')| >= 2
  {
    BeforeSub(Split(text, '-')[1], "Hz")
  }

  /** One "X: <value>Hz" text gives back its value text. */
  lemma ReadHzText(prefix: string, t: string)
    requires NumberChars(t) && 'z' !in prefix
    ensures HzField(prefix + t + "Hz", |prefix|) == t
  {
    NoZ(t);
    assert forall i :: 0 <= i < |prefix + t| ==> (prefix + t)[i] != 'z' by {
      forall i | 0 <= i < |prefix + t|
        ensures (prefix + t)[i] != 'z'
      {
        if i < |prefix| { assert (prefix + t)[i] == prefix[i]; } else { assert (prefix + t)[i] == t[i - |prefix|]; }
      }
    }
    BeforeHz(prefix + t);
    assert (prefix + t)[|prefix|..] == t;
  }

  /** With both edges unsigned, the band text splits back into its two edges. */
  lemma ReadBandText(a: string, b: string)
    requires NumberChars(a) && NumberChars(b) && a[0] != '-' && b[0] != '-'
    ensures var t := "BP: " + a + "-" + b + "Hz";
      |Split(t, '-')| >= 2 && BandFirst(t) == a && BandSecond(t) == b
  {
    UnsignedChars(a);
    UnsignedChars(b);
    var p0, p1 := "BP: " + a, b + "Hz";
    assert forall i :: 0 <= i < |p0| ==> p0[i] != '-' by {
      forall i | 4 <= i < |p0|
        ensures p0[i] != '-'
      {
        assert p0[i] == a[i - 4];
      }
    }
    assert forall i :: 0 <= i < |p1| ==> p1[i] != '-' by {
      forall i | 0 <= i < |b|
        ensures p1[i] != '-'
      {
        assert p1[i] == b[i];
      }
    }
    assert "BP: " + a + "-" + b + "Hz" == p0 + ['-'] + p1;
    SplitTwo(p0, p1, '-');
    assert p0[4..] == a;
    BeforeHz(b);
  }

  /** A negative second edge leaves an empty second part: its text reads as
      nothing. */
  lemma ReadBandSignedSecond(a: string, b: string)
    requires NumberChars(a) && NumberChars(b) && a[0] != '-' && b[0] == '-'
    ensures var t := "BP: " + a + "-" + b + "Hz";
      |Split(t, '-')| >= 2 && BandFirst(t) == a && BandSecond(t) == ""
  {
    UnsignedChars(a);
    SignedChars(b);
    var p0, p2 := "BP: " + a, b[1..] + "Hz";
    assert forall i :: 0 <= i < |p0| ==> p0[i] != '-' by {
      forall i | 4 <= i < |p0|
        ensures p0[i] != '-'
      {
        assert p0[i] == a[i - 4];
      }
    }
    assert "BP: " + a + "-" + b + "Hz" == p0 + ['-'] + ("" + ['-'] + p2);
    SplitAfterPart(p0, "" + ['-'] + p2, '-');
    SplitAfterPart("", p2, '-');
    assert p0[4..] == a;
    assert Find("", "Hz") == -1;
  }

  /** A negative first edge leaves "BP: " as the first part: the first edge
      reads as nothing. */
  lemma ReadBandSignedFirst(a: string, b: string)
    requires NumberChars(a) && a[0] == '-'
    ensures var t := "BP: " + a + "-" + b + "Hz";
      |Split(t, '-')| >= 2 && BandFirst(t) == ""
  {
    var rest := a[1..] + "-" + b + "Hz";
    assert "BP: " + a + "-" + b + "Hz" == "BP: " + ['-'] + rest;
    SplitAfterPart("BP: ", rest, '-');
  }

  // ---------------------------------------------------------------------------
  // Saving and loading the "filtered" annotations

  /** The five annotations save_sig_to_edf puts in front of the others when the
      filter checkbox is on, each stage written as str(do_x * x). */
  function HeaderAnnotations(v: FilterValues): (r: seq<Annotation>)
    ensures |r| == 5 && forall i :: 0 <= i < 5 ==> r[i].onset == 0.0 && r[i].duration == -1.0
    ensures r[0].text == "filtered"
  {
    [Annotation(0.0, -1.0, "filtered"),
     Annotation(0.0, -1.0, "LP: " + WrittenText(v.doLp, v.lp) + "Hz"),
     Annotation(0.0, -1.0, "HP: " + WrittenText(v.doHp, v.hp) + "Hz"),
     Annotation(0.0, -1.0, "N: " + WrittenText(v.doNotch, v.notch) + "Hz"),
     Annotation(0.0, -1.0, "BP: " + WrittenText(v.doBp, v.bp1) + "-" + WrittenText(v.doBp, v.bp2) + "Hz")]
  }

  /** The annotation list of a saved file: five old "filtered" entries are
      dropped first, and fresh ones are put in front when the filter is on.
      Dropping from fewer than five entries raises. */
  function SaveAnnotations(anns: seq<Annotation>, filterChecked: bool, v: FilterValues): (r: Result<seq<Annotation>>)
    ensures r.Failure? <==> |anns| > 0 && anns[0].text == "filtered" && |anns| < 5
  {
    if |anns| > 0 && anns[0].text == "filtered" && |anns| < 5 then Failure("IndexError")
    else
      var kept := if |anns| > 0 && anns[0].text == "filtered" then anns[5..] else anns;
      Success(if filterChecked then HeaderAnnotations(v) + kept else kept)
  }

  /** What init_graph leaves in the fresh FilterInfo, and the exception that
      stopped it, if any. */
  datatype Loaded = Loaded(values: FilterValues, error: Option<string>)

  /** Reading the "filtered" annotations back in init_graph. All five texts are
      cut out first, so a missing annotation or a band text without "-" raises
      before anything is written. The stages are then read in order, each one
      written into the fresh FilterInfo before the next is read: a positive
      value switches its stage on with that value, anything else switches it
      off; the second band edge is read only when the first is positive. A text
      float() does not read raises, and the stages after it keep their
      defaults. */
  function LoadFilter(anns: seq<Annotation>): (r: Loaded)
    requires |anns| > 0 && anns[0].text == "filtered"
    ensures |anns| < 5 || |Split(anns[4].text, '-')| < 2 ==> r == Loaded(Defaults, Some("IndexError"))
  {
    if |anns| < 5 || |Split(anns[4].text, '-')| < 2 then Loaded(Defaults, Some("IndexError"))
    else ReadStages(HzField(anns[1].text, 4), HzField(anns[2].text, 4), HzField(anns[3].text, 3),
                    BandFirst(anns[4].text), BandSecond(anns[4].text))
  }

  /** A stage the reader got to: on exactly when its value is positive, and
      then holding that value; off, it keeps its default cutoff. */
  predicate Took(on: bool, x: Num, read: Num, dflt: Num)
  {
    (on <==> Val(read) > 0.0) && x == (if on then read else dflt)
  }

  /** The stage-by-stage reading of the five texts. */
  function ReadStages(strLp: string, strHp: string, strN: string, strBp1: string, strBp2: string): (r: Loaded)
    ensures var (lp, hp, n, bp1, bp2) := (ParseFloat(strLp), ParseFloat(strHp), ParseFloat(strN), ParseFloat(strBp1), ParseFloat(strBp2));
      var v := r.values;
      && (r.error.Some? ==> r.error == Some("ValueError"))
      && (lp.None? ==> r == Loaded(Defaults, Some("ValueError")))
      && (lp.Some? ==> Took(v.doLp, v.lp, lp.value, Defaults.lp))
      && (lp.Some? && hp.None? ==> r == Loaded(Defaults.(doLp := v.doLp, lp := v.lp), Some("ValueError")))
      && (lp.Some? && hp.Some? ==> Took(v.doHp, v.hp, hp.value, Defaults.hp))
      && (lp.Some? && hp.Some? && n.None? ==> r == Loaded(Defaults.(doLp := v.doLp, lp := v.lp, doHp := v.doHp, hp := v.hp), Some("ValueError")))
      && (lp.Some? && hp.Some? && n.Some? ==> Took(v.doNotch, v.notch, n.value, Defaults.notch))
      && (lp.Some? && hp.Some? && n.Some? ==>
            (r.error.None? <==> bp1.Some? && (Val(bp1.value) > 0.0 ==> bp2.Some?)))
      && (v.doBp <==> lp.Some? && hp.Some? && n.Some? && bp1.Some? && Val(bp1.value) > 0.0 && bp2.Some? && Val(bp2.value) > 0.0)
      && (v.bp1, v.bp2) == (if v.doBp then (bp1.value, bp2.value) else (Defaults.bp1, Defaults.bp2))
  {
    var d := Defaults;
    match ParseFloat(strLp)
    case None => Loaded(d, Some("ValueError"))
    case Some(lp) =>
      var d := if Val(lp) > 0.0 then d.(lp := lp) else d.(doLp := false);
      match ParseFloat(strHp)
      case None => Loaded(d, Some("ValueError"))
      case Some(hp) =>
        var d := if Val(hp) > 0.0 then d.(hp := hp) else d.(doHp := false);
        match ParseFloat(strN)
        case None => Loaded(d, Some("ValueError"))
        case Some(n) =>
          var d := if Val(n) > 0.0 then d.(doNotch := true, notch := n) else d.(doNotch := false);
          match ParseFloat(strBp1)
          case None => Loaded(d, Some("ValueError"))
          case Some(bp1) =>
            if Val(bp1) > 0.0 then
              match ParseFloat(strBp2)
              case None => Loaded(d, Some("ValueError"))
              case Some(bp2) =>
                Loaded(if Val(bp2) > 0.0 then d.(doBp := true, bp1 := bp1, bp2 := bp2) else d.(doBp := false), None)
            else Loaded(d.(doBp := false), None)
  }

  /** What loading gives back for v: a stage is on exactly when v has it on
      with a positive cutoff (the band when both edges are), with the same
      value; a stage that is off holds its default cutoff. */
  predicate Restores(r: FilterValues, v: FilterValues)
  {
    && (r.doLp <==> WrittenVal(v.doLp, v.lp) > 0.0) && (if r.doLp then Val(r.lp) == Val(v.lp) else r.lp == Defaults.lp)
    && (r.doHp <==> WrittenVal(v.doHp, v.hp) > 0.0) && (if r.doHp then Val(r.hp) == Val(v.hp) else r.hp == Defaults.hp)
    && (r.doNotch <==> WrittenVal(v.doNotch, v.notch) > 0.0)
    && (if r.doNotch then Val(r.notch) == Val(v.notch) else r.notch == Defaults.notch)
    && (r.doBp <==> WrittenVal(v.doBp, v.bp1) > 0.0 && WrittenVal(v.doBp, v.bp2) > 0.0)
    && (if r.doBp then Val(r.bp1) == Val(v.bp1) && Val(r.bp2) == Val(v.bp2)
        else r.bp1 == Defaults.bp1 && r.bp2 == Defaults.bp2)
  }

  /** A saved band that init_graph cannot read back: a negative first edge
      empties the first text, and a negative second edge after a positive
      first one empties the second. */
  predicate BandUnreadable(v: FilterValues)
  {
    Signed(v.doBp, v.bp1) || (WrittenVal(v.doBp, v.bp1) > 0.0 && Signed(v.doBp, v.bp2))
  }

  /** Each of the first three texts written for v gives back its value text. */
  lemma HeaderFields(v: FilterValues)
    ensures var h := HeaderAnnotations(v);
      && HzField(h[1].text, 4) == WrittenText(v.doLp, v.lp)
      && HzField(h[2].text, 4) == WrittenText(v.doHp, v.hp)
      && HzField(h[3].text, 3) == WrittenText(v.doNotch, v.notch)
  {
    ReadHzText("LP: ", WrittenText(v.doLp, v.lp));
    ReadHzText("HP: ", WrittenText(v.doHp, v.hp));
    ReadHzText("N: ", WrittenText(v.doNotch, v.notch));
  }

  /** The band text written for v: its two edges read back unless a minus
      sign is in the way, and then the edge that init_graph needs reads as
      nothing. */
  lemma BandField(v: FilterValues)
    ensures var t := HeaderAnnotations(v)[4].text;
      var (a, b) := (WrittenText(v.doBp, v.bp1), WrittenText(v.doBp, v.bp2));
      && |Split(t, '-')| >= 2
      && (Signed(v.doBp, v.bp1) ==> BandFirst(t) == "")
      && (!Signed(v.doBp, v.bp1) ==> BandFirst(t) == a)
      && (!Signed(v.doBp, v.bp1) && Signed(v.doBp, v.bp2) ==> BandSecond(t) == "")
      && (!Signed(v.doBp, v.bp1) && !Signed(v.doBp, v.bp2) ==> BandSecond(t) == b)
  {
    var a, b := WrittenText(v.doBp, v.bp1), WrittenText(v.doBp, v.bp2);
    if Signed(v.doBp, v.bp1) {
      ReadBandSignedFirst(a, b);
    } else if Signed(v.doBp, v.bp2) {
      ReadBandSignedSecond(a, b);
    } else {
      ReadBandText(a, b);
    }
  }

  /** Saving with the filter on and loading the saved file gives back every
      stage that was on with a positive cutoff, with that value, whatever the
      annotations of the file were. A band that cannot be read back raises a
      ValueError after the other three stages are restored. */
  lemma SaveLoadRoundTrip(anns: seq<Annotation>, v: FilterValues)
    requires SaveAnnotations(anns, true, v).Success?
    ensures var r := LoadFilter(SaveAnnotations(anns, true, v).value);
      if BandUnreadable(v) then r.error == Some("ValueError") && Restores(r.values, v.(doBp := false))
      else r.error.None? && Restores(r.values, v)
  {
    var saved := SaveAnnotations(anns, true, v).value;
    var h := HeaderAnnotations(v);
    assert forall i :: 0 <= i < 5 ==> saved[i] == h[i];
    HeaderFields(v);
    BandField(v);
    assert LoadFilter(saved) == ReadStages(WrittenText(v.doLp, v.lp), WrittenText(v.doHp, v.hp),
      WrittenText(v.doNotch, v.notch), BandFirst(h[4].text), BandSecond(h[4].text));
    ReadWrittenStages(v, BandFirst(h[4].text), BandSecond(h[4].text));
  }

  /** Reading the written texts back, given what the band text gives for its
      two edges. */
  lemma ReadWrittenStages(v: FilterValues, b1: string, b2: string)
    requires Signed(v.doBp, v.bp1) ==> b1 == ""
    requires !Signed(v.doBp, v.bp1) ==> b1 == WrittenText(v.doBp, v.bp1)
    requires !Signed(v.doBp, v.bp1) && Signed(v.doBp, v.bp2) ==> b2 == ""
    requires !Signed(v.doBp, v.bp1) && !Signed(v.doBp, v.bp2) ==> b2 == WrittenText(v.doBp, v.bp2)
    ensures var r := ReadStages(WrittenText(v.doLp, v.lp), WrittenText(v.doHp, v.hp), WrittenText(v.doNotch, v.notch), b1, b2);
      if BandUnreadable(v) then r.error == Some("ValueError") && Restores(r.values, v.(doBp := false))
      else r.error.None? && Restores(r.values, v)
  {
    ParseWritten(v.doLp, v.lp);
    ParseWritten(v.doHp, v.hp);
    ParseWritten(v.doNotch, v.notch);
    ParseWritten(v.doBp, v.bp1);
    ParseWritten(v.doBp, v.bp2);
    assert ParseFloat("").None?;
  }

  /** Saving a saved file again replaces its "filtered" annotations instead of
      adding a second set. */
  lemma SaveTwiceKeepsOneHeader(anns: seq<Annotation>, v: FilterValues, w: FilterValues)
    requires SaveAnnotations(anns, true, v).Success?
    ensures var once := SaveAnnotations(anns, true, v).value;
      SaveAnnotations(once, true, w) == SaveAnnotations(anns, true, w)
  {
    var once := SaveAnnotations(anns, true, v).value;
    assert once[5..] == if |anns| > 0 && anns[0].text == "filtered" then anns[5..] else anns;
  }

  /** Ints are saved without a point and floats with one: the default 30 Hz
      low-pass is written "LP: 30Hz", a 30.0 Hz one "LP: 30.0Hz". */
  lemma HeaderTextExample()
    ensures HeaderAnnotations(Defaults)[1].text == "LP: 30Hz"
    ensures HeaderAnnotations(Defaults.(lp := Float(30, 0)))[1].text == "LP: 30.0Hz"
  {
    WholeTextExamples();
  }

  /** A band from -5 Hz to 2 Hz is saved as "BP: -5.0-2.0Hz", which splits at
      both minus signs; the file does not load back. */
  lemma NegativeBandExample()
    ensures var v := Defaults.(doLp := false, doHp := false, doBp := true, bp1 := Float(-5, 0), bp2 := Float(2, 0));
      BandUnreadable(v) && LoadFilter(HeaderAnnotations(v)).error == Some("ValueError")
  {
    var v := Defaults.(doLp := false, doHp := false, doBp := true, bp1 := Float(-5, 0), bp2 := Float(2, 0));
    SaveLoadRoundTrip([], v);
    assert SaveAnnotations([], true, v).value == HeaderAnnotations(v);
  }

  /** A file saved with positive int low-pass, high-pass and notch cutoffs
      and no band loads back with the three stages on, holding the same
      numbers as floats, and the band off. */
  lemma IntsLoadAsFloats(lp: nat, hp: nat, n: nat)
    requires lp > 0 && hp > 0 && n > 0
    ensures LoadFilter(HeaderAnnotations(FilterValues(Int(lp), Int(hp), Int(n), Int(0), Int(0), true, true, true, false)))
      == Loaded(FilterValues(Float(lp, 0), Float(hp, 0), Float(n, 0), Int(0), Int(0), true, true, true, false), None)
  {
    var v := FilterValues(Int(lp), Int(hp), Int(n), Int(0), Int(0), true, true, true, false);
    LoadHeader(v);
    ParseIntText(lp);
    ParseIntText(hp);
    ParseIntText(n);
    ParseZeros();
    WholeVal(lp);
    WholeVal(hp);
    WholeVal(n);
    WholeVal(0);
    assert WrittenText(false, Int(0)) == "0";
    ReadThreeStages(IntText(lp), IntText(hp), IntText(n), "0", "0");
  }

  /** A header without minus signs in its band gives back the five written
      texts. */
  lemma LoadHeader(v: FilterValues)
    requires !Signed(v.doBp, v.bp1) && !Signed(v.doBp, v.bp2)
    ensures LoadFilter(HeaderAnnotations(v)) == ReadStages(WrittenText(v.doLp, v.lp), WrittenText(v.doHp, v.hp),
      WrittenText(v.doNotch, v.notch), WrittenText(v.doBp, v.bp1), WrittenText(v.doBp, v.bp2))
  {
    HeaderFields(v);
    BandField(v);
  }

  /** Three positive stages and a first band edge of zero: the three are on
      with their values and the band is off, with nothing raised. */
  lemma ReadThreeStages(strLp: string, strHp: string, strN: string, strBp1: string, strBp2: string)
    requires ParseFloat(strLp).Some? && Val(ParseFloat(strLp).value) > 0.0
    requires ParseFloat(strHp).Some? && Val(ParseFloat(strHp).value) > 0.0
    requires ParseFloat(strN).Some? && Val(ParseFloat(strN).value) > 0.0
    requires ParseFloat(strBp1).Some? && Val(ParseFloat(strBp1).value) == 0.0
    ensures ReadStages(strLp, strHp, strN, strBp1, strBp2)
      == Loaded(Defaults.(lp := ParseFloat(strLp).value, hp := ParseFloat(strHp).value,
                          doNotch := true, notch := ParseFloat(strN).value), None)
  {
  }

  // ---------------------------------------------------------------------------
  // The plot window

  /** The window's view of the recording: where the visible window starts
      (count, in seconds), its width, the amplitude scale, the annotations and
      the filter settings. */
  class Viewer {
    var count: int
    var windowSize: int
    var maxTime: int
    var nsamples: nat
    var fs: nat
    var slider: int
    var sliderMax: int
    var ylim0: int
    var ylim1: int
    var init: bool
    var filterChecked: bool
    var annotations: seq<Annotation>
    var fi: FilterInfo

    /** The state init_graph leaves for a loaded recording. */
    constructor (maxTime: int, nsamples: nat, fs: nat, windowSize: int, anns: seq<Annotation>)
      ensures this.maxTime == maxTime && this.nsamples == nsamples && this.fs == fs
      ensures this.windowSize == windowSize && annotations == anns
      ensures count == 0 && slider == 0 && sliderMax == maxTime - windowSize
      ensures ylim0 == 150 && ylim1 == 100 && AmpValid()
      ensures init && !filterChecked && fresh(fi) && fi.Values() == Defaults
    {
      this.maxTime, this.nsamples, this.fs := maxTime, nsamples, fs;
      this.windowSize, annotations := windowSize, anns;
      count, slider, sliderMax := 0, 0, maxTime - windowSize;
      ylim0, ylim1 := 150, 100;
      init, filterChecked := true, false;
      fi := new FilterInfo();
    }

    /** The window lies inside the recording. */
    predicate InRange()
      reads this
    {
      fs > 0 && 0 <= count && (count + windowSize) as real <= nsamples as real / fs as real
    }

    /** The amplitude scale keeps the 3:2 ratio of its start [150, 100] and
        stays between 45 and 255 in steps of 15. */
    predicate AmpValid()
      reads this
    {
      2 * ylim0 == 3 * ylim1 && 45 <= ylim0 <= 255 && ylim0 % 15 == 0
    }

    /** move_plot's update of count: left only when the window stays at or
        after 0, right only when it stays inside the recording. */
    method MovePlot(right: bool, numMove: nat)
      requires fs > 0
      modifies this`count, this`slider
      ensures !right && old(count) - numMove >= 0 ==> count == old(count) - numMove
      ensures right && (old(count) + numMove + windowSize) as real <= nsamples as real / fs as real ==>
        count == old(count) + numMove
      ensures (if right then (old(count) + numMove + windowSize) as real > nsamples as real / fs as real
               else old(count) - numMove < 0) ==> count == old(count)
      ensures slider == count
      ensures old(InRange()) ==> InRange()
    {
      if !right && count - numMove >= 0 {
        count := count - numMove;
      } else if right && (count + numMove + windowSize) as real <= nsamples as real / fs as real {
        count := count + numMove;
      }
      slider := count;
    }

    /** call_move_plot: moves only once a recording is shown. */
    method CallMovePlot(right: bool, numMove: nat)
      requires fs > 0
      modifies this`count, this`slider
      ensures !init ==> count == old(count) && slider == old(slider)
      ensures init && !right && old(count) - numMove >= 0 ==> count == old(count) - numMove
      ensures init && right && (old(count) + numMove + windowSize) as real <= nsamples as real / fs as real ==>
        count == old(count) + numMove
      ensures (if right then (old(count) + numMove + windowSize) as real > nsamples as real / fs as real
               else old(count) - numMove < 0) ==> count == old(count)
      ensures init ==> slider == count
      ensures old(InRange()) ==> InRange()
    {
      if init {
        MovePlot(right, numMove);
      }
    }

    /** slider_change: the window starts one second after the slider value,
        clamped, and then moves back one second; for a slider value inside the
        slider's range [0, max_time - ws] the window starts at that value. */
    method SliderChange(size: int)
      requires fs > 0
      modifies this`count, this`slider
      ensures !init ==> count == old(count) && slider == old(slider)
      ensures init && 0 <= size <= maxTime - windowSize ==> count == size
      ensures init && size > maxTime - windowSize ==>
        count == if maxTime - windowSize >= 1 then maxTime - windowSize - 1 else maxTime - windowSize
      ensures init && size < 0 && size <= maxTime - windowSize ==> count == size + 1
    {
      if init {
        count := size + 1;
        if count + windowSize > maxTime + 1 {
          count := maxTime - windowSize;
        }
        CallMovePlot(false, 1);
      }
    }

    /** chg_window_size: the combobox text "<n>s" sets the width; a window
        that would now run past the end is pulled back. */
    method ChgWindowSize(text: string) returns (err: Option<string>)
      requires fs > 0
      modifies this`windowSize, this`sliderMax, this`count, this`slider
      ensures init && ParseNat(Split(text, 's')[0]).Some? ==>
        var ws := ParseNat(Split(text, 's')[0]).value;
        && err.None? && windowSize == ws && sliderMax == maxTime - ws
        && count == (if old(count) > maxTime - ws then maxTime - ws else old(count))
      ensures init && ParseNat(Split(text, 's')[0]).None? ==> err.Some? && count == old(count) && windowSize == old(windowSize)
      ensures !init ==> err.None? && count == old(count) && windowSize == old(windowSize)
    {
      err := None;
      if init {
        var parsed := ParseNat(Split(text, 's')[0]);
        if parsed.None? {
          return Some("ValueError");
        }
        windowSize := parsed.value;
        sliderMax := maxTime - windowSize;
        if count > maxTime - windowSize {
          count := maxTime - windowSize;
        }
        CallMovePlot(false, 0);
      }
    }

    /** get_count: the "jump to" dialog's value, clamped so the window ends by
        max_time; nothing changes when the dialog is dismissed. */
    method GetCount(num: int, ok: bool)
      requires fs > 0
      modifies this`count, this`slider
      ensures init && ok ==> count == (if num > maxTime - windowSize then maxTime - windowSize else num)
      ensures !(init && ok) ==> count == old(count)
    {
      if init && ok {
        var n := num;
        if n > maxTime - windowSize {
          n := maxTime - windowSize;
        }
        count := n;
        CallMovePlot(false, 0);
      }
    }

    /** ann_clicked: the window jumps to the whole second of the chosen
        annotation, clamped so the window ends by max_time. */
    method AnnClicked(row: nat)
      requires fs > 0 && row < |annotations|
      modifies this`count, this`slider
      ensures count == if Second(annotations[row]) < maxTime - windowSize then Second(annotations[row]) else maxTime - windowSize
      ensures count <= maxTime - windowSize
    {
      var loc := Second(annotations[row]);
      if loc < maxTime - windowSize {
        count := loc;
      } else {
        count := maxTime - windowSize;
      }
      CallMovePlot(false, 0);
    }

    /** inc_amp: one step up in amplitude (a smaller scale), down to 45. */
    method IncAmp()
      modifies this`ylim0, this`ylim1
      ensures init && old(ylim0) > 50 ==> ylim0 == old(ylim0) - 15 && ylim1 == old(ylim1) - 10
      ensures !(init && old(ylim0) > 50) ==> ylim0 == old(ylim0) && ylim1 == old(ylim1)
      ensures old(AmpValid()) ==> AmpValid()
    {
      if init && ylim0 > 50 {
        ylim0 := ylim0 - 15;
        ylim1 := ylim1 - 10;
      }
    }

    /** dec_amp: one step down in amplitude (a larger scale), up to 255. */
    method DecAmp()
      modifies this`ylim0, this`ylim1
      ensures init && old(ylim0) < 250 ==> ylim0 == old(ylim0) + 15 && ylim1 == old(ylim1) + 10
      ensures !(init && old(ylim0) < 250) ==> ylim0 == old(ylim0) && ylim1 == old(ylim1)
      ensures old(AmpValid()) ==> AmpValid()
    {
      if init && ylim0 < 250 {
        ylim0 := ylim0 + 15;
        ylim1 := ylim1 + 10;
      }
    }

    /** ann_editor_create: a non-empty text becomes an annotation at second loc,
        inserted before the first annotation whose whole second is after loc. */
    method AnnEditorCreate(text: string, loc: int, dur: real)
      modifies this`annotations
      ensures |text| == 0 ==> annotations == old(annotations)
      ensures |text| > 0 ==> annotations == InsertAnnotation(old(annotations), Annotation(loc as real, dur, text))
    {
      if |text| > 0 {
        var i := 0;
        while i < |annotations|
          invariant 0 <= i <= |annotations|
          invariant forall k :: 0 <= k < i ==> Second(annotations[k]) <= loc
        {
          if Second(annotations[i]) > loc {
            break;
          }
          i := i + 1;
        }
        InsertAt(annotations, Annotation(loc as real, dur, text), i);
        annotations := annotations[..i] + [Annotation(loc as real, dur, text)] + annotations[i..];
      }
    }

    /** init_graph's filter settings: a file whose first annotation is
        "filtered" turns the filter on and restores the saved settings, as far
        as init_graph gets before an exception; any other file takes the
        command-line filter, turned on only when its first entry is 1 and some
        stage is on. */
    method InitFilter(argFilter: ArgFilter) returns (err: Option<string>)
      modifies this`fi, this`filterChecked
      ensures fresh(fi)
      ensures |annotations| > 0 && annotations[0].text == "filtered" ==>
        var r := LoadFilter(annotations);
        filterChecked && fi.Values() == r.values && err == r.error
      ensures !(|annotations| > 0 && annotations[0].text == "filtered") ==>
        err.None? && fi.Values() == FromArgs(argFilter) && filterChecked == FilterFromArgs(argFilter)
    {
      fi := new FilterInfo();
      filterChecked := false;
      err := None;
      if |annotations| > 0 && annotations[0].text == "filtered" {
        filterChecked := true;
        var r := LoadFilter(annotations);
        fi.Assign(r.values);
        err := r.error;
      } else {
        fi.Assign(FromArgs(argFilter));
        filterChecked := FilterFromArgs(argFilter);
      }
    }
  }

  /** --filter: whether to filter, then low-pass, high-pass, notch and the two
      band edges; floats when given on the command line, the ints 0, 30, 2, 0,
      0, 0 by default. */
  datatype ArgFilter = ArgFilter(apply: Num, lp: Num, hp: Num, notch: Num, bp1: Num, bp2: Num)

  /** The settings taken from the command line: each cutoff as given, and a
      stage on when its value is not 0 (the band when both edges are not). */
  function FromArgs(a: ArgFilter): (v: FilterValues)
    ensures v.doLp <==> Val(a.lp) != 0.0
    ensures v.doHp <==> Val(a.hp) != 0.0
    ensures v.doNotch <==> Val(a.notch) != 0.0
    ensures v.doBp <==> Val(a.bp1) != 0.0 && Val(a.bp2) != 0.0
    ensures v.lp == a.lp && v.hp == a.hp && v.notch == a.notch && v.bp1 == a.bp1 && v.bp2 == a.bp2
  {
    FilterValues(a.lp, a.hp, a.notch, a.bp1, a.bp2,
                 Val(a.lp) != 0.0, Val(a.hp) != 0.0, Val(a.notch) != 0.0, Val(a.bp1) != 0.0 && Val(a.bp2) != 0.0)
  }

  /** Whether the command line turns the filter checkbox on: its first entry
      is 1 and some stage is on. */
  function FilterFromArgs(a: ArgFilter): (on: bool)
    ensures on <==> (Val(a.apply) == 1.0 &&
      (Val(a.lp) != 0.0 || Val(a.hp) != 0.0 || Val(a.notch) != 0.0 || (Val(a.bp1) != 0.0 && Val(a.bp2) != 0.0)))
  {
    var v := FromArgs(a);
    (v.doLp || v.doHp || v.doNotch || v.doBp) && Val(a.apply) == 1.0
  }

  /** The default --filter leaves the checkbox off with low-pass 30 Hz and
      high-pass 2 Hz on, as a fresh FilterInfo has them. */
  lemma DefaultArgsExample()
    ensures var a := ArgFilter(Int(0), Int(30), Int(2), Int(0), Int(0), Int(0));
      !FilterFromArgs(a) && FromArgs(a) == Defaults.(notch := Int(0))
  {
  }

  /** The list after inserting a before the first annotation whose whole second
      is after a's. */
  function InsertAnnotation(anns: seq<Annotation>, a: Annotation): (r: seq<Annotation>)
    ensures |r| == |anns| + 1
  {
    if |anns| == 0 then [a]
    else if Second(anns[0]) > Second(a) then [a] + anns
    else [anns[0]] + InsertAnnotation(anns[1..], a)
  }

  /** Inserting adds the new annotation and loses none of the others. */
  lemma {:induction false} InsertIsPermutation(anns: seq<Annotation>, a: Annotation)
    ensures multiset(InsertAnnotation(anns, a)) == multiset(anns) + multiset{a}
    decreases |anns|
  {
    if |anns| > 0 && Second(anns[0]) <= Second(a) {
      InsertIsPermutation(anns[1..], a);
      assert anns == [anns[0]] + anns[1..];
    }
  }

  /** The loop's position is where InsertAnnotation puts the new annotation. */
  lemma {:induction false} InsertAt(anns: seq<Annotation>, a: Annotation, i: nat)
    requires i <= |anns|
    requires forall k :: 0 <= k < i ==> Second(anns[k]) <= Second(a)
    requires i == |anns| || Second(anns[i]) > Second(a)
    ensures InsertAnnotation(anns, a) == anns[..i] + [a] + anns[i..]
    decreases i
  {
    if i > 0 {
      var tail := anns[1..];
      assert Second(anns[0]) <= Second(a);
      assert InsertAnnotation(anns, a) == [anns[0]] + InsertAnnotation(tail, a);
      forall k | 0 <= k < i - 1
        ensures Second(tail[k]) <= Second(a)
      {
        assert tail[k] == anns[k + 1];
      }
      assert i - 1 < |tail| ==> tail[i - 1] == anns[i];
      InsertAt(tail, a, i - 1);
      assert tail[..i - 1] == anns[1..i];
      assert tail[i - 1..] == anns[i..];
      assert anns[..i] == [anns[0]] + anns[1..i];
      calc {
        InsertAnnotation(anns, a);
        [anns[0]] + (anns[1..i] + [a] + anns[i..]);
        ([anns[0]] + anns[1..i]) + [a] + anns[i..];
      }
    } else {
      assert anns[i..] == anns;
    }
  }

  predicate SortedBySecond(anns: seq<Annotation>)
  {
    forall i, j :: 0 <= i < j < |anns| ==> Second(anns[i]) <= Second(anns[j])
  }

  /** Inserting keeps a list ordered by whole seconds ordered. */
  lemma {:induction false} InsertKeepsSorted(anns: seq<Annotation>, a: Annotation)
    requires SortedBySecond(anns)
    ensures SortedBySecond(InsertAnnotation(anns, a))
    decreases |anns|
  {
    if |anns| > 0 && Second(anns[0]) <= Second(a) {
      InsertKeepsSorted(anns[1..], a);
      var r := InsertAnnotation(anns[1..], a);
      InsertIsPermutation(anns[1..], a);
      forall j | 0 <= j < |r|
        ensures Second(anns[0]) <= Second(r[j])
      {
        assert r[j] in multiset(r);
        if r[j] != a {
          assert r[j] in multiset(anns[1..]);
          var k :| 0 <= k < |anns[1..]| && anns[1..][k] == r[j];
          assert anns[k + 1] == r[j];
        }
      }
    }
  }

  // ---------------------------------------------------------------------------
  // check_topo_chns

  /** Every label other than "Notes" is one of the montage's labels. */
  predicate AllIn(labels: seq<string>, montage: seq<string>)
  {
    forall i :: 0 <= i < |labels| && labels[i] != "Notes" ==> labels[i] in montage
  }

  /** check_topo_chns: 1 when the plotted channels are all 10-20 bipolar
      channels or all 10-20 average-reference channels. */
  method CheckTopoChns(labels: seq<string>, bip1020: seq<string>, ar1020: seq<string>) returns (ret: int)
    ensures ret == 1 <==> AllIn(labels, bip1020) || AllIn(labels, ar1020)
    ensures ret == 0 || ret == 1
  {
    ret := 1;
    for k := 0 to |labels|
      invariant ret == 1 <==> AllIn(labels[..k], bip1020)
      invariant ret == 0 || ret == 1
    {
      if labels[k] !in bip1020 && labels[k] != "Notes" {
        ret := 0;
      }
      assert labels[..k + 1] == labels[..k] + [labels[k]];
    }
    assert labels[..|labels|] == labels;
    if ret == 0 {
      ret := 1;
    } else {
      return ret;
    }
    for k := 0 to |labels|
      invariant ret == 1 <==> AllIn(labels[..k], ar1020)
      invariant ret == 0 || ret == 1
    {
      if labels[k] !in ar1020 && labels[k] != "Notes" {
        ret := 0;
      }
      assert labels[..k + 1] == labels[..k] + [labels[k]];
    }
    assert labels[..|labels|] == labels;
  }

  // ---------------------------------------------------------------------------
  // check_args

  /** The command-line arguments check_args looks at. */
  datatype Args = Args(show: int, fn: Option<string>, montageFile: Option<string>,
                       predictionsFile: Option<string>, predictionThresh: real,
                       lineThickness: Option<real>, fontSize: Option<int>)

  /** Accepted arguments name both the recording and the montage file or
      neither (both when not shown), name existing files, a ".txt" montage, a
      ".pt" prediction file, a threshold in [0, 1], a line thickness in
      [0.1, 3], and a font size of at least 5 only together with a line
      thickness. */
  predicate ArgsAccepted(a: Args, pathExists: string -> bool)
  {
    && NamesGiven(a)
    && FilesFound(a, pathExists)
    && ValuesInRange(a)
  }

  predicate NamesGiven(a: Args)
  {
    && (a.fn.Some? <==> a.montageFile.Some?)
    && (a.show == 0 ==> a.fn.Some?)
  }

  predicate FilesFound(a: Args, pathExists: string -> bool)
  {
    && (a.fn.Some? ==> pathExists(a.fn.value))
    && (a.montageFile.Some? ==> pathExists(a.montageFile.value) && EndsWith(a.montageFile.value, ".txt"))
    && (a.predictionsFile.Some? ==> pathExists(a.predictionsFile.value) && EndsWith(a.predictionsFile.value, ".pt"))
  }

  predicate ValuesInRange(a: Args)
  {
    && 0.0 <= a.predictionThresh <= 1.0
    && (a.lineThickness.Some? ==> 0.1 <= a.lineThickness.value <= 3.0)
    && (a.fontSize.Some? ==> a.fontSize.value >= 5 && a.lineThickness.Some?)
  }

  /** The suffix test of check_args on an optional path. */
  lemma SuffixTest(path: Option<string>, suffix: string)
    requires |suffix| > 0
    ensures path.Some? ==>
      (PySliceFrom(path.value, |path.value| - |suffix|) == suffix <==> EndsWith(path.value, suffix))
  {
    if path.Some? {
      SuffixSliceIsEndsWith(path.value, suffix);
    }
  }

  /** check_args: None when the arguments are accepted, else the reason of the
      first exception raised; `pathExists` stands for the file system. The
      checks run in three groups: which names are given, whether the files
      exist with the right suffix, and the numeric ranges. */
  function CheckArgs(a: Args, pathExists: string -> bool): (r: Option<string>)
    ensures r.None? <==> ArgsAccepted(a, pathExists)
  {
    var names := MissingName(a);
    if names.Some? then names
    else
      var files := FileProblem(a, pathExists);
      if files.Some? then files else RangeProblem(a)
  }

  function MissingName(a: Args): (r: Option<string>)
    ensures r.None? <==> NamesGiven(a)
  {
    if a.show == 0 && a.fn.None? then Some("--fn must be specified")
    else if a.show == 0 && a.montageFile.None? then Some("--montage-file must be specified")
    else if a.fn.Some? && a.montageFile.None? then Some("--montage-file must be specified if --fn is specified")
    else if a.fn.None? && a.montageFile.Some? then Some("--fn must be specified if --montage-file is specified")
    else None
  }

  function FileProblem(a: Args, pathExists: string -> bool): (r: Option<string>)
    ensures r.None? <==> FilesFound(a, pathExists)
  {
    SuffixTest(a.montageFile, ".txt");
    SuffixTest(a.predictionsFile, ".pt");
    if a.fn.Some? && !pathExists(a.fn.value) then Some("The --fn that you specifed does not exist.")
    else if a.montageFile.Some? && !pathExists(a.montageFile.value) then Some("The --montage-file that you specifed does not exist.")
    else if a.montageFile.Some? && PySliceFrom(a.montageFile.value, |a.montageFile.value| - 4) != ".txt" then
      Some("The --montage-file must be a .txt file.")
    else if a.predictionsFile.Some? && !pathExists(a.predictionsFile.value) then
      Some("The --predictions_file that you specifed does not exist.")
    else if a.predictionsFile.Some? && PySliceFrom(a.predictionsFile.value, |a.predictionsFile.value| - 3) != ".pt" then
      Some("The --predictions_file must be a .pt file.")
    else None
  }

  /** The range checks; a font size of at least 5 without a line thickness
      compares None with a number and raises TypeError. */
  function RangeProblem(a: Args): (r: Option<string>)
    ensures r.None? <==> ValuesInRange(a)
  {
    if !(0.0 <= a.predictionThresh <= 1.0) then Some("The --prediction-thresh must be between 0 and 1.")
    else if a.lineThickness.Some? && (a.lineThickness.value < 0.1 || a.lineThickness.value > 3.0) then
      Some("Please choose a line thickness between 0.1 and 3.")
    else if a.fontSize.Some? && a.fontSize.value >= 5 && a.lineThickness.None? then
      Some("TypeError")
    else if a.fontSize.Some? && (a.fontSize.value < 5 || a.lineThickness.value > 20.0) then
      Some("Please choose a font size between 5 and 20.")
    else None
  }

  /** The upper font-size bound tests the line thickness, so a font size of 100
      is accepted. */
  lemma LargeFontAccepted(pathExists: string -> bool)
    ensures CheckArgs(Args(1, None, None, None, 0.5, Some(0.5), Some(100)), pathExists).None?
  {
  }
}
