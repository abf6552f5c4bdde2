/** The helpers of the main plotting window: the annotations of a window and
    their adjacency marks, the filtering pass over every channel, and the
    conversion of a position in seconds to hours, minutes and seconds. */
module PlotUtils {
  import opened Common
  import opened FilterSettings
  import opened Numbers

  // ---------------------------------------------------------------------------
  // check_annotations

  /** One EDF annotation: onset and duration in seconds, and its text. */
  datatype Annotation = Annotation(onset: real, duration: real, text: string)

  /** int(float(onset)): the whole second an annotation falls in. */
  function Second(a: Annotation): int
  {
    Trunc(a.onset)
  }

  /** The window covers the seconds tStart .. tStart+ws-1. */
  predicate InWindow(a: Annotation, tStart: int, ws: nat)
  {
    tStart <= Second(a) <= tStart + ws - 1
  }

  /** The scan of check_annotations from index i: annotations before the
      window are skipped, those inside are kept, and the scan stops at the
      first one past the window. */
  function ScanFrom(anns: seq<Annotation>, tStart: int, ws: nat, i: nat): (r: seq<Annotation>)
    requires i <= |anns|
    ensures forall k :: 0 <= k < |r| ==> InWindow(r[k], tStart, ws)
    decreases |anns| - i
  {
    if i == |anns| then []
    else if Second(anns[i]) > tStart + ws - 1 then []
    else (if Second(anns[i]) >= tStart then [anns[i]] else []) + ScanFrom(anns, tStart, ws, i + 1)
  }

  /** The annotations check_annotations returns. */
  function WindowAnnotations(anns: seq<Annotation>, tStart: int, ws: nat): seq<Annotation>
  {
    ScanFrom(anns, tStart, ws, 0)
  }

  /** The annotations of a window, by definition: all of those inside it, in stored order. */
  function InWindowOnly(anns: seq<Annotation>, tStart: int, ws: nat): seq<Annotation>
  {
    if |anns| == 0 then []
    else (if InWindow(anns[0], tStart, ws) then [anns[0]] else []) + InWindowOnly(anns[1..], tStart, ws)
  }

  predicate SortedByOnset(anns: seq<Annotation>)
  {
    forall i, j :: 0 <= i < j < |anns| ==> anns[i].onset <= anns[j].onset
  }

  lemma TruncMono(x: real, y: real)
    requires x <= y
    ensures Trunc(x) <= Trunc(y)
  {
  }

  /** No annotation of a list whose every onset is past the window is in it. */
  lemma {:induction false} NoneInWindow(anns: seq<Annotation>, tStart: int, ws: nat)
    requires forall k :: 0 <= k < |anns| ==> Second(anns[k]) > tStart + ws - 1
    ensures InWindowOnly(anns, tStart, ws) == []
    decreases |anns|
  {
    if |anns| > 0 {
      NoneInWindow(anns[1..], tStart, ws);
    }
  }

  lemma {:induction false} ScanFromSorted(anns: seq<Annotation>, tStart: int, ws: nat, i: nat)
    requires i <= |anns| && SortedByOnset(anns)
    ensures ScanFrom(anns, tStart, ws, i) == InWindowOnly(anns[i..], tStart, ws)
    decreases |anns| - i
  {
    if i < |anns| {
      var rest := anns[i..];
      assert rest[1..] == anns[i + 1..];
      if Second(anns[i]) > tStart + ws - 1 {
        forall k | 0 <= k < |rest|
          ensures Second(rest[k]) > tStart + ws - 1
        {
          TruncMono(anns[i].onset, rest[k].onset);
        }
        NoneInWindow(rest, tStart, ws);
      } else {
        ScanFromSorted(anns, tStart, ws, i + 1);
      }
    }
  }

  /** With annotations sorted by onset, check_annotations returns exactly those
      whose whole second lies in the window, in stored order. */
  lemma WindowAnnotationsSorted(anns: seq<Annotation>, tStart: int, ws: nat)
    requires SortedByOnset(anns)
    ensures WindowAnnotations(anns, tStart, ws) == InWindowOnly(anns, tStart, ws)
  {
    ScanFromSorted(anns, tStart, ws, 0);
    assert anns[0..] == anns;
  }

  /** idx_w_ann before smoothing: second k of the window is marked when a
      returned annotation falls in it. */
  function Marked(ret: seq<Annotation>, tStart: int, ws: nat): (m: seq<bool>)
    ensures |m| == ws
  {
    seq(ws, k requires 0 <= k < ws => exists j :: 0 <= j < |ret| && Second(ret[j]) == tStart + k)
  }

  lemma MarkedSnoc(ret: seq<Annotation>, a: Annotation, tStart: int, ws: nat)
    requires InWindow(a, tStart, ws)
    ensures Marked(ret + [a], tStart, ws) == Marked(ret, tStart, ws)[Second(a) - tStart := true]
  {
    var m, m' := Marked(ret, tStart, ws), Marked(ret + [a], tStart, ws);
    forall k | 0 <= k < ws
      ensures m'[k] == m[Second(a) - tStart := true][k]
    {
      if m[k] {
        var j :| 0 <= j < |ret| && Second(ret[j]) == tStart + k;
        assert (ret + [a])[j] == ret[j];
      }
      if m'[k] && k != Second(a) - tStart {
        var j :| 0 <= j < |ret + [a]| && Second((ret + [a])[j]) == tStart + k;
        assert j < |ret| && (ret + [a])[j] == ret[j];
      }
      if k == Second(a) - tStart {
        assert (ret + [a])[|ret|] == a;
      }
    }
  }

  /** The smoothing pass: in a window of more than one second a mark stays
      only when a neighbouring second is marked too; a one-second window is
      left as it is. */
  function Smoothed(m: seq<bool>): (r: seq<bool>)
    ensures |r| == |m|
  {
    if |m| <= 1 then m
    else seq(|m|, k requires 0 <= k < |m| => m[k] && ((k > 0 && m[k - 1]) || (k + 1 < |m| && m[k + 1])))
  }

  /** Smoothing only clears marks, clears every isolated mark, and a second
      pass changes nothing. */
  lemma SmoothedProperties(m: seq<bool>)
    ensures forall k :: 0 <= k < |m| && Smoothed(m)[k] ==> m[k]
    ensures |m| > 1 ==> forall k :: 0 <= k < |m| && m[k] ==>
      (Smoothed(m)[k] <==> (k > 0 && m[k - 1]) || (k + 1 < |m| && m[k + 1]))
    ensures Smoothed(Smoothed(m)) == Smoothed(m)
  {
    var s := Smoothed(m);
    if |m| > 1 {
      assert forall k :: 0 <= k < |m| && s[k] && k > 0 && m[k - 1] ==> s[k - 1];
      assert forall k :: 0 <= k < |m| && s[k] && k + 1 < |m| && m[k + 1] ==> s[k + 1];
    }
  }

  /** The in-place smoothing loop of check_annotations gives Smoothed: a mark
      cleared at second i-1 had no marked neighbour, so second i was unmarked
      and the cleared value never decides anything. */
  method SmoothInPlace(idx: array<bool>)
    modifies idx
    ensures idx[..] == Smoothed(old(idx[..]))
  {
    ghost var m := idx[..];
    var ws := idx.Length;
    if ws > 1 {
      if !(idx[0] && idx[1]) {
        idx[0] := false;
      }
      var i := 1;
      while i < ws - 1
        invariant 1 <= i <= ws - 1
        invariant forall k :: 0 <= k < i ==> idx[k] == Smoothed(m)[k]
        invariant forall k :: i <= k < ws ==> idx[k] == m[k]
      {
        if !((idx[i - 1] || idx[i + 1]) && idx[i]) {
          idx[i] := false;
        }
        i := i + 1;
      }
      if !idx[ws - 2] && idx[ws - 1] {
        idx[ws - 1] := false;
      }
    }
  }

  /** check_annotations over the annotations of the file: the annotations of
      the window and the smoothed marks of the seconds they fall in. */
  method CheckAnnotations(tStart: int, ws: nat, anns: seq<Annotation>) returns (ret: seq<Annotation>, marks: seq<bool>)
    ensures ret == WindowAnnotations(anns, tStart, ws)
    ensures marks == Smoothed(Marked(ret, tStart, ws))
  {
    var tEnd := tStart + ws - 1;
    var idx := new bool[ws](_ => false);
    ret := [];
    if |anns| == 0 {
      marks := idx[..];
      assert marks == Marked(ret, tStart, ws);
      assert Smoothed(marks) == marks;
      return;
    }
    var annI := Second(anns[0]);
    var i := 0;
    while annI <= tEnd && i < |anns|
      invariant 0 <= i <= |anns|
      invariant annI <= tEnd || i == 0
      invariant ret + ScanFrom(anns, tStart, ws, i) == WindowAnnotations(anns, tStart, ws)
      invariant idx[..] == Marked(ret, tStart, ws)
      decreases |anns| - i
    {
      var s := Second(anns[i]);
      if s >= tStart && s <= tEnd {
        MarkedSnoc(ret, anns[i], tStart, ws);
        assert ret + [anns[i]] + ScanFrom(anns, tStart, ws, i + 1) == ret + ScanFrom(anns, tStart, ws, i);
        ret := ret + [anns[i]];
        idx[s - tStart] := true;
        i := i + 1;
      } else if s <= tEnd {
        i := i + 1;
      } else {
        i := |anns|;
      }
    }
    assert ScanFrom(anns, tStart, ws, i) == [];
    assert ret == WindowAnnotations(anns, tStart, ws);
    SmoothInPlace(idx);
    marks := idx[..];
  }

  /** Annotations at seconds 2, 3 and 9 of the window 0..9: all three are
      returned, and only the adjacent marks 2 and 3 survive smoothing. */
  method AdjacentMarksExample() returns (ret: seq<Annotation>, marks: seq<bool>)
    ensures |ret| == 3 && |marks| == 10
    ensures forall k :: 0 <= k < 10 ==> (marks[k] <==> k == 2 || k == 3)
  {
    var a2, a3, a9 := Annotation(2.0, -1.0, "test2"), Annotation(3.0, -1.0, "test3"), Annotation(9.0, -1.0, "test9");
    var anns := [a2, a3, a9];
    ret, marks := CheckAnnotations(0, 10, anns);
    assert Second(a2) == 2 && Second(a3) == 3 && Second(a9) == 9;
    assert ScanFrom(anns, 0, 10, 3) == [];
    assert ScanFrom(anns, 0, 10, 2) == [a9];
    assert ScanFrom(anns, 0, 10, 1) == [a3, a9];
    assert ret == anns;
    var m := Marked(anns, 0, 10);
    assert Second(anns[0]) == 2 && Second(anns[1]) == 3 && Second(anns[2]) == 9;
    assert m[2] && m[3] && m[9];
    forall k | 0 <= k < 10 && k != 2 && k != 3 && k != 9
      ensures !m[k]
    {
    }
  }

  // ---------------------------------------------------------------------------
  // filter_data

  type Signal = seq<real>

  /** The four filter stages of the dsp module, taken as given functions of
      the signal, the sampling rate and the cutoff(s). */
  datatype Dsp = Dsp(
    notch: (Signal, real, real) -> Signal,
    lowPass: (Signal, real, real) -> Signal,
    highPass: (Signal, real, real) -> Signal,
    bandPass: (Signal, real, real, real) -> Signal)

  /** The cutoffs filter_data uses after sanitising; 0 switches a stage off. */
  datatype Cutoffs = Cutoffs(lp: real, hp: real, bp1: real, bp2: real, notch: real)

  /** The sanitising step of filter_data: a cutoff is zeroed when its toggle is
      off or it lies outside [0, fs/2]; the band is zeroed unless bp2 > bp1.
      The upper band edge is compared with fs/2 only through bp1, as written. */
  function Sanitized(fs: real, lp: real, hp: real, bp1: real, bp2: real, notch: real,
                     doLp: bool, doHp: bool, doBp: bool, doNotch: bool): Cutoffs
  {
    var lp' := if !doLp || lp < 0.0 || lp > fs / 2.0 then 0.0 else lp;
    var hp' := if !doHp || hp < 0.0 || hp > fs / 2.0 then 0.0 else hp;
    var band := !doBp || bp1 < 0.0 || bp1 > fs / 2.0 || bp2 < 0.0 || bp1 > fs / 2.0 || bp2 - bp1 <= 0.0;
    var notch' := if !doNotch || notch < 0.0 || notch > fs / 2.0 then 0.0 else notch;
    Cutoffs(lp', hp', if band then 0.0 else bp1, if band then 0.0 else bp2, notch')
  }

  /** A stage runs only with its toggle on and its cutoff in (0, fs/2], the
      band-pass only with 0 < bp1 <= fs/2 and bp2 > bp1, and a running stage
      uses the configured value. */
  lemma SanitizedStages(fs: real, lp: real, hp: real, bp1: real, bp2: real, notch: real,
                        doLp: bool, doHp: bool, doBp: bool, doNotch: bool)
    ensures var c := Sanitized(fs, lp, hp, bp1, bp2, notch, doLp, doHp, doBp, doNotch);
      && (c.lp > 0.0 <==> doLp && 0.0 < lp <= fs / 2.0) && (c.lp > 0.0 ==> c.lp == lp)
      && (c.hp > 0.0 <==> doHp && 0.0 < hp <= fs / 2.0) && (c.hp > 0.0 ==> c.hp == hp)
      && (c.notch > 0.0 <==> doNotch && 0.0 < notch <= fs / 2.0) && (c.notch > 0.0 ==> c.notch == notch)
      && (c.bp1 > 0.0 <==> doBp && 0.0 < bp1 <= fs / 2.0 && bp2 > bp1)
      && (c.bp1 > 0.0 ==> c.bp1 == bp1 && c.bp2 == bp2)
  {
  }

  /** The upper band edge is never compared with fs/2: a band reaching past
      the Nyquist rate is passed on to the band-pass stage. */
  lemma UpperBandEdgeUnchecked()
    ensures Sanitized(100.0, 0.0, 0.0, 10.0, 80.0, 0.0, false, false, true, false).bp2 == 80.0
  {
  }

  /** Stage k of a channel (0 notch, 1 low-pass, 2 high-pass, 3 band-pass),
      skipped when its cutoff is 0. */
  function Stage(x: Signal, k: nat, fs: real, c: Cutoffs, dsp: Dsp): Signal
    requires k < 4
  {
    if k == 0 then (if c.notch > 0.0 then dsp.notch(x, fs, c.notch) else x)
    else if k == 1 then (if c.lp > 0.0 then dsp.lowPass(x, fs, c.lp) else x)
    else if k == 2 then (if c.hp > 0.0 then dsp.highPass(x, fs, c.hp) else x)
    else (if c.bp1 > 0.0 then dsp.bandPass(x, fs, c.bp1, c.bp2) else x)
  }

  /** The first n stages of a channel, in order. */
  function Stages(x: Signal, n: nat, fs: real, c: Cutoffs, dsp: Dsp): Signal
    requires n <= 4
  {
    if n == 0 then x else Stage(Stages(x, n - 1, fs, c, dsp), n - 1, fs, c, dsp)
  }

  /** A full pass runs notch, then low-pass, then high-pass, then band-pass. */
  lemma StageOrder(x: Signal, fs: real, c: Cutoffs, dsp: Dsp)
    ensures Stages(x, 4, fs, c, dsp) ==
      Stage(Stage(Stage(Stage(x, 0, fs, c, dsp), 1, fs, c, dsp), 2, fs, c, dsp), 3, fs, c, dsp)
    ensures c == Cutoffs(0.0, 0.0, 0.0, 0.0, 0.0) ==> Stages(x, 4, fs, c, dsp) == x
  {
    assert Stages(x, 1, fs, c, dsp) == Stage(x, 0, fs, c, dsp);
    assert Stages(x, 2, fs, c, dsp) == Stage(Stages(x, 1, fs, c, dsp), 1, fs, c, dsp);
    assert Stages(x, 3, fs, c, dsp) == Stage(Stages(x, 2, fs, c, dsp), 2, fs, c, dsp);
  }

  /** The channels after `steps` progress steps: channel c has had
      min(4, max(0, steps - 4c)) stages, later channels none. */
  function AfterSteps(data: seq<Signal>, steps: nat, fs: real, c: Cutoffs, dsp: Dsp): (r: seq<Signal>)
    ensures |r| == |data|
  {
    seq(|data|, ch requires 0 <= ch < |data| =>
      Stages(data[ch], if steps <= 4 * ch then 0 else if steps - 4 * ch >= 4 then 4 else steps - 4 * ch, fs, c, dsp))
  }

  /** The progress steps completed before the first check that reports a
      cancel: check j follows step j+1, and a cancel never reported stops
      nothing. */
  function StepsRun(nchns: nat, cancelAt: Option<nat>): nat
  {
    if cancelAt.Some? && cancelAt.value < 4 * nchns then cancelAt.value + 1 else 4 * nchns
  }

  lemma AfterStepsNext(data: seq<Signal>, ch: nat, k: nat, fs: real, c: Cutoffs, dsp: Dsp)
    requires ch < |data| && k < 4
    ensures var b := AfterSteps(data, 4 * ch + k, fs, c, dsp);
      AfterSteps(data, 4 * ch + k + 1, fs, c, dsp) == b[ch := Stage(b[ch], k, fs, c, dsp)]
  {
  }

  /** One stage of one channel: step 4*chn + k of the filtering loop. */
  method ApplyStage(ghost data: seq<Signal>, ghost step: nat, bufs: seq<Signal>, chn: nat, k: nat, fs: real, c: Cutoffs, dsp: Dsp)
    returns (r: seq<Signal>)
    requires chn < |data| && k < 4 && step == 4 * chn + k && bufs == AfterSteps(data, step, fs, c, dsp)
    ensures r == AfterSteps(data, step + 1, fs, c, dsp)
  {
    AfterStepsNext(data, chn, k, fs, c, dsp);
    r := bufs;
    if k == 0 {
      if c.notch > 0.0 {
        r := r[chn := dsp.notch(r[chn], fs, c.notch)];
      }
    } else if k == 1 {
      if c.lp > 0.0 {
        r := r[chn := dsp.lowPass(r[chn], fs, c.lp)];
      }
    } else if k == 2 {
      if c.hp > 0.0 {
        r := r[chn := dsp.highPass(r[chn], fs, c.hp)];
      }
    } else {
      if c.bp1 > 0.0 {
        r := r[chn := dsp.bandPass(r[chn], fs, c.bp1, c.bp2)];
      }
    }
  }

  /** One channel of the filtering loop: notch, low-pass, high-pass and
      band-pass, each followed by a progress check that may report a cancel.
      `i` counts the steps already made; on a cancel the stages already applied
      are kept. */
  method FilterChannel(ghost data: seq<Signal>, bufs: seq<Signal>, chn: nat, i: nat, fs: real, c: Cutoffs, dsp: Dsp, cancelAt: Option<nat>)
    returns (r: seq<Signal>, canceled: bool)
    requires chn < |data| && i == 4 * chn && bufs == AfterSteps(data, i, fs, c, dsp)
    requires cancelAt.None? || cancelAt.value >= i
    ensures canceled <==> cancelAt.Some? && cancelAt.value < i + 4
    ensures canceled ==> r == AfterSteps(data, cancelAt.value + 1, fs, c, dsp)
    ensures !canceled ==> r == AfterSteps(data, i + 4, fs, c, dsp)
  {
    r := ApplyStage(data, i, bufs, chn, 0, fs, c, dsp);  // notch
    if cancelAt == Some(i) {
      return r, true;
    }
    r := ApplyStage(data, i + 1, r, chn, 1, fs, c, dsp);  // low-pass
    if cancelAt == Some(i + 1) {
      return r, true;
    }
    r := ApplyStage(data, i + 2, r, chn, 2, fs, c, dsp);  // high-pass
    if cancelAt == Some(i + 2) {
      return r, true;
    }
    r := ApplyStage(data, i + 3, r, chn, 3, fs, c, dsp);  // band-pass
    canceled := cancelAt == Some(i + 3);
  }

  /** filter_data: a copy of the channels is filtered channel by channel, each
      through notch, low-pass, high-pass and band-pass. The progress dialog's
      cancel is the parameter cancelAt (None when the dialog is not shown or
      never cancelled; Some(j) when the cancel test after step j+1 is the first to
      report it): it stops the pass, keeps the stages already applied, and
      sets filter_canceled. */
  method FilterData(data: seq<Signal>, fs: real, fi: FilterInfo, dsp: Dsp, cancelAt: Option<nat>) returns (out: seq<Signal>)
    modifies fi`filterCanceled
    ensures var c := Sanitized(fs, Val(fi.lp), Val(fi.hp), Val(fi.bp1), Val(fi.bp2), Val(fi.notch), fi.doLp, fi.doHp, fi.doBp, fi.doNotch);
      out == AfterSteps(data, StepsRun(|data|, cancelAt), fs, c, dsp)
    ensures fi.filterCanceled == (old(fi.filterCanceled) || (cancelAt.Some? && cancelAt.value < 4 * |data|))
  {
    var c := Sanitized(fs, Val(fi.lp), Val(fi.hp), Val(fi.bp1), Val(fi.bp2), Val(fi.notch), fi.doLp, fi.doHp, fi.doBp, fi.doNotch);
    var nchns := |data|;
    var filtBufs := data;
    assert AfterSteps(data, 0, fs, c, dsp) == data;
    var i := 0;
    for chn := 0 to nchns
      invariant i == 4 * chn
      invariant filtBufs == AfterSteps(data, i, fs, c, dsp)
      invariant cancelAt.None? || cancelAt.value >= i
      invariant fi.filterCanceled == old(fi.filterCanceled)
    {
      var canceled;
      filtBufs, canceled := FilterChannel(data, filtBufs, chn, i, fs, c, dsp, cancelAt);
      if canceled {
        fi.filterCanceled := true;
        return filtBufs;
      }
      i := i + 4;
    }
    return filtBufs;
  }

  /** Without a cancel every channel gets the full pass. */
  lemma FullPass(data: seq<Signal>, fs: real, c: Cutoffs, dsp: Dsp)
    ensures forall ch :: 0 <= ch < |data| ==>
      AfterSteps(data, StepsRun(|data|, None), fs, c, dsp)[ch] == Stages(data[ch], 4, fs, c, dsp)
  {
  }

  // ---------------------------------------------------------------------------
  // convert_from_count and get_time

  /** convert_from_count: hours, minutes and seconds of a position in seconds. */
  function ConvertFromCount(count: nat): (r: (nat, nat, nat))
    ensures 3600 * r.0 + 60 * r.1 + r.2 == count && r.1 < 60 && r.2 < 60
  {
    var t := count;
    var (hrs, t) := if t / 3600 > 0 then (t / 3600, t % 3600) else (0, t);
    var (minutes, t) := if t / 60 > 0 then (t / 60, t % 60) else (0, t);
    (hrs, minutes, t)
  }

  /** The split is the only one with minutes and seconds below 60. */
  lemma ConvertFromCountUnique(count: nat, h: nat, m: nat, s: nat)
    requires 3600 * h + 60 * m + s == count && m < 60 && s < 60
    ensures ConvertFromCount(count) == (h, m, s)
  {
    var (h', m', s') := ConvertFromCount(count);
    assert h < h' ==> 3600 * h' >= 3600 * h + 3600;
    assert h' < h ==> 3600 * h >= 3600 * h' + 3600;
    assert h == h';
    assert m < m' ==> 60 * m' >= 60 * m + 60;
    assert m' < m ==> 60 * m >= 60 * m' + 60;
  }

  /** get_time: "H:MM:SS" with hours unpadded: three colon-separated fields,
      the hours, and the minutes and seconds as two digits each. */
  function GetTime(count: nat): (s: string)
    ensures var t := ConvertFromCount(count);
      Split(s, ':') == [NatToString(t.0), TwoDigits(t.1), TwoDigits(t.2)]
  {
    var (hrs, minutes, sec) := ConvertFromCount(count);
    var strSec := if sec >= 10 then NatToString(sec) else "0" + NatToString(sec);
    var strMin := if minutes >= 10 then NatToString(minutes) else "0" + NatToString(minutes);
    PaddedIsTwoDigits(minutes);
    PaddedIsTwoDigits(sec);
    var parts := [NatToString(hrs), strMin, strSec];
    Join3(parts[0], parts[1], parts[2], ':');
    assert forall i :: 0 <= i < 3 ==> forall j :: 0 <= j < |parts[i]| ==> IsDigit(parts[i][j]);
    SplitJoin(parts, ':');
    NatToString(hrs) + ":" + strMin + ":" + strSec
  }

  /** str(n), zero-padded to two digits below 10, is the two-digit text of n. */
  lemma PaddedIsTwoDigits(n: nat)
    requires n < 60
    ensures (if n >= 10 then NatToString(n) else "0" + NatToString(n)) == TwoDigits(n)
  {
  }

  /** The text get_time produces reads back as the position it was made from:
      three colon-separated fields, the last two of two digits each. */
  lemma GetTimeRoundTrip(count: nat)
    ensures var parts := Split(GetTime(count), ':');
      && |parts| == 3 && |parts[1]| == 2 && |parts[2]| == 2
      && ParseNat(parts[0]).Some? && ParseNat(parts[1]).Some? && ParseNat(parts[2]).Some?
      && 3600 * ParseNat(parts[0]).value + 60 * ParseNat(parts[1]).value + ParseNat(parts[2]).value == count
  {
    var (h, m, s) := ConvertFromCount(count);
    ParseNatToString(h);
    TwoDigitsParse(m);
    TwoDigitsParse(s);
  }

  /** 72 seconds is "0:01:12" and 3624 seconds is "1:00:24". */
  lemma GetTimeExamples()
    ensures GetTime(72) == "0:01:12"
    ensures GetTime(3624) == "1:00:24"
  {
  }
}
