/** Power statistics by frequency band: the table of named bands (five
    standard ones, up to five more added by the user), the rule that narrows
    or zeroes a band against the low-pass and high-pass cutoffs in force, and
    the window that adds bands to the table. */
module SignalStats {
  import opened Common

  /** A frequency band in Hz, from lo to hi. */
  datatype Band = Band(lo: real, hi: real)

  const DefaultNames: seq<string> := ["delta", "theta", "alpha", "beta", "gamma"]
  const DefaultBands: map<string, Band> :=
    map["delta" := Band(1.0, 4.0), "theta" := Band(4.0, 8.0), "alpha" := Band(8.0, 14.0),
        "beta" := Band(14.0, 30.0), "gamma" := Band(30.0, 45.0)]

  predicate Distinct(names: seq<string>)
  {
    forall i, j :: 0 <= i < j < |names| ==> names[i] != names[j]
  }

  // ---------------------------------------------------------------------------
  // Clipping a band against the filter cutoffs

  /** _get_power_for_band, up to the FFT: the band whose power is taken, or
      None where the power is 0. l is the high-pass (lower) cutoff and h the
      low-pass (upper) cutoff, 0 meaning none. An upper cutoff inside the band
      lowers its top, one at or below its bottom zeroes it; then a lower cutoff
      inside the (narrowed) band raises its bottom, one at or above its top
      zeroes it. */
  function ClipBand(b: Band, l: real, h: real): (r: Option<Band>)
    ensures l == 0.0 && h == 0.0 ==> r == Some(b)
    ensures r.Some? ==> b.lo <= r.value.lo && r.value.hi <= b.hi
  {
    var upper :=
      if h == 0.0 then Some(b)
      else if b.lo < h < b.hi then Some(Band(b.lo, h))
      else if h < b.hi then None
      else Some(b);
    match upper
    case None => None
    case Some(u) =>
      if l == 0.0 then Some(u)
      else if u.lo < l < u.hi then Some(Band(l, u.hi))
      else if l > u.lo then None
      else Some(u)
  }

  /** The bottom of the pass band of the filters: the band's bottom or the
      lower cutoff, whichever is higher (0 meaning no cutoff). */
  function PassLo(b: Band, l: real): real
  {
    if l == 0.0 || l < b.lo then b.lo else l
  }

  /** The top of the pass band: the band's top or the upper cutoff, whichever
      is lower (0 meaning no cutoff). */
  function PassHi(b: Band, h: real): real
  {
    if h == 0.0 || h > b.hi then b.hi else h
  }

  /** For a band of non-negative frequencies and non-negative cutoffs, the
      power is taken over the intersection of the band with the pass band of
      the filters, and is zero exactly where that intersection is empty or a
      single frequency. */
  lemma ClipIsIntersection(b: Band, l: real, h: real)
    requires 0.0 <= b.lo < b.hi && 0.0 <= l && 0.0 <= h
    ensures ClipBand(b, l, h).None? <==> PassLo(b, l) >= PassHi(b, h)
    ensures ClipBand(b, l, h).Some? ==> ClipBand(b, l, h) == Some(Band(PassLo(b, l), PassHi(b, h)))
  {
  }

  /** The cutoffs the test suite applies to the default bands and a band
      "test0" from 2 to 5 Hz: an upper cutoff of 31 narrows gamma, one of 30
      zeroes it; a lower cutoff of 6 zeroes delta and test0 and narrows theta;
      cutoffs 4 and 10 zero delta, beta and gamma, keep theta and narrow
      alpha and test0. */
  lemma TestSuiteCutoffs()
    ensures ClipBand(Band(30.0, 45.0), 0.0, 31.0) == Some(Band(30.0, 31.0))
    ensures ClipBand(Band(14.0, 30.0), 0.0, 31.0) == Some(Band(14.0, 30.0))
    ensures ClipBand(Band(30.0, 45.0), 0.0, 30.0).None?
    ensures ClipBand(Band(1.0, 4.0), 6.0, 0.0).None? && ClipBand(Band(2.0, 5.0), 6.0, 0.0).None?
    ensures ClipBand(Band(4.0, 8.0), 6.0, 0.0) == Some(Band(6.0, 8.0))
    ensures ClipBand(Band(8.0, 14.0), 6.0, 0.0) == Some(Band(8.0, 14.0))
    ensures ClipBand(Band(1.0, 4.0), 4.0, 10.0).None? && ClipBand(Band(14.0, 30.0), 4.0, 10.0).None?
    ensures ClipBand(Band(30.0, 45.0), 4.0, 10.0).None?
    ensures ClipBand(Band(4.0, 8.0), 4.0, 10.0) == Some(Band(4.0, 8.0))
    ensures ClipBand(Band(8.0, 14.0), 4.0, 10.0) == Some(Band(8.0, 10.0))
    ensures ClipBand(Band(2.0, 5.0), 4.0, 10.0) == Some(Band(4.0, 5.0))
  {
  }

  // ---------------------------------------------------------------------------
  // The band table

  class SignalStatsInfo {
    /** The channel whose power is shown. */
    var chn: int
    /** The band names in the order they were added. */
    var names: seq<string>
    /** fs_bands: each name's band. */
    var bands: map<string, Band>

    /** The names are the table's keys, each listed once. */
    predicate Valid()
      reads this
    {
      && Distinct(names)
      && (forall k :: k in bands ==> k in names)
      && (forall i :: 0 <= i < |names| ==> names[i] in bands)
    }

    constructor ()
      ensures chn == 0 && names == DefaultNames && bands == DefaultBands && Valid()
    {
      chn := 0;
      names, bands := DefaultNames, DefaultBands;
    }

    /** get_power, up to the FFT: for every band of the table, the band whose
        power is taken or None for a power of 0. */
    method GetPower(l: real, h: real) returns (ret: map<string, Option<Band>>)
      requires Valid()
      ensures ret.Keys == bands.Keys
      ensures forall k :: k in ret ==> ret[k] == ClipBand(bands[k], l, h)
    {
      ret := map[];
      for i := 0 to |names|
        invariant forall k :: k in ret <==> k in names[..i]
        invariant forall k :: k in ret ==> k in bands && ret[k] == ClipBand(bands[k], l, h)
      {
        assert names[..i + 1] == names[..i] + [names[i]];
        ret := ret[names[i] := ClipBand(bands[names[i]], l, h)];
      }
      assert names[..|names|] == names;
    }
  }

  // ---------------------------------------------------------------------------
  // The window that adds bands

  /** The most bands the user may add. */
  const MaxAdded := 5

  class SignalStatsOptions {
    /** The band table bands are added to. */
    const data: SignalStatsInfo
    /** How many bands the table holds beyond the standard five. */
    var fsBandCount: int
    /** The name and frequency editors. */
    var inputName: string
    var inputFs0: real
    var inputFs1: real

    constructor (data: SignalStatsInfo)
      ensures this.data == data && Counted()
      ensures inputName == "" && inputFs0 == 0.0 && inputFs1 == 0.0
    {
      this.data := data;
      fsBandCount := |data.names| - 5;
      inputName, inputFs0, inputFs1 := "", 0.0, 0.0;
    }

    /** The count of added bands is the table's size less the standard five. */
    predicate Counted()
      reads this, data
    {
      fsBandCount == |data.names| - 5
    }

    /** _check_valid: a name of 1 to 10 characters not already in the table,
        and a first frequency below the second. */
    method CheckValid() returns (ok: bool)
      ensures ok <==> 0 < |inputName| <= 10 && inputName !in data.bands && inputFs0 < inputFs1
    {
      if |inputName| == 0 {
        return false;
      }
      if |inputName| > 10 {
        return false;
      }
      if inputName in data.bands {
        return false;
      }
      if inputFs0 >= inputFs1 {
        return false;
      }
      return true;
    }

    /** add_fs_band: while fewer than five bands were added, a valid entry is
        added to the table under its name, the count goes up and the editors
        are cleared; otherwise nothing changes. */
    method AddFsBand() returns (added: bool)
      requires data.Valid()
      modifies this`fsBandCount, this`inputName, this`inputFs0, this`inputFs1, data`names, data`bands
      ensures data.Valid() && (old(Counted()) ==> Counted())
      ensures added <==>
        && old(fsBandCount) < MaxAdded
        && 0 < |old(inputName)| <= 10 && old(inputName) !in old(data.bands) && old(inputFs0) < old(inputFs1)
      ensures added ==>
        && data.bands == old(data.bands)[old(inputName) := Band(old(inputFs0), old(inputFs1))]
        && data.names == old(data.names) + [old(inputName)]
        && fsBandCount == old(fsBandCount) + 1
        && inputName == "" && inputFs0 == 0.0 && inputFs1 == 0.0
      ensures !added ==>
        && data.bands == old(data.bands) && data.names == old(data.names) && fsBandCount == old(fsBandCount)
        && inputName == old(inputName) && inputFs0 == old(inputFs0) && inputFs1 == old(inputFs1)
    {
      if fsBandCount >= MaxAdded {
        return false;
      }
      added := CheckValid();
      if !added {
        return;
      }
      data.bands := data.bands[inputName := Band(inputFs0, inputFs1)];
      data.names := data.names + [inputName];
      inputName, inputFs0, inputFs1 := "", 0.0, 0.0;
      fsBandCount := fsBandCount + 1;
    }

    /** check, for the side panel: the band names the panel already labels,
        followed by each band of the table it does not label yet, in table
        order. */
    method Check(shown: seq<string>) returns (labels: seq<string>)
      requires data.Valid()
      ensures labels == shown + Unlabelled(data.names, shown)
    {
      labels := shown;
      for i := 0 to |data.names|
        invariant labels == shown + Unlabelled(data.names[..i], shown)
      {
        UnlabelledAppend(data.names[..i], data.names[i], shown);
        assert data.names[..i + 1] == data.names[..i] + [data.names[i]];
        if data.names[i] !in shown {
          labels := labels + [data.names[i]];
        }
      }
      assert data.names[..|data.names|] == data.names;
    }
  }

  /** The names not in shown, in order. */
  function Unlabelled(names: seq<string>, shown: seq<string>): seq<string>
  {
    if |names| == 0 then []
    else (if names[0] in shown then [] else [names[0]]) + Unlabelled(names[1..], shown)
  }

  lemma {:induction false} UnlabelledAppend(names: seq<string>, x: string, shown: seq<string>)
    ensures Unlabelled(names + [x], shown) == Unlabelled(names, shown) + (if x in shown then [] else [x])
    decreases |names|
  {
    if |names| == 0 {
      assert names + [x] == [x];
    } else {
      UnlabelledAppend(names[1..], x, shown);
      assert (names + [x])[1..] == names[1..] + [x];
    }
  }

  /** After check every band of the table is labelled, and nothing else is
      labelled than what was before and the table's bands. */
  lemma {:induction false} UnlabelledCovers(names: seq<string>, shown: seq<string>)
    ensures forall k :: k in names ==> k in shown + Unlabelled(names, shown)
    ensures forall k :: k in Unlabelled(names, shown) ==> k in names && k !in shown
    decreases |names|
  {
    if |names| > 0 {
      UnlabelledCovers(names[1..], shown);
      assert forall k :: k in names ==> k == names[0] || k in names[1..];
    }
  }
}
