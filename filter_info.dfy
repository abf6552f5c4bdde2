/** The filter settings record shared by the filtering options window, the
    plotting code and filter_data. */
module FilterSettings {
  import opened Numbers

  /** FilterInfo. The sampling rate stored in the record is left out: the main
      window never sets it, so every operation that needs it takes it as a parameter. */
  /** The cutoffs and toggles of a FilterInfo, as one value. A cutoff is a
      Python int or float, as whoever set it left it. */
  datatype FilterValues = FilterValues(lp: Num, hp: Num, notch: Num, bp1: Num, bp2: Num,
                                       doLp: bool, doHp: bool, doNotch: bool, doBp: bool)

  /** The values a fresh FilterInfo holds. */
  const Defaults := FilterValues(Int(30), Int(2), Int(60), Int(0), Int(0), true, true, false, false)

  class FilterInfo {
    var hp: Num
    var lp: Num
    var notch: Num
    var bp1: Num
    var bp2: Num
    var doLp: bool
    var doHp: bool
    var doNotch: bool
    var doBp: bool
    var filterCanceled: bool

    /** Low-pass at 30 Hz and high-pass at 2 Hz on; notch (60 Hz) and band-pass off. */
    constructor ()
      ensures hp == Int(2) && lp == Int(30) && notch == Int(60) && bp1 == Int(0) && bp2 == Int(0)
      ensures doLp && doHp && !doNotch && !doBp && !filterCanceled
      ensures Exclusive() && Values() == Defaults
    {
      hp, lp, notch, bp1, bp2 := Int(2), Int(30), Int(60), Int(0), Int(0);
      doLp, doHp, doNotch, doBp := true, true, false, false;
      filterCanceled := false;
    }

    function Values(): FilterValues
      reads this
    {
      FilterValues(lp, hp, notch, bp1, bp2, doLp, doHp, doNotch, doBp)
    }

    /** Sets every cutoff and toggle at once; the cancel flag is kept. */
    method Assign(v: FilterValues)
      modifies this`lp, this`hp, this`notch, this`bp1, this`bp2, this`doLp, this`doHp, this`doNotch, this`doBp
      ensures Values() == v
    {
      lp, hp, notch, bp1, bp2 := v.lp, v.hp, v.notch, v.bp1, v.bp2;
      doLp, doHp, doNotch, doBp := v.doLp, v.doHp, v.doNotch, v.doBp;
    }

    /** Band-pass is never on together with low-pass or high-pass. */
    predicate Exclusive()
      reads this
    {
      !(doBp && (doLp || doHp))
    }
  }
}
