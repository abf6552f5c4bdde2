/** The filtering options window: the checkbox handlers and the acceptance
    rules of its Ok button, acting on the shared FilterInfo record. The spin-box
    values are parameters. */
module FilterOptions {
  import opened FilterSettings
  import opened Numbers

  /** lp_filter_checked. Checking low-pass unchecks band-pass, whose own
      handler then clears do_bp. */
  method LowPassToggled(fi: FilterInfo, checked: bool)
    modifies fi`doLp, fi`doBp
    ensures fi.doLp == checked
    ensures fi.doBp == (old(fi.doBp) && !checked)
    ensures old(fi.Exclusive()) ==> fi.Exclusive()
  {
    if checked {
      fi.doLp := true;
      fi.doBp := false;
    } else {
      fi.doLp := false;
    }
  }

  /** hp_filter_checked, the same for high-pass. */
  method HighPassToggled(fi: FilterInfo, checked: bool)
    modifies fi`doHp, fi`doBp
    ensures fi.doHp == checked
    ensures fi.doBp == (old(fi.doBp) && !checked)
    ensures old(fi.Exclusive()) ==> fi.Exclusive()
  {
    if checked {
      fi.doHp := true;
      fi.doBp := false;
    } else {
      fi.doHp := false;
    }
  }

  /** notch_filter_checked. */
  method NotchToggled(fi: FilterInfo, checked: bool)
    modifies fi`doNotch
    ensures fi.doNotch == checked
  {
    fi.doNotch := checked;
  }

  /** bp_filter_checked. Checking band-pass unchecks low-pass and high-pass,
      whose handlers then clear do_lp and do_hp. */
  method BandPassToggled(fi: FilterInfo, checked: bool)
    modifies fi`doBp, fi`doLp, fi`doHp
    ensures fi.doBp == checked
    ensures fi.doLp == (old(fi.doLp) && !checked) && fi.doHp == (old(fi.doHp) && !checked)
    ensures old(fi.Exclusive()) ==> fi.Exclusive()
  {
    if checked {
      fi.doBp := true;
      fi.doLp := false;
      fi.doHp := false;
    } else {
      fi.doBp := false;
    }
  }

  /** Whether the Ok button accepts the low-pass and high-pass values: both
      strictly between 0 and fs/2, low-pass above high-pass. */
  predicate PassBandAccepted(fs: real, lp: Num, hp: Num)
  {
    0.0 < Val(lp) < fs / 2.0 && 0.0 < Val(hp) < fs / 2.0 && Val(lp) - Val(hp) > 0.0
  }

  /** change: the spin-box values are floats. Each cutoff is copied only when its range rule holds and its
      toggle is on; a band-pass range that is not 0 < bp1 < bp2 switches
      band-pass off, and a notch outside (0, fs/2) switches notch off. No
      toggle is ever switched on. */
  method Change(fi: FilterInfo, fs: real, lp: Num, hp: Num, bp1: Num, bp2: Num, notch: Num)
    modifies fi`lp, fi`hp, fi`bp1, fi`bp2, fi`notch, fi`doBp, fi`doNotch
    ensures fi.lp == if PassBandAccepted(fs, lp, hp) && fi.doLp then lp else old(fi.lp)
    ensures fi.hp == if PassBandAccepted(fs, lp, hp) && fi.doHp then hp else old(fi.hp)
    ensures fi.doBp == (old(fi.doBp) && 0.0 < Val(bp1) < Val(bp2))
    ensures (fi.bp1, fi.bp2) == if fi.doBp then (bp1, bp2) else (old(fi.bp1), old(fi.bp2))
    ensures fi.doNotch == (old(fi.doNotch) && 0.0 < Val(notch) < fs / 2.0)
    ensures fi.notch == if fi.doNotch then notch else old(fi.notch)
    ensures old(fi.Exclusive()) ==> fi.Exclusive()
  {
    if 0.0 < Val(lp) < fs / 2.0 && 0.0 < Val(hp) < fs / 2.0 {
      if Val(lp) - Val(hp) > 0.0 {
        if fi.doLp {
          fi.lp := lp;
        }
        if fi.doHp {
          fi.hp := hp;
        }
      }
    }
    if 0.0 < Val(bp1) < Val(bp2) {
      if fi.doBp {
        fi.bp1 := bp1;
        fi.bp2 := bp2;
      }
    } else {
      fi.doBp := false;
    }
    if Val(notch) > 0.0 && Val(notch) < fs / 2.0 {
      if fi.doNotch {
        fi.notch := notch;
      }
    } else {
      fi.doNotch := false;
    }
  }

  /** With fs = 256, high-pass unchecked and a low-pass of 200 Hz, pressing Ok
      leaves every cutoff at its default. */
  method OutOfRangeLowPassIgnored() returns (fi: FilterInfo)
    ensures fi.lp == Int(30) && fi.hp == Int(2) && fi.notch == Int(60)
  {
    fi := new FilterInfo();
    HighPassToggled(fi, false);
    Change(fi, 256.0, Float(200, 0), Float(10, 0), Float(0, 0), Float(0, 0), Float(60, 0));
  }

  /** Checking band-pass and notch and pressing Ok with 1-30 Hz and 20 Hz
      takes the band and the notch and keeps the other cutoffs. */
  method BandPassAndNotchTaken() returns (fi: FilterInfo)
    ensures fi.lp == Int(30) && fi.hp == Int(2) && fi.notch == Float(20, 0) && fi.bp1 == Float(1, 0) && fi.bp2 == Float(30, 0)
    ensures fi.doBp && fi.doNotch && !fi.doLp && !fi.doHp
  {
    fi := new FilterInfo();
    HighPassToggled(fi, false);
    LowPassToggled(fi, false);
    BandPassToggled(fi, true);
    NotchToggled(fi, true);
    Change(fi, 256.0, Float(30, 0), Float(2, 0), Float(1, 0), Float(30, 0), Float(20, 0));
  }
}
