/** The header fields kept for saving a recording to EDF: the 80-character
    patient-identification and recording-identification fields, the start date
    "dd.mm.yy" and time "hh.mm.ss", and their conversion into the header
    dictionary the EDF writer takes (EDF+ subfields split on single spaces, a
    birthdate "dd-MMM-yyyy" or "X", a two-digit start year read as 19yy above
    30 and 20yy otherwise). */
module SaveEdf {
  import opened Common

  const Months: seq<string> := ["JAN", "FEB", "MAR", "APR", "MAY", "JUN",
                                "JUL", "AUG", "SEP", "OCT", "NOV", "DEC"]

  // ---------------------------------------------------------------------------
  // Calendar values

  /** The fields of a datetime.datetime; only valid ones are ever built. */
  datatype Date = Date(year: int, month: int, day: int)
  datatype DateTime = DateTime(date: Date, hour: int, minute: int, second: int)

  predicate IsLeap(year: int)
  {
    year % 4 == 0 && (year % 100 != 0 || year % 400 == 0)
  }

  function DaysInMonth(year: int, month: int): (r: int)
    requires 1 <= month <= 12
    ensures 28 <= r <= 31
  {
    if month == 2 then (if IsLeap(year) then 29 else 28)
    else if month == 4 || month == 6 || month == 9 || month == 11 then 30
    else 31
  }

  /** What datetime.datetime accepts as a date (years 1 to 9999). */
  predicate ValidDate(d: Date)
  {
    1 <= d.year <= 9999 && 1 <= d.month <= 12 && 1 <= d.day <= DaysInMonth(d.year, d.month)
  }

  predicate ValidDateTime(t: DateTime)
  {
    ValidDate(t.date) && 0 <= t.hour < 24 && 0 <= t.minute < 60 && 0 <= t.second < 60
  }

  /** MONTHS.index(name) + 1, or None where index() raises. */
  function MonthNumber(name: string): (r: Option<int>)
    ensures r.Some? <==> name in Months
    ensures r.Some? ==> 1 <= r.value <= 12 && Months[r.value - 1] == name
  {
    if name in Months then
      var i :| 0 <= i < |Months| && Months[i] == name;
      Some(i + 1)
    else None
  }

  /** datetime(int(yyyy), MONTHS.index(MMM) + 1, int(dd)) for "dd-MMM-yyyy"
      (parts after the third are ignored), or None where it raises. */
  function ParseBirthdate(text: string): (r: Option<Date>)
    ensures r.Some? ==> ValidDate(r.value)
    ensures r.Some? <==>
      var parts := Split(text, '-');
      && |parts| >= 3
      && MonthNumber(parts[1]).Some? && ParseNat(parts[2]).Some? && ParseNat(parts[0]).Some?
      && ValidDate(Date(ParseNat(parts[2]).value, MonthNumber(parts[1]).value, ParseNat(parts[0]).value))
  {
    var parts := Split(text, '-');
    if |parts| < 3 then None
    else
      match (MonthNumber(parts[1]), ParseNat(parts[2]), ParseNat(parts[0]))
      case (Some(month), Some(year), Some(day)) =>
        var d := Date(year, month, day);
        if ValidDate(d) then Some(d) else None
      case _ => None
  }

  /** The year of a two-digit start date: 19yy above 30, 20yy otherwise. */
  function StartYear(yy: nat): (y: nat)
    ensures yy <= 99 ==> 1931 <= y <= 2030
    ensures yy <= 99 ==> y % 100 == yy
  {
    if yy > 30 then yy + 1900 else yy + 2000
  }

  /** Every year from 1931 to 2030 survives being written with two digits. */
  lemma StartYearOfTwoDigits(y: int)
    requires 1931 <= y <= 2030
    ensures StartYear(y % 100) == y
  {
  }

  /** datetime(yr, int(mm), int(dd), int(hh), int(mi), int(ss)) for
      start_date "dd.mm.yy" and start_time "hh.mm.ss", or None where it
      raises. */
  function ParseStart(startDate: string, startTime: string): (r: Option<DateTime>)
    ensures r.Some? ==> ValidDateTime(r.value)
    ensures r.Some? ==>
      var d, t := Split(startDate, '.'), Split(startTime, '.');
      && |d| >= 3 && |t| >= 3
      && ParseNat(d[2]).Some? && r.value.date.year == StartYear(ParseNat(d[2]).value)
      && ParseNat(d[1]) == Some(r.value.date.month) && ParseNat(d[0]) == Some(r.value.date.day)
      && ParseNat(t[0]) == Some(r.value.hour) && ParseNat(t[1]) == Some(r.value.minute)
      && ParseNat(t[2]) == Some(r.value.second)
  {
    var d, t := Split(startDate, '.'), Split(startTime, '.');
    if |d| < 3 || |t| < 3 then None
    else
      match (ParseNat(d[2]), ParseNat(d[1]), ParseNat(d[0]), ParseNat(t[0]), ParseNat(t[1]), ParseNat(t[2]))
      case (Some(yy), Some(mm), Some(dd), Some(hh), Some(mi), Some(ss)) =>
        var r := DateTime(Date(StartYear(yy), mm, dd), hh, mi, ss);
        if ValidDateTime(r) then Some(r) else None
      case _ => None
  }

  // ---------------------------------------------------------------------------
  // The header dictionary

  /** The pyedflib header dictionary; a birthdate of "" is None. */
  datatype Header = Header(technician: string, recordingAdditional: string, patientname: string,
                           patientAdditional: string, patientcode: string, equipment: string,
                           admincode: string, gender: string, startdate: DateTime,
                           birthdate: Option<Date>)

  const InitialHeader: Header :=
    Header("002", "", "", "", "", "", "", "", DateTime(Date(2001, 1, 1), 1, 1, 1), None)

  /** convert_to_header: the patient subfields are code, sex, birthdate and
      name, the rest joined without separators; the recording subfields after
      "Startdate" and its date are admin code, technician and equipment, the
      rest joined likewise. Failure where the conversion raises: too few
      subfields, a birthdate that is neither "X" nor a valid "dd-MMM-yyyy", or
      an unreadable start date or time. */
  function HeaderOf(ptId: string, recInfo: string, startDate: string, startTime: string): (r: Result<Header>)
    ensures r.Success? <==>
      var pt, rec := Split(ptId, ' '), Split(recInfo, ' ');
      && |pt| >= 4 && |rec| >= 5
      && (pt[2] == "X" || ParseBirthdate(pt[2]).Some?)
      && ParseStart(startDate, startTime).Some?
    ensures r.Success? ==>
      var pt, rec, h := Split(ptId, ' '), Split(recInfo, ' '), r.value;
      && |pt| >= 4 && |rec| >= 5
      && h.patientcode == pt[0] && h.gender == pt[1] && h.patientname == pt[3]
      && h.birthdate == (if pt[2] == "X" then None else ParseBirthdate(pt[2]))
      && h.patientAdditional == Concat(pt[4..])
      && h.admincode == rec[2] && h.technician == rec[3] && h.equipment == rec[4]
      && h.recordingAdditional == Concat(rec[5..])
      && Some(h.startdate) == ParseStart(startDate, startTime)
  {
    var pt, rec := Split(ptId, ' '), Split(recInfo, ' ');
    if |pt| < 4 then Failure("patient ID has fewer than four subfields")
    else if pt[2] != "X" && ParseBirthdate(pt[2]).None? then Failure("invalid birthdate")
    else if |rec| < 5 then Failure("recording ID has fewer than five subfields")
    else
      match ParseStart(startDate, startTime)
      case None => Failure("invalid start date or time")
      case Some(start) =>
        Success(Header(rec[3], Concat(rec[5..]), pt[3], Concat(pt[4..]), pt[0], rec[4], rec[2], pt[1], start,
                       if pt[2] == "X" then None else ParseBirthdate(pt[2])))
  }

  /** The header dictionary as convert_to_header leaves it, starting from h:
      the keys are written one at a time in the order of the source, and a
      raise stops the writing, so a failing conversion keeps the keys written
      before the failing subfield and the old value of every later key. */
  function Converted(h: Header, ptId: string, recInfo: string, startDate: string, startTime: string): Header
  {
    var pt, rec := Split(ptId, ' '), Split(recInfo, ' ');
    var h1 := h.(patientcode := pt[0]);
    if |pt| < 2 then h1 else
    var h2 := h1.(gender := pt[1]);
    if |pt| < 3 || (pt[2] != "X" && ParseBirthdate(pt[2]).None?) then h2 else
    var h3 := h2.(birthdate := if pt[2] == "X" then None else ParseBirthdate(pt[2]));
    if |pt| < 4 then h3 else
    var h4 := h3.(patientname := pt[3], patientAdditional := Concat(pt[4..]));
    if |rec| < 3 then h4 else
    var h5 := h4.(admincode := rec[2]);
    if |rec| < 4 then h5 else
    var h6 := h5.(technician := rec[3]);
    if |rec| < 5 then h6 else
    var h7 := h6.(equipment := rec[4], recordingAdditional := Concat(rec[5..]));
    match ParseStart(startDate, startTime)
    case None => h7
    case Some(start) => h7.(startdate := start)
  }

  /** A conversion that succeeds overwrites every key: the result is the
      converted header whatever the dictionary held before. */
  lemma ConvertedOnSuccess(h: Header, ptId: string, recInfo: string, startDate: string, startTime: string)
    requires HeaderOf(ptId, recInfo, startDate, startTime).Success?
    ensures Converted(h, ptId, recInfo, startDate, startTime) == HeaderOf(ptId, recInfo, startDate, startTime).value
  {
  }

  /** What a failing conversion leaves: the patient code is always written; the
      start date never; and the keys from the patient name on keep their old
      values when the patient subfields are the cause, so a failure on the
      patient part leaves the recording keys untouched. */
  lemma ConvertedOnFailure(h: Header, ptId: string, recInfo: string, startDate: string, startTime: string)
    requires HeaderOf(ptId, recInfo, startDate, startTime).Failure?
    ensures var c, pt := Converted(h, ptId, recInfo, startDate, startTime), Split(ptId, ' ');
      && c.patientcode == pt[0]
      && c.startdate == h.startdate
      && (|pt| >= 2 ==> c.gender == pt[1])
      && (|pt| < 2 ==> c.gender == h.gender)
      && (|pt| < 4 || (pt[2] != "X" && ParseBirthdate(pt[2]).None?) ==>
            && c.patientname == h.patientname && c.patientAdditional == h.patientAdditional
            && c.admincode == h.admincode && c.technician == h.technician && c.equipment == h.equipment
            && c.recordingAdditional == h.recordingAdditional)
  {
  }

  /** A one-subfield patient ID stops after the patient code. */
  lemma ConvertedShortPatient(h: Header, code: string, recInfo: string, startDate: string, startTime: string)
    requires ' ' !in code
    ensures HeaderOf(code, recInfo, startDate, startTime).Failure?
    ensures Converted(h, code, recInfo, startDate, startTime) == h.(patientcode := code)
  {
    SplitJoin([code], ' ');
    assert Join([code], ' ') == code;
  }

  // ---------------------------------------------------------------------------
  // Space-padded fields

  function Spaces(k: nat): (s: string)
    ensures |s| == k && forall i :: 0 <= i < k ==> s[i] == ' '
  {
    seq(k, _ => ' ')
  }

  function Empties(k: nat): (s: seq<string>)
    ensures |s| == k && forall i :: 0 <= i < k ==> s[i] == ""
  {
    seq(k, _ => "")
  }

  lemma {:induction false} JoinAppend(parts: seq<string>, x: string, sep: char)
    requires |parts| >= 1
    ensures Join(parts + [x], sep) == Join(parts, sep) + [sep] + x
    decreases |parts|
  {
    if |parts| > 1 {
      JoinAppend(parts[1..], x, sep);
      assert (parts + [x])[1..] == parts[1..] + [x];
    } else {
      assert (parts + [x])[1..] == [x];
    }
  }

  /** Trailing spaces after space-joined subfields read back as empty subfields. */
  lemma {:induction false} JoinPad(parts: seq<string>, k: nat)
    requires |parts| >= 1
    ensures Join(parts, ' ') + Spaces(k) == Join(parts + Empties(k), ' ')
    decreases k
  {
    if k > 0 {
      JoinPad(parts, k - 1);
      JoinAppend(parts + Empties(k - 1), "", ' ');
      assert parts + Empties(k - 1) + [""] == parts + Empties(k);
      assert Spaces(k) == Spaces(k - 1) + [' '];
      calc {
        Join(parts, ' ') + Spaces(k);
        Join(parts, ' ') + Spaces(k - 1) + [' '];
        Join(parts + Empties(k - 1), ' ') + [' '] + "";
        Join(parts + Empties(k), ' ');
      }
    } else {
      assert parts + Empties(0) == parts;
    }
  }

  /** Empty subfields add nothing when joined without separators. */
  lemma {:induction false} ConcatEmpties(parts: seq<string>, k: nat)
    ensures Concat(parts + Empties(k)) == Concat(parts)
    decreases |parts|
  {
    if |parts| == 0 {
      ConcatAllEmpty(k);
      assert parts + Empties(k) == Empties(k);
    } else {
      ConcatEmpties(parts[1..], k);
      assert (parts + Empties(k))[1..] == parts[1..] + Empties(k);
    }
  }

  lemma {:induction false} ConcatAllEmpty(k: nat)
    ensures Concat(Empties(k)) == ""
    decreases k
  {
    if k > 0 {
      ConcatAllEmpty(k - 1);
      assert Empties(k)[1..] == Empties(k - 1);
    }
  }

  /** Space-separated subfields, none holding a space, padded with k spaces
      split back into the subfields followed by k empty ones. */
  lemma SplitPadded(parts: seq<string>, k: nat)
    requires |parts| >= 1
    requires forall i :: 0 <= i < |parts| ==> ' ' !in parts[i]
    ensures Split(Join(parts, ' ') + Spaces(k), ' ') == parts + Empties(k)
  {
    JoinPad(parts, k);
    SplitJoin(parts + Empties(k), ' ');
  }

  // ---------------------------------------------------------------------------
  // The save-EDF info object

  const DefaultPtIdFields: seq<string> := ["X", "X", "X", "X"]
  const DefaultRecInfoFields: seq<string> := ["Startdate", "X", "X", "X", "X"]

  class SaveEdfInfo {
    /** Path of the file whose header is copied. */
    var fn: string
    var ptId: string
    var recInfo: string
    var startDate: string
    var startTime: string
    var header: Header

    /** The anonymous defaults: "X" for every subfield, each identification
        field padded to 80 characters, start "01.01.01" "01.01.01". */
    constructor ()
      ensures fn == "" && startDate == "01.01.01" && startTime == "01.01.01"
      ensures ptId == Join(DefaultPtIdFields, ' ') + Spaces(73) && |ptId| == 80
      ensures recInfo == Join(DefaultRecInfoFields, ' ') + Spaces(63) && |recInfo| == 80
      ensures header == InitialHeader
    {
      fn := "";
      ptId := "X X X X" + Spaces(73);
      recInfo := "Startdate X X X X" + Spaces(63);
      startDate, startTime := "01.01.01", "01.01.01";
      header := InitialHeader;
    }

    /** convert_to_header: on success the header is the conversion of the four
        text fields; where the conversion raises, false, with the keys written
        before the raise. */
    method ConvertToHeader() returns (ok: bool)
      modifies this`header
      ensures ok <==> HeaderOf(ptId, recInfo, startDate, startTime).Success?
      ensures ok ==> header == HeaderOf(ptId, recInfo, startDate, startTime).value
      ensures header == Converted(old(header), ptId, recInfo, startDate, startTime)
    {
      ok := HeaderOf(ptId, recInfo, startDate, startTime).Success?;
      if ok {
        ConvertedOnSuccess(header, ptId, recInfo, startDate, startTime);
      }
      header := Converted(header, ptId, recInfo, startDate, startTime);
    }
  }

  /** The default start date and time read as 2001-01-01 01:01:01. */
  lemma DefaultStart()
    ensures ParseStart("01.01.01", "01.01.01") == Some(DateTime(Date(2001, 1, 1), 1, 1, 1))
  {
    var one := ["01", "01", "01"];
    SplitJoin(one, '.');
    assert Join(one, '.') == "01.01.01";
    TwoDigitsParse(1);
    assert TwoDigits(1) == "01";
  }

  /** The default identification fields split into "X" subfields and empty ones. */
  lemma DefaultFieldsSplit()
    ensures Split(Join(DefaultPtIdFields, ' ') + Spaces(73), ' ') == DefaultPtIdFields + Empties(73)
    ensures Split(Join(DefaultRecInfoFields, ' ') + Spaces(63), ' ') == DefaultRecInfoFields + Empties(63)
  {
    SplitPadded(DefaultPtIdFields, 73);
    SplitPadded(DefaultRecInfoFields, 63);
  }

  /** The defaults convert to a header with "X" in every subfield, no
      birthdate, nothing additional, and start 2001-01-01 01:01:01. */
  lemma DefaultsConvert()
    ensures HeaderOf(Join(DefaultPtIdFields, ' ') + Spaces(73), Join(DefaultRecInfoFields, ' ') + Spaces(63),
                     "01.01.01", "01.01.01")
         == Success(Header("X", "", "X", "", "X", "X", "X", "X", DateTime(Date(2001, 1, 1), 1, 1, 1), None))
  {
    DefaultFieldsSplit();
    DefaultStart();
    var pt := DefaultPtIdFields + Empties(73);
    var rec := DefaultRecInfoFields + Empties(63);
    assert pt[4..] == Empties(73);
    assert rec[5..] == Empties(63);
    ConcatAllEmpty(73);
    ConcatAllEmpty(63);
  }
}
