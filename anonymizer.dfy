/** The anonymizer window: it shows the identification fields of the file
    being saved (with missing or malformed EDF+ subfields replaced by
    defaults) next to editable replacements, and on confirmation assembles the
    replacements into the 80-character patient and recording identification
    fields and the start date and time written to the saved file. */
module Anonymizing {
  import opened Common
  import opened SaveEdf

  // ---------------------------------------------------------------------------
  // Dates as text

  /** The "dd-MMM-yyyy" shape _valid_date looks for: three dash-separated
      parts, a two-character day and a four-character year. */
  predicate DateShape(text: string)
  {
    var parts := Split(text, '-');
    |parts| == 3 && |parts[0]| == 2 && |parts[2]| == 4
  }

  /** _valid_date: 0 for a date of the right shape with a known month, -1 for
      one of the wrong shape, None where looking the month up raises. */
  function CheckDate(text: string): (r: Option<int>)
    ensures r == Some(-1) <==> !DateShape(text)
    ensures r == Some(0) <==> DateShape(text) && Split(text, '-')[1] in Months
    ensures r.None? <==> DateShape(text) && Split(text, '-')[1] !in Months
  {
    var parts := Split(text, '-');
    if |parts| != 3 then Some(-1)
    else if |parts[2]| != 4 then Some(-1)
    else if |parts[0]| != 2 then Some(-1)
    else if MonthNumber(parts[1]).None? then None
    else Some(0)
  }

  /** The month abbreviations are twelve different words. */
  lemma MonthsDistinct()
    ensures forall i, j :: 0 <= i < j < |Months| ==> Months[i] != Months[j]
  {
  }

  function SexOfLetter(letter: string): Sex
  {
    if letter == "F" then Female else if letter == "M" then Male else Unknown
  }

  /** A date editor's text "dd-MMM-yyyy", upper-cased (English month names). */
  function FormatDate(d: Date): (s: string)
    requires ValidDate(d)
    ensures ' ' !in s
  {
    TwoDigits(d.day) + "-" + Months[d.month - 1] + "-" + FourDigits(d.year)
  }

  lemma FormatDateSplit(d: Date)
    requires ValidDate(d)
    ensures Split(FormatDate(d), '-') == [TwoDigits(d.day), Months[d.month - 1], FourDigits(d.year)]
  {
    var parts := [TwoDigits(d.day), Months[d.month - 1], FourDigits(d.year)];
    Join3(parts[0], parts[1], parts[2], '-');
    SplitJoin(parts, '-');
  }

  /** Every date the anonymizer writes passes _valid_date and converts back to
      the same date in the saved header. */
  lemma FormatDateRoundTrip(d: Date)
    requires ValidDate(d)
    ensures CheckDate(FormatDate(d)) == Some(0)
    ensures ParseBirthdate(FormatDate(d)) == Some(d)
  {
    FormatDateSplit(d);
    MonthsDistinct();
    TwoDigitsParse(d.day);
    FourDigitsParse(d.year);
  }

  /** The value of _valid_date for a text of three dash-separated parts. */
  lemma CheckDateOfParts(day: string, month: string, year: string)
    requires '-' !in day && '-' !in month && '-' !in year
    ensures CheckDate(day + "-" + month + "-" + year)
         == if |day| != 2 || |year| != 4 then Some(-1) else if month in Months then Some(0) else None
  {
    Join3(day, month, year, '-');
    SplitJoin([day, month, year], '-');
  }

  /** The test suite expects _valid_date to reject a non-numeric day and a
      non-numeric year; it accepts both. */
  lemma CheckDateAcceptsLetters()
    ensures CheckDate("AB-JAN-2001") == Some(0)
    ensures CheckDate("01-JAN-200C") == Some(0)
  {
    assert "AB" + "-" + "JAN" + "-" + "2001" == "AB-JAN-2001";
    assert "01" + "-" + "JAN" + "-" + "200C" == "01-JAN-200C";
    assert Months[0] == "JAN";
    CheckDateOfParts("AB", "JAN", "2001");
    CheckDateOfParts("01", "JAN", "200C");
  }

  /** The test suite expects _valid_date to reject an unknown month; looking
      the month up raises instead. */
  lemma CheckDateRaisesOnUnknownMonth()
    ensures CheckDate("01-ABC-2001").None?
  {
    assert "01" + "-" + "ABC" + "-" + "2001" == "01-ABC-2001";
    assert forall i :: 0 <= i < |Months| ==> Months[i][1] != 'B';
    CheckDateOfParts("01", "ABC", "2001");
  }

  /** A two-digit year is rejected, as the test suite expects. */
  lemma CheckDateRejectsShortYear()
    ensures CheckDate("01-JAN-01") == Some(-1)
  {
    assert "01" + "-" + "JAN" + "-" + "01" == "01-JAN-01";
    CheckDateOfParts("01", "JAN", "01");
  }

  /** The default date load_file substitutes passes _valid_date. */
  lemma DefaultDateChecks()
    ensures CheckDate("01-JAN-2001") == Some(0)
  {
    assert "01" + "-" + "JAN" + "-" + "2001" == "01-JAN-2001";
    assert Months[0] == "JAN";
    CheckDateOfParts("01", "JAN", "2001");
  }

  /** start_date "dd.MM.yy" of the date editor: eight characters that split
      on '.' into the day, the month and the year's last two digits. */
  function FormatStartDate(d: Date): (s: string)
    requires ValidDate(d)
    ensures |s| == 8
    ensures Split(s, '.') == [TwoDigits(d.day), TwoDigits(d.month), TwoDigits(d.year % 100)]
  {
    var p := [TwoDigits(d.day), TwoDigits(d.month), TwoDigits(d.year % 100)];
    Join3(p[0], p[1], p[2], '.');
    SplitJoin(p, '.');
    TwoDigits(d.day) + "." + TwoDigits(d.month) + "." + TwoDigits(d.year % 100)
  }

  /** start_time "hh.mm.ss" of the time editor: eight characters that split
      on '.' into the hour, the minute and the second. */
  function FormatStartTime(t: DateTime): (s: string)
    requires ValidDateTime(t)
    ensures |s| == 8
    ensures Split(s, '.') == [TwoDigits(t.hour), TwoDigits(t.minute), TwoDigits(t.second)]
  {
    var p := [TwoDigits(t.hour), TwoDigits(t.minute), TwoDigits(t.second)];
    Join3(p[0], p[1], p[2], '.');
    SplitJoin(p, '.');
    TwoDigits(t.hour) + "." + TwoDigits(t.minute) + "." + TwoDigits(t.second)
  }

  /** The year a leap year's last two digits are read back as is a leap year
      too, so 29 February survives the round trip. */
  lemma StartYearLeap(y: int)
    requires 1 <= y
    ensures IsLeap(y) ==> IsLeap(StartYear(y % 100))
  {
    var yy, q := y % 100, y / 100;
    assert y == 4 * (25 * q) + yy;
    assert y % 4 == yy % 4;
    if yy > 30 {
      assert StartYear(yy) == 4 * 475 + yy;
    } else {
      assert StartYear(yy) == 4 * 500 + yy;
    }
  }

  /** A valid start stays valid when its year is replaced by the one its
      last two digits are read back as. */
  lemma StartYearKeepsValid(t: DateTime)
    requires ValidDateTime(t)
    ensures ValidDateTime(DateTime(Date(StartYear(t.date.year % 100), t.date.month, t.date.day),
                                   t.hour, t.minute, t.second))
  {
    StartYearLeap(t.date.year);
  }

  /** The start written by the anonymizer converts back to the same day,
      month and time, with the year read back from its last two digits (the
      same year from 1931 to 2030). */
  lemma StartRoundTrip(t: DateTime)
    requires ValidDateTime(t)
    ensures ParseStart(FormatStartDate(t.date), FormatStartTime(t))
         == Some(DateTime(Date(StartYear(t.date.year % 100), t.date.month, t.date.day), t.hour, t.minute, t.second))
    ensures 1931 <= t.date.year <= 2030 ==> ParseStart(FormatStartDate(t.date), FormatStartTime(t)) == Some(t)
  {
    var d := t.date;
    TwoDigitsParse(d.day);
    TwoDigitsParse(d.month);
    TwoDigitsParse(d.year % 100);
    TwoDigitsParse(t.hour);
    TwoDigitsParse(t.minute);
    TwoDigitsParse(t.second);
    StartYearKeepsValid(t);
    if 1931 <= d.year <= 2030 {
      StartYearOfTwoDigits(d.year);
    }
  }

  // ---------------------------------------------------------------------------
  // Assembling the identification fields

  datatype Sex = Female | Male | Unknown

  function SexLetter(s: Sex): string
  {
    match s
    case Female => "F"
    case Male => "M"
    case Unknown => "X"
  }

  /** A blank required subfield becomes "X". */
  function Fill(s: string): string
  {
    if s == "" || s == " " then "X" else s
  }

  /** Spaces inside a subfield become underscores. */
  function Underscored(s: string): (r: string)
    ensures ' ' !in r && |r| == |s|
  {
    ReplaceChar(s, ' ', '_')
  }

  /** The date subfield: "X" when chosen, otherwise the editor's date. */
  function DateField(isX: bool, d: Date): (s: string)
    requires ValidDate(d)
    ensures ' ' !in s
  {
    if isX then "X" else FormatDate(d)
  }

  /** pt_id: code, sex, birthdate, name and the rest, space-separated. */
  function PtIdText(code: string, sex: Sex, date: string, name: string, other: string): string
  {
    Underscored(code) + " " + SexLetter(sex) + " " + date + " " + Underscored(name) + " " + Underscored(other)
  }

  /** The patient field is its five subfields joined by single spaces. */
  lemma PtIdTextIsJoin(code: string, sex: Sex, date: string, name: string, other: string)
    ensures PtIdText(code, sex, date, name, other)
         == Join([Underscored(code), SexLetter(sex), date, Underscored(name), Underscored(other)], ' ')
  {
    var parts := [Underscored(code), SexLetter(sex), date, Underscored(name), Underscored(other)];
    assert parts[1..] == [SexLetter(sex), date, Underscored(name), Underscored(other)];
    assert parts[1..][1..] == [date, Underscored(name), Underscored(other)];
    Join3(date, Underscored(name), Underscored(other), ' ');
  }

  /** rec_info: "Startdate", the start date, admin code, technician, equipment
      and the rest, space-separated. */
  function RecInfoText(date: string, admin: string, tech: string, equip: string, other: string): string
  {
    "Startdate " + date + " " + Underscored(admin) + " " + Underscored(tech) + " " + Underscored(equip) + " "
      + Underscored(other)
  }

  /** Six parts joined, built up one part at a time from the back. */
  lemma Join6(a: string, b: string, c: string, d: string, e: string, f: string, sep: char)
    ensures Join([a, b, c, d, e, f], sep) == a + [sep] + b + [sep] + c + [sep] + d + [sep] + e + [sep] + f
  {
    Join3(a, b, c, sep);
    JoinAppend([a, b, c], d, sep);
    assert [a, b, c] + [d] == [a, b, c, d];
    JoinAppend([a, b, c, d], e, sep);
    assert [a, b, c, d] + [e] == [a, b, c, d, e];
    JoinAppend([a, b, c, d, e], f, sep);
    assert [a, b, c, d, e] + [f] == [a, b, c, d, e, f];
  }

  /** The recording field is "Startdate" and its five subfields joined by
      single spaces. */
  lemma RecInfoTextIsJoin(date: string, admin: string, tech: string, equip: string, other: string)
    ensures RecInfoText(date, admin, tech, equip, other)
         == Join(["Startdate", date, Underscored(admin), Underscored(tech), Underscored(equip), Underscored(other)], ' ')
  {
    Join6("Startdate", date, Underscored(admin), Underscored(tech), Underscored(equip), Underscored(other), ' ');
  }

  /** A field of at most 80 characters padded with spaces to exactly 80. */
  function Pad80(s: string): (r: string)
    requires |s| <= 80
    ensures |r| == 80 && r[..|s|] == s
    ensures forall i :: |s| <= i < 80 ==> r[i] == ' '
  {
    s + Spaces(80 - |s|)
  }

  // ---------------------------------------------------------------------------
  // Reading the fields of the original header

  predicate Blank(s: string)
  {
    s == "" || s == " "
  }

  /** Subfield i of the patient subfields load_file shows: a sex other than
      F, M or X becomes X; a birthdate of the wrong shape becomes
      01-JAN-2001; missing subfields are filled with "X" or 01-JAN-2001; with
      four or more subfields, a blank code or name becomes "X". */
  function PtIdSubfield(text: seq<string>, i: nat): (r: string)
    ensures i == 1 ==> r in {"X", "F", "M"} && (|text| > 1 && text[1] in {"X", "F", "M"} ==> r == text[1])
    ensures i == 2 && (|text| <= 2 || CheckDate(text[2]).Some?) ==> CheckDate(r) == Some(0)
    ensures i == 2 && |text| > 2 && CheckDate(text[2]) == Some(0) ==> r == text[2]
    ensures (i == 0 || i == 3) && |text| >= 4 ==> !Blank(r) && (r == "X" || r == text[i])
    ensures (i == 0 || i == 3) && i < |text| && !Blank(text[i]) ==> r == text[i]
    ensures i >= 4 && i < |text| ==> r == text[i]
  {
    DefaultDateChecks();
    if i == 0 then (if |text| == 0 || (|text| >= 4 && Blank(text[0])) then "X" else text[0])
    else if i == 1 then (if |text| <= 1 || text[1] !in {"X", "F", "M"} then "X" else text[1])
    else if i == 2 then (if |text| <= 2 || CheckDate(text[2]) == Some(-1) then "01-JAN-2001" else text[2])
    else if i == 3 then (if |text| <= 3 || Blank(text[3]) then "X" else text[3])
    else if i < |text| then text[i]
    else ""
  }

  /** The patient subfields load_file shows: at least four, each as
      PtIdSubfield describes; None where the birthdate's month is unknown,
      since looking it up raises. */
  function PtIdShown(text: seq<string>): (r: Option<seq<string>>)
    ensures r.Some? ==> |r.value| >= 4 && |r.value| >= |text|
    ensures r.Some? ==> r.value[1] in {"X", "F", "M"} && CheckDate(r.value[2]) == Some(0)
  {
    DefaultDateChecks();
    if |text| > 2 && CheckDate(text[2]).None? then None
    else
      var n := if |text| < 4 then 4 else |text|;
      var shown := seq(n, i requires 0 <= i < n => PtIdSubfield(text, i));
      assert shown[1] == PtIdSubfield(text, 1) && shown[1] in {"X", "F", "M"};
      assert shown[2] == PtIdSubfield(text, 2) && CheckDate(shown[2]) == Some(0);
      Some(shown)
  }

  /** Subfield i of the recording subfields load_file shows: a start date of
      the wrong shape becomes 01-JAN-2001; missing subfields are filled with
      "X" or 01-JAN-2001; with five or more subfields, a blank admin code,
      technician or equipment becomes "X". */
  function RecInfoSubfield(text: seq<string>, i: nat): (r: string)
    ensures i == 0 ==> r == (if |text| == 0 then "Startdate" else text[0])
    ensures i == 1 && (|text| <= 1 || CheckDate(text[1]).Some?) ==> CheckDate(r) == Some(0)
    ensures i == 1 && |text| > 1 && CheckDate(text[1]) == Some(0) ==> r == text[1]
    ensures 2 <= i <= 4 && |text| >= 5 ==> !Blank(r) && (r == "X" || r == text[i])
    ensures 2 <= i <= 4 && i < |text| && !Blank(text[i]) ==> r == text[i]
    ensures i >= 5 && i < |text| ==> r == text[i]
  {
    DefaultDateChecks();
    if i == 0 then (if |text| == 0 then "Startdate" else text[0])
    else if i == 1 then (if |text| <= 1 || CheckDate(text[1]) == Some(-1) then "01-JAN-2001" else text[1])
    else if i <= 4 then (if |text| <= i || (|text| >= 5 && Blank(text[i])) then "X" else text[i])
    else if i < |text| then text[i]
    else ""
  }

  /** The recording subfields load_file shows: at least five, each as
      RecInfoSubfield describes; None where the start date's month is
      unknown. */
  function RecInfoShown(text: seq<string>): (r: Option<seq<string>>)
    ensures r.Some? ==> |r.value| >= 5 && |r.value| >= |text|
    ensures r.Some? ==> CheckDate(r.value[1]) == Some(0)
  {
    DefaultDateChecks();
    if |text| > 1 && CheckDate(text[1]).None? then None
    else
      var n := if |text| < 5 then 5 else |text|;
      var shown := seq(n, i requires 0 <= i < n => RecInfoSubfield(text, i));
      assert shown[1] == RecInfoSubfield(text, 1) && CheckDate(shown[1]) == Some(0);
      Some(shown)
  }

  /** The error checking of load_file on the patient subfields, in place:
      first the sex and birthdate are checked, then missing subfields are
      appended or blank ones replaced. */
  method FixPtIdFields(text: seq<string>) returns (r: Option<seq<string>>)
    ensures r == PtIdShown(text)
  {
    var checked := CheckPtIdSexAndDate(text);
    if checked.None? {
      return None;
    }
    var t := CompletePtId(checked.value);
    assert forall i :: 0 <= i < |t| ==> t[i] == PtIdSubfield(text, i);
    assert PtIdShown(text).Some?;
    assert t == PtIdShown(text).value;
    r := Some(t);
  }

  method CheckPtIdSexAndDate(text: seq<string>) returns (r: Option<seq<string>>)
    ensures r.None? <==> |text| > 2 && CheckDate(text[2]).None?
    ensures r.Some? ==>
      && |r.value| == |text|
      && (forall i :: 0 <= i < |text| && i != 1 && i != 2 ==> r.value[i] == text[i])
      && (|text| > 1 ==> r.value[1] == if text[1] in {"X", "F", "M"} then text[1] else "X")
      && (|text| > 2 ==> r.value[2] == if CheckDate(text[2]) == Some(-1) then "01-JAN-2001" else text[2])
  {
    var t := text;
    if |t| > 1 {
      if t[1] !in {"X", "F", "M"} {
        t := t[1 := "X"];
      }
      if |t| > 2 {
        var valid := CheckDate(t[2]);
        if valid.None? {
          return None;
        }
        if valid == Some(-1) {
          t := t[2 := "01-JAN-2001"];
        }
      }
    }
    r := Some(t);
  }

  method CompletePtId(text: seq<string>) returns (t: seq<string>)
    ensures |t| == if |text| < 4 then 4 else |text|
    ensures |text| >= 1 ==> t[0] == if |text| >= 4 && Blank(text[0]) then "X" else text[0]
    ensures |text| == 0 ==> t[0] == "X"
    ensures t[1] == if |text| <= 1 then "X" else text[1]
    ensures t[2] == if |text| <= 2 then "01-JAN-2001" else text[2]
    ensures t[3] == if |text| <= 3 || Blank(text[3]) then "X" else text[3]
    ensures forall i :: 4 <= i < |t| ==> t[i] == text[i]
  {
    t := text;
    if |t| == 0 {
      t := ["X", "X", "01-JAN-2001", "X"];
    } else if |t| == 1 {
      t := t + ["X", "01-JAN-2001", "X"];
    } else if |t| == 2 {
      t := t + ["01-JAN-2001", "X"];
    } else if |t| == 3 {
      t := t + ["X"];
    } else {
      if Blank(t[0]) {
        t := t[0 := "X"];
      }
      if Blank(t[3]) {
        t := t[3 := "X"];
      }
    }
  }

  /** The error checking of load_file on the recording subfields, in place:
      first the start date is checked, then missing subfields are appended or
      blank ones replaced. */
  method FixRecInfoFields(text: seq<string>) returns (r: Option<seq<string>>)
    ensures r == RecInfoShown(text)
  {
    var checked := CheckRecInfoDate(text);
    if checked.None? {
      return None;
    }
    var t := CompleteRecInfo(checked.value);
    assert forall i :: 0 <= i < |t| ==> t[i] == RecInfoSubfield(text, i);
    assert RecInfoShown(text).Some?;
    assert t == RecInfoShown(text).value;
    r := Some(t);
  }

  method CheckRecInfoDate(text: seq<string>) returns (r: Option<seq<string>>)
    ensures r.None? <==> |text| > 1 && CheckDate(text[1]).None?
    ensures r.Some? ==>
      && |r.value| == |text|
      && (forall i :: 0 <= i < |text| && i != 1 ==> r.value[i] == text[i])
      && (|text| > 1 ==> r.value[1] == if CheckDate(text[1]) == Some(-1) then "01-JAN-2001" else text[1])
  {
    var t := text;
    if |t| > 1 {
      var valid := CheckDate(t[1]);
      if valid.None? {
        return None;
      }
      if valid == Some(-1) {
        t := t[1 := "01-JAN-2001"];
      }
    }
    r := Some(t);
  }

  method CompleteRecInfo(text: seq<string>) returns (t: seq<string>)
    ensures |t| == if |text| < 5 then 5 else |text|
    ensures t[0] == if |text| == 0 then "Startdate" else text[0]
    ensures t[1] == if |text| <= 1 then "01-JAN-2001" else text[1]
    ensures forall i :: 2 <= i <= 4 ==> t[i] == if |text| <= i || (|text| >= 5 && Blank(text[i])) then "X" else text[i]
    ensures forall i :: 5 <= i < |t| ==> t[i] == text[i]
  {
    t := text;
    if |t| == 0 {
      t := ["Startdate", "01-JAN-2001", "X", "X", "X"];
    } else if |t| == 1 {
      t := t + ["01-JAN-2001", "X", "X", "X"];
    } else if |t| == 2 {
      t := t + ["X", "X", "X"];
    } else if |t| == 3 {
      t := t + ["X", "X"];
    } else if |t| == 4 {
      t := t + ["X"];
    } else {
      if Blank(t[2]) {
        t := t[2 := "X"];
      }
      if Blank(t[3]) {
        t := t[3 := "X"];
      }
      if Blank(t[4]) {
        t := t[4 := "X"];
      }
    }
  }

  /** load_file checks the birthdate and start date before it looks for
      "X", so a date subfield of "X" is shown as 01-JAN-2001. */
  lemma ShownDatesAreNeverX(pt: seq<string>, rec: seq<string>)
    ensures PtIdShown(pt).Some? ==> PtIdShown(pt).value[2] != "X"
    ensures RecInfoShown(rec).Some? ==> RecInfoShown(rec).value[1] != "X"
  {
    assert !DateShape("X") by {
      SplitNoSep("X", '-');
    }
  }

  /** A date subfield shown by load_file: None for "X", otherwise the day,
      month and year it reads (not necessarily a valid calendar date);
      Failure where a number does not parse. */
  function ShownDate(text: string): (r: Result<Option<Date>>)
    requires CheckDate(text) == Some(0)
    ensures r.Success? && r.value.Some? ==> 1 <= r.value.value.month <= 12
  {
    if text == "X" then Success(None)
    else
      var parts := Split(text, '-');
      match (ParseNat(parts[2]), ParseNat(parts[0]))
      case (Some(year), Some(day)) => Success(Some(Date(year, MonthNumber(parts[1]).value, day)))
      case _ => Failure("invalid literal for int()")
  }

  /** The year of the header's two-digit start year as load_file reads it:
      19yy above 20, 20yy otherwise. */
  function OldStartYear(yy: nat): (y: nat)
    ensures yy <= 99 ==> 1921 <= y <= 2020 && y % 100 == yy
  {
    if yy > 20 then yy + 1900 else yy + 2000
  }

  /** The anonymizer and the header conversion disagree on the century of
      the two-digit years 21 to 30. */
  lemma StartYearCutoffsDiffer(yy: nat)
    requires yy <= 99
    ensures OldStartYear(yy) != StartYear(yy) <==> 21 <= yy <= 30
  {
  }

  /** The start date and time of the header (bytes 168 to 183) as load_file
      shows them: "dd.mm.yy" and "hh.mm.ss" read digit pair by digit pair,
      not necessarily valid; None where a pair does not parse. */
  function OldStart(text: string): (r: Option<DateTime>)
    requires |text| == 16
    ensures r.Some? ==> ParseNat(text[6..8]).Some? && r.value.date.year == OldStartYear(ParseNat(text[6..8]).value)
  {
    match (ParseNat(text[6..8]), ParseNat(text[3..5]), ParseNat(text[0..2]),
           ParseNat(text[8..10]), ParseNat(text[11..13]), ParseNat(text[14..16]))
    case (Some(yy), Some(mm), Some(dd), Some(hh), Some(mi), Some(ss)) =>
      Some(DateTime(Date(OldStartYear(yy), mm, dd), hh, mi, ss))
    case _ => None
  }

  /** The original column of the window. */
  datatype Original = Original(code: string, sex: Sex, dob: Option<Date>, name: string, other: string,
                               recDate: Option<Date>, admin: string, tech: string, equip: string,
                               recOther: string, start: DateTime)

  // ---------------------------------------------------------------------------
  // The window

  /** The editors of the new column: the patient code, sex, birthdate (or
      "X"), name and other patient subfields; the recording start date (or
      "X"), admin code, technician, equipment and other recording subfields;
      and the start date and time. */
  datatype Entries = Entries(code: string, sex: Sex, dobIsX: bool, dob: Date, name: string, other: string,
                             recDateIsX: bool, recDate: Date, admin: string, tech: string, equip: string,
                             recOther: string, start: DateTime)
  {
    /** The date and time editors only ever hold valid values. */
    predicate Valid()
    {
      ValidDate(dob) && ValidDate(recDate) && ValidDateTime(start)
    }
  }

  /** The new column as set_defaults fills it. */
  const DefaultEntries := Entries("X", Unknown, true, Date(2001, 1, 1), "X", "", true, Date(2001, 1, 1),
                                  "X", "X", "X", "", DateTime(Date(2001, 1, 1), 1, 1, 1))

  /** What an original-column date editor shows once load_file has run: the
      date read from the header, or the editor's initial 1 January 2001 where
      the subfield was "X" or Qt refused the date as invalid. */
  function ShownOrInitial(d: Option<Date>): (r: Date)
    ensures ValidDate(r)
    ensures d.Some? && ValidDate(d.value) ==> r == d.value
    ensures (d.None? || !ValidDate(d.value)) ==> r == Date(2001, 1, 1)
  {
    if d.Some? && ValidDate(d.value) then d.value else Date(2001, 1, 1)
  }

  /** The original start date and time editors: each part read from the
      header where Qt accepts it, the initial 1 January 2001, 01:01:01
      otherwise. */
  function ShownStart(t: DateTime): (r: DateTime)
    ensures ValidDateTime(r)
    ensures ValidDate(t.date) ==> r.date == t.date
    ensures 0 <= t.hour < 24 && 0 <= t.minute < 60 && 0 <= t.second < 60 ==>
      r.hour == t.hour && r.minute == t.minute && r.second == t.second
  {
    var d := ShownOrInitial(Some(t.date));
    if 0 <= t.hour < 24 && 0 <= t.minute < 60 && 0 <= t.second < 60 then DateTime(d, t.hour, t.minute, t.second)
    else DateTime(d, 1, 1, 1)
  }

  /** The new column after copy_original: every editor takes the value the
      original column shows. */
  function CopiedEntries(o: Original): (e: Entries)
    ensures e.Valid()
    ensures e.code == o.code && e.sex == o.sex && e.name == o.name && e.other == o.other
    ensures e.admin == o.admin && e.tech == o.tech && e.equip == o.equip && e.recOther == o.recOther
    ensures e.dobIsX <==> o.dob.None?
    ensures e.recDateIsX <==> o.recDate.None?
  {
    Entries(o.code, o.sex, o.dob.None?, ShownOrInitial(o.dob), o.name, o.other,
            o.recDate.None?, ShownOrInitial(o.recDate), o.admin, o.tech, o.equip, o.recOther, ShownStart(o.start))
  }

  /** After copy_original the date subfields anon_file writes are "X" exactly
      where the original ones were, and otherwise read back as the original
      dates. */
  lemma CopiedDatesReadBack(o: Original)
    requires o.dob.Some? ==> ValidDate(o.dob.value)
    requires o.recDate.Some? ==> ValidDate(o.recDate.value)
    ensures var e := CopiedEntries(o);
      && (DateField(e.dobIsX, e.dob) == "X" <==> o.dob.None?)
      && (DateField(e.recDateIsX, e.recDate) == "X" <==> o.recDate.None?)
      && (o.dob.Some? ==> ParseBirthdate(DateField(e.dobIsX, e.dob)) == o.dob)
      && (o.recDate.Some? ==> ParseBirthdate(DateField(e.recDateIsX, e.recDate)) == o.recDate)
  {
    var e := CopiedEntries(o);
    DateFieldRead(e.dobIsX, e.dob);
    DateFieldRead(e.recDateIsX, e.recDate);
  }

  class Anonymizer {
    /** The save-EDF info whose fields are replaced. */
    const data: SaveEdfInfo
    /** The editors of the new values. */
    var entries: Entries
    /** The values read from the file being saved. */
    var original: Option<Original>

    /** The window as set up with the defaults chosen. */
    constructor (data: SaveEdfInfo)
      ensures this.data == data && entries == DefaultEntries && entries.Valid() && original.None?
    {
      this.data := data;
      entries := DefaultEntries;
      original := None;
    }

    /** load_file on the header's identification fields and start: the
        original column shows the subfields after error checking; false
        where load_file raises (an unknown month, a number that does not
        parse). */
    method LoadFile(ptIdText: string, recInfoText: string, startText: string) returns (ok: bool)
      requires |startText| == 16
      modifies this`original
      ensures ok ==> original.Some?
      ensures !ok ==> original == old(original)
      ensures ok <==>
        && PtIdShown(Split(ptIdText, ' ')).Some? && RecInfoShown(Split(recInfoText, ' ')).Some?
        && ShownDate(PtIdShown(Split(ptIdText, ' ')).value[2]).Success?
        && ShownDate(RecInfoShown(Split(recInfoText, ' ')).value[1]).Success?
        && OldStart(startText).Some?
      ensures ok ==>
        var pt, rec, o := PtIdShown(Split(ptIdText, ' ')).value, RecInfoShown(Split(recInfoText, ' ')).value,
                          original.value;
        && o.code == pt[0] && o.sex == SexOfLetter(pt[1]) && o.name == pt[3] && o.other == Concat(pt[4..])
        && o.dob == ShownDate(pt[2]).value && o.recDate == ShownDate(rec[1]).value
        && o.admin == rec[2] && o.tech == rec[3] && o.equip == rec[4] && o.recOther == Concat(rec[5..])
        && o.start == OldStart(startText).value
    {
      var pt := FixPtIdFields(Split(ptIdText, ' '));
      var rec := FixRecInfoFields(Split(recInfoText, ' '));
      if pt.None? || rec.None? {
        return false;
      }
      var p, r := pt.value, rec.value;
      var dob, recDate, st := ShownDate(p[2]), ShownDate(r[1]), OldStart(startText);
      if dob.Failure? || recDate.Failure? || st.None? {
        return false;
      }
      original := Some(Original(p[0], SexOfLetter(p[1]), dob.value, p[3], Concat(p[4..]), recDate.value,
                                r[2], r[3], r[4], Concat(r[5..]), st.value));
      ok := true;
    }

    /** anon_file: blank code and name become "X"; the patient field is
        assembled and, when longer than 80 characters, rejected with nothing
        saved; otherwise blank recording subfields become "X", the recording
        field is assembled and likewise rejected when too long; otherwise both
        are padded to 80 characters and stored with the start date and time. */
    method AnonFile() returns (saved: bool)
      requires entries.Valid()
      modifies this`entries, data`ptId, data`recInfo, data`startDate, data`startTime
      ensures entries.Valid()
      ensures var e, e0 := entries, old(entries);
        var pt := PtIdText(e.code, e.sex, DateField(e.dobIsX, e.dob), e.name, e.other);
        && e.code == Fill(e0.code) && e.name == Fill(e0.name)
        && (|pt| <= 80 ==> e.admin == Fill(e0.admin) && e.tech == Fill(e0.tech) && e.equip == Fill(e0.equip))
        && (|pt| > 80 ==> e.admin == e0.admin && e.tech == e0.tech && e.equip == e0.equip)
        && e == e0.(code := e.code, name := e.name, admin := e.admin, tech := e.tech, equip := e.equip)
      ensures var e := entries;
        var pt := PtIdText(e.code, e.sex, DateField(e.dobIsX, e.dob), e.name, e.other);
        var rec := RecInfoText(DateField(e.recDateIsX, e.recDate), e.admin, e.tech, e.equip, e.recOther);
        && (saved <==> |pt| <= 80 && |rec| <= 80)
        && (saved ==>
              && data.ptId == Pad80(pt) && data.recInfo == Pad80(rec)
              && data.startDate == FormatStartDate(e.start.date) && data.startTime == FormatStartTime(e.start))
      ensures !saved ==>
        && data.ptId == old(data.ptId) && data.recInfo == old(data.recInfo)
        && data.startDate == old(data.startDate) && data.startTime == old(data.startTime)
    {
      entries := entries.(code := Fill(entries.code), name := Fill(entries.name));
      var e := entries;
      var pt := PtIdText(e.code, e.sex, DateField(e.dobIsX, e.dob), e.name, e.other);
      if |pt| > 80 {
        return false;
      }
      entries := e.(admin := Fill(e.admin), tech := Fill(e.tech), equip := Fill(e.equip));
      e := entries;
      var rec := RecInfoText(DateField(e.recDateIsX, e.recDate), e.admin, e.tech, e.equip, e.recOther);
      if |rec| > 80 {
        return false;
      }
      data.ptId, data.recInfo := Pad80(pt), Pad80(rec);
      data.startDate, data.startTime := FormatStartDate(e.start.date), FormatStartTime(e.start);
      saved := true;
    }

    /** copy_original with the copy box checked: the set-defaults box is
        unchecked (its handler then does nothing) and the new column takes
        the values of the original column; before any header was read the
        entries are left as they are. */
    method CopyOriginal()
      modifies this`entries
      ensures original.Some? ==> entries == CopiedEntries(original.value)
      ensures original.None? ==> entries == old(entries)
    {
      if original.Some? {
        entries := CopiedEntries(original.value);
      }
    }
  }

  // Round trips

  /** The patient field of anon_file splits back into its five subfields
      followed by one empty subfield per padding space. */
  lemma PtIdSplit(code: string, sex: Sex, date: string, name: string, other: string)
    requires ' ' !in date
    requires |PtIdText(code, sex, date, name, other)| <= 80
    ensures var pt := PtIdText(code, sex, date, name, other);
      Split(Pad80(pt), ' ')
        == [Underscored(code), SexLetter(sex), date, Underscored(name), Underscored(other)] + Empties(80 - |pt|)
  {
    var parts := [Underscored(code), SexLetter(sex), date, Underscored(name), Underscored(other)];
    PtIdTextIsJoin(code, sex, date, name, other);
    SplitPadded(parts, 80 - |Join(parts, ' ')|);
  }

  lemma RecInfoSplit(date: string, admin: string, tech: string, equip: string, other: string)
    requires ' ' !in date
    requires |RecInfoText(date, admin, tech, equip, other)| <= 80
    ensures var rec := RecInfoText(date, admin, tech, equip, other);
      Split(Pad80(rec), ' ')
        == ["Startdate", date, Underscored(admin), Underscored(tech), Underscored(equip), Underscored(other)]
           + Empties(80 - |rec|)
  {
    var parts := ["Startdate", date, Underscored(admin), Underscored(tech), Underscored(equip), Underscored(other)];
    RecInfoTextIsJoin(date, admin, tech, equip, other);
    SplitPadded(parts, 80 - |Join(parts, ' ')|);
  }

  /** The subfields read back from the saved patient field. */
  lemma PtIdRead(code: string, sex: Sex, date: string, name: string, other: string)
    requires ' ' !in date
    requires |PtIdText(code, sex, date, name, other)| <= 80
    ensures var pt := Split(Pad80(PtIdText(code, sex, date, name, other)), ' ');
      && |pt| >= 5
      && pt[0] == Underscored(code) && pt[1] == SexLetter(sex) && pt[2] == date
      && pt[3] == Underscored(name) && Concat(pt[4..]) == Underscored(other)
  {
    var k := 80 - |PtIdText(code, sex, date, name, other)|;
    PtIdSplit(code, sex, date, name, other);
    var parts := [Underscored(code), SexLetter(sex), date, Underscored(name), Underscored(other)] + Empties(k);
    assert parts[4..] == [Underscored(other)] + Empties(k);
    ConcatEmpties([Underscored(other)], k);
  }

  /** The subfields read back from the saved recording field. */
  lemma RecInfoRead(date: string, admin: string, tech: string, equip: string, other: string)
    requires ' ' !in date
    requires |RecInfoText(date, admin, tech, equip, other)| <= 80
    ensures var rec := Split(Pad80(RecInfoText(date, admin, tech, equip, other)), ' ');
      && |rec| >= 6
      && rec[0] == "Startdate" && rec[1] == date && rec[2] == Underscored(admin)
      && rec[3] == Underscored(tech) && rec[4] == Underscored(equip) && Concat(rec[5..]) == Underscored(other)
  {
    var k := 80 - |RecInfoText(date, admin, tech, equip, other)|;
    RecInfoSplit(date, admin, tech, equip, other);
    var parts := ["Startdate", date, Underscored(admin), Underscored(tech), Underscored(equip), Underscored(other)]
                 + Empties(k);
    assert parts[5..] == [Underscored(other)] + Empties(k);
    ConcatEmpties([Underscored(other)], k);
  }

  /** A date subfield the anonymizer writes is "X" exactly when chosen, and
      otherwise reads back as the date entered. */
  lemma DateFieldRead(isX: bool, d: Date)
    requires ValidDate(d)
    ensures DateField(isX, d) == "X" <==> isX
    ensures !isX ==> ParseBirthdate(DateField(isX, d)) == Some(d) && CheckDate(DateField(isX, d)) == Some(0)
  {
    if !isX {
      FormatDateRoundTrip(d);
      assert |FormatDate(d)| == 11;
    }
  }

  /** What anon_file saves converts into a header carrying exactly the values
      entered: code, sex, name and the rest with spaces as underscores, the
      birthdate (or none for "X"), admin code, technician and equipment, and
      the start with its year read back from two digits. */
  lemma SavedFieldsConvert(e: Entries)
    requires e.Valid()
    requires |PtIdText(e.code, e.sex, DateField(e.dobIsX, e.dob), e.name, e.other)| <= 80
    requires |RecInfoText(DateField(e.recDateIsX, e.recDate), e.admin, e.tech, e.equip, e.recOther)| <= 80
    ensures var h := HeaderOf(Pad80(PtIdText(e.code, e.sex, DateField(e.dobIsX, e.dob), e.name, e.other)),
                              Pad80(RecInfoText(DateField(e.recDateIsX, e.recDate), e.admin, e.tech, e.equip,
                                                e.recOther)),
                              FormatStartDate(e.start.date), FormatStartTime(e.start));
      && h.Success?
      && h.value.patientcode == Underscored(e.code) && h.value.gender == SexLetter(e.sex)
      && h.value.birthdate == (if e.dobIsX then None else Some(e.dob))
      && h.value.patientname == Underscored(e.name) && h.value.patientAdditional == Underscored(e.other)
      && h.value.admincode == Underscored(e.admin) && h.value.technician == Underscored(e.tech)
      && h.value.equipment == Underscored(e.equip) && h.value.recordingAdditional == Underscored(e.recOther)
      && h.value.startdate
         == DateTime(Date(StartYear(e.start.date.year % 100), e.start.date.month, e.start.date.day),
                     e.start.hour, e.start.minute, e.start.second)
  {
    PtIdRead(e.code, e.sex, DateField(e.dobIsX, e.dob), e.name, e.other);
    RecInfoRead(DateField(e.recDateIsX, e.recDate), e.admin, e.tech, e.equip, e.recOther);
    DateFieldRead(e.dobIsX, e.dob);
    StartRoundTrip(e.start);
  }

  /** A code or name filled by anon_file is neither empty nor blank once its
      spaces are underscores. */
  lemma FilledNotBlank(s: string)
    ensures !Blank(Underscored(Fill(s)))
  {
    if Fill(s) != "X" {
      assert |Fill(s)| >= 1 && Fill(s) != " ";
      if |Fill(s)| == 1 {
        assert Underscored(Fill(s))[0] != ' ';
      }
    }
  }

  /** With at least four patient subfields and a birthdate whose month is
      known, load_file shows subfields 0 to 3 as PtIdSubfield describes and
      the rest unchanged. */
  lemma PtIdShownOf(text: seq<string>)
    requires |text| >= 4 && CheckDate(text[2]).Some?
    ensures var shown := PtIdShown(text);
      && shown.Some? && |shown.value| == |text| && shown.value[4..] == text[4..]
      && forall i :: 0 <= i < 4 ==> shown.value[i] == PtIdSubfield(text, i)
  {
  }

  /** With at least five recording subfields and a start date whose month is
      known, load_file shows subfields 0 to 4 as RecInfoSubfield describes and
      the rest unchanged. */
  lemma RecInfoShownOf(text: seq<string>)
    requires |text| >= 5 && CheckDate(text[1]).Some?
    ensures var shown := RecInfoShown(text);
      && shown.Some? && |shown.value| == |text| && shown.value[5..] == text[5..]
      && forall i :: 0 <= i < 5 ==> shown.value[i] == RecInfoSubfield(text, i)
  {
  }

  /** What anon_file saves, read back by load_file, shows the same patient
      subfields, except that a birthdate of "X" is shown as 01-JAN-2001. */
  lemma SavedPatientReload(code: string, sex: Sex, dobIsX: bool, dob: Date, name: string, other: string)
    requires ValidDate(dob)
    requires |PtIdText(Fill(code), sex, DateField(dobIsX, dob), Fill(name), other)| <= 80
    ensures var pt := Split(Pad80(PtIdText(Fill(code), sex, DateField(dobIsX, dob), Fill(name), other)), ' ');
      var shown := PtIdShown(pt);
      && shown.Some?
      && shown.value[0] == Underscored(Fill(code)) && shown.value[1] == SexLetter(sex)
      && shown.value[2] == (if dobIsX then "01-JAN-2001" else FormatDate(dob))
      && shown.value[3] == Underscored(Fill(name)) && Concat(shown.value[4..]) == Underscored(other)
  {
    var pt := Split(Pad80(PtIdText(Fill(code), sex, DateField(dobIsX, dob), Fill(name), other)), ' ');
    PtIdRead(Fill(code), sex, DateField(dobIsX, dob), Fill(name), other);
    DateFieldRead(dobIsX, dob);
    FilledNotBlank(code);
    FilledNotBlank(name);
    assert !DateShape("X") by {
      SplitNoSep("X", '-');
    }
    PtIdShownOf(pt);
  }

  /** What anon_file saves, read back by load_file, shows the same recording
      subfields, except that a start date of "X" is shown as 01-JAN-2001. */
  lemma SavedRecordingReload(recDateIsX: bool, recDate: Date, admin: string, tech: string, equip: string,
                             other: string)
    requires ValidDate(recDate)
    requires |RecInfoText(DateField(recDateIsX, recDate), Fill(admin), Fill(tech), Fill(equip), other)| <= 80
    ensures var rec := Split(Pad80(RecInfoText(DateField(recDateIsX, recDate), Fill(admin), Fill(tech),
                                               Fill(equip), other)), ' ');
      var shown := RecInfoShown(rec);
      && shown.Some?
      && shown.value[0] == "Startdate"
      && shown.value[1] == (if recDateIsX then "01-JAN-2001" else FormatDate(recDate))
      && shown.value[2] == Underscored(Fill(admin)) && shown.value[3] == Underscored(Fill(tech))
      && shown.value[4] == Underscored(Fill(equip)) && Concat(shown.value[5..]) == Underscored(other)
  {
    var rec := Split(Pad80(RecInfoText(DateField(recDateIsX, recDate), Fill(admin), Fill(tech), Fill(equip),
                                       other)), ' ');
    RecInfoRead(DateField(recDateIsX, recDate), Fill(admin), Fill(tech), Fill(equip), other);
    DateFieldRead(recDateIsX, recDate);
    FilledNotBlank(admin);
    FilledNotBlank(tech);
    FilledNotBlank(equip);
    assert !DateShape("X") by {
      SplitNoSep("X", '-');
    }
    RecInfoShownOf(rec);
  }
}
