/** The history table of src/components/Dashboard.tsx: the ten most recent
    analyses, newest first, and each period's `YYYY-MM-DD até YYYY-MM-DD`
    text rewritten with day-first dates. */
module Display {
  import opened Text
  import opened Types
  import Store
  import opened Dashboard

  /** `parts[i]` of a destructuring, or JavaScript's `undefined` text when
      the part is missing. */
  function Part(parts: seq<string>, i: nat): (p: string)
    ensures i < |parts| ==> p == parts[i]
    ensures i >= |parts| ==> p == "undefined"
  {
    if i < |parts| then parts[i] else "undefined"
  }

  /** `const [year, month, day] = date.split('-')` shown as `day/month/year`. */
  function DisplayDate(date: string): string {
    var parts := Split(date, "-");
    Part(parts, 2) + "/" + Part(parts, 1) + "/" + Part(parts, 0)
  }

  /** A period with the range separator has each side rewritten and is
      re-joined; any other period is shown as stored. */
  function DisplayPeriod(periodo: string): (shown: string)
    ensures !Contains(periodo, PeriodSeparator) ==> shown == periodo
  {
    if Contains(periodo, PeriodSeparator) then
      var dates := Split(periodo, PeriodSeparator);
      Join(seq(|dates|, i requires 0 <= i < |dates| => DisplayDate(dates[i])), PeriodSeparator)
    else periodo
  }

  /** An ISO date `y-m-d` shows as `d/m/y`. */
  lemma DisplayIsoDate(y: string, m: string, d: string)
    requires '-' !in y && '-' !in m && '-' !in d
    ensures DisplayDate(y + "-" + m + "-" + d) == d + "/" + m + "/" + y
  {
    var parts := [y, m, d];
    assert parts[1..] == [m, d];
    assert parts[1..][1..] == [d];
    assert Join([m, d], "-") == m + "-" + d;
    assert Join(parts, "-") == y + "-" + (m + "-" + d);
    assert y + "-" + (m + "-" + d) == y + "-" + m + "-" + d;
    SplitJoin(parts, "-");
  }

  /** A date missing its month and day shows the missing parts as
      "undefined". */
  lemma DisplayYearOnly()
    ensures DisplayDate("2024") == "undefined/undefined/2024"
  {
    YearOnlySplits();
  }

  lemma YearOnlySplits()
    ensures Split("2024", "-") == ["2024"]
  {
    assert Join(["2024"], "-") == "2024";
    SplitJoin(["2024"], "-");
  }

  /** A year, month or day: no dash and no space. */
  predicate IsDateField(x: string) {
    '-' !in x && ' ' !in x
  }

  /** A range of two dates without spaces contains the separator and splits
      into the two dates. */
  lemma RangeSplits(start: string, end: string)
    requires ' ' !in start && ' ' !in end
    ensures Contains(start + PeriodSeparator + end, PeriodSeparator)
    ensures Split(start + PeriodSeparator + end, PeriodSeparator) == [start, end]
  {
    RangeContainsSeparator(start, end);
    RangeJoin(start, end);
    assert PeriodSeparator[0] == ' ';
    SplitJoin([start, end], PeriodSeparator);
  }

  lemma RangeJoin(start: string, end: string)
    ensures Join([start, end], PeriodSeparator) == start + PeriodSeparator + end
  {
    assert [start, end][1..] == [end];
  }

  lemma RangeContainsSeparator(start: string, end: string)
    ensures Contains(start + PeriodSeparator + end, PeriodSeparator)
  {
    assert StartsWith(PeriodSeparator + end, PeriodSeparator);
    ContainsAfter(start, PeriodSeparator + end, PeriodSeparator);
    assert start + (PeriodSeparator + end) == start + PeriodSeparator + end;
  }

  /** A range is shown as its two dates, each rewritten, around the separator. */
  lemma DisplayRange(start: string, end: string)
    requires ' ' !in start && ' ' !in end
    ensures DisplayPeriod(start + PeriodSeparator + end) ==
            DisplayDate(start) + PeriodSeparator + DisplayDate(end)
  {
    var periodo := start + PeriodSeparator + end;
    RangeSplits(start, end);
    var dates := Split(periodo, PeriodSeparator);
    var shown := seq(|dates|, i requires 0 <= i < |dates| => DisplayDate(dates[i]));
    assert shown == [DisplayDate(start), DisplayDate(end)];
    assert shown[1..] == [DisplayDate(end)];
    assert Join(shown[1..], PeriodSeparator) == DisplayDate(end);
    assert DisplayPeriod(periodo) == Join(shown, PeriodSeparator);
  }

  /** An ISO date built from date fields holds no space. */
  lemma IsoDateHasNoSpace(y: string, m: string, d: string)
    requires IsDateField(y) && IsDateField(m) && IsDateField(d)
    ensures ' ' !in y + "-" + m + "-" + d
  {
  }

  /** A saved range `start até end` of two ISO dates shows both dates
      day-first around the same separator. */
  lemma DisplaySavedRange(y1: string, m1: string, d1: string, y2: string, m2: string, d2: string)
    requires IsDateField(y1) && IsDateField(m1) && IsDateField(d1)
    requires IsDateField(y2) && IsDateField(m2) && IsDateField(d2)
    ensures DisplayPeriod((y1 + "-" + m1 + "-" + d1) + PeriodSeparator + (y2 + "-" + m2 + "-" + d2)) ==
            (d1 + "/" + m1 + "/" + y1) + PeriodSeparator + (d2 + "/" + m2 + "/" + y2)
  {
    IsoDateHasNoSpace(y1, m1, d1);
    IsoDateHasNoSpace(y2, m2, d2);
    DisplayRange(y1 + "-" + m1 + "-" + d1, y2 + "-" + m2 + "-" + d2);
    DisplayIsoDate(y1, m1, d1);
    DisplayIsoDate(y2, m2, d2);
  }

  /** A record saved for the range picked as two ISO dates is listed with
      both dates day-first. */
  lemma SavedRangeShowsDayFirst(st: State, user: User, id: string, timestamp: string, store: Store.Storage,
                                y1: string, m1: string, d1: string, y2: string, m2: string, d2: string)
    requires CanSave(st)
    requires IsDateField(y1) && IsDateField(m1) && IsDateField(d1)
    requires IsDateField(y2) && IsDateField(m2) && IsDateField(d2)
    requires st.startDate == y1 + "-" + m1 + "-" + d1 && st.endDate == y2 + "-" + m2 + "-" + d2
    ensures var saved := HandleSave(st, user, id, timestamp, store).state.savedAnalyses;
            |saved| > 0 &&
            DisplayPeriod(saved[|saved| - 1].formData.periodo) ==
            (d1 + "/" + m1 + "/" + y1) + PeriodSeparator + (d2 + "/" + m2 + "/" + y2)
  {
    DisplaySavedRange(y1, m1, d1, y2, m2, d2);
  }

  function Reverse<T>(xs: seq<T>): (r: seq<T>)
    ensures |r| == |xs|
  {
    if |xs| == 0 then [] else Reverse(xs[1..]) + [xs[0]]
  }

  lemma {:induction false} ReverseIndex<T>(xs: seq<T>)
    ensures forall i :: 0 <= i < |xs| ==> Reverse(xs)[i] == xs[|xs| - 1 - i]
  {
    if |xs| > 0 {
      ReverseIndex(xs[1..]);
    }
  }

  const HistoryLength := 10

  /** `savedAnalyses.slice(-10).reverse()`. */
  function Recent(saved: seq<AnalysisData>): seq<AnalysisData> {
    var start := if |saved| > HistoryLength then |saved| - HistoryLength else 0;
    Reverse(saved[start..])
  }

  /** The history shows at most ten records, the newest first, each taken
      from the end of the list. */
  lemma RecentIsNewestFirst(saved: seq<AnalysisData>)
    ensures |Recent(saved)| == if |saved| > HistoryLength then HistoryLength else |saved|
    ensures forall i :: 0 <= i < |Recent(saved)| ==> Recent(saved)[i] == saved[|saved| - 1 - i]
  {
    var start := if |saved| > HistoryLength then |saved| - HistoryLength else 0;
    ReverseIndex(saved[start..]);
  }
}
