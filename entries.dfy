/** Diary segmentation (src/entries.py): the lines of every page, in order, are grouped into
    entries, each opened by a date-header line. The PDF reader is not modelled: the pages come in
    as their extracted texts. */
module Entries {
  import opened Wrappers
  import opened Text

  /** The weekday and month names of the date pattern, lower-cased (the pattern ignores case). */
  const Weekdays: seq<string> := ["monday", "tuesday", "wednesday", "thursday", "friday", "saturday", "sunday"]
  const Months: seq<string> :=
    ["january", "february", "march", "april", "may", "june", "july", "august", "september", "october", "november", "december"]

  /** The name `w` (lower case) is spelled at position `i` of `s`, in any case. */
  predicate WordAt(s: string, i: nat, w: string)
  {
    i + |w| <= |s| && Lower(s[i..i + |w|]) == w
  }

  /** The end of the run of whitespace starting at `i` (a greedy `\s*`). */
  function SkipSpaces(s: string, i: nat): (j: nat)
    requires i <= |s|
    ensures i <= j <= |s|
    ensures forall k :: i <= k < j ==> IsSpace(s[k])
    ensures j == |s| || !IsSpace(s[j])
    decreases |s| - i
  {
    if i < |s| && IsSpace(s[i]) then SkipSpaces(s, i + 1) else i
  }

  /** `\s+194[2-4]` at position `i`. */
  predicate YearAt(s: string, i: nat)
  {
    i <= |s| &&
    var j := SkipSpaces(s, i);
    j > i && j + 4 <= |s| && s[j..j + 3] == "194" && '2' <= s[j + 3] <= '4'
  }

  /** `\d{1,2},\s+194[2-4]` at position `j`, with a day of `n` digits. */
  predicate DayAt(s: string, j: nat, n: nat)
  {
    && 1 <= n <= 2 && j + n < |s|
    && IsDigit(s[j]) && (n == 2 ==> IsDigit(s[j + 1]))
    && s[j + n] == ','
    && YearAt(s, j + n + 1)
  }

  /** `\s+\d{1,2},\s+194[2-4]` at position `i`. */
  predicate DayYearAt(s: string, i: nat)
  {
    i <= |s| &&
    var j := SkipSpaces(s, i);
    j > i && (DayAt(s, j, 1) || DayAt(s, j, 2))
  }

  /** A month name followed by the day and the year, at position `i`. */
  predicate MonthDateAt(s: string, i: nat)
  {
    exists m :: m in Months && WordAt(s, i, m) && DayYearAt(s, i + |m|)
  }

  /** Where the month must start after a weekday ending at `i`: past an optional comma and spaces. */
  function AfterWeekday(s: string, i: nat): nat
    requires i <= |s|
  {
    SkipSpaces(s, if i < |s| && s[i] == ',' then i + 1 else i)
  }

  /** The date pattern matches at the start of `s` (`re.match`, so trailing text is allowed):
      an optional weekday, a month, a one- or two-digit day, a comma and a year 1942 to 1944. */
  predicate IsDateHeader(s: string)
  {
    || MonthDateAt(s, 0)
    || (exists w :: w in Weekdays && WordAt(s, 0, w) && MonthDateAt(s, AfterWeekday(s, |w|)))
  }

  /** A header is never empty. */
  lemma HeaderNonEmpty(s: string)
    requires IsDateHeader(s)
    ensures s != ""
  {
  }

  /** `Lower(s) == w`, checked character by character. */
  lemma LowerIs(s: string, w: string)
    requires |s| == |w| && forall i :: 0 <= i < |s| ==> LowerChar(s[i]) == w[i]
    ensures Lower(s) == w
  {
  }

  /** Skipping spaces that stop inside `s` does not look past it. */
  lemma {:induction false} SkipSpacesExtend(s: string, t: string, i: nat)
    requires i <= |s| && SkipSpaces(s, i) < |s|
    ensures SkipSpaces(s + t, i) == SkipSpaces(s, i)
    decreases |s| - i
  {
    assert (s + t)[i] == s[i];
    if IsSpace(s[i]) {
      SkipSpacesExtend(s, t, i + 1);
    }
  }

  lemma WordAtExtend(s: string, t: string, i: nat, w: string)
    requires WordAt(s, i, w)
    ensures WordAt(s + t, i, w)
  {
    assert (s + t)[i..i + |w|] == s[i..i + |w|];
  }

  lemma YearAtExtend(s: string, t: string, i: nat)
    requires YearAt(s, i)
    ensures YearAt(s + t, i)
  {
    var j := SkipSpaces(s, i);
    SkipSpacesExtend(s, t, i);
    assert (s + t)[j..j + 3] == s[j..j + 3] && (s + t)[j + 3] == s[j + 3];
  }

  lemma DayYearAtExtend(s: string, t: string, i: nat)
    requires DayYearAt(s, i)
    ensures DayYearAt(s + t, i)
  {
    var j := SkipSpaces(s, i);
    SkipSpacesExtend(s, t, i);
    if DayAt(s, j, 1) {
      DayExtend(s, t, j, 1);
    } else {
      DayExtend(s, t, j, 2);
    }
  }

  lemma DayExtend(s: string, t: string, j: nat, n: nat)
    requires DayAt(s, j, n)
    ensures DayAt(s + t, j, n)
  {
    assert (s + t)[j] == s[j] && (s + t)[j + 1] == s[j + 1] && (s + t)[j + n] == s[j + n];
    YearAtExtend(s, t, j + n + 1);
  }

  /** A day and year at `i` lie inside the text. */
  lemma DayYearAtInside(s: string, i: nat)
    requires DayYearAt(s, i)
    ensures i < |s|
  {
  }

  lemma MonthDateAtInside(s: string, i: nat)
    requires MonthDateAt(s, i)
    ensures i < |s|
  {
    forall m: string | DayYearAt(s, i + |m|) ensures i < |s| {
      DayYearAtInside(s, i + |m|);
    }
  }

  /** Where a month must start after a weekday, when that lies inside the text, does not depend on
      what follows the text. */
  lemma AfterWeekdayExtend(s: string, t: string, k: nat)
    requires k <= |s| && AfterWeekday(s, k) < |s|
    ensures AfterWeekday(s + t, k) == AfterWeekday(s, k)
  {
    assert (s + t)[k] == s[k];
    SkipSpacesExtend(s, t, if s[k] == ',' then k + 1 else k);
  }

  lemma MonthDateAtExtend(s: string, t: string, i: nat)
    requires MonthDateAt(s, i)
    ensures MonthDateAt(s + t, i)
  {
    var m :| m in Months && WordAt(s, i, m) && DayYearAt(s, i + |m|);
    WordDateExtend(s, t, i, m);
  }

  lemma WordDateExtend(s: string, t: string, i: nat, m: string)
    requires WordAt(s, i, m) && DayYearAt(s, i + |m|)
    ensures WordAt(s + t, i, m) && DayYearAt(s + t, i + |m|)
  {
    WordAtExtend(s, t, i, m);
    DayYearAtExtend(s, t, i + |m|);
  }

  /** The pattern is applied with `re.match`: it anchors at the start only, so a header stays a
      header whatever text follows it on the line. */
  lemma HeaderPrefix(s: string, t: string)
    requires IsDateHeader(s)
    ensures IsDateHeader(s + t)
  {
    if MonthDateAt(s, 0) {
      MonthDateAtExtend(s, t, 0);
    } else {
      var w :| w in Weekdays && WordAt(s, 0, w) && MonthDateAt(s, AfterWeekday(s, |w|));
      WordAtExtend(s, t, 0, w);
      MonthDateAtInside(s, AfterWeekday(s, |w|));
      AfterWeekdayExtend(s, t, |w|);
      MonthDateAtExtend(s, t, AfterWeekday(s, |w|));
    }
  }

  /** A single space at `i` followed by a non-space is skipped in one step. */
  lemma SkipsOneSpace(s: string, i: nat)
    requires i + 1 < |s| && IsSpace(s[i]) && !IsSpace(s[i + 1])
    ensures SkipSpaces(s, i) == i + 1
  {
    assert SkipSpaces(s, i + 1) == i + 1;
  }

  /** A bare month date is a header. */
  lemma HeaderExampleBare()
    ensures IsDateHeader("June 14, 1942")
  {
    var s := "June 14, 1942";
    assert s[0] == 'J' && s[1] == 'u' && s[2] == 'n' && s[3] == 'e';
    SliceIs(s, 0, "June");
    LowerIs("June", "june");
    assert s[4] == ' ' && s[5] == '1' && s[6] == '4' && s[7] == ',' && s[8] == ' ';
    assert s[9] == '1' && s[10] == '9' && s[11] == '4' && s[12] == '2';
    SkipsOneSpace(s, 4);
    SkipsOneSpace(s, 8);
    SliceIs(s, 9, "194");
    assert YearAt(s, 8);
    assert DayYearAt(s, 4);
    assert "june" in Months && WordAt(s, 0, "june");
  }

  /** A sample line opening with a weekday. */
  const WeekdayLine: string := "Sunday, June 14, 1942 and more"

  lemma WeekdayLineStart()
    ensures WordAt(WeekdayLine, 0, "sunday") && AfterWeekday(WeekdayLine, 6) == 8
  {
    var s := "Sunday, June 14, 1942 and more";
    assert s == WeekdayLine;
    assert s[0] == 'S' && s[1] == 'u' && s[2] == 'n' && s[3] == 'd' && s[4] == 'a' && s[5] == 'y';
    SliceIs(s, 0, "Sunday");
    LowerIs("Sunday", "sunday");
    assert s[6] == ',' && s[7] == ' ' && s[8] == 'J';
    SkipsOneSpace(s, 7);
  }

  lemma WeekdayLineMonth()
    ensures WordAt(WeekdayLine, 8, "june")
  {
    var s := "Sunday, June 14, 1942 and more";
    assert s == WeekdayLine;
    assert s[8] == 'J' && s[9] == 'u' && s[10] == 'n' && s[11] == 'e';
    SliceIs(s, 8, "June");
    LowerIs("June", "june");
  }

  lemma WeekdayLineDay()
    ensures DayYearAt(WeekdayLine, 12)
  {
    var s := "Sunday, June 14, 1942 and more";
    assert s == WeekdayLine;
    assert s[12] == ' ' && s[13] == '1' && s[14] == '4' && s[15] == ',' && s[16] == ' ';
    assert s[17] == '1' && s[18] == '9' && s[19] == '4' && s[20] == '2';
    SkipsOneSpace(s, 12);
    SkipsOneSpace(s, 16);
    SliceIs(s, 17, "194");
    assert YearAt(s, 16);
  }

  /** A weekday and a comma may come first, and the line may go on after the year. */
  lemma HeaderExampleWeekday()
    ensures IsDateHeader(WeekdayLine)
  {
    WeekdayLineStart();
    WeekdayLineMonth();
    WeekdayLineDay();
    assert "june" in Months && "sunday" in Weekdays;
    assert MonthDateAt(WeekdayLine, 8);
  }

  lemma UpperLineWords()
    ensures WordAt("SATURDAY JULY 4, 1943", 0, "saturday") && WordAt("SATURDAY JULY 4, 1943", 9, "july")
  {
    var s := "SATURDAY JULY 4, 1943";
    assert s[0] == 'S' && s[1] == 'A' && s[2] == 'T' && s[3] == 'U' && s[4] == 'R' && s[5] == 'D' && s[6] == 'A' && s[7] == 'Y';
    SliceIs(s, 0, "SATURDAY");
    LowerIs("SATURDAY", "saturday");
    assert s[9] == 'J' && s[10] == 'U' && s[11] == 'L' && s[12] == 'Y';
    SliceIs(s, 9, "JULY");
    LowerIs("JULY", "july");
  }

  lemma UpperLineDate()
    ensures AfterWeekday("SATURDAY JULY 4, 1943", 8) == 9 && DayYearAt("SATURDAY JULY 4, 1943", 13)
  {
    var s := "SATURDAY JULY 4, 1943";
    assert s[8] == ' ' && s[9] == 'J';
    SkipsOneSpace(s, 8);
    assert s[13] == ' ' && s[14] == '4' && s[15] == ',' && s[16] == ' ';
    assert s[17] == '1' && s[18] == '9' && s[19] == '4' && s[20] == '3';
    SkipsOneSpace(s, 13);
    SkipsOneSpace(s, 16);
    SliceIs(s, 17, "194");
    assert YearAt(s, 16);
  }

  /** Case is ignored and the comma after the weekday is optional. */
  lemma HeaderExampleUpper()
    ensures IsDateHeader("SATURDAY JULY 4, 1943")
  {
    var s := "SATURDAY JULY 4, 1943";
    UpperLineWords();
    UpperLineDate();
    assert "july" in Months && "saturday" in Weekdays;
    assert MonthDateAt(s, 9);
  }

  /** The test deciding which stripped lines are headers. */
  type HeaderTest = string -> bool

  /** Headers are never empty, so an open entry's date is always true in Python's sense. */
  ghost predicate NonEmptyHeaders(hd: HeaderTest)
  {
    forall s :: hd(s) ==> s != ""
  }

  /** A text all of whitespace (`not text.strip()`). */
  predicate Blank(text: string)
  {
    forall k :: 0 <= k < |text| ==> IsSpace(text[k])
  }

  /** An entry of the diary: its header line and its text. */
  datatype Entry = Entry(date: string, text: string)

  /** The loop's state: the entries so far and the current entry (`date` is `None` before the
      first header). */
  datatype State = State(entries: seq<Entry>, date: Option<string>, text: string)

  const Start: State := State([], None, "")

  /** Python's truth value of the current entry's date. */
  predicate HasDate(st: State)
  {
    st.date.Some? && st.date.value != ""
  }

  /** The entries once the current one is closed: it is kept when it has a date and its text is
      not blank. */
  function Flushed(st: State): seq<Entry>
  {
    if HasDate(st) && !Blank(st.text) then st.entries + [Entry(st.date.value, st.text)] else st.entries
  }

  /** One stripped line of the loop: a header closes the current entry and opens a new one; any
      other line is appended, followed by one space, when an entry is open, and dropped otherwise. */
  function Step(hd: HeaderTest, st: State, s: string): State
  {
    if hd(s) then State(Flushed(st), Some(s), "")
    else if HasDate(st) then st.(text := st.text + s + " ")
    else st
  }

  /** The state after the stripped lines `ss`, taken in order. */
  function Run(hd: HeaderTest, ss: seq<string>): State
  {
    if ss == [] then Start else Step(hd, Run(hd, ss[..|ss| - 1]), ss[|ss| - 1])
  }

  /** The lines of all pages, page after page (`page.get_text().split('\n')`). */
  function Lines(pages: seq<string>): seq<string>
  {
    if pages == [] then [] else Lines(pages[..|pages| - 1]) + Split(pages[|pages| - 1], '\n')
  }

  /** Every line passed through `norm` (`line.strip()` in the source). */
  function MapLines(norm: string -> string, ls: seq<string>): (ss: seq<string>)
    ensures |ss| == |ls|
  {
    if ls == [] then [] else MapLines(norm, ls[..|ls| - 1]) + [norm(ls[|ls| - 1])]
  }

  /** The output format of an entry. */
  function Format(e: Entry): string
  {
    e.date + " , " + e.text
  }

  /** The index of the last header, if any. */
  function LastHeader(hd: HeaderTest, ss: seq<string>): Option<nat>
  {
    if ss == [] then None
    else if hd(ss[|ss| - 1]) then Some(|ss| - 1)
    else LastHeader(hd, ss[..|ss| - 1])
  }

  /** The last header is a header with none after it; with no last header there is none at all. */
  lemma {:induction false} LastHeaderSpec(hd: HeaderTest, ss: seq<string>)
    ensures var h := LastHeader(hd, ss);
      && (h.Some? ==> h.value < |ss| && hd(ss[h.value]) && forall k :: h.value < k < |ss| ==> !hd(ss[k]))
      && (h.None? ==> forall k :: 0 <= k < |ss| ==> !hd(ss[k]))
  {
    if ss != [] && !hd(ss[|ss| - 1]) {
      LastHeaderSpec(hd, ss[..|ss| - 1]);
    }
  }

  /** The text body lines make: each stripped line followed by one space. */
  function Body(ss: seq<string>): string
  {
    if ss == [] then "" else Body(ss[..|ss| - 1]) + ss[|ss| - 1] + " "
  }

  /** The entry a header and its body make, unless the body is blank. */
  function Emitted(date: string, text: string): seq<Entry>
  {
    if !Blank(text) then [Entry(date, text)] else []
  }

  /** The segmentation defined section by section: the last header with the lines after it makes
      the last entry (unless they are blank), and the lines before it make the others. */
  function Reference(hd: HeaderTest, ss: seq<string>): seq<Entry>
    decreases |ss|
  {
    LastHeaderSpec(hd, ss);
    match LastHeader(hd, ss)
    case None => []
    case Some(h) => Reference(hd, ss[..h]) + Emitted(ss[h], Body(ss[h + 1..]))
  }

  /** The state the loop is in after the stripped lines `ss`, described section by section. */
  function Expected(hd: HeaderTest, ss: seq<string>): State
  {
    LastHeaderSpec(hd, ss);
    match LastHeader(hd, ss)
    case None => Start
    case Some(h) => State(Reference(hd, ss[..h]), Some(ss[h]), Body(ss[h + 1..]))
  }

  /** Closing the expected state yields the segmentation. */
  lemma FlushedExpected(hd: HeaderTest, ss: seq<string>)
    requires NonEmptyHeaders(hd)
    ensures Flushed(Expected(hd, ss)) == Reference(hd, ss)
  {
    LastHeaderSpec(hd, ss);
    match LastHeader(hd, ss)
    case None =>
    case Some(h) =>
      assert ss[h] != "";
  }

  /** A body line extends the open entry's text. */
  lemma ExpectedBodyStep(hd: HeaderTest, ss: seq<string>, x: string)
    requires NonEmptyHeaders(hd) && !hd(x)
    ensures Expected(hd, ss + [x]) == Step(hd, Expected(hd, ss), x)
  {
    var ys := ss + [x];
    assert ys[..|ss|] == ss;
    LastHeaderSpec(hd, ss);
    match LastHeader(hd, ss)
    case None =>
    case Some(h) =>
      assert ys[..h] == ss[..h] && ys[h] == ss[h];
      assert ys[h + 1..][..|ys[h + 1..]| - 1] == ss[h + 1..];
      assert ss[h] != "";
  }

  /** A header closes the open entry and opens its own. */
  lemma ExpectedHeaderStep(hd: HeaderTest, ss: seq<string>, x: string)
    requires NonEmptyHeaders(hd) && hd(x)
    ensures Expected(hd, ss + [x]) == Step(hd, Expected(hd, ss), x)
  {
    var ys := ss + [x];
    assert ys[..|ss|] == ss;
    assert ys[|ss| + 1..] == [];
    FlushedExpected(hd, ss);
  }

  /** The loop's state after any prefix of lines: before a header nothing is kept; after one the
      open entry is the last header with the body lines that followed it, and the closed entries
      are the segmentation of the lines before that header. */
  lemma {:induction false} RunState(hd: HeaderTest, ss: seq<string>)
    requires NonEmptyHeaders(hd)
    ensures Run(hd, ss) == Expected(hd, ss)
  {
    if ss != [] {
      var n := |ss|;
      var xs := ss[..n - 1];
      RunState(hd, xs);
      assert ss == xs + [ss[n - 1]];
      if hd(ss[n - 1]) {
        ExpectedHeaderStep(hd, xs, ss[n - 1]);
      } else {
        ExpectedBodyStep(hd, xs, ss[n - 1]);
      }
    }
  }

  /** The loop, followed by the final flush, computes the section-by-section segmentation. */
  lemma FinishIsReference(hd: HeaderTest, ss: seq<string>)
    requires NonEmptyHeaders(hd)
    ensures Flushed(Run(hd, ss)) == Reference(hd, ss)
  {
    RunState(hd, ss);
    FlushedExpected(hd, ss);
  }

  /** The number of headers. */
  function CountHeaders(hd: HeaderTest, ss: seq<string>): nat
  {
    if ss == [] then 0 else CountHeaders(hd, ss[..|ss| - 1]) + (if hd(ss[|ss| - 1]) then 1 else 0)
  }

  lemma {:induction false} CountHeadersTail(hd: HeaderTest, ss: seq<string>, h: nat)
    requires h < |ss| && hd(ss[h])
    requires forall k :: h < k < |ss| ==> !hd(ss[k])
    ensures CountHeaders(hd, ss) == CountHeaders(hd, ss[..h]) + 1
  {
    if |ss| - 1 > h {
      assert ss[..|ss| - 1][..h] == ss[..h];
      CountHeadersTail(hd, ss[..|ss| - 1], h);
    } else {
      assert ss[..|ss| - 1] == ss[..h];
    }
  }

  /** There are never more entries than headers. */
  lemma {:induction false} EntriesAtMostHeaders(hd: HeaderTest, ss: seq<string>)
    ensures |Reference(hd, ss)| <= CountHeaders(hd, ss)
    decreases |ss|
  {
    LastHeaderSpec(hd, ss);
    match LastHeader(hd, ss)
    case None =>
    case Some(h) =>
      EntriesAtMostHeaders(hd, ss[..h]);
      CountHeadersTail(hd, ss, h);
  }

  /** Lines `i` to `j` form the section of entry `e`: a header, the body lines up to the next
      header or the end, the header as the date and the body as the text. */
  predicate Section(hd: HeaderTest, ss: seq<string>, i: nat, j: nat, e: Entry)
  {
    && i < j <= |ss|
    && hd(ss[i])
    && (forall k :: i < k < j ==> !hd(ss[k]))
    && (j == |ss| || hd(ss[j]))
    && e.date == ss[i]
    && e.text == Body(ss[i + 1..j])
  }

  /** A section of the lines before a header is a section of all the lines. */
  lemma SectionBeforeHeader(hd: HeaderTest, ss: seq<string>, h: nat, i: nat, j: nat, e: Entry)
    requires h < |ss| && hd(ss[h]) && Section(hd, ss[..h], i, j, e)
    ensures Section(hd, ss, i, j, e)
  {
    assert ss[..h][i + 1..j] == ss[i + 1..j];
    assert forall k :: i < k < j ==> ss[..h][k] == ss[k];
  }

  /** Every entry is the section of one header, with a text that is not blank. */
  lemma {:induction false} EntriesAreSections(hd: HeaderTest, ss: seq<string>)
    ensures forall e :: e in Reference(hd, ss) ==> !Blank(e.text) && exists i: nat, j: nat :: Section(hd, ss, i, j, e)
    decreases |ss|
  {
    LastHeaderSpec(hd, ss);
    match LastHeader(hd, ss)
    case None =>
    case Some(h) =>
      var rs := Reference(hd, ss[..h]);
      var em := Emitted(ss[h], Body(ss[h + 1..]));
      EntriesAreSections(hd, ss[..h]);
      ReferenceAt(hd, ss, h);
      forall e: Entry | e in rs + em ensures !Blank(e.text) && exists i: nat, j: nat :: Section(hd, ss, i, j, e) {
        if e in rs {
          var i: nat, j: nat :| Section(hd, ss[..h], i, j, e);
          SectionBeforeHeader(hd, ss, h, i, j, e);
        } else {
          assert ss[h + 1..] == ss[h + 1..|ss|];
          assert Section(hd, ss, h, |ss|, e);
        }
      }
  }

  /** Putting lines without a header in front keeps the last header, shifted. */
  lemma LastHeaderAfterPreamble(hd: HeaderTest, pre: seq<string>, rest: seq<string>)
    requires forall k :: 0 <= k < |pre| ==> !hd(pre[k])
    ensures LastHeader(hd, pre + rest) == match LastHeader(hd, rest)
      case None => None
      case Some(h) => Some(|pre| + h)
  {
    var ss := pre + rest;
    LastHeaderSpec(hd, rest);
    LastHeaderSpec(hd, ss);
    match LastHeader(hd, rest)
    case None =>
      forall k | 0 <= k < |ss| ensures !hd(ss[k]) {
        if k < |pre| { assert ss[k] == pre[k]; } else { assert ss[k] == rest[k - |pre|]; }
      }
    case Some(h) =>
      assert ss[|pre| + h] == rest[h];
      forall k | |pre| + h < k < |ss| ensures !hd(ss[k]) {
        assert ss[k] == rest[k - |pre|];
      }
  }

  /** The segmentation, unfolded at its last header. */
  lemma ReferenceAt(hd: HeaderTest, ss: seq<string>, h: nat)
    requires LastHeader(hd, ss) == Some(h)
    ensures h < |ss| && Reference(hd, ss) == Reference(hd, ss[..h]) + Emitted(ss[h], Body(ss[h + 1..]))
  {
    LastHeaderSpec(hd, ss);
  }

  /** One section of the preamble argument. */
  lemma PreambleStep(hd: HeaderTest, pre: seq<string>, rest: seq<string>, h: nat)
    requires h < |rest|
    requires LastHeader(hd, rest) == Some(h) && LastHeader(hd, pre + rest) == Some(|pre| + h)
    requires Reference(hd, pre + rest[..h]) == Reference(hd, rest[..h])
    ensures Reference(hd, pre + rest) == Reference(hd, rest)
  {
    var ss := pre + rest;
    var g := |pre| + h;
    ReferenceAt(hd, ss, g);
    ReferenceAt(hd, rest, h);
    assert ss[..g] == pre + rest[..h];
    assert ss[g + 1..] == rest[h + 1..];
    assert ss[g] == rest[h];
  }

  /** Lines before the first header never reach the output. */
  lemma {:induction false} PreambleDropped(hd: HeaderTest, pre: seq<string>, rest: seq<string>)
    requires forall k :: 0 <= k < |pre| ==> !hd(pre[k])
    ensures Reference(hd, pre + rest) == Reference(hd, rest)
    decreases |rest|
  {
    LastHeaderAfterPreamble(hd, pre, rest);
    LastHeaderSpec(hd, rest);
    match LastHeader(hd, rest)
    case None =>
    case Some(h) =>
      PreambleDropped(hd, pre, rest[..h]);
      PreambleStep(hd, pre, rest, h);
  }

  lemma DateHeadersNonEmpty()
    ensures NonEmptyHeaders(IsDateHeader)
  {
    forall s | IsDateHeader(s) ensures s != "" {
      HeaderNonEmpty(s);
    }
  }

  lemma RunSnoc(hd: HeaderTest, seen: seq<string>, s: string)
    ensures Run(hd, seen + [s]) == Step(hd, Run(hd, seen), s)
  {
    assert (seen + [s])[..|seen|] == seen;
  }

  lemma MapLinesSnoc(norm: string -> string, raw: seq<string>, line: string)
    ensures MapLines(norm, raw + [line]) == MapLines(norm, raw) + [norm(line)]
  {
    assert (raw + [line])[..|raw|] == raw;
  }

  lemma LinesSnoc(pages: seq<string>, p: nat)
    requires p < |pages|
    ensures Lines(pages[..p + 1]) == Lines(pages[..p]) + Split(pages[p], '\n')
  {
    assert pages[..p + 1][..p] == pages[..p];
  }

  lemma {:induction false} MapLinesAppend(norm: string -> string, a: seq<string>, b: seq<string>)
    ensures MapLines(norm, a + b) == MapLines(norm, a) + MapLines(norm, b)
    decreases |b|
  {
    if b != [] {
      var b' := b[..|b| - 1];
      assert a + b == (a + b') + [b[|b| - 1]];
      MapLinesAppend(norm, a, b');
    } else {
      assert a + b == a;
    }
  }

  /** The loops of `readandmakeentries`, for a header test `hd`: every normalised line of every
      page goes through the state machine, the last entry is flushed, and each entry is formatted
      as date + " , " + text. The result is the section-by-section segmentation. */
  method Segment(hd: HeaderTest, norm: string -> string, pages: seq<string>) returns (segmented: seq<string>)
    requires NonEmptyHeaders(hd)
    ensures var es := Reference(hd, MapLines(norm, Lines(pages)));
      |segmented| == |es| && forall i :: 0 <= i < |segmented| ==> segmented[i] == Format(es[i])
  {
    var entries, date, text := FeedPages(hd, norm, pages);
    entries := Flush(entries, date, text);
    FinishIsReference(hd, MapLines(norm, Lines(pages)));
    segmented := FormatAll(entries);
  }

  /** The outer loop over the pages. */
  method FeedPages(hd: HeaderTest, norm: string -> string, pages: seq<string>)
    returns (entries: seq<Entry>, date: Option<string>, text: string)
    ensures State(entries, date, text) == Run(hd, MapLines(norm, Lines(pages)))
  {
    entries, date, text := [], None, "";
    ghost var seen: seq<string> := [];
    var p := 0;
    while p < |pages|
      invariant 0 <= p <= |pages|
      invariant seen == MapLines(norm, Lines(pages[..p]))
      invariant State(entries, date, text) == Run(hd, seen)
    {
      LinesSnoc(pages, p);
      MapLinesAppend(norm, Lines(pages[..p]), Split(pages[p], '\n'));
      entries, date, text := FeedPage(hd, norm, entries, date, text, seen, pages[p]);
      seen := seen + MapLines(norm, Split(pages[p], '\n'));
      p := p + 1;
    }
    assert pages[..p] == pages;
  }

  /** Feeding the next line of a page is one step of the state machine. */
  lemma RunNextLine(hd: HeaderTest, norm: string -> string, seen: seq<string>, lines: seq<string>, j: nat)
    requires j < |lines|
    ensures Run(hd, seen + MapLines(norm, lines[..j + 1])) == Step(hd, Run(hd, seen + MapLines(norm, lines[..j])), norm(lines[j]))
  {
    var before := seen + MapLines(norm, lines[..j]);
    assert lines[..j + 1] == lines[..j] + [lines[j]];
    MapLinesSnoc(norm, lines[..j], lines[j]);
    assert seen + MapLines(norm, lines[..j + 1]) == before + [norm(lines[j])];
    RunSnoc(hd, before, norm(lines[j]));
  }

  /** The inner loop over the lines of one page. */
  method FeedPage(hd: HeaderTest, norm: string -> string, entries: seq<Entry>, date: Option<string>, text: string,
                  ghost seen: seq<string>, page: string)
    returns (entries': seq<Entry>, date': Option<string>, text': string)
    requires State(entries, date, text) == Run(hd, seen)
    ensures State(entries', date', text') == Run(hd, seen + MapLines(norm, Split(page, '\n')))
  {
    var lines := Split(page, '\n');
    entries', date', text' := entries, date, text;
    var j := 0;
    assert seen + MapLines(norm, lines[..0]) == seen;
    while j < |lines|
      invariant 0 <= j <= |lines|
      invariant State(entries', date', text') == Run(hd, seen + MapLines(norm, lines[..j]))
    {
      var s := norm(lines[j]);
      RunNextLine(hd, norm, seen, lines, j);
      entries', date', text' := Feed(hd, entries', date', text', s);
      j := j + 1;
    }
    assert lines[..j] == lines;
  }

  /** The body of the inner loop for one stripped line `s`. */
  method Feed(hd: HeaderTest, entries: seq<Entry>, date: Option<string>, text: string, s: string)
    returns (entries': seq<Entry>, date': Option<string>, text': string)
    ensures State(entries', date', text') == Step(hd, State(entries, date, text), s)
  {
    entries', date', text' := entries, date, text;
    StripEmptyIffBlank(text);
    if hd(s) {
      if date.Some? && date.value != "" && Strip(text) != "" {
        entries' := entries + [Entry(date.value, text)];
      }
      date' := Some(s);
      text' := "";
    } else if date.Some? && date.value != "" {
      text' := text + s + " ";
    }
  }

  /** The final flush of `readandmakeentries`. */
  method Flush(entries: seq<Entry>, date: Option<string>, text: string) returns (entries': seq<Entry>)
    ensures entries' == Flushed(State(entries, date, text))
  {
    entries' := entries;
    StripEmptyIffBlank(text);
    if date.Some? && date.value != "" && Strip(text) != "" {
      entries' := entries + [Entry(date.value, text)];
    }
  }

  /** The last loop of `readandmakeentries`: each entry as date + " , " + text, in order. */
  method FormatAll(entries: seq<Entry>) returns (segmented: seq<string>)
    ensures |segmented| == |entries|
    ensures forall i :: 0 <= i < |entries| ==> segmented[i] == entries[i].date + " , " + entries[i].text
  {
    segmented := [];
    var i := 0;
    while i < |entries|
      invariant 0 <= i <= |entries|
      invariant |segmented| == i
      invariant forall k :: 0 <= k < i ==> segmented[k] == entries[k].date + " , " + entries[k].text
    {
      segmented := segmented + [entries[i].date + " , " + entries[i].text];
      i := i + 1;
    }
  }

  /** `readandmakeentries` over the page texts, with the date pattern as the header test. */
  method ReadAndMakeEntries(pages: seq<string>) returns (segmented: seq<string>)
    ensures var es := Reference(IsDateHeader, MapLines(Strip, Lines(pages)));
      |segmented| == |es| && forall i :: 0 <= i < |segmented| ==> segmented[i] == Format(es[i])
  {
    DateHeadersNonEmpty();
    segmented := Segment(IsDateHeader, Strip, pages);
  }
}
