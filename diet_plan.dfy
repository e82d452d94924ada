/** The diet-plan page: the scanner that picks today's meals out of a
    free-text weekly plan (`parsePlanForToday`) and the list of meals the
    user has marked as done (`handleDone`). */
module DietPlan {
  import opened Text
  import opened Records

  /** A meal card: its heading and its bullet items. */
  datatype Meal = Meal(name: string, items: seq<string>)

  /** The scanner's state between two lines: whether today's section is
      being read, the meals closed so far, and the meal still open. */
  datatype ScanState = ScanState(capture: bool, meals: seq<Meal>, current: Option<Meal>)

  const Initial := ScanState(false, [], None)

  const Weekdays: seq<string> :=
    ["monday", "tuesday", "wednesday", "thursday", "friday", "saturday", "sunday"]

  /** The meal names a heading must start with to open a meal. */
  const AllowedMeals: seq<string> := ["breakfast", "lunch", "snack", "dinner"]

  // ---------------------------------------------------------------------
  // Line preparation: split on newlines, trim, drop blank lines.

  /** The trimmed, non-blank pieces, in order. */
  function NonBlankTrimmed(pieces: seq<string>): (r: seq<string>)
    ensures forall i :: 0 <= i < |r| ==> r[i] != "" && Trimmed(r[i])
  {
    if pieces == [] then []
    else
      var l := Trim(pieces[0]);
      (if l == "" then [] else [l]) + NonBlankTrimmed(pieces[1..])
  }

  /** A line is kept exactly when it is the non-blank trim of some piece. */
  lemma {:induction false} NonBlankTrimmedMembers(pieces: seq<string>, l: string)
    ensures l in NonBlankTrimmed(pieces) <==> l != "" && exists p :: p in pieces && l == Trim(p)
  {
    if pieces != [] {
      NonBlankTrimmedMembers(pieces[1..], l);
      assert forall p :: p in pieces <==> p == pieces[0] || p in pieces[1..];
    }
  }

  /** `planText.split("\n").map(l => l.trim()).filter(Boolean)`. */
  function Lines(planText: string): seq<string> {
    NonBlankTrimmed(Split(planText, '\n'))
  }

  // ---------------------------------------------------------------------
  // Line classification.

  /** The lower-cased line mentions today's (lower-cased) day name. */
  predicate NamesToday(lowerLine: string, lowerDay: string) {
    Contains(lowerLine, lowerDay)
  }

  /** The lower-cased line mentions some weekday and not today. */
  predicate NamesOtherDay(lowerLine: string, lowerDay: string) {
    exists i | 0 <= i < |Weekdays| :: Contains(lowerLine, Weekdays[i]) && !Contains(lowerLine, lowerDay)
  }

  predicate StartsWithWeekday(lowerLine: string) {
    exists i | 0 <= i < |Weekdays| :: StartsWith(lowerLine, Weekdays[i])
  }

  /** A line that mentions neither today nor any weekday. */
  ghost predicate DayFree(line: string, lowerDay: string) {
    !Contains(Lower(line), lowerDay) && forall i | 0 <= i < |Weekdays| :: !Contains(Lower(line), Weekdays[i])
  }

  /** A heading starts with `*` or ends with `:`. */
  predicate IsHeading(line: string) {
    StartsWith(line, "*") || EndsWith(line, ":")
  }

  /** A bullet starts with `+` or `-`. */
  predicate IsItem(line: string) {
    StartsWith(line, "+") || StartsWith(line, "-")
  }

  /** `s.replace(/^\*+/, "")`. */
  function StripLeadingStars(s: string): (r: string)
    ensures |r| <= |s| && r == s[|s| - |r|..]
    ensures forall i :: 0 <= i < |s| - |r| ==> s[i] == '*'
    ensures r == [] || r[0] != '*'
  {
    if s != [] && s[0] == '*' then StripLeadingStars(s[1..]) else s
  }

  /** `s.replace(/\*+$/, "")`. */
  function StripTrailingStars(s: string): (r: string)
    ensures r <= s
    ensures forall i :: |r| <= i < |s| ==> s[i] == '*'
    ensures r == [] || r[|r| - 1] != '*'
  {
    if s != [] && s[|s| - 1] == '*' then StripTrailingStars(s[..|s| - 1]) else s
  }

  /** The meal name of a heading: asterisks stripped at both ends, then trimmed. */
  function HeadingName(line: string): string {
    Trim(StripTrailingStars(StripLeadingStars(line)))
  }

  /** The name starts, case-insensitively, with an allowed meal name. */
  predicate IsAllowedName(name: string) {
    exists i | 0 <= i < |AllowedMeals| :: StartsWith(Lower(name), AllowedMeals[i])
  }

  /** The text of a bullet: its one marker removed, then trimmed. */
  function ItemText(line: string): string
    requires IsItem(line)
  {
    Trim(line[1..])
  }

  function Flush(current: Option<Meal>): seq<Meal> {
    if current.Some? then [current.value] else []
  }

  function OpenMeal(name: string): (r: Option<Meal>)
    ensures r.Some? <==> IsAllowedName(name)
    ensures r.Some? ==> r.value == Meal(name, [])
  {
    if IsAllowedName(name) then Some(Meal(name, [])) else None
  }

  // ---------------------------------------------------------------------
  // The scanner as a function. Each line is first classified by the tests
  // the page applies to it, in the page's order; the scanner's state then
  // moves one classified line at a time.

  /** What a trimmed line is, as far as the scanner is concerned. */
  datatype LineKind =
    | TodayLine              // mentions today's day name
    | OtherDayLine           // mentions another weekday and not today
    | WeekdayHeader          // starts with a weekday name (otherwise not caught above)
    | Heading(name: string)  // starts with `*` or ends with `:`; carries the cleaned name
    | Bullet(text: string)   // starts with `+` or `-`; carries the item text
    | Plain                  // anything else

  function Classify(line: string, lowerDay: string): LineKind {
    var lower := Lower(line);
    if NamesToday(lower, lowerDay) then TodayLine
    else if NamesOtherDay(lower, lowerDay) then OtherDayLine
    else if StartsWithWeekday(lower) then WeekdayHeader
    else if IsHeading(line) then Heading(HeadingName(line))
    else if IsItem(line) then Bullet(ItemText(line))
    else Plain
  }

  function Kinds(lines: seq<string>, lowerDay: string): (ks: seq<LineKind>)
    ensures |ks| == |lines|
    ensures forall i :: 0 <= i < |lines| ==> ks[i] == Classify(lines[i], lowerDay)
  {
    seq(|lines|, i requires 0 <= i < |lines| => Classify(lines[i], lowerDay))
  }

  /** How one line changes the scanner's state. */
  function Step(st: ScanState, kind: LineKind): ScanState {
    match kind
    case TodayLine => st.(capture := true)
    case OtherDayLine => st.(capture := false)
    case WeekdayHeader => st
    case Heading(name) =>
      if st.capture then ScanState(true, st.meals + Flush(st.current), OpenMeal(name)) else st
    case Bullet(text) =>
      if st.capture && st.current.Some? then
        st.(current := Some(st.current.value.(items := st.current.value.items + [text])))
      else st
    case Plain => st
  }

  function Scan(kinds: seq<LineKind>, st: ScanState): ScanState {
    if kinds == [] then st else Scan(kinds[1..], Step(st, kinds[0]))
  }

  /** The closed meals followed by the one still open. */
  function Finish(st: ScanState): seq<Meal> {
    st.meals + Flush(st.current)
  }

  /** The meals `parsePlanForToday(planText)` returns when today is `dayName`. */
  function PlanForToday(planText: string, dayName: string): seq<Meal> {
    if planText == "" then [] else Finish(Scan(Kinds(Lines(planText), Lower(dayName)), Initial))
  }

  // ---------------------------------------------------------------------
  // The scanner as the page runs it: one pass over the lines that updates
  // `capture`, `meals` and `currentMeal`.

  /** Scanning from line `i` is stepping over line `i` and scanning the rest. */
  lemma ScanOneMore(kinds: seq<LineKind>, i: nat, st: ScanState)
    requires i < |kinds|
    ensures Scan(kinds[i..], st) == Scan(kinds[i + 1..], Step(st, kinds[i]))
  {
    assert kinds[i..][1..] == kinds[i + 1..];
  }

  /** The loop body of `parsePlanForToday`: how one trimmed line updates
      `capture`, `meals` and `currentMeal`, test by test in the page's order. */
  method ScanLine(line: string, lowerDay: string, st: ScanState) returns (next: ScanState)
    ensures next == Step(st, Classify(line, lowerDay))
  {
    var capture, meals, current := st.capture, st.meals, st.current;
    var lower := Lower(line);
    if Contains(lower, lowerDay) {
      capture := true;
    } else {
      if capture && NamesOtherDay(lower, lowerDay) {
        capture := false;
      }
      if capture && !StartsWithWeekday(lower) {
        if IsHeading(line) {
          if current.Some? {
            meals := meals + [current.value];
          }
          var name := HeadingName(line);
          if IsAllowedName(name) {
            current := Some(Meal(name, []));
          } else {
            current := None;
          }
        } else if IsItem(line) && current.Some? {
          current := Some(current.value.(items := current.value.items + [ItemText(line)]));
        }
      }
    }
    next := ScanState(capture, meals, current);
  }

  /** `parsePlanForToday`: one pass over the prepared lines, then the open meal is closed. */
  method ParsePlanForToday(planText: string, dayName: string) returns (meals: seq<Meal>)
    ensures meals == PlanForToday(planText, dayName)
  {
    if planText == "" {
      return [];
    }
    var lines := Lines(planText);
    var lowerDay := Lower(dayName);
    ghost var kinds := Kinds(lines, lowerDay);
    var st := Initial;
    var i := 0;
    while i < |lines|
      invariant 0 <= i <= |lines|
      invariant Scan(kinds[i..], st) == Scan(kinds, Initial)
    {
      ghost var before := st;
      st := ScanLine(lines[i], lowerDay, st);
      ScanOneMore(kinds, i, before);
      i := i + 1;
    }
    meals := st.meals;
    if st.current.Some? {
      meals := meals + [st.current.value];
    }
  }

  // ---------------------------------------------------------------------
  // Properties of the scanner.

  /** Empty text, and text made only of blank lines, give no meals. */
  lemma NoLinesNoMeals(planText: string, dayName: string)
    requires planText == "" || Lines(planText) == []
    ensures PlanForToday(planText, dayName) == []
  {
  }

  /** Scanning two blocks of lines is scanning the first, then the second. */
  lemma {:induction false} ScanAppend(a: seq<LineKind>, b: seq<LineKind>, st: ScanState)
    ensures Scan(a + b, st) == Scan(b, Scan(a, st))
  {
    if a == [] {
      assert a + b == b;
    } else {
      assert (a + b)[1..] == a[1..] + b;
      ScanAppend(a[1..], b, Step(st, a[0]));
    }
  }

  /** While not capturing, lines that do not name today change nothing. */
  lemma {:induction false} IdleUntilToday(kinds: seq<LineKind>, st: ScanState)
    requires !st.capture
    requires forall j :: 0 <= j < |kinds| ==> kinds[j] != TodayLine
    ensures Scan(kinds, st) == st
  {
    if kinds != [] {
      IdleUntilToday(kinds[1..], Step(st, kinds[0]));
    }
  }

  /** A line is classified as naming today exactly when it does. */
  lemma TodayKinds(lines: seq<string>, lowerDay: string, k: int)
    requires 0 <= k <= |lines|
    ensures (forall j :: 0 <= j < k ==> Kinds(lines, lowerDay)[j] != TodayLine) <==>
            (forall j :: 0 <= j < k ==> !NamesToday(Lower(lines[j]), lowerDay))
  {
    forall j | 0 <= j < k
      ensures Kinds(lines, lowerDay)[j] != TodayLine <==> !NamesToday(Lower(lines[j]), lowerDay)
    {
      TodayKind(lines[j], lowerDay);
    }
  }

  lemma TodayKind(line: string, lowerDay: string)
    ensures Classify(line, lowerDay) == TodayLine <==> NamesToday(Lower(line), lowerDay)
  {
  }

  /** With no line naming today, there are no meals. */
  lemma NoTodayNoMeals(planText: string, dayName: string)
    requires forall j :: 0 <= j < |Lines(planText)| ==> !NamesToday(Lower(Lines(planText)[j]), Lower(dayName))
    ensures PlanForToday(planText, dayName) == []
  {
    if planText != "" {
      var lines := Lines(planText);
      TodayKinds(lines, Lower(dayName), |lines|);
      IdleUntilToday(Kinds(lines, Lower(dayName)), Initial);
    }
  }

  /** Nothing before the first line naming today counts, and that line is
      skipped: scanning starts after it, capturing, with no meal open. */
  lemma NothingBeforeToday(planText: string, dayName: string, k: int)
    requires planText != ""
    requires 0 <= k < |Lines(planText)| && NamesToday(Lower(Lines(planText)[k]), Lower(dayName))
    requires forall j :: 0 <= j < k ==> !NamesToday(Lower(Lines(planText)[j]), Lower(dayName))
    ensures PlanForToday(planText, dayName) ==
            Finish(Scan(Kinds(Lines(planText)[k + 1..], Lower(dayName)), ScanState(true, [], None)))
  {
    ScanSkipsToToday(Lines(planText), Lower(dayName), k);
  }

  /** The same, for any list of lines. */
  lemma ScanSkipsToToday(lines: seq<string>, lowerDay: string, k: int)
    requires 0 <= k < |lines| && NamesToday(Lower(lines[k]), lowerDay)
    requires forall j :: 0 <= j < k ==> !NamesToday(Lower(lines[j]), lowerDay)
    ensures Scan(Kinds(lines, lowerDay), Initial) == Scan(Kinds(lines[k + 1..], lowerDay), ScanState(true, [], None))
  {
    var kinds := Kinds(lines, lowerDay);
    TodayKinds(lines, lowerDay, k);
    assert kinds == kinds[..k] + kinds[k..];
    ScanAppend(kinds[..k], kinds[k..], Initial);
    IdleUntilToday(kinds[..k], Initial);
    assert Scan(kinds, Initial) == Scan(kinds[k..], Initial);
    assert kinds[k] == TodayLine;
    ScanOneMore(kinds, k, Initial);
    assert Step(Initial, TodayLine) == ScanState(true, [], None);
    KindsSuffix(lines, lowerDay, k + 1);
  }

  /** Classifying a suffix of the lines is taking the suffix of the classification. */
  lemma KindsSuffix(lines: seq<string>, lowerDay: string, j: nat)
    requires j <= |lines|
    ensures Kinds(lines, lowerDay)[j..] == Kinds(lines[j..], lowerDay)
  {
  }

  /** A line starting with a weekday also mentions it, so it names today or
      another day, and the page's own weekday-header test is never reached. */
  lemma WeekdayHeaderUnreachable(line: string, lowerDay: string)
    ensures Classify(line, lowerDay) != WeekdayHeader
  {
    var lower := Lower(line);
    if !NamesToday(lower, lowerDay) && StartsWithWeekday(lower) {
      var i :| 0 <= i < |Weekdays| && StartsWith(lower, Weekdays[i]);
      StartsWithContains(lower, Weekdays[i]);
      assert NamesOtherDay(lower, lowerDay);
    }
  }

  /** A line naming today turns capture on and is skipped, whatever the state. */
  lemma TodayLineResumes(st: ScanState, line: string, lowerDay: string)
    requires NamesToday(Lower(line), lowerDay)
    ensures Step(st, Classify(line, lowerDay)) == st.(capture := true)
  {
  }

  /** A line naming another weekday and not today stops capture, and the open
      meal stays open: it is not flushed. */
  lemma OtherDayStopsCapture(st: ScanState, line: string, lowerDay: string)
    requires !NamesToday(Lower(line), lowerDay)
    requires exists i | 0 <= i < |Weekdays| :: Contains(Lower(line), Weekdays[i])
    ensures Step(st, Classify(line, lowerDay)) == st.(capture := false)
  {
  }

  /** A line mentioning today or any weekday never becomes a heading or an item. */
  lemma DayLinesAreInert(st: ScanState, line: string, lowerDay: string)
    requires !DayFree(line, lowerDay)
    ensures Step(st, Classify(line, lowerDay)).meals == st.meals
    ensures Step(st, Classify(line, lowerDay)).current == st.current
  {
    var lower := Lower(line);
    if !NamesToday(lower, lowerDay) {
      var i :| 0 <= i < |Weekdays| && Contains(lower, Weekdays[i]);
      assert NamesOtherDay(lower, lowerDay);
    }
  }

  /** What the classification of a day-free line is. */
  lemma DayFreeKind(line: string, lowerDay: string)
    requires DayFree(line, lowerDay)
    ensures IsHeading(line) ==> Classify(line, lowerDay) == Heading(HeadingName(line))
    ensures !IsHeading(line) && IsItem(line) ==> Classify(line, lowerDay) == Bullet(ItemText(line))
    ensures !IsHeading(line) && !IsItem(line) ==> Classify(line, lowerDay) == Plain
  {
    var lower := Lower(line);
    forall i | 0 <= i < |Weekdays| ensures !StartsWith(lower, Weekdays[i]) {
      if StartsWith(lower, Weekdays[i]) {
        StartsWithContains(lower, Weekdays[i]);
      }
    }
  }

  /** A line classified as a heading or a bullet is a day-free line of that shape. */
  lemma KindIsDayFree(line: string, lowerDay: string)
    ensures Classify(line, lowerDay).Heading? ==>
              DayFree(line, lowerDay) && IsHeading(line) && Classify(line, lowerDay).name == HeadingName(line)
    ensures Classify(line, lowerDay).Bullet? ==>
              DayFree(line, lowerDay) && IsItem(line) && !IsHeading(line) && Classify(line, lowerDay).text == ItemText(line)
  {
    var lower := Lower(line);
    if !NamesToday(lower, lowerDay) && !NamesOtherDay(lower, lowerDay) {
      forall i | 0 <= i < |Weekdays| ensures !Contains(lower, Weekdays[i]) {
      }
    }
  }

  /** A captured, day-free heading closes the open meal and opens a new one
      exactly when its cleaned name is an allowed meal name. */
  lemma HeadingStep(st: ScanState, line: string, lowerDay: string)
    requires st.capture && DayFree(line, lowerDay) && IsHeading(line)
    ensures Step(st, Classify(line, lowerDay)).meals == st.meals + Flush(st.current)
    ensures Step(st, Classify(line, lowerDay)).current.Some? <==> IsAllowedName(HeadingName(line))
    ensures Step(st, Classify(line, lowerDay)).current.Some? ==>
              Step(st, Classify(line, lowerDay)).current.value == Meal(HeadingName(line), [])
  {
    DayFreeKind(line, lowerDay);
  }

  /** A captured, day-free bullet that is not a heading is added to the open
      meal with its marker removed, and dropped when no meal is open. */
  lemma ItemStep(st: ScanState, line: string, lowerDay: string)
    requires st.capture && DayFree(line, lowerDay) && IsItem(line) && !IsHeading(line)
    ensures Step(st, Classify(line, lowerDay)).meals == st.meals
    ensures st.current.None? ==> Step(st, Classify(line, lowerDay)).current.None?
    ensures st.current.Some? ==>
              Step(st, Classify(line, lowerDay)).current ==
              Some(Meal(st.current.value.name, st.current.value.items + [ItemText(line)]))
  {
    DayFreeKind(line, lowerDay);
  }

  /** Capture stopping does not close the open meal: if today's section is
      interrupted by another day and then resumed, a later bullet still goes
      into the meal that was open before the interruption. */
  lemma ResumedSectionContinuesMeal(st: ScanState, other: string, today: string, bullet: string, lowerDay: string)
    requires st.capture && st.current.Some?
    requires !NamesToday(Lower(other), lowerDay)
    requires exists i | 0 <= i < |Weekdays| :: Contains(Lower(other), Weekdays[i])
    requires NamesToday(Lower(today), lowerDay)
    requires DayFree(bullet, lowerDay) && IsItem(bullet) && !IsHeading(bullet)
    ensures Scan([Classify(other, lowerDay), Classify(today, lowerDay), Classify(bullet, lowerDay)], st) ==
            ScanState(true, st.meals, Some(Meal(st.current.value.name, st.current.value.items + [ItemText(bullet)])))
  {
    var k0, k1, k2 := Classify(other, lowerDay), Classify(today, lowerDay), Classify(bullet, lowerDay);
    OtherDayStopsCapture(st, other, lowerDay);
    var s1 := Step(st, k0);
    TodayLineResumes(s1, today, lowerDay);
    var s2 := Step(s1, k1);
    assert s2 == st;
    ItemStep(s2, bullet, lowerDay);
    var s3 := Step(s2, k2);
    assert s3 == ScanState(true, st.meals, Some(Meal(st.current.value.name, st.current.value.items + [ItemText(bullet)])));
    assert [k2][1..] == [];
    assert Scan([k2], s2) == Scan([], s3);
    assert [k1, k2][1..] == [k2];
    assert Scan([k1, k2], s1) == Scan([k2], s2);
    assert [k0, k1, k2][1..] == [k1, k2];
    assert Scan([k0, k1, k2], st) == Scan([k1, k2], s1);
  }

  /** The closed meals only ever grow at the end: output keeps text order. */
  lemma {:induction false} ScanExtendsMeals(kinds: seq<LineKind>, st: ScanState)
    ensures st.meals <= Scan(kinds, st).meals
  {
    if kinds != [] {
      ScanExtendsMeals(kinds[1..], Step(st, kinds[0]));
    }
  }

  ghost predicate NamesAllowed(st: ScanState) {
    && (forall i :: 0 <= i < |st.meals| ==> IsAllowedName(st.meals[i].name))
    && (st.current.Some? ==> IsAllowedName(st.current.value.name))
  }

  lemma {:induction false} ScanKeepsNamesAllowed(kinds: seq<LineKind>, st: ScanState)
    requires NamesAllowed(st)
    ensures NamesAllowed(Scan(kinds, st))
  {
    if kinds != [] {
      ScanKeepsNamesAllowed(kinds[1..], Step(st, kinds[0]));
    }
  }

  /** Every meal returned is named by an allowed meal name. */
  lemma PlanNamesAllowed(planText: string, dayName: string)
    ensures forall i :: 0 <= i < |PlanForToday(planText, dayName)| ==>
              IsAllowedName(PlanForToday(planText, dayName)[i].name)
  {
    if planText != "" {
      ScanKeepsNamesAllowed(Kinds(Lines(planText), Lower(dayName)), Initial);
    }
  }

  /** Where a meal came from: its name is carried by a heading in `src`, and
      each item by a bullet in `src`. */
  ghost predicate MealFrom(m: Meal, src: seq<LineKind>) {
    && Heading(m.name) in src
    && forall x :: x in m.items ==> Bullet(x) in src
  }

  ghost predicate StateFrom(st: ScanState, src: seq<LineKind>) {
    && (forall i :: 0 <= i < |st.meals| ==> MealFrom(st.meals[i], src))
    && (st.current.Some? ==> MealFrom(st.current.value, src))
  }

  lemma {:induction false} ScanFrom(kinds: seq<LineKind>, st: ScanState, src: seq<LineKind>)
    requires forall k :: k in kinds ==> k in src
    requires StateFrom(st, src)
    ensures StateFrom(Scan(kinds, st), src)
  {
    if kinds != [] {
      assert kinds[0] in src;
      ScanFrom(kinds[1..], Step(st, kinds[0]), src);
    }
  }

  /** The meal's name is the name of a heading line, and each of its items
      the text of a bullet line, none of these lines naming a day. */
  ghost predicate BackedByDayFreeLines(m: Meal, lines: seq<string>, lowerDay: string) {
    && (exists l :: l in lines && DayFree(l, lowerDay) && IsHeading(l) && HeadingName(l) == m.name)
    && (forall x :: x in m.items ==>
          exists l :: l in lines && DayFree(l, lowerDay) && IsItem(l) && !IsHeading(l) && ItemText(l) == x)
  }

  /** One meal built from the classified lines is backed by day-free lines. */
  lemma {:induction false} MealFromDayFreeLines(lines: seq<string>, lowerDay: string, m: Meal)
    requires MealFrom(m, Kinds(lines, lowerDay))
    ensures BackedByDayFreeLines(m, lines, lowerDay)
  {
    var kinds := Kinds(lines, lowerDay);
    var j :| 0 <= j < |kinds| && kinds[j] == Heading(m.name);
    KindIsDayFree(lines[j], lowerDay);
    assert lines[j] in lines;
    forall x | x in m.items
      ensures exists l :: l in lines && DayFree(l, lowerDay) && IsItem(l) && !IsHeading(l) && ItemText(l) == x
    {
      var k :| 0 <= k < |kinds| && kinds[k] == Bullet(x);
      KindIsDayFree(lines[k], lowerDay);
      assert lines[k] in lines;
    }
  }

  /** Every meal name and every item of the result comes from a line of the
      plan that mentions no weekday: a heading for the name, a bullet for
      each item. */
  lemma PlanComesFromDayFreeLines(planText: string, dayName: string)
    ensures forall m :: m in PlanForToday(planText, dayName) ==>
              BackedByDayFreeLines(m, Lines(planText), Lower(dayName))
  {
    if planText != "" {
      var lines := Lines(planText);
      var lowerDay := Lower(dayName);
      var kinds := Kinds(lines, lowerDay);
      ScanFrom(kinds, Initial, kinds);
      forall m | m in PlanForToday(planText, dayName)
        ensures BackedByDayFreeLines(m, lines, lowerDay)
      {
        MealFromDayFreeLines(lines, lowerDay, m);
      }
    }
  }
  // ---------------------------------------------------------------------
  // `handleDone`: the indices of the meal cards marked as done.

  ghost predicate Distinct(s: seq<nat>) {
    forall i, j :: 0 <= i < j < |s| ==> s[i] != s[j]
  }

  /** `doneMeals.includes(index) ? doneMeals : [...doneMeals, index]`. */
  function MarkDone(done: seq<nat>, index: nat): (r: seq<nat>)
    ensures done <= r && |r| <= |done| + 1
    ensures forall x :: x in r <==> x in done || x == index
    ensures Distinct(done) ==> Distinct(r)
  {
    if index in done then done else done + [index]
  }

  /** Marking the same card twice is marking it once. */
  lemma MarkDoneIdempotent(done: seq<nat>, index: nat)
    ensures MarkDone(MarkDone(done, index), index) == MarkDone(done, index)
  {
  }
}
