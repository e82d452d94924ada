/** The weekly goals page: a seven-row summary of the last seven days, each
    row giving the day's last logged weight and its diet status. Dates are
    parameters: `calendar(i)` describes the day `i` days before today and
    `dayOf(t)` is the `toDateString()` of the moment with timestamp `t`. */
module WeeklyGoals {
  import opened Text
  import opened Records

  /** The day `d` the loop builds for one offset: `d.toDateString()`, its
      three-letter name and its short display date. */
  datatype CalendarDay = CalendarDay(dateKey: string, dayAbbr: string, formattedDate: string)

  datatype StatusType = NotStarted | Completed | MissedType

  /** One `{date, day, weight, dietStatus, statusType}` row. */
  datatype SummaryRow = SummaryRow(date: string, day: string, weight: WeightDisplay,
                                   dietStatus: string, statusType: StatusType)

  const CompletedText: string := "\U{2705} Completed"
  const MissedPrefix: string := "\U{26A0}\U{FE0F} Missed: "

  /** `allWeights.filter(w => new Date(w.timestamp).toDateString() === dateKey)`. */
  function DayWeights(allWeights: seq<WeightEntry>, dateKey: string, dayOf: int -> string): (r: seq<WeightEntry>)
    ensures |r| <= |allWeights|
    ensures forall e :: e in r <==> e in allWeights && dayOf(e.timestamp) == dateKey
  {
    if allWeights == [] then []
    else
      var rest := DayWeights(allWeights[1..], dateKey, dayOf);
      if dayOf(allWeights[0].timestamp) == dateKey then [allWeights[0]] + rest else rest
  }

  /** `allWeights[i]` is the last entry, in stored order, logged on `dateKey`. */
  ghost predicate LastOnDay(allWeights: seq<WeightEntry>, dateKey: string, dayOf: int -> string, i: int) {
    && 0 <= i < |allWeights|
    && dayOf(allWeights[i].timestamp) == dateKey
    && forall j :: i < j < |allWeights| ==> dayOf(allWeights[j].timestamp) != dateKey
  }

  /** The last element of the filtered list is the last matching entry of the whole list. */
  lemma {:induction false} DayWeightsLast(allWeights: seq<WeightEntry>, dateKey: string, dayOf: int -> string)
    ensures var r := DayWeights(allWeights, dateKey, dayOf);
            r != [] ==> exists i :: LastOnDay(allWeights, dateKey, dayOf, i) && allWeights[i] == r[|r| - 1]
  {
    if allWeights != [] {
      var tail := allWeights[1..];
      var rest := DayWeights(tail, dateKey, dayOf);
      DayWeightsLast(tail, dateKey, dayOf);
      if rest != [] {
        var i :| LastOnDay(tail, dateKey, dayOf, i) && tail[i] == rest[|rest| - 1];
        LastOnDayInTail(allWeights, dateKey, dayOf, i);
      } else if dayOf(allWeights[0].timestamp) == dateKey {
        forall j | 0 < j < |allWeights| ensures dayOf(allWeights[j].timestamp) != dateKey {
          assert allWeights[j] == tail[j - 1];
          assert tail[j - 1] in tail;
        }
        assert LastOnDay(allWeights, dateKey, dayOf, 0);
      }
    }
  }

  /** The last entry of the tail logged on a day is the last of the whole list. */
  lemma LastOnDayInTail(allWeights: seq<WeightEntry>, dateKey: string, dayOf: int -> string, i: int)
    requires allWeights != [] && LastOnDay(allWeights[1..], dateKey, dayOf, i)
    ensures LastOnDay(allWeights, dateKey, dayOf, i + 1) && allWeights[i + 1] == allWeights[1..][i]
  {
    forall j | i + 1 < j < |allWeights| ensures dayOf(allWeights[j].timestamp) != dateKey {
      assert allWeights[j] == allWeights[1..][j - 1];
    }
  }

  /** The row's weight: the last entry logged that day, or "N/A". */
  function WeightOnDay(allWeights: seq<WeightEntry>, dateKey: string, dayOf: int -> string): (r: WeightDisplay)
    ensures r == NotAvailable <==> forall e :: e in allWeights ==> dayOf(e.timestamp) != dateKey
    ensures r.Kg? ==> exists i :: LastOnDay(allWeights, dateKey, dayOf, i) && allWeights[i].weight == r.weight
  {
    var dayWeights := DayWeights(allWeights, dateKey, dayOf);
    if |dayWeights| > 0 then
      DayWeightsLast(allWeights, dateKey, dayOf);
      assert dayWeights[0] in allWeights && dayOf(dayWeights[0].timestamp) == dateKey;
      Kg(dayWeights[|dayWeights| - 1].weight)
    else NotAvailable
  }

  /** The keys of `eatenMeals` whose value is false, in entry order:
      `Object.entries(eatenMeals).filter(([, v]) => !v).map(([meal]) => meal)`. */
  function FalseKeys(eatenMeals: seq<(string, bool)>): (r: seq<string>)
    ensures |r| <= |eatenMeals|
    ensures forall m :: m in r <==> (m, false) in eatenMeals
  {
    if eatenMeals == [] then []
    else
      var rest := FalseKeys(eatenMeals[1..]);
      assert forall m :: (m, false) in eatenMeals <==> eatenMeals[0] == (m, false) || (m, false) in eatenMeals[1..];
      if !eatenMeals[0].1 then [eatenMeals[0].0] + rest else rest
  }

  /** Listing false entries keeps their order: the listed keys of `a + b` are
      those of `a` followed by those of `b`. */
  lemma {:induction false} FalseKeysAppend(a: seq<(string, bool)>, b: seq<(string, bool)>)
    ensures FalseKeys(a + b) == FalseKeys(a) + FalseKeys(b)
  {
    if a == [] {
      assert a + b == b;
    } else {
      assert (a + b)[1..] == a[1..] + b;
      FalseKeysAppend(a[1..], b);
    }
  }

  /** A meal that has no entry at all is never listed as missed here (unlike
      the dashboard, which counts an absent category as missed). */
  lemma AbsentMealNotListed(eatenMeals: seq<(string, bool)>, meal: string)
    requires Lookup(eatenMeals, meal).None?
    ensures meal !in FalseKeys(eatenMeals)
  {
  }

  /** The status text and type of one day. `numberText` is how `${...}`
      renders a number; the conversion itself is not modelled. */
  function DietStatus(record: Option<DietRecord>, numberText: real -> string): (r: (string, StatusType))
    ensures record.None? <==> r == ("Not Started", NotStarted)
    ensures record.Some? && record.value.completionPercentage == 100.0 ==> r == (CompletedText, Completed)
    ensures record.Some? && record.value.completionPercentage != 100.0 ==> r.1 == MissedType
    ensures record.Some? && record.value.completionPercentage != 100.0 ==>
              r.0 == (if exists m :: (m, false) in record.value.eatenMeals
                      then MissedPrefix + Join(FalseKeys(record.value.eatenMeals), ", ")
                      else numberText(record.value.completionPercentage) + "%")
  {
    match record
    case None => ("Not Started", NotStarted)
    case Some(rec) =>
      if rec.completionPercentage == 100.0 then (CompletedText, Completed)
      else
        var missed := FalseKeys(rec.eatenMeals);
        if |missed| > 0 then
          assert missed[0] in missed;
          (MissedPrefix + Join(missed, ", "), MissedType)
        else
          (numberText(rec.completionPercentage) + "%", MissedType)
  }

  function RecordFor(dietHistory: map<string, DietRecord>, dateKey: string): Option<DietRecord> {
    if dateKey in dietHistory then Some(dietHistory[dateKey]) else None
  }

  /** The row the page shows for one calendar day. */
  function Row(allWeights: seq<WeightEntry>, dietHistory: map<string, DietRecord>,
               day: CalendarDay, dayOf: int -> string, numberText: real -> string): SummaryRow
  {
    var status := DietStatus(RecordFor(dietHistory, day.dateKey), numberText);
    SummaryRow(day.formattedDate, day.dayAbbr, WeightOnDay(allWeights, day.dateKey, dayOf), status.0, status.1)
  }

  /** `generateWeeklySummary`: one row per day offset 0..6, today first. */
  method GenerateWeeklySummary(allWeights: seq<WeightEntry>, dietHistory: map<string, DietRecord>,
                               calendar: nat -> CalendarDay, dayOf: int -> string, numberText: real -> string)
    returns (summary: seq<SummaryRow>)
    ensures |summary| == 7
    ensures forall i :: 0 <= i < 7 ==> summary[i] == Row(allWeights, dietHistory, calendar(i), dayOf, numberText)
  {
    summary := [];
    for i := 0 to 7
      invariant |summary| == i
      invariant forall k :: 0 <= k < i ==> summary[k] == Row(allWeights, dietHistory, calendar(k), dayOf, numberText)
    {
      var d := calendar(i);
      var dayWeights := DayWeights(allWeights, d.dateKey, dayOf);
      var weightStatus := if |dayWeights| > 0 then Kg(dayWeights[|dayWeights| - 1].weight) else NotAvailable;

      var dietStatus, statusType := "Not Started", NotStarted;
      if d.dateKey in dietHistory {
        var dayDietData := dietHistory[d.dateKey];
        if dayDietData.completionPercentage == 100.0 {
          dietStatus, statusType := CompletedText, Completed;
        } else {
          var missed := FalseKeys(dayDietData.eatenMeals);
          dietStatus := if |missed| > 0 then MissedPrefix + Join(missed, ", ")
                        else numberText(dayDietData.completionPercentage) + "%";
          statusType := MissedType;
        }
      }
      assert weightStatus == WeightOnDay(allWeights, d.dateKey, dayOf);
      assert (dietStatus, statusType) == DietStatus(RecordFor(dietHistory, d.dateKey), numberText);
      summary := summary + [SummaryRow(d.formattedDate, d.dayAbbr, weightStatus, dietStatus, statusType)];
    }
  }
}
