/** The dashboard (home page): the fixed weekly meal plan, the lookup of a
    category's items for a day, the latest logged weight and the message
    that summarises today's diet record. */
module Dashboard {
  import opened Text
  import opened Records

  datatype MealItem = MealItem(item: string, calories: nat)

  /** A category either has one list for every day (`all`) or one item per
      day, keyed by the three-letter day name. */
  datatype CategoryData = Everyday(all: seq<MealItem>) | ByDay(days: map<string, MealItem>)

  const DaysOfWeek: seq<string> := ["Sun", "Mon", "Tue", "Wed", "Thu", "Fri", "Sat"]

  /** `Object.keys(mealPlanData)`, in declaration order. */
  const Categories: seq<string> :=
    ["Early Morning", "Breakfast", "Mid-Morning Snack", "Lunch", "Evening Snack", "Dinner",
     "Before Bed (Optional)"]

  const MealPlanData: map<string, CategoryData> := map[
    "Early Morning" := Everyday([
      MealItem("1 glass lukewarm jeera water", 0),
      MealItem("OR soaked chia seeds water (1 tsp soaked overnight in 1 glass water)", 50)]),
    "Breakfast" := ByDay(map[
      "Mon" := MealItem("2 Idli + sambar (no coconut chutney) + \U{00BD} banana", 300),
      "Tue" := MealItem("Vegetable upma with 1 tsp ghee", 250),
      "Wed" := MealItem("Dosa (non-fermented, thin) + mint chutney", 200),
      "Thu" := MealItem("Pongal (with less ghee) + boiled beetroot", 350),
      "Fri" := MealItem("Oats with buttermilk + curry leaves", 220),
      "Sat" := MealItem("Ragi dosa + chutney", 240),
      "Sun" := MealItem("Moong dal chilla + carrot chutney", 280)]),
    "Mid-Morning Snack" := Everyday([
      MealItem("1 cup buttermilk with curry leaves", 80),
      MealItem("OR 1 guava / orange / papaya", 60)]),
    "Lunch" := ByDay(map[
      "Mon" := MealItem("1 cup rice + sambar + cabbage curry + 1 tsp ghee", 450),
      "Tue" := MealItem("2 phulka + moong dal curry + snake gourd poriyal", 400),
      "Wed" := MealItem("Vegetable khichdi (no onion) + curd", 420),
      "Thu" := MealItem("Rice + rasam + beans curry + salad", 380),
      "Fri" := MealItem("Brown rice + horse gram curry (ulava charu)", 470),
      "Sat" := MealItem("2 jowar rotis + tomato dal + carrot curry", 430),
      "Sun" := MealItem("Rice + curd + beetroot thoran + 1 tsp flaxseeds", 400)]),
    "Evening Snack" := Everyday([
      MealItem("Roasted peanuts (1 tbsp)", 100),
      MealItem("OR 1 cup buttermilk with hing + cumin", 80),
      MealItem("OR 1 small banana or guava", 90)]),
    "Dinner" := ByDay(map[
      "Mon" := MealItem("Vegetable soup + ragi roti", 300),
      "Tue" := MealItem("Dosa + mint chutney", 250),
      "Wed" := MealItem("Broken wheat (godhuma rava) upma", 280),
      "Thu" := MealItem("Moong dal soup + 1 idli", 220),
      "Fri" := MealItem("Steamed vegetable salad + fruit", 180),
      "Sat" := MealItem("Lemon rice (with less oil) + salad", 320),
      "Sun" := MealItem("Curd rice (small portion) + grated carrot", 280)]),
    "Before Bed (Optional)" := Everyday([
      MealItem("1 cup ajwain or jeera water (warm)", 0)])
  ]

  /** The text shown for a per-day category that has no item for the day. */
  function Placeholder(dayAbbr: string, category: string): MealItem {
    MealItem("No plan for " + dayAbbr + " " + category + ".", 0)
  }

  /** `getMealItemsForDisplay(categoryName, currentDayAbbr)`. */
  function MealItemsForDisplay(category: string, dayAbbr: string): (r: seq<MealItem>)
    ensures category !in MealPlanData ==> r == []
    ensures category in MealPlanData && MealPlanData[category].Everyday? ==>
              r == MealPlanData[category].all
    ensures category in MealPlanData && MealPlanData[category].ByDay? ==>
              |r| == 1 &&
              r[0] == (if dayAbbr in MealPlanData[category].days then MealPlanData[category].days[dayAbbr]
                       else Placeholder(dayAbbr, category))
  {
    if category !in MealPlanData then []
    else match MealPlanData[category]
      case Everyday(all) => all
      case ByDay(days) => if dayAbbr in days then [days[dayAbbr]] else [Placeholder(dayAbbr, category)]
  }

  /** The category list is exactly the plan's keys, seven of them, all distinct. */
  lemma CategoriesArePlanKeys()
    ensures |Categories| == 7
    ensures forall i, j :: 0 <= i < j < |Categories| ==> Categories[i] != Categories[j]
    ensures forall c :: c in MealPlanData <==> c in Categories
  {
  }

  /** For every listed category and every day of the week the lookup gives
      at least one real item: the placeholder is never shown for a valid day. */
  lemma PlanCoversEveryDay(category: string, dayAbbr: string)
    requires category in Categories && dayAbbr in DaysOfWeek
    ensures |MealItemsForDisplay(category, dayAbbr)| >= 1
    ensures MealPlanData[category].ByDay? ==>
              MealItemsForDisplay(category, dayAbbr) == [MealPlanData[category].days[dayAbbr]]
  {
  }

  // ---------------------------------------------------------------------
  // Latest weight.

  /** `log[i]` is the first entry with the greatest timestamp: the head of
      the log when it is sorted by descending timestamp with a stable sort. */
  ghost predicate FirstLatestAt(log: seq<WeightEntry>, i: int) {
    && 0 <= i < |log|
    && (forall j :: 0 <= j < |log| ==> log[j].timestamp <= log[i].timestamp)
    && (forall j :: 0 <= j < i ==> log[j].timestamp < log[i].timestamp)
  }

  /** `[...log].sort((a, b) => b.timestamp - a.timestamp)[0]`, or nothing for an empty log. */
  function LatestEntry(log: seq<WeightEntry>): (r: Option<WeightEntry>)
    ensures r.None? <==> log == []
    ensures r.Some? ==> exists i :: FirstLatestAt(log, i) && log[i] == r.value
  {
    if log == [] then None
    else
      var rest := LatestEntry(log[1..]);
      if rest.None? || log[0].timestamp >= rest.value.timestamp then
        assert FirstLatestAt(log, 0);
        Some(log[0])
      else
        assert exists i :: FirstLatestAt(log, i) && log[i] == rest.value by {
          var i :| FirstLatestAt(log[1..], i) && log[1..][i] == rest.value;
          assert FirstLatestAt(log, i + 1);
        }
        rest
  }

  /** The dashboard's "Latest weight" value. */
  function LatestWeight(log: seq<WeightEntry>): (r: WeightDisplay)
    ensures r == NotAvailable <==> log == []
    ensures r.Kg? ==> exists i :: FirstLatestAt(log, i) && log[i].weight == r.weight
  {
    match LatestEntry(log)
    case None => NotAvailable
    case Some(e) => Kg(e.weight)
  }

  // ---------------------------------------------------------------------
  // Today's diet status.

  /** `eatenMeals[category]` is truthy. */
  predicate IsEaten(eatenMeals: seq<(string, bool)>, category: string) {
    Lookup(eatenMeals, category) == Some(true)
  }

  ghost predicate IsSubsequence(a: seq<string>, b: seq<string>) {
    if a == [] then true
    else if b == [] then false
    else (a[0] == b[0] && IsSubsequence(a[1..], b[1..])) || IsSubsequence(a, b[1..])
  }

  /** `categories.filter(c => !eatenMeals[c])`. */
  function MissedCategories(categories: seq<string>, eatenMeals: seq<(string, bool)>): (r: seq<string>)
    ensures forall c :: c in r <==> c in categories && !IsEaten(eatenMeals, c)
    ensures IsSubsequence(r, categories)
    ensures r == [] <==> forall c :: c in categories ==> IsEaten(eatenMeals, c)
  {
    if categories == [] then []
    else
      var rest := MissedCategories(categories[1..], eatenMeals);
      if IsEaten(eatenMeals, categories[0]) then
        SubsequenceOfTail(rest, categories);
        rest
      else
        [categories[0]] + rest
  }

  lemma SubsequenceOfTail(a: seq<string>, b: seq<string>)
    requires b != [] && IsSubsequence(a, b[1..])
    ensures IsSubsequence(a, b)
  {
  }

  /** The name used for a missed category: its first item's text up to the
      first `(`, trimmed; the category name itself if it had no item. */
  function MissedName(category: string, dayAbbr: string): string {
    var items := MealItemsForDisplay(category, dayAbbr);
    if |items| > 0 then Trim(BeforeFirst(items[0].item, '(')) else category
  }

  function MissedNames(missed: seq<string>, dayAbbr: string): (r: seq<string>)
    ensures |r| == |missed|
    ensures forall i :: 0 <= i < |missed| ==> r[i] == MissedName(missed[i], dayAbbr)
  {
    seq(|missed|, i requires 0 <= i < |missed| => MissedName(missed[i], dayAbbr))
  }

  /** `Object.values(eatenMeals).filter(status => status).length`. */
  function EatenCount(eatenMeals: seq<(string, bool)>): nat {
    if eatenMeals == [] then 0 else (if eatenMeals[0].1 then 1 else 0) + EatenCount(eatenMeals[1..])
  }

  /** The message `updateTrackingData` sets for today's record, if any. */
  function DietStatusMessage(today: Option<DietRecord>, dayAbbr: string): string {
    match today
    case None => "Not Started Today"
    case Some(rec) =>
      if rec.completionPercentage == 100.0 then "Completed Today!"
      else
        var missed := MissedCategories(Categories, rec.eatenMeals);
        if |missed| > 0 then "Missed: " + Join(MissedNames(missed, dayAbbr), ", ")
        else "In Progress (" + IntToString(EatenCount(rec.eatenMeals)) + "/" + IntToString(|Categories|) + ")"
  }

  /** The four outcomes of the status message, and when each is chosen. */
  lemma DietStatusCases(today: Option<DietRecord>, dayAbbr: string)
    ensures today.None? ==> DietStatusMessage(today, dayAbbr) == "Not Started Today"
    ensures today.Some? && today.value.completionPercentage == 100.0 ==>
              DietStatusMessage(today, dayAbbr) == "Completed Today!"
    ensures today.Some? && today.value.completionPercentage != 100.0 &&
            (exists c :: c in Categories && !IsEaten(today.value.eatenMeals, c)) ==>
              DietStatusMessage(today, dayAbbr) ==
              "Missed: " + Join(MissedNames(MissedCategories(Categories, today.value.eatenMeals), dayAbbr), ", ")
    ensures today.Some? && today.value.completionPercentage != 100.0 &&
            (forall c :: c in Categories ==> IsEaten(today.value.eatenMeals, c)) ==>
              DietStatusMessage(today, dayAbbr) ==
              "In Progress (" + IntToString(EatenCount(today.value.eatenMeals)) + "/7)"
  {
    if today.Some? && today.value.completionPercentage != 100.0 {
      var missed := MissedCategories(Categories, today.value.eatenMeals);
      if exists c :: c in Categories && !IsEaten(today.value.eatenMeals, c) {
        var c :| c in Categories && !IsEaten(today.value.eatenMeals, c);
        assert c in missed;
      } else {
        assert IntToString(|Categories|) == "7";
      }
    }
  }

  /** A missed category is always named by its first item, never by the
      fallback, because every category of the plan has at least one item. */
  lemma MissedNameFromFirstItem(category: string, dayAbbr: string)
    requires category in Categories
    ensures MissedName(category, dayAbbr) == Trim(BeforeFirst(MealItemsForDisplay(category, dayAbbr)[0].item, '('))
  {
  }

  /** `true` entries of an object with distinct keys number at least as many
      as any set of keys whose entries are all `true`. */
  lemma {:induction false} EatenCountAtLeast(eatenMeals: seq<(string, bool)>, keys: set<string>)
    requires DistinctKeys(eatenMeals)
    requires forall k :: k in keys ==> (k, true) in eatenMeals
    ensures EatenCount(eatenMeals) >= |keys|
  {
    if eatenMeals != [] {
      var (k0, v0) := eatenMeals[0];
      var tail := eatenMeals[1..];
      assert DistinctKeys(tail);
      var rest := keys - {k0};
      forall k | k in rest ensures (k, true) in tail {
        var i :| 0 <= i < |eatenMeals| && eatenMeals[i] == (k, true);
        assert i != 0;
        assert tail[i - 1] == (k, true);
      }
      EatenCountAtLeast(tail, rest);
      if k0 in keys {
        var i :| 0 <= i < |eatenMeals| && eatenMeals[i] == (k0, true);
        assert i == 0;
      }
    }
  }

  lemma {:induction false} DistinctElements(s: seq<string>)
    requires forall i, j :: 0 <= i < j < |s| ==> s[i] != s[j]
    ensures |set x | x in s| == |s|
  {
    if s != [] {
      DistinctElements(s[1..]);
      assert (set x | x in s) == (set x | x in s[1..]) + {s[0]};
      assert s[0] !in s[1..];
    }
  }

  /** "In Progress (k/7)" is only shown when every category is eaten, so for
      an object with distinct keys its count k is never below 7. */
  lemma InProgressCountsEveryCategory(rec: DietRecord)
    requires DistinctKeys(rec.eatenMeals)
    requires rec.completionPercentage != 100.0
    requires MissedCategories(Categories, rec.eatenMeals) == []
    ensures forall c :: c in Categories ==> IsEaten(rec.eatenMeals, c)
    ensures EatenCount(rec.eatenMeals) >= |Categories|
  {
    var keys := set c | c in Categories;
    CategoriesArePlanKeys();
    DistinctElements(Categories);
    forall k | k in keys ensures (k, true) in rec.eatenMeals {
      assert IsEaten(rec.eatenMeals, k);
    }
    EatenCountAtLeast(rec.eatenMeals, keys);
  }
}
