/** The weight tracker page: logging a weight into the list of entries kept
    sorted by timestamp, writing the list back to storage, and the history
    table and progress chart derived from it. */
module WeightTracker {
  import opened Records

  // ---------------------------------------------------------------------
  // `sort((a, b) => a.timestamp - b.timestamp)`, which is stable.

  ghost predicate Sorted(s: seq<WeightEntry>) {
    forall i, j :: 0 <= i < j < |s| ==> s[i].timestamp <= s[j].timestamp
  }

  /** `e` placed before the first entry of `t` with a greater or equal
      timestamp, so that it stays ahead of entries with its own timestamp. */
  function Insert(e: WeightEntry, t: seq<WeightEntry>): (r: seq<WeightEntry>)
    ensures |r| == |t| + 1
  {
    if t == [] || e.timestamp <= t[0].timestamp then [e] + t else [t[0]] + Insert(e, t[1..])
  }

  /** Inserting adds exactly the new entry. */
  lemma {:induction false} InsertPermutes(e: WeightEntry, t: seq<WeightEntry>)
    ensures multiset(Insert(e, t)) == multiset(t) + multiset{e}
  {
    if t != [] && e.timestamp > t[0].timestamp {
      InsertPermutes(e, t[1..]);
      assert t == [t[0]] + t[1..];
    }
  }

  /** Every entry of `s` is at or after timestamp `ts`. */
  ghost predicate NotBefore(s: seq<WeightEntry>, ts: int) {
    forall y :: y in s ==> ts <= y.timestamp
  }

  lemma SortedCons(x: WeightEntry, s: seq<WeightEntry>)
    requires Sorted(s) && NotBefore(s, x.timestamp)
    ensures Sorted([x] + s)
  {
    forall i, j | 0 <= i < j < |[x] + s| ensures ([x] + s)[i].timestamp <= ([x] + s)[j].timestamp {
      if i > 0 {
        assert ([x] + s)[i] == s[i - 1] && ([x] + s)[j] == s[j - 1];
      } else {
        assert ([x] + s)[j] == s[j - 1] && s[j - 1] in s;
      }
    }
  }

  lemma SortedHeadFirst(s: seq<WeightEntry>)
    requires Sorted(s) && s != []
    ensures NotBefore(s, s[0].timestamp) && Sorted(s[1..])
  {
    forall y | y in s ensures s[0].timestamp <= y.timestamp {
      var j :| 0 <= j < |s| && s[j] == y;
    }
  }

  /** Inserting keeps a sorted list sorted. */
  lemma {:induction false} InsertSorted(e: WeightEntry, t: seq<WeightEntry>)
    requires Sorted(t)
    ensures Sorted(Insert(e, t))
  {
    if t == [] {
    } else if e.timestamp <= t[0].timestamp {
      SortedHeadFirst(t);
      SortedCons(e, t);
    } else {
      SortedHeadFirst(t);
      var rest := Insert(e, t[1..]);
      InsertSorted(e, t[1..]);
      InsertPermutes(e, t[1..]);
      forall y | y in rest ensures t[0].timestamp <= y.timestamp {
        assert y in multiset(rest);
        if y != e {
          assert y in multiset(t[1..]);
          var j :| 0 <= j < |t[1..]| && t[1..][j] == y;
          assert t[j + 1] in t;
        }
      }
      SortedCons(t[0], rest);
    }
  }

  /** The list sorted by ascending timestamp, equal timestamps kept in their order. */
  function SortByTimestamp(s: seq<WeightEntry>): (r: seq<WeightEntry>)
    ensures |r| == |s|
    ensures Sorted(r)
    ensures multiset(r) == multiset(s)
  {
    if s == [] then []
    else
      assert s == [s[0]] + s[1..];
      InsertSorted(s[0], SortByTimestamp(s[1..]));
      InsertPermutes(s[0], SortByTimestamp(s[1..]));
      Insert(s[0], SortByTimestamp(s[1..]))
  }

  /** The entries of `s` with timestamp `t`, in order. */
  function WithTimestamp(s: seq<WeightEntry>, t: int): seq<WeightEntry> {
    if s == [] then [] else (if s[0].timestamp == t then [s[0]] else []) + WithTimestamp(s[1..], t)
  }

  lemma WithTimestampCons(x: WeightEntry, s: seq<WeightEntry>, t: int)
    ensures WithTimestamp([x] + s, t) == (if x.timestamp == t then [x] else []) + WithTimestamp(s, t)
  {
    assert ([x] + s)[1..] == s;
  }

  lemma {:induction false} InsertStable(e: WeightEntry, u: seq<WeightEntry>, t: int)
    ensures WithTimestamp(Insert(e, u), t) == (if e.timestamp == t then [e] else []) + WithTimestamp(u, t)
  {
    if u != [] && e.timestamp > u[0].timestamp {
      var rest := Insert(e, u[1..]);
      assert Insert(e, u) == [u[0]] + rest;
      InsertStable(e, u[1..], t);
      WithTimestampCons(u[0], rest, t);
      assert u == [u[0]] + u[1..];
      WithTimestampCons(u[0], u[1..], t);
    } else {
      WithTimestampCons(e, u, t);
    }
  }

  /** The sort is stable: entries with the same timestamp keep their relative order. */
  lemma {:induction false} SortStable(s: seq<WeightEntry>, t: int)
    ensures WithTimestamp(SortByTimestamp(s), t) == WithTimestamp(s, t)
  {
    if s != [] {
      SortStable(s[1..], t);
      InsertStable(s[0], SortByTimestamp(s[1..]), t);
    }
  }

  /** Where `Insert` puts the new entry. */
  function InsertIndex(e: WeightEntry, t: seq<WeightEntry>): (k: nat)
    ensures k <= |t|
  {
    if t == [] || e.timestamp <= t[0].timestamp then 0 else InsertIndex(e, t[1..]) + 1
  }

  /** Inserting puts the new entry at one index and keeps every old entry,
      in its old order. */
  lemma {:induction false} InsertSplits(e: WeightEntry, t: seq<WeightEntry>)
    ensures Insert(e, t) == t[..InsertIndex(e, t)] + [e] + t[InsertIndex(e, t)..]
  {
    if t == [] || e.timestamp <= t[0].timestamp {
      assert t[..0] == [] && t[0..] == t;
    } else {
      var u := t[1..];
      var k := InsertIndex(e, u);
      InsertSplits(e, u);
      assert t[..k + 1] == [t[0]] + u[..k];
      assert t[k + 1..] == u[k..];
    }
  }

  /** A list already in timestamp order is left as it is. */
  lemma {:induction false} SortSorted(s: seq<WeightEntry>)
    requires Sorted(s)
    ensures SortByTimestamp(s) == s
  {
    if s != [] {
      SortSorted(s[1..]);
      assert s == [s[0]] + s[1..];
    }
  }

  /** The new log `[entry, ...prev].sort(...)` of a sorted `prev` is `prev`
      with `entry` inserted at one place. */
  lemma LogInsertsOne(entry: WeightEntry, prev: seq<WeightEntry>)
    requires Sorted(prev)
    ensures SortByTimestamp([entry] + prev) ==
            prev[..InsertIndex(entry, prev)] + [entry] + prev[InsertIndex(entry, prev)..]
  {
    assert ([entry] + prev)[1..] == prev;
    SortSorted(prev);
    InsertSplits(entry, prev);
  }

  // ---------------------------------------------------------------------
  // Page state.

  /** `weightLogMessage`: empty, the error, or the success message for a
      weight (`Logged ${weight} kg successfully!`; the number's rendering
      is not modelled). */
  datatype LogMessage = NoMessage | Error(text: string) | Logged(weight: real)

  const InvalidWeight: string := "Please enter a valid weight."

  /** The moment a weight is logged: `Date.now()`, the locale date and time
      strings and `getTime()`. */
  datatype Moment = Moment(id: int, date: string, time: string, timestamp: int)

  /** `!weight || weight <= 0` rejects the parse result: not a number, zero or negative. */
  predicate ValidWeight(weight: Option<real>) {
    weight.Some? && weight.value > 0.0
  }

  class WeightTrackerPage {
    var currentWeight: string
    var message: LogMessage
    var isLogging: bool
    var loggedWeights: seq<WeightEntry>
    /** The `loggedWeights` storage slot. */
    var stored: Option<seq<WeightEntry>>

    /** The log has been written back to storage. */
    ghost predicate Valid()
      reads this
    {
      stored == Some(loggedWeights)
    }

    /** Mounting the page: the log comes from storage (empty when there is
        none) and the effect writes it back at once. */
    constructor (saved: Option<seq<WeightEntry>>)
      ensures Valid()
      ensures loggedWeights == (if saved.Some? then saved.value else [])
      ensures currentWeight == "" && message == NoMessage && !isLogging
    {
      currentWeight := "";
      message := NoMessage;
      isLogging := false;
      loggedWeights := if saved.Some? then saved.value else [];
      stored := Some(loggedWeights);
    }

    /** `handleWeightLog`, with `parseFloat` given as `parse`. */
    method HandleWeightLog(parse: string -> Option<real>, now: Moment)
      requires Valid()
      modifies this
      ensures Valid()
      ensures !isLogging
      ensures !ValidWeight(parse(old(currentWeight))) ==>
                && loggedWeights == old(loggedWeights)
                && message == Error(InvalidWeight)
                && currentWeight == old(currentWeight)
      ensures ValidWeight(parse(old(currentWeight))) ==>
                var entry := WeightEntry(now.id, parse(old(currentWeight)).value, now.date, now.time, now.timestamp);
                && loggedWeights == SortByTimestamp([entry] + old(loggedWeights))
                && message == Logged(entry.weight)
                && currentWeight == ""
    {
      isLogging := true;
      message := NoMessage;

      var weight := parse(currentWeight);
      if !ValidWeight(weight) {
        message := Error(InvalidWeight);
        isLogging := false;
        return;
      }

      var entry := WeightEntry(now.id, weight.value, now.date, now.time, now.timestamp);
      loggedWeights := SortByTimestamp([entry] + loggedWeights);
      stored := Some(loggedWeights);
      message := Logged(weight.value);
      currentWeight := "";
      isLogging := false;
    }
  }

  /** A successful log keeps the list sorted with the new entry added once
      and every old entry kept: it is a sorted permutation of the old log
      plus the entry, and for a sorted old log the old entries keep their
      order around the one place where the entry goes. */
  lemma LoggedWeightsAfterLog(entry: WeightEntry, prev: seq<WeightEntry>)
    ensures Sorted(SortByTimestamp([entry] + prev))
    ensures multiset(SortByTimestamp([entry] + prev)) == multiset(prev) + multiset{entry}
    ensures Sorted(prev) ==>
              var k := InsertIndex(entry, prev);
              k <= |prev| && SortByTimestamp([entry] + prev) == prev[..k] + [entry] + prev[k..]
  {
    assert multiset([entry] + prev) == multiset(prev) + multiset{entry};
    if Sorted(prev) {
      LogInsertsOne(entry, prev);
    }
  }

  // ---------------------------------------------------------------------
  // Views.

  /** The chart's labels and data: dates and weights of the log sorted by timestamp. */
  function ChartSeries(log: seq<WeightEntry>): (r: (seq<string>, seq<real>))
    ensures |r.0| == |log| && |r.1| == |log|
    ensures forall i :: 0 <= i < |log| ==>
              r.0[i] == SortByTimestamp(log)[i].date && r.1[i] == SortByTimestamp(log)[i].weight
  {
    var sorted := SortByTimestamp(log);
    (seq(|sorted|, i requires 0 <= i < |sorted| => sorted[i].date),
     seq(|sorted|, i requires 0 <= i < |sorted| => sorted[i].weight))
  }

  /** The history table's rows: `loggedWeights.slice().reverse()`. */
  function TableRows(log: seq<WeightEntry>): (r: seq<WeightEntry>)
    ensures |r| == |log|
    ensures forall i :: 0 <= i < |log| ==> r[i] == log[|log| - 1 - i]
  {
    if log == [] then [] else TableRows(log[1..]) + [log[0]]
  }

  /** What the page renders below the form: the table when there is at least
      one entry, the chart when there are at least two. */
  datatype View = View(table: Option<seq<WeightEntry>>, chart: Option<(seq<string>, seq<real>)>)

  function PageView(log: seq<WeightEntry>): (v: View)
    ensures v.table.Some? <==> |log| > 0
    ensures v.table.Some? ==> v.table.value == TableRows(log)
    ensures v.chart.Some? <==> |log| >= 2
    ensures v.chart.Some? ==> v.chart.value == ChartSeries(log)
    ensures v.chart.Some? ==> v.table.Some?
  {
    View(if |log| > 0 then Some(TableRows(log)) else None,
         if |log| >= 2 then Some(ChartSeries(log)) else None)
  }

  /** The chart's points are in ascending timestamp order, and for a log
      already sorted they are the log itself, entry for entry. */
  lemma ChartInTimeOrder(log: seq<WeightEntry>)
    ensures Sorted(SortByTimestamp(log))
    ensures Sorted(log) ==> forall i :: 0 <= i < |log| ==>
              ChartSeries(log).0[i] == log[i].date && ChartSeries(log).1[i] == log[i].weight
  {
    if Sorted(log) {
      SortSorted(log);
    }
  }
}
