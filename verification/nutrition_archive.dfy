/**
 * checkAndArchiveWeeks: once the food log spans seven or more distinct
 * calendar days, the oldest seven are folded into one weekly summary of
 * daily averages and their entries leave the log.
 *
 * Dates are the calendar-date keys the source derives from each entry's
 * timestamp (its first ten characters, in ISO 8601 form); an entry without a
 * timestamp has the empty key and takes no part. Keys are ordered as
 * Array.prototype.sort orders strings, character by character.
 */
module NutritionArchive {
  import opened Basics

  const ArchiveThresholdDays: nat := 7

  datatype FoodEntry = FoodEntry(date: string, calories: real, protein: real, carbs: real, fat: real)

  datatype Averages = Averages(calories: int, protein: int, carbs: int, fat: int)

  /** A weekly summary; `id` is the clock reading of "week_<ms>", `number` the n of "Woche n". */
  datatype WeekSummary = WeekSummary(id: int, number: nat, startDate: string, endDate: string, averages: Averages)

  // ---------------------------------------------------------------------------
  // String order
  // ---------------------------------------------------------------------------

  /** `a` sorts strictly before `b`: the first differing character decides, and a proper prefix comes first. */
  predicate Less(a: string, b: string)
  {
    if a == [] then b != []
    else if b == [] then false
    else if a[0] != b[0] then a[0] < b[0]
    else Less(a[1..], b[1..])
  }

  lemma {:induction false} LessIrreflexive(a: string)
    ensures !Less(a, a)
  {
    if a != [] {
      LessIrreflexive(a[1..]);
    }
  }

  lemma {:induction false} LessTransitive(a: string, b: string, c: string)
    requires Less(a, b) && Less(b, c)
    ensures Less(a, c)
  {
    if a != [] && b != [] && c != [] && a[0] == b[0] && b[0] == c[0] {
      LessTransitive(a[1..], b[1..], c[1..]);
    }
  }

  lemma {:induction false} LessTotal(a: string, b: string)
    requires a != b
    ensures Less(a, b) || Less(b, a)
  {
    if a != [] && b != [] && a[0] == b[0] {
      assert a == [a[0]] + a[1..] && b == [b[0]] + b[1..];
      LessTotal(a[1..], b[1..]);
    }
  }

  lemma {:induction false} LessAsymmetric(a: string, b: string)
    requires Less(a, b)
    ensures !Less(b, a)
  {
    if Less(b, a) {
      LessTransitive(a, b, a);
      LessIrreflexive(a);
    }
  }

  /** Sorted oldest first, without duplicates. */
  ghost predicate StrictlySorted(s: seq<string>)
  {
    forall i, j :: 0 <= i < j < |s| ==> Less(s[i], s[j])
  }

  // ---------------------------------------------------------------------------
  // The sorted set of distinct dates
  // ---------------------------------------------------------------------------

  /** The distinct date keys of the log (entries without a timestamp excluded). */
  ghost function DateSet(entries: seq<FoodEntry>): set<string>
  {
    set e | e in entries && e.date != [] :: e.date
  }

  /** Insert a date into a sorted list of distinct dates, unless it is already there. */
  function Insert(sorted: seq<string>, d: string): (r: seq<string>)
    ensures forall x :: x in r <==> x in sorted || x == d
  {
    if sorted == [] then [d]
    else if d == sorted[0] then sorted
    else if Less(d, sorted[0]) then [d] + sorted
    else [sorted[0]] + Insert(sorted[1..], d)
  }

  lemma {:induction false} InsertSorted(sorted: seq<string>, d: string)
    requires StrictlySorted(sorted)
    ensures StrictlySorted(Insert(sorted, d))
  {
    if sorted != [] && d != sorted[0] {
      var r := Insert(sorted, d);
      if Less(d, sorted[0]) {
        forall i, j | 0 <= i < j < |r| ensures Less(r[i], r[j]) {
          if i == 0 && j > 1 {
            LessTransitive(d, sorted[0], sorted[j - 1]);
          }
        }
      } else {
        LessTotal(d, sorted[0]);
        var tail := Insert(sorted[1..], d);
        InsertSorted(sorted[1..], d);
        forall i, j | 0 <= i < j < |r| ensures Less(r[i], r[j]) {
          if i == 0 {
            assert r[j] in tail;
            assert r[j] in sorted[1..] || r[j] == d;
          } else {
            assert r[i] == tail[i - 1] && r[j] == tail[j - 1];
          }
        }
      }
    }
  }

  /** `Array.from(uniqueDates).sort()`: the distinct dates, oldest first, built entry by entry. */
  function SortedDates(entries: seq<FoodEntry>): seq<string>
  {
    if entries == [] then []
    else
      var previous := SortedDates(entries[..|entries| - 1]);
      var d := entries[|entries| - 1].date;
      if d == [] then previous else Insert(previous, d)
  }

  /** The sorted list holds exactly the distinct dates, each once. */
  lemma {:induction false} SortedDatesSpec(entries: seq<FoodEntry>)
    ensures StrictlySorted(SortedDates(entries))
    ensures forall x :: x in SortedDates(entries) <==> x in DateSet(entries)
  {
    if entries != [] {
      var init := entries[..|entries| - 1];
      SortedDatesSpec(init);
      InsertSorted(SortedDates(init), entries[|entries| - 1].date);
      assert entries == init + [entries[|entries| - 1]];
      assert DateSet(entries) == DateSet(init) + (if entries[|entries| - 1].date == [] then {} else {entries[|entries| - 1].date});
    }
  }

  lemma {:induction false} DistinctCardinality(s: seq<string>)
    requires StrictlySorted(s)
    ensures |set x | x in s| == |s|
  {
    if s != [] {
      DistinctCardinality(s[1..]);
      LessIrreflexive(s[0]);
      assert s[0] !in s[1..];
      assert (set x | x in s) == {s[0]} + (set x | x in s[1..]);
    }
  }

  /** The log spans exactly as many distinct days as the sorted list is long. */
  lemma SortedDatesCount(entries: seq<FoodEntry>)
    ensures |SortedDates(entries)| == |DateSet(entries)|
  {
    SortedDatesSpec(entries);
    DistinctCardinality(SortedDates(entries));
    assert (set x | x in SortedDates(entries)) == DateSet(entries);
  }

  // ---------------------------------------------------------------------------
  // The archive step
  // ---------------------------------------------------------------------------

  /** Calories, protein, carbohydrates and fat summed over the entries of the archived dates. */
  function Totals(entries: seq<FoodEntry>, archived: seq<string>): (real, real, real, real)
  {
    if entries == [] then (0.0, 0.0, 0.0, 0.0)
    else
      var (c, p, k, f) := Totals(entries[..|entries| - 1], archived);
      var e := entries[|entries| - 1];
      if e.date in archived then (c + e.calories, p + e.protein, k + e.carbs, f + e.fat) else (c, p, k, f)
  }

  /** The entries that stay in the log, in their order. */
  function Remaining(entries: seq<FoodEntry>, archived: seq<string>): (r: seq<FoodEntry>)
    ensures forall e :: e in r <==> e in entries && e.date !in archived
  {
    if entries == [] then []
    else
      var e := entries[|entries| - 1];
      Remaining(entries[..|entries| - 1], archived) + (if e.date in archived then [] else [e])
  }

  /** What one call does, if it archives: the new summary and the entries that remain. */
  datatype Archive = Archive(summary: WeekSummary, remaining: seq<FoodEntry>)

  /**
   * checkAndArchiveWeeks on the log: nothing below seven distinct days;
   * otherwise the oldest seven are summarised by their daily averages
   * (totals over seven, rounded) and their entries removed.
   */
  function ArchiveWeek(entries: seq<FoodEntry>, summaryCount: nat, now: int): (r: Option<Archive>)
    ensures r.Some? <==> |SortedDates(entries)| >= ArchiveThresholdDays
    ensures r.Some? ==> r.value.summary.number == summaryCount + 1
  {
    var dates := SortedDates(entries);
    if |dates| < ArchiveThresholdDays then None
    else
      var archived := dates[..ArchiveThresholdDays];
      var (c, p, k, f) := Totals(entries, archived);
      var days := ArchiveThresholdDays as real;
      var averages := Averages(Round(c / days), Round(p / days), Round(k / days), Round(f / days));
      Some(Archive(WeekSummary(now, summaryCount + 1, archived[0], archived[ArchiveThresholdDays - 1], averages),
                   Remaining(entries, archived)))
  }

  /** Archiving happens exactly when the log spans at least seven distinct days. */
  lemma ArchiveWhenSevenDays(entries: seq<FoodEntry>, summaryCount: nat, now: int)
    ensures ArchiveWeek(entries, summaryCount, now).Some? <==> |DateSet(entries)| >= ArchiveThresholdDays
  {
    SortedDatesCount(entries);
  }

  /**
   * The archived week is the oldest one: it starts at the earliest date of
   * the log, and every date left in the log is later than every archived one.
   */
  lemma ArchiveTakesOldestDays(entries: seq<FoodEntry>, summaryCount: nat, now: int)
    requires ArchiveWeek(entries, summaryCount, now).Some?
    ensures var a := ArchiveWeek(entries, summaryCount, now).value;
            && Less(a.summary.startDate, a.summary.endDate)
            && (forall d :: d in DateSet(entries) && d != a.summary.startDate ==> Less(a.summary.startDate, d))
            && (forall e :: e in a.remaining ==> e.date == [] || Less(a.summary.endDate, e.date))
  {
    var dates := SortedDates(entries);
    SortedDatesSpec(entries);
    var archived := dates[..ArchiveThresholdDays];
    forall d | d in DateSet(entries) && d != dates[0] ensures Less(dates[0], d) {
      var j :| 0 <= j < |dates| && dates[j] == d;
    }
    forall e | e in Remaining(entries, archived) ensures e.date == [] || Less(dates[6], e.date) {
      if e.date != [] {
        assert e.date in DateSet(entries);
        var j :| 0 <= j < |dates| && dates[j] == e.date;
      }
    }
  }

  /** The remaining log spans exactly seven days fewer. */
  lemma ArchiveRemovesSevenDays(entries: seq<FoodEntry>, summaryCount: nat, now: int)
    requires ArchiveWeek(entries, summaryCount, now).Some?
    ensures |DateSet(ArchiveWeek(entries, summaryCount, now).value.remaining)| == |DateSet(entries)| - ArchiveThresholdDays
  {
    var dates := SortedDates(entries);
    SortedDatesSpec(entries);
    SortedDatesCount(entries);
    var archived := dates[..ArchiveThresholdDays];
    var remaining := Remaining(entries, archived);
    var archivedSet := set x | x in archived;
    assert DateSet(remaining) == DateSet(entries) - archivedSet;
    DistinctCardinality(archived);
    assert archivedSet <= DateSet(entries);
  }

  // ---------------------------------------------------------------------------
  // The log as the application state holds it
  // ---------------------------------------------------------------------------

  /** The food entries and weekly summaries of the application state. */
  class NutritionLog {
    var foodEntries: seq<FoodEntry>
    var weeklySummaries: seq<WeekSummary>

    constructor(entries: seq<FoodEntry>, summaries: seq<WeekSummary>)
      ensures foodEntries == entries && weeklySummaries == summaries
    {
      foodEntries := entries;
      weeklySummaries := summaries;
    }

    /** checkAndArchiveWeeks at clock reading `now`; reports whether a week was archived. */
    method CheckAndArchiveWeeks(now: int) returns (archivedWeek: bool)
      modifies this
      ensures var r := ArchiveWeek(old(foodEntries), |old(weeklySummaries)|, now);
              && archivedWeek == r.Some?
              && (r.None? ==> foodEntries == old(foodEntries) && weeklySummaries == old(weeklySummaries))
              && (r.Some? ==> foodEntries == r.value.remaining && weeklySummaries == old(weeklySummaries) + [r.value.summary])
    {
      var sorted := CollectDates(foodEntries);
      if |sorted| < ArchiveThresholdDays {
        return false;
      }
      var datesToArchive := sorted[..ArchiveThresholdDays];
      var calories, protein, carbs, fat := SumArchived(foodEntries, datesToArchive);
      var days := ArchiveThresholdDays as real;
      var summary := WeekSummary(now, |weeklySummaries| + 1, datesToArchive[0], datesToArchive[ArchiveThresholdDays - 1],
                                 Averages(Round(calories / days), Round(protein / days), Round(carbs / days), Round(fat / days)));
      weeklySummaries := weeklySummaries + [summary];
      foodEntries := KeepUnarchived(foodEntries, datesToArchive);
      return true;
    }
  }

  /** The distinct dates of the log, sorted: the Set of date keys and its sort. */
  method CollectDates(entries: seq<FoodEntry>) returns (sorted: seq<string>)
    ensures sorted == SortedDates(entries)
    ensures StrictlySorted(sorted) && (forall d :: d in sorted <==> d in DateSet(entries))
  {
    sorted := [];
    var i := 0;
    while i < |entries|
      invariant 0 <= i <= |entries|
      invariant sorted == SortedDates(entries[..i])
    {
      assert entries[..i + 1][..i] == entries[..i];
      if entries[i].date != [] {
        sorted := Insert(sorted, entries[i].date);
      }
      i := i + 1;
    }
    assert entries[..|entries|] == entries;
    SortedDatesSpec(entries);
  }

  /** The day-by-day totals of the archived dates, added up over the week. */
  method SumArchived(entries: seq<FoodEntry>, archived: seq<string>) returns (calories: real, protein: real, carbs: real, fat: real)
    ensures (calories, protein, carbs, fat) == Totals(entries, archived)
  {
    calories, protein, carbs, fat := 0.0, 0.0, 0.0, 0.0;
    var i := 0;
    while i < |entries|
      invariant 0 <= i <= |entries|
      invariant (calories, protein, carbs, fat) == Totals(entries[..i], archived)
    {
      assert entries[..i + 1][..i] == entries[..i];
      var e := entries[i];
      if e.date in archived {
        calories, protein, carbs, fat := calories + e.calories, protein + e.protein, carbs + e.carbs, fat + e.fat;
      }
      i := i + 1;
    }
    assert entries[..|entries|] == entries;
  }

  /** The entries whose date was not archived, in their order. */
  method KeepUnarchived(entries: seq<FoodEntry>, archived: seq<string>) returns (remaining: seq<FoodEntry>)
    ensures remaining == Remaining(entries, archived)
    ensures forall e :: e in remaining <==> e in entries && e.date !in archived
  {
    remaining := [];
    var i := 0;
    while i < |entries|
      invariant 0 <= i <= |entries|
      invariant remaining == Remaining(entries[..i], archived)
    {
      assert entries[..i + 1][..i] == entries[..i];
      if entries[i].date !in archived {
        remaining := remaining + [entries[i]];
      }
      i := i + 1;
    }
    assert entries[..|entries|] == entries;
  }
}
