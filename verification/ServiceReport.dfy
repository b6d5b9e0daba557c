/** Monthly service reports: work and drills counted by month, labor rounded to cents, and the fixed fee. */
module ServiceReport {
  import opened Common
  import opened Calendar
  import opened Rounding
  import opened TextOrder

  /** A row of work (in minutes) or a drill (an amount of one). */
  datatype Entry = Entry(at: Stamp, amount: nat)

  predicate ValidEntries(entries: seq<Entry>) { forall i :: 0 <= i < |entries| ==> ValidStamp(entries[i].at) }

  /** What the month's query selects, added up. */
  function SumIn(entries: seq<Entry>, month: Month): nat
    requires ValidEntries(entries) && ValidMonth(month)
  {
    if entries == [] then 0
    else
      var last := entries[|entries| - 1];
      SumIn(entries[..|entries| - 1], month) + if InWindow(month, StampText(last.at)) then last.amount else 0
  }

  /** The reports of the months from `start` to before `end`, added up. */
  function ReportedOver(entries: seq<Entry>, start: nat, end: nat): nat
    requires ValidEntries(entries) && start <= end <= 120000
  {
    if start == end then 0 else ReportedOver(entries, start, end - 1) + SumIn(entries, MonthAt(end - 1))
  }

  /** The entries dated in those months, counted directly. */
  function DatedBetween(entries: seq<Entry>, start: nat, end: nat): nat {
    if entries == [] then 0
    else
      var last := entries[|entries| - 1];
      DatedBetween(entries[..|entries| - 1], start, end)
      + if start <= Index(last.at.month) < end then last.amount else 0
  }

  lemma {:induction false} OneMonthExactly(entries: seq<Entry>, index: nat)
    requires ValidEntries(entries) && index < 119999
    ensures SumIn(entries, MonthAt(index)) == DatedBetween(entries, index, index + 1)
  {
    hide InWindow, StampText;
    if entries != [] {
      var last := entries[|entries| - 1];
      OneMonthExactly(entries[..|entries| - 1], index);
      WindowExactly(MonthAt(index), last.at);
      SameIndexSameMonth(last.at.month, MonthAt(index));
    }
  }

  lemma SameIndexSameMonth(m: Month, n: Month)
    requires ValidMonth(m) && ValidMonth(n)
    ensures Index(m) == Index(n) <==> m == n
  {}

  lemma {:induction false} Adjacent(entries: seq<Entry>, start: nat, middle: nat, end: nat)
    requires start <= middle <= end
    ensures DatedBetween(entries, start, end)
         == DatedBetween(entries, start, middle) + DatedBetween(entries, middle, end)
  {
    if entries != [] { Adjacent(entries[..|entries| - 1], start, middle, end); }
  }

  /** Monthly reports neither miss an entry nor count one twice: over any consecutive months up to
      November 9999 they add up to what is dated in them. */
  lemma {:induction false} ReportsPartitionTime(entries: seq<Entry>, start: nat, end: nat)
    requires ValidEntries(entries) && start <= end <= 119999
    ensures ReportedOver(entries, start, end) == DatedBetween(entries, start, end)
    decreases end
  {
    if start == end {
      NothingBetween(entries, start);
    } else {
      ReportsPartitionTime(entries, start, end - 1);
      OneMonthExactly(entries, end - 1);
      Adjacent(entries, start, end - 1, end);
    }
  }

  lemma {:induction false} NothingBetween(entries: seq<Entry>, at: nat)
    ensures DatedBetween(entries, at, at) == 0
  {
    if entries != [] { NothingBetween(entries[..|entries| - 1], at); }
  }

  /** December 9999 reports nothing, whatever is dated in it. */
  lemma {:induction false} LastMonthIsLost(entries: seq<Entry>)
    requires ValidEntries(entries)
    ensures SumIn(entries, LAST_MONTH) == 0
  {
    hide InWindow, StampText;
    if entries != [] {
      LastMonthIsLost(entries[..|entries| - 1]);
      WindowExactly(LAST_MONTH, entries[|entries| - 1].at);
    }
  }

  // ---------------------------------------------------------------- labor

  /** Cents of labor for a month's minutes. */
  function Labor(minutes: nat, hourlyCents: nat): int { HalfUp((minutes * hourlyCents) as real / 60.0) }

  function LaborOver(entries: seq<Entry>, hourlyCents: nat, start: nat, end: nat): int
    requires ValidEntries(entries) && start <= end <= 120000
  {
    if start == end then 0
    else LaborOver(entries, hourlyCents, start, end - 1) + Labor(SumIn(entries, MonthAt(end - 1)), hourlyCents)
  }

  lemma Split(a: nat, b: nat, hourlyCents: nat)
    ensures ((a + b) * hourlyCents) as real / 60.0
         == (a * hourlyCents) as real / 60.0 + (b * hourlyCents) as real / 60.0
  {
    assert (a + b) * hourlyCents == a * hourlyCents + b * hourlyCents;
  }

  lemma {:induction false} LaborNearExact(entries: seq<Entry>, hourlyCents: nat, start: nat, end: nat)
    requires ValidEntries(entries) && start <= end <= 120000
    ensures var exact := (ReportedOver(entries, start, end) * hourlyCents) as real / 60.0;
            var drift := LaborOver(entries, hourlyCents, start, end) as real - exact;
            -((end - start) as real) <= 2.0 * drift <= (end - start) as real
    decreases end
  {
    hide SumIn;
    if start < end {
      LaborNearExact(entries, hourlyCents, start, end - 1);
      Split(ReportedOver(entries, start, end - 1), SumIn(entries, MonthAt(end - 1)), hourlyCents);
    }
  }

  /** Rounding month by month drifts from rounding the whole by at most half a cent a month and half a
      cent more. */
  lemma LaborDrift(entries: seq<Entry>, hourlyCents: nat, start: nat, end: nat)
    requires ValidEntries(entries) && start <= end <= 119999
    ensures var total := Labor(DatedBetween(entries, start, end), hourlyCents);
            var gap := LaborOver(entries, hourlyCents, start, end) - total;
            -(end - start + 1) <= 2 * gap <= end - start + 1
  {
    ReportsPartitionTime(entries, start, end);
    LaborNearExact(entries, hourlyCents, start, end);
    hide ReportedOver, DatedBetween, LaborOver;
    var total := DatedBetween(entries, start, end);
    var gap := LaborOver(entries, hourlyCents, start, end) - Labor(total, hourlyCents);
    assert -((end - start + 1) as real) <= 2.0 * gap as real <= (end - start + 1) as real;
  }

  // ---------------------------------------------------------------- fee

  /** A pilot's fixed monthly fee, its cost of labor and, once activated, when. */
  datatype Terms = Terms(feeCents: nat, hourlyCents: nat, activeAt: Option<Stamp>)

  predicate ValidTerms(p: Terms) { p.activeAt.Some? ==> ValidStamp(p.activeAt.value) }

  /** `active_at[:7] <= month`, on text. */
  predicate ActiveBy(p: Terms, month: Month)
    requires ValidMonth(month) && ValidTerms(p)
  {
    p.activeAt.Some? && TextLe(StampText(p.activeAt.value)[..7], MonthText(month))
  }

  datatype Report = Report(minutes: nat, labor: int, fee: nat, contribution: int)

  function ReportFor(p: Terms, work: seq<Entry>, month: Month): Report
    requires ValidMonth(month) && ValidTerms(p) && ValidEntries(work)
  {
    var minutes := SumIn(work, month);
    var labor := Labor(minutes, p.hourlyCents);
    var fee := if ActiveBy(p, month) then p.feeCents else 0;
    Report(minutes, labor, fee, fee - labor)
  }

  lemma ActiveFromItsMonth(p: Terms, month: Month)
    requires ValidMonth(month) && ValidTerms(p)
    ensures ActiveBy(p, month) <==> p.activeAt.Some? && Index(p.activeAt.value.month) <= Index(month)
  {
    hide MonthText, TextLe;
    if p.activeAt.Some? {
      assert StampText(p.activeAt.value)[..7] == MonthText(p.activeAt.value.month);
      MonthOrder(p.activeAt.value.month, month);
    }
  }

  function ContributionOver(p: Terms, work: seq<Entry>, start: nat, end: nat): int
    requires ValidTerms(p) && ValidEntries(work) && start <= end <= 120000
  {
    if start == end then 0
    else ContributionOver(p, work, start, end - 1) + ReportFor(p, work, MonthAt(end - 1)).contribution
  }

  function ActiveMonths(p: Terms, start: nat, end: nat): nat
    requires start <= end
  {
    if p.activeAt.None? then 0 else MonthsFrom(Index(p.activeAt.value.month), start, end)
  }

  lemma Fees(fee: nat, months: nat)
    ensures fee * (months + 1) == fee * months + fee
  {}

  /** Over consecutive months the reports charge the fee once for each month from activation on, and
      subtract the labor of each month. */
  lemma {:induction false} ContributionIs(p: Terms, work: seq<Entry>, start: nat, end: nat)
    requires ValidTerms(p) && ValidEntries(work) && start <= end <= 120000
    ensures ContributionOver(p, work, start, end)
         == p.feeCents * ActiveMonths(p, start, end) - LaborOver(work, p.hourlyCents, start, end)
    decreases end
  {
    hide SumIn, Labor, ActiveBy, MonthsFrom, Index;
    if p.activeAt.Some? { MonthsNext(Index(p.activeAt.value.month), start, end); }
    if start < end {
      ContributionIs(p, work, start, end - 1);
      ActiveFromItsMonth(p, MonthAt(end - 1));
      Fees(p.feeCents, ActiveMonths(p, start, end - 1));
    }
  }
}
