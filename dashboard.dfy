/** The dashboard aggregates over the ticket table: the status counts and the mean time to
    resolution, and the per-day open/resolved trend over a window of days. Times are integer
    seconds since the epoch; a calendar date is a day number (seconds divided by 86400,
    rounded down), whose order is the order of the ISO date strings the endpoint returns. */
module Dashboard {
  import opened Common

  const Resolved: string := "Resolved"
  const SecondsPerHour: int := 3600
  const SecondsPerDay: int := 86400

  /** The columns of a ticket row the dashboard reads. */
  datatype TicketRow = TicketRow(status: string, createdAt: Option<int>, updatedAt: Option<int>)

  // ---------------------------------------------------------------------------
  // Metrics

  function CountResolved(rows: seq<TicketRow>): (n: nat)
    ensures n <= |rows|
  {
    if rows == [] then 0
    else CountResolved(rows[..|rows| - 1]) + (if rows[|rows| - 1].status == Resolved then 1 else 0)
  }

  function CountNotResolved(rows: seq<TicketRow>): (n: nat)
    ensures n <= |rows|
  {
    if rows == [] then 0
    else CountNotResolved(rows[..|rows| - 1]) + (if rows[|rows| - 1].status != Resolved then 1 else 0)
  }

  /** The two status filters split the table: every row is counted exactly once. */
  lemma {:induction false} StatusCountsPartition(rows: seq<TicketRow>)
    ensures CountResolved(rows) + CountNotResolved(rows) == |rows|
  {
    if rows != [] {
      StatusCountsPartition(rows[..|rows| - 1]);
    }
  }

  /** A row that contributes to the resolution time: resolved, with both timestamps. */
  predicate Timed(r: TicketRow)
  {
    r.status == Resolved && r.createdAt.Some? && r.updatedAt.Some?
  }

  function TimedCount(rows: seq<TicketRow>): (n: nat)
    ensures n <= |rows|
  {
    if rows == [] then 0
    else TimedCount(rows[..|rows| - 1]) + (if Timed(rows[|rows| - 1]) then 1 else 0)
  }

  /** The total resolution time, in seconds, of the rows that contribute. */
  function TimedSeconds(rows: seq<TicketRow>): int
  {
    if rows == [] then 0
    else
      var r := rows[|rows| - 1];
      TimedSeconds(rows[..|rows| - 1]) + (if Timed(r) then r.updatedAt.value - r.createdAt.value else 0)
  }

  /** The rows the resolved-ticket query returns: resolved, with an update time. */
  function ResolvedWithUpdate(rows: seq<TicketRow>): (res: seq<TicketRow>)
    ensures |res| <= |rows|
    ensures forall k :: 0 <= k < |res| ==> res[k].status == Resolved && res[k].updatedAt.Some?
    ensures TimedCount(res) == TimedCount(rows) && TimedSeconds(res) == TimedSeconds(rows)
  {
    if rows == [] then []
    else
      var r := rows[|rows| - 1];
      var front := ResolvedWithUpdate(rows[..|rows| - 1]);
      if r.status == Resolved && r.updatedAt.Some? then
        assert (front + [r])[..|front|] == front;
        front + [r]
      else front
  }

  datatype Metrics = Metrics(totalTickets: nat, openTickets: nat, resolvedToday: nat, avgResolutionTimeHours: real)

  /** The mean time to resolution in hours, zero when no row contributes. */
  function MeanResolutionHours(rows: seq<TicketRow>): real
  {
    if TimedCount(rows) > 0 then TimedSeconds(rows) as real / TimedCount(rows) as real / SecondsPerHour as real
    else 0.0
  }

  /** When every resolved row was updated no earlier than it was created, the mean is not negative. */
  lemma {:induction false} MeanResolutionNonNegative(rows: seq<TicketRow>)
    requires forall k :: 0 <= k < |rows| && Timed(rows[k]) ==> rows[k].createdAt.value <= rows[k].updatedAt.value
    ensures TimedSeconds(rows) >= 0
    ensures MeanResolutionHours(rows) >= 0.0
  {
    if rows != [] {
      MeanResolutionNonNegative(rows[..|rows| - 1]);
    }
  }

  /** With no resolved row carrying both timestamps, nothing is counted and the mean is zero. */
  lemma {:induction false} MeanZeroWithoutTimedRows(rows: seq<TicketRow>)
    requires forall k :: 0 <= k < |rows| ==> !Timed(rows[k])
    ensures TimedCount(rows) == 0 && TimedSeconds(rows) == 0
    ensures MeanResolutionHours(rows) == 0.0
  {
    if rows != [] {
      MeanZeroWithoutTimedRows(rows[..|rows| - 1]);
    }
  }

  /** The mean times the count gives back the total, in hours. */
  lemma MeanTimesCount(rows: seq<TicketRow>)
    requires TimedCount(rows) > 0
    ensures MeanResolutionHours(rows) * TimedCount(rows) as real * SecondsPerHour as real == TimedSeconds(rows) as real
  {
  }

  method GetDashboardMetrics(rows: seq<TicketRow>) returns (m: Metrics)
    ensures m.totalTickets == |rows|
    ensures m.openTickets == CountNotResolved(rows) && m.resolvedToday == CountResolved(rows)
    ensures m.openTickets + m.resolvedToday == m.totalTickets
    ensures m.avgResolutionTimeHours == MeanResolutionHours(rows)
  {
    var resolvedRows := ResolvedWithUpdate(rows);
    var totalSeconds := 0;
    var count := 0;
    var i := 0;
    while i < |resolvedRows|
      invariant 0 <= i <= |resolvedRows|
      invariant totalSeconds == TimedSeconds(resolvedRows[..i])
      invariant count == TimedCount(resolvedRows[..i])
    {
      var t := resolvedRows[i];
      assert resolvedRows[..i + 1][..i] == resolvedRows[..i];
      if t.createdAt.Some? && t.updatedAt.Some? {
        totalSeconds := totalSeconds + (t.updatedAt.value - t.createdAt.value);
        count := count + 1;
      }
      i := i + 1;
    }
    assert resolvedRows[..i] == resolvedRows;
    var mttr := if count > 0 then totalSeconds as real / count as real / SecondsPerHour as real else 0.0;
    StatusCountsPartition(rows);
    m := Metrics(|rows|, CountNotResolved(rows), CountResolved(rows), mttr);
  }

  // ---------------------------------------------------------------------------
  // Trends

  function DayOf(t: int): int { t / SecondsPerDay }

  /** Per-day counters. */
  datatype Counts = Counts(open: nat, resolved: nat)

  datatype TrendPoint = TrendPoint(date: int, open: nat, resolved: nat)

  /** The rows the trend query reads: created no earlier than the window start. */
  function CreatedSince(rows: seq<TicketRow>, start: int): (res: seq<TicketRow>)
    ensures IsSubsequence(res, rows)
    ensures forall k :: 0 <= k < |res| ==> res[k].createdAt.Some? && res[k].createdAt.value >= start
  {
    if rows == [] then []
    else if rows[0].createdAt.Some? && rows[0].createdAt.value >= start then [rows[0]] + CreatedSince(rows[1..], start)
    else
      var rest := CreatedSince(rows[1..], start);
      SubsequenceOfTail(rest, rows);
      rest
  }

  /** The window keeps every occurrence of a row created at or after its start, and only rows
      of the input. */
  lemma {:induction false} CreatedSinceComplete(rows: seq<TicketRow>, start: int)
    ensures forall x :: x in CreatedSince(rows, start) ==> x in rows
    ensures forall x :: x in rows && x.createdAt.Some? && x.createdAt.value >= start ==> x in CreatedSince(rows, start)
    ensures forall x :: x in rows ==>
              multiset(CreatedSince(rows, start))[x]
              == if x.createdAt.Some? && x.createdAt.value >= start then multiset(rows)[x] else 0
  {
    if rows != [] {
      CreatedSinceComplete(rows[1..], start);
      assert rows == [rows[0]] + rows[1..];
    }
  }

  /** The number of rows the trend counts on `day` with the given resolved-ness. */
  function CountOn(rows: seq<TicketRow>, day: int, resolved: bool): nat
  {
    if rows == [] then 0
    else
      var r := rows[|rows| - 1];
      CountOn(rows[..|rows| - 1], day, resolved)
      + (if r.createdAt.Some? && DayOf(r.createdAt.value) == day && (r.status == Resolved) == resolved then 1 else 0)
  }

  /** The rows whose creation day falls in [first, last]. */
  function CountInDays(rows: seq<TicketRow>, first: int, last: int): nat
  {
    if rows == [] then 0
    else
      var r := rows[|rows| - 1];
      CountInDays(rows[..|rows| - 1], first, last)
      + (if r.createdAt.Some? && first <= DayOf(r.createdAt.value) <= last then 1 else 0)
  }

  /** The expected trend: one point per day of the window, oldest first. */
  predicate IsTrend(trend: seq<TrendPoint>, rows: seq<TicketRow>, firstDay: int, days: int)
  {
    && |trend| == (if days >= 0 then days + 1 else 0)
    && forall k :: 0 <= k < |trend| ==>
         trend[k] == TrendPoint(firstDay + k, CountOn(rows, firstDay + k, false), CountOn(rows, firstDay + k, true))
  }

  /** The counter table after the first `n` rows: one entry per day of the window. */
  ghost predicate TableCounts(table: map<int, Counts>, rows: seq<TicketRow>, firstDay: int, days: int)
  {
    && (forall d :: d in table <==> firstDay <= d <= firstDay + days)
    && (forall d :: d in table ==> table[d] == Counts(CountOn(rows, d, false), CountOn(rows, d, true)))
  }

  lemma CountOnSnoc(rows: seq<TicketRow>, r: TicketRow, day: int, resolved: bool)
    ensures CountOn(rows + [r], day, resolved)
            == CountOn(rows, day, resolved)
               + (if r.createdAt.Some? && DayOf(r.createdAt.value) == day && (r.status == Resolved) == resolved then 1 else 0)
  {
    assert (rows + [r])[..|rows|] == rows;
  }

  /** A row only counts on its own creation day. */
  lemma {:induction false} CountOnOutside(rows: seq<TicketRow>, day: int, resolved: bool, first: int, last: int)
    requires forall k :: 0 <= k < |rows| ==> rows[k].createdAt.Some? && first <= DayOf(rows[k].createdAt.value) <= last
    requires day < first || day > last
    ensures CountOn(rows, day, resolved) == 0
  {
    if rows != [] {
      CountOnOutside(rows[..|rows| - 1], day, resolved, first, last);
    }
  }

  /** Day-by-day update of the counter table for one more row. */
  lemma TableStep(table: map<int, Counts>, rows: seq<TicketRow>, r: TicketRow, firstDay: int, days: int)
    requires TableCounts(table, rows, firstDay, days)
    requires r.createdAt.Some?
    ensures DayOf(r.createdAt.value) in table ==>
              TableCounts(table[DayOf(r.createdAt.value) :=
                                if r.status == Resolved
                                then Counts(table[DayOf(r.createdAt.value)].open, table[DayOf(r.createdAt.value)].resolved + 1)
                                else Counts(table[DayOf(r.createdAt.value)].open + 1, table[DayOf(r.createdAt.value)].resolved)],
                          rows + [r], firstDay, days)
    ensures DayOf(r.createdAt.value) !in table ==> TableCounts(table, rows + [r], firstDay, days)
  {
    var day := DayOf(r.createdAt.value);
    var rows' := rows + [r];
    if day in table {
      var c := table[day];
      var table' := table[day := if r.status == Resolved then Counts(c.open, c.resolved + 1) else Counts(c.open + 1, c.resolved)];
      forall d | d in table'
        ensures table'[d] == Counts(CountOn(rows', d, false), CountOn(rows', d, true))
      {
        CountOnSnoc(rows, r, d, false);
        CountOnSnoc(rows, r, d, true);
      }
    } else {
      forall d | d in table
        ensures table[d] == Counts(CountOn(rows', d, false), CountOn(rows', d, true))
      {
        CountOnSnoc(rows, r, d, false);
        CountOnSnoc(rows, r, d, true);
      }
    }
  }

  /** The trend endpoint over the table rows, `now` being the current time. */
  method GetDashboardTrends(rows: seq<TicketRow>, now: int, days: int) returns (trend: seq<TrendPoint>)
    ensures IsTrend(trend, CreatedSince(rows, now - days * SecondsPerDay), DayOf(now - days * SecondsPerDay), days)
    ensures forall k, l :: 0 <= k < l < |trend| ==> trend[k].date < trend[l].date
  {
    var start := now - days * SecondsPerDay;
    var table := ZeroTable(start, days);
    var tickets := CreatedSince(rows, start);
    table := CountDays(table, tickets, DayOf(start), days);
    trend := TableItems(table, tickets, DayOf(start), days);
  }

  /** The counter table with every date of the window, `days + 1` of them, at zero. */
  method ZeroTable(start: int, days: int) returns (table: map<int, Counts>)
    ensures TableCounts(table, [], DayOf(start), days)
  {
    var firstDay := DayOf(start);
    table := map[];
    var i := 0;
    while i < days + 1
      invariant 0 <= i && (days >= 0 ==> i <= days + 1) && (days < 0 ==> i == 0)
      invariant forall d :: d in table <==> firstDay <= d < firstDay + i
      invariant forall d :: d in table ==> table[d] == Counts(0, 0)
    {
      assert DayOf(start + i * SecondsPerDay) == firstDay + i;
      table := table[DayOf(start + i * SecondsPerDay) := Counts(0, 0)];
      i := i + 1;
    }
    assert days >= 0 ==> i == days + 1;
  }

  /** Each row created on a date of the table bumps that date's resolved or open counter. */
  method CountDays(table0: map<int, Counts>, tickets: seq<TicketRow>, firstDay: int, days: int)
    returns (table: map<int, Counts>)
    requires TableCounts(table0, [], firstDay, days)
    requires forall k :: 0 <= k < |tickets| ==> tickets[k].createdAt.Some?
    ensures TableCounts(table, tickets, firstDay, days)
  {
    table := table0;
    assert tickets[..0] == [];
    var j := 0;
    while j < |tickets|
      invariant 0 <= j <= |tickets|
      invariant TableCounts(table, tickets[..j], firstDay, days)
    {
      var t := tickets[j];
      var dateKey := DayOf(t.createdAt.value);
      TableStep(table, tickets[..j], t, firstDay, days);
      assert tickets[..j + 1] == tickets[..j] + [t];
      if dateKey in table {
        if t.status == Resolved {
          table := table[dateKey := Counts(table[dateKey].open, table[dateKey].resolved + 1)];
        } else {
          table := table[dateKey := Counts(table[dateKey].open + 1, table[dateKey].resolved)];
        }
      }
      j := j + 1;
    }
    assert tickets[..j] == tickets;
  }

  /** The items of the table in ascending date order. */
  method TableItems(table: map<int, Counts>, tickets: seq<TicketRow>, firstDay: int, days: int)
    returns (trend: seq<TrendPoint>)
    requires TableCounts(table, tickets, firstDay, days)
    ensures IsTrend(trend, tickets, firstDay, days)
  {
    trend := [];
    var k := 0;
    var n := if days >= 0 then days + 1 else 0;
    while k < n
      invariant 0 <= k <= n
      invariant |trend| == k
      invariant forall m :: 0 <= m < k ==>
                  trend[m] == TrendPoint(firstDay + m, CountOn(tickets, firstDay + m, false), CountOn(tickets, firstDay + m, true))
    {
      var day := firstDay + k;
      trend := trend + [TrendPoint(day, table[day].open, table[day].resolved)];
      k := k + 1;
    }
  }

  /** The sum of the counters over the points of a trend. */
  function TrendTotal(trend: seq<TrendPoint>): nat
  {
    if trend == [] then 0 else TrendTotal(trend[..|trend| - 1]) + trend[|trend| - 1].open + trend[|trend| - 1].resolved
  }

  /** Every row created on a day of the window is counted exactly once: the counters sum to
      the number of such rows. */
  lemma TrendCountsEveryRowOnce(trend: seq<TrendPoint>, rows: seq<TicketRow>, firstDay: int, days: int)
    requires days >= 0
    requires IsTrend(trend, rows, firstDay, days)
    ensures TrendTotal(trend) == CountInDays(rows, firstDay, firstDay + days)
  {
    TrendPrefixTotal(trend, rows, firstDay, |trend|);
    assert trend[..|trend|] == trend;
    assert TrendTotal(trend) == DaySum(rows, firstDay, days + 1);
    DaysSumToWindow(rows, firstDay, days + 1);
  }

  /** The sum of both counters over the first `n` days of the window. */
  function DaySum(rows: seq<TicketRow>, firstDay: int, n: nat): nat
  {
    if n == 0 then 0
    else DaySum(rows, firstDay, n - 1) + CountOn(rows, firstDay + n - 1, false) + CountOn(rows, firstDay + n - 1, true)
  }

  lemma {:induction false} TrendPrefixTotal(trend: seq<TrendPoint>, rows: seq<TicketRow>, firstDay: int, n: nat)
    requires n <= |trend|
    requires forall k :: 0 <= k < |trend| ==>
               trend[k] == TrendPoint(firstDay + k, CountOn(rows, firstDay + k, false), CountOn(rows, firstDay + k, true))
    ensures TrendTotal(trend[..n]) == DaySum(rows, firstDay, n)
  {
    if n > 0 {
      TrendPrefixTotal(trend, rows, firstDay, n - 1);
      assert trend[..n][..n - 1] == trend[..n - 1];
    }
    if n == |trend| {
      assert trend[..n] == trend;
    }
  }

  lemma {:induction false} DaysSumToWindow(rows: seq<TicketRow>, firstDay: int, n: nat)
    ensures DaySum(rows, firstDay, n) == CountInDays(rows, firstDay, firstDay + n - 1)
  {
    if n > 0 {
      DaysSumToWindow(rows, firstDay, n - 1);
      DayAddsItsRows(rows, firstDay, firstDay + n - 1);
    } else {
      EmptyWindow(rows, firstDay, firstDay - 1);
    }
  }

  lemma {:induction false} EmptyWindow(rows: seq<TicketRow>, first: int, last: int)
    requires last < first
    ensures CountInDays(rows, first, last) == 0
  {
    if rows != [] {
      EmptyWindow(rows[..|rows| - 1], first, last);
    }
  }

  /** Widening a window by one day adds that day's open and resolved rows. */
  lemma {:induction false} DayAddsItsRows(rows: seq<TicketRow>, first: int, last: int)
    requires first <= last
    ensures CountInDays(rows, first, last)
            == CountInDays(rows, first, last - 1) + CountOn(rows, last, false) + CountOn(rows, last, true)
  {
    if rows != [] {
      DayAddsItsRows(rows[..|rows| - 1], first, last);
    }
  }
}
