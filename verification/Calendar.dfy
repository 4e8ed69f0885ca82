// The trade calendar (src/components/dashboard/CalendarTracker.tsx): closed trades summed by day, by month of a
// year and for the chosen month, and the six weeks of cells that show a month.
//
// A date is the local calendar date of a JavaScript Date; it also serves as its key.

module Calendar {
  import opened Common

  /** Months count from 0. */
  datatype Date = Date(year: int, month: int, day: int)

  predicate Leap(year: int) {
    year % 4 == 0 && (year % 100 != 0 || year % 400 == 0)
  }

  function DaysIn(year: int, month: int): (n: int)
    ensures 28 <= n <= 31
  {
    if month == 1 then (if Leap(year) then 29 else 28)
    else if month == 3 || month == 5 || month == 8 || month == 10 then 30
    else 31
  }

  predicate Valid(d: Date) {
    0 <= d.month < 12 && 1 <= d.day <= DaysIn(d.year, d.month)
  }

  type Day = d: Date | Valid(d) witness Date(1970, 0, 1)

  datatype Trade = Trade(closed: bool, openedAt: Day, closedAt: Option<Day>, profit: real)

  datatype DaySummary = DaySummary(profit: real, tradeCount: nat, wins: nat, losses: nat)

  const NOTHING := DaySummary(0.0, 0, 0, 0)

  datatype Cell = Cell(key: Date, date: Date, day: int, inMonth: bool, summary: Option<DaySummary>)

  datatype MonthFigures = MonthFigures(tradeCount: nat, totalProfit: real, winRate: real)

  // ---- days in a row ------------------------------------------------------------------------------

  function DaysBeforeYear(year: int): int {
    365 * (year - 1) + (year - 1) / 4 - (year - 1) / 100 + (year - 1) / 400
  }

  function DaysBeforeMonth(year: int, month: int): int
    requires 0 <= month < 12
  {
    if month == 0 then 0 else DaysBeforeMonth(year, month - 1) + DaysIn(year, month - 1)
  }

  /** Days since Monday, 1 January of year 1 in the Gregorian calendar. */
  function DayNumber(d: Date): int
    requires 0 <= d.month < 12
  {
    DaysBeforeYear(d.year) + DaysBeforeMonth(d.year, d.month) + d.day - 1
  }

  /** getDay: Sunday is 0. */
  function GetDay(d: Day): int {
    (DayNumber(d) + 1) % 7
  }

  function MonthAfter(year: int, month: int): Date {
    if month == 11 then Date(year + 1, 0, 1) else Date(year, month + 1, 1)
  }

  function MonthBefore(year: int, month: int): Date {
    if month == 0 then Date(year - 1, 11, 1) else Date(year, month - 1, 1)
  }

  lemma YearLength(year: int)
    ensures DaysBeforeYear(year + 1) == DaysBeforeYear(year) + if Leap(year) then 366 else 365
  {
    CarryFour(year);
    CarryHundred(year);
    CarryFourHundred(year);
    HundredsAreFours(year);
  }

  lemma HundredsAreFours(n: int)
    ensures n % 100 == 0 ==> n % 4 == 0
    ensures n % 400 == 0 ==> n % 100 == 0
  {
    var q, r := n / 100, n / 400;
    if n % 100 == 0 { FourTimes(n, 25 * q); }
    if n % 400 == 0 { HundredTimes(n, 4 * r); }
  }

  lemma FourTimes(n: int, m: int)
    requires n == 4 * m
    ensures n % 4 == 0
  {
  }

  lemma HundredTimes(n: int, m: int)
    requires n == 100 * m
    ensures n % 100 == 0
  {
  }

  lemma CarryFour(n: int)
    ensures n / 4 == (n - 1) / 4 + if n % 4 == 0 then 1 else 0
  {
  }

  lemma CarryHundred(n: int)
    ensures n / 100 == (n - 1) / 100 + if n % 100 == 0 then 1 else 0
  {
  }

  lemma CarryFourHundred(n: int)
    ensures n / 400 == (n - 1) / 400 + if n % 400 == 0 then 1 else 0
  {
  }

  lemma MonthLength(year: int, month: int)
    requires 0 <= month < 12
    ensures DayNumber(MonthAfter(year, month)) == DayNumber(Date(year, month, 1)) + DaysIn(year, month)
  {
    if month == 11 {
      YearLength(year);
      assert DaysBeforeMonth(year, 1) == 31;
      assert DaysBeforeMonth(year, 2) == 31 + DaysIn(year, 1);
      assert DaysBeforeMonth(year, 4) == DaysBeforeMonth(year, 2) + 61;
      assert DaysBeforeMonth(year, 6) == DaysBeforeMonth(year, 4) + 61;
      assert DaysBeforeMonth(year, 8) == DaysBeforeMonth(year, 6) + 62;
      assert DaysBeforeMonth(year, 10) == DaysBeforeMonth(year, 8) + 61;
      assert DaysBeforeMonth(year, 11) == DaysBeforeMonth(year, 10) + 30;
    }
  }

  lemma MonthBack(year: int, month: int)
    requires 0 <= month < 12
    ensures var before := MonthBefore(year, month);
            && 0 <= before.month < 12
            && DayNumber(Date(year, month, 1)) ==
                 DayNumber(Date(before.year, before.month, 1)) + DaysIn(before.year, before.month)
  {
    var before := MonthBefore(year, month);
    MonthLength(before.year, before.month);
    hide DayNumber, DaysIn;
  }

  /** The date `day` days into a month, counted on into the months around it. */
  function Normal(year: int, month: int, day: int): (d: Date)
    requires 0 <= month < 12
    ensures Valid(d) && DayNumber(d) == DayNumber(Date(year, month, 1)) + day - 1
    decreases if day < 1 then 100 - day else day
  {
    if day < 1 then
      var before := MonthBefore(year, month);
      MonthBack(year, month);
      Normal(before.year, before.month, day + DaysIn(before.year, before.month))
    else if day > DaysIn(year, month) then
      var after := MonthAfter(year, month);
      MonthLength(year, month);
      Normal(after.year, after.month, day - DaysIn(year, month))
    else Date(year, month, day)
  }

  /** The constructor reads the years 0 to 99 as 1900 to 1999. */
  function FullYear(year: int): int {
    if 0 <= year <= 99 then 1900 + year else year
  }

  function NewDate(year: int, month: int, day: int): Day
    requires 0 <= month <= 12
  {
    if month == 12 then Normal(FullYear(year) + 1, 0, day) else Normal(FullYear(year), month, day)
  }

  // ---- trades of a day and of a month ---------------------------------------------------------------

  function TradeDate(t: Trade): Day {
    match t.closedAt case Some(d) => d case None => t.openedAt
  }

  function OnDay(trades: seq<Trade>, d: Date): seq<Trade> {
    if trades == [] then []
    else
      var n := |trades| - 1;
      if trades[n].closed && TradeDate(trades[n]) == d then OnDay(trades[..n], d) + [trades[n]]
      else OnDay(trades[..n], d)
  }

  predicate Within(t: Trade, year: int, month: int) {
    t.closed && TradeDate(t).year == year && TradeDate(t).month == month
  }

  function InMonth(trades: seq<Trade>, year: int, month: int): seq<Trade> {
    if trades == [] then []
    else
      var n := |trades| - 1;
      if Within(trades[n], year, month) then InMonth(trades[..n], year, month) + [trades[n]]
      else InMonth(trades[..n], year, month)
  }

  function AddTrade(s: DaySummary, t: Trade): DaySummary {
    DaySummary(s.profit + t.profit, s.tradeCount + 1,
               s.wins + (if t.profit > 0.0 then 1 else 0), s.losses + (if t.profit < 0.0 then 1 else 0))
  }

  function Tally(trades: seq<Trade>): DaySummary {
    if trades == [] then NOTHING else AddTrade(Tally(trades[..|trades|-1]), trades[|trades|-1])
  }

  lemma TallyMore(trades: seq<Trade>, t: Trade)
    ensures Tally(trades + [t]) == AddTrade(Tally(trades), t)
  {
    assert (trades + [t])[..|trades|] == trades;
  }

  /** What an entry of a summary map holds: nothing where there are no trades, and otherwise their sum. */
  predicate Holds<K(==)>(summaries: map<K, DaySummary>, k: K, trades: seq<Trade>) {
    (k in summaries <==> trades != []) && (k in summaries ==> summaries[k] == Tally(trades))
  }

  ghost predicate IsDayMap(summaries: map<Date, DaySummary>, trades: seq<Trade>) {
    forall d: Date :: Holds(summaries, d, OnDay(trades, d))
  }

  ghost predicate IsMonthMap(summaries: map<int, DaySummary>, trades: seq<Trade>, year: int) {
    forall m: int :: Holds(summaries, m, InMonth(trades, year, m))
  }

  method BuildDaySummaryMap(trades: seq<Trade>) returns (summaries: map<Date, DaySummary>)
    ensures IsDayMap(summaries, trades)
  {
    summaries := map[];
    for i := 0 to |trades|
      invariant IsDayMap(summaries, trades[..i])
    {
      var trade := trades[i];
      assert trades[..i+1][..i] == trades[..i];
      ghost var was := summaries;
      if trade.closed {
        var key := TradeDate(trade);
        var current := if key in summaries then summaries[key] else NOTHING;
        summaries := summaries[key := AddTrade(current, trade)];
        TallyMore(OnDay(trades[..i], key), trade);
      }
      ghost var upTo := trades[..i+1];
      forall d: Date ensures Holds(summaries, d, OnDay(upTo, d)) {
        assert Holds(was, d, OnDay(trades[..i], d));
      }
    }
    assert trades[..|trades|] == trades;
  }

  method AggregateByMonth(trades: seq<Trade>, year: int) returns (summaries: map<int, DaySummary>)
    ensures IsMonthMap(summaries, trades, year)
  {
    summaries := map[];
    for i := 0 to |trades|
      invariant IsMonthMap(summaries, trades[..i], year)
    {
      var trade := trades[i];
      assert trades[..i+1][..i] == trades[..i];
      ghost var was := summaries;
      if trade.closed && TradeDate(trade).year == year {
        var month := TradeDate(trade).month;
        var current := if month in summaries then summaries[month] else NOTHING;
        summaries := summaries[month := AddTrade(current, trade)];
        TallyMore(InMonth(trades[..i], year, month), trade);
      }
      ghost var upTo := trades[..i+1];
      forall m: int ensures Holds(summaries, m, InMonth(upTo, year, m)) {
        assert Holds(was, m, InMonth(trades[..i], year, m));
      }
    }
    assert trades[..|trades|] == trades;
  }

  function Winners(trades: seq<Trade>): nat {
    if trades == [] then 0
    else Winners(trades[..|trades|-1]) + if trades[|trades|-1].profit > 0.0 then 1 else 0
  }

  function Profit(trades: seq<Trade>): real {
    if trades == [] then 0.0 else Profit(trades[..|trades|-1]) + trades[|trades|-1].profit
  }

  function MonthSummary(trades: seq<Trade>, year: int, month: int): MonthFigures {
    var monthTrades := InMonth(trades, year, month);
    MonthFigures(|monthTrades|, Profit(monthTrades),
      if monthTrades == [] then 0.0 else Winners(monthTrades) as real / |monthTrades| as real * 100.0)
  }

  // ---- the cells ------------------------------------------------------------------------------------

  function Leading(year: int, month: int): int
    requires 0 <= month < 12
  {
    (GetDay(NewDate(year, month, 1)) + 6) % 7
  }

  function CellAt(year: int, month: int, summaries: map<Date, DaySummary>, index: int): Cell
    requires 0 <= month < 12
  {
    var offset := index - Leading(year, month) + 1;
    var date := NewDate(year, month, offset);
    var inMonth := date.month == month;
    Cell(date, date, date.day, inMonth && 1 <= offset <= NewDate(year, month + 1, 0).day,
         if inMonth && date in summaries then Some(summaries[date]) else None)
  }

  ghost predicate IsMonth(cells: seq<Cell>, year: int, month: int, summaries: map<Date, DaySummary>) {
    0 <= month < 12 && |cells| == 42 && forall i :: 0 <= i < 42 ==> cells[i] == CellAt(year, month, summaries, i)
  }

  method BuildMonthCells(year: int, month: int, summaries: map<Date, DaySummary>) returns (cells: seq<Cell>)
    requires 0 <= month < 12
    ensures IsMonth(cells, year, month, summaries)
  {
    hide NewDate, GetDay, DayNumber;
    var firstOfMonth := NewDate(year, month, 1);
    var leadingDays := (GetDay(firstOfMonth) + 6) % 7;
    var totalDays := NewDate(year, month + 1, 0).day;
    cells := [];
    for index := 0 to 42
      invariant |cells| == index
      invariant forall i :: 0 <= i < index ==> cells[i] == CellAt(year, month, summaries, i)
    {
      var dayOffset := index - leadingDays + 1;
      var date := NewDate(year, month, dayOffset);
      var inMonth := date.month == month;
      var summary := None;
      if inMonth && date in summaries { summary := Some(summaries[date]); }
      cells := cells + [Cell(date, date, date.day, inMonth && dayOffset >= 1 && dayOffset <= totalDays, summary)];
    }
  }

  lemma LastDay(year: int, month: int)
    requires 0 <= month < 12
    ensures NewDate(year, month + 1, 0).day == DaysIn(FullYear(year), month)
  {}

  lemma CellDay(year: int, month: int, summaries: map<Date, DaySummary>, i: int)
    requires 0 <= month < 12
    ensures var first := DayNumber(Date(FullYear(year), month, 1));
            && Leading(year, month) == first % 7
            && Valid(CellAt(year, month, summaries, i).date)
            && DayNumber(CellAt(year, month, summaries, i).date) == first - first % 7 + i
  {
    hide DaysIn, DaysBeforeYear, DaysBeforeMonth;
    Sundays(DayNumber(Date(FullYear(year), month, 1)));
  }

  lemma Sundays(n: int)
    ensures ((n + 1) % 7 + 6) % 7 == n % 7
  {}

  /** The grid runs through the calendar day by day, weeks beginning on Monday, whatever year it crosses into. */
  lemma CellsAreConsecutiveDays(cells: seq<Cell>, year: int, month: int, summaries: map<Date, DaySummary>, i: nat)
    requires IsMonth(cells, year, month, summaries) && i < 42
    ensures Valid(cells[i].date)
    ensures DayNumber(cells[i].date) % 7 == i % 7
    ensures i > 0 ==> Valid(cells[i-1].date) && DayNumber(cells[i].date) == DayNumber(cells[i-1].date) + 1
  {
    hide CellAt, DayNumber, Leading;
    CellDay(year, month, summaries, i);
    if i > 0 { CellDay(year, month, summaries, i - 1); }
  }

  /** A day number just outside the month is a day of the month before or after. */
  lemma Outside(year: int, month: int, day: int)
    requires 0 <= month < 12 && -6 <= day <= 42
    ensures Normal(year, month, day).month == month <==> 1 <= day <= DaysIn(year, month)
    ensures 1 <= day <= DaysIn(year, month) ==> Normal(year, month, day) == Date(year, month, day)
  {
    hide DayNumber, Leap;
    if day < 1 {
      var before := MonthBefore(year, month);
      assert Normal(year, month, day) == Date(before.year, before.month, day + DaysIn(before.year, before.month));
    } else if day > DaysIn(year, month) {
      var after := MonthAfter(year, month);
      assert Normal(year, month, day) == Date(after.year, after.month, day - DaysIn(year, month));
    }
  }

  /** A cell is in the month exactly when its place is, and then it shows that day. */
  lemma CellOfDay(year: int, month: int, summaries: map<Date, DaySummary>, i: nat)
    requires 0 <= month < 12 && i < 42
    ensures var day := i - Leading(year, month) + 1; var cell := CellAt(year, month, summaries, i);
            && cell.inMonth == (1 <= day <= DaysIn(FullYear(year), month))
            && (cell.inMonth ==> cell.date == Date(FullYear(year), month, day))
            && (!cell.inMonth ==> cell.date.month != month && cell.summary == None)
  {
    LastDay(year, month);
    LeadingBounds(year, month);
    hide Normal, DayNumber, DaysIn, Leap, Leading, FullYear;
    Outside(FullYear(year), month, i - Leading(year, month) + 1);
  }

  /** The 42 cells show each day of the month exactly once, and no other day as part of it. */
  lemma EachDayOnce(cells: seq<Cell>, year: int, month: int, summaries: map<Date, DaySummary>, d: Date)
    requires IsMonth(cells, year, month, summaries)
    ensures (Valid(d) && d.year == FullYear(year) && d.month == month)
       <==> exists i :: 0 <= i < 42 && cells[i].inMonth && cells[i].date == d
    ensures forall i, j :: 0 <= i < j < 42 && cells[i].inMonth && cells[j].inMonth ==> cells[i].date != cells[j].date
  {
    forall i | 0 <= i < 42
      ensures cells[i].inMonth ==> cells[i].date == Date(FullYear(year), month, i - Leading(year, month) + 1)
      ensures cells[i].inMonth == (1 <= i - Leading(year, month) + 1 <= DaysIn(FullYear(year), month))
    {
      CellOfDay(year, month, summaries, i);
    }
    if Valid(d) && d.year == FullYear(year) && d.month == month {
      var i := d.day - 1 + Leading(year, month);
      assert cells[i].inMonth && cells[i].date == d;
    }
  }

  // ---- the three sums agree ---------------------------------------------------------------------------

  function Plus(a: DaySummary, b: DaySummary): DaySummary {
    DaySummary(a.profit + b.profit, a.tradeCount + b.tradeCount, a.wins + b.wins, a.losses + b.losses)
  }

  function Entry<K>(summaries: map<K, DaySummary>, k: K): DaySummary {
    if k in summaries then summaries[k] else NOTHING
  }

  /** The sum of the summaries shown in the month's cells. */
  function CellsTotal(cells: seq<Cell>): DaySummary {
    if cells == [] then NOTHING
    else
      var n := |cells| - 1;
      WithCell(CellsTotal(cells[..n]), cells[n])
  }

  function WithCell(total: DaySummary, c: Cell): DaySummary {
    if c.inMonth && c.summary.Some? then Plus(total, c.summary.value) else total
  }

  /** The month's trades up to and including a day. */
  function UpTo(trades: seq<Trade>, year: int, month: int, day: int): seq<Trade> {
    if trades == [] then []
    else
      var n := |trades| - 1;
      if Within(trades[n], year, month) && TradeDate(trades[n]).day <= day
      then UpTo(trades[..n], year, month, day) + [trades[n]]
      else UpTo(trades[..n], year, month, day)
  }

  lemma TallyNone(trades: seq<Trade>)
    requires trades == []
    ensures Tally(trades) == NOTHING
  {}

  lemma PlusTrade(a: DaySummary, b: DaySummary, t: Trade)
    ensures AddTrade(Plus(a, b), t) == Plus(AddTrade(a, t), b) == Plus(a, AddTrade(b, t))
  {}

  lemma {:induction false} OneMoreDay(trades: seq<Trade>, year: int, month: int, day: int)
    ensures Tally(UpTo(trades, year, month, day))
         == Plus(Tally(UpTo(trades, year, month, day - 1)), Tally(OnDay(trades, Date(year, month, day))))
  {
    hide DaysIn, Leap, Tally, AddTrade, Plus;
    if trades == [] {
      TallyNone([]);
      PlusNothing(Tally([]), Tally([]));
    } else {
      var n := |trades| - 1;
      var earlier, t := trades[..n], trades[n];
      OneMoreDay(earlier, year, month, day);
      var upTo, before, onDay :=
        UpTo(earlier, year, month, day), UpTo(earlier, year, month, day - 1), OnDay(earlier, Date(year, month, day));
      PlusTrade(Tally(before), Tally(onDay), t);
      TallyMore(upTo, t);
      TallyMore(before, t);
      TallyMore(onDay, t);
    }
  }

  lemma PlusNothing(a: DaySummary, b: DaySummary)
    requires a == NOTHING
    ensures Plus(a, b) == b
  {}

  lemma {:induction false} WholeMonth(trades: seq<Trade>, year: int, month: int, day: int)
    ensures day < 1 ==> UpTo(trades, year, month, day) == []
    ensures day >= DaysIn(year, month) ==> UpTo(trades, year, month, day) == InMonth(trades, year, month)
  {
    if trades != [] {
      WholeMonth(trades[..|trades|-1], year, month, day);
    }
  }

  lemma AddCell(cells: seq<Cell>, c: Cell)
    ensures CellsTotal(cells + [c]) == WithCell(CellsTotal(cells), c)
  {
    assert (cells + [c])[..|cells|] == cells;
  }

  function WithDay(total: DaySummary, trades: seq<Trade>, year: int, month: int, day: int): DaySummary {
    if 1 <= day <= DaysIn(year, month) then Plus(total, Tally(OnDay(trades, Date(year, month, day)))) else total
  }

  /** A cell of the month contributes the trades of its day; any other cell contributes nothing. */
  lemma CellTotal(
    trades: seq<Trade>, year: int, month: int, summaries: map<Date, DaySummary>, i: nat, before: DaySummary)
    requires 0 <= month < 12 && i < 42 && IsDayMap(summaries, trades)
    ensures WithCell(before, CellAt(year, month, summaries, i))
         == WithDay(before, trades, FullYear(year), month, i - Leading(year, month) + 1)
  {
    hide DaysIn, Leading, Normal, OnDay;
    CellOfDay(year, month, summaries, i);
    var d := Date(FullYear(year), month, i - Leading(year, month) + 1);
    assert Holds(summaries, d, OnDay(trades, d));
  }

  lemma {:induction false} CellsSoFar(
    cells: seq<Cell>, trades: seq<Trade>, year: int, month: int, summaries: map<Date, DaySummary>, n: nat)
    requires IsMonth(cells, year, month, summaries) && IsDayMap(summaries, trades) && n <= 42
    ensures CellsTotal(cells[..n]) == Tally(UpTo(trades, FullYear(year), month, n - Leading(year, month)))
  {
    hide CellAt, Leading, NewDate, DaysIn, Tally, FullYear, UpTo, InMonth, OnDay, Plus, IsDayMap;
    var y, day := FullYear(year), n - Leading(year, month);
    LeadingBounds(year, month);
    WholeMonth(trades, y, month, day);
    if n == 0 {
      TallyNone([]);
    } else {
      CellsSoFar(cells, trades, year, month, summaries, n - 1);
      assert cells[..n] == cells[..n-1] + [cells[n-1]];
      AddCell(cells[..n-1], cells[n-1]);
      CellTotal(trades, year, month, summaries, n - 1, CellsTotal(cells[..n-1]));
      WholeMonth(trades, y, month, day - 1);
      OneMoreDay(trades, y, month, day);
    }
  }

  lemma LeadingBounds(year: int, month: int)
    requires 0 <= month < 12
    ensures 0 <= Leading(year, month) <= 6
    ensures 28 <= DaysIn(FullYear(year), month) <= 31
  {}

  /** The cells of the month add up to all its closed trades. */
  lemma CellsAddUp(cells: seq<Cell>, trades: seq<Trade>, year: int, month: int, summaries: map<Date, DaySummary>)
    requires IsMonth(cells, year, month, summaries) && IsDayMap(summaries, trades)
    ensures CellsTotal(cells) == Tally(InMonth(trades, FullYear(year), month))
  {
    hide CellAt, Leading, NewDate, DaysIn, Tally, FullYear, CellsTotal;
    LeadingBounds(year, month);
    CellsSoFar(cells, trades, year, month, summaries, 42);
    assert cells[..42] == cells;
    WholeMonth(trades, FullYear(year), month, 42 - Leading(year, month));
  }

  /** The month's figures are those of the sum. */
  lemma {:induction false} FiguresOfTally(trades: seq<Trade>)
    ensures Tally(trades).tradeCount == |trades|
    ensures Tally(trades).profit == Profit(trades)
    ensures Tally(trades).wins == Winners(trades)
    ensures Tally(trades).wins + Tally(trades).losses <= |trades|
  {
    if trades != [] { FiguresOfTally(trades[..|trades|-1]); }
  }

  /** The month's figures on the cards, in the year's tile and in the cells of the month are one and the same. */
  method View(trades: seq<Trade>, year: int, month: int)
    returns (cells: seq<Cell>, months: map<int, DaySummary>, figures: MonthFigures)
    requires 0 <= month < 12
    ensures figures.tradeCount == Entry(months, month).tradeCount
    ensures figures.totalProfit == Entry(months, month).profit
    ensures figures.winRate * figures.tradeCount as real == Entry(months, month).wins as real * 100.0
    ensures figures.tradeCount == 0 ==> figures.winRate == 0.0
    ensures !(0 <= year <= 99) ==> CellsTotal(cells) == Entry(months, month)
  {
    hide CellAt, Leading, Tally, CellsTotal, InMonth;
    var summaries := BuildDaySummaryMap(trades);
    cells := BuildMonthCells(year, month, summaries);
    months := AggregateByMonth(trades, year);
    figures := MonthSummary(trades, year, month);
    CellsAddUp(cells, trades, year, month, summaries);
    FiguresOfTally(InMonth(trades, year, month));
    assert Holds(months, month, InMonth(trades, year, month));
  }

  lemma OneTrade(t: Trade) returns (days: map<Date, DaySummary>, months: map<int, DaySummary>)
    requires t.closed
    ensures IsDayMap(days, [t]) && IsMonthMap(months, [t], TradeDate(t).year)
    ensures TradeDate(t).month in months && months[TradeDate(t).month].tradeCount == 1
  {
    var date := TradeDate(t);
    days, months := map[date := Tally([t])], map[date.month := Tally([t])];
    assert [t][..0] == [];
    FiguresOfTally([t]);
    hide Tally, Leap, DaysIn;
    forall d: Date ensures Holds(days, d, OnDay([t], d)) {}
    forall m: int ensures Holds(months, m, InMonth([t], date.year, m)) {}
  }

  lemma CellsMissTheTrade(cells: seq<Cell>, t: Trade, year: int, month: int,
                          days: map<Date, DaySummary>, months: map<int, DaySummary>)
    requires 0 <= month < 12 && 0 <= year <= 99 && TradeDate(t) == Date(year, month, 1)
    requires IsMonth(cells, year, month, days) && IsDayMap(days, [t])
    requires month in months && months[month].tradeCount == 1
    ensures CellsTotal(cells) != Entry(months, month)
  {
    CellsAddUp(cells, [t], year, month, days);
    assert [t][..0] == [];
    assert InMonth([t], FullYear(year), month) == [];
    TallyNone([]);
  }

  /** Only the years the constructor misreads are shown with another year's trades: cells and tile agree for all
      trades exactly outside the years 0 to 99. */
  lemma CellsAndTileAgreeExactly(year: int, month: int)
    requires 0 <= month < 12
    ensures (forall cells: seq<Cell>, trades: seq<Trade>, days: map<Date, DaySummary>, months: map<int, DaySummary> ::
               IsMonth(cells, year, month, days) && IsDayMap(days, trades) && IsMonthMap(months, trades, year)
               ==> CellsTotal(cells) == Entry(months, month))
       <==> !(0 <= year <= 99)
  {
    if 0 <= year <= 99 {
      var t := Trade(true, Date(year, month, 1), None, 1.0);
      var days, months := OneTrade(t);
      var cells := seq(42, i requires 0 <= i => CellAt(year, month, days, i));
      CellsMissTheTrade(cells, t, year, month, days, months);
    } else {
      forall cells: seq<Cell>, trades: seq<Trade>, days: map<Date, DaySummary>, months: map<int, DaySummary>
        | IsMonth(cells, year, month, days) && IsDayMap(days, trades) && IsMonthMap(months, trades, year)
        ensures CellsTotal(cells) == Entry(months, month)
      {
        CellsAddUp(cells, trades, year, month, days);
        assert Holds(months, month, InMonth(trades, year, month));
      }
    }
  }

  /** A cell shows the day of its date, and the entry of that day exactly if it is a day of the month of that number. */
  lemma CellShowsItsDate(cells: seq<Cell>, year: int, month: int, summaries: map<Date, DaySummary>, i: int)
    requires IsMonth(cells, year, month, summaries) && 0 <= i < 42
    ensures var cell := cells[i];
            && cell.key == cell.date && cell.day == cell.date.day
            && (cell.summary.Some? <==> cell.date.month == month && cell.date in summaries)
            && (cell.summary.Some? ==> cell.summary.value == summaries[cell.date])
  {
    hide NewDate, Leading;
  }

  // ---- the entries, trade by trade ------------------------------------------------------------------

  /** The day a closed trade counts on: the one it was closed on, or without it the one it was opened on. */
  predicate CountsOn(t: Trade, d: Date) {
    t.closed && match t.closedAt
                case Some(day) => day == d
                case None => t.openedAt == d
  }

  predicate CountsIn(t: Trade, year: int, month: int) {
    t.closed && match t.closedAt
                case Some(day) => day.year == year && day.month == month
                case None => t.openedAt.year == year && t.openedAt.month == month
  }

  function CountOf(trades: seq<Trade>, which: Trade -> bool): nat {
    if trades == [] then 0 else (if which(trades[0]) then 1 else 0) + CountOf(trades[1..], which)
  }

  function SumOf(trades: seq<Trade>, which: Trade -> bool): real {
    if trades == [] then 0.0 else (if which(trades[0]) then trades[0].profit else 0.0) + SumOf(trades[1..], which)
  }

  lemma {:induction false} OneTradeMore(trades: seq<Trade>, t: Trade, which: Trade -> bool)
    ensures CountOf(trades + [t], which) == CountOf(trades, which) + if which(t) then 1 else 0
    ensures SumOf(trades + [t], which) == SumOf(trades, which) + if which(t) then t.profit else 0.0
  {
    if trades == [] {
      assert trades + [t] == [t] && [t][1..] == [];
    } else {
      OneTradeMore(trades[1..], t, which);
      assert (trades + [t])[1..] == trades[1..] + [t];
    }
  }

  /** The figures of some trades: how many, what they earned, and how many of them above and below zero. */
  predicate Figures(s: DaySummary, trades: seq<Trade>, which: Trade -> bool) {
    && s.tradeCount == CountOf(trades, which) && s.profit == SumOf(trades, which)
    && s.wins == CountOf(trades, t => which(t) && t.profit > 0.0)
    && s.losses == CountOf(trades, t => which(t) && t.profit < 0.0)
  }

  lemma FiguresMore(s: DaySummary, trades: seq<Trade>, t: Trade, which: Trade -> bool)
    requires Figures(s, trades, which)
    ensures Figures(if which(t) then AddTrade(s, t) else s, trades + [t], which)
  {
    OneTradeMore(trades, t, which);
    OneTradeMore(trades, t, t => which(t) && t.profit > 0.0);
    OneTradeMore(trades, t, t => which(t) && t.profit < 0.0);
    hide CountOf, SumOf;
  }

  lemma {:induction false} DayFigures(trades: seq<Trade>, d: Date)
    ensures Figures(Tally(OnDay(trades, d)), trades, t => CountsOn(t, d))
    ensures OnDay(trades, d) == [] <==> CountOf(trades, t => CountsOn(t, d)) == 0
  {
    var which := t => CountsOn(t, d);
    if trades != [] {
      var n := |trades| - 1;
      var before := OnDay(trades[..n], d);
      DayFigures(trades[..n], d);
      FiguresMore(Tally(before), trades[..n], trades[n], which);
      OneTradeMore(trades[..n], trades[n], which);
      assert trades[..n] + [trades[n]] == trades;
      TallyMore(before, trades[n]);
      hide Tally, AddTrade, CountOf, SumOf, Figures;
    }
  }

  lemma {:induction false} MonthFiguresOf(trades: seq<Trade>, year: int, month: int)
    ensures Figures(Tally(InMonth(trades, year, month)), trades, t => CountsIn(t, year, month))
    ensures InMonth(trades, year, month) == [] <==> CountOf(trades, t => CountsIn(t, year, month)) == 0
  {
    var which := t => CountsIn(t, year, month);
    if trades != [] {
      var n := |trades| - 1;
      var before := InMonth(trades[..n], year, month);
      MonthFiguresOf(trades[..n], year, month);
      FiguresMore(Tally(before), trades[..n], trades[n], which);
      OneTradeMore(trades[..n], trades[n], which);
      assert trades[..n] + [trades[n]] == trades;
      TallyMore(before, trades[n]);
      hide Tally, AddTrade, CountOf, SumOf, Figures;
    }
  }

  /** The entry of a day: there is one exactly if a trade counts on it, with the number of these trades, their sum,
      and how many of them earned or lost something. */
  lemma DayEntries(summaries: map<Date, DaySummary>, trades: seq<Trade>, d: Date)
    requires IsDayMap(summaries, trades)
    ensures d in summaries <==> CountOf(trades, t => CountsOn(t, d)) > 0
    ensures d in summaries ==> Figures(summaries[d], trades, t => CountsOn(t, d))
  {
    DayFigures(trades, d);
    assert Holds(summaries, d, OnDay(trades, d));
  }

  /** And of a month. */
  lemma MonthEntries(summaries: map<int, DaySummary>, trades: seq<Trade>, year: int, month: int)
    requires IsMonthMap(summaries, trades, year)
    ensures month in summaries <==> CountOf(trades, t => CountsIn(t, year, month)) > 0
    ensures month in summaries ==> Figures(summaries[month], trades, t => CountsIn(t, year, month))
  {
    MonthFiguresOf(trades, year, month);
    assert Holds(summaries, month, InMonth(trades, year, month));
  }

  lemma NextWeekday(n: int)
    ensures (n + 2) % 7 == ((n + 1) % 7 + 1) % 7
  {
  }

  lemma WeekdayOf(d: Day, n: int)
    requires DayNumber(d) == n
    ensures GetDay(d) == (n + 1) % 7
  {
    hide DayNumber;
  }

  lemma NumbersOfDays()
    ensures DayNumber(Date(1970, 0, 1)) == 719162 && DayNumber(Date(2000, 0, 1)) == 730119
    ensures DayNumber(Date(2024, 1, 29)) == 738944
  {
    assert DaysBeforeMonth(2024, 1) == 31;
  }

  /** The days of the week as the calendar has them: 1 January 1970 was a Thursday, 1 January 2000 a Saturday and
      29 February 2024 a Thursday; and the day after each day is the next day of the week. */
  lemma WeekdaysAreRight(d: Day, e: Day)
    requires DayNumber(e) == DayNumber(d) + 1
    ensures GetDay(e) == (GetDay(d) + 1) % 7
    ensures GetDay(Date(1970, 0, 1)) == 4 && GetDay(Date(2000, 0, 1)) == 6 && GetDay(Date(2024, 1, 29)) == 4
    ensures DayNumber(Date(2000, 0, 1)) - DayNumber(Date(1970, 0, 1)) == 10957
  {
    hide DayNumber, GetDay;
    NumbersOfDays();
    NextWeekday(DayNumber(d));
    WeekdayOf(d, DayNumber(d));
    WeekdayOf(e, DayNumber(d) + 1);
    WeekdayOf(Date(1970, 0, 1), 719162);
    WeekdayOf(Date(2000, 0, 1), 730119);
    WeekdayOf(Date(2024, 1, 29), 738944);
  }
}
