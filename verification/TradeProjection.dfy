// One pass of persistLiveTrades (scripts/wsa-risk-worker.ts): the broker's open positions and today's deals become
// trade rows. `rows` are the rows of the account by external id, which the database keeps unique
// (supabase/migrations/017_trades_upsert_fix.sql:14).

module TradeProjection {
  import opened Common

  /** A broker time: missing, not readable as a time, or an instant. */
  datatype Time = Missing | Malformed | At(ms: int)

  datatype Side = Buy | Sell

  datatype Position = Position(
    id: string, symbol: string, side: Side, volume: real, openPrice: real, profit: real, time: Time)

  datatype Entry = In | InOut | Out | OutBy

  datatype DealType = BuyDeal | SellDeal | OtherDeal

  datatype Deal = Deal(
    position: string,            // its own id where the broker names no position
    entry: Entry,
    dealType: Option<DealType>,
    symbol: Option<string>, volume: Option<real>, price: Option<real>, profit: Option<real>,
    time: Time)

  datatype Status = OPEN | CLOSED

  datatype Row = Row(
    symbol: string, side: Side, status: Status, volume: real, openPrice: real, closePrice: Option<real>,
    profit: real, currency: string, openedAt: Option<int>, closedAt: Option<int>)

  type Rows = map<string, Row>

  function Number(value: Option<real>): real { if value.Some? then value.value else 0.0 }

  function Abs(x: real): real { if x < 0.0 then -x else x }

  predicate NumbersMatch(left: real, right: real) { Abs(left - right) < 0.005 }

  predicate DatesMatch(left: Option<int>, right: Option<int>) { left == right }

  function SafeIso(time: Time, fallback: int): int { if time.At? then time.ms else fallback }

  predicate IsClosing(d: Deal) { d.entry == Out || d.entry == OutBy }

  predicate IsOpening(d: Deal) { d.entry == In || d.entry == InOut }

  // ---- open positions -------------------------------------------------------------------------------

  function OpenedAt(p: Position, now: int): Option<int> {
    if p.time == Missing then None else Some(SafeIso(p.time, now))
  }

  predicate OpenDiffers(existing: Row, p: Position, now: int) {
    || existing.status != OPEN || existing.symbol != p.symbol || existing.side != p.side
    || !NumbersMatch(existing.volume, p.volume)
    || !NumbersMatch(existing.openPrice, p.openPrice)
    || !NumbersMatch(existing.profit, p.profit)
    || (OpenedAt(p, now).Some? && !DatesMatch(existing.openedAt, OpenedAt(p, now)))
  }

  function OpenRow(existing: Option<Row>, p: Position, currency: string, now: int): Row {
    var openedAt := OpenedAt(p, now);
    if existing.None? then
      Row(p.symbol, p.side, OPEN, p.volume, p.openPrice, None, p.profit, currency,
          if openedAt.Some? then openedAt else Some(now), None)
    else if OpenDiffers(existing.value, p, now) then
      Row(p.symbol, p.side, OPEN, p.volume, p.openPrice, None, p.profit, currency,
          if openedAt.Some? then openedAt else existing.value.openedAt, None)
    else existing.value
  }

  // ---- positions closed today -------------------------------------------------------------------------

  /** The closing deals of a position, in the order the broker gives them. */
  function Closings(deals: seq<Deal>, id: string): seq<Deal> {
    if deals == [] then []
    else
      var d := deals[|deals|-1];
      Closings(deals[..|deals|-1], id) + if IsClosing(d) && d.position == id then [d] else []
  }

  /** Deals without a readable time sort as 1970. */
  function SortTime(d: Deal): int { SafeIso(d.time, 0) }

  /** The last deal of the stable sort by time. */
  function LastByTime(deals: seq<Deal>): Deal
    requires deals != []
  {
    var n := |deals| - 1;
    if n == 0 then deals[0]
    else
      var best := LastByTime(deals[..n]);
      if SortTime(deals[n]) >= SortTime(best) then deals[n] else best
  }

  /** The first opening deal of the position by time, if there is one. */
  function Opening(deals: seq<Deal>, id: string): Option<Deal> {
    if deals == [] then None
    else
      var best, d := Opening(deals[..|deals|-1], id), deals[|deals|-1];
      if d.position == id && IsOpening(d) && (best.None? || SortTime(d) < SortTime(best.value)) then Some(d) else best
  }

  function Profit(deals: seq<Deal>): real {
    if deals == [] then 0.0 else Profit(deals[..|deals|-1]) + Number(deals[|deals|-1].profit)
  }

  function ClosedAt(closings: seq<Deal>, now: int): int
    requires closings != []
  {
    SafeIso(LastByTime(closings).time, now)
  }

  predicate ClosedDiffers(existing: Row, closings: seq<Deal>, now: int)
    requires closings != []
  {
    || existing.status != CLOSED
    || !NumbersMatch(Number(existing.closePrice), Number(LastByTime(closings).price))
    || !NumbersMatch(existing.profit, Profit(closings))
    || !DatesMatch(existing.closedAt, Some(ClosedAt(closings, now)))
  }

  function First<T>(a: Option<T>, b: Option<T>): Option<T> { if a.Some? then a else b }

  function ClosedRow(existing: Option<Row>, deals: seq<Deal>, id: string, currency: string, now: int): Row
    requires Closings(deals, id) != []
  {
    var closings := Closings(deals, id);
    var last := LastByTime(closings);
    var closedAt := ClosedAt(closings, now);
    if existing.Some? then
      if ClosedDiffers(existing.value, closings, now)
      then existing.value.(status := CLOSED, closePrice := Some(Number(last.price)), profit := Profit(closings),
                           closedAt := Some(closedAt))
      else existing.value
    else
      var o := Opening(deals, id);
      var openingType := if o.Some? then o.value.dealType else None;
      var symbol := First(if o.Some? then o.value.symbol else None, last.symbol);
      Row(if symbol.Some? then symbol.value else "",
          if openingType.Some? then (if openingType.value == BuyDeal then Buy else Sell)
          else if last.dealType == Some(BuyDeal) then Sell else Buy,
          CLOSED,
          Number(First(if o.Some? then o.value.volume else None, last.volume)),
          if o.Some? then Number(o.value.price) else 0.0,
          Some(Number(last.price)), Profit(closings), currency,
          Some(if o.Some? then SafeIso(o.value.time, closedAt) else closedAt), Some(closedAt))
  }

  // ---- one pass ---------------------------------------------------------------------------------------

  datatype Picture = Picture(positions: seq<Position>, deals: seq<Deal>, currency: string)

  /** A broker names an open position once. */
  ghost predicate Distinct(positions: seq<Position>) {
    forall i, j :: 0 <= i < j < |positions| ==> positions[i].id != positions[j].id
  }

  function RowOf(rows: Rows, id: string): Option<Row> {
    if id in rows then Some(rows[id]) else None
  }

  /** The open position with this id. */
  function Find(positions: seq<Position>, id: string): Option<Position> {
    if positions == [] then None
    else if positions[|positions|-1].id == id then Some(positions[|positions|-1])
    else Find(positions[..|positions|-1], id)
  }

  /** What the pass leaves for an id, from the row it found. */
  function Target(rows: Rows, pic: Picture, now: int, id: string): Option<Row> {
    var open := Find(pic.positions, id);
    if open.Some? then Some(OpenRow(RowOf(rows, id), open.value, pic.currency, now))
    else if Closings(pic.deals, id) != [] then Some(ClosedRow(RowOf(rows, id), pic.deals, id, pic.currency, now))
    else RowOf(rows, id)
  }

  /** Whether the pass inserts or updates the row of an id. */
  predicate Writes(rows: Rows, pic: Picture, now: int, id: string) {
    var open := Find(pic.positions, id);
    if open.Some? then id !in rows || OpenDiffers(rows[id], open.value, now)
    else Closings(pic.deals, id) != [] && (id !in rows || ClosedDiffers(rows[id], Closings(pic.deals, id), now))
  }

  lemma {:induction false} FindDistinct(positions: seq<Position>, i: nat)
    requires Distinct(positions) && i < |positions|
    ensures Find(positions, positions[i].id) == Some(positions[i])
  {
    if i < |positions| - 1 { FindDistinct(positions[..|positions|-1], i); }
  }

  lemma {:induction false} FindIsThere(positions: seq<Position>, id: string)
    ensures Find(positions, id).Some? <==> exists i :: 0 <= i < |positions| && positions[i].id == id
  {
    if positions != [] {
      var n := |positions| - 1;
      FindIsThere(positions[..n], id);
      if exists i :: 0 <= i < n && positions[..n][i].id == id {
        var i :| 0 <= i < n && positions[..n][i].id == id;
        assert positions[i].id == id;
      }
      if exists i :: 0 <= i < |positions| && positions[i].id == id {
        var i :| 0 <= i < |positions| && positions[i].id == id;
        assert i < n ==> positions[..n][i].id == id;
      }
    }
  }

  /** The groups of some deals. */
  ghost predicate Grouped(groups: map<string, seq<Deal>>, active: set<string>, deals: seq<Deal>) {
    forall id ::
      && (id in groups <==> id !in active && Closings(deals, id) != [])
      && (id in groups ==> groups[id] == Closings(deals, id))
  }

  lemma NothingGrouped(active: set<string>)
    ensures Grouped(map[], active, [])
  {
  }

  lemma GroupedMeans(groups: map<string, seq<Deal>>, active: set<string>, deals: seq<Deal>)
    requires Grouped(groups, active, deals)
    ensures forall id :: id in groups <==> id !in active && Closings(deals, id) != []
    ensures forall id :: id in groups ==> groups[id] == Closings(deals, id)
  {
  }

  lemma OneDealGrouped(groups: map<string, seq<Deal>>, active: set<string>, deals: seq<Deal>, i: nat)
    requires i < |deals| && Grouped(groups, active, deals[..i])
    ensures var d := deals[i];
            if IsClosing(d) && d.position !in active then
              var group := (if d.position in groups then groups[d.position] else []) + [d];
              Grouped(groups[d.position := group], active, deals[..i+1])
            else Grouped(groups, active, deals[..i+1])
  {
    forall id
      ensures Closings(deals[..i+1], id) ==
                Closings(deals[..i], id) + if IsClosing(deals[i]) && deals[i].position == id then [deals[i]] else []
    {
      OneDealMore(deals, i, id);
    }
    hide Closings, IsClosing;
  }

  lemma OneDealMore(deals: seq<Deal>, i: nat, id: string)
    requires i < |deals|
    ensures Closings(deals[..i+1], id) ==
              Closings(deals[..i], id) + if IsClosing(deals[i]) && deals[i].position == id then [deals[i]] else []
  {
    assert deals[..i+1][..i] == deals[..i];
  }

  // ---- the code -----------------------------------------------------------------------------------------

  class TradeTable {
    var rows: map<string, Row>

    constructor (rows: Rows)
      ensures this.rows == rows
    {
      this.rows := rows;
    }

    static method ActiveIds(positions: seq<Position>) returns (active: set<string>)
      ensures forall id :: id in active <==> Find(positions, id).Some?
    {
      active := {};
      for i := 0 to |positions|
        invariant forall id :: id in active <==> Find(positions[..i], id).Some?
      {
        assert positions[..i+1][..i] == positions[..i];
        active := active + {positions[i].id};
      }
      assert positions[..|positions|] == positions;
    }

    /** The closing deals by position, without those of positions that are still open. */
    static method GroupClosings(deals: seq<Deal>, active: set<string>) returns (groups: map<string, seq<Deal>>)
      ensures forall id :: id in groups <==> id !in active && Closings(deals, id) != []
      ensures forall id :: id in groups ==> groups[id] == Closings(deals, id)
    {
      hide Grouped;
      groups := map[];
      NothingGrouped(active);
      assert deals[..0] == [];
      for i := 0 to |deals|
        invariant Grouped(groups, active, deals[..i])
      {
        var d := deals[i];
        OneDealGrouped(groups, active, deals, i);
        if IsClosing(d) && d.position !in active {
          groups := groups[d.position := (if d.position in groups then groups[d.position] else []) + [d]];
        }
      }
      assert deals[..|deals|] == deals;
      GroupedMeans(groups, active, deals);
    }

    /** The rows of the open positions. */
    method ProjectOpen(pic: Picture, now: int) returns (changed: nat, ghost written: set<string>)
      requires Distinct(pic.positions)
      modifies this
      ensures forall id :: RowOf(rows, id) ==
                if Find(pic.positions, id).Some? then Target(old(rows), pic, now, id) else RowOf(old(rows), id)
      ensures forall id :: id in written <==> Find(pic.positions, id).Some? && Writes(old(rows), pic, now, id)
      ensures changed == |written|
    {
      changed, written := 0, {};
      NoOpenYet(rows, pic, now);
      for i := 0 to |pic.positions|
        invariant OpenSoFar(old(rows), rows, pic, now, i, written) && changed == |written|
      {
        var p := pic.positions[i];
        OneMoreOpen(old(rows), rows, pic, now, i, written);
        if p.id !in rows || OpenDiffers(rows[p.id], p, now) {
          rows := rows[p.id := OpenRow(RowOf(rows, p.id), p, pic.currency, now)];
          changed, written := changed + 1, written + {p.id};
        }
        hide OpenSoFar, OpenDiffers, OpenRow;
      }
      assert pic.positions[..|pic.positions|] == pic.positions;
    }

    /** The rows of the positions closed today. */
    method ProjectClosed(pic: Picture, now: int, groups: map<string, seq<Deal>>)
      returns (changed: nat, ghost written: set<string>)
      requires Groups(groups, pic)
      modifies this
      ensures forall id :: RowOf(rows, id) ==
                if id in groups then Target(old(rows), pic, now, id) else RowOf(old(rows), id)
      ensures forall id :: id in written <==> id in groups && Writes(old(rows), pic, now, id)
      ensures changed == |written|
    {
      hide ClosedSoFar, ClosedDiffers, ClosedRow, OpenRow, Closings, Find, Writes, Target;
      changed, written := 0, {};
      var todo := groups.Keys;
      assert groups.Keys - todo == {};
      NoClosedYet(rows, pic, now);
      while todo != {}
        invariant todo <= groups.Keys
        invariant ClosedSoFar(old(rows), rows, pic, now, groups.Keys - todo, written) && changed == |written|
        decreases |todo|
      {
        var id :| id in todo;
        OneMoreClosed(old(rows), rows, pic, now, groups.Keys - todo, written, id);
        assert groups.Keys - (todo - {id}) == (groups.Keys - todo) + {id};
        todo := todo - {id};
        if id !in rows || ClosedDiffers(rows[id], groups[id], now) {
          rows := rows[id := ClosedRow(RowOf(rows, id), pic.deals, id, pic.currency, now)];
          changed, written := changed + 1, written + {id};
        }
      }
      assert groups.Keys - todo == groups.Keys;
      ClosedSoFarMeans(old(rows), rows, pic, now, groups.Keys, written);
    }

    /** One pass; `changed` counts the rows written. */
    method Project(pic: Picture, now: int) returns (changed: nat, ghost written: set<string>)
      requires Distinct(pic.positions)
      modifies this
      ensures Projected(old(rows), rows, pic, now)
      ensures forall id :: id in written <==> Writes(old(rows), pic, now, id)
      ensures changed == |written|
    {
      hide OpenRow, OpenDiffers, ClosedRow, ClosedDiffers, Closings;
      var active := ActiveIds(pic.positions);
      var groups := GroupClosings(pic.deals, active);
      var before := rows;
      ghost var writtenOpen, writtenClosed;
      var inOpen: nat, inClosed: nat;
      inOpen, writtenOpen := ProjectOpen(pic, now);
      assert Groups(groups, pic) && forall id :: id in groups ==> RowOf(rows, id) == RowOf(before, id);
      ghost var between := rows;
      inClosed, writtenClosed := ProjectClosed(pic, now, groups);
      forall id ensures RowOf(rows, id) == Target(before, pic, now, id)
        ensures id in writtenClosed ==> Writes(before, pic, now, id) {
        if id in groups { SameRowSameTarget(before, between, pic, now, id); }
      }
      assert writtenOpen !! writtenClosed;
      forall id | id in groups ensures Writes(between, pic, now, id) == Writes(before, pic, now, id) {
        SameRowSameTarget(before, between, pic, now, id);
      }
      changed, written := inOpen + inClosed, writtenOpen + writtenClosed;
    }
  }

  /** The first `i` open positions are projected. */
  ghost predicate OpenSoFar(before: Rows, rows: Rows, pic: Picture, now: int, i: nat, written: set<string>)
    requires i <= |pic.positions|
  {
    forall id ::
      var open := Find(pic.positions[..i], id).Some?;
      && RowOf(rows, id) == (if open then Target(before, pic, now, id) else RowOf(before, id))
      && (id in written <==> open && Writes(before, pic, now, id))
  }

  lemma NoOpenYet(before: Rows, pic: Picture, now: int)
    ensures OpenSoFar(before, before, pic, now, 0, {})
  {
  }

  lemma OneMoreOpen(before: Rows, rows: Rows, pic: Picture, now: int, i: nat, written: set<string>)
    requires Distinct(pic.positions) && i < |pic.positions| && OpenSoFar(before, rows, pic, now, i, written)
    ensures var p := pic.positions[i];
            && p.id !in written
            && if p.id !in rows || OpenDiffers(rows[p.id], p, now)
               then var later := rows[p.id := OpenRow(RowOf(rows, p.id), p, pic.currency, now)];
                    OpenSoFar(before, later, pic, now, i + 1, written + {p.id})
               else OpenSoFar(before, rows, pic, now, i + 1, written)
  {
    var p := pic.positions[i];
    FindDistinct(pic.positions, i);
    NotYet(pic.positions, i);
    assert pic.positions[..i+1][..i] == pic.positions[..i];
    assert RowOf(rows, p.id) == RowOf(before, p.id);
    if p.id in rows && !OpenDiffers(rows[p.id], p, now) { UnchangedOpenRow(rows[p.id], p, pic.currency, now); }
    hide OpenRow, OpenDiffers, ClosedRow, ClosedDiffers, Closings, Distinct;
  }

  ghost predicate Groups(groups: map<string, seq<Deal>>, pic: Picture) {
    && (forall id :: id in groups <==> Find(pic.positions, id).None? && Closings(pic.deals, id) != [])
    && (forall id :: id in groups ==> groups[id] == Closings(pic.deals, id))
  }

  /** The positions in `done` are projected. */
  ghost predicate ClosedSoFar(
    before: Rows, rows: Rows, pic: Picture, now: int, done: set<string>, written: set<string>)
  {
    forall id ::
      && RowOf(rows, id) == (if id in done then Target(before, pic, now, id) else RowOf(before, id))
      && (id in written <==> id in done && Writes(before, pic, now, id))
  }

  lemma NoClosedYet(before: Rows, pic: Picture, now: int)
    ensures ClosedSoFar(before, before, pic, now, {}, {})
  {
  }

  lemma ClosedSoFarMeans(
    before: Rows, rows: Rows, pic: Picture, now: int, done: set<string>, written: set<string>)
    requires ClosedSoFar(before, rows, pic, now, done, written)
    ensures forall id :: RowOf(rows, id) == if id in done then Target(before, pic, now, id) else RowOf(before, id)
    ensures forall id :: id in written <==> id in done && Writes(before, pic, now, id)
  {
  }

  lemma ClosedTarget(before: Rows, rows: Rows, pic: Picture, now: int, id: string)
    requires RowOf(rows, id) == RowOf(before, id)
    requires Find(pic.positions, id).None? && Closings(pic.deals, id) != []
    ensures var changed := id !in rows || ClosedDiffers(rows[id], Closings(pic.deals, id), now);
            && (Writes(before, pic, now, id) <==> changed)
            && Target(before, pic, now, id) ==
                 Some(if changed then ClosedRow(RowOf(rows, id), pic.deals, id, pic.currency, now) else rows[id])
  {
    if id in rows && !ClosedDiffers(rows[id], Closings(pic.deals, id), now) {
      UnchangedClosedRow(rows[id], pic.deals, id, pic.currency, now);
    }
    hide OpenRow, OpenDiffers, ClosedRow, ClosedDiffers, Closings, Find;
  }

  lemma RowIsWritten(
    before: Rows, rows: Rows, pic: Picture, now: int, done: set<string>, written: set<string>, id: string, row: Row)
    requires ClosedSoFar(before, rows, pic, now, done, written)
    requires Writes(before, pic, now, id) && Target(before, pic, now, id) == Some(row)
    ensures ClosedSoFar(before, rows[id := row], pic, now, done + {id}, written + {id})
  {
    hide Target, Writes;
  }

  lemma RowIsLeft(
    before: Rows, rows: Rows, pic: Picture, now: int, done: set<string>, written: set<string>, id: string)
    requires ClosedSoFar(before, rows, pic, now, done, written) && id !in done
    requires !Writes(before, pic, now, id) && Target(before, pic, now, id) == RowOf(rows, id)
    ensures ClosedSoFar(before, rows, pic, now, done + {id}, written)
  {
    hide Target, Writes;
  }

  lemma OneMoreClosed(
    before: Rows, rows: Rows, pic: Picture, now: int, done: set<string>, written: set<string>, id: string)
    requires ClosedSoFar(before, rows, pic, now, done, written) && id !in done
    requires Find(pic.positions, id).None? && Closings(pic.deals, id) != []
    ensures id !in written
    ensures if id !in rows || ClosedDiffers(rows[id], Closings(pic.deals, id), now)
            then var later := rows[id := ClosedRow(RowOf(rows, id), pic.deals, id, pic.currency, now)];
                 ClosedSoFar(before, later, pic, now, done + {id}, written + {id})
            else ClosedSoFar(before, rows, pic, now, done + {id}, written)
  {
    hide Target, Writes, ClosedRow, ClosedDiffers, Closings, Find;
    assert RowOf(rows, id) == RowOf(before, id) && id !in written;
    hide ClosedSoFar;
    ClosedTarget(before, rows, pic, now, id);
    if Writes(before, pic, now, id) {
      RowIsWritten(before, rows, pic, now, done, written, id, Target(before, pic, now, id).value);
    } else {
      RowIsLeft(before, rows, pic, now, done, written, id);
    }
  }

  lemma SameRowSameTarget(a: Rows, b: Rows, pic: Picture, now: int, id: string)
    requires RowOf(a, id) == RowOf(b, id)
    ensures Target(a, pic, now, id) == Target(b, pic, now, id) && Writes(a, pic, now, id) == Writes(b, pic, now, id)
  {
  }

  lemma NotYet(positions: seq<Position>, i: nat)
    requires Distinct(positions) && i < |positions|
    ensures Find(positions[..i], positions[i].id).None?
  {
    FindIsThere(positions[..i], positions[i].id);
  }

  lemma UnchangedOpenRow(existing: Row, p: Position, currency: string, now: int)
    requires !OpenDiffers(existing, p, now)
    ensures OpenRow(Some(existing), p, currency, now) == existing
  {
  }

  lemma UnchangedClosedRow(existing: Row, deals: seq<Deal>, id: string, currency: string, now: int)
    requires Closings(deals, id) != [] && !ClosedDiffers(existing, Closings(deals, id), now)
    ensures ClosedRow(Some(existing), deals, id, currency, now) == existing
  {
  }

  // ---- what a pass achieves -------------------------------------------------------------------------------

  /** The rows after a pass. */
  ghost predicate Projected(before: Rows, after: Rows, pic: Picture, now: int) {
    forall id :: RowOf(after, id) == Target(before, pic, now, id)
  }

  /** After a pass every open position has its OPEN row, with figures that agree within 0.005 and, when the broker
      knows the time, the very opening time. */
  lemma OpenPositionsAreProjected(before: Rows, after: Rows, pic: Picture, now: int, i: nat)
    requires Distinct(pic.positions) && Projected(before, after, pic, now) && i < |pic.positions|
    ensures var p := pic.positions[i];
            && p.id in after
            && var r := after[p.id];
            && r.status == OPEN && r.symbol == p.symbol && r.side == p.side
            && NumbersMatch(r.volume, p.volume) && NumbersMatch(r.openPrice, p.openPrice)
            && NumbersMatch(r.profit, p.profit)
            && (p.time.At? ==> r.openedAt == Some(p.time.ms))
            && (p.id !in before ==> r.openedAt.Some? && r.closePrice.None? && r.closedAt.None?)
  {
    var p := pic.positions[i];
    FindDistinct(pic.positions, i);
    assert RowOf(after, p.id) == Target(before, pic, now, p.id);
  }

  /** Every position closed today, and not open any more, has its CLOSED row: its last price and closing time, and as
      profit the sum of its closing deals. */
  lemma ClosedPositionsAreProjected(before: Rows, after: Rows, pic: Picture, now: int, id: string)
    requires Projected(before, after, pic, now)
    requires Find(pic.positions, id).None? && Closings(pic.deals, id) != []
    ensures var closings := Closings(pic.deals, id);
            var last := LastByTime(closings);
            && id in after
            && var r := after[id];
            && r.status == CLOSED
            && NumbersMatch(Number(r.closePrice), Number(last.price))
            && NumbersMatch(r.profit, Profit(closings))
            && r.closedAt == Some(SafeIso(last.time, now))
            && (forall d :: d in closings ==> SortTime(d) <= SortTime(last)) && last in closings
  {
    assert RowOf(after, id) == Target(before, pic, now, id);
    LastIsLatest(Closings(pic.deals, id));
    ClosedRowAgrees(RowOf(before, id), pic.deals, id, pic.currency, now);
    hide ClosedRow, ClosedDiffers, Closings, LastByTime, NumbersMatch, Find;
  }

  lemma ClosedRowAgrees(existing: Option<Row>, deals: seq<Deal>, id: string, currency: string, now: int)
    requires Closings(deals, id) != []
    ensures var r := ClosedRow(existing, deals, id, currency, now);
            var last := LastByTime(Closings(deals, id));
            && r.status == CLOSED
            && NumbersMatch(Number(r.closePrice), Number(last.price))
            && NumbersMatch(r.profit, Profit(Closings(deals, id)))
            && r.closedAt == Some(SafeIso(last.time, now))
  {
    hide Closings, LastByTime, Profit, Opening;
  }

  lemma {:induction false} LastIsLatest(deals: seq<Deal>)
    requires deals != []
    ensures LastByTime(deals) in deals
    ensures forall d :: d in deals ==> SortTime(d) <= SortTime(LastByTime(deals))
  {
    var n := |deals| - 1;
    if n > 0 {
      LastIsLatest(deals[..n]);
      assert deals == deals[..n] + [deals[n]];
    }
  }

  /** A pass adds rows for open positions and positions closed today only, removes none, and leaves the rows of all
      others as they are. */
  lemma NoOtherRows(before: Rows, after: Rows, pic: Picture, now: int)
    requires Projected(before, after, pic, now)
    ensures forall id :: id in after <==>
              id in before || Find(pic.positions, id).Some? || Closings(pic.deals, id) != []
    ensures forall id :: id in before && Find(pic.positions, id).None? && Closings(pic.deals, id) == [] ==>
              id in after && after[id] == before[id]
  {
    hide OpenRow, ClosedRow, Closings, Find;
    forall id
      ensures id in after <==> id in before || Find(pic.positions, id).Some? || Closings(pic.deals, id) != []
      ensures id in before && Find(pic.positions, id).None? && Closings(pic.deals, id) == [] ==>
                id in after && after[id] == before[id]
    {
      assert RowOf(after, id) == Target(before, pic, now, id);
    }
  }

  /** Every row that changes is counted as written, and of those that are written only an open or closed position's. */
  lemma ChangedRowsAreWritten(before: Rows, after: Rows, pic: Picture, now: int, id: string)
    requires Projected(before, after, pic, now)
    ensures RowOf(after, id) != RowOf(before, id) ==> Writes(before, pic, now, id)
    ensures Writes(before, pic, now, id) ==> Find(pic.positions, id).Some? || Closings(pic.deals, id) != []
  {
    assert RowOf(after, id) == Target(before, pic, now, id);
    hide Find, Closings, OpenDiffers, ClosedDiffers;
  }

  /** Every time the pass has to read can be read. */
  ghost predicate TimesAreValid(pic: Picture) {
    && (forall id :: Find(pic.positions, id).Some? ==> Find(pic.positions, id).value.time != Malformed)
    && (forall id :: Find(pic.positions, id).None? && Closings(pic.deals, id) != [] ==>
          LastByTime(Closings(pic.deals, id)).time.At?)
  }

  lemma SecondOpen(existing: Option<Row>, p: Position, currency: string, now: int, later: int)
    requires later != now
    ensures OpenDiffers(OpenRow(existing, p, currency, now), p, later) <==> p.time == Malformed
  {
  }

  lemma SecondClosed(existing: Option<Row>, deals: seq<Deal>, id: string, currency: string, now: int, later: int)
    requires later != now && Closings(deals, id) != []
    ensures ClosedDiffers(ClosedRow(existing, deals, id, currency, now), Closings(deals, id), later)
       <==> !LastByTime(Closings(deals, id)).time.At?
  {
  }

  /** A second pass over the same picture at a later time writes nothing exactly when every time it reads is valid. */
  lemma SecondPassWritesNothing(before: Rows, after: Rows, pic: Picture, now: int, later: int)
    requires Projected(before, after, pic, now) && later != now
    ensures (forall id :: !Writes(after, pic, later, id)) <==> TimesAreValid(pic)
  {
    forall id
      ensures Writes(after, pic, later, id) <==>
                if Find(pic.positions, id).Some? then Find(pic.positions, id).value.time == Malformed
                else Closings(pic.deals, id) != [] && !LastByTime(Closings(pic.deals, id)).time.At?
    {
      assert RowOf(after, id) == Target(before, pic, now, id);
      var open := Find(pic.positions, id);
      if open.Some? {
        SecondOpen(RowOf(before, id), open.value, pic.currency, now, later);
      } else if Closings(pic.deals, id) != [] {
        SecondClosed(RowOf(before, id), pic.deals, id, pic.currency, now, later);
      }
    }
  }

  // ---- the rows, field by field ---------------------------------------------------------------------------

  /** The instant of a broker time, and another one where it cannot be read. */
  function Instant(t: Time, otherwise: int): int {
    match t
    case At(ms) => ms
    case Missing => otherwise
    case Malformed => otherwise
  }

  function Or<T>(a: Option<T>, b: T): T { match a case Some(x) => x case None => b }

  /** Less than half a cent apart. */
  predicate Close(a: real, b: real) { -0.005 < a - b < 0.005 }

  predicate Opens(d: Deal, id: string) { d.position == id && (d.entry == In || d.entry == InOut) }

  predicate Closes(d: Deal, id: string) { d.position == id && (d.entry == Out || d.entry == OutBy) }

  /** The opening deal of the position: the earliest one, and the first of those in the list. */
  ghost predicate FirstOpening(deals: seq<Deal>, id: string, o: nat) {
    && o < |deals| && Opens(deals[o], id)
    && forall j :: 0 <= j < |deals| && Opens(deals[j], id) ==>
         Instant(deals[o].time, 0) <= Instant(deals[j].time, 0)
         && (j < o ==> Instant(deals[o].time, 0) < Instant(deals[j].time, 0))
  }

  /** The closing deal that counts: the latest one, and the last of those in the list. */
  ghost predicate LastClosing(deals: seq<Deal>, id: string, c: nat) {
    && c < |deals| && Closes(deals[c], id)
    && forall j :: 0 <= j < |deals| && Closes(deals[j], id) ==>
         Instant(deals[j].time, 0) <= Instant(deals[c].time, 0)
         && (j > c ==> Instant(deals[j].time, 0) < Instant(deals[c].time, 0))
  }

  /** What the deals that close the position earned together. */
  function Earned(deals: seq<Deal>, id: string): real {
    if deals == [] then 0.0
    else (if Closes(deals[0], id) then Or(deals[0].profit, 0.0) else 0.0) + Earned(deals[1..], id)
  }

  ghost predicate IsClosingOf(deals: seq<Deal>, id: string, d: Deal) {
    exists j :: 0 <= j < |deals| && deals[j] == d && Closes(d, id)
  }

  lemma IsClosingOfMore(deals: seq<Deal>, x: Deal, id: string, d: Deal)
    ensures IsClosingOf(deals + [x], id, d) <==> IsClosingOf(deals, id, d) || (d == x && Closes(d, id))
  {
    hide Closes;
    var all := deals + [x];
    assert all[|deals|] == x;
    if IsClosingOf(deals, id, d) {
      var j :| 0 <= j < |deals| && deals[j] == d && Closes(d, id);
      assert all[j] == d;
    }
    if IsClosingOf(all, id, d) {
      var j :| 0 <= j < |all| && all[j] == d && Closes(d, id);
      assert j < |deals| ==> deals[j] == d;
    }
  }

  /** The closing deals of a position are all the deals that close it. */
  lemma {:induction false} ClosingsAre(deals: seq<Deal>, id: string, d: Deal)
    ensures d in Closings(deals, id) <==> IsClosingOf(deals, id, d)
  {
    if deals != [] {
      var n := |deals| - 1;
      ClosingsAre(deals[..n], id, d);
      IsClosingOfMore(deals[..n], deals[n], id, d);
      assert deals[..n] + [deals[n]] == deals;
      ClosingsMore(deals, id);
      hide Closings, IsClosingOf, Closes;
    }
  }

  lemma LastByTimeMore(deals: seq<Deal>, d: Deal)
    ensures LastByTime(deals + [d]) ==
              if deals == [] || Instant(d.time, 0) >= Instant(LastByTime(deals).time, 0) then d else LastByTime(deals)
  {
    assert (deals + [d])[..|deals|] == deals;
  }

  /** The latest of some closing deals of the list. */
  lemma SomeCloses(deals: seq<Deal>, id: string) returns (j: nat)
    requires Closings(deals, id) != []
    ensures j < |deals| && deals[j] == LastByTime(Closings(deals, id)) && Closes(deals[j], id)
  {
    var best := LastByTime(Closings(deals, id));
    LastIsLatest(Closings(deals, id));
    ClosingsAre(deals, id, best);
    hide Closings, LastByTime;
    j :| 0 <= j < |deals| && deals[j] == best && Closes(best, id);
  }

  lemma ClosingsMore(deals: seq<Deal>, id: string)
    requires deals != []
    ensures var n := |deals| - 1;
            Closings(deals, id) == Closings(deals[..n], id) + if Closes(deals[n], id) then [deals[n]] else []
  {
  }

  lemma {:induction false} LastOfClosings(deals: seq<Deal>, id: string, c: nat)
    requires LastClosing(deals, id, c)
    ensures Closings(deals, id) != [] && LastByTime(Closings(deals, id)) == deals[c]
  {
    hide Closings, LastByTime, Instant, Closes;
    var n := |deals| - 1;
    var earlier := deals[..n];
    assert forall j :: 0 <= j < n ==> earlier[j] == deals[j];
    ClosingsMore(deals, id);
    LastByTimeMore(Closings(earlier, id), deals[n]);
    if c == n {
      if Closings(earlier, id) != [] {
        var j := SomeCloses(earlier, id);
        assert deals[j] == earlier[j];
      }
    } else {
      assert LastClosing(earlier, id, c);
      LastOfClosings(earlier, id, c);
      assert Closings(earlier, id) + [] == Closings(earlier, id);
    }
  }

  lemma {:induction false} OpeningIs(deals: seq<Deal>, id: string)
    ensures Opening(deals, id).Some? ==>
              exists j :: 0 <= j < |deals| && deals[j] == Opening(deals, id).value && Opens(deals[j], id)
    ensures Opening(deals, id).None? ==> forall j :: 0 <= j < |deals| ==> !Opens(deals[j], id)
  {
    if deals != [] {
      var n := |deals| - 1;
      OpeningIs(deals[..n], id);
      assert forall j :: 0 <= j < n ==> deals[..n][j] == deals[j];
      if Opening(deals, id) == Some(deals[n]) && Opening(deals[..n], id) != Some(deals[n]) {
        assert Opens(deals[n], id);
      }
    }
  }

  lemma {:induction false} OpeningIsFirst(deals: seq<Deal>, id: string, o: nat)
    requires FirstOpening(deals, id, o)
    ensures Opening(deals, id) == Some(deals[o])
  {
    var n := |deals| - 1;
    var earlier := deals[..n];
    assert forall j :: 0 <= j < n ==> earlier[j] == deals[j];
    if o == n {
      OpeningIs(earlier, id);
      if Opening(earlier, id).Some? {
        var j :| 0 <= j < |earlier| && earlier[j] == Opening(earlier, id).value && Opens(earlier[j], id);
        assert Opens(deals[j], id);
      }
    } else {
      assert FirstOpening(earlier, id, o);
      OpeningIsFirst(earlier, id, o);
      assert Opens(deals[n], id) ==> Instant(deals[o].time, 0) <= Instant(deals[n].time, 0);
    }
  }

  lemma {:induction false} EarnedMore(deals: seq<Deal>, d: Deal, id: string)
    ensures Earned(deals + [d], id) == Earned(deals, id) + if Closes(d, id) then Or(d.profit, 0.0) else 0.0
  {
    if deals == [] {
      assert deals + [d] == [d] && [d][1..] == [];
    } else {
      EarnedMore(deals[1..], d, id);
      assert (deals + [d])[1..] == deals[1..] + [d];
    }
  }

  lemma ProfitMore(deals: seq<Deal>, d: Deal)
    ensures Profit(deals + [d]) == Profit(deals) + Or(d.profit, 0.0) && Profit([]) == 0.0
  {
    assert (deals + [d])[..|deals|] == deals;
  }

  lemma {:induction false} ProfitIsEarned(deals: seq<Deal>, id: string)
    ensures Profit(Closings(deals, id)) == Earned(deals, id)
  {
    if deals != [] {
      var n := |deals| - 1;
      hide Closings, Earned, Profit, Closes, Or;
      var before := Closings(deals[..n], id);
      ProfitIsEarned(deals[..n], id);
      ClosingsMore(deals, id);
      EarnedMore(deals[..n], deals[n], id);
      assert deals[..n] + [deals[n]] == deals;
      if Closes(deals[n], id) { ProfitMore(before, deals[n]); } else { assert before + [] == before; }
    }
  }

  /** Among closing deals there is always one that counts. */
  lemma {:induction false} SomeLastClosing(deals: seq<Deal>, id: string) returns (c: nat)
    requires exists j :: 0 <= j < |deals| && Closes(deals[j], id)
    ensures LastClosing(deals, id, c)
  {
    var n := |deals| - 1;
    var earlier := deals[..n];
    assert forall j :: 0 <= j < n ==> earlier[j] == deals[j];
    if exists j :: 0 <= j < |earlier| && Closes(earlier[j], id) {
      c := SomeLastClosing(earlier, id);
      if Closes(deals[n], id) && Instant(deals[n].time, 0) >= Instant(deals[c].time, 0) { c := n; }
    } else {
      c := n;
    }
  }

  /** The row inserted for a position closed today: what its opening deal says, or where there is none, or it does not
      say it, what the last closing deal lets conclude. */
  predicate ToldByDeals(r: Row, opening: Option<Deal>, last: Deal, currency: string, now: int, earned: real) {
    var closedAt := Instant(last.time, now);
    && r.status == CLOSED && r.currency == currency && r.profit == earned
    && r.closedAt == Some(closedAt) && r.closePrice == Some(Or(last.price, 0.0))
    && match opening
       case Some(o) =>
         && (r.side == Buy <==>
               if o.dealType == None then last.dealType != Some(BuyDeal) else o.dealType == Some(BuyDeal))
         && r.symbol == Or(o.symbol, Or(last.symbol, "")) && r.volume == Or(o.volume, Or(last.volume, 0.0))
         && r.openPrice == Or(o.price, 0.0) && r.openedAt == Some(Instant(o.time, closedAt))
       case None =>
         && (r.side == Buy <==> last.dealType != Some(BuyDeal))
         && r.symbol == Or(last.symbol, "") && r.volume == Or(last.volume, 0.0)
         && r.openPrice == 0.0 && r.openedAt == Some(closedAt)
  }

  /** The position `id` is not open, its closing deal that counts is the c-th, its opening deal the o-th, if any. */
  ghost predicate ClosedToday(pic: Picture, id: string, c: nat, o: Option<nat>) {
    && (forall i :: 0 <= i < |pic.positions| ==> pic.positions[i].id != id)
    && LastClosing(pic.deals, id, c)
    && match o
       case Some(i) => FirstOpening(pic.deals, id, i)
       case None => forall j :: 0 <= j < |pic.deals| ==> !Opens(pic.deals[j], id)
  }

  lemma ClosedTodayIs(pic: Picture, id: string, c: nat, o: Option<nat>)
    requires ClosedToday(pic, id, c, o)
    ensures Find(pic.positions, id).None? && Closings(pic.deals, id) != []
    ensures LastByTime(Closings(pic.deals, id)) == pic.deals[c]
    ensures Opening(pic.deals, id) == if o.Some? then Some(pic.deals[o.value]) else None
    ensures Profit(Closings(pic.deals, id)) == Earned(pic.deals, id)
  {
    FindIsThere(pic.positions, id);
    LastOfClosings(pic.deals, id, c);
    ProfitIsEarned(pic.deals, id);
    if o.Some? { OpeningIsFirst(pic.deals, id, o.value); } else { OpeningIs(pic.deals, id); }
  }

  /** Every field of the row that a pass inserts for a position closed today. */
  lemma InsertedClosedRow(before: Rows, after: Rows, pic: Picture, now: int, id: string, c: nat, o: Option<nat>)
    requires Projected(before, after, pic, now) && id !in before && ClosedToday(pic, id, c, o)
    ensures id in after
    ensures ToldByDeals(after[id], if o.Some? then Some(pic.deals[o.value]) else None, pic.deals[c], pic.currency, now,
                        Earned(pic.deals, id))
  {
    ClosedTodayIs(pic, id, c, o);
    assert RowOf(after, id) == Target(before, pic, now, id);
    hide Closings, LastByTime, Opening, Profit, Find, LastClosing, FirstOpening, Earned, ClosedRow, ToldByDeals;
    NewClosedRow(pic.deals, id, pic.currency, now);
  }

  lemma NewClosedRow(deals: seq<Deal>, id: string, currency: string, now: int)
    requires Closings(deals, id) != []
    ensures ToldByDeals(ClosedRow(None, deals, id, currency, now), Opening(deals, id), LastByTime(Closings(deals, id)),
                        currency, now, Profit(Closings(deals, id)))
  {
    hide Closings, LastByTime, Opening, Profit;
  }

  /** A row that was there keeps its symbol, side, volume, opening and currency. If its status, closing price, profit or
      closing time differ from the deals (figures by half a cent or more), exactly these become what the deals say;
      otherwise it stays as it is. */
  lemma UpdatedClosedRow(before: Rows, after: Rows, pic: Picture, now: int, id: string, c: nat, o: Option<nat>)
    requires Projected(before, after, pic, now) && id in before && ClosedToday(pic, id, c, o)
    ensures id in after
    ensures var r, last, earned := before[id], pic.deals[c], Earned(pic.deals, id);
            var closedAt := Some(Instant(last.time, now));
            after[id] ==
              if r.status == CLOSED && Close(Or(r.closePrice, 0.0), Or(last.price, 0.0)) && Close(r.profit, earned)
                 && r.closedAt == closedAt then r
              else Row(r.symbol, r.side, CLOSED, r.volume, r.openPrice, Some(Or(last.price, 0.0)), earned, r.currency,
                       r.openedAt, closedAt)
  {
    ClosedTodayIs(pic, id, c, o);
    assert RowOf(after, id) == Target(before, pic, now, id);
    hide Closings, LastByTime, Opening, Profit, Find, LastClosing, FirstOpening, Earned;
  }

  /** Every field of the row of an open position: if there was none, or it differs (figures by half a cent or more, the
      opening time only where the broker gives one), all of it is written, in the currency of the picture; otherwise the
      row stays as it is. */
  lemma OpenRowFieldByField(before: Rows, after: Rows, pic: Picture, now: int, i: nat)
    requires Distinct(pic.positions) && Projected(before, after, pic, now) && i < |pic.positions|
    ensures var p := pic.positions[i];
            var was := RowOf(before, p.id);
            && p.id in after
            && after[p.id] ==
                 if was.Some? && was.value.status == OPEN && was.value.symbol == p.symbol && was.value.side == p.side
                    && Close(was.value.volume, p.volume) && Close(was.value.openPrice, p.openPrice)
                    && Close(was.value.profit, p.profit)
                    && (p.time != Missing ==> was.value.openedAt == Some(Instant(p.time, now))) then was.value
                 else Row(p.symbol, p.side, OPEN, p.volume, p.openPrice, None, p.profit, pic.currency,
                          if p.time == Missing && was.Some? then was.value.openedAt else Some(Instant(p.time, now)),
                          None)
  {
    FindDistinct(pic.positions, i);
    assert RowOf(after, pic.positions[i].id) == Target(before, pic, now, pic.positions[i].id);
  }
}
