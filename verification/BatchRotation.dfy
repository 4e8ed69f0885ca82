// How the risk worker walks through the connected accounts (loadAllConnectedRiskAccounts and
// loadConnectedRiskAccountBatch, scripts/wsa-risk-worker.ts). A query answers with the rows of its range, in the
// order of the account id, and with an empty page when the range begins past the end.

module BatchRotation {
  import opened Common

  type Account = string

  /** The rows `from` up to but not including `from + size`. */
  function Range(table: seq<Account>, from: nat, size: nat): seq<Account> {
    if from >= |table| then [] else table[from..Min(from + size, |table|)]
  }

  // ---- all pages ------------------------------------------------------------------------------------

  /** The table as the j-th query finds it; it may change between any two queries and settles in the end. */
  function TableAt(tables: seq<seq<Account>>, j: nat): seq<Account>
    requires tables != []
  {
    if j < |tables| then tables[j] else tables[|tables|-1]
  }

  /** The table does not change. */
  ghost predicate Fixed(tables: seq<seq<Account>>) {
    forall j :: 0 <= j < |tables| ==> tables[j] == tables[0]
  }

  /** Where the j-th page begins. */
  function Start(size: nat, j: nat): nat {
    if j == 0 then 0 else Start(size, j - 1) + size
  }

  function PageAt(tables: seq<seq<Account>>, size: nat, j: nat): seq<Account>
    requires tables != []
  {
    Range(TableAt(tables, j), Start(size, j), size)
  }

  /** The first `n` pages, each read from the table of its moment. */
  function Paged(tables: seq<seq<Account>>, size: nat, n: nat): seq<Account>
    requires tables != []
  {
    if n == 0 then [] else Paged(tables, size, n - 1) + PageAt(tables, size, n - 1)
  }

  lemma OnePageOn(tables: seq<seq<Account>>, size: nat, n: nat)
    requires tables != []
    ensures Paged(tables, size, n + 1) == Paged(tables, size, n) + PageAt(tables, size, n)
  {
  }

  ghost predicate AllFull(tables: seq<seq<Account>>, size: nat, n: nat)
    requires tables != []
  {
    forall j: nat :: j < n ==> |PageAt(tables, size, j)| == size
  }

  /** Pages are read up to and including the first short one. */
  ghost predicate ReadUpTo(tables: seq<seq<Account>>, size: nat, n: nat)
    requires tables != []
  {
    n > 0 && |PageAt(tables, size, n - 1)| < size && AllFull(tables, size, n - 1)
  }

  method LoadAll(tables: seq<seq<Account>>, pageSize: nat) returns (accounts: seq<Account>, pages: nat)
    requires pageSize > 0 && tables != []
    ensures ReadUpTo(tables, pageSize, pages) && accounts == Paged(tables, pageSize, pages)
    ensures Fixed(tables) ==> accounts == tables[0]
  {
    hide Range, Paged, AllFull;
    accounts := [];
    pages := 0;
    var from := 0;
    ghost var last := tables[|tables|-1];
    assert AllFull(tables, pageSize, 0) && Paged(tables, pageSize, 0) == [] by { NoPages(tables, pageSize); }
    while true
      invariant from == Start(pageSize, pages)
      invariant accounts == Paged(tables, pageSize, pages) && AllFull(tables, pageSize, pages)
      invariant pages > |tables| ==> from <= |last|
      decreases |tables| + 1 - Min(pages, |tables| + 1), |last| - from
    {
      var data := Range(TableAt(tables, pages), from, pageSize);
      FullPage(TableAt(tables, pages), from, pageSize);
      OnePageOn(tables, pageSize, pages);
      accounts := accounts + data;
      pages := pages + 1;
      if |data| < pageSize { break; }
      OneMoreFull(tables, pageSize, pages);
      from := from + pageSize;
    }
    FixedTable(tables, pageSize, pages);
  }

  lemma NoPages(tables: seq<seq<Account>>, size: nat)
    requires tables != []
    ensures AllFull(tables, size, 0) && Paged(tables, size, 0) == []
  {
  }

  lemma OneMoreFull(tables: seq<seq<Account>>, size: nat, n: nat)
    requires tables != [] && n > 0 && AllFull(tables, size, n - 1) && |PageAt(tables, size, n - 1)| == size
    ensures AllFull(tables, size, n)
  {
  }

  lemma FewerFull(tables: seq<seq<Account>>, size: nat, n: nat)
    requires tables != [] && AllFull(tables, size, n + 1)
    ensures AllFull(tables, size, n) && |PageAt(tables, size, n)| == size
  {
  }

  lemma FixedPage(tables: seq<seq<Account>>, size: nat, j: nat)
    requires tables != [] && Fixed(tables)
    ensures PageAt(tables, size, j) == Range(tables[0], Start(size, j), size)
  {
    hide Range, Start;
  }

  lemma {:induction false} FixedPages(tables: seq<seq<Account>>, size: nat, n: nat)
    requires tables != [] && size > 0 && AllFull(tables, size, n) && Fixed(tables)
    ensures Start(size, n) <= |tables[0]| && Paged(tables, size, n) == tables[0][..Start(size, n)]
  {
    hide Range, AllFull, Fixed, PageAt;
    if n > 0 {
      FewerFull(tables, size, n - 1);
      FixedPages(tables, size, n - 1);
      OnePageOn(tables, size, n - 1);
      FixedPage(tables, size, n - 1);
      NextFullPage(tables[0], Start(size, n - 1), size);
    }
  }

  lemma NextFullPage(table: seq<Account>, from: nat, size: nat)
    requires size > 0 && |Range(table, from, size)| == size
    ensures from + size <= |table| && table[..from] + Range(table, from, size) == table[..from + size]
  {
  }

  /** A table that does not change is returned as it is. */
  lemma FixedTable(tables: seq<seq<Account>>, size: nat, n: nat)
    requires tables != [] && size > 0 && ReadUpTo(tables, size, n)
    ensures Fixed(tables) ==> Paged(tables, size, n) == tables[0]
  {
    hide Range, AllFull, Fixed, PageAt, Paged, Start;
    if Fixed(tables) {
      FixedPages(tables, size, n - 1);
      OnePageOn(tables, size, n - 1);
      FixedPage(tables, size, n - 1);
      LastPage(tables[0], Start(size, n - 1), size);
    }
  }

  lemma LastPage(table: seq<Account>, from: nat, size: nat)
    requires from <= |table| && |Range(table, from, size)| < size
    ensures table[..from] + Range(table, from, size) == table
  {
  }

  lemma FullPage(table: seq<Account>, from: nat, size: nat)
    requires size > 0
    ensures |Range(table, from, size)| <= size
    ensures |Range(table, from, size)| == size ==> from + size <= |table|
  {
  }

  /** `where[j]` is where the account stands when page j is read. */
  ghost predicate Stands(tables: seq<seq<Account>>, a: Account, where: seq<nat>)
    requires tables != []
  {
    forall j :: 0 <= j < |where| ==> where[j] < |TableAt(tables, j)| && TableAt(tables, j)[where[j]] == a
  }

  /** Between two pages the account moves from behind the page just read to before the next one. */
  predicate Slips(where: seq<nat>, size: nat, j: nat)
    requires j + 1 < |where|
  {
    where[j] >= Start(size, j + 1) > where[j+1]
  }

  /** What stands on the page just read is found; what stands behind it stays there, unless it slips. */
  lemma FoundOrBehind(tables: seq<seq<Account>>, size: nat, a: Account, where: seq<nat>, j: nat)
    requires tables != [] && Stands(tables, a, where) && j + 1 < |where| && !Slips(where, size, j)
    requires where[j] >= Start(size, j)
    ensures a in PageAt(tables, size, j) || where[j+1] >= Start(size, j + 1)
  {
    if where[j] < Start(size, j + 1) { InRange(TableAt(tables, j), where[j], Start(size, j), size); }
  }

  lemma {:induction false} FoundOrAhead(tables: seq<seq<Account>>, size: nat, a: Account, where: seq<nat>, n: nat)
    requires tables != [] && Stands(tables, a, where) && n < |where|
    requires forall j: nat :: j + 1 < |where| ==> !Slips(where, size, j)
    ensures a in Paged(tables, size, n) || where[n] >= Start(size, n)
  {
    hide Stands, Slips, PageAt;
    if n > 0 {
      FoundOrAhead(tables, size, a, where, n - 1);
      hide Paged, Start;
      OnePageOn(tables, size, n - 1);
      if where[n-1] >= Start(size, n - 1) { FoundOrBehind(tables, size, a, where, n - 1); }
    }
  }

  /** An account that is there all the time is returned, however the table changes meanwhile, unless it slips from
      behind the page just read to before the next one. Rows that are only added never make it slip. */
  lemma StayingAccountIsReturned(tables: seq<seq<Account>>, size: nat, n: nat, a: Account, where: seq<nat>)
    requires tables != [] && size > 0 && ReadUpTo(tables, size, n)
    requires |where| == n && Stands(tables, a, where) && forall j: nat :: j + 1 < n ==> !Slips(where, size, j)
    ensures a in Paged(tables, size, n)
  {
    FoundOrAhead(tables, size, a, where, n - 1);
    var table, from := TableAt(tables, n - 1), Start(size, n - 1);
    if where[n-1] >= from { InRange(table, where[n-1], from, size); }
  }

  ghost predicate NoDoubles(table: seq<Account>) {
    forall i, j :: 0 <= i < j < |table| ==> table[i] != table[j]
  }

  lemma InPage(table: seq<Account>, a: Account, at: nat, from: nat, size: nat)
    requires NoDoubles(table) && at < |table| && table[at] == a && a in Range(table, from, size)
    ensures from <= at < from + size
  {
    var page := Range(table, from, size);
    var i :| 0 <= i < |page| && page[i] == a;
    assert table[from + i] == a;
  }

  lemma {:induction false} OnNoPage(tables: seq<seq<Account>>, size: nat, a: Account, where: seq<nat>, n: nat)
    requires tables != [] && Stands(tables, a, where) && n <= |where|
    requires forall j: nat :: j < n ==> NoDoubles(TableAt(tables, j))
    requires forall j: nat :: j < n ==> where[j] < Start(size, j) || where[j] >= Start(size, j + 1)
    ensures a !in Paged(tables, size, n)
  {
    if n > 0 {
      OnNoPage(tables, size, a, where, n - 1);
      OnePageOn(tables, size, n - 1);
      assert Start(size, n) == Start(size, n - 1) + size;
      hide Paged, Start;
      if a in PageAt(tables, size, n - 1) {
        InPage(TableAt(tables, n - 1), a, where[n-1], Start(size, n - 1), size);
      }
    }
  }

  lemma {:induction false} StartsGrow(size: nat, i: nat, j: nat)
    requires i <= j
    ensures Start(size, i) <= Start(size, j)
  {
    if i < j { StartsGrow(size, i, j - 1); }
  }

  ghost predicate Increasing(f: seq<nat>) {
    forall i, j :: 0 <= i < j < |f| ==> f[i] < f[j]
  }

  /** The later table is what is left of the earlier one: its i-th row stood at `f[i]`. */
  ghost predicate Leaves(earlier: seq<Account>, later: seq<Account>, f: seq<nat>) {
    |f| == |later| && Increasing(f) && forall i :: 0 <= i < |f| ==> f[i] < |earlier| && earlier[f[i]] == later[i]
  }

  ghost predicate Left(earlier: seq<Account>, later: seq<Account>) {
    exists f :: Leaves(earlier, later, f)
  }

  ghost predicate OnlyLeave(tables: seq<seq<Account>>) {
    forall i, j :: 0 <= i && j == i + 1 && j < |tables| ==> Left(tables[i], tables[j])
  }

  lemma {:induction false} NotBefore(f: seq<nat>, i: nat)
    requires Increasing(f) && i < |f|
    ensures f[i] >= i
  {
    if i > 0 { NotBefore(f, i - 1); }
  }

  lemma MovesUp(earlier: seq<Account>, later: seq<Account>, a: Account, before: nat, after: nat)
    requires NoDoubles(earlier) && Left(earlier, later)
    requires before < |earlier| && earlier[before] == a && after < |later| && later[after] == a
    ensures NoDoubles(later) && after <= before
  {
    StillNoDoubles(earlier, later);
    var f :| Leaves(earlier, later, f);
    NotBefore(f, after);
    assert f[after] == before;
  }

  lemma StillNoDoubles(earlier: seq<Account>, later: seq<Account>)
    requires NoDoubles(earlier) && Left(earlier, later)
    ensures NoDoubles(later)
  {
    var f :| Leaves(earlier, later, f);
    forall i, j | 0 <= i < j < |later| ensures later[i] != later[j] {
      assert earlier[f[i]] == later[i] && earlier[f[j]] == later[j];
    }
  }

  lemma {:induction false} TablesHaveNoDoubles(tables: seq<seq<Account>>, j: nat)
    requires tables != [] && OnlyLeave(tables) && NoDoubles(tables[0])
    ensures NoDoubles(TableAt(tables, j))
  {
    hide NoDoubles, Left;
    if 0 < j < |tables| {
      TablesHaveNoDoubles(tables, j - 1);
      StillNoDoubles(tables[j-1], tables[j]);
    } else if j > 0 {
      TablesHaveNoDoubles(tables, j - 1);
    }
  }

  lemma OnePlace(table: seq<Account>, a: Account, i: nat, j: nat)
    requires NoDoubles(table) && i < |table| && j < |table| && table[i] == a && table[j] == a
    ensures i == j
  {
  }

  lemma MovesUpOnce(tables: seq<seq<Account>>, a: Account, where: seq<nat>, j: nat)
    requires tables != [] && OnlyLeave(tables) && NoDoubles(TableAt(tables, j))
    requires Stands(tables, a, where) && j + 1 < |where|
    ensures where[j] >= where[j+1]
  {
    var earlier, later := TableAt(tables, j), TableAt(tables, j + 1);
    assert earlier[where[j]] == a && later[where[j+1]] == a;
    if j + 1 < |tables| {
      assert Left(tables[j], tables[j+1]);
      hide NoDoubles, Left, OnlyLeave, Stands;
      MovesUp(earlier, later, a, where[j], where[j+1]);
    } else {
      hide OnlyLeave, NoDoubles, Stands;
      OnePlace(earlier, a, where[j], where[j+1]);
    }
  }

  /** Whoever stays moves up, or not at all. */
  lemma {:induction false} PositionsFall(tables: seq<seq<Account>>, a: Account, where: seq<nat>, i: nat, j: nat)
    requires tables != [] && OnlyLeave(tables) && NoDoubles(tables[0])
    requires Stands(tables, a, where) && i <= j < |where|
    ensures where[i] >= where[j]
  {
    hide OnlyLeave, NoDoubles, Stands;
    if i < j {
      PositionsFall(tables, a, where, i, j - 1);
      TablesHaveNoDoubles(tables, j - 1);
      MovesUpOnce(tables, a, where, j - 1);
    }
  }

  /** While accounts only leave, so that the others move up, an account that stays is returned if and only if it never
      slips over the edge between a page and the next. */
  lemma WhileAccountsOnlyLeave(tables: seq<seq<Account>>, size: nat, n: nat, a: Account, where: seq<nat>)
    requires tables != [] && size > 0 && ReadUpTo(tables, size, n)
    requires NoDoubles(tables[0]) && OnlyLeave(tables) && |where| == n && Stands(tables, a, where)
    ensures a in Paged(tables, size, n) <==> forall j: nat :: j + 1 < n ==> !Slips(where, size, j)
  {
    hide ReadUpTo, Paged, Stands, NoDoubles, Slips, OnlyLeave;
    if forall j: nat :: j + 1 < n ==> !Slips(where, size, j) {
      StayingAccountIsReturned(tables, size, n, a, where);
    } else {
      var j: nat :| j + 1 < n && Slips(where, size, j);
      forall i, k | 0 <= i < k < n ensures where[i] >= where[k] { PositionsFall(tables, a, where, i, k); }
      forall k: nat | k < n ensures NoDoubles(TableAt(tables, k)) { TablesHaveNoDoubles(tables, k); }
      SlippedIsOnNoPage(size, where, j);
      OnNoPage(tables, size, a, where, n);
    }
  }

  /** With pages of two, the account "c" is missed when "a" leaves between the first page and the second. */
  lemma LeavingHidesANeighbour()
    ensures var tables := [["a", "b", "c"], ["b", "c"]];
            OnlyLeave(tables) && ReadUpTo(tables, 2, 2) && Paged(tables, 2, 2) == ["a", "b"]
  {
    var tables := [["a", "b", "c"], ["b", "c"]];
    assert Leaves(tables[0], tables[1], [1, 2]);
    assert Left(tables[0], tables[1]);
    OnePageOn(tables, 2, 0);
    OnePageOn(tables, 2, 1);
    assert PageAt(tables, 2, 0) == ["a", "b"] && PageAt(tables, 2, 1) == [];
  }

  lemma SlippedIsOnNoPage(size: nat, where: seq<nat>, j: nat)
    requires j + 1 < |where| && Slips(where, size, j)
    requires forall i, k :: 0 <= i < k < |where| ==> where[i] >= where[k]
    ensures forall i: nat :: i < |where| ==> where[i] < Start(size, i) || where[i] >= Start(size, i + 1)
  {
    forall i: nat | i < |where| ensures where[i] < Start(size, i) || where[i] >= Start(size, i + 1) {
      if i <= j { StartsGrow(size, i + 1, j + 1); } else { StartsGrow(size, j + 1, i); }
    }
  }

  // ---- one batch ------------------------------------------------------------------------------------

  /** Where a call with this offset reads: past the end it starts again at the beginning. */
  function ReadFrom(table: seq<Account>, offset: nat): nat {
    if offset >= |table| then 0 else offset
  }

  function BatchAt(table: seq<Account>, offset: nat, size: nat): seq<Account> {
    Range(table, ReadFrom(table, offset), size)
  }

  function OffsetAfter(table: seq<Account>, offset: nat, size: nat): nat {
    var from := ReadFrom(table, offset);
    if from + size < |table| then from + size else 0
  }

  /** The table as the first query of a call finds it, and as the second one does if the call starts again. */
  datatype Reads = Reads(first: seq<Account>, again: seq<Account>)

  predicate Restarts(r: Reads, offset: nat) { offset > 0 && offset >= |r.first| }

  function BatchOf(r: Reads, offset: nat, size: nat): seq<Account> {
    if Restarts(r, offset) then BatchAt(r.again, 0, size) else BatchAt(r.first, offset, size)
  }

  function OffsetOf(r: Reads, offset: nat, size: nat): nat {
    if Restarts(r, offset) then OffsetAfter(r.again, 0, size) else OffsetAfter(r.first, offset, size)
  }

  class BatchLoader {
    const batchSize: nat
    var offset: nat

    constructor (batchSize: nat)
      ensures this.batchSize == batchSize && offset == 0
    {
      this.batchSize := batchSize;
      offset := 0;
    }

    /** `restarts` counts how deep the call went into itself. */
    method LoadBatch(r: Reads) returns (data: seq<Account>, ghost restarts: nat)
      requires batchSize > 0
      modifies this
      ensures data == BatchOf(r, old(offset), batchSize)
      ensures offset == OffsetOf(r, old(offset), batchSize)
      ensures restarts == if Restarts(r, old(offset)) then 1 else 0
      decreases offset
    {
      var from := offset;
      var to := from + batchSize - 1;
      data := Range(r.first, from, batchSize);
      var total := |r.first|;
      if |data| == 0 && from > 0 {
        offset := 0;
        data, restarts := LoadBatch(Reads(r.again, r.again));
        restarts := restarts + 1;
        return;
      }
      offset := if total > 0 && to + 1 < total then to + 1 else 0;
      restarts := 0;
    }
  }

  // ---- runs -----------------------------------------------------------------------------------------

  /** The offset after one call for each of the reads, whatever they find. */
  function After(calls: seq<Reads>, size: nat): nat {
    if calls == [] then 0
    else OffsetOf(calls[|calls|-1], After(calls[..|calls|-1], size), size)
  }

  /** However the set of accounts changes, even within a call, the offset stays a multiple of the batch size, a call
      never comes back empty while its queries find accounts, and it never returns more than a batch. */
  lemma {:induction false} OffsetStaysOnABatch(calls: seq<Reads>, size: nat, r: Reads)
    requires size > 0
    ensures After(calls, size) % size == 0
    ensures |BatchOf(r, After(calls, size), size)| <= size
    ensures r.first != [] && r.again != [] ==> BatchOf(r, After(calls, size), size) != []
  {
    hide OffsetOf;
    if calls != [] {
      var n := |calls| - 1;
      OffsetStaysOnABatch(calls[..n], size, r);
      NextOffsetOnABatch(calls[n], After(calls[..n], size), size);
    }
  }

  lemma NextOffsetOnABatch(r: Reads, offset: nat, size: nat)
    requires size > 0 && offset % size == 0
    ensures OffsetOf(r, offset, size) % size == 0
  {
    AddSize(0, size);
    AddSize(offset, size);
    assert 0 % size == 0;
  }

  lemma Quotient(q: nat, r: nat, c: nat)
    requires r < c
    ensures (q * c + r) / c == q && (q * c + r) % c == r
  {
    var x := q * c + r;
    var q', r' := x / c, x % c;
    assert x == q' * c + r';
    Product(q' + 1, q, c);
    Product(q + 1, q', c);
  }

  lemma AddSize(from: nat, size: nat)
    requires size > 0 && from % size == 0
    ensures (from + size) % size == 0
  {
    var q := from / size;
    assert from + size == (q + 1) * size + 0;
    Quotient(q + 1, 0, size);
  }

  /** The offset before the j-th of consecutive calls on one table. */
  function OffsetBefore(table: seq<Account>, offset: nat, size: nat, j: nat): nat {
    if j == 0 then offset else OffsetAfter(table, OffsetBefore(table, offset, size, j - 1), size)
  }

  /** ceil(N / B) */
  function Pages(n: nat, size: nat): nat
    requires size > 0
  {
    (n + size - 1) / size
  }

  lemma PagesBound(n: nat, size: nat, page: nat)
    requires size > 0
    ensures page < Pages(n, size) <==> page * size < n
  {
    var c := Pages(n, size);
    assert c * size <= n + size - 1 < c * size + size;
    if page < c {
      Product(page + 1, c, size);
      assert (page + 1) * size == page * size + size;
    } else {
      Product(c, page, size);
    }
  }

  /** One call, page by page. */
  lemma NextPage(table: seq<Account>, page: nat, size: nat)
    requires size > 0 && page < Pages(|table|, size)
    ensures ReadFrom(table, page * size) == page * size
    ensures OffsetAfter(table, page * size, size) == if page + 1 < Pages(|table|, size) then (page + 1) * size else 0
  {
    PagesBound(|table|, size, page);
    PagesBound(|table|, size, page + 1);
    assert (page + 1) * size == page * size + size;
  }

  /** The page after `j` steps of a round of `c` pages. */
  function Turned(page: nat, j: nat, c: nat): nat
    requires c > 0
  {
    (page + j) % c
  }

  /** One more than q times c and r. */
  lemma OneMore(q: nat, r: nat, c: nat)
    requires r < c
    ensures (q * c + r + 1) % c == if r + 1 < c then r + 1 else 0
  {
    if r + 1 < c {
      Quotient(q, r + 1, c);
    } else {
      assert (q + 1) * c == q * c + c;
      Quotient(q + 1, 0, c);
    }
  }

  lemma TurnedOnce(page: nat, j: nat, c: nat)
    requires c > 0
    ensures Turned(page, j, c) < c
    ensures page < c ==> Turned(page, 0, c) == page
    ensures Turned(page, j + 1, c) == if Turned(page, j, c) + 1 < c then Turned(page, j, c) + 1 else 0
  {
    var q, r := (page + j) / c, Turned(page, j, c);
    var product := q * c;
    assert page + j == product + r && r < c;
    OneMore(q, r, c);
    if page < c { Quotient(0, page, c); }
  }

  /** The page read by the j-th call: the pages go round. */
  lemma {:induction false} PagesGoRound(table: seq<Account>, page: nat, size: nat, j: nat)
    requires size > 0 && page < Pages(|table|, size)
    ensures Turned(page, j, Pages(|table|, size)) < Pages(|table|, size)
    ensures OffsetBefore(table, page * size, size, j) == Turned(page, j, Pages(|table|, size)) * size
  {
    hide Turned, Pages, OffsetAfter;
    var c := Pages(|table|, size);
    TurnedOnce(page, j, c);
    if j > 0 {
      PagesGoRound(table, page, size, j - 1);
      TurnedOnce(page, j - 1, c);
      NextPage(table, Turned(page, j - 1, c), size);
    }
  }

  /** Some call of a round reads the page `target`. */
  lemma SomeTurn(page: nat, target: nat, c: nat) returns (j: nat)
    requires page < c && target < c
    ensures j < c && Turned(page, j, c) == target
  {
    if target >= page {
      j := target - page;
      Quotient(0, target, c);
    } else {
      j := target + c - page;
      Quotient(1, target, c);
    }
  }

  /** With a fixed set of N accounts, any ceil(N / B) calls in a row return every account, from any offset the
      loader can stand at. */
  lemma EveryAccountIsReached(table: seq<Account>, calls: seq<Reads>, size: nat, k: nat)
    requires size > 0 && k < |table|
    ensures exists j: nat :: j < Pages(|table|, size)
              && table[k] in BatchAt(table, OffsetBefore(table, After(calls, size), size, j), size)
  {
    hide Turned, Pages, OffsetAfter, Range, ReadFrom;
    OffsetStaysOnABatch(calls, size, Reads(table, table));
    var offset := After(calls, size);
    var page := StandsAt(table, offset, size);
    var target := PageOf(table, k, size);
    var j := SomeTurn(page, target, Pages(|table|, size));
    PagesGoRound(table, page, size, j);
    SameReads(table, offset, page * size, size, j);
    NextPage(table, target, size);
    assert BatchAt(table, OffsetBefore(table, offset, size, j), size) == Range(table, target * size, size);
  }

  lemma PageOf(table: seq<Account>, k: nat, size: nat) returns (page: nat)
    requires size > 0 && k < |table|
    ensures page < Pages(|table|, size) && table[k] in Range(table, page * size, size)
  {
    page := k / size;
    PagesBound(|table|, size, page);
    InRange(table, k, page * size, size);
  }

  lemma InRange(table: seq<Account>, k: nat, from: nat, size: nat)
    requires k < |table| && from <= k < from + size
    ensures table[k] in Range(table, from, size)
  {
    assert Range(table, from, size)[k - from] == table[k];
  }

  /** The page a call reads from an offset on a batch. */
  lemma StandsAt(table: seq<Account>, offset: nat, size: nat) returns (page: nat)
    requires size > 0 && table != [] && offset % size == 0
    ensures page < Pages(|table|, size) && ReadFrom(table, offset) == ReadFrom(table, page * size)
  {
    page := if offset >= |table| then 0 else offset / size;
    PagesBound(|table|, size, page);
    assert offset < |table| ==> page * size == offset;
  }

  lemma {:induction false} SameReads(table: seq<Account>, a: nat, b: nat, size: nat, j: nat)
    requires ReadFrom(table, a) == ReadFrom(table, b)
    ensures ReadFrom(table, OffsetBefore(table, a, size, j)) == ReadFrom(table, OffsetBefore(table, b, size, j))
  {
    if j > 0 { SameReads(table, a, b, size, j - 1); }
  }

  /** `j` calls that all find the same table. */
  function Alike(table: seq<Account>, j: nat): seq<Reads> {
    if j == 0 then [] else Alike(table, j - 1) + [Reads(table, table)]
  }

  /** The offset after such calls. */
  function Later(table: seq<Account>, calls: seq<Reads>, size: nat, j: nat): nat {
    After(calls + Alike(table, j), size)
  }

  lemma OneCallMore(calls: seq<Reads>, r: Reads, size: nat)
    ensures After(calls + [r], size) == OffsetOf(r, After(calls, size), size)
  {
    assert (calls + [r])[..|calls|] == calls;
  }

  lemma OneCallLater(table: seq<Account>, calls: seq<Reads>, size: nat, j: nat)
    ensures Later(table, calls, size, j + 1) == OffsetOf(Reads(table, table), Later(table, calls, size, j), size)
    ensures Later(table, calls, size, 0) == After(calls, size)
  {
    hide After, OffsetOf;
    OneCallMore(calls + Alike(table, j), Reads(table, table), size);
    assert calls + Alike(table, j + 1) == (calls + Alike(table, j)) + [Reads(table, table)];
    assert calls + [] == calls;
  }

  /** With one table for all its queries a call returns the batch its offset stands on, whether it starts again or
      not. */
  lemma OneTable(table: seq<Account>, offset: nat, size: nat)
    ensures BatchOf(Reads(table, table), offset, size) == BatchAt(table, offset, size)
    ensures OffsetOf(Reads(table, table), offset, size) == OffsetAfter(table, offset, size)
  {
  }

  lemma {:induction false} LaterIsBefore(table: seq<Account>, calls: seq<Reads>, size: nat, j: nat)
    ensures Later(table, calls, size, j) == OffsetBefore(table, After(calls, size), size, j)
  {
    hide Later, OffsetOf, OffsetAfter;
    if j == 0 {
      OneCallLater(table, calls, size, 0);
    } else {
      LaterIsBefore(table, calls, size, j - 1);
      OneCallLater(table, calls, size, j - 1);
      OneTable(table, Later(table, calls, size, j - 1), size);
    }
  }

  /** The same of the calls themselves: once the table stays as it is, after any calls before on any tables, some of the
      next ceil(N / B) calls returns the account, restarts included. */
  lemma CallsReachEveryAccount(table: seq<Account>, calls: seq<Reads>, size: nat, k: nat)
    requires size > 0 && k < |table|
    ensures exists j: nat :: j < Pages(|table|, size)
              && table[k] in BatchOf(Reads(table, table), Later(table, calls, size, j), size)
  {
    hide Later, BatchOf, OffsetOf, OffsetBefore, BatchAt, Pages;
    EveryAccountIsReached(table, calls, size, k);
    var j: nat :| j < Pages(|table|, size)
      && table[k] in BatchAt(table, OffsetBefore(table, After(calls, size), size, j), size);
    LaterIsBefore(table, calls, size, j);
    OneTable(table, Later(table, calls, size, j), size);
  }

  /** A call that finds its offset past the end begins again with the first batch of the table it then reads, and the
      next call goes on behind it. */
  lemma RestartReadsTheFirstBatch(r: Reads, offset: nat, size: nat)
    requires size > 0 && offset > 0 && offset >= |r.first|
    ensures BatchOf(r, offset, size) == r.again[..Min(size, |r.again|)]
    ensures OffsetOf(r, offset, size) == if size < |r.again| then size else 0
  {
  }

  /** The first `calls` batches of a round, put together. */
  function Together(table: seq<Account>, size: nat, calls: nat): seq<Account> {
    if calls == 0 then []
    else Together(table, size, calls - 1) + BatchAt(table, OffsetBefore(table, 0, size, calls - 1), size)
  }

  lemma {:induction false} RoundSoFar(table: seq<Account>, size: nat, calls: nat)
    requires size > 0 && calls <= Pages(|table|, size)
    ensures Together(table, size, calls) == table[..Min(calls * size, |table|)]
  {
    hide Pages, Range, OffsetAfter, OffsetBefore, BatchAt;
    if calls > 0 {
      RoundSoFar(table, size, calls - 1);
      InOrder(table, size, calls - 1);
      OnePageMore(table, (calls - 1) * size, size);
      assert calls * size == (calls - 1) * size + size;
    }
  }

  lemma OnePageMore(table: seq<Account>, from: nat, size: nat)
    requires from < |table|
    ensures table[..from] + Range(table, from, size) == table[..Min(from + size, |table|)]
  {
  }

  lemma InOrder(table: seq<Account>, size: nat, j: nat)
    requires size > 0 && j < Pages(|table|, size)
    ensures j * size < |table|
    ensures BatchAt(table, OffsetBefore(table, 0, size, j), size) == Range(table, j * size, size)
    ensures OffsetBefore(table, 0, size, j + 1) == if j + 1 < Pages(|table|, size) then (j + 1) * size else 0
  {
    var c := Pages(|table|, size);
    PagesBound(|table|, size, j);
    hide Pages, OffsetAfter, Range;
    PagesGoRound(table, 0, size, j);
    Quotient(0, j, c);
    assert 0 * size == 0;
    NextPage(table, j, size);
  }

  /** A whole round from the beginning returns every account exactly once, in order, and ends at the beginning. */
  lemma ARoundIsTheTable(table: seq<Account>, size: nat)
    requires size > 0 && table != []
    ensures Together(table, size, Pages(|table|, size)) == table
    ensures OffsetBefore(table, 0, size, Pages(|table|, size)) == 0
  {
    var c := Pages(|table|, size);
    PagesBound(|table|, size, 0);
    PagesBound(|table|, size, c);
    RoundSoFar(table, size, c);
    InOrder(table, size, c - 1);
  }
}
