// The change journal of one master stream (the MetaApi branch of openStrategyStream in
// scripts/wsa-copy-worker.ts): broker callbacks and snapshots become OPEN, MODIFY and CLOSE events.
//
// The OPENs of the initial synchronisation and the events of a reconcile pass are written one by one, and callbacks
// come between them.

module Journal {
  import opened Common

  type Ticket = string

  /** `rest` is everything about a position that no event is made of. */
  datatype Position = Position(id: Ticket, volume: real, stopLoss: Option<real>, takeProfit: Option<real>, rest: string)

  /** What a change is judged by; a missing level counts as zero. */
  datatype Levels = Levels(volume: real, stopLoss: real, takeProfit: real)

  function LevelsOf(p: Position): Levels {
    Levels(p.volume,
           if p.stopLoss.Some? then p.stopLoss.value else 0.0,
           if p.takeProfit.Some? then p.takeProfit.value else 0.0)
  }

  predicate Changed(previous: Position, current: Position) {
    LevelsOf(previous) != LevelsOf(current)
  }

  datatype Event =
    | Open(position: Position, existing: bool)
    | Modify(position: Position, previous: Position)
    | Close(position: Position)

  type Book = map<Ticket, Position>

  /** The same level; a missing one and 0 are the same. */
  predicate SameLevel(a: Option<real>, b: Option<real>) {
    a == b || (a == None && b == Some(0.0)) || (a == Some(0.0) && b == None)
  }

  /** The same volume, stop loss and take-profit. */
  predicate SameFigures(a: Position, b: Position) {
    a.volume == b.volume && SameLevel(a.stopLoss, b.stopLoss) && SameLevel(a.takeProfit, b.takeProfit)
  }

  lemma ChangedMeansOtherFigures(a: Position, b: Position)
    ensures Changed(a, b) <==> !SameFigures(a, b)
    ensures LevelsOf(a) == LevelsOf(b) <==> SameFigures(a, b)
  {
  }

  /** A reconcile pass under way: what is left of the broker's list, what was taken over from it so far, and the tickets
      the pass has written an event about, as still there (`told`) or as gone (`closed`). */
  datatype Pass = NoPass | Pass(todo: seq<Position>, current: Book, told: set<Ticket>, closed: set<Ticket>)

  /** `rest` are the positions of the synchronisation whose OPEN is still to be written. */
  datatype Stream = Stream(positions: Book, ready: bool, rest: seq<Position>, pass: Pass, log: seq<Event>)

  const START: Stream := Stream(map[], false, [], NoPass, [])

  // ---- the steps, as values ----------------------------------------------------------------------

  /** `positions` filled from a list: of two entries with one ticket the later one stays. */
  function FromList(list: seq<Position>): Book {
    if list == [] then map[] else FromList(list[..|list|-1])[list[|list|-1].id := list[|list|-1]]
  }

  /** What a position seen now says about a book. */
  function Seen(book: Book, p: Position): seq<Event> {
    if p.id !in book then [Open(p, false)]
    else if Changed(book[p.id], p) then [Modify(p, book[p.id])]
    else []
  }

  function Replaced(s: Stream, list: seq<Position>): Stream {
    s.(positions := FromList(list))
  }

  function Updated(s: Stream, p: Position): Stream {
    s.(positions := s.positions[p.id := p],
       log := if s.ready then s.log + Seen(s.positions, p) else s.log)
  }

  /** A ticket that goes and comes back is a new entry of the map, which the pass will meet again. */
  function Gone(s: Stream, t: Ticket): Stream {
    s.(positions := s.positions - {t},
       pass := if s.pass.Pass? then s.pass.(closed := s.pass.closed - {t}) else NoPass,
       log := if s.ready && t in s.positions then s.log + [Close(s.positions[t])] else s.log)
  }

  /** The next OPEN of the synchronisation. */
  function OneOpened(s: Stream): Stream
    requires s.rest != []
  {
    s.(rest := s.rest[1..], log := s.log + [Open(s.rest[0], true)])
  }

  function Synchronized(s: Stream, list: seq<Position>): Stream {
    s.(positions := s.positions + FromList(list), ready := true, rest := list)
  }

  function Begun(s: Stream, list: seq<Position>): Stream {
    s.(pass := Pass(list, map[], {}, {}))
  }

  /** The pass meets the next position of the list. */
  function OneSeen(s: Stream): Stream
    requires s.pass.Pass? && s.pass.todo != []
  {
    var p := s.pass.todo[0];
    var told := if Seen(s.positions, p) == [] then s.pass.told else s.pass.told + {p.id};
    s.(pass := Pass(s.pass.todo[1..], s.pass.current[p.id := p], told, s.pass.closed),
       log := s.log + Seen(s.positions, p))
  }

  /** The pass meets a position that is not in the list. */
  function OneClosed(s: Stream, t: Ticket): Stream
    requires s.pass.Pass? && t in s.positions
  {
    s.(pass := s.pass.(closed := s.pass.closed + {t}), log := s.log + [Close(s.positions[t])])
  }

  function Ended(s: Stream): Stream
    requires s.pass.Pass?
  {
    s.(positions := s.pass.current, pass := NoPass)
  }

  // ---- the code --------------------------------------------------------------------------------

  class MasterStream {
    var positions: map<Ticket, Position>
    var ready: bool
    var rest: seq<Position>
    var pass: Pass
    var log: seq<Event>

    function Value(): Stream
      reads this
    {
      Stream(positions, ready, rest, pass, log)
    }

    constructor ()
      ensures Value() == START
    {
      positions, ready, rest, pass, log := map[], false, [], NoPass, [];
    }

    method OnPositionsReplaced(list: seq<Position>)
      modifies `positions
      ensures Value() == Replaced(old(Value()), list)
    {
      positions := map[];
      for i := 0 to |list|
        invariant positions == FromList(list[..i])
      {
        positions := positions[list[i].id := list[i]];
        assert list[..i+1][..i] == list[..i];
      }
      assert list[..|list|] == list;
    }

    method OnPositionUpdated(p: Position)
      modifies this
      ensures Value() == Updated(old(Value()), p)
    {
      var known := p.id in positions;
      var previous := if known then positions[p.id] else p;
      positions := positions[p.id := p];
      if !ready { return; }
      if !known {
        log := log + [Open(p, false)];
      } else if Changed(previous, p) {
        log := log + [Modify(p, previous)];
      }
    }

    method OnPositionRemoved(t: Ticket)
      modifies this
      ensures Value() == Gone(old(Value()), t)
    {
      if ready && t in positions { log := log + [Close(positions[t])]; }
      positions := positions - {t};
      if pass.Pass? { pass := pass.(closed := pass.closed - {t}); }
    }

    /** Up to the first OPEN. */
    method Synchronize(list: seq<Position>)
      modifies this
      ensures Value() == Synchronized(old(Value()), list)
    {
      for i := 0 to |list|
        invariant positions == old(positions) + FromList(list[..i])
        invariant Value() == old(Value()).(positions := positions)
      {
        positions := positions[list[i].id := list[i]];
        assert list[..i+1][..i] == list[..i];
      }
      assert list[..|list|] == list;
      ready := true;
      rest := list;
    }

    /** One turn of the loop that writes the OPENs. */
    method WriteOpen()
      requires rest != []
      modifies this
      ensures Value() == OneOpened(old(Value()))
    {
      var position := rest[0];
      rest := rest[1..];
      log := log + [Open(position, true)];
    }

    method BeginPass(list: seq<Position>)
      modifies this
      ensures Value() == Begun(old(Value()), list)
    {
      pass := Pass(list, map[], {}, {});
    }

    /** One turn of the loop over the list. */
    method See()
      requires pass.Pass? && pass.todo != []
      modifies this
      ensures Value() == OneSeen(old(Value()))
    {
      var position := pass.todo[0];
      pass := pass.(todo := pass.todo[1..], current := pass.current[position.id := position]);
      if position.id !in positions {
        log := log + [Open(position, false)];
        pass := pass.(told := pass.told + {position.id});
      } else if Changed(positions[position.id], position) {
        log := log + [Modify(position, positions[position.id])];
        pass := pass.(told := pass.told + {position.id});
      }
    }

    /** One turn of the loop over the map, at a ticket that is not in the list. */
    method CloseMissing(t: Ticket)
      requires pass.Pass? && t in positions
      modifies this
      ensures Value() == OneClosed(old(Value()), t)
    {
      log := log + [Close(positions[t])];
      pass := pass.(closed := pass.closed + {t});
    }

    method EndPass()
      requires pass.Pass?
      modifies this
      ensures Value() == Ended(old(Value()))
    {
      positions := pass.current;
      pass := NoPass;
    }

    /** A pass that no callback interrupts keeps a faithful journal faithful. */
    method Reconcile(list: seq<Position>)
      requires Quiet(Value()) && Sound(Value()) && Distinct(list)
      modifies this
      ensures Quiet(Value()) && positions == FromList(list)
      ensures Faithful(old(Value())) ==> Faithful(Value())
    {
      hide Behind, Sound, Faithful, Distinct, FromList, Seen, EndsWell;
      ghost var faithful := Faithful(Value());
      BeginStays(Value(), list);
      BehindIsFaithful(Value());
      BegunIsUndisturbed(Value(), list);
      BeginPass(list);
      for i := 0 to |list|
        invariant Sound(Value()) && Undisturbed(Value(), list, i)
        invariant faithful ==> Behind(Value())
      {
        SeeStays(Value());
        SeeIsUndisturbed(Value(), list, i);
        See();
      }
      assert list[..|list|] == list;
      while !(positions.Keys <= pass.current.Keys + pass.closed)
        invariant Sound(Value()) && Undisturbed(Value(), list, |list|) && pass.current == FromList(list)
        invariant faithful ==> Behind(Value())
        decreases positions.Keys - pass.closed
      {
        var t :| t in positions.Keys && t !in pass.current.Keys + pass.closed;
        CloseStays(Value(), t);
        CloseIsUndisturbed(Value(), list, t);
        CloseMissing(t);
      }
      EndStays(Value());
      EndPass();
      BehindIsFaithful(Value());
    }
  }

  // ---- replaying the journal ---------------------------------------------------------------------

  /** A reader of the journal follows it event by event. An OPEN of an open ticket, a MODIFY or CLOSE of one that is
      not open, a wrong picture of what was before and a MODIFY that changes nothing make it unreadable. */
  function Replay(log: seq<Event>): Option<map<Ticket, Levels>> {
    if log == [] then Some(map[])
    else
      var book := Replay(log[..|log|-1]);
      if book.None? then None else ReplayOne(book.value, log[|log|-1])
  }

  function ReplayOne(book: map<Ticket, Levels>, e: Event): Option<map<Ticket, Levels>> {
    match e
    case Open(p, _) => if p.id in book then None else Some(book[p.id := LevelsOf(p)])
    case Modify(p, was) =>
      if p.id in book && was.id == p.id && book[p.id] == LevelsOf(was) != LevelsOf(p)
      then Some(book[p.id := LevelsOf(p)]) else None
    case Close(p) => if p.id in book && book[p.id] == LevelsOf(p) then Some(book - {p.id}) else None
  }

  function Picture(book: Book): map<Ticket, Levels> {
    map t | t in book :: LevelsOf(book[t])
  }

  /** Positions are filed under their own ticket. */
  ghost predicate Filed(book: Book) {
    forall t :: t in book ==> book[t].id == t
  }

  ghost predicate Distinct(list: seq<Position>) {
    forall i, j :: 0 <= i < j < |list| ==> list[i].id != list[j].id
  }

  function Tickets(list: seq<Position>): set<Ticket> {
    set i | 0 <= i < |list| :: list[i].id
  }

  // ---- whole runs -----------------------------------------------------------------------------

  datatype Step =
    | Replace(list: seq<Position>)    // before the first synchronisation only
    | Update(position: Position)
    | Vanish(ticket: Ticket)
    | Synchronize(list: seq<Position>)
    | WriteOpen
    | BeginPass(list: seq<Position>)
    | See
    | CloseMissing(ticket: Ticket)
    | EndPass

  /** The broker's list names a ticket once. No pass begins before every OPEN is written or while another pass runs, and
      a pass ends when the loop over the map meets nothing more. */
  ghost predicate Enabled(s: Stream, e: Step) {
    match e
    case Replace(_) => !s.ready
    case Update(_) => true
    case Vanish(_) => true
    case Synchronize(list) => !s.ready && Distinct(list)
    case WriteOpen => s.rest != []
    case BeginPass(list) => Quiet(s) && Distinct(list)
    case See => s.pass.Pass? && s.pass.todo != []
    case CloseMissing(t) =>
      s.pass.Pass? && s.pass.todo == [] && t in s.positions && t !in s.pass.current.Keys + s.pass.closed
    case EndPass => s.pass.Pass? && s.pass.todo == [] && s.positions.Keys <= s.pass.current.Keys + s.pass.closed
  }

  ghost function Next(s: Stream, e: Step): Stream {
    if !Enabled(s, e) then s
    else match e
      case Replace(list) => Replaced(s, list)
      case Update(p) => Updated(s, p)
      case Vanish(t) => Gone(s, t)
      case Synchronize(list) => Synchronized(s, list)
      case WriteOpen => OneOpened(s)
      case BeginPass(list) => Begun(s, list)
      case See => OneSeen(s)
      case CloseMissing(t) => OneClosed(s, t)
      case EndPass => Ended(s)
  }

  /** The stream after further steps. */
  ghost function Onwards(s: Stream, es: seq<Step>): Stream {
    if es == [] then s else Next(Onwards(s, es[..|es|-1]), es[|es|-1])
  }

  ghost function After(es: seq<Step>): Stream { Onwards(START, es) }

  /** Synchronised, and no loop is writing events. */
  predicate Quiet(s: Stream) {
    s.ready && s.rest == [] && s.pass.NoPass?
  }

  /** Replaying the journal gives the worker's position map. */
  ghost predicate Faithful(s: Stream) {
    Filed(s.positions) && Replay(s.log) == Some(Picture(s.positions))
  }

  /** What every run keeps. */
  ghost predicate Sound(s: Stream) {
    && Filed(s.positions) && Distinct(s.rest)
    && (!s.ready ==> s.rest == [] && s.pass.NoPass?)
    && (s.pass.Pass? ==> s.rest == [] && SoundPass(s.positions, s.pass))
  }

  ghost predicate SoundPass(positions: Book, pass: Pass)
    requires pass.Pass?
  {
    && Distinct(pass.todo) && Tickets(pass.todo) !! pass.current.Keys && Filed(pass.current)
    && pass.told <= pass.current.Keys && pass.closed <= positions.Keys - pass.current.Keys
    && (pass.todo != [] ==> pass.closed == {})
  }

  /** The tickets whose events are the business of the loop under way: it will open them, or has written about them. */
  function Dealt(s: Stream): set<Ticket> {
    Tickets(s.rest) + if s.pass.Pass? then s.pass.told + s.pass.closed else {}
  }

  /** No callback writes about a ticket that the loop under way deals with, the list of the synchronisation covers every
      position that was filed before, and at the end of a pass the positions it wrote nothing about are as in its
      list. */
  ghost predicate InTurn(s: Stream, e: Step) {
    match e
    case Update(p) => s.ready && Seen(s.positions, p) != [] ==> p.id !in Dealt(s)
    case Vanish(t) => s.ready && t in s.positions ==> t !in Dealt(s)
    case Synchronize(list) => s.positions.Keys <= Tickets(list)
    case EndPass => EndsWell(s)
    case _ => true
  }

  predicate Same(book: Book, other: Book, t: Ticket)
    requires t in other
  {
    t in book && LevelsOf(book[t]) == LevelsOf(other[t])
  }

  predicate EndsWell(s: Stream) {
    s.pass.Pass? ==> forall t | t in s.pass.current :: t in s.pass.told || Same(s.positions, s.pass.current, t)
  }

  ghost predicate AllInTurn(s: Stream, es: seq<Step>) {
    forall i :: 0 <= i < |es| && Enabled(Onwards(s, es[..i]), es[i]) ==> InTurn(Onwards(s, es[..i]), es[i])
  }

  /** What the journal should tell: the positions, except that the loop under way runs ahead of them or behind. */
  function Told(s: Stream): Book {
    if !s.ready then map[]
    else if s.pass.NoPass? then s.positions - Tickets(s.rest)
    else (s.positions - s.pass.closed) + Ahead(s.pass)
  }

  /** What the pass has written about the positions that are there. */
  function Ahead(pass: Pass): Book
    requires pass.Pass?
  {
    map t | t in pass.told && t in pass.current :: pass.current[t]
  }

  /** The journal tells what it should, and the loop under way can go on as it began. */
  ghost predicate Behind(s: Stream) {
    Replay(s.log) == Some(Picture(Told(s))) && OnTrack(s)
  }

  /** Positions are opened as they are, and one that the pass wrote about differs from what it wrote. */
  predicate OnTrack(s: Stream) {
    && (forall p :: p in s.rest ==> Held(s.positions, p))
    && (s.pass.Pass? ==> forall t | t in s.pass.told && t in s.pass.current :: !Same(s.positions, s.pass.current, t))
  }

  predicate Held(positions: Book, p: Position) {
    p.id in positions && LevelsOf(positions[p.id]) == LevelsOf(p)
  }

  /** The journal cannot be replayed any more, or is wrong about a ticket that no loop will put right. */
  ghost predicate Spoilt(s: Stream) {
    s.ready && exists t :: WrongFor(s, t)
  }

  ghost predicate WrongFor(s: Stream, t: Ticket) {
    || Replay(s.log).None?
    || (Level(Replay(s.log).value, t) != Level(Picture(s.positions), t)
        && t !in Dealt(s) && PassedBy(s.pass, s.positions, t))
  }

  /** If the pass has met the ticket, it found the position as the list has it. */
  predicate PassedBy(pass: Pass, positions: Book, t: Ticket) {
    pass.Pass? && t in pass.current ==> Same(positions, pass.current, t)
  }

  function Level(book: map<Ticket, Levels>, t: Ticket): Option<Levels> {
    if t in book then Some(book[t]) else None
  }

  lemma ReplayMore(log: seq<Event>, e: Event)
    ensures Replay(log + [e]) == if Replay(log).None? then None else ReplayOne(Replay(log).value, e)
  {
    assert (log + [e])[..|log|] == log;
  }

  lemma {:induction false} FromListFiles(list: seq<Position>)
    ensures Filed(FromList(list)) && FromList(list).Keys == Tickets(list)
  {
    if list != [] {
      var n := |list| - 1;
      FromListFiles(list[..n]);
      TicketsMore(list[..n], list[n]);
      assert list == list[..n] + [list[n]];
    }
  }

  lemma TicketsMore(list: seq<Position>, p: Position)
    ensures Tickets(list + [p]) == Tickets(list) + {p.id}
  {
    forall t ensures t in Tickets(list + [p]) <==> t in Tickets(list) + {p.id} {
      if t in Tickets(list) {
        var i :| 0 <= i < |list| && list[i].id == t;
        assert (list + [p])[i].id == t;
      }
      assert (list + [p])[|list|].id == p.id;
    }
  }

  lemma FirstOfDistinct(list: seq<Position>)
    requires list != [] && Distinct(list)
    ensures Distinct(list[1..]) && list[0].id !in Tickets(list[1..])
    ensures Tickets(list) == Tickets(list[1..]) + {list[0].id}
    ensures forall p :: p in list[1..] ==> p in list
  {
    var rest := list[1..];
    assert forall i :: 0 <= i < |rest| ==> rest[i] == list[i+1];
    forall t ensures t in Tickets(list) <==> t in Tickets(rest) || t == list[0].id {
      if t in Tickets(rest) {
        var i :| 0 <= i < |rest| && rest[i].id == t;
        assert list[i+1].id == t;
      }
      if t in Tickets(list) {
        var i :| 0 <= i < |list| && list[i].id == t;
        assert i > 0 ==> rest[i-1].id == t;
      }
    }
  }

  lemma {:induction false} ListKeeps(list: seq<Position>, p: Position)
    requires Distinct(list) && p in list
    ensures p.id in FromList(list) && FromList(list)[p.id] == p
  {
    var n := |list| - 1;
    if p != list[n] {
      var i :| 0 <= i < |list| && list[i] == p;
      assert list[..n][i] == p;
      ListKeeps(list[..n], p);
    }
  }

  // ---- every run is sound ---------------------------------------------------------------------------

  lemma SeeIsSound(s: Stream)
    requires Sound(s) && s.pass.Pass? && s.pass.todo != []
    ensures Sound(OneSeen(s))
  {
    hide Seen;
    FirstOfDistinct(s.pass.todo);
  }

  lemma StepIsSound(s: Stream, e: Step)
    requires Sound(s)
    ensures Sound(Next(s, e)) && (s.ready ==> Next(s, e).ready)
  {
    hide Distinct, Tickets, Seen;
    if Enabled(s, e) {
      match e {
        case Replace(list) => FromListFiles(list);
        case Synchronize(list) => FromListFiles(list);
        case WriteOpen => FirstOfDistinct(s.rest);
        case See => SeeIsSound(s);
        case BeginPass(list) =>
        case _ =>
      }
    }
  }

  lemma {:induction false} RunIsSound(s: Stream, es: seq<Step>)
    requires Sound(s)
    ensures Sound(Onwards(s, es)) && (s.ready ==> Onwards(s, es).ready)
  {
    hide Sound, Next;
    if es != [] {
      RunIsSound(s, es[..|es|-1]);
      StepIsSound(Onwards(s, es[..|es|-1]), es[|es|-1]);
    }
  }

  // ---- steps in turn keep the journal right ------------------------------------------------------------

  lemma SeenTells(log: seq<Event>, book: Book, told: Book, p: Position)
    requires Filed(book) && Replay(log) == Some(Picture(told))
    requires (p.id in told <==> p.id in book) && (p.id in book ==> told[p.id] == book[p.id])
    ensures Replay(log + Seen(book, p)) == Some(Picture(told[p.id := p]))
    ensures Seen(book, p) == [] ==> Picture(told[p.id := p]) == Picture(told)
  {
    var seen := Seen(book, p);
    if seen == [] {
      assert log + seen == log;
      assert Picture(told[p.id := p]) == Picture(told);
    } else {
      ReplayMore(log, seen[0]);
      assert Picture(told[p.id := p]) == Picture(told)[p.id := LevelsOf(p)];
    }
  }

  lemma CloseTells(log: seq<Event>, told: Book, p: Position)
    requires Replay(log) == Some(Picture(told)) && p.id in told && told[p.id] == p
    ensures Replay(log + [Close(p)]) == Some(Picture(told - {p.id}))
  {
    ReplayMore(log, Close(p));
    assert Picture(told - {p.id}) == Picture(told) - {p.id};
  }

  lemma OpenStays(s: Stream)
    requires Sound(s) && s.ready && Behind(s) && s.rest != []
    ensures Behind(OneOpened(s))
  {
    var p, t := s.rest[0], OneOpened(s);
    FirstOfDistinct(s.rest);
    assert p in s.rest;
    ReplayMore(s.log, Open(p, true));
    hide Replay, Tickets, Distinct;
    assert Picture(Told(t)) == Picture(Told(s))[p.id := LevelsOf(p)];
  }

  /** Of a ticket no loop deals with, the journal tells what the worker holds. */
  lemma FreeIsTold(s: Stream, t: Ticket)
    requires Sound(s) && s.ready && t !in Dealt(s)
    ensures (t in Told(s) <==> t in s.positions) && (t in s.positions ==> Told(s)[t] == s.positions[t])
  {
    hide Tickets, Distinct, Filed;
  }

  lemma SeeTold(s: Stream)
    requires Sound(s) && s.ready && s.pass.Pass? && s.pass.todo != []
    ensures var p := s.pass.todo[0];
            && Told(OneSeen(s)) == (if Seen(s.positions, p) == [] then Told(s) else Told(s)[p.id := p])
            && p.id !in Dealt(s)
  {
    FirstOfDistinct(s.pass.todo);
    assert Tickets(s.rest) == {};
    hide Seen, Tickets, Distinct, Filed;
    var p := s.pass.todo[0];
    if Seen(s.positions, p) == [] {
      assert Ahead(OneSeen(s).pass) == Ahead(s.pass);
    } else {
      assert Ahead(OneSeen(s).pass) == Ahead(s.pass)[p.id := p];
    }
  }

  lemma SeeStaysOnTrack(s: Stream)
    requires Sound(s) && s.pass.Pass? && s.pass.todo != [] && OnTrack(s)
    ensures OnTrack(OneSeen(s))
  {
    FirstOfDistinct(s.pass.todo);
    hide Tickets, Distinct;
  }

  lemma SeeStays(s: Stream)
    requires Sound(s) && s.ready && s.pass.Pass? && s.pass.todo != []
    ensures Sound(OneSeen(s)) && (Behind(s) ==> Behind(OneSeen(s)))
  {
    SeeIsSound(s);
    if Behind(s) {
      SeeTold(s);
      FreeIsTold(s, s.pass.todo[0].id);
      SeeStaysOnTrack(s);
      hide Replay, Picture, OnTrack, Seen, Told;
      SeenTells(s.log, s.positions, Told(s), s.pass.todo[0]);
    }
  }

  lemma CloseStays(s: Stream, t: Ticket)
    requires Sound(s) && s.ready && s.pass.Pass? && s.pass.todo == []
    requires t in s.positions && t !in s.pass.current.Keys + s.pass.closed
    ensures Sound(OneClosed(s, t)) && (Behind(s) ==> Behind(OneClosed(s, t)))
  {
    hide Replay, Picture;
    if Behind(s) {
      CloseTells(s.log, Told(s), s.positions[t]);
      assert Told(OneClosed(s, t)) == Told(s) - {t};
    }
  }

  lemma UpdateTold(s: Stream, p: Position)
    requires Sound(s) && s.ready
    ensures Told(Updated(s, p)) == if p.id in Dealt(s) then Told(s) else Told(s)[p.id := p]
  {
    hide Seen, Tickets, Distinct, Filed;
    if s.pass.Pass? {
      UpdateToldInPass(s, p);
    }
  }

  lemma UpdateToldInPass(s: Stream, p: Position)
    requires Sound(s) && s.ready && s.pass.Pass?
    ensures Told(Updated(s, p)) == if p.id in Dealt(s) then Told(s) else Told(s)[p.id := p]
  {
    assert Tickets(s.rest) == {};
    hide Seen, Tickets, Distinct, Filed;
    var ahead := Ahead(s.pass);
    assert ahead.Keys == s.pass.told;
  }

  lemma UpdateStaysOnTrack(s: Stream, p: Position)
    requires Sound(s) && s.ready && OnTrack(s) && InTurn(s, Update(p))
    ensures OnTrack(Updated(s, p))
  {
    RestIsDealt(s);
    hide Tickets, Distinct;
  }

  lemma UpdateStays(s: Stream, p: Position)
    requires Sound(s) && s.ready && Behind(s) && InTurn(s, Update(p))
    ensures Behind(Updated(s, p))
  {
    UpdateTold(s, p);
    UpdateStaysOnTrack(s, p);
    hide Replay, Picture, OnTrack, Told, Dealt, Seen;
    if p.id in Dealt(s) {
      assert s.log + [] == s.log;
    } else {
      FreeIsTold(s, p.id);
      SeenTells(s.log, s.positions, Told(s), p);
    }
  }

  lemma RestIsDealt(s: Stream)
    ensures forall p :: p in s.rest ==> p.id in Dealt(s)
  {
    forall p | p in s.rest ensures p.id in Tickets(s.rest) {
      var i :| 0 <= i < |s.rest| && s.rest[i] == p;
    }
  }

  lemma VanishTold(s: Stream, t: Ticket)
    requires Sound(s) && s.ready && InTurn(s, Vanish(t))
    ensures Told(Gone(s, t)) == if t in s.positions then Told(s) - {t} else Told(s)
  {
    hide Tickets, Distinct, Filed;
  }

  lemma VanishStaysOnTrack(s: Stream, t: Ticket)
    requires Sound(s) && s.ready && OnTrack(s) && InTurn(s, Vanish(t))
    ensures OnTrack(Gone(s, t))
  {
    RestIsDealt(s);
    hide Tickets, Distinct;
  }

  lemma VanishStays(s: Stream, t: Ticket)
    requires Sound(s) && s.ready && Behind(s) && InTurn(s, Vanish(t))
    ensures Behind(Gone(s, t))
  {
    VanishTold(s, t);
    VanishStaysOnTrack(s, t);
    hide Replay, Picture, OnTrack, Told, Dealt;
    if t in s.positions {
      FreeIsTold(s, t);
      CloseTells(s.log, Told(s), s.positions[t]);
    }
  }

  lemma BeginStays(s: Stream, list: seq<Position>)
    requires Sound(s) && Quiet(s) && Distinct(list)
    ensures Sound(Begun(s, list)) && (Behind(s) ==> Behind(Begun(s, list)))
  {
    assert Tickets(s.rest) == {};
    assert Told(Begun(s, list)) == Told(s);
  }

  lemma EndStays(s: Stream)
    requires Sound(s) && s.ready && s.pass.Pass? && s.pass.todo == [] && EndsWell(s)
    requires s.positions.Keys <= s.pass.current.Keys + s.pass.closed
    ensures Sound(Ended(s)) && (Behind(s) ==> Behind(Ended(s)))
  {
    assert Tickets(s.rest) == {};
    assert Picture(Told(Ended(s))) == Picture(Told(s));
  }

  lemma SynchronizeStays(s: Stream, list: seq<Position>)
    requires Sound(s) && !s.ready && Behind(s) && Distinct(list) && s.positions.Keys <= Tickets(list)
    ensures Behind(Synchronized(s, list))
  {
    var t := Synchronized(s, list);
    FromListFiles(list);
    assert t.positions == FromList(list);
    assert Told(t) == Told(s);
    hide FromList, Tickets, Filed, Told, LevelsOf, Distinct;
    forall p | p in list ensures Held(t.positions, p) {
      ListKeeps(list, p);
    }
  }

  lemma StepStaysBehind(s: Stream, e: Step)
    requires Sound(s) && Behind(s) && (Enabled(s, e) ==> InTurn(s, e))
    ensures Behind(Next(s, e))
  {
    if Enabled(s, e) {
      if s.ready {
        ReadyStepStaysBehind(s, e);
      } else if e.Synchronize? {
        SynchronizeStays(s, e.list);
      }
    }
  }

  lemma ReadyStepStaysBehind(s: Stream, e: Step)
    requires Sound(s) && s.ready && Behind(s) && Enabled(s, e) && InTurn(s, e)
    ensures Behind(Next(s, e))
  {
    hide Behind, Sound, Seen, Dealt;
    match e {
      case Update(p) => UpdateStays(s, p);
      case Vanish(t) => VanishStays(s, t);
      case WriteOpen => OpenStays(s);
      case BeginPass(list) => BeginStays(s, list);
      case See => SeeStays(s);
      case CloseMissing(t) => CloseStays(s, t);
      case EndPass => EndStays(s);
    }
  }

  // ---- a step out of turn spoils it, for good ------------------------------------------------------------

  lemma WrittenOutOfTurn(s: Stream, t: Ticket, event: Event)
    requires Sound(s) && s.ready && Behind(s) && t in Dealt(s) && TicketOf(event) == t
    requires if t in s.positions then !event.Open? && Previous(event) == s.positions[t] else event.Open?
    ensures Replay(s.log + [event]).None?
  {
    ReplayMore(s.log, event);
    hide Replay, Distinct;
    if t in Tickets(s.rest) {
      var i :| 0 <= i < |s.rest| && s.rest[i].id == t;
      assert s.rest[i] in s.rest;
      assert t !in Picture(Told(s));
    } else if t in s.pass.closed {
      assert t !in Picture(Told(s));
    } else {
      assert Picture(Told(s))[t] == LevelsOf(s.pass.current[t]);
    }
  }

  /** What an event says was there. */
  function Previous(e: Event): Position {
    if e.Modify? then e.previous else e.position
  }

  lemma OutOfTurnSpoils(s: Stream, e: Step)
    requires Sound(s) && s.ready && Behind(s) && (e.Update? || e.Vanish?) && !InTurn(s, e)
    ensures Spoilt(Next(s, e))
  {
    hide Replay, Told;
    var t := if e.Update? then e.position.id else e.ticket;
    var event := if e.Vanish? then Close(s.positions[t]) else Seen(s.positions, e.position)[0];
    WrittenOutOfTurn(s, t, event);
    assert WrongFor(Next(s, e), t);
  }

  lemma UncoveredSpoils(s: Stream, list: seq<Position>)
    requires Sound(s) && !s.ready && Behind(s) && !(s.positions.Keys <= Tickets(list))
    ensures Spoilt(Synchronized(s, list))
  {
    FromListFiles(list);
    var t :| t in s.positions && t !in Tickets(list);
    hide Replay, Tickets;
    assert WrongFor(Synchronized(s, list), t);
  }

  lemma BadEndSpoils(s: Stream)
    requires Sound(s) && s.ready && Behind(s) && Enabled(s, EndPass) && !EndsWell(s)
    ensures Spoilt(Ended(s))
  {
    var t :| t in s.pass.current && t !in s.pass.told && !Same(s.positions, s.pass.current, t);
    assert Tickets(s.rest) == {};
    hide Replay, Tickets, Distinct;
    assert t in Told(s) <==> t in s.positions;
    assert t in s.positions ==> Told(s)[t] == s.positions[t];
    assert WrongFor(Ended(s), t);
  }

  lemma StepSpoils(s: Stream, e: Step)
    requires Sound(s) && Behind(s) && Enabled(s, e) && !InTurn(s, e)
    ensures Spoilt(Next(s, e))
  {
    match e {
      case Update(_) => OutOfTurnSpoils(s, e);
      case Vanish(_) => OutOfTurnSpoils(s, e);
      case Synchronize(list) => UncoveredSpoils(s, list);
      case EndPass => BadEndSpoils(s);
    }
  }

  lemma {:induction false} UnreadableStays(log: seq<Event>, more: seq<Event>)
    requires Replay(log).None?
    ensures Replay(log + more).None?
  {
    if more == [] {
      assert log + more == log;
    } else {
      var n := |more| - 1;
      UnreadableStays(log, more[..n]);
      assert log + more == (log + more[..n]) + [more[n]];
      ReplayMore(log + more[..n], more[n]);
    }
  }

  lemma LogGrows(s: Stream, e: Step)
    ensures s.log <= Next(s, e).log
  {
  }

  /** An event about a ticket the journal is wrong about cannot be replayed, and no other event puts it right. */
  lemma SeenStaysWrong(s: Stream, p: Position, t: Ticket)
    requires Filed(s.positions) && Replay(s.log).Some?
    requires Level(Replay(s.log).value, t) != Level(Picture(s.positions), t)
    ensures var later := Replay(s.log + Seen(s.positions, p));
            later.None? || (Level(later.value, t) == Level(Replay(s.log).value, t) &&
                            (p.id == t ==> Seen(s.positions, p) == []))
  {
    hide Replay;
    var seen := Seen(s.positions, p);
    if seen == [] {
      assert s.log + seen == s.log;
    } else {
      ReplayMore(s.log, seen[0]);
    }
  }

  lemma CloseStaysWrong(s: Stream, u: Ticket, t: Ticket)
    requires Filed(s.positions) && Replay(s.log).Some? && u in s.positions
    requires Level(Replay(s.log).value, t) != Level(Picture(s.positions), t)
    ensures var later := Replay(s.log + [Close(s.positions[u])]);
            later.None? || (Level(later.value, t) == Level(Replay(s.log).value, t) && u != t)
  {
    hide Replay;
    ReplayMore(s.log, Close(s.positions[u]));
  }

  lemma OpenStaysWrong(s: Stream, t: Ticket)
    requires Sound(s) && s.rest != [] && WrongFor(s, t) && Replay(s.log).Some?
    ensures WrongFor(OneOpened(s), t)
  {
    var p := s.rest[0];
    FirstOfDistinct(s.rest);
    ReplayMore(s.log, Open(p, true));
    hide Replay, Tickets, Distinct;
  }

  lemma StepStaysWrong(s: Stream, e: Step, t: Ticket)
    requires Sound(s) && s.ready && Enabled(s, e) && WrongFor(s, t) && Replay(s.log).Some?
    ensures WrongFor(Next(s, e), t)
  {
    hide Replay, Tickets, Distinct;
    match e {
      case Update(p) => SeenStaysWrong(s, p, t);
      case Vanish(u) => if u in s.positions { CloseStaysWrong(s, u, t); }
      case WriteOpen => OpenStaysWrong(s, t);
      case BeginPass(list) =>
      case See => SeenStaysWrong(s, s.pass.todo[0], t);
      case CloseMissing(u) => CloseStaysWrong(s, u, t);
      case EndPass =>
    }
  }

  lemma StepStaysSpoilt(s: Stream, e: Step)
    requires Sound(s) && Spoilt(s)
    ensures Spoilt(Next(s, e))
  {
    StepIsSound(s, e);
    var t :| WrongFor(s, t);
    if Replay(s.log).None? {
      LogGrows(s, e);
      var more := Next(s, e).log[|s.log|..];
      UnreadableStays(s.log, more);
      assert Next(s, e).log == s.log + more;
      assert WrongFor(Next(s, e), t);
    } else if Enabled(s, e) {
      StepStaysWrong(s, e, t);
    }
  }

  // ---- the journal over whole runs -----------------------------------------------------------------------

  lemma LastInTurn(s: Stream, es: seq<Step>)
    requires es != []
    ensures var earlier, e := es[..|es|-1], es[|es|-1];
            var t := Onwards(s, earlier);
            AllInTurn(s, es) <==> AllInTurn(s, earlier) && (Enabled(t, e) ==> InTurn(t, e))
  {
    hide Onwards, Enabled, InTurn;
    var n := |es| - 1;
    forall i | 0 <= i < n ensures es[..n][..i] == es[..i] && es[..n][i] == es[i] {}
  }

  /** From a stream whose journal tells what it should, any run in turn keeps it so, and any other run spoils the
      journal for good. */
  lemma {:induction false} BehindOrSpoilt(s: Stream, es: seq<Step>)
    requires Sound(s) && Behind(s)
    ensures if AllInTurn(s, es) then Behind(Onwards(s, es)) else Spoilt(Onwards(s, es))
  {
    hide Behind, Sound, Spoilt, Next, InTurn, AllInTurn;
    if es == [] {
      assert AllInTurn(s, es) by { NoneOutOfTurn(s); }
    } else {
      var n := |es| - 1;
      var t, e := Onwards(s, es[..n]), es[n];
      BehindOrSpoilt(s, es[..n]);
      RunIsSound(s, es[..n]);
      LastInTurn(s, es);
      if !AllInTurn(s, es[..n]) {
        StepStaysSpoilt(t, e);
      } else if Enabled(t, e) && !InTurn(t, e) {
        StepSpoils(t, e);
      } else {
        StepStaysBehind(t, e);
      }
    }
  }

  lemma NoneOutOfTurn(s: Stream)
    ensures AllInTurn(s, [])
  {
  }

  lemma BehindIsFaithful(s: Stream)
    requires Sound(s) && Quiet(s)
    ensures Behind(s) <==> Faithful(s)
  {
    assert Tickets(s.rest) == {};
    assert Told(s) == s.positions;
  }

  lemma SameLevels(a: map<Ticket, Levels>, b: map<Ticket, Levels>)
    requires forall t :: Level(a, t) == Level(b, t)
    ensures a == b
  {
    forall t ensures (t in a <==> t in b) && (t in a ==> a[t] == b[t]) {
      assert Level(a, t) == Level(b, t);
    }
  }

  lemma SpoiltIsNotFaithful(s: Stream)
    requires Sound(s) && Quiet(s)
    ensures Spoilt(s) <==> !Faithful(s)
  {
    assert Dealt(s) == {};
    hide Replay;
    if !Faithful(s) {
      if Replay(s.log).None? {
        assert WrongFor(s, "");
      } else {
        var told, held := Replay(s.log).value, Picture(s.positions);
        if forall u :: Level(told, u) == Level(held, u) { SameLevels(told, held); }
        var t :| Level(told, t) != Level(held, t);
        assert WrongFor(s, t);
      }
    }
  }

  /** Over any run of callbacks, the synchronisation with one OPEN at a time and reconcile passes with one event at a
      time: whenever no loop is writing, replaying the journal gives the worker's position map if and only if everything
      so far came in turn. */
  lemma JournalIsFaithful(es: seq<Step>)
    requires Quiet(After(es))
    ensures Faithful(After(es)) <==> AllInTurn(START, es)
  {
    RunIsSound(START, es);
    BehindOrSpoilt(START, es);
    BehindIsFaithful(After(es));
    SpoiltIsNotFaithful(After(es));
  }

  /** A faithful journal stays so exactly while everything comes in turn, and one that is not faithful never is
      again. */
  lemma FaithIsNotRegained(s: Stream, es: seq<Step>)
    requires Sound(s) && Quiet(s) && Quiet(Onwards(s, es))
    ensures Faithful(Onwards(s, es)) <==> Faithful(s) && AllInTurn(s, es)
  {
    hide Behind, Spoilt, Faithful, AllInTurn;
    RunIsSound(s, es);
    BehindIsFaithful(s);
    SpoiltIsNotFaithful(s);
    BehindIsFaithful(Onwards(s, es));
    SpoiltIsNotFaithful(Onwards(s, es));
    if Faithful(s) { BehindOrSpoilt(s, es); } else { RunStaysSpoilt(s, es); }
  }

  lemma {:induction false} RunStaysSpoilt(s: Stream, es: seq<Step>)
    requires Sound(s) && Spoilt(s)
    ensures Spoilt(Onwards(s, es))
  {
    hide Spoilt, Next, Sound;
    if es != [] {
      RunStaysSpoilt(s, es[..|es|-1]);
      RunIsSound(s, es[..|es|-1]);
      StepStaysSpoilt(Onwards(s, es[..|es|-1]), es[|es|-1]);
    }
  }

  /** A replacement of the whole list after the synchronisation writes nothing. After it, and after whatever follows,
      the journal is faithful exactly if it changed nothing of the picture and everything since came in turn. */
  lemma LateReplacementIsSilent(s: Stream, list: seq<Position>, es: seq<Step>)
    requires Sound(s) && Quiet(s) && Faithful(s) && Quiet(Onwards(Replaced(s, list), es))
    ensures Faithful(Onwards(Replaced(s, list), es)) <==>
              Picture(FromList(list)) == Picture(s.positions) && AllInTurn(Replaced(s, list), es)
  {
    hide AllInTurn;
    FromListFiles(list);
    FaithIsNotRegained(Replaced(s, list), es);
  }

  // ---- what is written, figure by figure ----------------------------------------------------------------

  /** After the synchronisation a callback about a position that is held writes a MODIFY, with the position before, if
      and only if its volume, stop loss or take-profit differs from what is held; any other position is an OPEN. */
  lemma CallbackWritesExactly(s: Stream, p: Position)
    requires s.ready
    ensures Updated(s, p).log == s.log +
              if p.id !in s.positions then [Open(p, false)]
              else if SameFigures(s.positions[p.id], p) then []
              else [Modify(p, s.positions[p.id])]
  {
    if p.id in s.positions { ChangedMeansOtherFigures(s.positions[p.id], p); }
  }

  /** And so does a reconcile pass that meets a position of its list. */
  lemma PassWritesExactly(s: Stream)
    requires s.pass.Pass? && s.pass.todo != []
    ensures var p := s.pass.todo[0];
            OneSeen(s).log == s.log +
              if p.id !in s.positions then [Open(p, false)]
              else if SameFigures(s.positions[p.id], p) then []
              else [Modify(p, s.positions[p.id])]
  {
    var p := s.pass.todo[0];
    if p.id in s.positions { ChangedMeansOtherFigures(s.positions[p.id], p); }
  }

  /** Whatever a step writes: only the synchronisation says of an OPEN that the position existed before, and every
      MODIFY and CLOSE carries the position that was held. */
  lemma EventsCarryWhatWasHeld(s: Stream, e: Step, x: Event)
    requires x in Next(s, e).log[|s.log|..]
    ensures |Next(s, e).log| <= |s.log| + 1 && s.log <= Next(s, e).log
    ensures x.Open? ==> (x.existing <==> e.WriteOpen?) && (!x.existing ==> x.position.id !in s.positions)
    ensures x.Modify? ==> x.position.id in s.positions && x.previous == s.positions[x.position.id]
    ensures x.Close? ==> exists t :: t in s.positions && x.position == s.positions[t]
  {
    hide Changed;
    if e.Vanish? && e.ticket in s.positions { assert x == Close(s.positions[e.ticket]); }
    if e.CloseMissing? && Enabled(s, e) { assert x == Close(s.positions[e.ticket]); }
  }

  /** The last word of the broker about a ticket, before and after the synchronisation, writing or not: an update
      files the position, a removal forgets it, and a list speaks of its own tickets (the one of the synchronisation
      leaves the others as they were). */
  lemma TheLastWordIsFiled(s: Stream, e: Step, t: Ticket)
    requires Enabled(s, e)
    ensures var before, after := s.positions, Next(s, e).positions;
            match e
            case Update(p) => t == p.id ==> t in after && after[t] == p
            case Vanish(u) => t == u ==> t !in after
            case Replace(list) => t in after <==> t in Tickets(list)
            case Synchronize(list) =>
              && (forall p :: p in list ==> p.id in after && after[p.id] == p)
              && (t !in Tickets(list) ==> (t in after <==> t in before))
            case _ => true
    ensures match e {
              case Update(p) => t != p.id
              case Vanish(u) => t != u
              case _ => e.WriteOpen? || e.BeginPass? || e.See? || e.CloseMissing?
            } ==>
              (t in Next(s, e).positions <==> t in s.positions)
              && (t in s.positions ==> Next(s, e).positions[t] == s.positions[t])
  {
    if e.Replace? { FromListFiles(e.list); }
    if e.Synchronize? {
      FromListFiles(e.list);
      forall p | p in e.list ensures p.id in FromList(e.list) && FromList(e.list)[p.id] == p { ListKeeps(e.list, p); }
    }
    hide Seen, FromList, Distinct, Tickets;
  }

  /** The last event of a ticket. */
  function LastOf(log: seq<Event>, t: Ticket): Option<Event> {
    if log == [] then None
    else if TicketOf(log[|log|-1]) == t then Some(log[|log|-1])
    else LastOf(log[..|log|-1], t)
  }

  lemma {:induction false} ReplayedIsLast(log: seq<Event>, t: Ticket)
    requires Replay(log).Some?
    ensures var book, last := Replay(log).value, LastOf(log, t);
            && (t in book <==> last.Some? && !last.value.Close?)
            && (t in book ==> book[t] == LevelsOf(last.value.position))
  {
    if log != [] { ReplayedIsLast(log[..|log|-1], t); }
  }

  /** Whenever no loop is writing and everything came in turn: the last event of each held ticket is an OPEN or MODIFY
      with the volume, stop loss and take-profit that are held, and that of any other ticket, if any, a CLOSE. */
  lemma LastEventIsWhatIsHeld(es: seq<Step>, t: Ticket)
    requires Quiet(After(es)) && AllInTurn(START, es)
    ensures var s := After(es);
            var last := LastOf(s.log, t);
            if t in s.positions then
              last.Some? && !last.value.Close? && SameFigures(last.value.position, s.positions[t])
            else last.Some? ==> last.value.Close?
  {
    JournalIsFaithful(es);
    var s := After(es);
    hide After, AllInTurn;
    ReplayedIsLast(s.log, t);
    if t in s.positions {
      assert Picture(s.positions)[t] == LevelsOf(s.positions[t]);
      ChangedMeansOtherFigures(LastOf(s.log, t).value.position, s.positions[t]);
    }
  }

  // ---- a pass that no callback interrupts -----------------------------------------------------------------

  ghost predicate Undisturbed(s: Stream, list: seq<Position>, i: nat)
    requires i <= |list|
  {
    && s.ready && s.rest == [] && s.pass.Pass? && EndsWell(s)
    && s.pass.todo == list[i..] && s.pass.current == FromList(list[..i])
  }

  lemma BegunIsUndisturbed(s: Stream, list: seq<Position>)
    requires Quiet(s)
    ensures Undisturbed(Begun(s, list), list, 0)
  {
  }

  lemma SeeIsUndisturbed(s: Stream, list: seq<Position>, i: nat)
    requires i < |list| && Undisturbed(s, list, i)
    ensures Undisturbed(OneSeen(s), list, i + 1)
  {
    assert list[..i+1][..i] == list[..i];
  }

  lemma CloseIsUndisturbed(s: Stream, list: seq<Position>, t: Ticket)
    requires Undisturbed(s, list, |list|) && t in s.positions
    ensures Undisturbed(OneClosed(s, t), list, |list|)
  {
  }

  // ---- the word of one ticket ----------------------------------------------------------------------

  datatype Word = Closed | Opened | Broken

  function TicketOf(e: Event): Ticket { e.position.id }

  /** Where (OPEN MODIFY* CLOSE)* stands after the events of one ticket. */
  function WordOf(log: seq<Event>, t: Ticket): Word {
    if log == [] then Closed
    else
      var w, e := WordOf(log[..|log|-1], t), log[|log|-1];
      if TicketOf(e) != t then w
      else match e
        case Open(_, _) => if w == Closed then Opened else Broken
        case Modify(_, _) => if w == Opened then Opened else Broken
        case Close(_) => if w == Opened then Closed else Broken
  }

  lemma {:induction false} ReplayableWords(log: seq<Event>, t: Ticket)
    requires Replay(log).Some?
    ensures WordOf(log, t) == if t in Replay(log).value then Opened else Closed
  {
    if log != [] { ReplayableWords(log[..|log|-1], t); }
  }

  /** The events of every ticket read OPEN, MODIFYs, CLOSE, over and over, and stand open exactly while the journal
      should tell of the position. */
  lemma TicketWords(es: seq<Step>, t: Ticket)
    requires AllInTurn(START, es)
    ensures WordOf(After(es).log, t) == if t in Told(After(es)) then Opened else Closed
  {
    BehindOrSpoilt(START, es);
    ReplayableWords(After(es).log, t);
  }
}
