// Self-copy of source positions (scripts/wsa-copy-worker.ts): the "first sight" filter that outlives the streams
// of a source, and the queue in which the MetaApi branch copies the events one at a time.

module SelfCopy {

  type Source = string
  type Ticket = string

  datatype Kind = Open | Modify | Close

  datatype Change = Change(source: Source, kind: Kind, ticket: Ticket)

  // ---- first sight --------------------------------------------------------------------------------

  /** What became of a change, and what else touched the memory of handled positions. */
  datatype Entry =
    | Handed(change: Change)     // to the copy engine
    | Skipped(change: Change)    // an OPEN that was handed over before
    | Dropped(source: Source)    // discovery dropped the running stream of a source nobody follows
    | Cleared                    // shutdown

  datatype Memory = Memory(handled: map<Source, set<Ticket>>, log: seq<Entry>)

  function HandledOf(m: Memory, source: Source): set<Ticket> {
    if source in m.handled then m.handled[source] else {}
  }

  function Reported(m: Memory, c: Change): Memory {
    match c.kind
    case Open =>
      if c.ticket in HandledOf(m, c.source) then m.(log := m.log + [Skipped(c)])
      else Memory(m.handled[c.source := HandledOf(m, c.source) + {c.ticket}], m.log + [Handed(c)])
    case Modify => m.(log := m.log + [Handed(c)])
    case Close =>
      Memory(if c.source in m.handled then m.handled[c.source := m.handled[c.source] - {c.ticket}] else m.handled,
             m.log + [Handed(c)])
  }

  function DroppedSource(m: Memory, source: Source): Memory {
    Memory(m.handled - {source}, m.log + [Dropped(source)])
  }

  class Dispatcher {
    var selfCopyHandled: map<Source, set<Ticket>>
    var log: seq<Entry>

    function Value(): Memory
      reads this
    {
      Memory(selfCopyHandled, log)
    }

    constructor ()
      ensures Value() == Memory(map[], [])
    {
      selfCopyHandled, log := map[], [];
    }

    method FirstSightOfPosition(source: Source, ticket: Ticket) returns (first: bool)
      modifies `selfCopyHandled
      ensures first <==> ticket !in HandledOf(old(Value()), source)
      ensures first ==> selfCopyHandled == old(selfCopyHandled)[source := HandledOf(old(Value()), source) + {ticket}]
      ensures !first ==> selfCopyHandled == old(selfCopyHandled)
    {
      if source !in selfCopyHandled { selfCopyHandled := selfCopyHandled[source := {}]; }
      if ticket in selfCopyHandled[source] {
        assert selfCopyHandled == old(selfCopyHandled);
        return false;
      }
      selfCopyHandled := selfCopyHandled[source := selfCopyHandled[source] + {ticket}];
      first := true;
    }

    /** One change of the loop in dispatchSelfCopyChanges, and the `dispatch` of the MetaApi branch. */
    method Report(c: Change)
      modifies this
      ensures Value() == Reported(old(Value()), c)
    {
      if c.kind == Open {
        var first := FirstSightOfPosition(c.source, c.ticket);
        if !first {
          log := log + [Skipped(c)];
          return;
        }
      }
      if c.kind == Close && c.source in selfCopyHandled {
        selfCopyHandled := selfCopyHandled[c.source := selfCopyHandled[c.source] - {c.ticket}];
      }
      log := log + [Handed(c)];
    }

    method DispatchChanges(changes: seq<Change>)
      modifies this
      ensures Value() == After(old(Value()), seq(|changes|, i requires 0 <= i < |changes| => Event.Report(changes[i])))
    {
      ghost var es := seq(|changes|, i requires 0 <= i < |changes| => Event.Report(changes[i]));
      for i := 0 to |changes|
        invariant Value() == After(old(Value()), es[..i])
      {
        Report(changes[i]);
        assert es[..i+1][..i] == es[..i];
      }
      assert es[..|changes|] == es;
    }

    method DropSource(source: Source)
      modifies this
      ensures Value() == DroppedSource(old(Value()), source)
    {
      selfCopyHandled := selfCopyHandled - {source};
      log := log + [Dropped(source)];
    }
  }

  // Streams of a source may close and open again at any time between these events, and each new one reports
  // every open position once more: any sequence of changes is a run.
  datatype Event = Report(change: Change) | Drop(source: Source) | Clear

  function Next(m: Memory, e: Event): Memory {
    match e
    case Report(c) => Reported(m, c)
    case Drop(source) => DroppedSource(m, source)
    case Clear => Memory(map[], m.log + [Cleared])
  }

  function After(start: Memory, es: seq<Event>): Memory {
    if es == [] then start else Next(After(start, es[..|es|-1]), es[|es|-1])
  }

  /** An entry after which an OPEN of the ticket is news again. */
  predicate Forgets(e: Entry, source: Source, t: Ticket) {
    e == Handed(Change(source, Close, t)) || e == Dropped(source) || e == Cleared
  }

  predicate IsOpen(e: Entry, source: Source, t: Ticket) {
    e == Handed(Change(source, Open, t))
  }

  /** The last entry about the ticket that matters is an OPEN handed to the engine. */
  predicate Remembered(log: seq<Entry>, source: Source, t: Ticket) {
    log != [] &&
    var earlier, last := log[..|log|-1], log[|log|-1];
    if IsOpen(last, source, t) then true
    else if Forgets(last, source, t) then false
    else Remembered(earlier, source, t)
  }

  lemma RememberedMore(log: seq<Entry>, x: Entry, source: Source, t: Ticket)
    ensures Remembered(log + [x], source, t) <==>
              IsOpen(x, source, t) || (!Forgets(x, source, t) && Remembered(log, source, t))
  {
    assert (log + [x])[..|log|] == log;
  }

  function EntryOf(m: Memory, e: Event): Entry {
    match e
    case Report(c) => if c.kind == Open && c.ticket in HandledOf(m, c.source) then Skipped(c) else Handed(c)
    case Drop(source) => Dropped(source)
    case Clear => Cleared
  }

  lemma StepWritesOne(m: Memory, e: Event)
    ensures Next(m, e).log == m.log + [EntryOf(m, e)]
  {
  }

  lemma StepRemembers(m: Memory, e: Event, source: Source, t: Ticket)
    ensures t in HandledOf(Next(m, e), source) <==>
              IsOpen(EntryOf(m, e), source, t) || (!Forgets(EntryOf(m, e), source, t) && t in HandledOf(m, source))
  {
  }

  /** Exactly the tickets whose OPEN was handed over and not undone since are remembered. */
  lemma {:induction false} MemoryIsTheLog(es: seq<Event>, source: Source, t: Ticket)
    ensures var m := After(Memory(map[], []), es);
            t in HandledOf(m, source) <==> Remembered(m.log, source, t)
  {
    hide Next, EntryOf, IsOpen, Forgets;
    if es != [] {
      var m, e := After(Memory(map[], []), es[..|es|-1]), es[|es|-1];
      MemoryIsTheLog(es[..|es|-1], source, t);
      StepWritesOne(m, e);
      StepRemembers(m, e, source, t);
      RememberedMore(m.log, EntryOf(m, e), source, t);
    }
  }

  /** After an OPEN the ticket stays remembered as long as nothing forgets it. */
  lemma {:induction false} StaysRemembered(log: seq<Entry>, source: Source, t: Ticket, i: nat)
    requires i < |log| && IsOpen(log[i], source, t)
    requires forall k :: i < k < |log| ==> !Forgets(log[k], source, t)
    ensures Remembered(log, source, t)
  {
    if i < |log| - 1 {
      assert log[..|log|-1][i] == log[i];
      StaysRemembered(log[..|log|-1], source, t, i);
    }
  }

  /** Every entry of the log was written by one event, looking at what came before. */
  lemma {:induction false} EntryIsJustified(es: seq<Event>, source: Source, t: Ticket, j: nat)
    requires j < |After(Memory(map[], []), es).log|
    ensures var log := After(Memory(map[], []), es).log;
            && (IsOpen(log[j], source, t) ==> !Remembered(log[..j], source, t))
            && (log[j] == Skipped(Change(source, Open, t)) ==> Remembered(log[..j], source, t))
  {
    if es != [] {
      var m, after := After(Memory(map[], []), es[..|es|-1]), After(Memory(map[], []), es);
      MemoryIsTheLog(es[..|es|-1], source, t);
      assert after.log[..|m.log|] == m.log && |after.log| == |m.log| + 1;
      if j < |m.log| {
        EntryIsJustified(es[..|es|-1], source, t, j);
        assert after.log[..j] == m.log[..j];
      }
    }
  }

  /** Between two OPENs of one ticket handed to the engine there is always a CLOSE of it, or its source was dropped:
      no number of reopened streams copies a position twice. */
  lemma OpenIsCopiedOnce(es: seq<Event>, source: Source, t: Ticket, i: nat, j: nat)
    requires i < j < |After(Memory(map[], []), es).log|
    requires IsOpen(After(Memory(map[], []), es).log[i], source, t)
    requires IsOpen(After(Memory(map[], []), es).log[j], source, t)
    ensures exists k :: i < k < j && Forgets(After(Memory(map[], []), es).log[k], source, t)
  {
    var log := After(Memory(map[], []), es).log;
    EntryIsJustified(es, source, t, j);
    if forall k :: i < k < j ==> !Forgets(log[k], source, t) {
      assert log[..j][i] == log[i];
      StaysRemembered(log[..j], source, t, i);
    }
  }

  /** And no OPEN is lost: one is passed over only if the same OPEN was handed over before and nothing undid it. */
  lemma {:induction false} SkippedWasHandedBefore(es: seq<Event>, source: Source, t: Ticket, j: nat)
    requires j < |After(Memory(map[], []), es).log|
    requires After(Memory(map[], []), es).log[j] == Skipped(Change(source, Open, t))
    ensures exists i :: 0 <= i < j && IsOpen(After(Memory(map[], []), es).log[i], source, t)
              && forall k :: i < k < j ==> !Forgets(After(Memory(map[], []), es).log[k], source, t)
  {
    var log := After(Memory(map[], []), es).log;
    EntryIsJustified(es, source, t, j);
    var i := LastOpen(log[..j], source, t);
    assert log[i] == log[..j][i];
    forall k | i < k < j ensures !Forgets(log[k], source, t) { assert log[k] == log[..j][k]; }
  }

  lemma {:induction false} LastOpen(log: seq<Entry>, source: Source, t: Ticket) returns (i: nat)
    requires Remembered(log, source, t)
    ensures i < |log| && IsOpen(log[i], source, t) && forall k :: i < k < |log| ==> !Forgets(log[k], source, t)
  {
    var n := |log| - 1;
    if IsOpen(log[n], source, t) {
      i := n;
    } else {
      i := LastOpen(log[..n], source, t);
      forall k | i < k < |log| ensures !Forgets(log[k], source, t) {
        if k < n { assert log[k] == log[..n][k]; }
      }
    }
  }

  /** Every change that is reported is handed over or passed over, in the order of the reports, and passed over is
      exactly an OPEN that was handed over before and not undone since. */
  lemma {:induction false} EveryReportIsLogged(es: seq<Event>, i: nat)
    requires i < |es|
    ensures var log := After(Memory(map[], []), es).log;
            && |log| == |es|
            && match es[i]
               case Report(c) =>
                 if c.kind == Open && Remembered(log[..i], c.source, c.ticket) then log[i] == Skipped(c)
                 else log[i] == Handed(c)
               case Drop(source) => log[i] == Dropped(source)
               case Clear => log[i] == Cleared
  {
    hide Next, Remembered;
    var n := |es| - 1;
    var m := After(Memory(map[], []), es[..n]);
    LogIsAsLong(es[..n]);
    StepWritesOne(m, es[n]);
    var log := After(Memory(map[], []), es).log;
    assert log == m.log + [EntryOf(m, es[n])];
    if i < n {
      EveryReportIsLogged(es[..n], i);
      assert es[..n][i] == es[i] && log[..i] == m.log[..i] && log[i] == m.log[i];
    } else {
      assert log[..n] == m.log;
      if es[n].Report? { MemoryIsTheLog(es[..n], es[n].change.source, es[n].change.ticket); }
    }
  }

  lemma {:induction false} LogIsAsLong(es: seq<Event>)
    ensures |After(Memory(map[], []), es).log| == |es|
  {
    hide Next;
    if es != [] {
      LogIsAsLong(es[..|es|-1]);
      StepWritesOne(After(Memory(map[], []), es[..|es|-1]), es[|es|-1]);
    }
  }

  // ---- one event: at most three attempts -----------------------------------------------------------

  const RETRIES: nat := 2   // SELF_COPY_RETRY_DELAYS_MS.length

  /** What an attempt meets: no route of the source any more, the engine done, or the engine throwing. */
  datatype Attempt = NoRoutes | Done | Throws

  /** How many attempts are made when `answers` is what they would meet, and whether the last one failed for good. */
  method CopyEvent(answers: seq<Attempt>) returns (attempts: nat, gaveUp: bool)
    requires |answers| > RETRIES
    ensures 1 <= attempts <= RETRIES + 1
    ensures forall i :: 0 <= i < attempts - 1 ==> answers[i] == Throws
    ensures gaveUp <==> attempts == RETRIES + 1 && answers[RETRIES] == Throws
    ensures !gaveUp ==> answers[attempts - 1] != Throws
  {
    attempts := 0;
    while true
      invariant attempts <= RETRIES
      invariant forall i :: 0 <= i < attempts ==> answers[i] == Throws
      decreases RETRIES - attempts
    {
      var answer := answers[attempts];
      attempts := attempts + 1;
      if answer != Throws { return attempts, false; }
      if attempts - 1 >= RETRIES { return attempts, true; }
    }
  }

  // ---- the queue ------------------------------------------------------------------------------------

  /** One link of the chain of promises: its job has not begun, has begun and failed `tried` times, or is over. A job
      that fails for good settles its link like any other, because the failure is caught in the chain. */
  datatype Link = Waiting | Running(tried: nat) | Settled

  /** An execution of the engine: which event, which attempt. */
  datatype Run = Run(event: nat, attempt: nat)

  datatype Queue = Queue(dispatched: seq<Change>, links: seq<Link>, ran: seq<Run>)

  const EMPTY: Queue := Queue([], [], [])

  datatype Step = Enqueue(change: Change) | Begin(event: nat) | Try(event: nat, answer: Attempt)

  /** A job begins once the link it was chained behind is settled. */
  predicate Possible(q: Queue, s: Step) {
    match s
    case Enqueue(_) => true
    case Begin(i) => i < |q.links| && q.links[i] == Waiting && (i == 0 || q.links[i-1] == Settled)
    case Try(i, _) => i < |q.links| && q.links[i].Running?
  }

  function Proceed(q: Queue, s: Step): Queue {
    if !Possible(q, s) then q
    else match s
      case Enqueue(c) => q.(dispatched := q.dispatched + [c], links := q.links + [Waiting])
      case Begin(i) => q.(links := q.links[i := Running(0)])
      case Try(i, answer) =>
        var tried := q.links[i].tried;
        if answer == NoRoutes then q.(links := q.links[i := Settled])
        else
          var next := if answer == Throws && tried < RETRIES then Running(tried + 1) else Settled;
          q.(links := q.links[i := next], ran := q.ran + [Run(i, tried)])
  }

  function Proceeded(q: Queue, steps: seq<Step>): Queue {
    if steps == [] then q else Proceed(Proceeded(q, steps[..|steps|-1]), steps[|steps|-1])
  }

  predicate Before(a: Run, b: Run) {
    a.event < b.event || (a.event == b.event && a.attempt < b.attempt)
  }

  /** Whatever has begun has only settled links before it, so no two jobs are ever under way together. */
  ghost predicate OneAtATime(links: seq<Link>) {
    && (forall i, j :: 0 <= i < j < |links| && links[j] != Waiting ==> links[i] == Settled)
    && (forall i :: 0 <= i < |links| && links[i].Running? ==> links[i].tried <= RETRIES)
  }

  /** Every execution belongs to a job that has begun, and comes before what its job would execute next. */
  ghost predicate Begun(links: seq<Link>, ran: seq<Run>) {
    forall r :: 0 <= r < |ran| ==>
      && ran[r].event < |links| && links[ran[r].event] != Waiting && ran[r].attempt <= RETRIES
      && (links[ran[r].event].Running? ==> ran[r].attempt < links[ran[r].event].tried)
  }

  /** Executions are in the order of dispatch, and the attempts of one event stand together. */
  ghost predicate RanInOrder(ran: seq<Run>) {
    && (forall r, t :: 0 <= r < t < |ran| ==> Before(ran[r], ran[t]))
    && (forall r :: 0 <= r < |ran| && ran[r].attempt > 0 ==> r > 0 && ran[r-1] == Run(ran[r].event, ran[r].attempt - 1))
  }

  ghost predicate LastTried(links: seq<Link>, ran: seq<Run>) {
    forall i :: 0 <= i < |links| && links[i].Running? && links[i].tried > 0 ==>
      ran != [] && ran[|ran|-1] == Run(i, links[i].tried - 1)
  }

  ghost predicate InOrder(q: Queue) {
    && |q.links| == |q.dispatched|
    && OneAtATime(q.links) && Begun(q.links, q.ran) && RanInOrder(q.ran) && LastTried(q.links, q.ran)
  }

  /** However the jobs come to be scheduled: at most one is under way at any time, events are executed in the order they
      were dispatched, each at most three times, and the attempts of one event stand together. */
  lemma {:induction false} QueueIsInOrder(steps: seq<Step>)
    ensures InOrder(Proceeded(EMPTY, steps))
    ensures var links := Proceeded(EMPTY, steps).links;
            forall i, j :: 0 <= i < |links| && 0 <= j < |links| && links[i].Running? && links[j].Running? ==> i == j
  {
    OneIsRunning(Proceeded(EMPTY, steps).links);
    hide OneAtATime, Proceed;
    if steps == [] {
      StartInOrder();
    } else {
      QueueIsInOrder(steps[..|steps|-1]);
      StepKeepsOrder(Proceeded(EMPTY, steps[..|steps|-1]), steps[|steps|-1]);
    }
  }

  lemma StartInOrder()
    ensures InOrder(EMPTY)
  {
  }

  lemma OneIsRunning(links: seq<Link>)
    ensures OneAtATime(links) ==>
              forall i, j :: 0 <= i < |links| && 0 <= j < |links| && links[i].Running? && links[j].Running? ==> i == j
  {
  }

  lemma StepKeepsOrder(q: Queue, s: Step)
    requires InOrder(q)
    ensures InOrder(Proceed(q, s))
  {
    hide OneAtATime, Begun, RanInOrder, LastTried;
    if Possible(q, s) {
      match s {
        case Enqueue(_) => EnqueueKeepsOrder(q.links, q.ran);
        case Begin(i) => BeginKeepsOrder(q.links, q.ran, i);
        case Try(i, answer) => TryKeepsOrder(q, i, answer);
      }
    }
  }

  lemma EnqueueKeepsOrder(links: seq<Link>, ran: seq<Run>)
    requires OneAtATime(links) && Begun(links, ran) && LastTried(links, ran)
    ensures OneAtATime(links + [Waiting]) && Begun(links + [Waiting], ran) && LastTried(links + [Waiting], ran)
  {
  }

  lemma BeginKeepsOrder(links: seq<Link>, ran: seq<Run>, i: nat)
    requires OneAtATime(links) && Begun(links, ran) && LastTried(links, ran)
    requires i < |links| && links[i] == Waiting && (i == 0 || links[i-1] == Settled)
    ensures var next := links[i := Running(0)]; OneAtATime(next) && Begun(next, ran) && LastTried(next, ran)
  {
    var next := links[i := Running(0)];
    forall a, b | 0 <= a < b < |next| && next[b] != Waiting ensures next[a] == Settled {
      if b == i && a < i - 1 { assert links[i-1] != Waiting; }
    }
  }

  lemma TryKeepsOrder(q: Queue, i: nat, answer: Attempt)
    requires InOrder(q) && Possible(q, Try(i, answer))
    ensures InOrder(Proceed(q, Try(i, answer)))
  {
    var t := Proceed(q, Try(i, answer));
    TryKeepsLinks(q.links, i, t.links[i]);
    if answer == NoRoutes {
      hide RanInOrder, OneAtATime;
    } else {
      TryKeepsRuns(q, i, t.links[i]);
    }
  }

  lemma TryKeepsLinks(links: seq<Link>, i: nat, next: Link)
    requires OneAtATime(links) && i < |links| && links[i].Running?
    requires next == Settled || (next.Running? && next.tried <= RETRIES)
    ensures OneAtATime(links[i := next])
  {
    var after := links[i := next];
    forall a, b | 0 <= a < b < |after| && after[b] != Waiting ensures after[a] == Settled {
      assert links[b] != Waiting;
    }
  }

  lemma TryKeepsRuns(q: Queue, i: nat, next: Link)
    requires InOrder(q) && i < |q.links| && q.links[i].Running?
    requires next == Settled || next == Running(q.links[i].tried + 1)
    ensures var links, ran := q.links[i := next], q.ran + [Run(i, q.links[i].tried)];
            Begun(links, ran) && RanInOrder(ran) && LastTried(links, ran)
  {
    var link := q.links[i];
    forall r | 0 <= r < |q.ran| ensures Before(q.ran[r], Run(i, q.links[i].tried)) {
      assert q.ran[r].event > i ==> link == Settled;
    }
    forall k | 0 <= k < |q.links| && k != i ensures !q.links[k].Running? {
      var other := q.links[k];
      assert k < i ==> other == Settled;
      assert k > i && other.Running? ==> link == Settled;
    }
  }

  /** What an attempt decides: an engine that throws the first or second time is tried again, anything else settles the
      event; where there is no route any more the engine is not asked. */
  lemma AttemptDecides(q: Queue, i: nat, answer: Attempt)
    requires Possible(q, Try(i, answer))
    ensures var t, tried := Proceed(q, Try(i, answer)), q.links[i].tried;
            && t.links == q.links[i := if answer == Throws && tried < 2 then Running(tried + 1) else Settled]
            && t.ran == q.ran + (if answer == NoRoutes then [] else [Run(i, tried)])
            && t.dispatched == q.dispatched
  {
  }

  /** Steps that are left at most: a job begins and makes up to three attempts. */
  function Work(links: seq<Link>): nat {
    if links == [] then 0 else Work(links[..|links|-1]) + WorkOf(links[|links|-1])
  }

  function WorkOf(l: Link): nat {
    match l
    case Waiting => RETRIES + 2
    case Running(tried) => if tried <= RETRIES then RETRIES + 1 - tried else 1
    case Settled => 0
  }

  lemma {:induction false} LessWork(links: seq<Link>, i: nat, l: Link)
    requires i < |links|
    ensures Work(links[i := l]) == Work(links) - WorkOf(links[i]) + WorkOf(l)
  {
    var n := |links| - 1;
    if i == n {
      assert links[i := l][..n] == links[..n];
    } else {
      assert links[i := l][..n] == links[..n][i := l];
      LessWork(links[..n], i, l);
    }
  }

  lemma {:induction false} WorkIsBounded(links: seq<Link>)
    ensures Work(links) <= |links| * (RETRIES + 2)
  {
    if links != [] { WorkIsBounded(links[..|links|-1]); }
  }

  /** A failing event never blocks the ones behind it: as long as an event is not settled some step is possible, and
      every step leaves less to do, whatever the attempts meet, so after at most four steps for each event all are
      settled. */
  lemma FailuresNeverBlock(q: Queue)
    requires InOrder(q) && exists i :: 0 <= i < |q.links| && q.links[i] != Settled
    ensures exists s :: Possible(q, s) && !s.Enqueue?
    ensures forall s :: Possible(q, s) && !s.Enqueue? ==> Work(Proceed(q, s).links) < Work(q.links)
    ensures Work(q.links) <= |q.links| * (RETRIES + 2)
  {
    WorkIsBounded(q.links);
    var i := FirstUnsettled(q);
    assert Possible(q, if q.links[i] == Waiting then Begin(i) else Try(i, Done));
    hide Work, InOrder;
    forall s | Possible(q, s) && !s.Enqueue? ensures Work(Proceed(q, s).links) < Work(q.links) { StepWorks(q, s); }
  }

  lemma StepWorks(q: Queue, s: Step)
    requires Possible(q, s) && !s.Enqueue?
    ensures Work(Proceed(q, s).links) < Work(q.links)
  {
    hide Work;
    var next := Proceed(q, s).links[s.event];
    LessWork(q.links, s.event, next);
    assert Proceed(q, s).links == q.links[s.event := next];
  }

  lemma FirstUnsettled(q: Queue) returns (i: nat)
    requires exists i :: 0 <= i < |q.links| && q.links[i] != Settled
    ensures i < |q.links| && q.links[i] != Settled && (i > 0 ==> q.links[i-1] == Settled)
  {
    i := 0;
    while q.links[i] == Settled
      invariant i < |q.links| && (i > 0 ==> q.links[i-1] == Settled)
      invariant exists j :: i <= j < |q.links| && q.links[j] != Settled
      decreases |q.links| - i
    {
      i := i + 1;
    }
  }

  /** Events are only ever added behind, so what was dispatched keeps its place, and nothing that ran is undone. */
  lemma {:induction false} DispatchOrderIsKept(q: Queue, steps: seq<Step>)
    ensures q.dispatched <= Proceeded(q, steps).dispatched && q.ran <= Proceeded(q, steps).ran
  {
    if steps != [] { DispatchOrderIsKept(q, steps[..|steps|-1]); }
  }

  // ---- two queues of one source ----------------------------------------------------------------------

  /** An event of the stream that failed, or of the one opened in its place. */
  datatype Ref = Ref(newer: bool, event: nat)

  /** The source opens again while the old stream may still be at work: `live` says that it still takes callbacks.
      `dispatched` and `ran` are the events of both in the order they were dispatched and executed. */
  datatype Reopened = Reopened(prior: Queue, newer: Queue, live: bool, dispatched: seq<Ref>, ran: seq<Ref>)

  function Refs(newer: bool, n: nat): seq<Ref> {
    seq(n, i requires 0 <= i < n => Ref(newer, i))
  }

  function RefsOf(newer: bool, ran: seq<Run>): seq<Ref> {
    seq(|ran|, i requires 0 <= i < |ran| => Ref(newer, ran[i].event))
  }

  function Reopen(prior: Queue, live: bool): Reopened {
    Reopened(prior, EMPTY, live, Refs(false, |prior.links|), RefsOf(false, prior.ran))
  }

  datatype Move = OfPrior(step: Step) | OfNewer(step: Step) | Shut

  function Dispatches(newer: bool, q: Queue, s: Step): seq<Ref> {
    if s.Enqueue? then [Ref(newer, |q.links|)] else []
  }

  function Executes(newer: bool, q: Queue, s: Step): seq<Ref> {
    if s.Try? && Possible(q, s) && s.answer != NoRoutes then [Ref(newer, s.event)] else []
  }

  function Moved(r: Reopened, m: Move): Reopened {
    match m
    case OfPrior(s) =>
      if s.Enqueue? && !r.live then r
      else Reopened(Proceed(r.prior, s), r.newer, r.live,
                    r.dispatched + Dispatches(false, r.prior, s), r.ran + Executes(false, r.prior, s))
    case OfNewer(s) =>
      Reopened(r.prior, Proceed(r.newer, s), r.live,
               r.dispatched + Dispatches(true, r.newer, s), r.ran + Executes(true, r.newer, s))
    case Shut => r.(live := false)
  }

  function MovedOn(r: Reopened, moves: seq<Move>): Reopened {
    if moves == [] then r else Moved(MovedOn(r, moves[..|moves|-1]), moves[|moves|-1])
  }

  /** No event is executed after one that was dispatched later. */
  ghost predicate InDispatchOrder(r: Reopened) {
    forall a, b, i, j ::
      && 0 <= a < b < |r.ran| && 0 <= i < |r.dispatched| && 0 <= j < |r.dispatched|
      && r.dispatched[i] == r.ran[a] && r.dispatched[j] == r.ran[b] ==>
        i <= j
  }

  predicate AllSettled(links: seq<Link>) {
    forall i :: 0 <= i < |links| ==> links[i] == Settled
  }

  /** The old stream has done all its work, and only the new one goes on. */
  ghost predicate OnlyNewer(r: Reopened, prior: Queue) {
    && r.prior == prior && !r.live && InOrder(r.newer)
    && r.dispatched == Refs(false, |prior.links|) + Refs(true, |r.newer.links|)
    && r.ran == RefsOf(false, prior.ran) + RefsOf(true, r.newer.ran)
  }

  lemma SettledStays(q: Queue, s: Step)
    requires AllSettled(q.links) && !s.Enqueue?
    ensures Proceed(q, s) == q
  {
  }

  lemma MoveStaysNewer(r: Reopened, prior: Queue, m: Move)
    requires AllSettled(prior.links) && OnlyNewer(r, prior)
    ensures OnlyNewer(Moved(r, m), prior)
  {
    hide InOrder;
    var t := Moved(r, m);
    match m {
      case OfPrior(s) => if !s.Enqueue? { SettledStays(prior, s); }
      case OfNewer(s) =>
        StepKeepsOrder(r.newer, s);
        assert t.dispatched == Refs(false, |prior.links|) + Refs(true, |t.newer.links|);
        assert t.ran == RefsOf(false, prior.ran) + RefsOf(true, t.newer.ran);
      case Shut =>
    }
  }

  lemma StartIsNewer(prior: Queue)
    ensures OnlyNewer(Reopen(prior, false), prior)
  {
    StartInOrder();
    hide InOrder;
    assert Refs(false, |prior.links|) + Refs(true, 0) == Refs(false, |prior.links|);
    assert RefsOf(false, prior.ran) + RefsOf(true, []) == RefsOf(false, prior.ran);
  }

  lemma {:induction false} MovesStayNewer(prior: Queue, moves: seq<Move>)
    requires AllSettled(prior.links)
    ensures OnlyNewer(MovedOn(Reopen(prior, false), moves), prior)
  {
    hide Moved, OnlyNewer, Reopen, AllSettled;
    if moves == [] {
      StartIsNewer(prior);
    } else {
      MovesStayNewer(prior, moves[..|moves|-1]);
      MoveStaysNewer(MovedOn(Reopen(prior, false), moves[..|moves|-1]), prior, moves[|moves|-1]);
    }
  }

  lemma NewerIsInDispatchOrder(r: Reopened, prior: Queue)
    requires OnlyNewer(r, prior) && InOrder(prior)
    ensures InDispatchOrder(r)
  {
    forall a, b, i, j |
      && 0 <= a < b < |r.ran| && 0 <= i < |r.dispatched| && 0 <= j < |r.dispatched|
      && r.dispatched[i] == r.ran[a] && r.dispatched[j] == r.ran[b]
      ensures i <= j
    {
      var n := |prior.ran|;
      if b < n { assert Before(prior.ran[a], prior.ran[b]); }
      if a >= n { assert Before(r.newer.ran[a-n], r.newer.ran[b-n]); }
    }
  }

  /** The new stream reports an event and executes it at once. */
  function Overtakes(c: Change): seq<Move> {
    [OfNewer(Enqueue(c)), OfNewer(Begin(0)), OfNewer(Try(0, Done))]
  }

  lemma OneMoveMore(r: Reopened, moves: seq<Move>, m: Move)
    ensures MovedOn(r, moves + [m]) == Moved(MovedOn(r, moves), m)
  {
    assert (moves + [m])[..|moves|] == moves;
  }

  lemma NewerIsEnqueued(r: Reopened, c: Change)
    requires r.newer == EMPTY
    ensures Moved(r, OfNewer(Enqueue(c)))
         == r.(newer := Queue([c], [Waiting], []), dispatched := r.dispatched + [Ref(true, 0)])
  {
    assert r.ran + Executes(true, r.newer, Enqueue(c)) == r.ran;
  }

  lemma NewerIsBegun(r: Reopened, c: Change)
    requires r.newer == Queue([c], [Waiting], [])
    ensures Moved(r, OfNewer(Begin(0))) == r.(newer := Queue([c], [Running(0)], []))
  {
    assert r.ran + Executes(true, r.newer, Begin(0)) == r.ran;
    assert r.dispatched + Dispatches(true, r.newer, Begin(0)) == r.dispatched;
  }

  lemma NewerIsDone(r: Reopened, c: Change)
    requires r.newer == Queue([c], [Running(0)], [])
    ensures Moved(r, OfNewer(Try(0, Done)))
         == r.(newer := Queue([c], [Settled], [Run(0, 0)]), ran := r.ran + [Ref(true, 0)])
  {
    assert r.dispatched + Dispatches(true, r.newer, Try(0, Done)) == r.dispatched;
  }

  lemma ThreeMoves(r: Reopened, c: Change)
    ensures MovedOn(r, Overtakes(c))
         == Moved(Moved(Moved(r, OfNewer(Enqueue(c))), OfNewer(Begin(0))), OfNewer(Try(0, Done)))
  {
    var a, b, d := OfNewer(Enqueue(c)), OfNewer(Begin(0)), OfNewer(Try(0, Done));
    NoMoves(r);
    OneMoveMore(r, [], a);
    OneMoveMore(r, [a], b);
    OneMoveMore(r, [a, b], d);
    hide MovedOn, Moved;
    assert [] + [a] == [a] && [a] + [b] == [a, b] && [a, b] + [d] == Overtakes(c);
  }

  lemma Overtaken(prior: Queue, live: bool, c: Change)
    ensures MovedOn(Reopen(prior, live), Overtakes(c))
         == Reopened(prior, Queue([c], [Settled], [Run(0, 0)]), live,
                     Refs(false, |prior.links|) + [Ref(true, 0)], RefsOf(false, prior.ran) + [Ref(true, 0)])
  {
    hide MovedOn, Moved, Refs, RefsOf;
    var r := Reopen(prior, live);
    ThreeMoves(r, c);
    NewerIsEnqueued(r, c);
    var s := Moved(r, OfNewer(Enqueue(c)));
    NewerIsBegun(s, c);
    NewerIsDone(Moved(s, OfNewer(Begin(0))), c);
  }

  lemma NoMoves(r: Reopened)
    ensures MovedOn(r, []) == r
  {
  }

  /** An old event that is not settled and has none such before it can be executed next. */
  lemma ExecutedNext(r: Reopened, i: nat) returns (moves: seq<Move>)
    requires i < |r.prior.links| && r.prior.links[i] != Settled && (i > 0 ==> r.prior.links[i-1] == Settled)
    ensures MovedOn(r, moves).ran == r.ran + [Ref(false, i)] && MovedOn(r, moves).dispatched == r.dispatched
  {
    var begin, attempt := OfPrior(Begin(i)), OfPrior(Try(i, Done));
    NoMoves(r);
    var empty: seq<Ref> := [];
    assert r.ran + empty == r.ran && r.dispatched + empty == r.dispatched;
    if r.prior.links[i] == Waiting {
      OneMoveMore(r, [], begin);
      OneMoveMore(r, [begin], attempt);
      assert [] + [begin] == [begin];
      hide MovedOn;
      moves := [begin] + [attempt];
    } else {
      OneMoveMore(r, [], attempt);
      hide MovedOn;
      moves := [] + [attempt];
    }
  }

  lemma {:induction false} MovesInTurn(r: Reopened, moves: seq<Move>, more: seq<Move>)
    ensures MovedOn(r, moves + more) == MovedOn(MovedOn(r, moves), more)
  {
    if more == [] {
      assert moves + more == moves;
    } else {
      var n := |more| - 1;
      MovesInTurn(r, moves, more[..n]);
      assert moves + more == (moves + more[..n]) + [more[n]];
      OneMoveMore(r, moves + more[..n], more[n]);
    }
  }

  /** While an old event is not settled, a new one can be executed before it. */
  lemma UnsettledIsOvertaken(prior: Queue, live: bool, c: Change) returns (moves: seq<Move>)
    requires InOrder(prior) && !AllSettled(prior.links)
    ensures !InDispatchOrder(MovedOn(Reopen(prior, live), moves))
  {
    hide InOrder, MovedOn;
    var i := FirstUnsettled(prior);
    Overtaken(prior, live, c);
    var s := MovedOn(Reopen(prior, live), Overtakes(c));
    var more := ExecutedNext(s, i);
    moves := Overtakes(c) + more;
    MovesInTurn(Reopen(prior, live), Overtakes(c), more);
    var t, n, k := MovedOn(Reopen(prior, live), moves), |prior.links|, |prior.ran|;
    assert t.ran[k] == Ref(true, 0) == t.dispatched[n] && t.ran[k+1] == Ref(false, i) == t.dispatched[i];
  }

  /** While the old stream still takes callbacks, it can execute an event before an earlier one of the new stream. */
  lemma LiveOvertakes(prior: Queue, c: Change) returns (moves: seq<Move>)
    requires InOrder(prior) && AllSettled(prior.links)
    ensures !InDispatchOrder(MovedOn(Reopen(prior, true), moves))
  {
    var r, n, k := Reopen(prior, true), |prior.links|, |prior.ran|;
    hide InOrder;
    var a, b, d := OfNewer(Enqueue(c)), OfPrior(Enqueue(c)), OfPrior(Begin(n));
    var e, f, g := OfPrior(Try(n, Done)), OfNewer(Begin(0)), OfNewer(Try(0, Done));
    OneMoveMore(r, [], a);
    OneMoveMore(r, [a], b);
    OneMoveMore(r, [a] + [b], d);
    OneMoveMore(r, [a] + [b] + [d], e);
    OneMoveMore(r, [a] + [b] + [d] + [e], f);
    OneMoveMore(r, [a] + [b] + [d] + [e] + [f], g);
    moves := [a] + [b] + [d] + [e] + [f] + [g];
    assert [] + [a] == [a];
    var t := MovedOn(r, moves);
    assert t.dispatched == r.dispatched + [Ref(true, 0), Ref(false, n)];
    assert t.ran == r.ran + [Ref(false, n), Ref(true, 0)];
    assert t.ran[k] == t.dispatched[n+1] && t.ran[k+1] == t.dispatched[n];
  }

  /** When a source opens again, its events are sure to be executed in the order of their dispatch if and only if the
      old stream takes no callbacks any more and has settled everything: each stream has a queue of its own. */
  lemma OrderSurvivesReopeningExactly(prior: Queue, live: bool)
    requires InOrder(prior)
    ensures (forall moves :: InDispatchOrder(MovedOn(Reopen(prior, live), moves))) <==> !live && AllSettled(prior.links)
  {
    hide InOrder, InDispatchOrder, MovedOn, Reopen;
    var some := Change("", Open, "");
    if !AllSettled(prior.links) {
      var moves := UnsettledIsOvertaken(prior, live, some);
      assert !InDispatchOrder(MovedOn(Reopen(prior, live), moves));
    } else if live {
      var moves := LiveOvertakes(prior, some);
      assert !InDispatchOrder(MovedOn(Reopen(prior, live), moves));
    } else {
      forall moves ensures InDispatchOrder(MovedOn(Reopen(prior, live), moves)) {
        MovesStayNewer(prior, moves);
        NewerIsInDispatchOrder(MovedOn(Reopen(prior, live), moves), prior);
      }
    }
  }
}
