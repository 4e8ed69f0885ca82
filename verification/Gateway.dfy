// The worker behind every route of an order (`runDirect`, `answerDirect`, `claimRound` and `runCommand` in
// src/lib/gateway/gatewayWorker.ts), and the table of commands it shares with the web tier (gatewayStore.ts and
// gatewayQueue.ts beside it, supabase/migrations/060_trade_gateway.sql).
//
// Any number of processes work on the table. One that restarts forgets everything, but the statements it sent may still
// reach the database. `fates`, `inserted` and `runs` record what happened.

module Gateway {
  import opened Common
  import Routes = OrderRoutes
  import Protocol = OrderProtocol

  type Order = Routes.Order
  type Sender = Protocol.Sender

  const DIRECT_REMEMBER_MS: int := 600_000
  const DIRECT_REMEMBER_MAX: nat := 5_000
  const LOST_AFTER_MS: int := 120_000
  const KEEP_COMMANDS_MS: int := 259_200_000

  /** The table is unique in the user and the request id. */
  datatype Key = Key(user: string, request: string)

  /** `sender` says on which way the command came: a try of the direct lane, or the platform's route. */
  datatype Command = Command(id: nat, key: Key, order: Order, sender: Sender, expiresAt: int)

  /** A finished command was executed, as the broker accepted it or (of several positions to close) none of it, or it
      failed. */
  datatype Status = Pending | Running | Done(accepted: bool) | Failed(code: string) | Expired

  datatype Row = Row(command: Command, status: Status, claimedAt: int, completedAt: int)

  type Table = map<Key, Row>

  predicate Finished(status: Status) { status.Done? || status.Failed? || status.Expired? }

  // ---- the statements ---------------------------------------------------------------------------------

  function Insert(t: Table, c: Command, status: Status, now: int): Table {
    if c.key in t then t else t[c.key := Row(c, status, now, 0)]
  }

  predicate Claimable(t: Table, key: Key, now: int) {
    key in t && t[key].status == Pending && t[key].command.expiresAt > now
  }

  function Claimed(t: Table, key: Key, now: int): Table
    requires key in t
  {
    t[key := t[key].(status := Running, claimedAt := now)]
  }

  /** The result of a command, if the row is still the one that is running. */
  function Finish(t: Table, c: Command, status: Status, now: int): Table {
    if c.key in t && t[c.key].command.id == c.id && t[c.key].status == Running
    then t[c.key := t[c.key].(status := status, completedAt := now)]
    else t
  }

  function Swept(row: Row, now: int): Row {
    if row.status == Pending && row.command.expiresAt < now then row.(status := Expired, completedAt := now)
    else if row.status == Running && row.claimedAt < now - LOST_AFTER_MS
    then row.(status := Failed("WORKER_LOST"), completedAt := now)
    else row
  }

  predicate Purged(row: Row, now: int) {
    Finished(row.status) && row.completedAt < now - KEEP_COMMANDS_MS
  }

  function Sweep(t: Table, now: int): Table {
    map key | key in t && !Purged(Swept(t[key], now), now) :: Swept(t[key], now)
  }

  // ---- one process --------------------------------------------------------------------------------------

  /** What the direct lane answers. */
  datatype Reply = Executed(accepted: bool) | Refused(code: string, notSent: bool)

  const UNCERTAIN: Reply := Refused("ORDER_UNCERTAIN", false)

  /** A request that is being answered, or was. */
  datatype Seen = Seen(at: int, reply: Option<Reply>)

  /** A repeated request is answered from memory while the first is being answered, and for ten minutes. */
  predicate Remembered(seen: Seen, now: int) { seen.reply.None? || now - seen.at < DIRECT_REMEMBER_MS }

  /** Some answered requests are forgotten, and nothing else changes. */
  ghost predicate Trimmed(was: map<Key, Seen>, now: map<Key, Seen>) {
    && (forall k :: k in now ==> k in was && now[k] == was[k])
    && (forall k :: k in was && was[k].reply.None? ==> k in now)
  }

  class Process {
    var directSeen: map<Key, Seen>

    constructor ()
      ensures directSeen == map[]
    {
      directSeen := map[];
    }

    /** The synchronous part of runDirect: whether the request has to be answered anew. */
    method RunDirect(key: Key, receivedAt: int) returns (anew: bool)
      modifies this
      ensures anew <==> !(key in old(directSeen) && Remembered(old(directSeen)[key], receivedAt))
      ensures !anew ==> directSeen == old(directSeen)
      ensures anew ==> key in directSeen && directSeen[key] == Seen(receivedAt, None)
      ensures anew ==> Trimmed(old(directSeen) - {key}, directSeen - {key})
    {
      if key in directSeen && (directSeen[key].reply.Some? ==> receivedAt - directSeen[key].at < DIRECT_REMEMBER_MS) {
        return false;
      }
      RememberDirect(key, Seen(receivedAt, None));
      anew := true;
    }

    /** Answered requests make room when there are too many, the old ones first. One that is being answered never
        does. */
    method RememberDirect(key: Key, entry: Seen)
      modifies this
      ensures key in directSeen && directSeen[key] == entry
      ensures Trimmed(old(directSeen) - {key}, directSeen - {key})
      ensures |old(directSeen)| < DIRECT_REMEMBER_MAX ==> directSeen == old(directSeen)[key := entry]
    {
      if |directSeen| >= DIRECT_REMEMBER_MAX {
        var todo := directSeen.Keys;
        while todo != {}
          invariant Trimmed(old(directSeen), directSeen)
          decreases |todo|
        {
          var oldKey :| oldKey in todo;
          todo := todo - {oldKey};
          if oldKey in directSeen && directSeen[oldKey].reply.Some? {
            if entry.at - directSeen[oldKey].at >= DIRECT_REMEMBER_MS { directSeen := directSeen - {oldKey}; }
          }
        }
        todo := directSeen.Keys;
        while todo != {}
          invariant Trimmed(old(directSeen), directSeen)
          decreases |todo|
        {
          if 10 * |directSeen| < 9 * DIRECT_REMEMBER_MAX { break; }
          var oldKey :| oldKey in todo;
          todo := todo - {oldKey};
          if oldKey in directSeen && directSeen[oldKey].reply.Some? { directSeen := directSeen - {oldKey}; }
        }
      }
      directSeen := directSeen[key := entry];
    }

    method OnAnswer(key: Key, reply: Reply)
      requires key in directSeen
      modifies this
      ensures directSeen == old(directSeen)[key := Seen(old(directSeen)[key].at, Some(reply))]
    {
      directSeen := directSeen[key := Seen(directSeen[key].at, Some(reply))];
    }
  }

  // ---- all of it together -------------------------------------------------------------------------------

  /** How the run of a command ends: it never got to the broker, because it is not fit to run or waited too long, or
      the broker was asked and accepted the order or did not, whatever the process learned of it. */
  datatype Outcome =
    | Unfit(code: string) | NotSent
    | Success(accepted: bool) | BrokerRefused(code: string, accepted: bool)

  predicate AsksBroker(o: Outcome) { o.Success? || o.BrokerRefused? }

  /** After these codes the order may exist at the broker. */
  predicate Uncertain(code: string) { code in Routes.UNCERTAIN_TRADE_CODES }

  /** Where a living process is with a command: its insert is under way, the insert was executed, it is queued on the
      chain of its account, it ran and its result is to be stored. */
  datatype Stage = Reserving | Landed(isNew: bool) | Queued | Ran(outcome: Outcome)

  datatype Job = Job(process: nat, command: Command, direct: bool, stage: Stage)

  datatype Place = Place(process: nat, key: Key)

  /** What became of a command: its insert is under way, it was refused by the unique key, it waits to be claimed, it is
      claimed or reserved, and in the end the broker was never asked, or was, and accepted the order or did not. */
  datatype Fate = Coming | Denied | Waiting | Held | Void | Sent(accepted: bool)

  predicate IsOver(f: Fate) { f.Void? || f.Sent? }

  /** What the broker accepted nevertheless is reported under an uncertain code (src/lib/trade/webTrade.ts:380-391). */
  predicate Plain(o: Outcome) { o.BrokerRefused? && o.accepted ==> Uncertain(o.code) }

  function FateOf(o: Outcome): Fate {
    if AsksBroker(o) then Sent(o.accepted) else Void
  }

  datatype Insertion = Insertion(command: Command, at: int)

  datatype Run = Run(command: Command, at: int, accepted: bool)

  datatype State = State(
    now: int,
    next: nat,                      // the next command id
    table: Table,
    inserts: map<nat, Command>,     // reservations on their way to the database
    jobs: map<nat, Job>,            // of living processes, by command id
    memory: map<Place, Seen>,       // `directSeen` of every process
    fates: map<nat, Fate>,
    inserted: seq<Insertion>,
    runs: seq<Run>)                 // at the broker

  const START: State := State(0, 0, map[], map[], map[], map[], map[], [], [])

  datatype Event =
    | Tick(now: int)
    | Ask(process: nat, user: string, order: Order, sender: Sender, ttl: int)   // a direct request arrives
    | InsertLands(id: nat)            // the database executes a reservation
    | InsertKnown(id: nat)            // the process learns what came of it
    | InsertUnknown(id: nat)          // or it never learns
    | Enqueue(user: string, order: Order, sender: Sender, ttl: int)             // the web tier writes a command
    | Claim(process: nat, key: Key)
    | ClaimLost(key: Key)             // claimed, but the answer never arrives
    | RunCommand(id: nat, outcome: Outcome)
    | Record(id: nat) | RecordLost(id: nat)
    | Abandon(key: Key)               // the web tier stops waiting
    | Housekeeping
    | Forget(place: Place)
    | Restart(process: nat)

  function KeyOf(user: string, order: Order): Key { Key(user, order.clientRequestId) }

  predicate IsJob(s: State, id: nat, stage: Stage) {
    id in s.jobs && s.jobs[id].stage == stage
  }

  predicate Enabled(s: State, e: Event) {
    match e
    case Tick(now) => s.now <= now
    case Ask(p, user, order, _, _) =>
      var place := Place(p, KeyOf(user, order));
      !(place in s.memory && Remembered(s.memory[place], s.now))
    case InsertLands(id) => id in s.inserts
    case InsertKnown(id) => id in s.jobs && s.jobs[id].stage.Landed?
    case InsertUnknown(id) => id in s.jobs && (s.jobs[id].stage == Reserving || s.jobs[id].stage.Landed?)
    case Enqueue(_, _, _, _) => true
    case Claim(_, key) => Claimable(s.table, key, s.now)
    case ClaimLost(key) => Claimable(s.table, key, s.now)
    case RunCommand(id, outcome) =>
      && IsJob(s, id, Queued)
      && (outcome == NotSent ==> s.now > s.jobs[id].command.expiresAt)
      && (AsksBroker(outcome) ==> s.now <= s.jobs[id].command.expiresAt)
      && Plain(outcome)
    case Record(id) => id in s.jobs && s.jobs[id].stage.Ran?
    case RecordLost(id) => id in s.jobs && s.jobs[id].stage.Ran?
    case Abandon(key) => key in s.table && s.table[key].status == Pending
    case Housekeeping => true
    case Forget(place) => place in s.memory && s.memory[place].reply.Some?
    case Restart(_) => true
  }

  function NewCommand(s: State, user: string, order: Order, sender: Sender, ttl: int): Command {
    Command(s.next, KeyOf(user, order), order, sender, s.now + ttl)
  }

  function Asked(s: State, p: nat, c: Command): State {
    s.(next := s.next + 1, inserts := s.inserts[c.id := c], jobs := s.jobs[c.id := Job(p, c, true, Reserving)],
       memory := s.memory[Place(p, c.key) := Seen(s.now, None)], fates := s.fates[c.id := Coming])
  }

  /** Whatever process asked for it, the row is written or the unique key refuses it. */
  function LandedInsert(s: State, id: nat): State
    requires id in s.inserts
  {
    var c := s.inserts[id];
    var isNew := c.key !in s.table;
    s.(inserts := s.inserts - {id},
       table := Insert(s.table, c, Running, s.now),
       jobs := if id in s.jobs then s.jobs[id := s.jobs[id].(stage := Landed(isNew))] else s.jobs,
       fates := s.fates[id := if isNew then Held else Denied],
       inserted := if isNew then s.inserted + [Insertion(c, s.now)] else s.inserted)
  }

  /** What an earlier try of the request left in the table. */
  function Earlier(t: Table, key: Key): Reply {
    if key !in t then UNCERTAIN
    else match t[key].status
      case Pending => UNCERTAIN
      case Running => UNCERTAIN
      case Done(accepted) => Executed(accepted)
      case Failed(code) => Refused(code, false)
      case Expired => Refused("NOT_SENT", false)
  }

  function Answered(s: State, job: Job, reply: Reply): map<Place, Seen> {
    var place := Place(job.process, job.command.key);
    if job.direct && place in s.memory then s.memory[place := Seen(s.memory[place].at, Some(reply))] else s.memory
  }

  function KnownInsert(s: State, id: nat): State
    requires id in s.jobs && s.jobs[id].stage.Landed?
  {
    var job := s.jobs[id];
    if job.stage.isNew then s.(jobs := s.jobs[id := job.(stage := Queued)])
    else s.(jobs := s.jobs - {id}, memory := Answered(s, job, Earlier(s.table, job.command.key)))
  }

  function Enqueued(s: State, c: Command): State {
    if c.key in s.table then s.(next := s.next + 1)
    else
      s.(next := s.next + 1, table := Insert(s.table, c, Pending, s.now), fates := s.fates[c.id := Waiting],
         inserted := s.inserted + [Insertion(c, s.now)])
  }

  function ClaimedBy(s: State, key: Key, jobs: map<nat, Job>): State
    requires key in s.table
  {
    s.(table := Claimed(s.table, key, s.now), fates := s.fates[s.table[key].command.id := Held], jobs := jobs)
  }

  function WordOn(o: Outcome): Reply {
    match o
    case Success(accepted) => Executed(accepted)
    case BrokerRefused(code, _) => Refused(code, false)
    case Unfit(code) => Refused(code, false)
    case NotSent => Refused("NOT_SENT", true)
  }

  function RunOf(s: State, id: nat, o: Outcome): State
    requires id in s.jobs
  {
    var job := s.jobs[id];
    s.(jobs := s.jobs[id := job.(stage := Ran(o))], memory := Answered(s, job, WordOn(o)),
       fates := s.fates[id := FateOf(o)],
       runs := if AsksBroker(o) then s.runs + [Run(job.command, s.now, o.accepted)] else s.runs)
  }

  function StatusOf(o: Outcome): Status {
    match o
    case Success(accepted) => Done(accepted)
    case BrokerRefused(code, _) => Failed(code)
    case Unfit(code) => Failed(code)
    case NotSent => Failed("NOT_SENT")
  }

  function Recorded(s: State, id: nat): State
    requires id in s.jobs && s.jobs[id].stage.Ran?
  {
    var job := s.jobs[id];
    s.(table := Finish(s.table, job.command, StatusOf(job.stage.outcome), s.now), jobs := s.jobs - {id})
  }

  function Abandoned(s: State, key: Key): State
    requires key in s.table
  {
    s.(table := s.table[key := s.table[key].(status := Expired, completedAt := s.now)],
       fates := s.fates[s.table[key].command.id := Void])
  }

  predicate Lapses(s: State, key: Key) {
    key in s.table && s.table[key].status == Pending && s.table[key].command.expiresAt < s.now
  }

  /** Commands that the sweep gives up before anybody claimed them. */
  function Lapsed(s: State): set<nat> {
    set key | key in s.table && Lapses(s, key) :: s.table[key].command.id
  }

  function SweptAll(s: State): State {
    s.(table := Sweep(s.table, s.now),
       fates := map id | id in s.fates :: if id in Lapsed(s) then Void else s.fates[id])
  }

  function Restarted(s: State, p: nat): State {
    s.(jobs := map id | id in s.jobs && s.jobs[id].process != p :: s.jobs[id],
       memory := map place | place in s.memory && place.process != p :: s.memory[place])
  }

  /** One event; an event that cannot happen now is passed over. */
  function Next(s: State, e: Event): State {
    if !Enabled(s, e) then s
    else match e
      case Tick(now) => s.(now := now)
      case Ask(p, user, order, sender, ttl) => Asked(s, p, NewCommand(s, user, order, sender, ttl))
      case InsertLands(id) => LandedInsert(s, id)
      case InsertKnown(id) => KnownInsert(s, id)
      case InsertUnknown(id) => s.(jobs := s.jobs - {id}, memory := Answered(s, s.jobs[id], UNCERTAIN))
      case Enqueue(user, order, sender, ttl) => Enqueued(s, NewCommand(s, user, order, sender, ttl))
      case Claim(p, key) =>
        var c := s.table[key].command;
        ClaimedBy(s, key, s.jobs[c.id := Job(p, c, false, Queued)])
      case ClaimLost(key) => ClaimedBy(s, key, s.jobs)
      case RunCommand(id, outcome) => RunOf(s, id, outcome)
      case Record(id) => Recorded(s, id)
      case RecordLost(id) => s.(jobs := s.jobs - {id})
      case Abandon(key) => Abandoned(s, key)
      case Housekeeping => SweptAll(s)
      case Forget(place) => s.(memory := s.memory - {place})
      case Restart(p) => Restarted(s, p)
  }

  function After(es: seq<Event>): State {
    if es == [] then START else Next(After(es[..|es|-1]), es[|es|-1])
  }

  // ---- what every step keeps: commands --------------------------------------------------------------

  type Fates = map<nat, Fate>

  predicate FateIs(fates: Fates, id: nat, f: Fate) { id in fates && fates[id] == f }

  predicate WasSent(fates: Fates, id: nat) { id in fates && fates[id].Sent? }

  /** A command whose row was written. */
  predicate IsWritten(fates: Fates, id: nat) {
    id in fates && (fates[id] == Waiting || fates[id] == Held || IsOver(fates[id]))
  }

  ghost predicate InsertsOk(inserts: map<nat, Command>, fates: Fates) {
    forall id :: id in inserts ==> inserts[id].id == id && FateIs(fates, id, Coming)
  }

  predicate JobOk(job: Job, id: nat, inserts: map<nat, Command>, fates: Fates) {
    && job.command.id == id
    && match job.stage
       case Reserving => id in inserts && inserts[id] == job.command && FateIs(fates, id, Coming)
       case Landed(isNew) => FateIs(fates, id, if isNew then Held else Denied)
       case Queued => FateIs(fates, id, Held)
       case Ran(outcome) => FateIs(fates, id, FateOf(outcome)) && Plain(outcome)
  }

  ghost predicate JobsOk(jobs: map<nat, Job>, inserts: map<nat, Command>, fates: Fates) {
    forall id :: id in jobs ==> JobOk(jobs[id], id, inserts, fates)
  }

  predicate RowOk(row: Row, key: Key, fates: Fates) {
    && row.command.key == key && IsWritten(fates, row.command.id)
    && (row.status == Pending <==> fates[row.command.id] == Waiting)
    && (row.status.Done? ==> fates[row.command.id] == Sent(row.status.accepted))
    && (row.status.Failed? && !Uncertain(row.status.code) ==> fates[row.command.id] in {Void, Sent(false)})
    && (row.status.Expired? ==> fates[row.command.id] == Void)
  }

  ghost predicate RowsOk(t: Table, fates: Fates) {
    forall key :: key in t ==> RowOk(t[key], key, fates)
  }

  ghost predicate HasRun(runs: seq<Run>, id: nat) {
    exists i :: 0 <= i < |runs| && runs[i].command.id == id
  }

  ghost predicate RunsOk(runs: seq<Run>, fates: Fates) {
    && (forall i :: 0 <= i < |runs| ==> FateIs(fates, runs[i].command.id, Sent(runs[i].accepted)))
    && (forall i, j :: 0 <= i < j < |runs| ==> runs[i].command.id != runs[j].command.id)
    && (forall id :: id in fates && fates[id].Sent? ==> HasRun(runs, id))
  }

  ghost predicate IdsOk(s: State) {
    forall id :: id in s.fates ==> id < s.next
  }

  // ---- and what was written when --------------------------------------------------------------------

  ghost predicate WrittenOk(inserted: seq<Insertion>, fates: Fates, now: int) {
    && (forall i :: 0 <= i < |inserted| ==> IsWritten(fates, inserted[i].command.id) && inserted[i].at <= now)
    && (forall i, j :: 0 <= i < j < |inserted| ==> inserted[i].command.id != inserted[j].command.id)
  }

  /** Two rows of one key are written more than three days apart. */
  ghost predicate FarApart(inserted: seq<Insertion>) {
    forall i, j :: 0 <= i < j < |inserted| && inserted[i].command.key == inserted[j].command.key ==>
      inserted[i].at + KEEP_COMMANDS_MS < inserted[j].at
  }

  function LastFor(inserted: seq<Insertion>, key: Key): Option<Insertion> {
    if inserted == [] then None
    else if inserted[|inserted|-1].command.key == key then Some(inserted[|inserted|-1])
    else LastFor(inserted[..|inserted|-1], key)
  }

  /** The row of a key is the last one written, and a key without a row was given up three days ago. */
  ghost predicate TableFollows(t: Table, inserted: seq<Insertion>, now: int) {
    forall key ::
      if key in t then
        var last := LastFor(inserted, key);
        && last.Some? && last.value.command == t[key].command
        && (Finished(t[key].status) ==> last.value.at <= t[key].completedAt)
      else LastFor(inserted, key).Some? ==> LastFor(inserted, key).value.at + KEEP_COMMANDS_MS < now
  }

  ghost predicate Known(inserted: seq<Insertion>, c: Command) {
    exists i :: 0 <= i < |inserted| && inserted[i].command == c
  }

  predicate HoldsRow(stage: Stage) { stage == Landed(true) || stage == Queued || stage.Ran? }

  ghost predicate JobsWritten(jobs: map<nat, Job>, inserted: seq<Insertion>) {
    forall id :: id in jobs && HoldsRow(jobs[id].stage) ==> Known(inserted, jobs[id].command)
  }

  ghost predicate RunsWritten(runs: seq<Run>, inserted: seq<Insertion>) {
    forall i :: 0 <= i < |runs| ==> Known(inserted, runs[i].command)
  }

  ghost predicate Commands(s: State) {
    && IdsOk(s) && InsertsOk(s.inserts, s.fates) && JobsOk(s.jobs, s.inserts, s.fates)
    && RowsOk(s.table, s.fates) && RunsOk(s.runs, s.fates)
  }

  ghost predicate History(s: State) {
    && WrittenOk(s.inserted, s.fates, s.now) && FarApart(s.inserted) && TableFollows(s.table, s.inserted, s.now)
    && JobsWritten(s.jobs, s.inserted) && RunsWritten(s.runs, s.inserted)
  }

  ghost predicate Invariant(s: State) { Commands(s) && History(s) }

  lemma {:induction false} LastForIs(inserted: seq<Insertion>, key: Key)
    ensures LastFor(inserted, key).Some? ==>
              LastFor(inserted, key).value in inserted && LastFor(inserted, key).value.command.key == key
    ensures forall i :: 0 <= i < |inserted| && inserted[i].command.key == key ==> LastFor(inserted, key).Some?
  {
    if inserted != [] {
      var n := |inserted| - 1;
      LastForIs(inserted[..n], key);
      assert inserted == inserted[..n] + [inserted[n]];
    }
  }

  /** Nothing of the key was written later than its last row. */
  lemma {:induction false} LastIsLatest(inserted: seq<Insertion>, key: Key, i: nat)
    requires FarApart(inserted) && i < |inserted| && inserted[i].command.key == key
    ensures LastFor(inserted, key).Some? && inserted[i].at <= LastFor(inserted, key).value.at
    ensures LastFor(inserted, key).value == inserted[i]
         || inserted[i].at + KEEP_COMMANDS_MS < LastFor(inserted, key).value.at
  {
    var n := |inserted| - 1;
    if inserted[n].command.key != key {
      assert inserted[..n][i] == inserted[i];
      LastIsLatest(inserted[..n], key, i);
    }
  }

  lemma KnownMore(inserted: seq<Insertion>, x: Insertion, c: Command)
    ensures Known(inserted, c) ==> Known(inserted + [x], c)
    ensures Known(inserted + [x], x.command)
  {
    if Known(inserted, c) {
      var i :| 0 <= i < |inserted| && inserted[i].command == c;
      assert (inserted + [x])[i].command == c;
    }
    assert (inserted + [x])[|inserted|] == x;
  }

  lemma LastForMore(inserted: seq<Insertion>, x: Insertion, key: Key)
    ensures LastFor(inserted + [x], key) == if x.command.key == key then Some(x) else LastFor(inserted, key)
  {
    assert (inserted + [x])[..|inserted|] == inserted;
  }

  /** Rows belong to different commands. */
  lemma RowsAreDistinct(s: State, a: Key, b: Key)
    requires Invariant(s) && a in s.table && b in s.table && s.table[a].command.id == s.table[b].command.id
    ensures a == b
  {
    LastForIs(s.inserted, a);
    LastForIs(s.inserted, b);
  }

  // ---- one fate, one row ----------------------------------------------------------------------------

  lemma RowsBesides(t: Table, fates: Fates, id: nat, f: Fate)
    requires RowsOk(t, fates) && forall key :: key in t ==> t[key].command.id != id
    ensures RowsOk(t, fates[id := f])
  {
  }

  lemma RunsBesides(runs: seq<Run>, fates: Fates, id: nat, f: Fate)
    requires RunsOk(runs, fates) && !f.Sent? && !WasSent(fates, id)
    ensures RunsOk(runs, fates[id := f])
  {
  }

  lemma OneMoreRun(runs: seq<Run>, fates: Fates, x: Run)
    requires RunsOk(runs, fates) && !WasSent(fates, x.command.id)
    ensures RunsOk(runs + [x], fates[x.command.id := Sent(x.accepted)])
  {
    var more, later := runs + [x], fates[x.command.id := Sent(x.accepted)];
    forall id | id in later && later[id].Sent?
      ensures HasRun(more, id)
    {
      if id == x.command.id {
        assert more[|runs|].command.id == id;
      } else {
        assert HasRun(runs, id);
        var i :| 0 <= i < |runs| && runs[i].command.id == id;
        assert more[i].command.id == id;
      }
    }
  }

  lemma WrittenBesides(inserted: seq<Insertion>, fates: Fates, now: int, id: nat, f: Fate)
    requires WrittenOk(inserted, fates, now)
    requires (id in fates && IsWritten(fates, id)) ==> f == Waiting || f == Held || IsOver(f)
    ensures WrittenOk(inserted, fates[id := f], now)
  {
  }

  lemma JobsBesides(jobs: map<nat, Job>, inserts: map<nat, Command>, fates: Fates, id: nat, f: Fate)
    requires JobsOk(jobs, inserts, fates) && id !in jobs
    ensures JobsOk(jobs, inserts, fates[id := f])
  {
  }

  lemma InsertsBesides(inserts: map<nat, Command>, fates: Fates, id: nat, f: Fate)
    requires InsertsOk(inserts, fates) && id !in inserts
    ensures InsertsOk(inserts, fates[id := f])
  {
  }

  /** A row changes its status; a finished one is finished now. */
  lemma RowChangeFollows(t: Table, inserted: seq<Insertion>, fates: Fates, now: int, key: Key, row: Row)
    requires TableFollows(t, inserted, now) && WrittenOk(inserted, fates, now)
    requires key in t && row.command == t[key].command && (Finished(row.status) ==> row.completedAt == now)
    ensures TableFollows(t[key := row], inserted, now)
  {
    LastForIs(inserted, key);
  }

  lemma RowChangeOk(t: Table, fates: Fates, key: Key, row: Row, f: Fate)
    requires RowsOk(t, fates) && key in t && row.command == t[key].command
    requires forall k :: k in t && k != key ==> t[k].command.id != row.command.id
    requires RowOk(row, key, fates[row.command.id := f])
    ensures RowsOk(t[key := row], fates[row.command.id := f])
  {
  }

  lemma OthersAreDistinct(s: State, key: Key)
    requires Invariant(s) && key in s.table
    ensures forall k :: k in s.table && k != key ==> s.table[k].command.id != s.table[key].command.id
  {
    forall k | k in s.table && k != key ensures s.table[k].command.id != s.table[key].command.id {
      if s.table[k].command.id == s.table[key].command.id { RowsAreDistinct(s, k, key); }
    }
  }

  // ---- step by step ---------------------------------------------------------------------------------

  lemma AskKeeps(s: State, p: nat, c: Command)
    requires Invariant(s) && c.id == s.next
    ensures Invariant(Asked(s, p, c))
  {
    AskKeepsJobs(s, p, c);
    RowsBesides(s.table, s.fates, c.id, Coming);
    RunsBesides(s.runs, s.fates, c.id, Coming);
    WrittenBesides(s.inserted, s.fates, s.now, c.id, Coming);
    hide RowsOk, RunsOk, WrittenOk, FarApart, TableFollows, RunsWritten, JobsOk, InsertsOk, IdsOk, JobsWritten;
  }

  lemma AskKeepsJobs(s: State, p: nat, c: Command)
    requires Invariant(s) && c.id == s.next
    ensures var t := Asked(s, p, c);
            && IdsOk(t) && InsertsOk(t.inserts, t.fates) && JobsOk(t.jobs, t.inserts, t.fates)
            && JobsWritten(t.jobs, t.inserted)
            && c.id !in s.fates && forall key :: key in s.table ==> s.table[key].command.id != c.id
  {
    NewIsNowhere(s, c.id);
    NewJob(s.jobs, s.inserts, s.fates, p, c);
    hide RowsOk, RunsOk, WrittenOk, FarApart, TableFollows, RunsWritten, Known, JobsOk;
  }

  lemma NewJob(jobs: map<nat, Job>, inserts: map<nat, Command>, fates: Fates, p: nat, c: Command)
    requires JobsOk(jobs, inserts, fates) && c.id !in jobs
    ensures JobsOk(jobs[c.id := Job(p, c, true, Reserving)], inserts[c.id := c], fates[c.id := Coming])
  {
  }

  /** A row is written for a key that has none. */
  lemma WriteKeepsHistory(s: State, t: State, c: Command, status: Status)
    requires Invariant(s) && c.key !in s.table && (c.id in s.fates ==> !IsWritten(s.fates, c.id))
    requires status == Pending || status == Running
    requires t.now == s.now && t.table == Insert(s.table, c, status, s.now) && t.runs == s.runs
    requires t.inserted == s.inserted + [Insertion(c, s.now)]
    requires t.fates == s.fates[c.id := Waiting] || t.fates == s.fates[c.id := Held]
    requires forall id :: id in t.jobs && HoldsRow(t.jobs[id].stage) ==>
               (id in s.jobs && t.jobs[id] == s.jobs[id]) || t.jobs[id].command == c
    ensures History(t)
  {
    WriteFollows(s, c, status);
    WriteIsWritten(s, c, t.fates);
    WriteIsFarApart(s, c);
    WriteIsKnown(s, t, c);
    hide TableFollows, WrittenOk, FarApart, JobsWritten, RunsWritten, Insert;
  }

  lemma WriteFollows(s: State, c: Command, status: Status)
    requires TableFollows(s.table, s.inserted, s.now) && c.key !in s.table && !Finished(status)
    ensures TableFollows(Insert(s.table, c, status, s.now), s.inserted + [Insertion(c, s.now)], s.now)
  {
    var x := Insertion(c, s.now);
    forall key ensures LastFor(s.inserted + [x], key) == if c.key == key then Some(x) else LastFor(s.inserted, key) {
      LastForMore(s.inserted, x, key);
    }
    hide LastFor;
  }

  lemma WriteIsWritten(s: State, c: Command, fates: Fates)
    requires WrittenOk(s.inserted, s.fates, s.now) && (c.id in s.fates ==> !IsWritten(s.fates, c.id))
    requires fates == s.fates[c.id := Waiting] || fates == s.fates[c.id := Held]
    ensures WrittenOk(s.inserted + [Insertion(c, s.now)], fates, s.now)
  {
  }

  lemma WriteIsFarApart(s: State, c: Command)
    requires History(s) && c.key !in s.table
    ensures FarApart(s.inserted + [Insertion(c, s.now)])
  {
    forall i | 0 <= i < |s.inserted| && s.inserted[i].command.key == c.key
      ensures s.inserted[i].at + KEEP_COMMANDS_MS < s.now
    {
      LastIsLatest(s.inserted, c.key, i);
    }
    hide TableFollows, WrittenOk, JobsWritten, RunsWritten, LastFor;
  }

  lemma WriteIsKnown(s: State, t: State, c: Command)
    requires JobsWritten(s.jobs, s.inserted) && RunsWritten(s.runs, s.inserted)
    requires t.inserted == s.inserted + [Insertion(c, s.now)] && t.runs == s.runs
    requires forall id :: id in t.jobs && HoldsRow(t.jobs[id].stage) ==>
               (id in s.jobs && t.jobs[id] == s.jobs[id]) || t.jobs[id].command == c
    ensures JobsWritten(t.jobs, t.inserted) && RunsWritten(t.runs, t.inserted)
  {
    var x := Insertion(c, s.now);
    forall d | Known(s.inserted, d) ensures Known(t.inserted, d) { KnownMore(s.inserted, x, d); }
    KnownMore(s.inserted, x, c);
    hide Known;
  }

  lemma LandedKeeps(s: State, id: nat)
    requires Invariant(s) && id in s.inserts
    ensures Invariant(LandedInsert(s, id))
  {
    var c, t := s.inserts[id], LandedInsert(s, id);
    LandedJobs(s, id);
    RunsBesides(s.runs, s.fates, id, t.fates[id]);
    RowsBesides(s.table, s.fates, id, t.fates[id]);
    if c.key !in s.table {
      WriteKeepsHistory(s, t, c, Running);
      hide JobsOk, InsertsOk, RunsOk, History;
      NewRow(s.table, s.fates, c, Running, Held, s.now);
    } else {
      WrittenBesides(s.inserted, s.fates, s.now, id, Denied);
      hide JobsOk, InsertsOk, RunsOk, RowsOk, WrittenOk, FarApart, TableFollows, RunsWritten;
    }
  }

  lemma LandedJobs(s: State, id: nat)
    requires Invariant(s) && id in s.inserts
    ensures var t := LandedInsert(s, id);
            && IdsOk(t) && InsertsOk(t.inserts, t.fates) && JobsOk(t.jobs, t.inserts, t.fates)
            && (forall j :: j in t.jobs && HoldsRow(t.jobs[j].stage) ==>
                  || (j in s.jobs && t.jobs[j] == s.jobs[j])
                  || (t.jobs[j].command == s.inserts[id] && s.inserts[id].key !in s.table))
  {
    hide RowsOk, RunsOk, History;
    if id in s.jobs { assert s.jobs[id].stage == Reserving; }
  }

  lemma NewRow(t: Table, fates: Fates, c: Command, status: Status, f: Fate, now: int)
    requires RowsOk(t, fates[c.id := f]) && c.key !in t
    requires (status == Pending && f == Waiting) || (status == Running && f == Held)
    ensures RowsOk(Insert(t, c, status, now), fates[c.id := f])
  {
  }

  lemma KnownKeeps(s: State, id: nat)
    requires Invariant(s) && id in s.jobs && s.jobs[id].stage.Landed?
    ensures Invariant(KnownInsert(s, id))
  {
    hide RowsOk, RunsOk, WrittenOk, FarApart, TableFollows, RunsWritten;
  }

  lemma EnqueueKeeps(s: State, c: Command)
    requires Invariant(s) && c.id == s.next
    ensures Invariant(Enqueued(s, c))
  {
    if c.key !in s.table {
      NewIsNowhere(s, c.id);
      WriteKeepsHistory(s, Enqueued(s, c), c, Pending);
      RunsBesides(s.runs, s.fates, c.id, Waiting);
      RowsBesides(s.table, s.fates, c.id, Waiting);
      NewRow(s.table, s.fates, c, Pending, Waiting, s.now);
      JobsBesides(s.jobs, s.inserts, s.fates, c.id, Waiting);
      InsertsBesides(s.inserts, s.fates, c.id, Waiting);
      hide JobsOk, InsertsOk, RunsOk, RowsOk, History, Insert;
    } else {
      RefusedKeeps(s, c);
    }
  }

  lemma RefusedKeeps(s: State, c: Command)
    requires Invariant(s) && c.key in s.table
    ensures Invariant(Enqueued(s, c))
  {
    SameHistory(s, Enqueued(s, c));
    hide JobsOk, InsertsOk, RunsOk, RowsOk, History;
  }

  lemma SameHistory(s: State, t: State)
    requires History(s) && t.inserted == s.inserted && t.fates == s.fates && t.now == s.now
    requires t.table == s.table && t.jobs == s.jobs && t.runs == s.runs
    ensures History(t)
  {
  }

  lemma NewIsNowhere(s: State, id: nat)
    requires Invariant(s) && id >= s.next
    ensures id !in s.fates && id !in s.jobs && id !in s.inserts
    ensures forall key :: key in s.table ==> s.table[key].command.id != id
  {
    assert forall key :: key in s.table ==> RowOk(s.table[key], key, s.fates);
    assert forall j :: j in s.jobs ==> JobOk(s.jobs[j], j, s.inserts, s.fates);
    hide RowsOk, RunsOk, History, JobsOk;
  }

  lemma ClaimKeeps(s: State, key: Key, p: nat, known: bool)
    requires Invariant(s) && Claimable(s.table, key, s.now)
    ensures var c := s.table[key].command;
            Invariant(ClaimedBy(s, key, if known then s.jobs[c.id := Job(p, c, false, Queued)] else s.jobs))
  {
    var row := s.table[key].(status := Running, claimedAt := s.now);
    var c := row.command;
    ClaimKeepsJobs(s, key, p);
    OthersAreDistinct(s, key);
    WaitingIsFree(s, key);
    RowChangeOk(s.table, s.fates, key, row, Held);
    RowChangeFollows(s.table, s.inserted, s.fates, s.now, key, row);
    RunsBesides(s.runs, s.fates, c.id, Held);
    WrittenBesides(s.inserted, s.fates, s.now, c.id, Held);
    InsertsBesides(s.inserts, s.fates, c.id, Held);
    hide InsertsOk, RowsOk, RunsOk, JobsOk, JobsWritten, WrittenOk, FarApart, TableFollows, RunsWritten, Known;
  }

  lemma ClaimKeepsJobs(s: State, key: Key, p: nat)
    requires Invariant(s) && Claimable(s.table, key, s.now)
    ensures var c := s.table[key].command;
            var fates, jobs := s.fates[c.id := Held], s.jobs[c.id := Job(p, c, false, Queued)];
            && JobsOk(s.jobs, s.inserts, fates) && JobsOk(jobs, s.inserts, fates)
            && JobsWritten(jobs, s.inserted)
  {
    WaitingIsFree(s, key);
    RowIsKnown(s, key);
    JobsBesides(s.jobs, s.inserts, s.fates, s.table[key].command.id, Held);
    hide InsertsOk, RowsOk, RunsOk, WrittenOk, FarApart, TableFollows, RunsWritten, Known;
  }

  /** Nobody is at work on a command that waits to be claimed. */
  lemma WaitingIsFree(s: State, key: Key)
    requires Invariant(s) && key in s.table && s.table[key].status == Pending
    ensures var id := s.table[key].command.id;
            FateIs(s.fates, id, Waiting) && id !in s.jobs && id !in s.inserts
  {
    hide RunsOk, History;
  }

  lemma RowIsKnown(s: State, key: Key)
    requires Invariant(s) && key in s.table
    ensures Known(s.inserted, s.table[key].command)
  {
    hide Commands;
    LastForIs(s.inserted, key);
  }

  lemma RunKeeps(s: State, id: nat, o: Outcome)
    requires Invariant(s) && IsJob(s, id, Queued) && Plain(o)
    ensures Invariant(RunOf(s, id, o))
  {
    var f, c := FateOf(o), s.jobs[id].command;
    HeldRows(s, id, f);
    WrittenBesides(s.inserted, s.fates, s.now, id, f);
    assert Known(s.inserted, c);
    if AsksBroker(o) {
      OneMoreRun(s.runs, s.fates, Run(c, s.now, o.accepted));
    } else {
      RunsBesides(s.runs, s.fates, id, f);
    }
    RunKeepsJobs(s, id, o);
    hide RowsOk, RunsOk, JobsOk, InsertsOk, JobsWritten, WrittenOk, FarApart, TableFollows, Known;
  }

  lemma RunKeepsJobs(s: State, id: nat, o: Outcome)
    requires Invariant(s) && IsJob(s, id, Queued) && Plain(o)
    ensures var t := RunOf(s, id, o);
            && IdsOk(t) && InsertsOk(t.inserts, t.fates)
            && JobsOk(t.jobs, t.inserts, t.fates) && JobsWritten(t.jobs, t.inserted)
  {
    hide RowsOk, RunsOk, WrittenOk, FarApart, TableFollows, Known, RunsWritten;
  }

  /** The row of a running command stays right when the command is over. */
  lemma HeldRows(s: State, id: nat, f: Fate)
    requires Invariant(s) && FateIs(s.fates, id, Held) && IsOver(f)
    ensures RowsOk(s.table, s.fates[id := f])
  {
    hide JobsOk, InsertsOk, RunsOk, History;
  }

  lemma RecordKeeps(s: State, id: nat)
    requires Invariant(s) && id in s.jobs && s.jobs[id].stage.Ran?
    ensures Invariant(Recorded(s, id))
  {
    var c, t := s.jobs[id].command, Recorded(s, id);
    RecordKeepsRows(s, id);
    if t.table != s.table {
      RowChangeFollows(s.table, s.inserted, s.fates, s.now, c.key, t.table[c.key]);
    }
    hide RunsOk, RowsOk, InsertsOk, WrittenOk, FarApart, TableFollows, RunsWritten, Known;
  }

  lemma RecordKeepsRows(s: State, id: nat)
    requires Invariant(s) && id in s.jobs && s.jobs[id].stage.Ran?
    ensures RowsOk(Recorded(s, id).table, s.fates)
  {
    var job := s.jobs[id];
    assert JobOk(job, id, s.inserts, s.fates);
    hide RunsOk, History, InsertsOk, JobsOk;
  }

  lemma AbandonKeeps(s: State, key: Key)
    requires Invariant(s) && key in s.table && s.table[key].status == Pending
    ensures Invariant(Abandoned(s, key))
  {
    var row := s.table[key].(status := Expired, completedAt := s.now);
    var id := row.command.id;
    OthersAreDistinct(s, key);
    WaitingIsFree(s, key);
    RowChangeOk(s.table, s.fates, key, row, Void);
    RowChangeFollows(s.table, s.inserted, s.fates, s.now, key, row);
    RunsBesides(s.runs, s.fates, id, Void);
    WrittenBesides(s.inserted, s.fates, s.now, id, Void);
    JobsBesides(s.jobs, s.inserts, s.fates, id, Void);
    InsertsBesides(s.inserts, s.fates, id, Void);
    hide InsertsOk, RowsOk, RunsOk, JobsOk, WrittenOk, FarApart, TableFollows, RunsWritten, Known;
  }

  lemma SweepKeeps(s: State)
    requires Invariant(s)
    ensures Invariant(SweptAll(s))
  {
    var t := SweptAll(s);
    LapsedWereWaiting(s);
    SweepKeepsRows(s);
    SweepFollows(s);
    SweepKeepsFates(s);
    hide RowsOk, RunsOk, TableFollows, RunsWritten, Known, WrittenOk, InsertsOk, JobsOk;
  }

  lemma LapsedWereWaiting(s: State)
    requires Invariant(s)
    ensures forall id :: id in Lapsed(s) ==> FateIs(s.fates, id, Waiting) && id !in s.jobs && id !in s.inserts
  {
    forall id | id in Lapsed(s) ensures FateIs(s.fates, id, Waiting) && id !in s.jobs && id !in s.inserts {
      var key :| key in s.table && Lapses(s, key) && s.table[key].command.id == id;
      WaitingIsFree(s, key);
    }
  }

  lemma SweepKeepsRows(s: State)
    requires Invariant(s)
    ensures RowsOk(SweptAll(s).table, SweptAll(s).fates)
  {
    var t := SweptAll(s);
    forall key | key in t.table ensures RowOk(t.table[key], key, t.fates) { SweepKeepsRow(s, key); }
  }

  lemma SweepKeepsRow(s: State, key: Key)
    requires Invariant(s) && key in SweptAll(s).table
    ensures RowOk(SweptAll(s).table[key], key, SweptAll(s).fates)
  {
    var id := s.table[key].command.id;
    assert RowOk(s.table[key], key, s.fates);
    LapsesAlone(s, key);
    hide Invariant, RowsOk, Lapsed;
  }

  /** Whether a command lapses is decided by its own row. */
  lemma LapsesAlone(s: State, key: Key)
    requires Invariant(s) && key in s.table
    ensures s.table[key].command.id in Lapsed(s) <==> Lapses(s, key)
  {
    var id := s.table[key].command.id;
    hide Invariant;
    if id in Lapsed(s) {
      var k :| k in s.table && Lapses(s, k) && s.table[k].command.id == id;
      RowsAreDistinct(s, k, key);
    }
  }

  lemma SweepFollows(s: State)
    requires Invariant(s)
    ensures TableFollows(SweptAll(s).table, s.inserted, s.now)
  {
    hide Commands, FarApart, RunsWritten, JobsWritten;
    forall key
      ensures var t := SweptAll(s).table; var last := LastFor(s.inserted, key);
              if key in t then
                && last.Some? && last.value.command == t[key].command
                && (Finished(t[key].status) ==> last.value.at <= t[key].completedAt)
              else last.Some? ==> last.value.at + KEEP_COMMANDS_MS < s.now
    {
      LastForIs(s.inserted, key);
    }
  }

  lemma SweepKeepsFates(s: State)
    requires Invariant(s)
    requires forall id :: id in Lapsed(s) ==> FateIs(s.fates, id, Waiting) && id !in s.jobs && id !in s.inserts
    ensures var t := SweptAll(s);
            && InsertsOk(t.inserts, t.fates) && JobsOk(t.jobs, t.inserts, t.fates)
            && RunsOk(t.runs, t.fates) && WrittenOk(t.inserted, t.fates, t.now)
  {
    hide RowsOk, Lapsed, TableFollows, FarApart, RunsWritten, JobsWritten;
  }

  lemma OthersKeep(s: State, e: Event)
    requires Invariant(s) && Enabled(s, e)
    requires e.Tick? || e.InsertUnknown? || e.RecordLost? || e.Forget? || e.Restart?
    ensures Invariant(Next(s, e))
  {
    hide RunsOk, RowsOk, InsertsOk, FarApart, RunsWritten, LastFor;
  }

  lemma StepKeeps(s: State, e: Event)
    requires Invariant(s)
    ensures Invariant(Next(s, e))
  {
    hide Invariant, Asked, LandedInsert, KnownInsert, Enqueued, ClaimedBy, RunOf, Recorded, Abandoned, SweptAll;
    hide Restarted, Answered;
    if Enabled(s, e) {
      match e {
        case Ask(p, user, order, sender, ttl) =>
          AskKeeps(s, p, NewCommand(s, user, order, sender, ttl));
        case InsertLands(id) => LandedKeeps(s, id);
        case InsertKnown(id) => KnownKeeps(s, id);
        case Enqueue(user, order, sender, ttl) =>
          EnqueueKeeps(s, NewCommand(s, user, order, sender, ttl));
        case Claim(p, key) => ClaimKeeps(s, key, p, true);
        case ClaimLost(key) => ClaimKeeps(s, key, 0, false);
        case RunCommand(id, o) => RunKeeps(s, id, o);
        case Record(id) => RecordKeeps(s, id);
        case Abandon(key) => AbandonKeeps(s, key);
        case Housekeeping => SweepKeeps(s);
        case _ => OthersKeep(s, e);
      }
    }
  }

  lemma StartKeeps()
    ensures Invariant(START)
  {
  }

  lemma {:induction false} AlwaysInvariant(es: seq<Event>)
    ensures Invariant(After(es))
  {
    hide Invariant, Next;
    if es == [] {
      StartKeeps();
    } else {
      AlwaysInvariant(es[..|es|-1]);
      StepKeeps(After(es[..|es|-1]), es[|es|-1]);
    }
  }

  // ---- at most once ---------------------------------------------------------------------------------

  lemma RunWasWritten(s: State, i: nat) returns (a: nat)
    requires Invariant(s) && i < |s.runs|
    ensures a < |s.inserted| && s.inserted[a].command == s.runs[i].command
  {
    hide Commands;
    assert Known(s.inserted, s.runs[i].command);
    a :| 0 <= a < |s.inserted| && s.inserted[a].command == s.runs[i].command;
  }

  /** Over every interleaving of direct attempts, the queue, several processes and their restarts: if the broker is
      asked twice for one request id, the id was written to the table twice, more than three days apart. */
  lemma RunsAreFarApart(es: seq<Event>, i: nat, j: nat) returns (a: nat, b: nat)
    requires i < j < |After(es).runs| && After(es).runs[i].command.key == After(es).runs[j].command.key
    ensures var s := After(es);
            && a < |s.inserted| && b < |s.inserted|
            && {s.inserted[a].command, s.inserted[b].command} == {s.runs[i].command, s.runs[j].command}
            && s.inserted[a].at + KEEP_COMMANDS_MS < s.inserted[b].at
  {
    AlwaysInvariant(es);
    var s := After(es);
    hide After;
    a := RunWasWritten(s, i);
    b := RunWasWritten(s, j);
    assert s.runs[i].command.id != s.runs[j].command.id;
    if b < a { a, b := b, a; }
  }

  /** The id was first written no more than three days ago, if at all. */
  ghost predicate Recent(s: State, key: Key) {
    forall i :: 0 <= i < |s.inserted| && s.inserted[i].command.key == key ==>
      s.now <= s.inserted[i].at + KEEP_COMMANDS_MS
  }

  lemma WrittenInThePast(es: seq<Event>)
    ensures forall i :: 0 <= i < |After(es).inserted| ==> After(es).inserted[i].at <= After(es).now
  {
    AlwaysInvariant(es);
  }

  /** So within three days of its first writing a request id reaches the broker at most once, whoever asks how often. */
  lemma AtMostOneRun(es: seq<Event>, key: Key, i: nat, j: nat)
    requires Recent(After(es), key)
    requires i < |After(es).runs| && j < |After(es).runs|
    requires After(es).runs[i].command.key == key == After(es).runs[j].command.key
    ensures i == j
  {
    if i != j {
      WrittenInThePast(es);
      var a, b := RunsAreFarApart(es, if i < j then i else j, if i < j then j else i);
    }
  }

  // ---- the row of the order protocol ----------------------------------------------------------------

  /** What the order protocol sees of a request id. */
  function RowOf(s: State, key: Key): Protocol.Row {
    match LastFor(s.inserted, key)
    case None => Protocol.NoRow
    case Some(x) => RowFor(x.command, s.fates)
  }

  function RowFor(c: Command, fates: Fates): Protocol.Row {
    if WasSent(fates, c.id) then Protocol.Executed(c.sender, c.order, fates[c.id].accepted)
    else if FateIs(fates, c.id, Void) then Protocol.Expired(c.sender, c.order)
    else Protocol.Reserved(c.sender, c.order)
  }

  /** How a fate may go on. */
  predicate FateStep(a: Fate, b: Fate) {
    || b == a
    || (a == Coming && (b == Denied || b == Held))
    || (a == Waiting && (b == Held || b == Void))
    || (a == Held && IsOver(b))
  }

  lemma OneFateSteps(fates: Fates, later: Fates, id: nat, j: nat, f: Fate)
    requires id in fates && later == fates[j := f] && (j in fates ==> FateStep(fates[j], f))
    ensures id in later && FateStep(fates[id], later[id])
  {
  }

  lemma SweptFatesStep(s: State, id: nat)
    requires Invariant(s) && id in s.fates
    ensures FateStep(s.fates[id], SweptAll(s).fates[id])
  {
    LapsedWereWaiting(s);
    hide Invariant, Lapsed;
  }

  /** The command whose fate a step decides, and what it becomes. */
  lemma OneFate(s: State, e: Event) returns (j: nat, f: Fate)
    requires Invariant(s) && Enabled(s, e) && (e.InsertLands? || e.RunCommand?)
    ensures j in s.fates && FateStep(s.fates[j], f) && Next(s, e).fates == s.fates[j := f]
  {
    hide RunsOk, RowsOk, History, Answered, Insert;
    match e {
      case InsertLands(id) => j, f := id, if s.inserts[id].key !in s.table then Held else Denied;
      case RunCommand(id, o) =>
        assert JobOk(s.jobs[id], id, s.inserts, s.fates);
        j, f := id, FateOf(o);
    }
  }

  lemma OneWaits(s: State, e: Event) returns (j: nat, f: Fate)
    requires Invariant(s) && Enabled(s, e) && (e.Claim? || e.ClaimLost? || e.Abandon?)
    ensures j in s.fates && FateStep(s.fates[j], f) && Next(s, e).fates == s.fates[j := f]
  {
    WaitingIsFree(s, e.key);
    hide Invariant;
    j, f := s.table[e.key].command.id, if e.Abandon? then Void else Held;
    FateOfWaiting(s, e);
  }

  lemma FateOfWaiting(s: State, e: Event)
    requires Enabled(s, e) && (e.Claim? || e.ClaimLost? || e.Abandon?)
    ensures Next(s, e).fates == s.fates[s.table[e.key].command.id := if e.Abandon? then Void else Held]
  {
    hide Claimed, LandedInsert, KnownInsert, Enqueued, RunOf, Recorded, SweptAll, Restarted, Asked, Answered;
  }

  lemma OtherFatesStay(s: State, e: Event, id: nat)
    requires Invariant(s) && id in s.fates
    requires !(e.InsertLands? || e.Claim? || e.ClaimLost? || e.RunCommand? || e.Abandon? || e.Housekeeping?)
    ensures id in Next(s, e).fates && Next(s, e).fates[id] == s.fates[id]
  {
    assert id < s.next;
    hide Invariant, Answered, Insert, Finish, Restarted, Earlier;
  }

  lemma FatesTakeSteps(s: State, e: Event, id: nat)
    requires Invariant(s) && id in s.fates
    ensures id in Next(s, e).fates && FateStep(s.fates[id], Next(s, e).fates[id])
  {
    hide Invariant, Next;
    if !Enabled(s, e) {
      PassedOver(s, e);
    } else if e.InsertLands? || e.RunCommand? {
      var j, f := OneFate(s, e);
      OneFateSteps(s.fates, Next(s, e).fates, id, j, f);
    } else if e.Claim? || e.ClaimLost? || e.Abandon? {
      var j, f := OneWaits(s, e);
      OneFateSteps(s.fates, Next(s, e).fates, id, j, f);
    } else if e.Housekeeping? {
      SweptFatesStep(s, id);
      assert Next(s, e) == SweptAll(s) by { SweepIsNext(s); }
    } else {
      OtherFatesStay(s, e, id);
    }
  }

  lemma PassedOver(s: State, e: Event)
    requires !Enabled(s, e)
    ensures Next(s, e) == s
  {
    hide Enabled;
  }

  lemma SweepIsNext(s: State)
    ensures Next(s, Housekeeping) == SweptAll(s)
  {
    hide SweptAll;
  }

  /** A step writes at most one row, and none for a key that has one. */
  lemma StepWrites(s: State, e: Event, key: Key)
    requires Invariant(s) && Recent(s, key)
    ensures var t := Next(s, e);
            || LastFor(t.inserted, key) == LastFor(s.inserted, key)
            || (LastFor(s.inserted, key) == None && LastFor(t.inserted, key).Some?
                && !WasSent(t.fates, LastFor(t.inserted, key).value.command.id)
                && !FateIs(t.fates, LastFor(t.inserted, key).value.command.id, Void))
  {
    hide Next, Commands, LastFor, FarApart, JobsWritten, RunsWritten, WrittenOk;
    var t := Next(s, e);
    LastForIs(s.inserted, key);
    if t.inserted != s.inserted {
      WritesOne(s, e);
      LastForMore(s.inserted, t.inserted[|s.inserted|], key);
    }
  }

  lemma WritesOne(s: State, e: Event)
    requires Invariant(s) && Next(s, e).inserted != s.inserted
    ensures var t := Next(s, e);
            && |t.inserted| == |s.inserted| + 1
            && var x := t.inserted[|s.inserted|];
            && t.inserted == s.inserted + [x] && x.command.key !in s.table
            && (FateIs(t.fates, x.command.id, Waiting) || FateIs(t.fates, x.command.id, Held))
  {
    hide Invariant, Insert;
    match e {
      case InsertLands(id) => LandedIsItself(s, id);
      case Enqueue(user, order, sender, ttl) =>
      case _ => OthersWriteNothing(s, e);
    }
  }

  lemma OthersWriteNothing(s: State, e: Event)
    requires !e.InsertLands? && !e.Enqueue?
    ensures Next(s, e).inserted == s.inserted
  {
    hide Answered, Sweep, Lapsed, Insert, Claimed, Finish, Earlier, LandedInsert, Enqueued;
  }

  lemma LandedIsItself(s: State, id: nat)
    requires Invariant(s)
    ensures id in s.inserts ==> s.inserts[id].id == id
  {
    hide RowsOk, RunsOk, JobsOk, History;
  }

  /** The worker keeps to what the order protocol takes for granted of it: within three days of the first writing of a
      request id, every event takes the row of the id one step as the protocol allows it, or none. */
  lemma StepsAreRowSteps(es: seq<Event>, e: Event, key: Key)
    requires Recent(After(es), key)
    ensures Protocol.RowStep(RowOf(After(es), key), RowOf(After(es + [e]), key))
  {
    AfterOneMore(es, e);
    AlwaysInvariant(es);
    hide After, Invariant, Next, Recent, RowOf;
    OneRowStep(After(es), e, key);
  }

  lemma OneRowStep(s: State, e: Event, key: Key)
    requires Invariant(s) && Recent(s, key)
    ensures Protocol.RowStep(RowOf(s, key), RowOf(Next(s, e), key))
  {
    StepWrites(s, e, key);
    var last := LastFor(s.inserted, key);
    hide Next, Invariant, LastFor, Recent, RowFor;
    if last.Some? {
      LastIsWritten(s, key);
      FatesTakeSteps(s, e, last.value.command.id);
      RowForSteps(last.value.command, s.fates, Next(s, e).fates);
    } else if LastFor(Next(s, e).inserted, key).Some? {
      NewRowFor(LastFor(Next(s, e).inserted, key).value.command, Next(s, e).fates);
    }
  }

  lemma RowForSteps(c: Command, fates: Fates, later: Fates)
    requires IsWritten(fates, c.id) && c.id in later && FateStep(fates[c.id], later[c.id])
    ensures Protocol.RowStep(RowFor(c, fates), RowFor(c, later))
  {
  }

  lemma NewRowFor(c: Command, fates: Fates)
    requires !WasSent(fates, c.id) && !FateIs(fates, c.id, Void)
    ensures RowFor(c, fates).Reserved?
  {
  }

  lemma LastIsWritten(s: State, key: Key)
    requires Invariant(s) && LastFor(s.inserted, key).Some?
    ensures IsWritten(s.fates, LastFor(s.inserted, key).value.command.id)
  {
    LastForIs(s.inserted, key);
    hide Commands, FarApart, TableFollows, JobsWritten, RunsWritten, LastFor;
  }

  // ---- what the direct lane says --------------------------------------------------------------------

  ghost predicate HasRunFor(runs: seq<Run>, key: Key, accepted: bool) {
    exists i :: 0 <= i < |runs| && IsRunFor(runs[i], key, accepted)
  }

  predicate IsRunFor(run: Run, key: Key, accepted: bool) { run.command.key == key && run.accepted == accepted }

  /** The i-th row written was one of the key, and its command never got to the broker. */
  predicate Lapsing(inserted: seq<Insertion>, fates: Fates, key: Key, i: int) {
    0 <= i < |inserted| && inserted[i].command.key == key && FateIs(fates, inserted[i].command.id, Void)
  }

  ghost predicate GivenUp(inserted: seq<Insertion>, fates: Fates, key: Key) {
    exists i :: Lapsing(inserted, fates, key, i)
  }

  ghost predicate TrueReply(s: State, key: Key, reply: Reply) {
    match reply
    case Executed(accepted) => HasRunFor(s.runs, key, accepted)
    case Refused(code, notSent) =>
      && (notSent ==> GivenUp(s.inserted, s.fates, key))
      && (!Uncertain(code) ==> GivenUp(s.inserted, s.fates, key) || HasRunFor(s.runs, key, false))
  }

  ghost predicate RepliesTrue(s: State) {
    forall place :: place in s.memory && s.memory[place].reply.Some? ==>
      TrueReply(s, place.key, s.memory[place].reply.value)
  }

  lemma OnlyMore(s: State, e: Event)
    ensures s.inserted <= Next(s, e).inserted && s.runs <= Next(s, e).runs
  {
    if e.InsertLands? || e.Enqueue? || e.RunCommand? {
      hide Answered, Insert;
    } else {
      hide Answered, Sweep, Lapsed, Insert, Claimed, Finish, Earlier, LandedInsert, Enqueued, RunOf;
    }
  }

  lemma RunStays(s: State, e: Event, key: Key, accepted: bool)
    requires HasRunFor(s.runs, key, accepted)
    ensures HasRunFor(Next(s, e).runs, key, accepted)
  {
    OnlyMore(s, e);
    var t := Next(s, e);
    hide Next;
    var i :| 0 <= i < |s.runs| && IsRunFor(s.runs[i], key, accepted);
    assert IsRunFor(t.runs[i], key, accepted);
  }

  lemma GivenUpStays(s: State, e: Event, key: Key)
    requires Invariant(s) && GivenUp(s.inserted, s.fates, key)
    ensures GivenUp(Next(s, e).inserted, Next(s, e).fates, key)
  {
    OnlyMore(s, e);
    var t := Next(s, e);
    var i :| Lapsing(s.inserted, s.fates, key, i);
    FatesTakeSteps(s, e, s.inserted[i].command.id);
    hide Next, Invariant;
    assert t.inserted[i] == s.inserted[i];
    assert Lapsing(t.inserted, t.fates, key, i);
  }

  lemma TrueReplyStays(s: State, e: Event, key: Key, reply: Reply)
    requires Invariant(s) && TrueReply(s, key, reply)
    ensures TrueReply(Next(s, e), key, reply)
  {
    hide Next, Invariant, GivenUp, HasRunFor;
    if GivenUp(s.inserted, s.fates, key) { GivenUpStays(s, e, key); }
    if HasRunFor(s.runs, key, true) { RunStays(s, e, key, true); }
    if HasRunFor(s.runs, key, false) { RunStays(s, e, key, false); }
  }

  /** A command that was sent has a run with what came of it. */
  lemma SentHasRun(s: State, key: Key)
    requires Invariant(s) && key in s.table && WasSent(s.fates, s.table[key].command.id)
    ensures HasRunFor(s.runs, key, s.fates[s.table[key].command.id].accepted)
  {
    var c := s.table[key].command;
    assert HasRun(s.runs, c.id);
    var i :| 0 <= i < |s.runs| && s.runs[i].command.id == c.id;
    var a := RunWasWritten(s, i);
    RowIsKnown(s, key);
    var b :| 0 <= b < |s.inserted| && s.inserted[b].command == c;
    assert a == b;
    assert RowOk(s.table[key], key, s.fates);
    assert IsRunFor(s.runs[i], key, s.fates[c.id].accepted);
  }

  lemma VoidIsGivenUp(s: State, key: Key)
    requires Invariant(s) && key in s.table && FateIs(s.fates, s.table[key].command.id, Void)
    ensures GivenUp(s.inserted, s.fates, key)
  {
    RowIsKnown(s, key);
    assert RowOk(s.table[key], key, s.fates);
    hide Invariant;
    var i :| 0 <= i < |s.inserted| && s.inserted[i].command == s.table[key].command;
    assert Lapsing(s.inserted, s.fates, key, i);
  }

  lemma EarlierIsTrue(s: State, key: Key)
    requires Invariant(s)
    ensures TrueReply(s, key, Earlier(s.table, key))
  {
    if key in s.table {
      assert RowOk(s.table[key], key, s.fates);
      hide Invariant, GivenUp, HasRunFor;
      var id := s.table[key].command.id;
      if WasSent(s.fates, id) { SentHasRun(s, key); }
      if FateIs(s.fates, id, Void) { VoidIsGivenUp(s, key); }
    }
  }

  lemma WordIsTrue(s: State, id: nat, o: Outcome)
    requires Invariant(s) && IsJob(s, id, Queued) && Plain(o)
    ensures TrueReply(RunOf(s, id, o), s.jobs[id].command.key, WordOn(o))
  {
    var t, c := RunOf(s, id, o), s.jobs[id].command;
    assert Known(s.inserted, c) && JobOk(s.jobs[id], id, s.inserts, s.fates);
    hide Invariant, Answered;
    if AsksBroker(o) {
      assert IsRunFor(t.runs[|s.runs|], c.key, o.accepted);
    } else {
      var i :| 0 <= i < |s.inserted| && s.inserted[i].command == c;
      assert Lapsing(t.inserted, t.fates, c.key, i);
    }
  }

  lemma StepKeepsReplies(s: State, e: Event)
    requires Invariant(s) && RepliesTrue(s)
    ensures RepliesTrue(Next(s, e))
  {
    var t := Next(s, e);
    forall place | place in t.memory && t.memory[place].reply.Some?
      ensures TrueReply(t, place.key, t.memory[place].reply.value)
    {
      hide Next, Invariant, TrueReply;
      if IsNew(s, t, place) {
        NewReply(s, e, place);
      } else {
        TrueReplyStays(s, e, place.key, t.memory[place].reply.value);
      }
    }
  }

  lemma AnsweredOnce(s: State, job: Job, reply: Reply, place: Place)
    requires var memory := Answered(s, job, reply);
             place in memory && (place !in s.memory || s.memory[place].reply != memory[place].reply)
    ensures place.key == job.command.key && Answered(s, job, reply)[place].reply == Some(reply)
  {
  }

  /** The reply at the place is new. */
  predicate IsNew(s: State, t: State, place: Place) {
    place in t.memory && t.memory[place].reply.Some? &&
    (place !in s.memory || s.memory[place].reply != t.memory[place].reply)
  }

  lemma NewEarlier(s: State, id: nat, place: Place)
    requires Invariant(s) && id in s.jobs && s.jobs[id].stage.Landed? && IsNew(s, KnownInsert(s, id), place)
    ensures TrueReply(KnownInsert(s, id), place.key, KnownInsert(s, id).memory[place].reply.value)
  {
    hide Invariant, TrueReply, Answered, Earlier;
    var job := s.jobs[id];
    if !job.stage.isNew {
      var reply := Earlier(s.table, job.command.key);
      AnsweredOnce(s, job, reply, place);
      EarlierIsTrue(s, place.key);
      SameTruth(s, KnownInsert(s, id), place.key, reply);
    }
  }

  lemma NewWord(s: State, id: nat, o: Outcome, place: Place)
    requires Invariant(s) && IsJob(s, id, Queued) && Plain(o) && IsNew(s, RunOf(s, id, o), place)
    ensures TrueReply(RunOf(s, id, o), place.key, RunOf(s, id, o).memory[place].reply.value)
  {
    hide Invariant, TrueReply, Answered, WordOn;
    AnsweredOnce(s, s.jobs[id], WordOn(o), place);
    WordIsTrue(s, id, o);
  }

  lemma NewReply(s: State, e: Event, place: Place)
    requires Invariant(s) && IsNew(s, Next(s, e), place)
    ensures TrueReply(Next(s, e), place.key, Next(s, e).memory[place].reply.value)
  {
    hide Invariant, TrueReply, RunOf, KnownInsert, Answered;
    hide Asked, LandedInsert, Enqueued, Recorded, Abandoned, SweptAll;
    if !Enabled(s, e) {
      hide Enabled;
    } else {
      match e {
        case InsertKnown(id) => NewEarlier(s, id, place);
        case InsertUnknown(id) =>
          AnsweredOnce(s, s.jobs[id], UNCERTAIN, place);
          Harmless(Next(s, e), place.key);
        case RunCommand(id, o) => NewWord(s, id, o, place);
        case _ => OthersAnswerNothing(s, e, place);
      }
    }
  }

  lemma OthersAnswerNothing(s: State, e: Event, place: Place)
    requires !(e.InsertKnown? || e.InsertUnknown? || e.RunCommand?)
    requires place in Next(s, e).memory && Next(s, e).memory[place].reply.Some?
    ensures place in s.memory && s.memory[place] == Next(s, e).memory[place]
  {
    hide Sweep, Lapsed, Insert, Finish, Claimed, Earlier, RunOf, KnownInsert, Answered;
  }

  lemma SameTruth(s: State, t: State, key: Key, reply: Reply)
    requires TrueReply(s, key, reply) && t.runs == s.runs && t.inserted == s.inserted && t.fates == s.fates
    ensures TrueReply(t, key, reply)
  {
  }

  lemma Harmless(s: State, key: Key)
    ensures TrueReply(s, key, UNCERTAIN)
  {
  }

  lemma {:induction false} RepliesAlwaysTrue(es: seq<Event>)
    ensures RepliesTrue(After(es))
  {
    hide Next, Invariant, TrueReply;
    if es != [] {
      RepliesAlwaysTrue(es[..|es|-1]);
      AlwaysInvariant(es[..|es|-1]);
      StepKeepsReplies(After(es[..|es|-1]), es[|es|-1]);
    }
  }

  /** What any process answers or remembers of a request is true: "executed" means that the broker was asked and did as
      the answer says, "not sent" that the row of the id has lapsed, and so, by the steps a row can take, that the
      broker never will be; and after an error code that is not an uncertain one the broker did not accept the order. */
  lemma RepliesAreTrue(es: seq<Event>, place: Place)
    requires Recent(After(es), place.key)
    requires place in After(es).memory && After(es).memory[place].reply.Some?
    ensures var row := RowOf(After(es), place.key);
            match After(es).memory[place].reply.value
            case Executed(accepted) => row.Executed? && row.accepted == accepted
            case Refused(code, notSent) =>
              && (notSent ==> row.Expired?)
              && (!Uncertain(code) ==> row.Expired? || (row.Executed? && !row.accepted))
  {
    AlwaysInvariant(es);
    RepliesAlwaysTrue(es);
    var s, key := After(es), place.key;
    hide After, Invariant, HasRunFor, GivenUp;
    assert TrueReply(s, key, s.memory[place].reply.value);
    if HasRunFor(s.runs, key, true) { RunIsTheRow(s, key, true); }
    if HasRunFor(s.runs, key, false) { RunIsTheRow(s, key, false); }
    if GivenUp(s.inserted, s.fates, key) {
      GivenUpIsTheRow(s, key);
    }
  }

  lemma RunIsTheRow(s: State, key: Key, accepted: bool)
    requires Invariant(s) && Recent(s, key) && HasRunFor(s.runs, key, accepted)
    ensures RowOf(s, key).Executed? && RowOf(s, key).accepted == accepted
  {
    var i :| 0 <= i < |s.runs| && IsRunFor(s.runs[i], key, accepted);
    var a := RunWasWritten(s, i);
    RunWasSent(s, i);
    hide Invariant, HasRunFor, LastFor;
    OnlyOneWritten(s, key, a);
  }

  lemma RunWasSent(s: State, i: nat)
    requires Invariant(s) && i < |s.runs|
    ensures FateIs(s.fates, s.runs[i].command.id, Sent(s.runs[i].accepted))
  {
    hide History, RowsOk, JobsOk, InsertsOk;
  }

  lemma GivenUpIsTheRow(s: State, key: Key)
    requires Invariant(s) && Recent(s, key) && GivenUp(s.inserted, s.fates, key)
    ensures RowOf(s, key).Expired?
  {
    var i :| Lapsing(s.inserted, s.fates, key, i);
    OnlyOneWritten(s, key, i);
  }

  lemma OnlyOneWritten(s: State, key: Key, a: nat)
    requires Invariant(s) && Recent(s, key) && a < |s.inserted| && s.inserted[a].command.key == key
    ensures LastFor(s.inserted, key) == Some(s.inserted[a])
  {
    LastIsLatest(s.inserted, key, a);
    LastForIs(s.inserted, key);
  }

  // ---- and what it cannot keep back --------------------------------------------------------------------

  /** A request that is asked again while it is being answered, or within ten minutes of the first time, changes
      nothing: it gets the answer that is remembered. */
  lemma RepeatIsRemembered(es: seq<Event>, p: nat, user: string, order: Order, sender: Sender, ttl: int)
    requires var s, place := After(es), Place(p, KeyOf(user, order));
             place in s.memory && (s.memory[place].reply == None || s.now - s.memory[place].at < 600_000)
    ensures After(es + [Ask(p, user, order, sender, ttl)]) == After(es)
  {
    AfterOneMore(es, Ask(p, user, order, sender, ttl));
    hide After;
    PassedOver(After(es), Ask(p, user, order, sender, ttl));
  }

  /** A request whose row was written, and a command that was claimed before it expired, are on their way to the
      broker. */
  lemma WrittenAndClaimedAreQueued(s: State, e: Event)
    requires Enabled(s, e) && (e.Claim? || (e.InsertKnown? && s.jobs[e.id].stage == Landed(true)))
    ensures var id := if e.Claim? then s.table[e.key].command.id else e.id;
            && IsJob(Next(s, e), id, Queued)
            && (e.Claim? ==>
                  var row := s.table[e.key];
                  && s.now < row.command.expiresAt && Next(s, e).jobs[id].command == row.command
                  && Next(s, e).table == s.table[e.key := row.(status := Running, claimedAt := s.now)])
            && (e.InsertKnown? ==> Next(s, e).jobs[id] == s.jobs[id].(stage := Queued))
  {
    hide Asked, LandedInsert, Enqueued, RunOf, Recorded, Abandoned, SweptAll;
  }

  /** A command that nobody has claimed can be withdrawn: then it has expired, and nothing else has changed in the
      table. */
  lemma WithdrawnHasExpired(s: State, key: Key)
    requires key in s.table && s.table[key].status == Pending
    ensures var row := s.table[key];
            Next(s, Abandon(key)).table == s.table[key := Row(row.command, Expired, row.claimedAt, s.now)]
  {
    hide Asked, LandedInsert, Enqueued, RunOf, Recorded, ClaimedBy, SweptAll;
  }

  /** A request lives as long as it was given from the moment it was asked or queued. */
  lemma LivesAsLongAsGiven(s: State, e: Event)
    requires Enabled(s, e) && (e.Ask? || e.Enqueue?)
    ensures var t := Next(s, e);
            && (e.Ask? ==> s.next in t.inserts && t.inserts[s.next].expiresAt == s.now + e.ttl)
            && (e.Enqueue? && KeyOf(e.user, e.order) !in s.table ==>
                  && KeyOf(e.user, e.order) in t.table
                  && t.table[KeyOf(e.user, e.order)].command.expiresAt == s.now + e.ttl)
  {
    hide LandedInsert, RunOf, Recorded, ClaimedBy, SweptAll, KnownInsert, Abandoned;
  }

  /** And the broker is never asked for it after that. */
  lemma {:induction false} NeverRunsLate(es: seq<Event>, i: nat)
    requires i < |After(es).runs|
    ensures After(es).runs[i].at <= After(es).runs[i].command.expiresAt
  {
    hide Next;
    var n := |es| - 1;
    var s := After(es[..n]);
    RunsOnTime(s, es[n]);
    if i < |s.runs| { NeverRunsLate(es[..n], i); }
  }

  lemma RunsOnTime(s: State, e: Event)
    ensures s.runs <= Next(s, e).runs
    ensures forall i :: |s.runs| <= i < |Next(s, e).runs| ==>
              Next(s, e).runs[i].at <= Next(s, e).runs[i].command.expiresAt
  {
    OnlyMore(s, e);
    hide Asked, LandedInsert, Enqueued, Recorded, ClaimedBy, SweptAll, KnownInsert, Abandoned, Answered, Restarted;
    if !e.RunCommand? { SameRuns(s, e); }
  }

  lemma SameRuns(s: State, e: Event)
    requires !e.RunCommand?
    ensures Next(s, e).runs == s.runs
  {
    hide Answered, Sweep, Lapsed, Insert, Claimed, Finish, Earlier, RunOf;
  }

  /** What became of a run is what the process answers to the request that waits for it. */
  lemma RunIsAnswered(s: State, id: nat, o: Outcome)
    requires Enabled(s, RunCommand(id, o)) && s.jobs[id].direct
    requires Place(s.jobs[id].process, s.jobs[id].command.key) in s.memory
    ensures var reply := Next(s, RunCommand(id, o)).memory[Place(s.jobs[id].process, s.jobs[id].command.key)].reply;
            match o
            case Success(accepted) => reply == Some(Executed(accepted))
            case BrokerRefused(code, _) => reply == Some(Refused(code, false))
            case Unfit(code) => reply == Some(Refused(code, false))
            case NotSent => reply == Some(Refused("NOT_SENT", true))
  {
    hide Asked, LandedInsert, KnownInsert, Enqueued, Recorded, Abandoned, SweptAll;
  }

  /** And it is stored in its row, if that is still the one that runs. */
  lemma RunIsStored(s: State, id: nat)
    requires Enabled(s, Record(id))
    ensures var c, t := s.jobs[id].command, Next(s, Record(id)).table;
            if c.key in s.table && s.table[c.key].command.id == id == c.id && s.table[c.key].status == Running then
              && t.Keys == s.table.Keys && t[c.key].command == s.table[c.key].command && t[c.key].completedAt == s.now
              && match s.jobs[id].stage.outcome
                 case Success(accepted) => t[c.key].status == Done(accepted)
                 case BrokerRefused(code, _) => t[c.key].status == Failed(code)
                 case Unfit(code) => t[c.key].status == Failed(code)
                 case NotSent => t[c.key].status == Failed("NOT_SENT")
            else c.id == id ==> t == s.table
  {
    hide Asked, LandedInsert, KnownInsert, Enqueued, RunOf, Abandoned, SweptAll;
  }

  /** A request whose id was in the table already is answered with what its row says, and with uncertainty while the
      row is not finished, or gone. */
  lemma EarlierRowIsAnswered(s: State, id: nat)
    requires id in s.jobs && s.jobs[id].stage == Landed(false) && s.jobs[id].direct
    requires Place(s.jobs[id].process, s.jobs[id].command.key) in s.memory
    ensures var key := s.jobs[id].command.key;
            var reply := Next(s, InsertKnown(id)).memory[Place(s.jobs[id].process, key)].reply;
            if key !in s.table || s.table[key].status in {Pending, Running} then
              reply == Some(Refused("ORDER_UNCERTAIN", false))
            else match s.table[key].status
              case Done(accepted) => reply == Some(Executed(accepted))
              case Failed(code) => reply == Some(Refused(code, false))
              case Expired => reply == Some(Refused("NOT_SENT", false))
              case _ => true
  {
    hide Asked, LandedInsert, Enqueued, RunOf, Recorded, Abandoned, SweptAll;
  }

  predicate Overdue(row: Row, now: int) {
    || (row.status == Pending && row.command.expiresAt < now)
    || (row.status == Running && row.claimedAt < now - 120_000)
    || (Finished(row.status) && row.completedAt < now - 259_200_000)
  }

  /** Housekeeping expires commands nobody picked up in time, gives up those a worker has had for two minutes, and
      deletes the finished ones after three days; nothing else. */
  lemma HousekeepingIsExact(s: State, key: Key)
    ensures var t := Next(s, Housekeeping).table;
            if key !in s.table then key !in t
            else
              var row := s.table[key];
              if !Overdue(row, s.now) then key in t && t[key] == row
              else if Finished(row.status) then key !in t
              else
                && key in t
                && t[key] == row.(status := if row.status == Pending then Expired else Failed("WORKER_LOST"),
                                  completedAt := s.now)
  {
    hide Lapsed, Asked, LandedInsert, KnownInsert, Enqueued, RunOf, Recorded, Abandoned;
  }

  // ---- after three days -----------------------------------------------------------------------------

  lemma AfterOneMore(es: seq<Event>, e: Event)
    ensures After(es + [e]) == Next(After(es), e)
  {
    assert (es + [e])[..|es|] == es;
  }

  /** The events of a command from the queue: written, claimed, run and recorded. */
  function Runs(user: string, order: Order, sender: Sender, id: nat): seq<Event> {
    [Enqueue(user, order, sender, 90_000), Claim(0, KeyOf(user, order)), RunCommand(id, Success(true)), Record(id)]
  }

  function Written(s: State, user: string, order: Order, sender: Sender): Command {
    Command(s.next, KeyOf(user, order), order, sender, s.now + 90_000)
  }

  /** A command of a key without a row runs. */
  lemma RunsOnce(es: seq<Event>, user: string, order: Order, sender: Sender)
    requires KeyOf(user, order) !in After(es).table && After(es).next !in After(es).jobs
    ensures var s := After(es);
            var t := After(es + Runs(user, order, sender, s.next));
            var c := Written(s, user, order, sender);
            && t.runs == s.runs + [Run(c, s.now, true)] && t.next == s.next + 1 && t.now == s.now && t.jobs == s.jobs
            && t.table == s.table[c.key := Row(c, Done(true), s.now, s.now)]
  {
    var s, key := After(es), KeyOf(user, order);
    var c := Written(s, user, order, sender);
    hide Next, After;
    var a := WrittenAlone(s, user, order, sender);
    var b := ClaimedAlone(a, c, s.table);
    var d := RunAlone(b, c);
    var e := RecordedAlone(d, c, s.table);
    FourMore(es, Enqueue(user, order, sender, 90_000), Claim(0, key), RunCommand(s.next, Success(true)),
             Record(s.next));
    assert e.jobs == s.jobs;
  }

  lemma FourMore(es: seq<Event>, a: Event, b: Event, c: Event, d: Event)
    ensures After(es + [a, b, c, d]) == Next(Next(Next(Next(After(es), a), b), c), d)
  {
    AfterOneMore(es, a);
    AfterOneMore(es + [a], b);
    AfterOneMore(es + [a] + [b], c);
    AfterOneMore(es + [a] + [b] + [c], d);
    hide Next, After;
    assert es + [a] + [b] + [c] + [d] == es + [a, b, c, d];
  }

  lemma WrittenAlone(s: State, user: string, order: Order, sender: Sender) returns (a: State)
    requires KeyOf(user, order) !in s.table
    ensures var c := Written(s, user, order, sender);
            && a == Next(s, Enqueue(user, order, sender, 90_000))
            && a.table == s.table[c.key := Row(c, Pending, s.now, 0)] && a.jobs == s.jobs
            && a.runs == s.runs && a.next == s.next + 1 && a.now == s.now
  {
    a := Next(s, Enqueue(user, order, sender, 90_000));
  }

  lemma ClaimedAlone(s: State, c: Command, t: Table) returns (b: State)
    requires s.table == t[c.key := Row(c, Pending, s.now, 0)] && c.expiresAt == s.now + 90_000
    ensures b == Next(s, Claim(0, c.key))
    ensures b.table == t[c.key := Row(c, Running, s.now, 0)] && b.jobs == s.jobs[c.id := Job(0, c, false, Queued)]
    ensures b.runs == s.runs && b.next == s.next && b.now == s.now
  {
    b := Next(s, Claim(0, c.key));
  }

  lemma RunAlone(s: State, c: Command) returns (b: State)
    requires c.id in s.jobs && s.jobs[c.id] == Job(0, c, false, Queued) && s.now <= c.expiresAt
    ensures b == Next(s, RunCommand(c.id, Success(true)))
    ensures b.table == s.table && b.jobs == s.jobs[c.id := Job(0, c, false, Ran(Success(true)))]
    ensures b.runs == s.runs + [Run(c, s.now, true)] && b.next == s.next && b.now == s.now
  {
    b := Next(s, RunCommand(c.id, Success(true)));
  }

  lemma RecordedAlone(s: State, c: Command, t: Table) returns (b: State)
    requires c.id in s.jobs && s.jobs[c.id] == Job(0, c, false, Ran(Success(true)))
    requires s.table == t[c.key := Row(c, Running, s.now, 0)]
    ensures b == Next(s, Record(c.id))
    ensures b.table == t[c.key := Row(c, Done(true), s.now, s.now)] && b.jobs == s.jobs - {c.id}
    ensures b.runs == s.runs && b.next == s.next && b.now == s.now
  {
    b := Next(s, Record(c.id));
  }

  lemma RowIsDeleted(s: State, t: int, key: Key)
    requires key in s.table && Finished(s.table[key].status)
    requires s.now <= t && s.table[key].completedAt + KEEP_COMMANDS_MS < t
    ensures var u := Next(Next(s, Tick(t)), Housekeeping);
            key !in u.table && u.jobs == s.jobs && u.runs == s.runs && u.next == s.next && u.now == t
  {
    var u := Next(s, Tick(t));
    assert u.table == s.table && u.now == t;
    assert Purged(Swept(u.table[key], t), t);
  }

  lemma NextIsFree(es: seq<Event>)
    ensures After(es).next !in After(es).jobs
  {
    AlwaysInvariant(es);
    var s := After(es);
    hide After, History, RowsOk, RunsOk, InsertsOk;
    assert forall id :: id in s.jobs ==> JobOk(s.jobs[id], id, s.inserts, s.fates);
  }

  /** The three days are not idle: whatever happened before, once a finished row is more than three days old and
      housekeeping has been at work, the same id, sent again with any order, runs once more. */
  lemma DeletedIdRunsAgain(es: seq<Event>, t: int, user: string, order: Order, sender: Sender)
    requires var s, key := After(es), KeyOf(user, order);
             && key in s.table && Finished(s.table[key].status)
             && s.now <= t && s.table[key].completedAt + KEEP_COMMANDS_MS < t
    ensures var s := After(es);
            var later := After(es + [Tick(t), Housekeeping] + Runs(user, order, sender, s.next));
            && |later.runs| == |s.runs| + 1 && s.runs <= later.runs
            && var run := later.runs[|s.runs|];
            run.command.key == KeyOf(user, order) && run.command.order == order && run.accepted
  {
    var idle := es + [Tick(t), Housekeeping];
    AfterOneMore(es, Tick(t));
    AfterOneMore(es + [Tick(t)], Housekeeping);
    assert es + [Tick(t)] + [Housekeeping] == idle;
    RowIsDeleted(After(es), t, KeyOf(user, order));
    hide Next, After, Runs, KeyOf;
    NextIsFree(idle);
    RunsOnce(idle, user, order, sender);
  }
}
