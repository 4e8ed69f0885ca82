// Saving and loading the terminal workspace (`send`, `update` and the stored-copy effect of
// useTerminalWorkspace, src/hooks/useTerminalWorkspace.ts).
//
// `Hook` holds the refs of the hook; each of its methods is one stretch of code between two awaits.
// `System` puts the stored copy beside them: the server applies the patch of a request at some moment
// before the answer. It may have applied it although the answer is an error, and if it has not, it may
// still do so at any later moment, after other requests.

module WorkspaceSync {
  import opened Common
  import opened WorkspacePatches

  datatype Outcome = Saved | Unavailable | Failed

  /** Where `send` stands: it does not run, waits for the answer to `patch`, or pauses between two requests. */
  datatype Sender = Resting | Posting(patch: Patch, keepalive: bool) | Pausing

  datatype Client = Client(screen: Workspace, sinceMount: Option<Patch>, pending: Option<Patch>, sender: Sender)

  // ---- the client's steps, as values -------------------------------------------------------------

  function Changed(c: Client, patch: Patch): Client {
    c.(screen := Merge(c.screen, patch),
       sinceMount := Some(Combine(c.sinceMount, patch)),
       pending := Some(Combine(c.pending, patch)))
  }

  /** The head of the loop in `send`: take what is pending, or stop. */
  function TakePending(c: Client, keepalive: bool): Client {
    if c.pending.Some?
    then c.(pending := None, sender := Posting(c.pending.value, keepalive))
    else c.(sender := Resting)
  }

  function Asked(c: Client, keepalive: bool): Client {
    if c.sender != Resting then c else TakePending(c, keepalive)
  }

  function Answered(c: Client, outcome: Outcome): Client
    requires c.sender.Posting?
  {
    if outcome == Failed then
      var newer := if c.pending.Some? then c.pending.value else EMPTY;
      c.(pending := Some(Combine(Some(c.sender.patch), newer)), sender := Resting)
    else if c.sender.keepalive || c.pending.None? then c.(sender := Resting)
    else c.(sender := Pausing)
  }

  function Loaded(c: Client, stored: Workspace): Client {
    c.(screen := if c.sinceMount.Some? then Merge(stored, c.sinceMount.value) else stored)
  }

  // ---- the code ---------------------------------------------------------------------------------

  class Hook {
    var workspaceRef: Workspace
    var sinceMountRef: Option<Patch>
    var pendingRef: Option<Patch>
    var saving: Sender

    function Value(): Client
      reads this
    {
      Client(workspaceRef, sinceMountRef, pendingRef, saving)
    }

    constructor (local: Workspace)
      ensures Value() == Client(local, None, None, Resting)
    {
      workspaceRef, sinceMountRef, pendingRef, saving := local, None, None, Resting;
    }

    method Update(patch: Patch)
      modifies this
      ensures Value() == Changed(old(Value()), patch)
    {
      workspaceRef := Merge(workspaceRef, patch);
      sinceMountRef := Some(Combine(sinceMountRef, patch));
      pendingRef := Some(Combine(pendingRef, patch));
    }

    /** One turn of the loop up to its await. */
    method Turn(keepalive: bool)
      modifies this
      ensures Value() == TakePending(old(Value()), keepalive)
    {
      if pendingRef.Some? {
        var patch := pendingRef.value;
        pendingRef := None;
        saving := Posting(patch, keepalive);
      } else {
        saving := Resting;
      }
    }

    method Send(keepalive: bool)
      modifies this
      ensures Value() == Asked(old(Value()), keepalive)
    {
      if saving != Resting { return; }
      Turn(keepalive);
    }

    method OnAnswer(outcome: Outcome)
      requires saving.Posting?
      modifies this
      ensures Value() == Answered(old(Value()), outcome)
    {
      if outcome == Failed {
        var newer := if pendingRef.Some? then pendingRef.value else EMPTY;
        pendingRef := Some(Combine(Some(saving.patch), newer));
        saving := Resting;
        return;
      }
      if saving.keepalive {
        saving := Resting;
      } else if pendingRef.Some? {
        saving := Pausing;
      } else {
        Turn(false);
      }
    }

    method OnPauseOver()
      requires saving == Pausing
      modifies this
      ensures Value() == TakePending(old(Value()), false)
    {
      Turn(false);
    }

    method OnLoaded(stored: Workspace)
      modifies this
      ensures Value() == Loaded(old(Value()), stored)
    {
      workspaceRef := if sinceMountRef.Some? then Merge(stored, sinceMountRef.value) else stored;
    }
  }

  // ---- client and server ------------------------------------------------------------------------

  /** The read of the stored copy: not answered yet by the server, under way with what it read, or over. */
  datatype Load = Waiting | UnderWay(copy: Option<Workspace>) | Finished(persisted: bool)

  datatype System = System(
    client: Client,
    stored: Workspace,   // what the server would merge the next patch into
    persisted: bool,     // whether it has ever been written
    applied: bool,       // the server has applied the patch of the request under way
    late: seq<Patch>,    // patches of failed requests that the server may still apply
    load: Load)

  function Mounted(local: Workspace, stored: Workspace, persisted: bool): System {
    System(Client(local, None, None, Resting), stored, persisted, false, [], Waiting)
  }

  datatype Event =
    | Update(patch: Patch)       // the user changes something
    | Send(keepalive: bool)      // the debounce timer or a hidden page
    | Apply                      // the server merges the patch into the stored copy
    | Answer(outcome: Outcome)   // the request is answered, or its connection is lost
    | ApplyLate(i: nat)          // the server merges the patch of a request that had failed
    | PauseOver
    | Read                       // the server reads the stored copy
    | ReadAnswered               // its answer reaches the page
    | ReadLost                   // the read fails or the answer is lost

  ghost predicate Enabled(s: System, e: Event) {
    match e
    case Update(_) => true
    case Send(_) => true
    case Apply => s.client.sender.Posting? && !s.applied
    case Answer(outcome) =>
      s.client.sender.Posting? && (outcome == Saved ==> s.applied) && (outcome == Unavailable ==> !s.applied)
    case ApplyLate(i) => i < |s.late|
    case PauseOver => s.client.sender == Pausing
    case Read => s.load == Waiting
    case ReadAnswered => s.load.UnderWay?
    case ReadLost => !s.load.Finished?
  }

  /** One event; an event that cannot happen now is passed over. */
  ghost function Next(s: System, e: Event): System {
    if !Enabled(s, e) then s
    else match e
      case Update(patch) => s.(client := Changed(s.client, patch))
      case Send(keepalive) => s.(client := Asked(s.client, keepalive))
      case Apply => s.(stored := Merge(s.stored, s.client.sender.patch), persisted := true, applied := true)
      case Answer(outcome) =>
        var late := if outcome == Failed && !s.applied then s.late + [s.client.sender.patch] else s.late;
        s.(client := Answered(s.client, outcome), applied := false, late := late)
      case ApplyLate(i) =>
        s.(stored := Merge(s.stored, s.late[i]), persisted := true, late := s.late[..i] + s.late[i+1..])
      case PauseOver => s.(client := TakePending(s.client, false))
      case Read => s.(load := UnderWay(if s.persisted then Some(s.stored) else None))
      case ReadAnswered =>
        if s.load.copy.Some?
        then s.(client := Loaded(s.client, s.load.copy.value), load := Finished(true))
        else s.(load := Finished(false))
      case ReadLost => s.(load := Finished(false))
  }

  ghost function After(start: System, es: seq<Event>): System {
    if es == [] then start else Next(After(start, es[..|es|-1]), es[|es|-1])
  }

  // ---- nothing is lost --------------------------------------------------------------------------

  /** All patches since the page opened, oldest first, one over the other. */
  function AllChanges(es: seq<Event>): Overrides {
    if es == [] then map[]
    else AllChanges(es[..|es|-1]) + if es[|es|-1].Update? then Leaves(es[|es|-1].patch) else map[]
  }

  function InFlight(c: Client): Overrides {
    if c.sender.Posting? then Leaves(c.sender.patch) else map[]
  }

  ghost predicate SameOutside(a: Workspace, b: Workspace, leaves: set<Leaf>) {
    forall l: Leaf :: l !in leaves ==> Get(a, l) == Get(b, l)
  }

  /** The settings whose newest change the client still has to bring to the server. */
  function Open(s: System): set<Leaf> {
    LeavesOf(s.client.pending).Keys + if s.applied then {} else InFlight(s.client).Keys
  }

  /** What an unavailable storage gave up: it did not hold these values anyway. */
  function GivenUp(s: System): set<Leaf> {
    set l | l in InFlight(s.client) && Get(s.stored, l) != Get(Over(s.stored, InFlight(s.client)), l)
  }

  /** What a late patch sets to something else than the newest change, and no later request puts right. */
  function Outdated(s: System, late: Patch, changes: Overrides): set<Leaf> {
    set l | l in Leaves(late) && l !in Open(s) && !(l in changes && Leaves(late)[l] == changes[l])
  }

  /** Settings whose change was given up because the storage was unavailable or overwritten by a late request, and that
      nothing has saved since. */
  ghost function Lost(start: System, es: seq<Event>): set<Leaf> {
    if es == [] then {}
    else
      var s, e := After(start, es[..|es|-1]), es[|es|-1];
      LostNow(s, e, AllChanges(es[..|es|-1]), Lost(start, es[..|es|-1]))
  }

  ghost function LostNow(s: System, e: Event, changes: Overrides, lost: set<Leaf>): set<Leaf> {
    if !Enabled(s, e) then lost
    else match e
      case Apply => lost - InFlight(s.client).Keys
      case Answer(outcome) => if outcome == Unavailable then lost - InFlight(s.client).Keys + GivenUp(s) else lost
      case ApplyLate(i) => lost - Leaves(s.late[i]).Keys + Outdated(s, s.late[i], changes)
      case _ => lost
  }

  /** The stored copy holds the newest change of the setting, or what it held at the start if there is none. */
  predicate Right(stored: Workspace, start: Workspace, changes: Overrides, l: Leaf) {
    Get(stored, l) == Get(Over(start, changes), l)
  }

  /** The stored copy against all changes: `way` is on its way, `wait` waits. */
  ghost predicate Accounted(stored: Workspace, way: Overrides, wait: Overrides, open: set<Leaf>,
                            start: Workspace, changes: Overrides, lost: set<Leaf>) {
    // what is not saved yet is the newest change of each setting it names
    && (forall l: Leaf :: l in way + wait ==> l in changes && (way + wait)[l] == changes[l])
    // every setting that is not to be brought yet is stored as it should be, except exactly the lost ones
    && (forall l: Leaf :: l !in open ==> (Right(stored, start, changes, l) <==> l !in lost))
    && SameOutside(stored, start, changes.Keys)
    && way.Keys <= changes.Keys
  }

  ghost predicate Invariant(s: System, start: Workspace, changes: Overrides, lost: set<Leaf>) {
    && LeavesOf(s.client.sinceMount) == changes
    && Accounted(s.stored, InFlight(s.client), LeavesOf(s.client.pending), Open(s), start, changes, lost)
    && (s.applied ==> s.client.sender.Posting?)
    && (forall i :: 0 <= i < |s.late| ==> Leaves(s.late[i]).Keys <= changes.Keys)
    && (s.load.UnderWay? && s.load.copy.Some? ==> SameOutside(s.load.copy.value, start, changes.Keys))
    && (s.load == Finished(true) ==> s.client.screen == Over(start, changes))
  }

  lemma OverSameOutside(a: Workspace, b: Workspace, o: Overrides)
    requires SameOutside(a, b, o.Keys)
    ensures Over(a, o) == Over(b, o)
  {
    forall l: Leaf ensures Get(Over(a, o), l) == Get(Over(b, o), l) {
      GetOver(a, o, l);
      GetOver(b, o, l);
    }
    SameEverywhere(Over(a, o), Over(b, o));
  }

  /** A patch puts right what it names with the newest change, and leaves the rest as it is. */
  lemma RightOver(stored: Workspace, o: Overrides, start: Workspace, changes: Overrides, l: Leaf)
    requires o.Keys <= changes.Keys
    ensures Right(Over(stored, o), start, changes, l) <==>
              if l in o then o[l] == changes[l] else Right(stored, start, changes, l)
  {
    GetOver(stored, o, l);
    GetOver(start, changes, l);
  }

  lemma SameOutsideOver(stored: Workspace, o: Overrides, start: Workspace, leaves: set<Leaf>)
    requires SameOutside(stored, start, leaves) && o.Keys <= leaves
    ensures SameOutside(Over(stored, o), start, leaves)
  {
    forall l: Leaf | l !in leaves ensures Get(Over(stored, o), l) == Get(start, l) { GetOver(stored, o, l); }
  }

  lemma RightAfterChange(stored: Workspace, start: Workspace, changes: Overrides, t: Overrides, l: Leaf)
    requires l !in t
    ensures Right(stored, start, changes + t, l) <==> Right(stored, start, changes, l)
  {
    GetOver(start, changes, l);
    GetOver(start, changes + t, l);
  }

  lemma ChangeIsAccounted(stored: Workspace, way: Overrides, wait: Overrides, open: set<Leaf>, t: Overrides,
                          start: Workspace, changes: Overrides, lost: set<Leaf>)
    requires Accounted(stored, way, wait, open, start, changes, lost)
    ensures Accounted(stored, way, wait + t, open + t.Keys, start, changes + t, lost)
  {
    hide Right;
    forall l: Leaf | l !in open + t.Keys ensures Right(stored, start, changes + t, l) <==> l !in lost {
      RightAfterChange(stored, start, changes, t, l);
    }
  }

  lemma AppliedIsAccounted(stored: Workspace, way: Overrides, wait: Overrides,
                           start: Workspace, changes: Overrides, lost: set<Leaf>)
    requires Accounted(stored, way, wait, wait.Keys + way.Keys, start, changes, lost)
    ensures Accounted(Over(stored, way), way, wait, wait.Keys, start, changes, lost - way.Keys)
  {
    hide Right, Over;
    SameOutsideOver(stored, way, start, changes.Keys);
    forall l: Leaf | l !in wait ensures Right(Over(stored, way), start, changes, l) <==> l !in lost - way.Keys {
      RightOver(stored, way, start, changes, l);
      assert l in way ==> (way + wait)[l] == way[l];
    }
  }

  lemma LateIsAccounted(s: System, late: Patch, start: Workspace, changes: Overrides, lost: set<Leaf>)
    requires Accounted(s.stored, InFlight(s.client), LeavesOf(s.client.pending), Open(s), start, changes, lost)
    requires Leaves(late).Keys <= changes.Keys
    ensures Accounted(Merge(s.stored, late), InFlight(s.client), LeavesOf(s.client.pending), Open(s), start, changes,
                      lost - Leaves(late).Keys + Outdated(s, late, changes))
  {
    hide Right, Over, Leaves, LeavesOf, InFlight, Open;
    var o, now := Leaves(late), lost - Leaves(late).Keys + Outdated(s, late, changes);
    SameOutsideOver(s.stored, o, start, changes.Keys);
    forall l: Leaf | l !in Open(s) ensures Right(Over(s.stored, o), start, changes, l) <==> l !in now {
      RightOver(s.stored, o, start, changes, l);
    }
  }

  lemma GivenUpIsAccounted(s: System, start: Workspace, changes: Overrides, lost: set<Leaf>)
    requires var way, wait := InFlight(s.client), LeavesOf(s.client.pending);
             Accounted(s.stored, way, wait, wait.Keys + way.Keys, start, changes, lost)
    ensures var way, wait := InFlight(s.client), LeavesOf(s.client.pending);
            Accounted(s.stored, map[], wait, wait.Keys, start, changes, lost - way.Keys + GivenUp(s))
  {
    hide Over, Leaves, LeavesOf, InFlight;
    var way, wait := InFlight(s.client), LeavesOf(s.client.pending);
    assert map[] + wait == wait;
    forall l: Leaf | l !in wait
      ensures Right(s.stored, start, changes, l) <==> l !in lost - way.Keys + GivenUp(s)
    {
      RightOver(s.stored, way, start, changes, l);
      assert l in way ==> (way + wait)[l] == way[l];
    }
  }

  lemma UpdateKeeps(s: System, patch: Patch, start: Workspace, changes: Overrides, lost: set<Leaf>)
    requires Invariant(s, start, changes, lost)
    ensures Invariant(Next(s, Update(patch)), start, changes + Leaves(patch), lost)
  {
    hide Leaves, Combine, Over, Accounted, Get;
    var c, t := s.client, Leaves(patch);
    LeavesOfCombine(c.sinceMount, patch);
    LeavesOfCombine(c.pending, patch);
    OverOver(start, changes, t);
    ChangeIsAccounted(s.stored, InFlight(c), LeavesOf(c.pending), Open(s), t, start, changes, lost);
    assert Open(Next(s, Update(patch))) == Open(s) + t.Keys;
  }

  lemma FailureKeeps(s: System, start: Workspace, changes: Overrides, lost: set<Leaf>)
    requires Invariant(s, start, changes, lost) && Enabled(s, Answer(Failed))
    ensures Invariant(Next(s, Answer(Failed)), start, changes, lost)
  {
    hide Leaves, Combine, Accounted, Over, Get;
    var t, way := Next(s, Answer(Failed)), InFlight(s.client);
    FailedPatchWaitsAgain(s.client);
    RequeuedIsAccounted(s.stored, way, LeavesOf(s.client.pending), Open(s), start, changes, lost);
    assert Open(t) == Open(s) + way.Keys;
    forall i | 0 <= i < |t.late| ensures Leaves(t.late[i]).Keys <= changes.Keys {
      assert i < |s.late| ==> t.late[i] == s.late[i];
      assert i == |s.late| ==> Leaves(t.late[i]) == way;
    }
  }

  lemma SuccessKeeps(s: System, start: Workspace, changes: Overrides, lost: set<Leaf>)
    requires Invariant(s, start, changes, lost) && Enabled(s, Answer(Saved))
    ensures Invariant(Next(s, Answer(Saved)), start, changes, lost)
  {
    hide Leaves, Combine, Accounted, Over, Get;
    AnsweredIsAccounted(s.stored, InFlight(s.client), LeavesOf(s.client.pending), Open(s), start, changes, lost);
    assert Open(Next(s, Answer(Saved))) == Open(s);
  }

  lemma UnavailableKeeps(s: System, start: Workspace, changes: Overrides, lost: set<Leaf>)
    requires Invariant(s, start, changes, lost) && Enabled(s, Answer(Unavailable))
    ensures Invariant(Next(s, Answer(Unavailable)), start, changes, lost - InFlight(s.client).Keys + GivenUp(s))
  {
    hide Leaves, Combine, Accounted, Over, Get;
    assert Open(s) == LeavesOf(s.client.pending).Keys + InFlight(s.client).Keys;
    GivenUpIsAccounted(s, start, changes, lost);
    assert Open(Next(s, Answer(Unavailable))) == LeavesOf(s.client.pending).Keys;
  }

  lemma AnsweredIsAccounted(stored: Workspace, way: Overrides, wait: Overrides, open: set<Leaf>,
                            start: Workspace, changes: Overrides, lost: set<Leaf>)
    requires Accounted(stored, way, wait, open, start, changes, lost)
    ensures Accounted(stored, map[], wait, open, start, changes, lost)
  {
    hide Right;
    assert map[] + wait == wait;
  }

  lemma RequeuedIsAccounted(stored: Workspace, way: Overrides, wait: Overrides, open: set<Leaf>,
                            start: Workspace, changes: Overrides, lost: set<Leaf>)
    requires Accounted(stored, way, wait, open, start, changes, lost)
    ensures Accounted(stored, map[], way + wait, open + way.Keys, start, changes, lost)
    ensures way.Keys <= changes.Keys
  {
    hide Right;
    assert map[] + (way + wait) == way + wait;
  }

  /** A failed request goes back in front of the changes made meanwhile. */
  lemma FailedPatchWaitsAgain(c: Client)
    requires c.sender.Posting?
    ensures InFlight(Answered(c, Failed)) == map[]
    ensures LeavesOf(Answered(c, Failed).pending) == InFlight(c) + LeavesOf(c.pending)
  {
    hide Leaves, Combine;
    var newer := if c.pending.Some? then c.pending.value else EMPTY;
    LeavesOfCombine(Some(c.sender.patch), newer);
    EmptyHasNoLeaves();
  }

  lemma SendKeeps(s: System, e: Event, start: Workspace, changes: Overrides, lost: set<Leaf>)
    requires Invariant(s, start, changes, lost) && Enabled(s, e) && (e.Send? || e.PauseOver?)
    ensures Invariant(Next(s, e), start, changes, lost)
  {
    hide Leaves, Combine, Right, Over, Get;
    var wait := LeavesOf(s.client.pending);
    assert map[] + wait == wait && wait + map[] == wait;
    assert Open(Next(s, e)) == Open(s);
  }

  lemma ApplyKeeps(s: System, start: Workspace, changes: Overrides, lost: set<Leaf>)
    requires Invariant(s, start, changes, lost) && Enabled(s, Apply)
    ensures Invariant(Next(s, Apply), start, changes, lost - InFlight(s.client).Keys)
  {
    hide Accounted, Leaves, Over, Get;
    AppliedIsAccounted(s.stored, InFlight(s.client), LeavesOf(s.client.pending), start, changes, lost);
    assert Open(Next(s, Apply)) == LeavesOf(s.client.pending).Keys;
  }

  lemma ApplyLateKeeps(s: System, i: nat, start: Workspace, changes: Overrides, lost: set<Leaf>)
    requires Invariant(s, start, changes, lost) && i < |s.late|
    ensures Invariant(Next(s, ApplyLate(i)), start, changes, LostNow(s, ApplyLate(i), changes, lost))
  {
    hide Accounted, Leaves, Over, Get, Outdated;
    LateIsAccounted(s, s.late[i], start, changes, lost);
    assert Open(Next(s, ApplyLate(i))) == Open(s);
  }

  lemma LoadKeeps(s: System, e: Event, start: Workspace, changes: Overrides, lost: set<Leaf>)
    requires Invariant(s, start, changes, lost) && Enabled(s, e) && (e.Read? || e.ReadAnswered? || e.ReadLost?)
    ensures Invariant(Next(s, e), start, changes, lost)
  {
    hide Leaves, Right, Over, Get;
    if e.ReadAnswered? && s.load.copy.Some? {
      OverSameOutside(s.load.copy.value, start, changes);
      NothingOver(s.load.copy.value);
    }
  }

  lemma EmptyHasNoLeaves()
    ensures Leaves(EMPTY) == map[]
  {
    assert Names(EMPTY) == {};
  }

  /** What an event adds to all changes. */
  function ChangesOf(e: Event): Overrides {
    if e.Update? then Leaves(e.patch) else map[]
  }

  lemma StepKeeps(s: System, e: Event, start: Workspace, changes: Overrides, lost: set<Leaf>)
    requires Invariant(s, start, changes, lost)
    ensures Invariant(Next(s, e), start, changes + ChangesOf(e), LostNow(s, e, changes, lost))
  {
    hide Invariant, Leaves, Next;
    assert changes + map[] == changes;
    if Enabled(s, e) {
      match e {
        case Update(patch) => UpdateKeeps(s, patch, start, changes, lost);
        case Answer(outcome) =>
          if outcome == Failed { FailureKeeps(s, start, changes, lost); }
          else if outcome == Saved { SuccessKeeps(s, start, changes, lost); }
          else { UnavailableKeeps(s, start, changes, lost); }
        case Send(_) => SendKeeps(s, e, start, changes, lost);
        case PauseOver => SendKeeps(s, e, start, changes, lost);
        case Apply => ApplyKeeps(s, start, changes, lost);
        case ApplyLate(i) => ApplyLateKeeps(s, i, start, changes, lost);
        case _ => LoadKeeps(s, e, start, changes, lost);
      }
    } else {
      assert Next(s, e) == s by { PassedOver(s, e); }
    }
  }

  lemma PassedOver(s: System, e: Event)
    requires !Enabled(s, e)
    ensures Next(s, e) == s
  {
  }

  /** Whatever the order of changes, saves, errors, late requests and the load: each setting is on its way or waits, or
      else it is stored with its newest change if and only if it was not given up to an unavailable storage or
      overwritten by a late request without being saved since. */
  lemma {:induction false} NothingIsLost(local: Workspace, stored: Workspace, persisted: bool, es: seq<Event>)
    ensures var start := Mounted(local, stored, persisted);
            Invariant(After(start, es), stored, AllChanges(es), Lost(start, es))
  {
    hide Leaves, Combine, Invariant, Next, LostNow;
    var start := Mounted(local, stored, persisted);
    if es == [] {
      MountedIsAccounted(local, stored, persisted);
    } else {
      var n := |es| - 1;
      NothingIsLost(local, stored, persisted, es[..n]);
      StepKeeps(After(start, es[..n]), es[n], stored, AllChanges(es[..n]), Lost(start, es[..n]));
    }
  }

  lemma MountedIsAccounted(local: Workspace, stored: Workspace, persisted: bool)
    ensures Invariant(Mounted(local, stored, persisted), stored, map[], {})
  {
    NothingOver(stored);
  }

  /** What is on its way with what waits put over it. */
  function Unsaved(c: Client): Overrides {
    InFlight(c) + LeavesOf(c.pending)
  }

  /** The stored copy with everything unsaved over it is the first stored copy with every change since the page opened
      over it, if and only if all that was lost is to be saved again. */
  lemma StoredAndUnsavedAreEverything(local: Workspace, stored: Workspace, persisted: bool, es: seq<Event>)
    ensures var start := Mounted(local, stored, persisted);
            var s := After(start, es);
            Over(s.stored, Unsaved(s.client)) == Over(stored, AllChanges(es)) <==>
              Lost(start, es) <= Unsaved(s.client).Keys
  {
    hide After, Lost, Over, Right, AllChanges, Leaves;
    var start := Mounted(local, stored, persisted);
    var s, changes := After(start, es), AllChanges(es);
    NothingIsLost(local, stored, persisted, es);
    var unsaved := Unsaved(s.client);
    assert Open(s) <= unsaved.Keys;
    forall l: Leaf
      ensures Right(Over(s.stored, unsaved), stored, changes, l) <==> l in unsaved || l !in Lost(start, es)
    {
      RightOver(s.stored, unsaved, stored, changes, l);
    }
    RightEverywhere(Over(s.stored, unsaved), stored, changes);
  }

  lemma RightEverywhere(stored: Workspace, start: Workspace, changes: Overrides)
    ensures stored == Over(start, changes) <==> forall l: Leaf :: Right(stored, start, changes, l)
  {
    if forall l: Leaf :: Right(stored, start, changes, l) {
      forall l: Leaf ensures Get(stored, l) == Get(Over(start, changes), l) { assert Right(stored, start, changes, l); }
      SameEverywhere(stored, Over(start, changes));
    }
  }

  /** Nothing is lost while the storage is available and what comes late is no more than the newest changes or settings
      about to be saved anyway. */
  lemma {:induction false} HarmlessRunsLoseNothing(start: System, es: seq<Event>)
    requires Answer(Unavailable) !in es
    requires forall k :: 0 <= k < |es| && es[k].ApplyLate? && Enabled(After(start, es[..k]), es[k]) ==>
               Outdated(After(start, es[..k]), After(start, es[..k]).late[es[k].i], AllChanges(es[..k])) == {}
    ensures Lost(start, es) == {}
  {
    hide Next, Outdated, Leaves;
    if es != [] {
      var n := |es| - 1;
      forall k | 0 <= k < n ensures es[..n][..k] == es[..k] {}
      HarmlessRunsLoseNothing(start, es[..n]);
    }
  }

  ghost predicate Settled(s: System) {
    s.load == Finished(true) && s.client.pending.None? && !s.client.sender.Posting?
  }

  /** Once a stored copy was loaded and nothing waits or travels, screen and stored copy show the same for exactly the
      settings that were not lost. */
  lemma ScreenAndStoredCopyAgree(local: Workspace, stored: Workspace, persisted: bool, es: seq<Event>)
    requires Settled(After(Mounted(local, stored, persisted), es))
    ensures var start := Mounted(local, stored, persisted);
            var s := After(start, es);
            && s.client.screen == Over(stored, AllChanges(es))
            && (forall l: Leaf :: Get(s.client.screen, l) == Get(s.stored, l) <==> l !in Lost(start, es))
            && (s.client.screen == s.stored <==> Lost(start, es) == {})
  {
    hide After, Lost, Over, AllChanges, Leaves;
    NothingIsLost(local, stored, persisted, es);
    var start := Mounted(local, stored, persisted);
    var s := After(start, es);
    assert Open(s) == {};
    forall l: Leaf ensures Get(s.client.screen, l) == Get(s.stored, l) <==> l !in Lost(start, es) {
      assert Right(s.stored, stored, AllChanges(es), l) <==> l !in Lost(start, es);
    }
    RightEverywhere(s.stored, stored, AllChanges(es));
  }

  /** Until a stored copy is loaded, and for good if there is none, the screen shows the copy of the device with every
      change on top. */
  lemma {:induction false} ScreenShowsTheDevice(local: Workspace, stored: Workspace, persisted: bool, es: seq<Event>)
    requires After(Mounted(local, stored, persisted), es).load != Finished(true)
    ensures After(Mounted(local, stored, persisted), es).client.screen == Over(local, AllChanges(es))
  {
    var start := Mounted(local, stored, persisted);
    if es == [] {
      NothingOver(local);
    } else {
      var n := |es| - 1;
      var s, e := After(start, es[..n]), es[n];
      LoadedStays(s, e);
      ScreenShowsTheDevice(local, stored, persisted, es[..n]);
      ScreenFollows(s, e);
      hide Next, Leaves, Over;
      OverOver(local, AllChanges(es[..n]), ChangesOf(e));
      assert AllChanges(es[..n]) + ChangesOf(e) == AllChanges(es);
    }
  }

  lemma LoadedStays(s: System, e: Event)
    ensures Next(s, e).load != Finished(true) ==> s.load != Finished(true)
  {
    hide Merge, Combine;
  }

  lemma ScreenFollows(s: System, e: Event)
    requires Next(s, e).load != Finished(true)
    ensures Next(s, e).client.screen == Over(s.client.screen, ChangesOf(e))
  {
    NothingOver(s.client.screen);
    hide Over, Leaves, Combine;
  }

  // ---- what waits is sent ------------------------------------------------------------------------------

  /** A send that finds the sender at rest takes everything that waits, and says whether the page is on its way out. */
  lemma RestingSendsWhatWaits(c: Client, keepalive: bool)
    requires c.sender == Resting && c.pending.Some?
    ensures Asked(c, keepalive).sender == Posting(c.pending.value, keepalive) && Asked(c, keepalive).pending == None
  {
  }

  /** What follows an answer. An error stops the sender. So does the end of a request that was sent on the way out. Any
      other answer is followed by a pause and the sending of what waits, or by rest if nothing does. */
  lemma AnswerIsFollowedExactly(s: System, outcome: Outcome)
    requires Enabled(s, Answer(outcome))
    ensures var t := Next(s, Answer(outcome));
            var u := Next(t, PauseOver);
            if outcome != Failed && !s.client.sender.keepalive && s.client.pending.Some? then
              && t.client == s.client.(sender := Pausing)
              && u.client.sender == Posting(s.client.pending.value, false) && u.client.pending == None
            else
              && t.client.sender == Resting && u == t
              && (outcome != Failed ==> t.client.pending == s.client.pending)
  {
    hide Combine;
  }

  /** The request under way is saved, and so is the one that follows it. */
  const SAVES: seq<Event> := [Apply, Answer(Saved), PauseOver, Apply, Answer(Saved)]

  /** A change waits and nobody is going to send it: the sender rests, or ends with the request under way. */
  predicate Stuck(c: Client) {
    c.pending.Some? && (c.sender == Resting || (c.sender.Posting? && c.sender.keepalive))
  }

  lemma SavesEmpty(s: System)
    requires s.applied ==> s.client.sender.Posting?
    ensures var t := Next(Next(Next(Next(Next(s, Apply), Answer(Saved)), PauseOver), Apply), Answer(Saved));
            && t.client.sender == Resting
            && (t.client.pending == None <==> !Stuck(s.client))
            && (Stuck(s.client) ==> t.client.pending == s.client.pending)
  {
    hide Merge, Combine;
    var a := Next(Next(s, Apply), Answer(Saved));
    assert if s.client.sender.Posting? then
             a.client.sender == (if s.client.pending.Some? && !s.client.sender.keepalive then Pausing else Resting)
           else a.client == s.client;
    assert a.client.pending == s.client.pending && !a.applied;
  }

  /** In every run: once the requests under way are saved nothing waits any more, if and only if no change was stuck.
      One is while the sender rests, after an error, and if it was made during a request sent on the way out. */
  lemma WhatWaitsIsSavedExactly(local: Workspace, stored: Workspace, persisted: bool, es: seq<Event>)
    ensures var start := Mounted(local, stored, persisted);
            var s, t := After(start, es), After(start, es + SAVES);
            t.client.sender == Resting && (t.client.pending == None <==> !Stuck(s.client))
  {
    hide After, Next, Invariant, Stuck;
    var start := Mounted(local, stored, persisted);
    NothingIsLost(local, stored, persisted, es);
    AppliedIsPosted(After(start, es), stored, AllChanges(es), Lost(start, es));
    AfterFive(start, es, Apply, Answer(Saved), PauseOver, Apply, Answer(Saved));
    SavesEmpty(After(start, es));
  }

  lemma AppliedIsPosted(s: System, start: Workspace, changes: Overrides, lost: set<Leaf>)
    requires Invariant(s, start, changes, lost)
    ensures s.applied ==> s.client.sender.Posting?
  {
    hide Accounted;
  }

  /** With an unavailable answer the promise fails for every patch that changes anything: the change stays on the
      screen, nothing waits to be sent, and it is not stored. */
  lemma UnavailableStorageForgets(w: Workspace, patch: Patch)
    ensures var s := After(Mounted(w, w, true), [Read, ReadAnswered, Update(patch), Send(false), Answer(Unavailable)]);
            && Settled(s) && s.client.sender == Resting
            && s.client.screen == Merge(w, patch) && s.stored == w
  {
    hide Leaves, Combine, Merge;
    AfterFive(Mounted(w, w, true), [], Read, ReadAnswered, Update(patch), Send(false), Answer(Unavailable));
    assert [] + [Read, ReadAnswered, Update(patch), Send(false), Answer(Unavailable)]
        == [Read, ReadAnswered, Update(patch), Send(false), Answer(Unavailable)];
  }

  /** A request that fails and is applied late, when its patch has been saved with a newer one over it, puts the older
      values back: the stored copy is what the screen shows with the older patch over it. */
  lemma LateRequestOverwrites(w: Workspace, older: Patch, newer: Patch)
    ensures var es := [Read, ReadAnswered, Update(older), Send(false), Answer(Failed)]
                      + [Update(newer), Send(false), Apply, Answer(Saved), ApplyLate(0)];
            var s := After(Mounted(w, w, true), es);
            && Settled(s) && s.client.screen == Merge(Merge(w, older), newer)
            && s.stored == Merge(s.client.screen, older)
  {
    var start := Mounted(w, w, true);
    var first := [Read, ReadAnswered, Update(older), Send(false), Answer(Failed)];
    var both := Combine(Some(older), newer);
    FailedAfterLoad(w, older);
    MergeOfCombine(w, older, newer);
    hide Leaves, Combine, Merge;
    var s := After(start, first);
    AfterFive(start, first, Update(newer), Send(false), Apply, Answer(Saved), ApplyLate(0));
    var sent := Next(Next(s, Update(newer)), Send(false));
    assert sent.client == Client(Merge(Merge(w, older), newer), Some(both), None, Posting(both, false));
    var saved := Next(Next(sent, Apply), Answer(Saved));
    assert saved.stored == Merge(w, both) && saved.late == [older];
  }

  lemma FailedAfterLoad(w: Workspace, patch: Patch)
    ensures After(Mounted(w, w, true), [Read, ReadAnswered, Update(patch), Send(false), Answer(Failed)])
         == System(Client(Merge(w, patch), Some(patch), Some(patch), Resting), w, true, false, [patch], Finished(true))
  {
    CombineIdentityAndIdempotent(patch);
    hide Leaves, Combine, Merge;
    var start := Mounted(w, w, true);
    AfterFive(start, [], Read, ReadAnswered, Update(patch), Send(false), Answer(Failed));
    assert [] + [Read, ReadAnswered, Update(patch), Send(false), Answer(Failed)]
        == [Read, ReadAnswered, Update(patch), Send(false), Answer(Failed)];
  }

  lemma AfterFive(start: System, es: seq<Event>, a: Event, b: Event, c: Event, d: Event, e: Event)
    ensures After(start, es + [a, b, c, d, e]) == Next(Next(Next(Next(Next(After(start, es), a), b), c), d), e)
  {
    hide Next, After;
    var two, three, four := es + [a, b], es + [a, b, c], es + [a, b, c, d];
    assert es + [a, b, c, d, e] == four + [e] && four == three + [d] && three == two + [c] && two == (es + [a]) + [b];
    AfterOneMore(start, es, a);
    AfterOneMore(start, es + [a], b);
    AfterOneMore(start, two, c);
    AfterOneMore(start, three, d);
    AfterOneMore(start, four, e);
  }

  lemma AfterOneMore(start: System, es: seq<Event>, e: Event)
    ensures After(start, es + [e]) == Next(After(start, es), e)
  {
    assert (es + [e])[..|es|] == es;
  }
}
