// The single-flight loop of the risk worker (`evaluate` in scripts/wsa-risk-worker.ts; persistLiveTrades has the
// same shape): one pass at a time, and requests made during a pass are merged into one more pass.
//
// A pass reads its values at its start. The loop's promise settles at the last test of `queued`; the callback of
// `finally` that forgets the promise runs later.

module Coalescing {

  datatype Phase = Idle | Running | Settled

  /** `log` records what happened: passes, how each of them ended and whether the worker was stopping then, and the
      requests with the phase the loop was in. A request is late when it falls between the last test and the
      callback. */
  datatype Entry = PassStarted | PassEnded(success: bool, stopping: bool) | Requested(phase: Phase)

  datatype State = State(ready: bool, stopping: bool, phase: Phase, queued: bool, log: seq<Entry>)

  const START: State := State(true, false, Idle, false, [])

  // ---- the steps, as values ------------------------------------------------------------------------

  function Asked(s: State): State {
    if !s.ready then s
    else
      var asked := s.(log := s.log + [Requested(s.phase)]);
      if s.phase != Idle then asked.(queued := true)
      else asked.(phase := Running, queued := false, log := asked.log + [PassStarted])
  }

  function PassOver(s: State, success: bool): State {
    var ended := s.(log := s.log + [PassEnded(success, s.stopping)]);
    if success && s.queued && !s.stopping then ended.(queued := false, log := ended.log + [PassStarted])
    else ended.(phase := Settled)
  }

  // ---- the code ---------------------------------------------------------------------------------

  class Evaluator {
    var ready: bool
    var stopping: bool
    var evaluating: Phase
    var queued: bool
    ghost var log: seq<Entry>

    ghost function Value(): State
      reads this
    {
      State(ready, stopping, evaluating, queued, log)
    }

    constructor ()
      ensures Value() == START
    {
      ready, stopping, evaluating, queued, log := true, false, Idle, false, [];
    }

    method Evaluate()
      modifies this
      ensures Value() == Asked(old(Value()))
    {
      if !ready { return; }
      log := log + [Requested(evaluating)];
      if evaluating != Idle {
        queued := true;
        return;
      }
      evaluating := Running;
      StartPass();
    }

    /** The head of the loop: the values are read here. */
    method StartPass()
      modifies this
      ensures Value() == old(Value()).(queued := false, log := old(log) + [PassStarted])
    {
      queued := false;
      log := log + [PassStarted];
    }

    method OnPassOver(success: bool)
      modifies this
      ensures Value() == PassOver(old(Value()), success)
    {
      log := log + [PassEnded(success, stopping)];
      if !success {
        evaluating := Settled;
      } else if queued && !stopping {
        StartPass();
      } else {
        evaluating := Settled;
      }
    }

    method Finally()
      modifies this
      ensures Value() == old(Value()).(phase := Idle)
    {
      evaluating := Idle;
    }
  }

  // ---- runs -----------------------------------------------------------------------------------------

  datatype Event = Request | PassEnds(success: bool) | Forget | Stop | Close

  predicate Enabled(s: State, e: Event) {
    match e
    case Request => true
    case PassEnds(_) => s.phase == Running
    case Forget => s.phase == Settled
    case Stop => true
    case Close => true
  }

  function Next(s: State, e: Event): State {
    if !Enabled(s, e) then s
    else match e
      case Request => Asked(s)
      case PassEnds(success) => PassOver(s, success)
      case Forget => s.(phase := Idle)
      case Stop => s.(stopping := true)
      case Close => s.(ready := false)
  }

  function After(es: seq<Event>): State {
    if es == [] then START else Next(After(es[..|es|-1]), es[|es|-1])
  }

  /** Passes begin and end by turns. */
  function PassesOpen(log: seq<Entry>): int {
    if log == [] then 0 else PassesOpen(log[..|log|-1]) + Opens(log[|log|-1])
  }

  function Opens(e: Entry): int {
    match e case PassStarted => 1 case PassEnded(_, _) => -1 case Requested(_) => 0
  }

  lemma PassesOpenMore(log: seq<Entry>, e: Entry)
    ensures PassesOpen(log + [e]) == PassesOpen(log) + Opens(e)
  {
    assert (log + [e])[..|log|] == log;
  }

  /** A step writes a request, the end of a pass, the beginning of one, or two of them in this order. */
  lemma StepOpens(s: State, e: Event)
    ensures PassesOpen(Next(s, e).log) - PassesOpen(s.log) ==
              (if Next(s, e).phase == Running then 1 else 0) - if s.phase == Running then 1 else 0
  {
    hide PassesOpen;
    match e {
      case Request =>
        PassesOpenMore(s.log, Requested(s.phase));
        PassesOpenMore(s.log + [Requested(s.phase)], PassStarted);
      case PassEnds(success) =>
        PassesOpenMore(s.log, PassEnded(success, s.stopping));
        PassesOpenMore(s.log + [PassEnded(success, s.stopping)], PassStarted);
      case _ =>
    }
  }

  /** At any time at most one pass runs: exactly while the phase says so. */
  lemma {:induction false} PassesNeverOverlap(es: seq<Event>)
    ensures PassesOpen(After(es).log) == if After(es).phase == Running then 1 else 0
  {
    hide Next;
    if es != [] {
      PassesNeverOverlap(es[..|es|-1]);
      StepOpens(After(es[..|es|-1]), es[|es|-1]);
    }
  }

  /** A pass that began, and so read its values, after the i-th entry. */
  ghost predicate Served(log: seq<Entry>, i: nat) {
    exists k :: i < k < |log| && log[k] == PassStarted
  }

  /** The first pass to end after the i-th entry ended as `e` says. */
  predicate FirstEnd(log: seq<Entry>, i: int, e: int) {
    0 <= i < e < |log| && log[e].PassEnded? && forall j :: i < j < e ==> !log[j].PassEnded?
  }

  predicate NoEnd(log: seq<Entry>, i: nat) {
    forall j :: i < j < |log| ==> !log[j].PassEnded?
  }

  /** A request that finds no loop starts one. */
  predicate Starts(log: seq<Entry>, i: int, k: int) {
    0 <= i <= k < |log| && log[k] == Requested(Idle)
  }

  /** The request starts a loop, or a later one does, or it was made during a pass that then succeeded while the worker
      was not stopping. */
  ghost predicate Deserved(log: seq<Entry>, i: nat)
    requires i < |log|
  {
    || (exists k :: Starts(log, i, k))
    || (log[i] == Requested(Running) && exists e :: FirstEnd(log, i, e) && log[e] == PassEnded(true, false))
  }

  /** Every request: served exactly if deserved, and while a pass runs that began before it, it is remembered. */
  ghost predicate Tracked(s: State, i: nat)
    requires i < |s.log|
  {
    && (Served(s.log, i) <==> Deserved(s.log, i))
    && (s.log[i] == Requested(Running) && NoEnd(s.log, i) ==> s.phase == Running && s.queued)
    && (s.phase == Running && !Served(s.log, i) ==> s.log[i] == Requested(Running) && NoEnd(s.log, i))
  }

  ghost predicate Invariant(s: State) {
    forall i :: 0 <= i < |s.log| && s.log[i].Requested? ==> Tracked(s, i)
  }

  /** Adding to the log neither undoes nor moves what was there. */
  lemma LongerLog(log: seq<Entry>, more: seq<Entry>, i: nat)
    requires i < |log|
    ensures Served(log, i) ==> Served(log + more, i)
    ensures Deserved(log, i) ==> Deserved(log + more, i)
  {
    var all := log + more;
    if Served(log, i) {
      var k :| i < k < |log| && log[k] == PassStarted;
      assert all[k] == PassStarted;
    }
    if Deserved(log, i) {
      if k :| Starts(log, i, k) {
        assert Starts(all, i, k);
      } else {
        var e :| FirstEnd(log, i, e) && log[e] == PassEnded(true, false);
        assert FirstEnd(all, i, e);
      }
    }
  }

  lemma RequestKeeps(s: State, i: nat)
    requires Invariant(s) && s.ready && i < |Asked(s).log| && Asked(s).log[i].Requested?
    ensures Tracked(Asked(s), i)
  {
    var t := Asked(s);
    var n := |s.log|;
    if s.phase == Idle {
      assert t.log[n+1] == PassStarted && Starts(t.log, i, n);
      assert Served(t.log, i) && Deserved(t.log, i);
      if i < n && NoEnd(t.log, i) {
        forall j | i < j < n ensures !s.log[j].PassEnded? { assert t.log[j] == s.log[j]; }
        assert Tracked(s, i);
      }
    } else if i < n {
      assert t.log == s.log + [Requested(s.phase)];
      LongerLog(s.log, [Requested(s.phase)], i);
      NothingNew(s.log, Requested(s.phase), i);
    } else {
      assert NoEnd(t.log, i);
    }
  }

  /** A request made while the loop is there serves nobody. */
  lemma NothingNew(log: seq<Entry>, e: Entry, i: nat)
    requires i < |log| && e.Requested? && e.phase != Idle
    ensures Served(log + [e], i) ==> Served(log, i)
    ensures Deserved(log + [e], i) ==> Deserved(log, i)
    ensures NoEnd(log + [e], i) <==> NoEnd(log, i)
  {
    var all := log + [e];
    assert forall k :: 0 <= k < |log| ==> all[k] == log[k];
    if k :| Starts(all, i, k) { assert Starts(log, i, k); }
    if k :| FirstEnd(all, i, k) && all[k] == PassEnded(true, false) { assert FirstEnd(log, i, k); }
    if NoEnd(all, i) {
      forall j | i < j < |log| ensures !log[j].PassEnded? { assert !all[j].PassEnded?; }
    }
  }

  lemma PassOverKeeps(s: State, success: bool, i: nat)
    requires Invariant(s) && s.phase == Running && i < |s.log| && s.log[i].Requested?
    ensures Tracked(PassOver(s, success), i)
  {
    var t := PassOver(s, success);
    var n := |s.log|;
    assert t.log[n] == PassEnded(success, s.stopping) && !NoEnd(t.log, i);
    assert t.log == s.log + t.log[n..];
    LongerLog(s.log, t.log[n..], i);
    if !Served(s.log, i) {
      assert FirstEnd(t.log, i, n);
      if t.phase == Running {
        assert t.log[n+1] == PassStarted;
      } else {
        assert !Served(t.log, i);
        assert forall e :: FirstEnd(t.log, i, e) ==> e == n;
        assert forall k :: Starts(t.log, i, k) ==> Starts(s.log, i, k);
      }
    }
  }

  lemma StepKeeps(s: State, e: Event)
    requires Invariant(s) && Enabled(s, e)
    ensures Invariant(Next(s, e))
  {
    hide Tracked;
    var t := Next(s, e);
    forall i | 0 <= i < |t.log| && t.log[i].Requested? ensures Tracked(t, i) {
      match e {
        case Request => if s.ready { RequestKeeps(s, i); }
        case PassEnds(success) => PassOverKeeps(s, success, i);
        case Forget => ForgetKeeps(s, i);
        case _ => assert Tracked(s, i); SameLoop(s, t, i);
      }
    }
  }

  lemma ForgetKeeps(s: State, i: nat)
    requires Invariant(s) && s.phase == Settled && i < |s.log| && s.log[i].Requested?
    ensures Tracked(s.(phase := Idle), i)
  {
    assert Tracked(s, i);
  }

  lemma SameLoop(s: State, t: State, i: nat)
    requires i < |s.log| && Tracked(s, i) && t.log == s.log && t.phase == s.phase && t.queued == s.queued
    ensures Tracked(t, i)
  {
  }

  lemma {:induction false} AlwaysInvariant(es: seq<Event>)
    ensures Invariant(After(es))
  {
    if es != [] {
      AlwaysInvariant(es[..|es|-1]);
      if Enabled(After(es[..|es|-1]), es[|es|-1]) { StepKeeps(After(es[..|es|-1]), es[|es|-1]); }
    }
  }

  /** When a request is served, over all runs and at every moment of them: exactly if it found no loop, or a later one
      did, or the pass under way at the request has succeeded while the worker was not stopping. */
  lemma RequestIsServedExactly(es: seq<Event>, i: nat)
    requires i < |After(es).log| && After(es).log[i].Requested?
    ensures Served(After(es).log, i) <==> Deserved(After(es).log, i)
  {
    AlwaysInvariant(es);
    assert Tracked(After(es), i);
  }

  /** Whatever other passes came to: once the loop is over, a request that was not late was followed by a pass that read
      its values after it, unless the pass under way at the request failed or the worker was stopping when it ended. */
  lemma RequestsAreServed(es: seq<Event>, i: nat)
    requires i < |After(es).log| && After(es).log[i] in {Requested(Idle), Requested(Running)}
    requires After(es).phase != Running
    requires forall e :: FirstEnd(After(es).log, i, e) ==> After(es).log[e] == PassEnded(true, false)
    ensures Served(After(es).log, i)
  {
    AlwaysInvariant(es);
    var log := After(es).log;
    assert Tracked(After(es), i);
    if log[i] == Requested(Idle) {
      assert Starts(log, i, i);
    } else {
      var e := FindEnd(log, i);
      assert log[e] == PassEnded(true, false);
    }
  }

  lemma {:induction false} FindEnd(log: seq<Entry>, i: nat) returns (e: nat)
    requires i < |log| && !NoEnd(log, i)
    ensures FirstEnd(log, i, e)
  {
    e := i + 1;
    while !log[e].PassEnded?
      invariant i < e < |log| && (forall j :: i < j < e ==> !log[j].PassEnded?)
      invariant exists j :: e <= j < |log| && log[j].PassEnded?
      decreases |log| - e
    {
      e := e + 1;
    }
  }

  /** A late request is served exactly by a later one that starts a new loop: on its own it waits, however long. */
  lemma LateRequestIsNotServed(es: seq<Event>, i: nat)
    requires i < |After(es).log| && After(es).log[i] == Requested(Settled)
    ensures Served(After(es).log, i) <==> exists k :: i < k < |After(es).log| && After(es).log[k] == Requested(Idle)
  {
    RequestIsServedExactly(es, i);
    var log := After(es).log;
    if k :| i < k < |log| && log[k] == Requested(Idle) { assert Starts(log, i, k); }
  }

  /** The loop can be left so: a request falls late, and nothing is under way any more. */
  lemma LateRequestsOccur()
    ensures var s := After([Request, PassEnds(true), Request, Forget]);
            s.phase == Idle && s.ready && !s.stopping && s.log[|s.log|-1] == Requested(Settled)
  {
    var a, b, c := [Request], [Request, PassEnds(true)], [Request, PassEnds(true), Request];
    var d := [Request, PassEnds(true), Request, Forget];
    assert a[..0] == [] && b[..1] == a && c[..2] == b && d[..3] == c;
  }

  /** Any later request on an idle loop serves it together with its own. */
  lemma NextRequestServesTheLateOne(es: seq<Event>, i: nat)
    requires After(es).phase == Idle && After(es).ready && i < |After(es).log|
    ensures Served(After(es + [Request]).log, i)
  {
    assert (es + [Request])[..|es|] == es;
    var log := After(es + [Request]).log;
    assert log[|log|-1] == PassStarted;
  }
}
