// The throttle behind the live refreshes (`throttled` in src/hooks/useRealtimeUpdates.ts).
//
// `runs` records the instants at which the action ran; it is what the caller observes. A timer is the
// instant before which it will not fire.

module Throttle {
  import opened Common

  datatype Timer = NoTimer | Due(at: int)

  datatype State = State(lastRunAt: int, timer: Timer, runs: seq<int>)

  const START: State := State(0, NoTimer, [])

  function Fired(s: State, now: int): State {
    State(now, NoTimer, s.runs + [now])
  }

  function Called(s: State, gap: int, now: int): State {
    var wait := s.lastRunAt + gap - now;
    if s.timer.Due? then s
    else if wait <= 0 then Fired(s, now)
    else s.(timer := Due(now + wait))
  }

  class Throttled {
    const minGapMs: int
    var lastRunAt: int
    var timer: Timer
    var runs: seq<int>

    function Value(): State
      reads this
    {
      State(lastRunAt, timer, runs)
    }

    constructor (minGapMs: int)
      ensures this.minGapMs == minGapMs && Value() == START
    {
      this.minGapMs := minGapMs;
      lastRunAt, timer, runs := 0, NoTimer, [];
    }

    method Fire(now: int)
      modifies this
      ensures Value() == Fired(old(Value()), now)
    {
      timer := NoTimer;
      lastRunAt := now;
      runs := runs + [now];
    }

    method Call(now: int)
      modifies this
      ensures Value() == Called(old(Value()), minGapMs, now)
    {
      if timer.Due? { return; }
      var wait := lastRunAt + minGapMs - now;
      if wait <= 0 {
        Fire(now);
      } else {
        timer := Due(now + wait);
      }
    }

    method Cancel()
      modifies this
      ensures Value() == old(Value()).(timer := NoTimer)
    {
      timer := NoTimer;
    }
  }

  /** A call when the gap is over runs at once, an earlier one sets the one timer for the end of the gap, and while a
      timer is pending nothing happens. */
  lemma CallExactly(s: State, gap: int, now: int)
    ensures var t := Called(s, gap, now);
            if s.timer != NoTimer then t == s
            else if now - s.lastRunAt >= gap then t.runs == s.runs + [now] && t.lastRunAt == now && t.timer == NoTimer
            else t.runs == s.runs && t.lastRunAt == s.lastRunAt && t.timer == Due(s.lastRunAt + gap)
  {
  }

  // ---- whole runs -----------------------------------------------------------------------------

  datatype Event = Call(now: int) | Fire(now: int) | Cancel(now: int)

  function Next(s: State, gap: int, e: Event): State {
    match e
    case Call(now) => Called(s, gap, now)
    case Fire(now) => Fired(s, now)
    case Cancel(_) => s.(timer := NoTimer)
  }

  function After(gap: int, es: seq<Event>): State {
    if es == [] then START else Next(After(gap, es[..|es|-1]), gap, es[|es|-1])
  }

  /** The clock starts at zero or later and never goes back; a timer fires only while it is set and never early. */
  ghost predicate Run(gap: int, es: seq<Event>) {
    es != [] ==>
      var earlier, e := es[..|es|-1], es[|es|-1];
      && Run(gap, earlier)
      && 0 <= e.now
      && (earlier != [] ==> earlier[|earlier|-1].now <= e.now)
      && (e.Fire? ==> After(gap, earlier).timer.Due? && After(gap, earlier).timer.at <= e.now)
  }

  /** Nothing happens after the instant a pending timer is due: the timer itself came first. */
  ghost predicate Punctual(gap: int, es: seq<Event>) {
    forall i :: 0 <= i < |es| && After(gap, es[..i]).timer.Due? ==> es[i].now <= After(gap, es[..i]).timer.at
  }

  ghost predicate Spaced(runs: seq<int>, gap: int) {
    forall i :: 0 < i < |runs| ==> runs[i-1] + gap <= runs[i]
  }

  lemma {:induction false} Invariant(gap: int, es: seq<Event>)
    requires 0 < gap && Run(gap, es)
    ensures var s := After(gap, es);
            && Spaced(s.runs, gap)
            && s.lastRunAt == (if s.runs == [] then 0 else s.runs[|s.runs|-1])
            && (s.timer.Due? ==> s.timer.at == s.lastRunAt + gap)
            && (es == [] ==> s.lastRunAt == 0)
            && (es != [] ==> s.lastRunAt <= es[|es|-1].now)
  {
    if es != [] {
      Invariant(gap, es[..|es|-1]);
    }
  }

  /** Any two runs are at least the gap apart for every run between them. */
  lemma {:induction false} RunsAreApart(gap: int, es: seq<Event>, i: nat, j: nat)
    requires 0 < gap && Run(gap, es)
    requires i <= j < |After(gap, es).runs|
    ensures After(gap, es).runs[j] - After(gap, es).runs[i] >= (j - i) * gap
    decreases j - i
  {
    if i < j {
      Invariant(gap, es);
      RunsAreApart(gap, es, i, j - 1);
      assert (j - i) * gap == (j - 1 - i) * gap + gap;
    }
  }

  function RunsBetween(runs: seq<int>, a: int, b: int): nat {
    if runs == [] then 0
    else RunsBetween(runs[..|runs|-1], a, b) + if a <= runs[|runs|-1] <= b then 1 else 0
  }

  lemma {:induction false} CloserEnd(runs: seq<int>, a: int, b: int, closer: int)
    requires closer <= b && forall i :: 0 <= i < |runs| ==> runs[i] <= closer
    ensures RunsBetween(runs, a, closer) == RunsBetween(runs, a, b)
  {
    if runs != [] { CloserEnd(runs[..|runs|-1], a, b, closer); }
  }

  lemma {:induction false} SpacedRunsAreFew(runs: seq<int>, gap: int, a: int, b: int)
    requires 0 < gap && Spaced(runs, gap) && a <= b + gap
    ensures RunsBetween(runs, a, b) * gap <= b - a + gap
  {
    if runs != [] {
      var n := |runs| - 1;
      var earlier, last := runs[..n], runs[n];
      if a <= last <= b {
        LastIsLargest(runs, gap);
        forall i | 0 <= i < n ensures earlier[i] <= last - gap { LastIsLargest(earlier, gap); }
        CloserEnd(earlier, a, b, last - gap);
        SpacedRunsAreFew(earlier, gap, a, last - gap);
        assert (RunsBetween(earlier, a, b) + 1) * gap == RunsBetween(earlier, a, b) * gap + gap;
      } else {
        SpacedRunsAreFew(earlier, gap, a, b);
      }
    }
  }

  lemma {:induction false} LastIsLargest(runs: seq<int>, gap: int)
    requires 0 < gap && Spaced(runs, gap)
    ensures forall i :: 0 <= i < |runs| ==> runs[i] <= runs[|runs|-1]
  {
    if |runs| > 1 {
      LastIsLargest(runs[..|runs|-1], gap);
    }
  }

  /** An interval of length L holds at most L / gap + 1 runs, whatever was called, fired and cancelled. */
  lemma RunsInAnInterval(gap: int, es: seq<Event>, a: int, length: nat)
    requires 0 < gap && Run(gap, es)
    ensures RunsBetween(After(gap, es).runs, a, a + length) <= length / gap + 1
  {
    Invariant(gap, es);
    var runs := After(gap, es).runs;
    SpacedRunsAreFew(runs, gap, a, a + length);
    var c := RunsBetween(runs, a, a + length);
    Quotient(c, gap, length);
  }

  lemma Quotient(c: nat, gap: int, length: nat)
    requires 0 < gap && c * gap <= length + gap
    ensures c <= length / gap + 1
  {
    var q, r := length / gap, length % gap;
    var product := q * gap;
    assert length == product + r && r < gap;
    assert (q + 2) * gap == product + gap + gap;
    Product(q + 2, c, gap);
  }

  ghost predicate RanBetween(s: State, a: int, b: int) {
    exists i :: 0 <= i < |s.runs| && a <= s.runs[i] <= b
  }

  lemma PunctualBefore(gap: int, es: seq<Event>, n: nat)
    requires Punctual(gap, es) && n < |es|
    ensures Punctual(gap, es[..n])
    ensures After(gap, es[..n]).timer.Due? ==> es[n].now <= After(gap, es[..n]).timer.at
  {
    hide After;
    forall i | 0 <= i < n && After(gap, es[..n][..i]).timer.Due?
      ensures es[..n][i].now <= After(gap, es[..n][..i]).timer.at
    {
      assert es[..n][..i] == es[..i];
    }
  }

  /** The run before the last event. */
  lemma LastEvent(gap: int, es: seq<Event>)
    requires es != []
    ensures After(gap, es) == Next(After(gap, es[..|es|-1]), gap, es[|es|-1])
    ensures Run(gap, es) ==> Run(gap, es[..|es|-1])
  {
  }

  /** It is served, or a timer will serve it in time. */
  ghost predicate Served(s: State, gap: int, now: int) {
    RanBetween(s, now, now + gap) || (s.timer.Due? && s.timer.at <= now + gap)
  }

  lemma CallServes(s: State, gap: int, now: int)
    requires 0 < gap && (s.timer.Due? ==> s.timer.at == s.lastRunAt + gap) && s.lastRunAt <= now
    ensures Served(Next(s, gap, Call(now)), gap, now)
  {
    var t := Next(s, gap, Call(now));
    if t.timer.NoTimer? { assert t.runs[|t.runs|-1] == now; }
  }

  /** A later event leaves it served, if no timer is late. */
  lemma StaysServed(s: State, gap: int, e: Event, now: int)
    requires 0 < gap && Served(s, gap, now) && now <= e.now && !e.Cancel?
    requires s.timer.Due? ==> e.now <= s.timer.at
    ensures Served(Next(s, gap, e), gap, now)
  {
    var t := Next(s, gap, e);
    if RanBetween(s, now, now + gap) {
      StaysRun(s, gap, e, now, now + gap);
    } else if t.timer.NoTimer? {
      assert t.runs[|t.runs|-1] == e.now;
    }
  }

  /** A call that nobody cancels has run, or is waiting for a timer that is due in time. */
  lemma {:induction false} CallIsServed(gap: int, es: seq<Event>, c: nat)
    requires 0 < gap && Run(gap, es) && c < |es| && es[c].Call?
    requires forall i :: c < i < |es| ==> !es[i].Cancel?
    requires Punctual(gap, es)
    ensures Served(After(gap, es), gap, es[c].now)
    decreases |es|
  {
    var n := |es| - 1;
    var earlier := es[..n];
    LastEvent(gap, es);
    Invariant(gap, earlier);
    NowIsLater(gap, es, c, n);
    if n > 0 { NowIsLater(gap, es, n - 1, n); }
    assert Run(gap, es) ==> 0 <= es[n].now;
    hide After, Run, Next, Served;
    if c == n {
      CallServes(After(gap, earlier), gap, es[c].now);
    } else {
      PunctualBefore(gap, es, n);
      hide Punctual;
      CallIsServed(gap, earlier, c);
      StaysServed(After(gap, earlier), gap, es[n], es[c].now);
    }
  }

  lemma {:induction false} NowIsLater(gap: int, es: seq<Event>, i: nat, j: nat)
    requires Run(gap, es) && i <= j < |es|
    ensures es[i].now <= es[j].now
  {
    if i < j {
      var n := |es| - 1;
      if j < n {
        NowIsLater(gap, es[..n], i, j);
      } else {
        NowIsLater(gap, es[..n], i, n - 1);
      }
    }
  }

  /** With punctual timers the action has run within the gap after every call that was not cancelled,
      as soon as anything at all happens later than that. */
  lemma CallRunsWithinTheGap(gap: int, es: seq<Event>, c: nat)
    requires 0 < gap && Run(gap, es) && Punctual(gap, es) && c < |es| && es[c].Call?
    requires forall i :: c < i < |es| - 1 ==> !es[i].Cancel?
    requires es[|es|-1].now > es[c].now + gap
    ensures RanBetween(After(gap, es), es[c].now, es[c].now + gap)
  {
    hide Run, After, Punctual, Next, RanBetween;
    var n := |es| - 1;
    assert c < n;
    PunctualBefore(gap, es, n);
    LastEvent(gap, es);
    ServedBefore(gap, es, c);
    StaysRun(After(gap, es[..n]), gap, es[n], es[c].now, es[c].now + gap);
  }

  lemma ServedBefore(gap: int, es: seq<Event>, c: nat)
    requires 0 < gap && Run(gap, es) && Punctual(gap, es) && c < |es| - 1 && es[c].Call?
    requires forall i :: c < i < |es| - 1 ==> !es[i].Cancel?
    ensures Served(After(gap, es[..|es|-1]), gap, es[c].now)
  {
    hide Run, After, Punctual, Next, Served;
    var earlier := es[..|es|-1];
    PunctualBefore(gap, es, |es| - 1);
    LastEvent(gap, es);
    assert earlier[c] == es[c] && forall i :: c < i < |earlier| ==> earlier[i] == es[i];
    CallIsServed(gap, earlier, c);
  }

  lemma StaysRun(s: State, gap: int, e: Event, a: int, b: int)
    requires RanBetween(s, a, b)
    ensures RanBetween(Next(s, gap, e), a, b)
  {
    var i :| 0 <= i < |s.runs| && a <= s.runs[i] <= b;
    assert Next(s, gap, e).runs[i] == s.runs[i];
  }
}
