// How long a stream that keeps failing stays closed (noteFailure, failStream and the retry test of discovery,
// scripts/wsa-copy-worker.ts), over whole runs of the supervisor.

module Backoff {
  import opened Common
  import opened Supervisor

  function Due(cfg: Config, f: Failure): int
    requires f.count > 0
  {
    f.at + Wait(cfg, f.count)
  }

  /** A stream of the key is registered, or being opened. */
  predicate Busy(s: State, key: Key) {
    key in s.streams || (key in s.opening && s.opening[key].Connecting?)
  }

  /** Each failure of a key is at least the wait of every earlier one after it. */
  ghost predicate Spread(cfg: Config, fs: seq<Failure>) {
    && (forall i :: 0 <= i < |fs| ==> fs[i].count > 0)
    && (forall i, j :: 0 <= i < j < |fs| ==> Due(cfg, fs[i]) <= fs[j].at)
  }

  function NextCount(before: Failure, f: Failure): nat {
    if f.ran > HEALTHY_STREAM_MS then 1 else before.count + 1
  }

  /** The counts run 1, 2, 3, ... and start again only after a stream that ran long enough. */
  ghost predicate Counted(fs: seq<Failure>) {
    && (fs != [] ==> fs[0].count == 1)
    && (forall i :: 0 < i < |fs| ==> fs[i].count == NextCount(fs[i-1], fs[i]))
  }

  ghost predicate KeyInvariant(cfg: Config, s: State, key: Key) {
    var fs := Failures(s, key);
    && Spread(cfg, fs)
    && (key in s.streams ==> s.streams[key].startedAt <= s.now)
    && (s.shutdown != Cleared ==> Counted(fs) && Count(s, key) == if fs == [] then 0 else fs[|fs|-1].count)
    && (fs != [] ==>
          var last := fs[|fs|-1];
          && last.at <= s.now
          && (Busy(s, key) ==> Due(cfg, last) <= s.now)
          && (s.shutdown == NotStopping ==>
                Due(cfg, last) <= s.now || (key in s.retryAfter && s.retryAfter[key] == Due(cfg, last))))
  }

  ghost predicate Invariant(cfg: Config, s: State) {
    forall key :: KeyInvariant(cfg, s, key)
  }

  lemma {:induction false} Pow2Grows(m: nat, n: nat)
    requires m <= n
    ensures 1 <= Pow2(m) <= Pow2(n)
  {
    if n > 0 {
      if m < n { Pow2Grows(m, n - 1); } else { Pow2Grows(m - 1, n - 1); }
    }
  }

  /** The waits never get shorter from one failure to the next, and stay between the base and the maximum. */
  lemma WaitsGrowWithinBounds(cfg: Config, m: nat, n: nat)
    requires ValidConfig(cfg) && 0 < m <= n
    ensures cfg.retryBaseMs <= Wait(cfg, m) <= Wait(cfg, n) <= cfg.retryMaxMs
    ensures Wait(cfg, 1) == cfg.retryBaseMs
  {
    Pow2Grows(m - 1, n - 1);
    ProductGrows(cfg.retryBaseMs, Pow2(m - 1), Pow2(n - 1));
  }

  /** Each wait is twice the one before, up to the maximum. */
  lemma WaitsDouble(cfg: Config, n: nat)
    requires ValidConfig(cfg) && n > 0
    ensures Wait(cfg, n + 1) == Min(cfg.retryMaxMs, 2 * Wait(cfg, n)) && Wait(cfg, 1) == cfg.retryBaseMs
  {
    var p := Pow2(n - 1);
    assert Pow2(n) == 2 * p;
    assert cfg.retryBaseMs * (2 * p) == 2 * (cfg.retryBaseMs * p);
    WaitsGrowWithinBounds(cfg, n, n);
  }

  lemma ProductGrows(base: int, a: int, b: int)
    requires 0 < base && 1 <= a <= b
    ensures base <= base * a <= base * b
  {
  }

  // ---- every step keeps the invariant ----------------------------------------------------------------

  lemma NoteKeeps(cfg: Config, s: State, key: Key, ran: int)
    requires ValidConfig(cfg) && Spread(cfg, Failures(s, key))
    requires Failures(s, key) != [] ==> Due(cfg, Failures(s, key)[|Failures(s, key)|-1]) <= s.now
    requires s.shutdown != Cleared ==>
               && Counted(Failures(s, key))
               && Count(s, key) ==
                    if Failures(s, key) == [] || ran > HEALTHY_STREAM_MS then 0
                    else Failures(s, key)[|Failures(s, key)|-1].count
    ensures var t := NoteFailure(cfg, s, key, ran);
            && Spread(cfg, Failures(t, key))
            && Failures(t, key) != []
            && var last := Failures(t, key)[|Failures(t, key)|-1];
            && last.at == s.now && last.count == Count(t, key) && t.retryAfter[key] == Due(cfg, last)
            && (s.shutdown != Cleared ==> Counted(Failures(t, key)))
  {
    var fs, f := Failures(s, key), Failure(s.now, Count(s, key) + 1, ran);
    var t := NoteFailure(cfg, s, key, ran);
    assert Failures(t, key) == fs + [f] && Count(t, key) == f.count;
    SpreadMore(cfg, fs, f);
    if s.shutdown != Cleared { CountedMore(fs, f); }
    hide Spread, Counted, Wait;
  }

  lemma SpreadMore(cfg: Config, fs: seq<Failure>, f: Failure)
    requires ValidConfig(cfg) && Spread(cfg, fs) && f.count > 0
    requires fs != [] ==> Due(cfg, fs[|fs|-1]) <= f.at
    ensures Spread(cfg, fs + [f])
  {
    hide ValidConfig, Wait;
    forall i | 0 <= i < |fs| ensures Due(cfg, fs[i]) <= f.at {
      if i < |fs| - 1 { NotDueBefore(cfg, fs[|fs|-1]); }
    }
  }

  lemma NotDueBefore(cfg: Config, f: Failure)
    requires ValidConfig(cfg) && f.count > 0
    ensures f.at <= Due(cfg, f)
  {
    WaitsGrowWithinBounds(cfg, f.count, f.count);
  }

  lemma CountedMore(fs: seq<Failure>, f: Failure)
    requires Counted(fs) && f.count == (if fs == [] || f.ran > HEALTHY_STREAM_MS then 0 else fs[|fs|-1].count) + 1
    ensures Counted(fs + [f])
  {
    var more := fs + [f];
    assert more[0] == if fs == [] then f else fs[0];
    forall i | 0 < i < |more| ensures more[i].count == NextCount(more[i-1], more[i]) {
      assert more[i-1] == fs[i-1];
      assert more[i] == if i < |fs| then fs[i] else f;
    }
  }

  /** A step that leaves everything about a key alone keeps its invariant. */
  lemma OtherKeyKept(cfg: Config, s: State, t: State, k: Key)
    requires KeyInvariant(cfg, s, k)
    requires Failures(t, k) == Failures(s, k) && t.now == s.now && t.shutdown == s.shutdown
    requires (k in t.streams) == (k in s.streams) && (k in s.streams ==> t.streams[k] == s.streams[k])
    requires (k in t.opening) == (k in s.opening) && (k in s.opening ==> t.opening[k] == s.opening[k])
    requires (k in t.retryAfter) == (k in s.retryAfter) && (k in s.retryAfter ==> t.retryAfter[k] == s.retryAfter[k])
    requires Count(t, k) == Count(s, k)
    ensures KeyInvariant(cfg, t, k)
  {
    hide Spread, Counted;
  }

  /** A key whose failure was just noted, and for which nothing runs now. */
  lemma NotedKeyKept(cfg: Config, s: State, key: Key, ran: int, t: State)
    requires ValidConfig(cfg) && t == NoteFailure(cfg, s, key, ran).(opening := t.opening) && !Busy(t, key)
    requires Spread(cfg, Failures(s, key))
    requires Failures(s, key) != [] ==> Due(cfg, Failures(s, key)[|Failures(s, key)|-1]) <= s.now
    requires s.shutdown != Cleared ==>
               && Counted(Failures(s, key))
               && Count(s, key) ==
                    if Failures(s, key) == [] || ran > HEALTHY_STREAM_MS then 0
                    else Failures(s, key)[|Failures(s, key)|-1].count
    ensures KeyInvariant(cfg, t, key)
  {
    hide Spread, Counted, Wait;
    NoteKeeps(cfg, s, key, ran);
  }

  lemma RemovedFacts(cfg: Config, s: State, key: Key)
    requires Safe(cfg, s) && key in s.streams
    ensures var t := Removed(s, key);
            && !Busy(t, key) && Failures(t, key) == Failures(s, key) && t.now == s.now && t.shutdown == s.shutdown
            && Count(t, key) == if s.now - s.streams[key].startedAt > HEALTHY_STREAM_MS then 0 else Count(s, key)
    ensures !Busy(FailStream(cfg, s, key), key)
  {
  }

  lemma RunningFacts(cfg: Config, s: State, key: Key)
    requires KeyInvariant(cfg, s, key) && key in s.streams
    ensures Spread(cfg, Failures(s, key))
    ensures Failures(s, key) != [] ==> Due(cfg, Failures(s, key)[|Failures(s, key)|-1]) <= s.now
    ensures s.shutdown != Cleared ==>
              && Counted(Failures(s, key))
              && Count(s, key) == (if Failures(s, key) == [] then 0 else Failures(s, key)[|Failures(s, key)|-1].count)
  {
    hide Counted, Wait;
  }

  lemma FailedKeyKept(cfg: Config, s: State, key: Key)
    requires ValidConfig(cfg) && Safe(cfg, s) && KeyInvariant(cfg, s, key) && key in s.streams
    ensures KeyInvariant(cfg, FailStream(cfg, s, key), key)
  {
    RunningFacts(cfg, s, key);
    RemovedFacts(cfg, s, key);
    hide Spread, Counted, Wait, NoteFailure, Removed, KeyInvariant, ValidConfig, Safe, Due;
    var t := FailStream(cfg, s, key);
    assert t.(opening := t.opening) == t;
    NotedKeyKept(cfg, Removed(s, key), key, s.now - s.streams[key].startedAt, t);
  }

  lemma FailLeavesOthers(cfg: Config, s: State, key: Key, k: Key)
    requires KeyInvariant(cfg, s, k) && k != key && key in s.streams
    ensures KeyInvariant(cfg, FailStream(cfg, s, key), k)
  {
    hide KeyInvariant, Wait;
    OtherKeyKept(cfg, s, FailStream(cfg, s, key), k);
  }

  lemma FailKeeps(cfg: Config, s: State, key: Key, k: Key)
    requires ValidConfig(cfg) && Safe(cfg, s) && KeyInvariant(cfg, s, key) && KeyInvariant(cfg, s, k)
    ensures KeyInvariant(cfg, FailStream(cfg, s, key), k)
  {
    hide KeyInvariant, Wait, Removed, NoteFailure, Safe, ValidConfig;
    if key in s.streams {
      if k == key { FailedKeyKept(cfg, s, key); } else { FailLeavesOthers(cfg, s, key, k); }
    }
  }

  /** The state in which a stream that was opened is registered. */
  function Entered(s: State, key: Key): State
    requires key in s.opening && s.opening[key].Connecting?
  {
    s.(handles := s.handles + 1, streams := s.streams[key := Running(s.handles, s.now)],
       retryAfter := s.retryAfter - {key}, opening := s.opening - {key})
  }

  lemma EnteredKeeps(cfg: Config, s: State, key: Key, k: Key)
    requires KeyInvariant(cfg, s, k) && key in s.opening && s.opening[key].Connecting?
    ensures KeyInvariant(cfg, Entered(s, key), k)
  {
    if k == key {
      hide Spread, Counted, Wait;
    } else {
      hide KeyInvariant;
      OtherKeyKept(cfg, s, Entered(s, key), k);
    }
  }

  lemma EnteredIsSafe(cfg: Config, s: State, key: Key)
    requires Safe(cfg, s) && key in s.opening && s.opening[key].Connecting? && key in s.wanted
    ensures Safe(cfg, Entered(s, key))
  {
    FewerOpen(s, key);
  }

  /** A stream that comes too late. */
  lemma LateKeeps(cfg: Config, s: State, key: Key, k: Key)
    requires KeyInvariant(cfg, s, k) && key in s.opening && s.opening[key].Connecting?
    requires s.shutdown != NotStopping || key !in s.wanted
    ensures KeyInvariant(cfg, OnOpened(cfg, s, key), k)
  {
    hide Spread, Counted, Wait, FailStream;
  }

  lemma OpenedKeeps(cfg: Config, s: State, key: Key, k: Key)
    requires ValidConfig(cfg) && Safe(cfg, s) && KeyInvariant(cfg, s, key) && KeyInvariant(cfg, s, k)
    requires key in s.opening && s.opening[key].Connecting?
    ensures KeyInvariant(cfg, OnOpened(cfg, s, key), k)
  {
    hide FailStream, KeyInvariant, Safe, ValidConfig;
    if s.shutdown == NotStopping && key in s.wanted {
      EnteredKeeps(cfg, s, key, key);
      EnteredKeeps(cfg, s, key, k);
      EnteredIsSafe(cfg, s, key);
      if s.opening[key].fatal { FailKeeps(cfg, Entered(s, key), key, k); }
    } else {
      LateKeeps(cfg, s, key, k);
    }
  }

  lemma OpenFailedKeeps(cfg: Config, s: State, key: Key, k: Key)
    requires ValidConfig(cfg) && Safe(cfg, s) && KeyInvariant(cfg, s, key) && KeyInvariant(cfg, s, k)
    requires key in s.opening && s.opening[key].Connecting?
    ensures KeyInvariant(cfg, OnOpenFailed(cfg, s, key), k)
  {
    hide Spread, Counted, Wait;
    if k == key {
      NotedKeyKept(cfg, s, key, 0, OnOpenFailed(cfg, s, key));
    } else {
      OtherKeyKept(cfg, s, OnOpenFailed(cfg, s, key), k);
    }
  }

  /** Streams that leave the registry without a failure change nothing. */
  lemma DropKeeps(cfg: Config, s: State, t: State, k: Key)
    requires KeyInvariant(cfg, s, k)
    requires t == s.(streams := t.streams, wanted := t.wanted, closings := t.closings)
    requires k in t.streams ==> k in s.streams && t.streams[k] == s.streams[k]
    ensures KeyInvariant(cfg, t, k)
  {
    hide Spread, Counted, Wait;
  }

  lemma StartsKeep(cfg: Config, s: State, t: State, from: set<Key>, k: Key)
    requires KeyInvariant(cfg, s, k) && OnlyStarted(s, t, from)
    requires s.shutdown != NotStopping ==> t == s
    ensures KeyInvariant(cfg, t, k)
  {
    hide Spread, Counted, Wait;
  }

  lemma DiscoveryKeeps(cfg: Config, s: State, kind: Kind, ids: seq<string>, k: Key)
    requires Safe(cfg, s) && KeyInvariant(cfg, s, k)
    ensures KeyInvariant(cfg, Discovered(cfg, s, kind, ids), k)
  {
    hide KeyInvariant, StartMissing;
    var read := Read(s, kind, ids);
    var dropped := Drop(read, Unwanted(read, kind));
    StartMissingEffect(cfg, dropped, kind, ids);
    DropKeeps(cfg, s, dropped, k);
    StartsKeep(cfg, dropped, Discovered(cfg, s, kind, ids), Keys(kind, ids), k);
  }

  /** Nothing is noted, opened or registered. */
  lemma QuietStepKeeps(cfg: Config, s: State, e: Event, k: Key)
    requires KeyInvariant(cfg, s, k) && Enabled(s, e)
    requires !e.Discovery? && !e.Opened? && !e.OpenFailed? && !e.Failed?
    requires e.Fatal? ==> e.key in s.opening && s.opening[e.key].Connecting?
    ensures KeyInvariant(cfg, Next(cfg, s, e), k)
  {
    hide Spread, Counted, Wait, FailStream, HandlesOf, OnOpened, OnOpenFailed, Discovered;
  }

  lemma StepKeeps(cfg: Config, s: State, e: Event, k: Key)
    requires ValidConfig(cfg) && Safe(cfg, s) && Invariant(cfg, s)
    ensures KeyInvariant(cfg, Next(cfg, s, e), k)
  {
    assert KeyInvariant(cfg, s, k);
    assert (e.Opened? || e.OpenFailed? || e.Failed? || e.Fatal?) ==> KeyInvariant(cfg, s, e.key);
    hide KeyInvariant, FailStream, OnOpened, OnOpenFailed, Discovered, NoteFailure, Safe, ValidConfig;
    hide ClearAll, CloseAll, HandlesOf;
    if Enabled(s, e) {
      match e {
        case Discovery(kind, ids) => DiscoveryKeeps(cfg, s, kind, ids, k);
        case Opened(key) => OpenedKeeps(cfg, s, key, k);
        case OpenFailed(key) => OpenFailedKeeps(cfg, s, key, k);
        case Failed(key) => FailKeeps(cfg, s, key, k);
        case Fatal(key) =>
          if key in s.opening && s.opening[key].Connecting? { QuietStepKeeps(cfg, s, e, k); }
          else { FailKeeps(cfg, s, key, k); }
        case _ => QuietStepKeeps(cfg, s, e, k);
      }
    }
  }

  lemma {:induction false} AlwaysInvariant(cfg: Config, es: seq<Event>)
    requires ValidConfig(cfg)
    ensures Invariant(cfg, After(cfg, es))
  {
    if es != [] {
      var earlier := es[..|es|-1];
      AlwaysInvariant(cfg, earlier);
      SupervisorIsSafe(cfg, earlier);
      forall k ensures KeyInvariant(cfg, After(cfg, es), k) {
        StepKeeps(cfg, After(cfg, earlier), es[|es|-1], k);
      }
    }
  }

  // ---- what it means -----------------------------------------------------------------------------------

  lemma NothingDueLater(cfg: Config, s: State, key: Key, i: nat)
    requires ValidConfig(cfg) && KeyInvariant(cfg, s, key) && i < |Failures(s, key)|
    requires key !in s.retryAfter || s.retryAfter[key] <= s.now
    requires s.shutdown == NotStopping
    ensures Failures(s, key)[i].count > 0 && Due(cfg, Failures(s, key)[i]) <= s.now
  {
    hide Counted;
    var fs := Failures(s, key);
    if i < |fs| - 1 { WaitsGrowWithinBounds(cfg, fs[|fs|-1].count, fs[|fs|-1].count); }
  }

  /** A stream is opened again only when the wait of every failure its key ever had is over. */
  lemma AttemptsWait(cfg: Config, es: seq<Event>, e: Event, key: Key, i: nat)
    requires ValidConfig(cfg)
    requires key !in After(cfg, es).opening && key in After(cfg, es + [e]).opening
    requires i < |Failures(After(cfg, es), key)|
    ensures var s := After(cfg, es);
            var f := Failures(s, key)[i];
            f.count > 0 && f.at + Wait(cfg, f.count) <= s.now == After(cfg, es + [e]).now
  {
    assert (es + [e])[..|es|] == es;
    SupervisorIsSafe(cfg, es);
    AlwaysInvariant(cfg, es);
    assert KeyInvariant(cfg, After(cfg, es), key);
    hide KeyInvariant, Invariant, Next, Wait;
    OnlyDiscoveryOpens(cfg, After(cfg, es), e, key);
    NothingDueLater(cfg, After(cfg, es), key, i);
  }

  lemma OnlyDiscoveryOpens(cfg: Config, s: State, e: Event, key: Key)
    requires Safe(cfg, s) && key !in s.opening && key in Next(cfg, s, e).opening
    ensures s.shutdown == NotStopping && (key !in s.retryAfter || s.retryAfter[key] <= s.now)
    ensures Next(cfg, s, e).now == s.now
  {
    hide Discovered, Safe;
    match e {
      case Discovery(kind, ids) => DiscoveryOpens(cfg, s, kind, ids, key);
      case _ =>
    }
  }

  lemma DiscoveryOpens(cfg: Config, s: State, kind: Kind, ids: seq<string>, key: Key)
    requires Safe(cfg, s) && key !in s.opening && key in Discovered(cfg, s, kind, ids).opening
    ensures s.shutdown == NotStopping && (key !in s.retryAfter || s.retryAfter[key] <= s.now)
    ensures Discovered(cfg, s, kind, ids).now == s.now
  {
    hide StartMissing;
    var read := Read(s, kind, ids);
    var dropped := Drop(read, Unwanted(read, kind));
    StartMissingEffect(cfg, dropped, kind, ids);
    assert MayStart(dropped, key);
  }

  function SumOfWaits(cfg: Config, fs: seq<Failure>): int
    requires forall i :: 0 <= i < |fs| ==> fs[i].count > 0
  {
    if fs == [] then 0 else SumOfWaits(cfg, fs[..|fs|-1]) + Wait(cfg, fs[|fs|-1].count)
  }

  lemma {:induction false} SpreadSpans(cfg: Config, fs: seq<Failure>, i: nat, j: nat)
    requires Spread(cfg, fs) && i <= j < |fs|
    ensures fs[j].at - fs[i].at >= SumOfWaits(cfg, fs[i..j])
    decreases j - i
  {
    if i < j {
      SpreadSpans(cfg, fs, i, j - 1);
      assert fs[i..j][..j-1-i] == fs[i..j-1] && fs[i..j][j-1-i] == fs[j-1];
    }
  }

  /** Failures of a key span at least the sum of the waits between them, and their counts rise by one from failure
      to failure, and begin again at one exactly when the stream that failed had run for more than 30 seconds. */
  lemma FailuresAreSpread(cfg: Config, es: seq<Event>, key: Key, i: nat, j: nat)
    requires ValidConfig(cfg) && i <= j < |Failures(After(cfg, es), key)|
    ensures var fs := Failures(After(cfg, es), key);
            && (forall k :: 0 <= k < |fs| ==> fs[k].count > 0)
            && fs[j].at - fs[i].at >= SumOfWaits(cfg, fs[i..j])
            && (After(cfg, es).shutdown != Cleared && i < j ==>
                  fs[j].count == if fs[j].ran > 30_000 then 1 else fs[j-1].count + 1)
  {
    AlwaysInvariant(cfg, es);
    assert KeyInvariant(cfg, After(cfg, es), key);
    SpreadSpans(cfg, Failures(After(cfg, es), key), i, j);
  }
}
