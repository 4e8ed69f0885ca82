// The stream supervisor of the copy worker (scripts/wsa-copy-worker.ts): discovery, opening, failing and
// closing of streams, for the strategies and for self-copy.
//
// The two registries of the source (`streams`, `selfCopyStreams`) are one map here; the kind of a key says
// which of them an entry belongs to, as the prefix of the key does in the tables both kinds share
// (`opening`, `retryAfter`, `failureCounts`). Every function below is one stretch of code between two awaits.

module Supervisor {
  import opened Common

  const HEALTHY_STREAM_MS: int := 30_000

  datatype Config = Config(maxConcurrentOpens: int, retryBaseMs: int, retryMaxMs: int)

  /** The ranges the worker reads its settings in. */
  predicate ValidConfig(cfg: Config) {
    && 1 <= cfg.maxConcurrentOpens <= 32
    && 500 <= cfg.retryBaseMs <= 60_000
    && cfg.retryMaxMs == Max(cfg.retryBaseMs, 15_000)
  }

  function Pow2(n: nat): nat { if n == 0 then 1 else 2 * Pow2(n - 1) }

  /** How long a key waits after its n-th failure in a row. */
  function Wait(cfg: Config, n: nat): int
    requires n > 0
  {
    Min(cfg.retryMaxMs, cfg.retryBaseMs * Pow2(n - 1))
  }

  datatype Kind = Strategy | SelfCopy

  datatype Key = Key(kind: Kind, id: string)

  datatype Running = Running(handle: nat, startedAt: int)

  /** Why a key is in `opening`: its stream is being opened (and a change of it could already not be stored), its
      failure is being reported, or a stream that came too late is being closed. */
  datatype Phase = Connecting(fatal: bool) | Reporting | ClosingLate

  datatype Shutdown = NotStopping | Stopping | StrategiesClosed | SelfCopyClosed | Cleared

  /** One failure: when, the count it was given, and how long the stream had run (0: it could not be opened). */
  datatype Failure = Failure(at: int, count: nat, ran: int)

  datatype State = State(
    streams: map<Key, Running>,
    wanted: set<Key>,              // activeStrategies and selfCopySources
    opening: map<Key, Phase>,
    retryAfter: map<Key, int>,
    failureCounts: map<Key, nat>,
    shutdown: Shutdown,
    // what happened so far
    now: int,
    handles: nat,                   // handles 0 .. handles - 1 have been handed out
    closings: multiset<nat>,       // how often each handle was handed to close
    failures: map<Key, seq<Failure>>)

  const START: State := State(map[], {}, map[], map[], map[], NotStopping, 0, 0, multiset{}, map[])

  function Count(s: State, key: Key): nat {
    if key in s.failureCounts then s.failureCounts[key] else 0
  }

  function Failures(s: State, key: Key): seq<Failure> {
    if key in s.failures then s.failures[key] else []
  }

  // ---- the steps, as values ----------------------------------------------------------------------

  function NoteFailure(cfg: Config, s: State, key: Key, ran: int): State {
    var count := Count(s, key) + 1;
    s.(failureCounts := s.failureCounts[key := count],
       retryAfter := s.retryAfter[key := s.now + Wait(cfg, count)],
       failures := s.failures[key := Failures(s, key) + [Failure(s.now, count, ran)]])
  }

  /** The stream of a key leaves the registry and is handed to close. */
  function Removed(s: State, key: Key): State
    requires key in s.streams
  {
    var running := s.streams[key];
    s.(streams := s.streams - {key},
       failureCounts :=
         if s.now - running.startedAt > HEALTHY_STREAM_MS then s.failureCounts - {key} else s.failureCounts,
       closings := s.closings + multiset{running.handle})
  }

  /** failStream looks the stream up by its key: whatever stream runs there now is closed. */
  function FailStream(cfg: Config, s: State, key: Key): State {
    if key !in s.streams then s
    else NoteFailure(cfg, Removed(s, key), key, s.now - s.streams[key].startedAt)
  }

  function OnFatal(cfg: Config, s: State, key: Key): State {
    if key in s.opening && s.opening[key].Connecting? then s.(opening := s.opening[key := Connecting(true)])
    else FailStream(cfg, s, key)
  }

  function OnOpened(cfg: Config, s: State, key: Key): State
    requires key in s.opening && s.opening[key].Connecting?
  {
    var handle := s.handles;
    if s.shutdown != NotStopping || key !in s.wanted then
      s.(handles := handle + 1, closings := s.closings + multiset{handle}, opening := s.opening[key := ClosingLate])
    else
      var registered := s.(handles := handle + 1,
                           streams := s.streams[key := Running(handle, s.now)],
                           retryAfter := s.retryAfter - {key},
                           opening := s.opening - {key});
      if s.opening[key].fatal then FailStream(cfg, registered, key) else registered
  }

  function OnOpenFailed(cfg: Config, s: State, key: Key): State
    requires key in s.opening && s.opening[key].Connecting?
  {
    NoteFailure(cfg, s, key, 0).(opening := s.opening[key := Reporting])
  }

  function Keys(kind: Kind, ids: seq<string>): set<Key> {
    set id | id in ids :: Key(kind, id)
  }

  /** The streams of a kind that nobody wants any more. */
  function Unwanted(s: State, kind: Kind): set<Key> {
    set key | key in s.streams && key.kind == kind && key !in s.wanted
  }

  function HandlesOf(streams: map<Key, Running>, keys: set<Key>): multiset<nat> {
    multiset(set key | key in keys && key in streams :: streams[key].handle)
  }

  function Drop(s: State, keys: set<Key>): State {
    s.(streams := s.streams - keys, closings := s.closings + HandlesOf(s.streams, keys))
  }

  predicate MayStart(s: State, key: Key) {
    && key !in s.streams && key !in s.opening
    && (if key in s.retryAfter then s.retryAfter[key] else 0) <= s.now
  }

  function StartMissing(cfg: Config, s: State, kind: Kind, ids: seq<string>): State
    decreases |ids|
  {
    if ids == [] || s.shutdown != NotStopping || |s.opening| >= cfg.maxConcurrentOpens then s
    else
      var key := Key(kind, ids[0]);
      var next := if MayStart(s, key) then s.(opening := s.opening[key := Connecting(false)]) else s;
      StartMissing(cfg, next, kind, ids[1..])
  }

  /** Discovery knows now who is wanted of a kind. */
  function Read(s: State, kind: Kind, ids: seq<string>): State {
    s.(wanted := (set key | key in s.wanted && key.kind != kind) + Keys(kind, ids))
  }

  function Discovered(cfg: Config, s: State, kind: Kind, ids: seq<string>): State {
    var read := Read(s, kind, ids);
    StartMissing(cfg, Drop(read, Unwanted(read, kind)), kind, ids)
  }

  function OfKind(s: State, kind: Kind): set<Key> {
    set key | key in s.streams && key.kind == kind
  }

  /** Shutdown hands the streams of one kind to close and leaves them in the registry. */
  function CloseAll(s: State, kind: Kind): State {
    s.(closings := s.closings + HandlesOf(s.streams, OfKind(s, kind)),
       shutdown := if kind == Strategy then StrategiesClosed else SelfCopyClosed)
  }

  function ClearAll(s: State): State {
    s.(streams := map[], wanted := (set key | key in s.wanted && key.kind == Strategy),
       retryAfter := map[], failureCounts := map[], shutdown := Cleared)
  }

  datatype Event =
    | Tick(now: int)                              // time passes
    | Discovery(kind: Kind, ids: seq<string>)     // a discovery read was answered
    | DiscoveryFailed(kind: Kind)                 // or it was not
    | Opened(key: Key)
    | OpenFailed(key: Key)
    | Settled(key: Key)                           // the report, or the close of a late stream, is over
    | Fatal(key: Key)                             // a change of a strategy could not be stored
    | Failed(key: Key)                            // a pump, maybe one of an earlier stream of the key, failed
    | Stop
    | CloseStrategies | CloseSelfCopy | Clear     // the later parts of shutdown

  predicate Enabled(s: State, e: Event) {
    match e
    case Tick(now) => s.now <= now
    case Discovery(_, _) => true
    case DiscoveryFailed(_) => true
    case Opened(key) => key in s.opening && s.opening[key].Connecting?
    case OpenFailed(key) => key in s.opening && s.opening[key].Connecting?
    case Settled(key) => key in s.opening && !s.opening[key].Connecting?
    case Fatal(key) => key.kind == Strategy
    case Failed(_) => true
    case Stop => s.shutdown == NotStopping
    case CloseStrategies => s.shutdown == Stopping
    case CloseSelfCopy => s.shutdown == StrategiesClosed
    case Clear => s.shutdown == SelfCopyClosed
  }

  /** One event; an event that cannot happen now is passed over. */
  function Next(cfg: Config, s: State, e: Event): State {
    if !Enabled(s, e) then s
    else match e
      case Tick(now) => s.(now := now)
      case Discovery(kind, ids) => Discovered(cfg, s, kind, ids)
      case DiscoveryFailed(_) => s
      case Opened(key) => OnOpened(cfg, s, key)
      case OpenFailed(key) => OnOpenFailed(cfg, s, key)
      case Settled(key) => s.(opening := s.opening - {key})
      case Fatal(key) => OnFatal(cfg, s, key)
      case Failed(key) => FailStream(cfg, s, key)
      case Stop => s.(shutdown := Stopping)
      case CloseStrategies => CloseAll(s, Strategy)
      case CloseSelfCopy => CloseAll(s, SelfCopy)
      case Clear => ClearAll(s)
  }

  function After(cfg: Config, es: seq<Event>): State {
    if es == [] then START else Next(cfg, After(cfg, es[..|es|-1]), es[|es|-1])
  }

  // ---- safety ---------------------------------------------------------------------------------------

  ghost predicate Safe(cfg: Config, s: State) {
    && |s.opening| <= cfg.maxConcurrentOpens
    && s.opening.Keys !! s.streams.Keys
    && s.streams.Keys <= s.wanted
  }

  /** `t` is `s` with some of the keys `from` being opened in addition. */
  ghost predicate OnlyStarted(s: State, t: State, from: set<Key>) {
    && t == s.(opening := t.opening)
    && (forall k :: k in s.opening ==> k in t.opening && t.opening[k] == s.opening[k])
    && (forall k :: k in t.opening && k !in s.opening ==>
          t.opening[k] == Connecting(false) && MayStart(s, k) && k in from)
  }

  lemma StartOne(cfg: Config, s: State, key: Key)
    requires Safe(cfg, s) && |s.opening| < cfg.maxConcurrentOpens && MayStart(s, key)
    ensures Safe(cfg, s.(opening := s.opening[key := Connecting(false)]))
    ensures OnlyStarted(s, s.(opening := s.opening[key := Connecting(false)]), {key})
  {
    OneMore(s.opening, key, Connecting(false));
  }

  lemma OneMore(opening: map<Key, Phase>, key: Key, phase: Phase)
    ensures |opening[key := phase]| <= |opening| + 1
    ensures opening[key := phase].Keys == opening.Keys + {key}
  {
    assert opening[key := phase].Keys == opening.Keys + {key};
  }

  lemma StartedMore(s: State, t: State, u: State, key: Key, from: set<Key>)
    requires OnlyStarted(s, t, {key}) && OnlyStarted(t, u, from)
    ensures OnlyStarted(s, u, from + {key})
  {
  }

  /** What starting streams changes, and what it does not. */
  lemma {:induction false} StartMissingEffect(cfg: Config, s: State, kind: Kind, ids: seq<string>)
    requires Safe(cfg, s)
    ensures var t := StartMissing(cfg, s, kind, ids);
            && Safe(cfg, t)
            && OnlyStarted(s, t, Keys(kind, ids))
            && (s.shutdown != NotStopping ==> t == s)
    decreases |ids|
  {
    if !(ids == [] || s.shutdown != NotStopping || |s.opening| >= cfg.maxConcurrentOpens) {
      var key := Key(kind, ids[0]);
      assert Keys(kind, ids) == Keys(kind, ids[1..]) + {key};
      if MayStart(s, key) {
        var next := s.(opening := s.opening[key := Connecting(false)]);
        StartOne(cfg, s, key);
        StartMissingEffect(cfg, next, kind, ids[1..]);
        StartedMore(s, next, StartMissing(cfg, s, kind, ids), key, Keys(kind, ids[1..]));
      } else {
        StartMissingEffect(cfg, s, kind, ids[1..]);
      }
    }
  }

  lemma DiscoveryIsSafe(cfg: Config, s: State, kind: Kind, ids: seq<string>)
    requires Safe(cfg, s)
    ensures Safe(cfg, Discovered(cfg, s, kind, ids))
  {
    var read := Read(s, kind, ids);
    StartMissingEffect(cfg, Drop(read, Unwanted(read, kind)), kind, ids);
  }

  lemma FailIsSafe(cfg: Config, s: State, key: Key)
    requires Safe(cfg, s)
    ensures Safe(cfg, FailStream(cfg, s, key))
  {
  }

  lemma OpenedIsSafe(cfg: Config, s: State, key: Key)
    requires Safe(cfg, s) && key in s.opening && s.opening[key].Connecting?
    ensures Safe(cfg, OnOpened(cfg, s, key))
  {
    SameSize(s, key, ClosingLate);
    FewerOpen(s, key);
    if s.shutdown == NotStopping && key in s.wanted {
      var registered := s.(handles := s.handles + 1,
                           streams := s.streams[key := Running(s.handles, s.now)],
                           retryAfter := s.retryAfter - {key},
                           opening := s.opening - {key});
      assert Safe(cfg, registered);
      FailIsSafe(cfg, registered, key);
    }
  }

  /** Only a phase changes, or a key is no longer being opened. */
  lemma PhaseIsSafe(cfg: Config, s: State, t: State, key: Key, phase: Phase)
    requires Safe(cfg, s) && key in s.opening && t.streams == s.streams && t.wanted == s.wanted
    requires t.opening == s.opening[key := phase] || t.opening == s.opening - {key}
    ensures Safe(cfg, t)
  {
    SameSize(s, key, phase);
    FewerOpen(s, key);
  }

  /** No stream is added, and nobody is wanted less unless all streams are gone. */
  lemma FewerIsSafe(cfg: Config, s: State, t: State)
    requires Safe(cfg, s) && t.opening == s.opening
    requires (t.streams == s.streams && t.wanted == s.wanted) || t.streams == map[]
    ensures Safe(cfg, t)
  {
  }

  lemma StepIsSafe(cfg: Config, s: State, e: Event)
    requires Safe(cfg, s)
    ensures Safe(cfg, Next(cfg, s, e))
  {
    hide Safe, Discovered, OnOpened, FailStream, HandlesOf, Wait;
    var t := Next(cfg, s, e);
    if Enabled(s, e) {
      match e {
        case Discovery(kind, ids) => DiscoveryIsSafe(cfg, s, kind, ids);
        case Opened(key) => OpenedIsSafe(cfg, s, key);
        case OpenFailed(key) => PhaseIsSafe(cfg, s, t, key, Reporting);
        case Settled(key) => PhaseIsSafe(cfg, s, t, key, Reporting);
        case Failed(key) => FailIsSafe(cfg, s, key);
        case Fatal(key) =>
          if key in s.opening && s.opening[key].Connecting? { PhaseIsSafe(cfg, s, t, key, Connecting(true)); }
          else { FailIsSafe(cfg, s, key); }
        case _ => FewerIsSafe(cfg, s, t);
      }
    }
  }

  lemma SameSize(s: State, key: Key, phase: Phase)
    requires key in s.opening
    ensures |s.opening[key := phase]| == |s.opening|
    ensures s.opening[key := phase].Keys == s.opening.Keys
  {
    assert s.opening[key := phase].Keys == s.opening.Keys;
  }

  lemma FewerOpen(s: State, key: Key)
    requires key in s.opening
    ensures |s.opening - {key}| < |s.opening|
  {
    assert (s.opening - {key}).Keys == s.opening.Keys - {key};
  }

  /** In every reachable state: never more streams are being opened than allowed, no key is both being opened and
      registered, and only wanted streams are registered, whether discovery could read or not. */
  lemma {:induction false} SupervisorIsSafe(cfg: Config, es: seq<Event>)
    requires ValidConfig(cfg)
    ensures var s := After(cfg, es);
            && |s.opening| <= cfg.maxConcurrentOpens
            && s.opening.Keys !! s.streams.Keys
            && s.streams.Keys <= s.wanted
  {
    if es != [] {
      SupervisorIsSafe(cfg, es[..|es|-1]);
      StepIsSafe(cfg, After(cfg, es[..|es|-1]), es[|es|-1]);
    }
  }

  lemma AlwaysSafe(cfg: Config, es: seq<Event>)
    requires ValidConfig(cfg)
    ensures Safe(cfg, After(cfg, es))
  {
    SupervisorIsSafe(cfg, es);
  }

  // ---- handles ----------------------------------------------------------------------------------------

  ghost predicate Registered(s: State, h: nat) {
    exists key :: key in s.streams && s.streams[key].handle == h
  }

  ghost predicate HandlesKept(s: State) {
    // no handle is registered twice
    && (forall a, b :: a in s.streams && b in s.streams && s.streams[a].handle == s.streams[b].handle ==> a == b)
    && (forall key :: key in s.streams ==> s.streams[key].handle < s.handles)
    && (forall h :: h in s.closings ==> h < s.handles)
    // every handle is registered or was handed to close; before shutdown exactly one of the two, and once
    && (forall h: nat :: h < s.handles ==> Registered(s, h) || s.closings[h] >= 1)
    && (s.shutdown == NotStopping ==>
          forall h: nat :: h < s.handles ==> s.closings[h] == if Registered(s, h) then 0 else 1)
    && (s.shutdown in {StrategiesClosed, SelfCopyClosed} ==>
          forall key :: key in s.streams && key.kind == Strategy ==> s.streams[key].handle in s.closings)
    && (s.shutdown == SelfCopyClosed ==>
          forall key :: key in s.streams && key.kind == SelfCopy ==> s.streams[key].handle in s.closings)
    && (s.shutdown == Cleared ==> s.streams == map[])
  }

  /** A handle that leaves the registry was handed to close. */
  lemma DroppedHandle(s: State, keys: set<Key>, h: nat)
    requires HandlesKept(s) && keys <= s.streams.Keys
    ensures var t := Drop(s, keys);
            && (Registered(t, h) ==> Registered(s, h))
            && t.closings[h] == s.closings[h] + if Registered(s, h) && !Registered(t, h) then 1 else 0
  {
    var t := Drop(s, keys);
    if Registered(s, h) {
      var key :| key in s.streams && s.streams[key].handle == h;
      if key in keys { assert h in HandlesOf(s.streams, keys); } else { assert key in t.streams; }
    }
    if Registered(t, h) {
      var key :| key in t.streams && t.streams[key].handle == h;
      assert key in s.streams && s.streams[key].handle == h;
    }
  }

  lemma DropKeepsHandles(s: State, keys: set<Key>)
    requires HandlesKept(s) && keys <= s.streams.Keys
    ensures HandlesKept(Drop(s, keys))
  {
    var t := Drop(s, keys);
    forall h: nat
      ensures Registered(t, h) ==> Registered(s, h)
      ensures t.closings[h] == s.closings[h] + if Registered(s, h) && !Registered(t, h) then 1 else 0
    {
      DroppedHandle(s, keys, h);
    }
    DroppedAreOld(s, keys);
    hide Registered, HandlesOf;
  }

  lemma DroppedAreOld(s: State, keys: set<Key>)
    requires HandlesKept(s) && keys <= s.streams.Keys
    ensures forall h :: h in Drop(s, keys).closings ==> h < s.handles
    ensures forall h :: h in s.closings ==> h in Drop(s, keys).closings
  {
  }

  lemma FailKeepsHandles(cfg: Config, s: State, key: Key)
    requires HandlesKept(s) && key in s.streams
    ensures HandlesKept(FailStream(cfg, s, key))
  {
    DropKeepsHandles(s, {key});
    assert HandlesOf(s.streams, {key}) == multiset{s.streams[key].handle} by {
      assert (set k | k in {key} && k in s.streams :: s.streams[k].handle) == {s.streams[key].handle};
    }
    SameHandles(Drop(s, {key}), FailStream(cfg, s, key));
  }

  /** Only these parts of the state matter for the handles. */
  lemma SameHandles(s: State, t: State)
    requires HandlesKept(s)
    requires t.streams == s.streams && t.handles == s.handles && t.closings == s.closings && t.shutdown == s.shutdown
    ensures HandlesKept(t)
  {
    forall h: nat ensures Registered(s, h) == Registered(t, h) {}
  }

  lemma NewHandle(s: State)
    requires HandlesKept(s)
    ensures !Registered(s, s.handles) && s.closings[s.handles] == 0
  {
    assert s.handles !in s.closings;
  }

  lemma SameStreams(s: State, t: State, h: nat)
    requires t.streams == s.streams
    ensures Registered(s, h) == Registered(t, h)
  {
  }

  lemma LateStreamKeepsHandles(s: State, t: State)
    requires HandlesKept(s) && t.streams == s.streams && t.shutdown == s.shutdown
    requires t.handles == s.handles + 1 && t.closings == s.closings + multiset{s.handles}
    ensures HandlesKept(t)
  {
    NewHandle(s);
    hide Registered;
    forall h: nat | h < t.handles
      ensures Registered(t, h) || t.closings[h] >= 1
      ensures s.shutdown == NotStopping ==> t.closings[h] == if Registered(t, h) then 0 else 1
    {
      SameStreams(s, t, h);
      assert h < s.handles || h == s.handles;
    }
  }

  lemma OneStreamMore(s: State, t: State, key: Key, now: int, h: nat)
    requires key !in s.streams && t.streams == s.streams[key := Running(s.handles, now)]
    ensures Registered(t, h) == (h == s.handles || Registered(s, h))
  {
    if h == s.handles { assert t.streams[key].handle == h; }
    if Registered(s, h) {
      var k :| k in s.streams && s.streams[k].handle == h;
      assert k in t.streams && t.streams[k].handle == h;
    }
  }

  lemma NewStreamKeepsHandles(s: State, t: State, key: Key, now: int)
    requires HandlesKept(s) && key !in s.streams && s.shutdown == t.shutdown == NotStopping
    requires t.streams == s.streams[key := Running(s.handles, now)]
    requires t.handles == s.handles + 1 && t.closings == s.closings
    ensures HandlesKept(t)
  {
    NewHandle(s);
    hide Registered;
    forall h: nat | h < t.handles ensures t.closings[h] == if Registered(t, h) then 0 else 1 {
      OneStreamMore(s, t, key, now, h);
      assert h < s.handles || h == s.handles;
    }
  }

  lemma OpenedKeepsHandles(cfg: Config, s: State, key: Key)
    requires HandlesKept(s) && key in s.opening && s.opening[key].Connecting? && key !in s.streams
    ensures HandlesKept(OnOpened(cfg, s, key))
  {
    hide HandlesKept, FailStream;
    if s.shutdown != NotStopping || key !in s.wanted {
      LateStreamKeepsHandles(s, OnOpened(cfg, s, key));
    } else {
      var t := s.(handles := s.handles + 1,
                  streams := s.streams[key := Running(s.handles, s.now)],
                  retryAfter := s.retryAfter - {key},
                  opening := s.opening - {key});
      NewStreamKeepsHandles(s, t, key, s.now);
      if s.opening[key].fatal { FailKeepsHandles(cfg, t, key); }
    }
  }

  lemma CloseAllKeepsHandles(s: State, kind: Kind)
    requires HandlesKept(s) && s.shutdown == if kind == Strategy then Stopping else StrategiesClosed
    ensures HandlesKept(CloseAll(s, kind))
  {
    var t := CloseAll(s, kind);
    forall h: nat ensures Registered(s, h) == Registered(t, h) {}
    forall key | key in s.streams && key.kind == kind ensures s.streams[key].handle in t.closings {
      assert s.streams[key].handle in HandlesOf(s.streams, OfKind(s, kind));
    }
  }

  lemma ClearKeepsHandles(s: State)
    requires HandlesKept(s) && s.shutdown == SelfCopyClosed
    ensures HandlesKept(ClearAll(s))
  {
    forall h: nat | h < s.handles ensures s.closings[h] >= 1 {
      if Registered(s, h) {
        var key :| key in s.streams && s.streams[key].handle == h;
        assert key.kind == Strategy || key.kind == SelfCopy;
      }
    }
  }

  lemma DiscoveryKeepsHandles(cfg: Config, s: State, kind: Kind, ids: seq<string>)
    requires Safe(cfg, s) && HandlesKept(s)
    ensures HandlesKept(Discovered(cfg, s, kind, ids))
  {
    hide HandlesKept;
    var read := Read(s, kind, ids);
    SameHandles(s, read);
    var dropped := Drop(read, Unwanted(read, kind));
    DropKeepsHandles(read, Unwanted(read, kind));
    StartMissingEffect(cfg, dropped, kind, ids);
    SameHandles(dropped, Discovered(cfg, s, kind, ids));
  }

  lemma StopKeepsHandles(s: State)
    requires HandlesKept(s) && s.shutdown == NotStopping
    ensures HandlesKept(s.(shutdown := Stopping))
  {
    forall h: nat ensures Registered(s, h) == Registered(s.(shutdown := Stopping), h) {}
  }

  lemma StepKeepsHandles(cfg: Config, s: State, e: Event)
    requires Safe(cfg, s) && HandlesKept(s)
    ensures HandlesKept(Next(cfg, s, e))
  {
    hide HandlesKept, Discovered, OnOpened, ClearAll, CloseAll;
    if Enabled(s, e) {
      match e {
        case Discovery(kind, ids) => DiscoveryKeepsHandles(cfg, s, kind, ids);
        case Opened(key) => OpenedKeepsHandles(cfg, s, key);
        case Failed(key) => if key in s.streams { FailKeepsHandles(cfg, s, key); }
        case Fatal(key) =>
          if key in s.opening && s.opening[key].Connecting? { SameHandles(s, Next(cfg, s, e)); }
          else if key in s.streams { FailKeepsHandles(cfg, s, key); }
        case Stop => StopKeepsHandles(s);
        case CloseStrategies => CloseAllKeepsHandles(s, Strategy);
        case CloseSelfCopy => CloseAllKeepsHandles(s, SelfCopy);
        case Clear => ClearKeepsHandles(s);
        case _ => SameHandles(s, Next(cfg, s, e));
      }
    }
  }

  lemma {:induction false} HandlesAlwaysKept(cfg: Config, es: seq<Event>)
    requires ValidConfig(cfg)
    ensures HandlesKept(After(cfg, es))
  {
    if es != [] {
      var earlier := es[..|es|-1];
      SupervisorIsSafe(cfg, earlier);
      HandlesAlwaysKept(cfg, earlier);
      StepKeepsHandles(cfg, After(cfg, earlier), es[|es|-1]);
    }
  }

  /** Handle conservation. Until shutdown begins, every handle ever opened is either registered, under exactly one
      key and never handed to close, or was handed to close exactly once. Later every handle is registered or
      was handed to close, and once shutdown is over all of them were. */
  lemma HandlesAreConserved(cfg: Config, es: seq<Event>, h: nat)
    requires ValidConfig(cfg) && h < After(cfg, es).handles
    ensures var s := After(cfg, es);
            && (forall a, b :: a in s.streams && b in s.streams ==>
                  s.streams[a].handle == h == s.streams[b].handle ==> a == b)
            && (s.shutdown == NotStopping ==> s.closings[h] == if Registered(s, h) then 0 else 1)
            && (!Registered(s, h) ==> s.closings[h] >= 1)
            && (s.shutdown == Cleared ==> s.closings[h] >= 1)
  {
    HandlesAlwaysKept(cfg, es);
    var s := After(cfg, es);
    if s.shutdown == Cleared { assert !Registered(s, h); }
  }

  /** Once the worker is stopping nothing is registered any more, whatever is still under way: at any later time only
      streams are left that were registered then, with the handles they had. */
  lemma {:induction false} NothingRegisteredAfterStop(cfg: Config, es: seq<Event>, later: seq<Event>)
    requires ValidConfig(cfg) && After(cfg, es).shutdown != NotStopping
    ensures var s, t := After(cfg, es), After(cfg, es + later);
            && t.shutdown != NotStopping
            && forall key :: key in t.streams ==> key in s.streams && t.streams[key] == s.streams[key]
  {
    hide After, Next, Safe;
    if later == [] {
      assert es + later == es;
    } else {
      var n := |later| - 1;
      NothingRegisteredAfterStop(cfg, es, later[..n]);
      OneMoreLater(cfg, es, later);
      AlwaysSafe(cfg, es + later[..n]);
      StepRegistersNothing(cfg, After(cfg, es + later[..n]), later[n]);
    }
  }

  lemma OneMoreLater(cfg: Config, es: seq<Event>, later: seq<Event>)
    requires later != []
    ensures After(cfg, es + later) == Next(cfg, After(cfg, es + later[..|later|-1]), later[|later|-1])
  {
    hide Next;
    assert (es + later)[..|es + later|-1] == es + later[..|later|-1];
  }

  lemma DiscoveryRegistersNothing(cfg: Config, s: State, kind: Kind, ids: seq<string>)
    requires Safe(cfg, s)
    ensures var t := Discovered(cfg, s, kind, ids);
            && t.shutdown == s.shutdown
            && forall key :: key in t.streams ==> key in s.streams && t.streams[key] == s.streams[key]
  {
    hide HandlesOf, StartMissing;
    var read := Read(s, kind, ids);
    StartMissingEffect(cfg, Drop(read, Unwanted(read, kind)), kind, ids);
  }

  lemma StepRegistersNothing(cfg: Config, s: State, e: Event)
    requires Safe(cfg, s) && s.shutdown != NotStopping
    ensures var t := Next(cfg, s, e);
            && t.shutdown != NotStopping
            && forall key :: key in t.streams ==> key in s.streams && t.streams[key] == s.streams[key]
  {
    hide Safe, Discovered, HandlesOf, Wait;
    if e.Discovery? { DiscoveryRegistersNothing(cfg, s, e.kind, e.ids); }
  }

  // ---- what discovery brings about --------------------------------------------------------------------

  /** The key is missing, and no wait is running for it. */
  predicate Startable(s: State, key: Key) {
    key !in s.streams && key !in s.opening && (key in s.retryAfter ==> s.retryAfter[key] <= s.now)
  }

  /** Of the listed keys that can start all are being opened, or the limit is reached and they are the first ones. */
  ghost predicate FirstOnesOpened(cfg: Config, s: State, t: State, kind: Kind, ids: seq<string>) {
    && (forall i :: 0 <= i < |ids| && Startable(s, Key(kind, ids[i])) && Key(kind, ids[i]) !in t.opening ==>
          |t.opening| >= cfg.maxConcurrentOpens)
    && (forall i, j ::
          && 0 <= i < j < |ids| && ids[j] !in ids[..i]
          && Startable(s, Key(kind, ids[i])) && Startable(s, Key(kind, ids[j])) && Key(kind, ids[j]) in t.opening ==>
            Key(kind, ids[i]) in t.opening)
  }

  lemma FirstOneAlso(cfg: Config, s: State, next: State, t: State, kind: Kind, ids: seq<string>)
    requires ids != [] && FirstOnesOpened(cfg, next, t, kind, ids[1..])
    requires Startable(s, Key(kind, ids[0])) ==> Key(kind, ids[0]) in t.opening
    requires forall k :: Startable(s, k) && !Startable(next, k) ==> k == Key(kind, ids[0])
    ensures FirstOnesOpened(cfg, s, t, kind, ids)
  {
    var rest := ids[1..];
    assert forall i :: 0 < i < |ids| ==> ids[i] == rest[i-1];
    hide Startable;
    forall i, j |
      && 0 <= i < j < |ids| && ids[j] !in ids[..i]
      && Startable(s, Key(kind, ids[i])) && Startable(s, Key(kind, ids[j])) && Key(kind, ids[j]) in t.opening
      ensures Key(kind, ids[i]) in t.opening
    {
      if i > 0 && ids[i] != ids[0] {
        assert ids[..i] == [ids[0]] + rest[..i-1];
        assert rest[i-1] == ids[i] && rest[j-1] == ids[j];
      }
    }
  }

  /** One turn of the loop. */
  function StartedFirst(s: State, key: Key): State {
    if MayStart(s, key) then s.(opening := s.opening[key := Connecting(false)]) else s
  }

  lemma FirstTurn(cfg: Config, s: State, key: Key)
    requires Safe(cfg, s) && |s.opening| < cfg.maxConcurrentOpens && 0 <= s.now
    ensures var next := StartedFirst(s, key);
            && Safe(cfg, next) && next.shutdown == s.shutdown && next.now == s.now
            && (Startable(s, key) ==> key in next.opening)
            && (forall k :: Startable(s, k) && !Startable(next, k) ==> k == key)
  {
    if MayStart(s, key) { StartOne(cfg, s, key); }
    hide Safe;
  }

  lemma NothingStarted(cfg: Config, s: State, kind: Kind, ids: seq<string>)
    requires ids == [] || |s.opening| >= cfg.maxConcurrentOpens
    ensures FirstOnesOpened(cfg, s, s, kind, ids)
  {
  }

  lemma {:induction false} StartMissingOpens(cfg: Config, s: State, kind: Kind, ids: seq<string>)
    requires Safe(cfg, s) && s.shutdown == NotStopping && 0 <= s.now
    ensures FirstOnesOpened(cfg, s, StartMissing(cfg, s, kind, ids), kind, ids)
    decreases |ids|
  {
    hide FirstOnesOpened, Safe, MayStart, Startable;
    var t := StartMissing(cfg, s, kind, ids);
    if ids == [] || |s.opening| >= cfg.maxConcurrentOpens {
      assert t == s;
      NothingStarted(cfg, s, kind, ids);
    } else {
      var key := Key(kind, ids[0]);
      var next := StartedFirst(s, key);
      assert t == StartMissing(cfg, next, kind, ids[1..]);
      hide StartMissing, StartedFirst;
      FirstTurn(cfg, s, key);
      StartMissingOpens(cfg, next, kind, ids[1..]);
      StartMissingEffect(cfg, next, kind, ids[1..]);
      FirstOneAlso(cfg, s, next, t, kind, ids);
    }
  }

  /** Every answered discovery, of any list: as long as the worker is not stopping, each listed key that is missing and
      waits for nothing is being opened afterwards, unless the limit is reached, and then the first ones of the list
      are. A stream that is registered and still listed, or of the other kind, stays with its handle and start, and a
      registered one that is not listed any more leaves. Wanted are the listed keys and those of the other kind. */
  lemma DiscoveryOpensWhatIsMissing(cfg: Config, s: State, kind: Kind, ids: seq<string>)
    requires Safe(cfg, s) && 0 <= s.now
    ensures var t := Discovered(cfg, s, kind, ids);
            && (s.shutdown == NotStopping ==> FirstOnesOpened(cfg, s, t, kind, ids))
            && (forall k :: k in s.streams && (k.kind != kind || k.id in ids) ==>
                  k in t.streams && t.streams[k] == s.streams[k])
            && (forall k :: k in s.streams && k.kind == kind && k.id !in ids ==> k !in t.streams)
            && (forall k :: k in t.wanted <==> if k.kind == kind then k.id in ids else k in s.wanted)
  {
    var dropped := Drop(Read(s, kind, ids), Unwanted(Read(s, kind, ids), kind));
    DropIsSafe(cfg, s, kind, ids);
    DropKeepsListed(s, kind, ids);
    hide FirstOnesOpened, Drop, Read, Unwanted, Keys, Safe;
    StartMissingEffect(cfg, dropped, kind, ids);
    if s.shutdown == NotStopping {
      StartMissingOpens(cfg, dropped, kind, ids);
      SameStartable(cfg, s, dropped, Discovered(cfg, s, kind, ids), kind, ids);
    }
  }

  lemma DropIsSafe(cfg: Config, s: State, kind: Kind, ids: seq<string>)
    requires Safe(cfg, s)
    ensures Safe(cfg, Drop(Read(s, kind, ids), Unwanted(Read(s, kind, ids), kind)))
  {
    hide HandlesOf;
  }

  lemma DropKeepsListed(s: State, kind: Kind, ids: seq<string>)
    ensures var t := Drop(Read(s, kind, ids), Unwanted(Read(s, kind, ids), kind));
            && t.shutdown == s.shutdown && t.now == s.now
            && (forall k :: k in t.wanted <==> if k.kind == kind then k.id in ids else k in s.wanted)
            && (forall k :: k in s.streams && (k.kind != kind || k.id in ids) ==>
                  k in t.streams && t.streams[k] == s.streams[k])
            && (forall k :: k in s.streams && k.kind == kind && k.id !in ids ==> k !in t.streams)
  {
    hide HandlesOf;
    forall k ensures k in Keys(kind, ids) <==> k.kind == kind && k.id in ids {}
  }

  /** What is listed is not dropped, so the same keys can start before and after the drop. */
  lemma SameStartable(cfg: Config, s: State, dropped: State, t: State, kind: Kind, ids: seq<string>)
    requires dropped == Drop(Read(s, kind, ids), Unwanted(Read(s, kind, ids), kind))
    requires FirstOnesOpened(cfg, dropped, t, kind, ids)
    ensures FirstOnesOpened(cfg, s, t, kind, ids)
  {
    forall i | 0 <= i < |ids| ensures Startable(s, Key(kind, ids[i])) == Startable(dropped, Key(kind, ids[i])) {
      assert Key(kind, ids[i]) in Keys(kind, ids);
    }
    hide Startable, Drop, Read;
  }

  /** No handle of a stream that stays is closed by a discovery, and that of one that leaves is closed once. */
  lemma DiscoveryClosesWhatLeaves(cfg: Config, s: State, kind: Kind, ids: seq<string>, k: Key)
    requires Safe(cfg, s) && HandlesKept(s) && k in s.streams
    ensures var t, h := Discovered(cfg, s, kind, ids), s.streams[k].handle;
            t.closings[h] == s.closings[h] + if k.kind != kind || k.id in ids then 0 else 1
  {
    var read := Read(s, kind, ids);
    var gone := Unwanted(read, kind);
    DropIsSafe(cfg, s, kind, ids);
    SameHandles(s, read) by { hide HandlesKept; }
    assert k in gone <==> k.kind == kind && k.id !in ids by { IsUnwanted(cfg, s, kind, ids, k); }
    hide Drop, Unwanted, HandlesOf, HandlesKept, Registered, Safe, Keys;
    assert Registered(read, s.streams[k].handle) by { IsRegistered(read, k); }
    StartMissingEffect(cfg, Drop(read, gone), kind, ids);
    DroppedHandle(read, gone, s.streams[k].handle);
    StillRegistered(read, gone, k);
  }

  lemma IsUnwanted(cfg: Config, s: State, kind: Kind, ids: seq<string>, k: Key)
    requires Safe(cfg, s) && k in s.streams
    ensures k in Unwanted(Read(s, kind, ids), kind) <==> k.kind == kind && k.id !in ids
    ensures Unwanted(Read(s, kind, ids), kind) <= s.streams.Keys
  {
    assert k in Keys(kind, ids) <==> k.kind == kind && k.id in ids;
  }

  lemma IsRegistered(s: State, k: Key)
    requires k in s.streams
    ensures Registered(s, s.streams[k].handle)
  {
  }

  lemma StillRegistered(s: State, keys: set<Key>, k: Key)
    requires HandlesKept(s) && k in s.streams && keys <= s.streams.Keys
    ensures Registered(Drop(s, keys), s.streams[k].handle) <==> k !in keys
  {
    var t, h := Drop(s, keys), s.streams[k].handle;
    if k !in keys { assert t.streams[k].handle == h; }
    if Registered(t, h) {
      var j :| j in t.streams && t.streams[j].handle == h;
      assert j in s.streams && s.streams[j].handle == h;
    }
  }

  lemma {:induction false} ClockIsPast(cfg: Config, es: seq<Event>)
    requires ValidConfig(cfg)
    ensures 0 <= After(cfg, es).now
  {
    if es != [] {
      var s, e := After(cfg, es[..|es|-1]), es[|es|-1];
      ClockIsPast(cfg, es[..|es|-1]);
      AlwaysSafe(cfg, es[..|es|-1]);
      hide After;
      ClockGoesOn(cfg, s, e);
    }
  }

  lemma ClockGoesOn(cfg: Config, s: State, e: Event)
    requires Safe(cfg, s)
    ensures s.now <= Next(cfg, s, e).now
  {
    if e.Discovery? {
      var read := Read(s, e.kind, e.ids);
      StartMissingEffect(cfg, Drop(read, Unwanted(read, e.kind)), e.kind, e.ids);
    }
    hide StartMissing, HandlesOf, Safe, Wait;
  }

  /** In every reachable state a discovery opens what is missing. */
  lemma MissingStreamsAreOpened(cfg: Config, es: seq<Event>, kind: Kind, ids: seq<string>)
    requires ValidConfig(cfg) && After(cfg, es).shutdown == NotStopping
    ensures FirstOnesOpened(cfg, After(cfg, es), After(cfg, es + [Discovery(kind, ids)]), kind, ids)
  {
    ClockIsPast(cfg, es);
    AlwaysSafe(cfg, es);
    OneMoreLater(cfg, es, [Discovery(kind, ids)]);
    assert es + [] == es;
    hide After, FirstOnesOpened, Safe;
    DiscoveryOpensWhatIsMissing(cfg, After(cfg, es), kind, ids);
  }

  // ---- what becomes of an opened stream ----------------------------------------------------------------

  /** A stream that was opened is registered with the next handle from now on, if the worker is not stopping, it is
      still wanted and no change of it failed meanwhile. Otherwise its handle is closed once and the key is not
      registered; a failed change counts as a failure of the stream, a late stream does not. */
  lemma OpenedIsRegisteredExactly(cfg: Config, s: State, key: Key)
    requires Safe(cfg, s) && key in s.opening && s.opening[key].Connecting?
    ensures var t := OnOpened(cfg, s, key);
            var late, fatal := s.shutdown != NotStopping || key !in s.wanted, s.opening[key].fatal;
            && t.handles == s.handles + 1
            && (key in t.streams <==> !late && !fatal)
            && (key in t.streams ==> t.streams[key] == Running(s.handles, s.now) && key !in t.opening)
            && t.closings == s.closings + (if late || fatal then multiset{s.handles} else multiset{})
            && |Failures(t, key)| == |Failures(s, key)| + (if fatal && !late then 1 else 0)
            && (late ==> key in t.opening && !t.opening[key].Connecting?)
  {
    if s.shutdown != NotStopping || key !in s.wanted {
      hide FailStream, Wait;
    } else if s.opening[key].fatal {
      var registered := s.(handles := s.handles + 1, streams := s.streams[key := Running(s.handles, s.now)],
                           retryAfter := s.retryAfter - {key}, opening := s.opening - {key});
      FailedAtOnce(cfg, registered, key);
      hide FailStream, Safe;
    } else {
      hide FailStream, Safe;
    }
  }

  lemma FailedAtOnce(cfg: Config, s: State, key: Key)
    requires key in s.streams
    ensures var t := FailStream(cfg, s, key);
            && t.streams == s.streams - {key} && t.closings == s.closings + multiset{s.streams[key].handle}
            && |Failures(t, key)| == |Failures(s, key)| + 1 && t.opening == s.opening && t.handles == s.handles
  {
    hide Wait;
  }

  /** A phase stays what it is until what it waits for happens. */
  lemma PhaseStays(cfg: Config, s: State, e: Event, key: Key)
    requires Safe(cfg, s) && key in s.opening
    requires if s.opening[key].Connecting? then s.opening[key].fatal && e != Opened(key) && e != OpenFailed(key)
             else e != Settled(key)
    ensures key in Next(cfg, s, e).opening && Next(cfg, s, e).opening[key] == s.opening[key]
  {
    hide Discovered, OnOpened, OnOpenFailed, FailStream, HandlesOf, Safe;
    if Enabled(s, e) {
      match e {
        case Discovery(kind, ids) => DiscoveryKeepsPhases(cfg, s, kind, ids, key);
        case Opened(k) => OtherPhasesStay(cfg, s, k);
        case OpenFailed(k) => OtherPhasesStay(cfg, s, k);
        case Failed(k) => FailKeepsPhases(cfg, s, k);
        case Fatal(k) => FailKeepsPhases(cfg, s, k);
        case _ =>
      }
    }
  }

  lemma FailKeepsPhases(cfg: Config, s: State, key: Key)
    ensures FailStream(cfg, s, key).opening == s.opening
  {
    hide Wait;
  }

  lemma OtherPhasesStay(cfg: Config, s: State, key: Key)
    requires key in s.opening && s.opening[key].Connecting?
    ensures var t := OnOpened(cfg, s, key).opening; t == s.opening - {key} || t == s.opening[key := ClosingLate]
    ensures OnOpenFailed(cfg, s, key).opening == s.opening[key := Reporting]
  {
    var entered := s.(handles := s.handles + 1, streams := s.streams[key := Running(s.handles, s.now)],
                      retryAfter := s.retryAfter - {key}, opening := s.opening - {key});
    FailKeepsPhases(cfg, entered, key);
    hide FailStream, Wait;
  }

  lemma DiscoveryKeepsPhases(cfg: Config, s: State, kind: Kind, ids: seq<string>, key: Key)
    requires Safe(cfg, s) && key in s.opening
    ensures var t := Discovered(cfg, s, kind, ids); key in t.opening && t.opening[key] == s.opening[key]
  {
    DropIsSafe(cfg, s, kind, ids);
    DropOpensNothing(s, kind, ids);
    hide Drop, Read, Unwanted, Safe;
    StartMissingEffect(cfg, Drop(Read(s, kind, ids), Unwanted(Read(s, kind, ids), kind)), kind, ids);
    hide StartMissing;
  }

  /** A stream that could not be opened counts one failure more, and its key stays occupied until that is reported. */
  lemma {:induction false} FailedOpeningOccupies(cfg: Config, es: seq<Event>, key: Key, later: seq<Event>)
    requires ValidConfig(cfg) && key in After(cfg, es).opening && After(cfg, es).opening[key].Connecting?
    requires Settled(key) !in later
    ensures |Failures(After(cfg, es + [OpenFailed(key)]), key)| == |Failures(After(cfg, es), key)| + 1
    ensures var s := After(cfg, es + [OpenFailed(key)] + later); key in s.opening && !s.opening[key].Connecting?
  {
    hide After, Next, Safe;
    var begun := es + [OpenFailed(key)];
    OneMoreLater(cfg, es, [OpenFailed(key)]);
    assert es + [] == es && begun + [] == begun;
    FailureIsNoted(cfg, After(cfg, es), key);
    if later != [] {
      var n := |later| - 1;
      FailedOpeningOccupies(cfg, es, key, later[..n]);
      OneMoreLater(cfg, begun, later);
      AlwaysSafe(cfg, begun + later[..n]);
      PhaseStays(cfg, After(cfg, begun + later[..n]), later[n], key);
    }
  }

  lemma FailureIsNoted(cfg: Config, s: State, key: Key)
    requires key in s.opening && s.opening[key].Connecting?
    ensures var t := Next(cfg, s, OpenFailed(key));
            |Failures(t, key)| == |Failures(s, key)| + 1 && key in t.opening && !t.opening[key].Connecting?
  {
    hide Wait;
  }

  lemma DropOpensNothing(s: State, kind: Kind, ids: seq<string>)
    ensures Drop(Read(s, kind, ids), Unwanted(Read(s, kind, ids), kind)).opening == s.opening
  {
    hide HandlesOf, Unwanted;
  }

  /** A change that could not be stored while its stream was being opened is never forgotten: whatever happens until the
      stream is opened, it is not registered then, and its handle is closed. */
  lemma {:induction false} FatalWhileOpening(cfg: Config, es: seq<Event>, key: Key, later: seq<Event>)
    requires ValidConfig(cfg) && key.kind == Strategy
    requires key in After(cfg, es).opening && After(cfg, es).opening[key].Connecting?
    requires Opened(key) !in later && OpenFailed(key) !in later
    ensures var s := After(cfg, es + [Fatal(key)] + later);
            && key in s.opening && s.opening[key] == Connecting(true)
            && var t := After(cfg, es + [Fatal(key)] + later + [Opened(key)]);
            key !in t.streams && t.closings[s.handles] == s.closings[s.handles] + 1
  {
    hide After, Next, Safe, OnOpened;
    var begun := es + [Fatal(key)];
    if later == [] {
      OneMoreLater(cfg, es, [Fatal(key)]);
      assert es + [] == es && begun + [] == begun;
      FatalIsNoted(cfg, After(cfg, es), key);
    } else {
      var n := |later| - 1;
      FatalWhileOpening(cfg, es, key, later[..n]);
      OneMoreLater(cfg, begun, later);
      AlwaysSafe(cfg, begun + later[..n]);
      PhaseStays(cfg, After(cfg, begun + later[..n]), later[n], key);
    }
    AlwaysSafe(cfg, begun + later);
    OneMoreLater(cfg, begun + later, [Opened(key)]);
    assert (begun + later) + [] == begun + later;
    OpenedIsNext(cfg, After(cfg, begun + later), key);
    OpenedIsRegisteredExactly(cfg, After(cfg, begun + later), key);
  }

  lemma FatalIsNoted(cfg: Config, s: State, key: Key)
    requires key.kind == Strategy && key in s.opening && s.opening[key].Connecting?
    ensures Next(cfg, s, Fatal(key)).opening == s.opening[key := Connecting(true)]
  {
  }

  lemma OpenedIsNext(cfg: Config, s: State, key: Key)
    requires key in s.opening && s.opening[key].Connecting?
    ensures Next(cfg, s, Opened(key)) == OnOpened(cfg, s, key)
  {
    hide OnOpened;
  }
}
