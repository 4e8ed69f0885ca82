// The supervisor as the worker runs it (scripts/wsa-copy-worker.ts): module-level tables that every function
// changes in place. Each method is one stretch of code between two awaits and is proved against the function
// of the module Supervisor that says what it does to the whole state.

module CopyWorker {
  import opened Common
  import opened Supervisor

  class Worker {
    const cfg: Config
    var streams: map<Key, Running>
    var wanted: set<Key>
    var opening: map<Key, Phase>
    var retryAfter: map<Key, int>
    var failureCounts: map<Key, nat>
    var shutdown: Shutdown
    var now: int
    // the history the theorems are about
    var handles: nat
    ghost var closings: multiset<nat>
    ghost var failures: map<Key, seq<Failure>>

    ghost function Value(): State
      reads this
    {
      State(streams, wanted, opening, retryAfter, failureCounts, shutdown, now, handles, closings, failures)
    }

    constructor (cfg: Config)
      ensures this.cfg == cfg && Value() == START
    {
      this.cfg := cfg;
      streams, wanted, opening, retryAfter, failureCounts := map[], {}, map[], map[], map[];
      shutdown, now, handles, closings, failures := NotStopping, 0, 0, multiset{}, map[];
    }

    method NoteFailure(key: Key, ghost ran: int) returns (wait: int)
      modifies this
      ensures Value() == Supervisor.NoteFailure(cfg, old(Value()), key, ran)
      ensures wait == Wait(cfg, Count(Value(), key))
    {
      hide Wait;
      var count := (if key in failureCounts then failureCounts[key] else 0) + 1;
      failures := failures[key := Failures(Value(), key) + [Failure(now, count, ran)]];
      failureCounts := failureCounts[key := count];
      wait := Wait(cfg, count);
      retryAfter := retryAfter[key := now + wait];
    }

    method FailStream(key: Key)
      modifies this
      ensures Value() == Supervisor.FailStream(cfg, old(Value()), key)
    {
      if key !in streams { return; }
      var running := streams[key];
      streams := streams - {key};
      if now - running.startedAt > HEALTHY_STREAM_MS { failureCounts := failureCounts - {key}; }
      StopRunning(running);
      var _ := NoteFailure(key, now - running.startedAt);
    }

    method StopRunning(running: Running)
      modifies `closings
      ensures closings == old(closings) + multiset{running.handle}
    {
      closings := closings + multiset{running.handle};
    }

    method OnFatal(key: Key)
      modifies this
      ensures Value() == Supervisor.OnFatal(cfg, old(Value()), key)
    {
      if key in opening && opening[key].Connecting? {
        opening := opening[key := Connecting(true)];
      } else {
        FailStream(key);
      }
    }

    method OnOpened(key: Key)
      requires key in opening && opening[key].Connecting?
      modifies this
      ensures Value() == Supervisor.OnOpened(cfg, old(Value()), key)
    {
      hide Supervisor.FailStream, HandlesOf;
      var handle := handles;
      var fatal := opening[key].fatal;
      handles := handles + 1;
      if shutdown != NotStopping || key !in wanted {
        StopRunning(Running(handle, now));
        opening := opening[key := ClosingLate];
        return;
      }
      streams := streams[key := Running(handle, now)];
      retryAfter := retryAfter - {key};
      opening := opening - {key};
      if fatal { FailStream(key); }
    }

    method OnOpenFailed(key: Key)
      requires key in opening && opening[key].Connecting?
      modifies this
      ensures Value() == Supervisor.OnOpenFailed(cfg, old(Value()), key)
    {
      var _ := NoteFailure(key, 0);
      opening := opening[key := Reporting];
    }

    /** One stream is taken out of the registry and closed in the background. */
    method DropStream(key: Key, ghost s: State, ghost done: set<Key>)
      requires HandlesKept(s) && done <= s.streams.Keys && key in s.streams && key !in done
      requires streams == s.streams - done && closings == s.closings + HandlesOf(s.streams, done)
      modifies `streams, `closings
      ensures streams == s.streams - (done + {key})
      ensures closings == s.closings + HandlesOf(s.streams, done + {key})
    {
      hide HandlesOf, HandlesKept;
      DropOne(s, done, key, closings, closings + multiset{streams[key].handle});
      StopRunning(streams[key]);
      streams := streams - {key};
    }

    /** The first half of discovery: what nobody wants any more is closed. */
    method DropUnwanted(kind: Kind)
      requires HandlesKept(Value())
      modifies this
      ensures Value() == Drop(old(Value()), Unwanted(old(Value()), kind))
    {
      hide HandlesOf, HandlesKept;
      ghost var s, all := Value(), Unwanted(Value(), kind);
      var todo := set key | key in streams && key.kind == kind && key !in wanted;
      DropNone(s);
      assert all - todo == {};
      while todo != {}
        invariant todo <= all && all <= s.streams.Keys
        invariant streams == s.streams - (all - todo)
        invariant closings == s.closings + HandlesOf(s.streams, all - todo)
        decreases |todo|
        modifies `streams, `closings
      {
        var key :| key in todo;
        ghost var done := all - todo;
        DropStream(key, s, done);
        todo := todo - {key};
        assert all - todo == done + {key};
      }
      assert all - todo == all;
    }

    static lemma DropNone(s: State)
      ensures s.streams - {} == s.streams && HandlesOf(s.streams, {}) == multiset{}
    {
      assert |HandlesOf(s.streams, {})| == 0;
    }

    static lemma DropOne(s: State, done: set<Key>, key: Key, before: multiset<nat>, after: multiset<nat>)
      requires HandlesKept(s) && done <= s.streams.Keys && key in s.streams && key !in done
      requires before == s.closings + HandlesOf(s.streams, done) && after == before + multiset{s.streams[key].handle}
      ensures s.streams - (done + {key}) == (s.streams - done) - {key}
      ensures after == s.closings + HandlesOf(s.streams, done + {key})
    {
      OneHandleMore(s, done, key);
      hide HandlesOf, HandlesKept;
    }

    static lemma OneHandleMore(s: State, done: set<Key>, key: Key)
      requires HandlesKept(s) && key in s.streams && key !in done
      ensures HandlesOf(s.streams, done + {key}) == HandlesOf(s.streams, done) + multiset{s.streams[key].handle}
    {
      NotAgain(s, done, key);
      hide HandlesKept;
      var a := set k | k in done && k in s.streams :: s.streams[k].handle;
      var b := set k | k in done + {key} && k in s.streams :: s.streams[k].handle;
      var handle := s.streams[key].handle;
      assert b == a + {handle};
      assert multiset(a + {handle}) == multiset(a) + multiset{handle};
    }

    static lemma NotAgain(s: State, done: set<Key>, key: Key)
      requires HandlesKept(s) && key in s.streams && key !in done
      ensures s.streams[key].handle !in set k | k in done && k in s.streams :: s.streams[k].handle
    {}

    /** The second half: missing streams are opened, a few at a time. */
    method OpenMissing(kind: Kind, ids: seq<string>)
      modifies this
      ensures Value() == StartMissing(cfg, old(Value()), kind, ids)
    {
      var i := 0;
      while i < |ids|
        invariant 0 <= i <= |ids|
        invariant StartMissing(cfg, Value(), kind, ids[i..]) == StartMissing(cfg, old(Value()), kind, ids)
      {
        if shutdown != NotStopping || |opening| >= cfg.maxConcurrentOpens { break; }
        var key := Key(kind, ids[i]);
        assert ids[i..][0] == ids[i] && ids[i..][1..] == ids[i+1..];
        i := i + 1;
        if key in streams || key in opening { continue; }
        if (if key in retryAfter then retryAfter[key] else 0) > now { continue; }
        opening := opening[key := Connecting(false)];
      }
    }

    method ReadWanted(kind: Kind, ids: seq<string>)
      requires HandlesKept(Value())
      modifies `wanted
      ensures Value() == Read(old(Value()), kind, ids) && HandlesKept(Value())
    {
      hide HandlesKept, Keys;
      ghost var s := Value();
      wanted := (set key | key in wanted && key.kind != kind) + Keys(kind, ids);
      SameHandles(s, Value());
    }

    method Discover(kind: Kind, ids: seq<string>)
      requires HandlesKept(Value())
      modifies this
      ensures Value() == Discovered(cfg, old(Value()), kind, ids)
    {
      hide HandlesOf, HandlesKept, StartMissing, Drop, Unwanted, Read, Value;
      ReadWanted(kind, ids);
      DropUnwanted(kind);
      OpenMissing(kind, ids);
    }

    /** Shutdown hands every stream of a kind to close. */
    method CloseKind(kind: Kind)
      requires HandlesKept(Value())
      modifies this
      ensures Value() == CloseAll(old(Value()), kind)
    {
      hide HandlesOf, HandlesKept;
      ghost var s, all := Value(), OfKind(Value(), kind);
      var todo := set key | key in streams && key.kind == kind;
      DropNone(s);
      assert all - todo == {};
      while todo != {}
        invariant todo <= all && all <= s.streams.Keys
        invariant closings == s.closings + HandlesOf(s.streams, all - todo)
        decreases |todo|
        modifies `closings
      {
        var key :| key in todo;
        ghost var done := all - todo;
        ghost var before := closings;
        StopRunning(streams[key]);
        DropOne(s, done, key, before, closings);
        todo := todo - {key};
        assert all - todo == done + {key};
      }
      assert all - todo == all;
      assert closings == s.closings + HandlesOf(s.streams, all);
      shutdown := if kind == Strategy then StrategiesClosed else SelfCopyClosed;
    }

    method ClearTables()
      modifies this
      ensures Value() == ClearAll(old(Value()))
    {
      streams := map[];
      wanted := set key | key in wanted && key.kind == Strategy;
      retryAfter := map[];
      failureCounts := map[];
      shutdown := Cleared;
    }
  }
}
