// The per-key request limiter of the web proxy (src/proxy.ts).
//
// `buckets` and `lastSweepAt` are the module-level state of the source. A key is the rule's name
// together with the client address; every rule has a window of one minute.

module RateLimiter {
  import opened Common

  const MINUTE: int := 60_000

  datatype RuleName =
    | StripeWebhook | Worker | Ai | Auth | BillingMutation | BrokerSync
    | AdminRead | AdminWrite | ApiWrite | ApiRead

  function Limit(rule: RuleName): nat {
    match rule
    case StripeWebhook => 240
    case Worker => 90
    case Ai => 30
    case Auth => 45
    case BillingMutation => 20
    case BrokerSync => 18
    case AdminRead => 240
    case AdminWrite => 90
    case ApiWrite => 75
    case ApiRead => 360
  }

  datatype Key = Key(rule: RuleName, ip: string)

  datatype Bucket = Bucket(count: nat, resetAt: int)

  /** What the caller is told: the admit/refuse decision and the figures of the response headers. */
  datatype Answer =
    | Admitted(remaining: nat, resetSeconds: int)
    | Refused(retryAfter: int, resetSeconds: int)

  datatype Request = Request(key: Key, now: int)

  type Buckets = map<Key, Bucket>

  datatype Limiter = Limiter(buckets: Buckets, lastSweepAt: int)

  /** Seconds, rounded up. */
  function CeilSeconds(ms: int): int { (ms + 999) / 1000 }

  // ---- one request, as values ----------------------------------------------------------------

  function Sweep(s: Limiter, now: int): Limiter {
    if now - s.lastSweepAt < MINUTE then s
    else Limiter(map k | k in s.buckets && s.buckets[k].resetAt > now :: s.buckets[k], now)
  }

  /** The bucket a request is counted in, already counted. */
  function Counted(buckets: Buckets, r: Request): Bucket {
    if r.key in buckets && buckets[r.key].resetAt > r.now
    then buckets[r.key].(count := buckets[r.key].count + 1)
    else Bucket(1, r.now + MINUTE)
  }

  function Verdict(limit: nat, b: Bucket, now: int): Answer {
    if b.count > limit
    then Refused(Max(1, CeilSeconds(b.resetAt - now)), CeilSeconds(b.resetAt))
    else Admitted(Max(0, limit - b.count), CeilSeconds(b.resetAt))
  }

  function Count(buckets: Buckets, r: Request): Buckets {
    buckets[r.key := Counted(buckets, r)]
  }

  function Respond(buckets: Buckets, r: Request): Answer {
    Verdict(Limit(r.key.rule), Counted(buckets, r), r.now)
  }

  function Serve(s: Limiter, r: Request): Limiter {
    var swept := Sweep(s, r.now);
    swept.(buckets := Count(swept.buckets, r))
  }

  // ---- the code -------------------------------------------------------------------------------

  class Proxy {
    var buckets: map<Key, Bucket>
    var lastSweepAt: int

    function State(): Limiter
      reads this
    {
      Limiter(buckets, lastSweepAt)
    }

    constructor ()
      ensures State() == Limiter(map[], 0)
    {
      buckets, lastSweepAt := map[], 0;
    }

    method SweepExpired(now: int)
      modifies this
      ensures State() == Sweep(old(State()), now)
    {
      if now - lastSweepAt < MINUTE { return; }
      lastSweepAt := now;
      ghost var before := buckets;
      var todo := buckets.Keys;
      while todo != {}
        invariant lastSweepAt == now
        invariant todo <= before.Keys
        invariant buckets == map k | k in before && (k in todo || before[k].resetAt > now) :: before[k]
        decreases |todo|
      {
        var key :| key in todo;
        if buckets[key].resetAt <= now { buckets := buckets - {key}; }
        todo := todo - {key};
      }
    }

    method Handle(r: Request) returns (answer: Answer)
      modifies this
      ensures State() == Serve(old(State()), r)
      ensures answer == Respond(Sweep(old(State()), r.now).buckets, r)
    {
      SweepExpired(r.now);
      var bucket := Bucket(0, r.now + MINUTE);
      if r.key in buckets && buckets[r.key].resetAt > r.now { bucket := buckets[r.key]; }
      bucket := bucket.(count := bucket.count + 1);
      buckets := buckets[r.key := bucket];
      var limit := Limit(r.key.rule);
      if bucket.count > limit {
        return Refused(Max(1, CeilSeconds(bucket.resetAt - r.now)), CeilSeconds(bucket.resetAt));
      }
      answer := Admitted(Max(0, limit - bucket.count), CeilSeconds(bucket.resetAt));
    }
  }

  // ---- whole runs -----------------------------------------------------------------------------

  /** A run is any sequence of requests under a clock that starts at zero or later and never goes back. */
  ghost predicate Timed(rs: seq<Request>) {
    && (forall i :: 0 <= i < |rs| ==> 0 <= rs[i].now)
    && (forall i, j :: 0 <= i < j < |rs| ==> rs[i].now <= rs[j].now)
  }

  /** The limiter as it is, after `rs`. */
  function After(rs: seq<Request>): Limiter {
    if rs == [] then Limiter(map[], 0)
    else Serve(After(rs[..|rs|-1]), rs[|rs|-1])
  }

  /** The same limiter without the sweep. */
  function AfterUnswept(rs: seq<Request>): Buckets {
    if rs == [] then map[]
    else Count(AfterUnswept(rs[..|rs|-1]), rs[|rs|-1])
  }

  function AnswerAt(rs: seq<Request>, i: nat): Answer
    requires i < |rs|
  {
    Respond(Sweep(After(rs[..i]), rs[i].now).buckets, rs[i])
  }

  function UnsweptAnswerAt(rs: seq<Request>, i: nat): Answer
    requires i < |rs|
  {
    Respond(AfterUnswept(rs[..i]), rs[i])
  }

  /** Two bucket maps that agree on every window still running at `now`. */
  ghost predicate SameLive(a: Buckets, b: Buckets, now: int) {
    forall k: Key :: LiveAt(a, k, now) == LiveAt(b, k, now)
  }

  function LiveAt(a: Buckets, k: Key, now: int): Bucket {
    if k in a && a[k].resetAt > now then a[k] else Bucket(0, now)
  }

  lemma ServeKeepsLive(a: Limiter, b: Buckets, r: Request, was: int)
    requires was <= r.now && SameLive(a.buckets, b, was)
    ensures SameLive(Sweep(a, r.now).buckets, b, r.now)
    ensures SameLive(Serve(a, r).buckets, Count(b, r), r.now)
  {
    forall k: Key
      ensures LiveAt(Sweep(a, r.now).buckets, k, r.now) == LiveAt(b, k, r.now)
    {
      assert LiveAt(a.buckets, k, was) == LiveAt(b, k, was);
    }
    assert LiveAt(Sweep(a, r.now).buckets, r.key, r.now) == LiveAt(b, r.key, r.now);
    forall k: Key
      ensures LiveAt(Serve(a, r).buckets, k, r.now) == LiveAt(Count(b, r), k, r.now)
    {
      assert LiveAt(Sweep(a, r.now).buckets, k, r.now) == LiveAt(b, k, r.now);
    }
  }

  lemma {:induction false} RunKeepsLive(rs: seq<Request>, now: int)
    requires Timed(rs)
    requires forall i :: 0 <= i < |rs| ==> rs[i].now <= now
    ensures SameLive(After(rs).buckets, AfterUnswept(rs), now)
  {
    if rs != [] {
      var last := rs[|rs|-1];
      RunKeepsLive(rs[..|rs|-1], last.now);
      ServeKeepsLive(After(rs[..|rs|-1]), AfterUnswept(rs[..|rs|-1]), last, last.now);
      forall k: Key
        ensures LiveAt(After(rs).buckets, k, now) == LiveAt(AfterUnswept(rs), k, now)
      {
        assert LiveAt(After(rs).buckets, k, last.now) == LiveAt(AfterUnswept(rs), k, last.now);
      }
    }
  }

  /** Sweeping is invisible: every answer, with all its figures, is the answer of the limiter that never sweeps. */
  lemma {:induction false} SweepIsInvisible(rs: seq<Request>, i: nat)
    requires Timed(rs) && i < |rs|
    ensures AnswerAt(rs, i) == UnsweptAnswerAt(rs, i)
  {
    var earlier, r := rs[..i], rs[i];
    RunKeepsLive(earlier, r.now);
    ServeKeepsLive(After(earlier), AfterUnswept(earlier), r, r.now);
    assert LiveAt(Sweep(After(earlier), r.now).buckets, r.key, r.now) == LiveAt(AfterUnswept(earlier), r.key, r.now);
  }

  lemma {:induction false} SweepMarkInvariant(rs: seq<Request>)
    requires Timed(rs)
    ensures rs != [] ==> 0 <= After(rs).lastSweepAt <= rs[|rs|-1].now < After(rs).lastSweepAt + MINUTE
    ensures forall k :: k in After(rs).buckets ==> After(rs).buckets[k].resetAt > After(rs).lastSweepAt
  {
    if rs != [] { SweepMarkInvariant(rs[..|rs|-1]); }
  }

  /** Every bucket left in the map after a request belongs to a window that started less than two minutes before it. */
  lemma BucketsAreRecent(rs: seq<Request>, k: Key)
    requires Timed(rs) && rs != [] && k in After(rs).buckets
    ensures rs[|rs|-1].now - (After(rs).buckets[k].resetAt - MINUTE) < 2 * MINUTE
  {
    SweepMarkInvariant(rs);
  }

  // ---- windows, without buckets ---------------------------------------------------------------

  datatype Start = NoWindow | From(at: int)

  /** When the current window of `k` began: the first request of the key, and then every first request
      that comes a full minute or more after the window before it began. */
  function WindowStart(rs: seq<Request>, k: Key): Start {
    if rs == [] then NoWindow
    else
      var earlier, last := WindowStart(rs[..|rs|-1], k), rs[|rs|-1];
      if last.key != k then earlier
      else if earlier.From? && last.now < earlier.at + MINUTE then earlier
      else From(last.now)
  }

  /** Requests of `k` at or after `lo`. */
  function Asked(rs: seq<Request>, k: Key, lo: int): nat {
    if rs == [] then 0
    else Asked(rs[..|rs|-1], k, lo) + if rs[|rs|-1].key == k && lo <= rs[|rs|-1].now then 1 else 0
  }

  /** Requests of `k` admitted at or after `lo`, up to and including `hi`. */
  function AdmittedBetween(rs: seq<Request>, k: Key, lo: int, hi: int): nat {
    if rs == [] then 0
    else
      var n := |rs| - 1;
      AdmittedBetween(rs[..n], k, lo, hi)
      + if rs[n].key == k && lo <= rs[n].now <= hi && AnswerAt(rs, n).Admitted? then 1 else 0
  }

  lemma {:induction false} WindowStartIsPast(rs: seq<Request>, k: Key)
    requires Timed(rs)
    ensures WindowStart(rs, k).From? ==> rs != [] && WindowStart(rs, k).at <= rs[|rs|-1].now
  {
    if rs != [] { WindowStartIsPast(rs[..|rs|-1], k); }
  }

  lemma {:induction false} AskedAfterTheEnd(rs: seq<Request>, k: Key, lo: int)
    requires forall i :: 0 <= i < |rs| ==> rs[i].key == k ==> rs[i].now < lo
    ensures Asked(rs, k, lo) == 0
  {
    if rs != [] { AskedAfterTheEnd(rs[..|rs|-1], k, lo); }
  }

  /** No request of `k` lies a minute or more after the start of its current window. */
  lemma {:induction false} WindowIsAMinute(rs: seq<Request>, k: Key, i: nat)
    requires Timed(rs) && i < |rs| && rs[i].key == k
    ensures WindowStart(rs, k).From? && rs[i].now < WindowStart(rs, k).at + MINUTE
  {
    var n := |rs| - 1;
    WindowStartIsPast(rs[..n], k);
    if i < n {
      assert rs[..n][i] == rs[i];
      WindowIsAMinute(rs[..n], k, i);
    }
  }

  /** The bucket of a key is its window: it counts the requests since the window began. */
  lemma {:induction false} BucketIsTheWindow(rs: seq<Request>, k: Key)
    requires Timed(rs)
    ensures k in AfterUnswept(rs) <==> WindowStart(rs, k).From?
    ensures k in AfterUnswept(rs) ==>
              AfterUnswept(rs)[k] == Bucket(Asked(rs, k, WindowStart(rs, k).at), WindowStart(rs, k).at + MINUTE)
  {
    if rs != [] {
      var n := |rs| - 1;
      var earlier, last := rs[..n], rs[n];
      BucketIsTheWindow(earlier, k);
      if last.key == k {
        WindowStartIsPast(earlier, k);
        if WindowStart(rs, k) != WindowStart(earlier, k) || WindowStart(earlier, k) == NoWindow {
          forall i | 0 <= i < n && earlier[i].key == k ensures earlier[i].now < last.now {
            WindowIsAMinute(earlier, k, i);
          }
          AskedAfterTheEnd(earlier, k, last.now);
        }
      }
    }
  }

  /** Within each window exactly the first `limit` requests of the key are admitted. */
  lemma FirstOnesAreAdmitted(rs: seq<Request>, i: nat)
    requires Timed(rs) && i < |rs|
    ensures WindowStart(rs[..i+1], rs[i].key).From?
    ensures AnswerAt(rs, i).Admitted?
       <==> Asked(rs[..i+1], rs[i].key, WindowStart(rs[..i+1], rs[i].key).at) <= Limit(rs[i].key.rule)
    ensures AnswerAt(rs, i).Admitted? ==>
              AnswerAt(rs, i).remaining
              == Limit(rs[i].key.rule) - Asked(rs[..i+1], rs[i].key, WindowStart(rs[..i+1], rs[i].key).at)
  {
    SweepIsInvisible(rs, i);
    var upTo := rs[..i+1];
    BucketIsTheWindow(upTo, rs[i].key);
    assert upTo[..i] == rs[..i] && upTo[i] == rs[i];
    assert AfterUnswept(upTo) == Count(AfterUnswept(rs[..i]), rs[i]);
  }

  // ---- the bound on every interval of a minute ------------------------------------------------

  lemma OneMoreAsked(rs: seq<Request>, k: Key, lo: int, hi: int)
    requires rs != []
    ensures var n := |rs| - 1;
            && Asked(rs, k, lo) == Asked(rs[..n], k, lo) + (if rs[n].key == k && lo <= rs[n].now then 1 else 0)
            && AdmittedBetween(rs, k, lo, hi) == AdmittedBetween(rs[..n], k, lo, hi) +
                 (if rs[n].key == k && lo <= rs[n].now <= hi && AnswerAt(rs, n).Admitted? then 1 else 0)
            && (rs[n].key != k ==> WindowStart(rs, k) == WindowStart(rs[..n], k))
  {
  }

  lemma NewWindowIsOfTheLast(rs: seq<Request>, k: Key)
    requires rs != [] && WindowStart(rs, k) != WindowStart(rs[..|rs|-1], k)
    ensures rs[|rs|-1].key == k && WindowStart(rs, k) == From(rs[|rs|-1].now)
  {
  }

  lemma LastIsAdmitted(rs: seq<Request>)
    requires Timed(rs) && rs != []
    ensures var n, k := |rs| - 1, rs[|rs|-1].key;
            && WindowStart(rs, k).From? && WindowStart(rs, k).at <= rs[n].now
            && (AnswerAt(rs, n).Admitted? <==> Asked(rs, k, WindowStart(rs, k).at) <= Limit(k.rule))
  {
    var n := |rs| - 1;
    assert rs[..n+1] == rs;
    FirstOnesAreAdmitted(rs, n);
    WindowStartIsPast(rs, rs[n].key);
  }

  lemma NewWindowAdmits(rs: seq<Request>, hi: int)
    requires Timed(rs) && rs != [] && rs[|rs|-1].now <= hi
    requires WindowStart(rs, rs[|rs|-1].key) != WindowStart(rs[..|rs|-1], rs[|rs|-1].key)
    ensures var earlier, last := rs[..|rs|-1], rs[|rs|-1];
            Asked(earlier, last.key, last.now) == 0 && AdmittedBetween(earlier, last.key, last.now, hi) == 0
  {
    var earlier, last := rs[..|rs|-1], rs[|rs|-1];
    forall i | 0 <= i < |earlier| && earlier[i].key == last.key ensures earlier[i].now < last.now {
      WindowIsAMinute(earlier, last.key, i);
    }
    AskedAfterTheEnd(earlier, last.key, last.now);
    AdmittedAfterTheEnd(earlier, last.key, last.now, hi);
  }

  lemma {:induction false} AdmittedInWindow(rs: seq<Request>, k: Key, hi: int)
    requires Timed(rs) && WindowStart(rs, k).From?
    requires forall i :: 0 <= i < |rs| ==> rs[i].now <= hi
    ensures AdmittedBetween(rs, k, WindowStart(rs, k).at, hi) == Min(Asked(rs, k, WindowStart(rs, k).at), Limit(k.rule))
  {
    hide Asked, AdmittedBetween, AnswerAt;
    var n := |rs| - 1;
    var earlier, start := rs[..n], WindowStart(rs, k);
    OneMoreAsked(rs, k, start.at, hi);
    if rs[n].key == k { LastIsAdmitted(rs); }
    if WindowStart(earlier, k) == start {
      hide WindowStart;
      assert Timed(earlier) && forall i :: 0 <= i < n ==> earlier[i] == rs[i];
      AdmittedInWindow(earlier, k, hi);
    } else {
      NewWindowIsOfTheLast(rs, k);
      hide WindowStart;
      NewWindowAdmits(rs, hi);
    }
  }

  lemma {:induction false} AdmittedAfterTheEnd(rs: seq<Request>, k: Key, lo: int, hi: int)
    requires forall i :: 0 <= i < |rs| ==> rs[i].key == k ==> rs[i].now < lo
    ensures AdmittedBetween(rs, k, lo, hi) == 0
  {
    if rs != [] { AdmittedAfterTheEnd(rs[..|rs|-1], k, lo, hi); }
  }

  lemma {:induction false} FewerFromLater(rs: seq<Request>, k: Key, lo: int, later: int, hi: int)
    requires lo <= later
    ensures AdmittedBetween(rs, k, later, hi) <= AdmittedBetween(rs, k, lo, hi)
  {
    if rs != [] { FewerFromLater(rs[..|rs|-1], k, lo, later, hi); }
  }

  /** The first request of a window that ends all that was before. */
  lemma AdmittedUpToANewWindow(earlier: seq<Request>, last: Request, lo: int, hi: int)
    requires Timed(earlier + [last]) && forall i :: 0 <= i < |earlier| ==> earlier[i].now <= hi
    requires WindowStart(earlier + [last], last.key) != WindowStart(earlier, last.key)
    requires last.now - MINUTE <= lo
    ensures AdmittedBetween(earlier, last.key, lo, hi) <= Limit(last.key.rule)
    ensures Asked(earlier, last.key, last.now) == 0 && WindowStart(earlier + [last], last.key) == From(last.now)
  {
    var rs, k := earlier + [last], last.key;
    assert rs[..|earlier|] == earlier;
    WindowStartIsPast(earlier, k);
    forall i | 0 <= i < |earlier| && earlier[i].key == k ensures earlier[i].now < last.now {
      WindowIsAMinute(earlier, k, i);
    }
    AskedAfterTheEnd(earlier, k, last.now);
    if WindowStart(earlier, k).From? {
      AdmittedInWindow(earlier, k, hi);
      FewerFromLater(earlier, k, WindowStart(earlier, k).at, lo, hi);
    } else {
      NoneYet(earlier, k, lo, hi);
    }
  }

  /** Any stretch that reaches back at most a minute before the current window admits at most one limit more than it. */
  lemma {:induction false} AdmittedSinceTheWindowBefore(rs: seq<Request>, k: Key, lo: int, hi: int)
    requires Timed(rs) && WindowStart(rs, k).From? && WindowStart(rs, k).at - MINUTE <= lo
    requires forall i :: 0 <= i < |rs| ==> rs[i].now <= hi
    ensures AdmittedBetween(rs, k, lo, hi) <= Limit(k.rule) + Min(Asked(rs, k, WindowStart(rs, k).at), Limit(k.rule))
  {
    hide Asked, AdmittedBetween, AnswerAt;
    var n := |rs| - 1;
    var earlier, last, start := rs[..n], rs[n], WindowStart(rs, k);
    OneMoreAsked(rs, k, start.at, hi);
    OneMoreAsked(rs, k, lo, hi);
    if last.key == k { LastIsAdmitted(rs); }
    if WindowStart(earlier, k) == start {
      hide WindowStart;
      assert Timed(earlier) && forall i :: 0 <= i < n ==> earlier[i] == rs[i];
      AdmittedSinceTheWindowBefore(earlier, k, lo, hi);
    } else {
      assert earlier + [last] == rs;
      NewWindowIsOfTheLast(rs, k);
      hide WindowStart;
      AdmittedUpToANewWindow(earlier, last, lo, hi);
    }
  }

  lemma {:induction false} NoneYet(rs: seq<Request>, k: Key, lo: int, hi: int)
    requires WindowStart(rs, k) == NoWindow
    ensures AdmittedBetween(rs, k, lo, hi) == 0
  {
    if rs != [] { NoneYet(rs[..|rs|-1], k, lo, hi); }
  }

  /** In every interval of one minute, wherever it begins, at most twice the limit of one key is admitted. */
  lemma {:induction false} SlidingWindowBound(rs: seq<Request>, k: Key, lo: int)
    requires Timed(rs)
    ensures AdmittedBetween(rs, k, lo, lo + MINUTE) <= 2 * Limit(k.rule)
  {
    if rs != [] {
      var n := |rs| - 1;
      if rs[n].now > lo + MINUTE {
        SlidingWindowBound(rs[..n], k, lo);
      } else if WindowStart(rs, k).From? {
        WindowStartIsPast(rs, k);
        AdmittedSinceTheWindowBefore(rs, k, lo, lo + MINUTE);
      } else {
        NoneYet(rs, k, lo, lo + MINUTE);
      }
    }
  }

  // ---- what a refused client is told ---------------------------------------------------------------

  /** A refused client that asks nothing for `retryAfter` seconds is in a new window then, and for no smaller number of
      seconds greater than zero. The other figures round the end of the window up to a second. */
  lemma RetryAfterIsExact(rs: seq<Request>, i: nat, seconds: int)
    requires Timed(rs) && i < |rs| && AnswerAt(rs, i).Refused? && 0 < seconds
    ensures var k, start := rs[i].key, WindowStart(rs[..i+1], rs[i].key);
            var later := rs[..i+1] + [Request(k, rs[i].now + 1000 * seconds)];
            && start.From?
            && (WindowStart(later, k) == From(rs[i].now + 1000 * seconds) <==> seconds >= AnswerAt(rs, i).retryAfter)
            && (seconds < AnswerAt(rs, i).retryAfter ==> WindowStart(later, k) == start)
            && AnswerAt(rs, i).retryAfter >= 1
            && start.at + MINUTE <= 1000 * AnswerAt(rs, i).resetSeconds < start.at + MINUTE + 1000
  {
    FirstOnesAreAdmitted(rs, i);
    FiguresOfRefusal(rs, i);
    var upTo, k := rs[..i+1], rs[i].key;
    var later := upTo + [Request(k, rs[i].now + 1000 * seconds)];
    assert later[..|upTo|] == upTo;
    assert upTo[i] == rs[i];
    WindowStartIsPast(upTo, k);
    var end, answer := WindowStart(upTo, k).at + MINUTE, AnswerAt(rs, i);
    hide AnswerAt;
    assert WindowStart(later, k) ==
             if rs[i].now + 1000 * seconds < end then WindowStart(upTo, k) else From(rs[i].now + 1000 * seconds);
  }

  lemma FiguresOfRefusal(rs: seq<Request>, i: nat)
    requires Timed(rs) && i < |rs| && AnswerAt(rs, i).Refused?
    requires WindowStart(rs[..i+1], rs[i].key).From?
    ensures var end, answer := WindowStart(rs[..i+1], rs[i].key).at + MINUTE, AnswerAt(rs, i);
            && answer.retryAfter == Max(1, CeilSeconds(end - rs[i].now)) && answer.resetSeconds == CeilSeconds(end)
            && end > rs[i].now
  {
    SweepIsInvisible(rs, i);
    var upTo := rs[..i+1];
    BucketIsTheWindow(upTo, rs[i].key);
    assert upTo[..i] == rs[..i] && upTo[i] == rs[i];
    assert AfterUnswept(upTo) == Count(AfterUnswept(rs[..i]), rs[i]);
  }

  /** The reset figure of an admitted request is the end of its window too. */
  lemma ResetIsTheEndOfTheWindow(rs: seq<Request>, i: nat)
    requires Timed(rs) && i < |rs|
    ensures WindowStart(rs[..i+1], rs[i].key).From?
    ensures var end := WindowStart(rs[..i+1], rs[i].key).at + MINUTE;
            end <= 1000 * AnswerAt(rs, i).resetSeconds < end + 1000
  {
    FirstOnesAreAdmitted(rs, i);
    SweepIsInvisible(rs, i);
    var upTo := rs[..i+1];
    BucketIsTheWindow(upTo, rs[i].key);
    assert upTo[..i] == rs[..i] && upTo[i] == rs[i];
    assert AfterUnswept(upTo) == Count(AfterUnswept(rs[..i]), rs[i]);
  }
}
