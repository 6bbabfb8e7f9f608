/**
 The in-memory fixed-window rate limiter: one bucket per key, kept in insertion order,
 the oldest key evicted beyond the cap. The bound over any interval is proved for a key
 that is never evicted.
 */
module RateLimit {
  import opened Options

  type Key = string

  datatype Bucket = Bucket(count: nat, windowStart: int)

  /** A JavaScript Map: bindings, and the keys in insertion order. */
  datatype Buckets = Buckets(at: map<Key, Bucket>, order: seq<Key>)

  datatype Verdict = Unlimited | Accepted | Rejected(retryAfterSeconds: int)

  datatype Request = Request(key: Key, max: nat, windowMs: nat, now: int)

  function Unbound(b: Buckets, k: Key): Buckets { Buckets(map j | j in b.at && j != k :: b.at[j], WithoutKey(b.order, k)) }

  function WithoutKey(ks: seq<Key>, k: Key): seq<Key> {
    if ks == [] then [] else if ks[0] == k then WithoutKey(ks[1..], k) else [ks[0]] + WithoutKey(ks[1..], k)
  }

  function SetKey(b: Buckets, k: Key, v: Bucket): Buckets {
    Buckets(b.at[k := v], if k in b.at then b.order else b.order + [k])
  }

  /** The key has a bucket whose window still lasts. */
  predicate Live(b: Buckets, r: Request) {
    r.key in b.at && r.now - b.at[r.key].windowStart < r.windowMs
  }

  /** The bucket this request counts in: the live one, else a new one starting now. */
  function Current(b: Buckets, r: Request): Bucket { if Live(b, r) then b.at[r.key] else Bucket(0, r.now) }

  function RetryAfter(start: int, r: Request): int {
    var seconds := (start + r.windowMs - r.now + 999) / 1000;
    if seconds < 1 then 1 else seconds
  }

  /** Counting a rejected request still mutates a live bucket in place, but a new one is not stored. */
  function Served(b: Buckets, r: Request, cap: nat): (Buckets, Verdict) {
    var counted := Current(b, r).(count := Current(b, r).count + 1);
    if counted.count > r.max then
      (if Live(b, r) then b.(at := b.at[r.key := counted]) else b, Rejected(RetryAfter(counted.windowStart, r)))
    else
      var stored := SetKey(b, r.key, counted);
      (if |stored.order| > cap then Unbound(stored, stored.order[0]) else stored, Accepted)
  }

  ghost predicate Wellformed(b: Buckets) {
    && (forall k :: k in b.at <==> k in b.order)
    && (forall i, j :: 0 <= i < j < |b.order| ==> b.order[i] != b.order[j])
  }

  class RateLimiter {
    var store: Buckets
    const cap: nat

    constructor (cap: nat)
      ensures store == Buckets(map[], []) && this.cap == cap
    {
      this.cap := cap;
      store := Buckets(map[], []);
    }

    /** An empty identity falls through unlimited; everything else is counted under identity:prefix. */
    method Handle(identity: string, prefix: string, max: nat, windowSec: nat, now: int) returns (v: Verdict)
      modifies this
      ensures identity == "" ==> v == Unlimited && store == old(store)
      ensures identity != "" ==>
                (store, v) == Served(old(store), Request(identity + ":" + prefix, max, windowSec * 1000, now), cap)
    {
      if |identity| == 0 { return Unlimited; }
      var r := Request(identity + ":" + prefix, max, windowSec * 1000, now);
      var expired := r.key !in store.at || now - store.at[r.key].windowStart >= r.windowMs;
      var bucket := if expired then Bucket(0, now) else store.at[r.key];
      bucket := bucket.(count := bucket.count + 1);
      if !expired {
        store := store.(at := store.at[r.key := bucket]);
      }
      if bucket.count > max {
        return Rejected(RetryAfter(bucket.windowStart, r));
      }
      store := SetKey(store, r.key, bucket);
      assert store.at == old(store).at[r.key := bucket];
      if |store.order| > cap {
        store := Unbound(store, store.order[0]);
      }
      v := Accepted;
    }
  }

  // ─── Runs ─────────────────────────────────────────────────────────────

  const EMPTY: Buckets := Buckets(map[], [])

  function After(rs: seq<Request>, cap: nat): Buckets {
    if rs == [] then EMPTY else Served(After(rs[..|rs| - 1], cap), rs[|rs| - 1], cap).0
  }

  /** An accepted request of the key, with the start of the window it was counted in. */
  datatype Entry = Entry(now: int, windowStart: int)

  function Added(b: Buckets, r: Request, cap: nat, k: Key): seq<Entry> {
    if r.key == k && Served(b, r, cap).1.Accepted? then [Entry(r.now, Current(b, r).windowStart)] else []
  }

  function LogOf(rs: seq<Request>, cap: nat, k: Key): seq<Entry> {
    if rs == [] then []
    else
      LogOf(rs[..|rs| - 1], cap, k) + Added(After(rs[..|rs| - 1], cap), rs[|rs| - 1], cap, k)
  }

  /** The clock never runs backwards. */
  predicate Monotone(rs: seq<Request>) {
    |rs| > 1 ==> Monotone(rs[..|rs| - 1]) && rs[|rs| - 2].now <= rs[|rs| - 1].now
  }

  predicate SameLimits(rs: seq<Request>, k: Key, max: nat, windowMs: nat) {
    forall i :: 0 <= i < |rs| && rs[i].key == k ==> rs[i].max == max && rs[i].windowMs == windowMs
  }

  /** Serving the request drops the key's bucket, be it an old one or the one just stored. */
  predicate Evicts(b: Buckets, r: Request, cap: nat, k: Key) {
    && (k in b.at || (r.key == k && Served(b, r, cap).1.Accepted?))
    && k !in Served(b, r, cap).0.at
  }

  predicate NeverEvicted(rs: seq<Request>, cap: nat, k: Key) {
    rs != [] ==>
      NeverEvicted(rs[..|rs| - 1], cap, k) && !Evicts(After(rs[..|rs| - 1], cap), rs[|rs| - 1], cap, k)
  }

  // ─── The key cap ──────────────────────────────────────────────────────

  lemma {:induction false} WithoutKeyFacts(ks: seq<Key>, k: Key)
    requires forall i, j :: 0 <= i < j < |ks| ==> ks[i] != ks[j]
    ensures forall x :: x in WithoutKey(ks, k) <==> x in ks && x != k
    ensures forall i, j :: 0 <= i < j < |WithoutKey(ks, k)| ==> WithoutKey(ks, k)[i] != WithoutKey(ks, k)[j]
    ensures |WithoutKey(ks, k)| == |ks| - if k in ks then 1 else 0
  {
    if ks != [] {
      WithoutKeyFacts(ks[1..], k);
      assert ks[0] !in ks[1..];
    }
  }

  /** No request ever leaves the store above its key cap. */
  lemma {:induction false} StoreStaysUnderCap(rs: seq<Request>, cap: nat)
    ensures Wellformed(After(rs, cap)) && |After(rs, cap).order| <= cap
  {
    if rs != [] {
      var r := rs[|rs| - 1];
      StoreStaysUnderCap(rs[..|rs| - 1], cap);
      var b := After(rs[..|rs| - 1], cap);
      var stored := SetKey(b, r.key, Current(b, r).(count := Current(b, r).count + 1));
      assert Wellformed(stored);
      if |stored.order| > cap { WithoutKeyFacts(stored.order, stored.order[0]); }
    }
  }

  // ─── The rate bound ───────────────────────────────────────────────────

  function InWindow(log: seq<Entry>, windowStart: int): nat {
    if log == [] then 0
    else InWindow(log[..|log| - 1], windowStart) + if log[|log| - 1].windowStart == windowStart then 1 else 0
  }

  predicate During(e: Entry, from: int, length: nat) { from <= e.now < from + length }

  /** Accepted requests in the half-open interval [from, from + length). */
  function InInterval(log: seq<Entry>, from: int, length: nat): nat {
    if log == [] then 0
    else InInterval(log[..|log| - 1], from, length) + if During(log[|log| - 1], from, length) then 1 else 0
  }

  ghost predicate Opened(log: seq<Entry>, windowStart: int) { Entry(windowStart, windowStart) in log }

  predicate Spaced(log: seq<Entry>, windowMs: nat) {
    forall i, j :: 0 <= i < |log| && 0 <= j < |log| && log[i].windowStart < log[j].windowStart ==>
      log[i].windowStart + windowMs <= log[j].windowStart
  }

  ghost predicate EntriesOk(log: seq<Entry>, windowMs: nat, clock: int) {
    forall i :: 0 <= i < |log| ==>
      && log[i].windowStart <= log[i].now < log[i].windowStart + windowMs && log[i].now <= clock
      && Opened(log, log[i].windowStart)
  }

  ghost predicate BucketOk(log: seq<Entry>, bucket: Bucket, clock: int) {
    && bucket.windowStart <= clock && Opened(log, bucket.windowStart)
    && InWindow(log, bucket.windowStart) <= bucket.count
    && forall i :: 0 <= i < |log| ==> log[i].windowStart <= bucket.windowStart
  }

  ghost predicate WindowsBounded(log: seq<Entry>, max: nat) { forall ws :: InWindow(log, ws) <= max }

  ghost predicate LogOk(log: seq<Entry>, b: Buckets, k: Key, max: nat, windowMs: nat, clock: int) {
    && Spaced(log, windowMs) && EntriesOk(log, windowMs, clock) && WindowsBounded(log, max)
    && (k !in b.at ==> log == [])
    && (k in b.at ==> BucketOk(log, b.at[k], clock))
  }

  lemma {:induction false} NothingInUnusedWindow(log: seq<Entry>, ws: int)
    requires forall i :: 0 <= i < |log| ==> log[i].windowStart != ws
    ensures InWindow(log, ws) == 0
  {
    if log != [] { NothingInUnusedWindow(log[..|log| - 1], ws); }
  }

  lemma AppendCounts(log: seq<Entry>, e: Entry, w: int)
    ensures InWindow(log + [e], w) == InWindow(log, w) + if e.windowStart == w then 1 else 0
  {
    assert (log + [e])[..|log|] == log;
  }

  lemma AppendKeepsEntries(log: seq<Entry>, now: int, ws: int, windowMs: nat, clock: int)
    requires EntriesOk(log, windowMs, clock) && clock <= now && ws <= now < ws + windowMs
    requires Opened(log, ws) || ws == now
    ensures EntriesOk(log + [Entry(now, ws)], windowMs, now) && Opened(log + [Entry(now, ws)], ws)
  {
    var next := log + [Entry(now, ws)];
    assert next[|log|] == Entry(now, ws);
    forall i | 0 <= i < |next| ensures Opened(next, next[i].windowStart) {
      if i < |log| {
        var j :| 0 <= j < |log| && log[j] == Entry(log[i].windowStart, log[i].windowStart);
        assert next[j] == log[j];
      } else if Opened(log, ws) {
        var j :| 0 <= j < |log| && log[j] == Entry(ws, ws);
        assert next[j] == log[j];
      }
    }
  }

  lemma AppendKeepsSpacing(log: seq<Entry>, now: int, ws: int, windowMs: nat)
    requires Spaced(log, windowMs)
    requires forall i :: 0 <= i < |log| ==> log[i].windowStart == ws || log[i].windowStart + windowMs <= ws
    ensures Spaced(log + [Entry(now, ws)], windowMs)
  {
  }

  lemma AppendKeepsBounds(log: seq<Entry>, e: Entry, max: nat)
    requires WindowsBounded(log, max) && InWindow(log, e.windowStart) < max
    ensures WindowsBounded(log + [e], max)
  {
    forall w ensures InWindow(log + [e], w) <= max {
      AppendCounts(log, e, w);
      assert InWindow(log, w) <= max;
    }
  }

  lemma AppendCountsInBucket(log: seq<Entry>, now: int, ws: int, count: nat)
    requires InWindow(log, ws) <= count && ws <= now && Opened(log + [Entry(now, ws)], ws)
    requires forall i :: 0 <= i < |log| ==> log[i].windowStart <= ws
    ensures BucketOk(log + [Entry(now, ws)], Bucket(count + 1, ws), now)
  {
    AppendCounts(log, Entry(now, ws), ws);
  }

  /** Append an accepted request of window `ws`, which is the newest window and has room. */
  lemma AppendKeepsLog(log: seq<Entry>, now: int, ws: int, count: nat, max: nat, windowMs: nat, clock: int)
    requires Spaced(log, windowMs) && EntriesOk(log, windowMs, clock) && WindowsBounded(log, max)
    requires clock <= now && ws <= now < ws + windowMs && count < max && InWindow(log, ws) <= count
    requires forall i :: 0 <= i < |log| ==> log[i].windowStart == ws || log[i].windowStart + windowMs <= ws
    requires Opened(log, ws) || ws == now
    ensures var next := log + [Entry(now, ws)];
            && Spaced(next, windowMs) && EntriesOk(next, windowMs, now) && WindowsBounded(next, max)
            && BucketOk(next, Bucket(count + 1, ws), now)
  {
    var next := log + [Entry(now, ws)];
    AppendKeepsEntries(log, now, ws, windowMs, clock);
    AppendCountsInBucket(log, now, ws, count);
    AppendKeepsSpacing(log, now, ws, windowMs);
    AppendKeepsBounds(log, Entry(now, ws), max);
  }

  lemma AcceptKeepsLog(log: seq<Entry>, b: Buckets, b': Buckets, r: Request, clock: int)
    requires LogOk(log, b, r.key, r.max, r.windowMs, clock) && clock <= r.now && r.windowMs > 0
    requires Current(b, r).count + 1 <= r.max
    requires r.key in b'.at && b'.at[r.key] == Current(b, r).(count := Current(b, r).count + 1)
    ensures LogOk(log + [Entry(r.now, Current(b, r).windowStart)], b', r.key, r.max, r.windowMs, r.now)
  {
    var cur := Current(b, r);
    if Live(b, r) {
      var j :| 0 <= j < |log| && log[j] == Entry(cur.windowStart, cur.windowStart);
      forall i | 0 <= i < |log| ensures log[i].windowStart == cur.windowStart || log[i].windowStart + r.windowMs <= cur.windowStart {
        assert log[i].windowStart < log[j].windowStart ==> log[i].windowStart + r.windowMs <= log[j].windowStart;
      }
    } else {
      NothingInUnusedWindow(log, r.now);
    }
    AppendKeepsLog(log, r.now, cur.windowStart, cur.count, r.max, r.windowMs, clock);
  }

  /** A request that adds nothing to the key's log, and does not evict it, keeps the log sound. */
  lemma OtherRequestKeepsLog(log: seq<Entry>, b: Buckets, r: Request, cap: nat, k: Key, max: nat, windowMs: nat, clock: int)
    requires LogOk(log, b, k, max, windowMs, clock) && clock <= r.now
    requires !(r.key == k && Served(b, r, cap).1.Accepted?) && !Evicts(b, r, cap, k)
    ensures LogOk(log, Served(b, r, cap).0, k, max, windowMs, r.now)
  {
    var b' := Served(b, r, cap).0;
    assert k in b'.at <==> k in b.at;
    if k in b.at {
      assert b'.at[k].windowStart == b.at[k].windowStart && b'.at[k].count >= b.at[k].count;
    }
  }

  lemma StepKeepsLog(log: seq<Entry>, b: Buckets, r: Request, cap: nat, k: Key, max: nat, windowMs: nat, clock: int)
    requires LogOk(log, b, k, max, windowMs, clock) && clock <= r.now && windowMs > 0
    requires r.key == k ==> r.max == max && r.windowMs == windowMs
    requires !Evicts(b, r, cap, k)
    ensures LogOk(log + Added(b, r, cap, k), Served(b, r, cap).0, k, max, windowMs, r.now)
  {
    if r.key == k && Served(b, r, cap).1.Accepted? {
      AcceptKeepsLog(log, b, Served(b, r, cap).0, r, clock);
    } else {
      assert log + Added(b, r, cap, k) == log;
      OtherRequestKeepsLog(log, b, r, cap, k, max, windowMs, clock);
    }
  }

  lemma SameLimitsBefore(rs: seq<Request>, k: Key, max: nat, windowMs: nat)
    requires rs != [] && SameLimits(rs, k, max, windowMs)
    ensures SameLimits(rs[..|rs| - 1], k, max, windowMs)
    ensures rs[|rs| - 1].key == k ==> rs[|rs| - 1].max == max && rs[|rs| - 1].windowMs == windowMs
  {
    var pre := rs[..|rs| - 1];
    forall i | 0 <= i < |pre| && pre[i].key == k ensures pre[i].max == max && pre[i].windowMs == windowMs {
      assert rs[i] == pre[i];
    }
  }

  lemma {:induction false} LogStaysOk(rs: seq<Request>, cap: nat, k: Key, max: nat, windowMs: nat)
    requires rs != [] && Monotone(rs) && SameLimits(rs, k, max, windowMs) && NeverEvicted(rs, cap, k) && windowMs > 0
    ensures LogOk(LogOf(rs, cap, k), After(rs, cap), k, max, windowMs, rs[|rs| - 1].now)
  {
    var pre, r := rs[..|rs| - 1], rs[|rs| - 1];
    SameLimitsBefore(rs, k, max, windowMs);
    if pre == [] {
      StepKeepsLog([], EMPTY, r, cap, k, max, windowMs, r.now);
    } else {
      LogStaysOk(pre, cap, k, max, windowMs);
      StepKeepsLog(LogOf(pre, cap, k), After(pre, cap), r, cap, k, max, windowMs, pre[|pre| - 1].now);
    }
  }

  function InBoth(log: seq<Entry>, from: int, length: nat, ws: int): nat {
    if log == [] then 0
    else InBoth(log[..|log| - 1], from, length, ws)
         + if During(log[|log| - 1], from, length) && log[|log| - 1].windowStart == ws then 1 else 0
  }

  lemma {:induction false} IntervalSplits(log: seq<Entry>, from: int, length: nat, a: int, b: int)
    requires a != b
    requires forall i :: 0 <= i < |log| && During(log[i], from, length) ==> log[i].windowStart == a || log[i].windowStart == b
    ensures InInterval(log, from, length) == InBoth(log, from, length, a) + InBoth(log, from, length, b)
  {
    if log != [] { IntervalSplits(log[..|log| - 1], from, length, a, b); }
  }

  lemma {:induction false} PartOfWindow(log: seq<Entry>, from: int, length: nat, ws: int)
    ensures InBoth(log, from, length, ws) <= InWindow(log, ws)
    ensures (exists i :: 0 <= i < |log| && log[i].windowStart == ws && !During(log[i], from, length)) ==>
              InBoth(log, from, length, ws) < InWindow(log, ws)
  {
    if log != [] {
      PartOfWindow(log[..|log| - 1], from, length, ws);
      if i :| 0 <= i < |log| - 1 && log[i].windowStart == ws && !During(log[i], from, length) {
        assert log[..|log| - 1][i] == log[i];
      }
    }
  }

  predicate Inside(log: seq<Entry>, windowMs: nat) {
    forall i :: 0 <= i < |log| ==> log[i].windowStart <= log[i].now < log[i].windowStart + windowMs
  }

  lemma NoThirdWindow(log: seq<Entry>, from: int, windowMs: nat, x: nat, y: nat, i: nat)
    requires Spaced(log, windowMs) && Inside(log, windowMs) && x < |log| && y < |log| && i < |log|
    requires During(log[x], from, windowMs) && During(log[y], from, windowMs) && During(log[i], from, windowMs)
    requires log[x].windowStart < log[y].windowStart
    ensures log[x].windowStart < from
    ensures log[i].windowStart == log[x].windowStart || log[i].windowStart == log[y].windowStart
  {
  }

  /** Two windows meet the interval: the older one's opening request lies before it. */
  lemma TwoWindowsAtMost(log: seq<Entry>, from: int, windowMs: nat, max: nat, x: nat, y: nat)
    requires Spaced(log, windowMs) && Inside(log, windowMs) && WindowsBounded(log, max)
    requires x < |log| && y < |log| && Opened(log, log[x].windowStart)
    requires During(log[x], from, windowMs) && During(log[y], from, windowMs) && log[x].windowStart < log[y].windowStart
    ensures max > 0 && InInterval(log, from, windowMs) <= 2 * max - 1
  {
    var a, c := log[x].windowStart, log[y].windowStart;
    forall i | 0 <= i < |log| && During(log[i], from, windowMs)
      ensures log[i].windowStart == a || log[i].windowStart == c
    {
      NoThirdWindow(log, from, windowMs, x, y, i);
    }
    NoThirdWindow(log, from, windowMs, x, y, x);
    IntervalSplits(log, from, windowMs, a, c);
    var i :| 0 <= i < |log| && log[i] == Entry(a, a);
    assert log[i].windowStart == a && !During(log[i], from, windowMs);
    PartOfWindow(log, from, windowMs, a);
    PartOfWindow(log, from, windowMs, c);
    assert InWindow(log, a) <= max && InWindow(log, c) <= max;
  }

  lemma LogBound(log: seq<Entry>, from: int, windowMs: nat, max: nat, clock: int)
    requires Spaced(log, windowMs) && EntriesOk(log, windowMs, clock) && WindowsBounded(log, max)
    ensures InInterval(log, from, windowMs) <= if max == 0 then 0 else 2 * max - 1
  {
    if x, y :| 0 <= x < |log| && 0 <= y < |log| && During(log[x], from, windowMs) && During(log[y], from, windowMs)
               && log[x].windowStart < log[y].windowStart {
      TwoWindowsAtMost(log, from, windowMs, max, x, y);
    } else {
      OneWindowAtMost(log, from, windowMs, max);
    }
  }

  /**
   Rate bound over time. For any request sequence with a non-decreasing clock, a key that
   is never evicted has at most `max` accepted requests per window, and at most 2*max - 1
   in every half-open interval of one window length (none when max is 0).
   */
  lemma RateBound(rs: seq<Request>, cap: nat, k: Key, max: nat, windowMs: nat, from: int)
    requires Monotone(rs) && SameLimits(rs, k, max, windowMs) && NeverEvicted(rs, cap, k) && windowMs > 0
    ensures WindowsBounded(LogOf(rs, cap, k), max)
    ensures InInterval(LogOf(rs, cap, k), from, windowMs) <= if max == 0 then 0 else 2 * max - 1
  {
    if rs != [] {
      LogStaysOk(rs, cap, k, max, windowMs);
      LogBound(LogOf(rs, cap, k), from, windowMs, max, rs[|rs| - 1].now);
    }
  }

  lemma OneWindowAtMost(log: seq<Entry>, from: int, windowMs: nat, max: nat)
    requires WindowsBounded(log, max)
    requires forall x, y :: 0 <= x < |log| && 0 <= y < |log| && During(log[x], from, windowMs) && During(log[y], from, windowMs)
                            ==> log[x].windowStart == log[y].windowStart
    ensures InInterval(log, from, windowMs) <= max
  {
    var ws := 0;
    if x :| 0 <= x < |log| && During(log[x], from, windowMs) { ws := log[x].windowStart; }
    IntervalSplits(log, from, windowMs, ws, ws + 1);
    PartOfWindow(log, from, windowMs, ws);
    NoneInOther(log, from, windowMs, ws, ws + 1);
    assert InWindow(log, ws) <= max;
  }

  lemma {:induction false} NoneInOther(log: seq<Entry>, from: int, length: nat, ws: int, other: int)
    requires ws != other
    requires forall i :: 0 <= i < |log| && During(log[i], from, length) ==> log[i].windowStart == ws
    ensures InBoth(log, from, length, other) == 0
  {
    if log != [] { NoneInOther(log[..|log| - 1], from, length, ws, other); }
  }

  // ─── The bound is tight ───────────────────────────────────────────────

  /** A run of requests of one key under one limit that keeps every hypothesis of the bound. */
  predicate Regular(rs: seq<Request>, cap: nat, k: Key, max: nat, windowMs: nat) {
    Monotone(rs) && SameLimits(rs, k, max, windowMs) && NeverEvicted(rs, cap, k)
  }

  function Only(k: Key, count: nat, windowStart: int): Buckets { Buckets(map[k := Bucket(count, windowStart)], [k]) }

  /** An accepted request of the only key stays the only key. */
  lemma ServedAlone(b: Buckets, r: Request, cap: nat, windowStart: int, count: nat)
    requires cap > 0 && (b == EMPTY || exists c, ws :: b == Only(r.key, c, ws))
    requires Current(b, r) == Bucket(count, windowStart) && count < r.max
    ensures Served(b, r, cap) == (Only(r.key, count + 1, windowStart), Accepted)
    ensures !Evicts(b, r, cap, r.key) && Added(b, r, cap, r.key) == [Entry(r.now, windowStart)]
  {
    assert SetKey(b, r.key, Bucket(count + 1, windowStart)) == Only(r.key, count + 1, windowStart);
  }

  lemma OneMore(rs: seq<Request>, cap: nat, r: Request, windowStart: int, count: nat, from: int)
    requires cap > 0 && Regular(rs, cap, r.key, r.max, r.windowMs)
    requires rs != [] ==> rs[|rs| - 1].now <= r.now
    requires After(rs, cap) == EMPTY || exists c, ws :: After(rs, cap) == Only(r.key, c, ws)
    requires Current(After(rs, cap), r) == Bucket(count, windowStart) && count < r.max
    ensures Regular(rs + [r], cap, r.key, r.max, r.windowMs)
    ensures After(rs + [r], cap) == Only(r.key, count + 1, windowStart)
    ensures InInterval(LogOf(rs + [r], cap, r.key), from, r.windowMs)
            == InInterval(LogOf(rs, cap, r.key), from, r.windowMs) + if from <= r.now < from + r.windowMs then 1 else 0
  {
    ServedAlone(After(rs, cap), r, cap, windowStart, count);
    var all := rs + [r];
    assert all[..|all| - 1] == rs && all[|all| - 1] == r;
    var log := LogOf(rs, cap, r.key);
    assert (log + [Entry(r.now, windowStart)])[..|log|] == log;
  }

  /** The run leaves the key alone in its window, no later than `r`, with `hits` accepted requests in the interval. */
  ghost predicate Leaves(rs: seq<Request>, cap: nat, r: Request, windowStart: int, count: nat, from: int, hits: nat) {
    && Regular(rs, cap, r.key, r.max, r.windowMs) && rs != [] && rs[|rs| - 1].now <= r.now
    && After(rs, cap) == Only(r.key, count, windowStart)
    && InInterval(LogOf(rs, cap, r.key), from, r.windowMs) == hits
  }

  ghost predicate Reachable(cap: nat, r: Request, windowStart: int, count: nat, from: int, hits: nat) {
    exists rs :: Leaves(rs, cap, r, windowStart, count, from, hits)
  }

  function Hits(r: Request, from: int, n: nat): nat { if from <= r.now < from + r.windowMs then n else 0 }

  lemma OneMoreInWindow(cap: nat, r: Request, windowStart: int, count: nat, from: int, hits: nat, total: nat)
    requires cap > 0 && r.now - windowStart < r.windowMs && count < r.max && total == hits + Hits(r, from, 1)
    requires Reachable(cap, r, windowStart, count, from, hits)
    ensures Reachable(cap, r, windowStart, count + 1, from, total)
  {
    var rs :| Leaves(rs, cap, r, windowStart, count, from, hits);
    OneMore(rs, cap, r, windowStart, count, from);
    assert Leaves(rs + [r], cap, r, windowStart, count + 1, from, total);
  }

  /** Requests like `r` until its window counts `upTo` of them. */
  lemma {:induction false} Burst(cap: nat, r: Request, windowStart: int, count: nat, upTo: nat, from: int, hits: nat, total: nat)
    requires cap > 0 && r.now - windowStart < r.windowMs && count <= upTo <= r.max && total == hits + Hits(r, from, upTo - count)
    requires Reachable(cap, r, windowStart, count, from, hits)
    ensures Reachable(cap, r, windowStart, upTo, from, total)
    decreases upTo - count
  {
    if count < upTo {
      OneMoreInWindow(cap, r, windowStart, count, from, hits, hits + Hits(r, from, 1));
      Burst(cap, r, windowStart, count + 1, upTo, from, hits + Hits(r, from, 1), total);
    }
  }

  /** The first request of a key opens its window. */
  lemma FirstRequest(cap: nat, first: Request, late: Request, from: int)
    requires cap > 0 && first.max > 0 && late == first.(now := late.now) && first.now <= late.now && first.now < from
    ensures Reachable(cap, late, first.now, 1, from, 0)
  {
    OneMore([], cap, first, first.now, 0, from);
    assert Leaves([] + [first], cap, late, first.now, 1, from, 0);
  }

  lemma SameForLater(cap: nat, late: Request, next: Request, windowStart: int, count: nat, from: int, hits: nat)
    requires next == late.(now := next.now) && late.now <= next.now && Reachable(cap, late, windowStart, count, from, hits)
    ensures Reachable(cap, next, windowStart, count, from, hits)
  {
    var rs :| Leaves(rs, cap, late, windowStart, count, from, hits);
    assert Leaves(rs, cap, next, windowStart, count, from, hits);
  }

  /** The first request after its window opens the next one. */
  lemma NextWindow(cap: nat, next: Request, windowStart: int, count: nat, from: int, hits: nat, total: nat)
    requires cap > 0 && next.max > 0 && windowStart + next.windowMs <= next.now && total == hits + Hits(next, from, 1)
    requires Reachable(cap, next, windowStart, count, from, hits)
    ensures Reachable(cap, next, next.now, 1, from, total)
  {
    var rs :| Leaves(rs, cap, next, windowStart, count, from, hits);
    OneMore(rs, cap, next, next.now, 0, from);
    assert Leaves(rs + [next], cap, next, next.now, 1, from, total);
  }

  lemma TwoFullWindows(cap: nat, k: Key, max: nat, windowMs: nat)
    requires cap > 0 && max > 0 && windowMs > 1
    ensures Reachable(cap, Request(k, max, windowMs, windowMs), windowMs, max, windowMs - 1, 2 * max - 1)
  {
    var from := windowMs - 1;
    var first, late, next := Request(k, max, windowMs, 0), Request(k, max, windowMs, from), Request(k, max, windowMs, windowMs);
    FirstRequest(cap, first, late, from);
    Burst(cap, late, 0, 1, max, from, 0, max - 1);
    SameForLater(cap, late, next, 0, max, from, max - 1);
    NextWindow(cap, next, 0, max, from, max - 1, max);
    Burst(cap, next, windowMs, 1, max, from, max, 2 * max - 1);
  }

  /** For every limit there is a run that reaches the bound: 2*max - 1 requests within one window length. */
  lemma BoundIsReached(cap: nat, k: Key, max: nat, windowMs: nat) returns (rs: seq<Request>)
    requires cap > 0 && max > 0 && windowMs > 1
    ensures Regular(rs, cap, k, max, windowMs)
    ensures InInterval(LogOf(rs, cap, k), windowMs - 1, windowMs) == 2 * max - 1
  {
    TwoFullWindows(cap, k, max, windowMs);
    rs :| Leaves(rs, cap, Request(k, max, windowMs, windowMs), windowMs, max, windowMs - 1, 2 * max - 1);
  }
}
