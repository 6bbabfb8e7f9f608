/**
 What the rate limiter's answers mean: which requests of a window are accepted, how long a
 rejected caller has to wait, and which key makes room for a new one.
 */
module LimitWindows {
  import opened Options
  import opened RateLimit

  // ─── One window ───────────────────────────────────────────────────────

  /** The requests of one key in one window, whatever limit each of them names. */
  predicate OneWindow(rs: seq<Request>, k: Key, windowMs: nat) {
    && rs != [] && rs[0].max > 0
    && (forall i :: 0 <= i < |rs| ==> rs[i].key == k && rs[i].windowMs == windowMs && rs[i].now - rs[0].now < windowMs)
  }

  /** Every request of the window is counted, rejected ones too. */
  lemma {:induction false} EveryRequestCounts(rs: seq<Request>, cap: nat, k: Key, windowMs: nat)
    requires OneWindow(rs, k, windowMs) && cap > 0
    ensures After(rs, cap) == Buckets(map[k := Bucket(|rs|, rs[0].now)], [k])
  {
    var pre := rs[..|rs| - 1];
    if pre == [] {
      assert After(pre, cap) == EMPTY;
      assert WithoutKey([k], k) == [];
    } else {
      EveryRequestCounts(pre, cap, k, windowMs);
    }
  }

  /** So the n-th request of a window is accepted exactly when its own limit is at least n. */
  lemma NthIsAcceptedIff(rs: seq<Request>, cap: nat, k: Key, windowMs: nat, n: nat)
    requires OneWindow(rs, k, windowMs) && cap > 0 && 0 < n <= |rs|
    ensures Served(After(rs[..n - 1], cap), rs[n - 1], cap).1.Accepted? <==> n <= rs[n - 1].max
  {
    if n == 1 {
      assert After(rs[..0], cap) == EMPTY;
    } else {
      EveryRequestCounts(rs[..n - 1], cap, k, windowMs);
    }
  }

  // ─── Waiting ──────────────────────────────────────────────────────────

  /**
   A rejected caller is told to wait at least a second; when it has waited that long its
   window is over, and a whole second earlier it was not.
   */
  lemma RetryAfterIsEnough(b: Buckets, r: Request, cap: nat)
    requires Served(b, r, cap).1.Rejected?
    ensures var (b', v) := Served(b, r, cap);
            && v.retryAfterSeconds >= 1
            && !Live(b', r.(now := r.now + 1000 * v.retryAfterSeconds))
            && (Live(b, r) && v.retryAfterSeconds > 1 ==> Live(b', r.(now := r.now + 1000 * (v.retryAfterSeconds - 1))))
  {
  }

  // ─── Making room ──────────────────────────────────────────────────────

  /** When the key's bucket was stored: the last accepted request of the key that found none. */
  function StoredAt(rs: seq<Request>, cap: nat, k: Key): nat {
    if rs == [] then 0
    else
      var pre, r := rs[..|rs| - 1], rs[|rs| - 1];
      if r.key == k && k !in After(pre, cap).at && Served(After(pre, cap), r, cap).1.Accepted? then |pre|
      else StoredAt(pre, cap, k)
  }

  /** Older keys stand first. */
  predicate ByAge(order: seq<Key>, rs: seq<Request>, cap: nat) {
    && (forall i :: 0 <= i < |order| ==> StoredAt(rs, cap, order[i]) < |rs|)
    && (forall i, j :: 0 <= i < j < |order| ==> StoredAt(rs, cap, order[i]) < StoredAt(rs, cap, order[j]))
  }

  lemma OthersKeepTheirAge(rs: seq<Request>, cap: nat, k: Key)
    requires rs != [] && (k != rs[|rs| - 1].key || k in After(rs[..|rs| - 1], cap).at)
    ensures StoredAt(rs, cap, k) == StoredAt(rs[..|rs| - 1], cap, k)
  {
  }

  lemma StoredByAge(rs: seq<Request>, cap: nat, b: Buckets, r: Request, stored: Buckets)
    requires rs != [] && b == After(rs[..|rs| - 1], cap) && r == rs[|rs| - 1] && Wellformed(b)
    requires ByAge(b.order, rs[..|rs| - 1], cap) && Served(b, r, cap).1.Accepted?
    requires stored.order == if r.key in b.at then b.order else b.order + [r.key]
    ensures ByAge(stored.order, rs, cap)
  {
    forall i | 0 <= i < |b.order| ensures StoredAt(rs, cap, b.order[i]) == StoredAt(rs[..|rs| - 1], cap, b.order[i]) {
      assert b.order[i] in b.order;
      OthersKeepTheirAge(rs, cap, b.order[i]);
    }
  }

  lemma DropFirst(order: seq<Key>)
    requires order != [] && forall i, j :: 0 <= i < j < |order| ==> order[i] != order[j]
    ensures WithoutKey(order, order[0]) == order[1..]
  {
    Untouched(order[1..], order[0]);
  }

  lemma {:induction false} Untouched(ks: seq<Key>, k: Key)
    requires k !in ks
    ensures WithoutKey(ks, k) == ks
  {
    if ks != [] {
      Untouched(ks[1..], k);
      assert ks == [ks[0]] + ks[1..];
    }
  }

  /** Dropping the first key, if the store is full, leaves the rest in order. */
  lemma TailByAge(order: seq<Key>, left: seq<Key>, rs: seq<Request>, cap: nat)
    requires ByAge(order, rs, cap) && (left == order || (order != [] && left == order[1..]))
    ensures ByAge(left, rs, cap)
  {
  }

  lemma AcceptedByAge(rs: seq<Request>, cap: nat, b: Buckets, r: Request)
    requires rs != [] && b == After(rs[..|rs| - 1], cap) && r == rs[|rs| - 1] && Wellformed(b)
    requires ByAge(b.order, rs[..|rs| - 1], cap) && Served(b, r, cap).1.Accepted?
    ensures ByAge(Served(b, r, cap).0.order, rs, cap)
  {
    var stored := SetKey(b, r.key, Current(b, r).(count := Current(b, r).count + 1));
    StoredByAge(rs, cap, b, r, stored);
    if |stored.order| > cap { DropFirst(stored.order); }
    TailByAge(stored.order, Served(b, r, cap).0.order, rs, cap);
  }

  lemma RejectedByAge(rs: seq<Request>, cap: nat, b: Buckets, r: Request)
    requires rs != [] && b == After(rs[..|rs| - 1], cap) && r == rs[|rs| - 1]
    requires ByAge(b.order, rs[..|rs| - 1], cap) && Served(b, r, cap).1.Rejected?
    ensures ByAge(b.order, rs, cap)
  {
    assert forall k :: StoredAt(rs, cap, k) == StoredAt(rs[..|rs| - 1], cap, k);
  }

  /** The store keeps its keys in the order in which their buckets were stored, in every run. */
  lemma {:induction false} KeysStandByAge(rs: seq<Request>, cap: nat)
    ensures ByAge(After(rs, cap).order, rs, cap)
  {
    if rs != [] {
      var pre, r := rs[..|rs| - 1], rs[|rs| - 1];
      var b := After(pre, cap);
      KeysStandByAge(pre, cap);
      StoreStaysUnderCap(pre, cap);
      if Served(b, r, cap).1.Accepted? { AcceptedByAge(rs, cap, b, r); } else { RejectedByAge(rs, cap, b, r); }
    }
  }

  /** A key makes room exactly when a new one is stored beyond the cap and no key of the store is older. */
  lemma TheOldestMakesRoom(rs: seq<Request>, r: Request, cap: nat, k: Key)
    requires k in After(rs, cap).at
    ensures Evicts(After(rs, cap), r, cap, k) <==>
              && Served(After(rs, cap), r, cap).1.Accepted? && r.key !in After(rs, cap).at && |After(rs, cap).order| == cap
              && forall other :: other in After(rs, cap).at ==> StoredAt(rs, cap, k) <= StoredAt(rs, cap, other)
  {
    var b := After(rs, cap);
    StoreStaysUnderCap(rs, cap);
    KeysStandByAge(rs, cap);
    var j :| 0 <= j < |b.order| && b.order[j] == k;
    assert b.order[0] in b.order && b.order[0] in b.at;
    if forall other :: other in b.at ==> StoredAt(rs, cap, k) <= StoredAt(rs, cap, other) {
      assert j == 0;
    }
    if j == 0 {
      forall other | other in b.at ensures StoredAt(rs, cap, k) <= StoredAt(rs, cap, other) {
        var i :| 0 <= i < |b.order| && b.order[i] == other;
      }
    }
  }
}
