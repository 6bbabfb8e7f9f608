/**
 Properties of whole runs of the lease protocol: any interleaving, by any workers,
 of acquire, claim, the fenced writes and the sweep, under a clock that never runs
 backwards. A run starts from the empty table.
 */
module LeaseRuns {
  import opened Options
  import opened SyncLog

  datatype Timed = Timed(now: Instant, ev: Event)

  type Trace = seq<Timed>

  function Last(tr: Trace): Timed requires tr != [] { tr[|tr| - 1] }

  function Front(tr: Trace): Trace requires tr != [] { tr[..|tr| - 1] }

  /** The table after the trace. */
  function Final(tr: Trace): Table {
    if tr == [] then map[] else Apply(Final(Front(tr)), Last(tr).ev, Last(tr).now)
  }

  function Clock(tr: Trace): Instant { if tr == [] then 0 else Last(tr).now }

  /** Every step is one the database allows, and time never runs backwards. */
  predicate Run(tr: Trace) {
    tr != [] ==>
      && Run(Front(tr))
      && Clock(Front(tr)) <= Last(tr).now
      && Enabled(Final(Front(tr)), Last(tr).ev, Last(tr).now)
  }

  /** The rows the statement matched (its row count is the size of this set). */
  function Hit(t: Table, e: Event, now: Instant): set<RowId> {
    match e
    case Acquire(id, store, syncType, _) => if SlotTaken(t, store, syncType) then {} else {id}
    case Claim(_, id) => if id in t then {id} else {}
    case Fenced(w, id, _) => if id in t && Held(t[id], w) then {id} else {}
    case Sweep => set id | id in t && (ToTerminate(t[id], now) || ToRequeue(t[id], now))
  }

  lemma PrefixRun(tr: Trace, i: nat)
    requires Run(tr) && i <= |tr|
    ensures Run(tr[..i])
    ensures Clock(tr[..i]) <= Clock(tr)
  {
    if i < |tr| {
      PrefixRun(Front(tr), i);
      assert Front(tr)[..i] == tr[..i];
    } else {
      assert tr[..i] == tr;
    }
  }

  /** One step forward along a trace, in terms of prefixes. */
  lemma StepAt(tr: Trace, i: nat)
    requires i < |tr|
    ensures tr[..i + 1] != [] && Front(tr[..i + 1]) == tr[..i] && Last(tr[..i + 1]) == tr[i]
    ensures Final(tr[..i + 1]) == Apply(Final(tr[..i]), tr[i].ev, tr[i].now)
  {
    assert tr[..i + 1][..i] == tr[..i];
  }

  lemma ExtendRun(tr: Trace, e: Event, now: Instant)
    requires Run(tr) && Clock(tr) <= now && Enabled(Final(tr), e, now)
    ensures Run(tr + [Timed(now, e)]) && Final(tr + [Timed(now, e)]) == Apply(Final(tr), e, now)
    ensures Clock(tr + [Timed(now, e)]) == now
  {
    assert Front(tr + [Timed(now, e)]) == tr;
  }

  // ─── Reachable tables ─────────────────────────────────────────────────

  predicate RowOk(r: Row, now: Instant) {
    && r.attemptCount <= MAX_SYNC_ATTEMPTS
    && (r.status == RUNNING ==>
          && r.claimedBy.Some? && r.attemptCount >= 1 && r.startedAt <= now
          && r.lastTickAt.Some? && r.lastTickAt.value <= now)
    && (Waiting(r) ==> r.claimedBy == None)
    && (r.status == FAILED_RETRYABLE ==> r.nextAttemptAt.Some?)
    && (r.status == PENDING || r.status == RUNNING ==> r.nextAttemptAt.GetOr(0) <= now)
  }

  predicate SameSlot(a: Row, b: Row) {
    Active(a) && Active(b) && a.store == b.store && a.syncType == b.syncType
  }

  predicate OneActivePerSlot(t: Table) {
    forall i, j :: i in t && j in t && SameSlot(t[i], t[j]) ==> i == j
  }

  predicate TableOk(t: Table, now: Instant) {
    && (forall id :: id in t ==> RowOk(t[id], now))
    && OneActivePerSlot(t)
  }

  lemma WrittenKeepsRow(r: Row, w: Worker, op: FencedOp, before: Instant, now: Instant)
    requires RowOk(r, before) && Held(r, w) && before <= now
    ensures RowOk(Written(r, op, now), now)
    ensures Active(Written(r, op, now)) ==> SameSlot(Written(r, op, now), r)
  {
  }

  /** A step that changes rows in place, never reviving one, keeps slots exclusive. */
  lemma SlotsStayExclusive(t: Table, t': Table)
    requires OneActivePerSlot(t) && t'.Keys == t.Keys
    requires forall id :: id in t' && Active(t'[id]) ==> SameSlot(t'[id], t[id])
    ensures OneActivePerSlot(t')
  {
    forall i, j | i in t' && j in t' && SameSlot(t'[i], t'[j]) ensures i == j {
      assert SameSlot(t[i], t[j]);
    }
  }

  lemma FencedKeepsTable(t: Table, w: Worker, id: RowId, op: FencedOp, before: Instant, now: Instant)
    requires TableOk(t, before) && before <= now
    ensures TableOk(Apply(t, Fenced(w, id, op), now), now)
  {
    if id in t && Held(t[id], w) { WrittenKeepsRow(t[id], w, op, before, now); }
    SlotsStayExclusive(t, Apply(t, Fenced(w, id, op), now));
  }

  lemma SweptKeepsRow(r: Row, before: Instant, now: Instant)
    requires RowOk(r, before) && before <= now
    ensures RowOk(Swept(r, now), now)
    ensures Active(Swept(r, now)) ==> SameSlot(Swept(r, now), r)
  {
  }

  lemma SweepKeepsTable(t: Table, before: Instant, now: Instant)
    requires TableOk(t, before) && before <= now
    ensures TableOk(Apply(t, Sweep, now), now)
  {
    var t' := Apply(t, Sweep, now);
    SweepIsRowwise(t, now);
    forall id | id in t'
      ensures RowOk(t'[id], now) && (Active(t'[id]) ==> SameSlot(t'[id], t[id]))
    {
      SweptKeepsRow(t[id], before, now);
    }
    SlotsStayExclusive(t, t');
  }

  lemma StepKeepsTable(t: Table, e: Event, before: Instant, now: Instant)
    requires TableOk(t, before) && before <= now && Enabled(t, e, now)
    ensures TableOk(Apply(t, e, now), now)
  {
    match e
    case Acquire(id, store, syncType, startedAt) =>
    case Claim(w, id) => SlotsStayExclusive(t, Apply(t, e, now));
    case Fenced(w, id, op) => FencedKeepsTable(t, w, id, op, before, now);
    case Sweep => SweepKeepsTable(t, before, now);
  }

  /**
   In every reachable state a (store, type) slot has at most one active row, waiting
   rows have no holder, running rows have one, attempts stay in 0..5, and the ready
   time of a PENDING or RUNNING row is never in the future.
   */
  lemma {:induction false} ReachableTable(tr: Trace)
    requires Run(tr)
    ensures TableOk(Final(tr), Clock(tr))
  {
    if tr != [] {
      ReachableTable(Front(tr));
      StepKeepsTable(Final(Front(tr)), Last(tr).ev, Clock(Front(tr)), Last(tr).now);
    }
  }

  lemma StepFreezesTerminal(t: Table, e: Event, now: Instant, id: RowId)
    requires id in t && Terminal(t[id]) && Enabled(t, e, now)
    ensures id in Apply(t, e, now) && Apply(t, e, now)[id] == t[id]
  {
  }

  /** COMPLETED and FAILED rows never change again, in any column. */
  lemma {:induction false} TerminalRowsFrozen(tr: Trace, i: nat, id: RowId)
    requires Run(tr) && i <= |tr|
    requires id in Final(tr[..i]) && Terminal(Final(tr[..i])[id])
    ensures id in Final(tr) && Final(tr)[id] == Final(tr[..i])[id]
  {
    if i < |tr| {
      assert Front(tr)[..i] == tr[..i];
      TerminalRowsFrozen(Front(tr), i, id);
      StepFreezesTerminal(Final(Front(tr)), Last(tr).ev, Last(tr).now, id);
    } else {
      assert tr[..i] == tr;
    }
  }

  // ─── Lease history ────────────────────────────────────────────────────

  /** Does this step end a lease on `id`: a reaping sweep, or a terminal, release, retry or skip write? */
  predicate EndsLeaseOn(t: Table, e: Event, now: Instant, id: RowId) {
    id in Hit(t, e, now) && (e.Sweep? || (e.Fenced? && EndsLease(e.op)))
  }

  /**
   The position of the claim that currently holds row `id`, read off the history alone:
   the latest claim of the row, provided no later step ended its lease.
   */
  function Epoch(tr: Trace, id: RowId): Option<nat> {
    if tr == [] then None
    else
      var t, e, now := Final(Front(tr)), Last(tr).ev, Last(tr).now;
      if e.Claim? && e.id == id then Some(|tr| - 1)
      else if EndsLeaseOn(t, e, now, id) then None
      else Epoch(Front(tr), id)
  }

  /** `w` made the claim that currently holds row `id`. */
  predicate HoldsByHistory(tr: Trace, w: Worker, id: RowId) {
    Epoch(tr, id).Some? && Epoch(tr, id).value < |tr| && tr[Epoch(tr, id).value].ev == Claim(w, id)
  }

  /** Who passes the fence after a step: the new claimer, nobody when the lease ended, else whoever passed it before. */
  lemma FenceAfterStep(t: Table, e: Event, now: Instant, w: Worker, id: RowId)
    requires Enabled(t, e, now)
    ensures var t' := Apply(t, e, now);
            (id in t' && Held(t'[id], w)) <==>
              if e.Claim? && e.id == id then w == e.worker
              else !EndsLeaseOn(t, e, now, id) && id in t && Held(t[id], w)
  {
    match e
    case Acquire(_, _, _, _) =>
    case Claim(_, _) =>
    case Fenced(_, _, _) =>
    case Sweep =>
      SweepIsRowwise(t, now);
  }

  /** The same for what the history says. */
  lemma HistoryAfterStep(tr: Trace, w: Worker, id: RowId)
    requires tr != []
    ensures var t, e, now := Final(Front(tr)), Last(tr).ev, Last(tr).now;
            HoldsByHistory(tr, w, id) <==>
              if e.Claim? && e.id == id then w == e.worker
              else !EndsLeaseOn(t, e, now, id) && HoldsByHistory(Front(tr), w, id)
  {
    EpochIsAClaim(Front(tr), id);
  }

  /** The claimer that the history names is exactly who passes the fence. */
  lemma {:induction false} HolderIsLatestClaimer(tr: Trace, w: Worker, id: RowId)
    requires Run(tr)
    ensures (id in Final(tr) && Held(Final(tr)[id], w)) <==> HoldsByHistory(tr, w, id)
  {
    if tr != [] {
      HolderIsLatestClaimer(Front(tr), w, id);
      FenceAfterStep(Final(Front(tr)), Last(tr).ev, Last(tr).now, w, id);
      HistoryAfterStep(tr, w, id);
    }
  }

  lemma {:induction false} EpochIsAClaim(tr: Trace, id: RowId)
    ensures Epoch(tr, id).Some? ==>
              && Epoch(tr, id).value < |tr|
              && tr[Epoch(tr, id).value].ev.Claim? && tr[Epoch(tr, id).value].ev.id == id
  {
    if tr != [] { EpochIsAClaim(Front(tr), id); }
  }

  /**
   A fenced write by `w` takes effect exactly when the latest claim on that row is by
   `w` and no sweep, release, retry, skip or terminal step followed it; otherwise the
   whole table is unchanged.
   */
  lemma FencedWriteNeedsTheLease(tr: Trace, w: Worker, id: RowId, op: FencedOp, now: Instant)
    requires Run(tr)
    ensures id in Hit(Final(tr), Fenced(w, id, op), now) <==> HoldsByHistory(tr, w, id)
    ensures id !in Hit(Final(tr), Fenced(w, id, op), now) ==> Apply(Final(tr), Fenced(w, id, op), now) == Final(tr)
    ensures forall j :: j in Final(tr) && j != id ==>
                        j in Apply(Final(tr), Fenced(w, id, op), now)
                        && Apply(Final(tr), Fenced(w, id, op), now)[j] == Final(tr)[j]
  {
    HolderIsLatestClaimer(tr, w, id);
  }

  /**
   The fence compares worker ids, not claims. A task that claimed row `id` at position
   `c` has its writes accepted although it lost that claim exactly when the same worker
   has meanwhile claimed the row again and still holds it.
   */
  lemma StaleTaskPassesIffSameWorkerReclaimed(tr: Trace, c: nat, w: Worker, id: RowId, op: FencedOp, now: Instant)
    requires Run(tr) && c < |tr| && tr[c].ev == Claim(w, id)
    ensures (id in Hit(Final(tr), Fenced(w, id, op), now) && Epoch(tr, id) != Some(c)) <==>
            (exists d: nat :: c < d < |tr| && tr[d].ev == Claim(w, id) && Epoch(tr, id) == Some(d))
  {
    FencedWriteNeedsTheLease(tr, w, id, op, now);
    EpochIsAClaim(tr, id);
    EpochIsLatest(tr, c, id);
  }

  lemma {:induction false} EpochIsLatest(tr: Trace, c: nat, id: RowId)
    requires c < |tr| && tr[c].ev.Claim? && tr[c].ev.id == id
    ensures Epoch(tr, id).Some? ==> c <= Epoch(tr, id).value
  {
    if c < |tr| - 1 { EpochIsLatest(Front(tr), c, id); }
  }

  /** Such a run exists: worker 7 is reaped, claims its own row again, and its first task still writes. */
  lemma StaleTaskCanWrite() returns (tr: Trace)
    ensures Run(tr) && |tr| == 4 && tr[1].ev == Claim(7, 0)
    ensures Epoch(tr, 0) == Some(3)
    ensures 0 in Hit(Final(tr), Fenced(7, 0, Tick(Page(1), 100)), 90_002)
  {
    var acquire, claim := Timed(0, Acquire(0, 1, PRODUCTS, 0)), Timed(0, Claim(7, 0));
    var sweep, again := Timed(90_001, Sweep), Timed(90_001, Claim(7, 0));
    var row := Claimed(NewRow(1, PRODUCTS, 0), 7, 0);
    ExtendRun([], acquire.ev, 0);
    assert [] + [acquire] == [acquire];
    ClaimAlone(NewRow(1, PRODUCTS, 0), 7, 0);
    ExtendRun([acquire], claim.ev, 0);
    assert [acquire] + [claim] == [acquire, claim];
    ExtendRun([acquire, claim], Sweep, 90_001);
    SweepAlone(row, 90_001);
    assert [acquire, claim] + [sweep] == [acquire, claim, sweep];
    ClaimAlone(Requeued(row), 7, 90_001);
    ExtendRun([acquire, claim, sweep], again.ev, 90_001);
    tr := [acquire, claim, sweep] + [again];
  }

  // ─── The sweep ────────────────────────────────────────────────────────

  /** The two bulk updates touch disjoint rows, so their order is irrelevant. */
  lemma SweepUpdatesCommute(t: Table, now: Instant)
    ensures RequeueStale(TerminateExhausted(t, now), now) == TerminateExhausted(RequeueStale(t, now), now)
  {
    var a, b := RequeueStale(TerminateExhausted(t, now), now), TerminateExhausted(RequeueStale(t, now), now);
    assert forall id :: id in t ==> a[id] == b[id];
  }

  /** A swept row is not reaped again, and still waiting means claimable once its ready time has come. */
  lemma SweptIsNotStuck(r: Row, now: Instant)
    requires RowOk(Swept(r, now), now)
    ensures var s := Swept(r, now);
            && !Stale(s, now) && !ToTerminate(s, now) && !ToRequeue(s, now)
            && (Waiting(s) ==> Claimable(s, now + s.startedAt + s.nextAttemptAt.GetOr(0)))
  {
  }

  lemma SecondSweepIsIdle(t: Table, now: Instant)
    requires forall id :: id in t ==> !ToTerminate(t[id], now) && !ToRequeue(t[id], now)
    ensures Hit(t, Sweep, now) == {} && Apply(t, Sweep, now) == t
  {
    SweepIsRowwise(t, now);
  }

  /**
   After a sweep no stale RUNNING row and no waiting row that can never be claimed again
   remains; a second sweep at the same time matches nothing and changes nothing.
   */
  lemma SweepLeavesNothingStuck(tr: Trace, now: Instant)
    requires Run(tr) && Clock(tr) <= now
    ensures var t := Apply(Final(tr), Sweep, now);
            && (forall id :: id in t ==> !Stale(t[id], now))
            && (forall id :: id in t && Waiting(t[id]) ==>
                  exists later :: now <= later && Claimable(t[id], later))
            && Hit(t, Sweep, now) == {} && Apply(t, Sweep, now) == t
  {
    var t := Apply(Final(tr), Sweep, now);
    ReachableTable(tr);
    SweepKeepsTable(Final(tr), Clock(tr), now);
    SweepIsRowwise(Final(tr), now);
    forall id | id in t
      ensures !Stale(t[id], now) && !ToTerminate(t[id], now) && !ToRequeue(t[id], now)
      ensures Waiting(t[id]) ==> exists later :: now <= later && Claimable(t[id], later)
    {
      SweptIsNotStuck(Final(tr)[id], now);
    }
    SecondSweepIsIdle(t, now);
  }

  // ─── Bounded overtaking ───────────────────────────────────────────────

  predicate ClaimsRow(e: Event, id: RowId) { e.Claim? && e.id == id }

  predicate BacksOff(e: Event, id: RowId) { e.Fenced? && e.id == id && e.op.MarkRetryable? }

  predicate SkipsPageOf(e: Event, id: RowId) { e.Fenced? && e.id == id && e.op.SkipPage? }

  lemma StepLeavesWaiting(t: Table, e: Event, before: Instant, now: Instant, r: RowId)
    requires Enabled(t, e, now) && before <= now && !ClaimsRow(e, r)
    requires r in t && Claimable(t[r], before)
    ensures r in Apply(t, e, now) && Apply(t, e, now)[r] == t[r] && Claimable(t[r], now)
  {
    SweepIsRowwise(t, now);
  }

  /** A claimable row that is not claimed stays exactly as it is, and stays claimable. */
  lemma {:induction false} WaitsUntouched(tr: Trace, i: nat, r: RowId)
    requires Run(tr) && i <= |tr|
    requires r in Final(tr[..i]) && Claimable(Final(tr[..i])[r], Clock(tr[..i]))
    requires forall k :: i <= k < |tr| ==> !ClaimsRow(tr[k].ev, r)
    ensures r in Final(tr) && Final(tr)[r] == Final(tr[..i])[r] && Claimable(Final(tr)[r], Clock(tr))
  {
    if i < |tr| {
      assert Front(tr)[..i] == tr[..i];
      WaitsUntouched(Front(tr), i, r);
      StepLeavesWaiting(Final(Front(tr)), Last(tr).ev, Clock(Front(tr)), Last(tr).now, r);
    } else {
      assert tr[..i] == tr;
    }
  }

  predicate ReadyAfter(t: Table, x: RowId, t0: Instant) {
    x in t && t[x].nextAttemptAt.Some? && t[x].nextAttemptAt.value > t0
  }

  lemma StepKeepsBackoff(t: Table, e: Event, now: Instant, x: RowId, t0: Instant)
    requires Enabled(t, e, now) && t0 <= now && !SkipsPageOf(e, x)
    requires ReadyAfter(t, x, t0) || (BacksOff(e, x) && x in Hit(t, e, now))
    ensures ReadyAfter(Apply(t, e, now), x, t0)
  {
    if BacksOff(e, x) { BackoffPositive(e.op.attempts); }
  }

  /** A row sent to backoff keeps a ready time after `t0` until a page skip clears it. */
  lemma {:induction false} BackoffKeepsKeyLate(tr: Trace, j: nat, x: RowId, t0: Instant)
    requires Run(tr) && j < |tr| && t0 <= tr[j].now
    requires BacksOff(tr[j].ev, x) && x in Hit(Final(tr[..j]), tr[j].ev, tr[j].now)
    requires forall k :: j < k < |tr| ==> !SkipsPageOf(tr[k].ev, x)
    ensures ReadyAfter(Final(tr), x, t0)
  {
    ClockMonotone(tr, j);
    if j == |tr| - 1 {
      assert tr[..j] == Front(tr);
    } else {
      assert Front(tr)[..j] == tr[..j] && Front(tr)[j] == tr[j];
      BackoffKeepsKeyLate(Front(tr), j, x, t0);
    }
    StepKeepsBackoff(Final(Front(tr)), Last(tr).ev, Last(tr).now, x, t0);
  }

  lemma BackoffPositive(a: nat)
    ensures 0 < BackoffMs(a) <= BACKOFF_CAP_MS
  {
    if a > 0 { Pow2Positive(a - 1); }
  }

  lemma {:induction false} Pow2Positive(n: nat)
    ensures Pow2(n) >= 1
  {
    if n > 0 { Pow2Positive(n - 1); }
  }

  lemma {:induction false} ClockMonotone(tr: Trace, i: nat)
    requires Run(tr) && i < |tr|
    ensures tr[i].now <= Clock(tr)
  {
    if i < |tr| - 1 { ClockMonotone(Front(tr), i); }
  }

  lemma ClaimableKeyIsPast(r: Row, now: Instant)
    requires RowOk(r, now) && Claimable(r, now)
    ensures ReadyKey(r) <= now
  {
  }

  lemma ClockBefore(tr: Trace, i: nat, j: nat)
    requires Run(tr) && i <= j < |tr|
    ensures Run(tr[..i]) && Clock(tr[..i]) <= tr[j].now
  {
    PrefixRun(tr, i);
    PrefixRun(tr, j + 1);
    assert tr[..j + 1][..i] == tr[..i];
    PrefixRun(tr[..j + 1], i);
  }

  /** The two ready times compared just before `x` would be claimed. */
  lemma WaitingRowIsAhead(tr: Trace, i: nat, j: nat, r: RowId, x: RowId)
    requires Run(tr) && i <= j < |tr|
    requires r in Final(tr[..i]) && Claimable(Final(tr[..i])[r], Clock(tr[..i]))
    requires BacksOff(tr[j].ev, x) && x in Hit(Final(tr[..j]), tr[j].ev, tr[j].now)
    requires forall c :: i <= c < |tr| ==> !ClaimsRow(tr[c].ev, r)
    requires forall s :: j < s < |tr| ==> !SkipsPageOf(tr[s].ev, x)
    ensures r in Final(tr) && x in Final(tr) && Claimable(Final(tr)[r], Clock(tr))
    ensures ReadyKey(Final(tr)[r]) < ReadyKey(Final(tr)[x])
  {
    WaitsUntouched(tr, i, r);
    ClockBefore(tr, i, j);
    ReachableTable(tr[..i]);
    ClaimableKeyIsPast(Final(tr[..i])[r], Clock(tr[..i]));
    BackoffKeepsKeyLate(tr, j, x, Clock(tr[..i]));
  }

  /** Every claim takes a minimal ready time among the rows claimable just before it. */
  lemma ClaimTakesEarliest(tr: Trace, k: nat, other: RowId)
    requires Run(tr) && k < |tr| && tr[k].ev.Claim?
    requires other in Final(tr[..k]) && Claimable(Final(tr[..k])[other], Clock(tr[..k]))
    ensures tr[k].ev.id in Final(tr[..k])
    ensures ReadyKey(Final(tr[..k])[tr[k].ev.id]) <= ReadyKey(Final(tr[..k])[other])
  {
    PrefixRun(tr, k + 1);
    StepAt(tr, k);
  }

  /**
   Bounded overtaking. Once row `r` is claimable (at position `i`), a row `x` sent to
   backoff afterwards (at `j`) is not claimed (at `k`) before `r` is, unless a page skip
   of `x` cleared its backoff in between.
   */
  lemma NoOvertaking(tr: Trace, i: nat, j: nat, k: nat, r: RowId, x: RowId)
    requires Run(tr) && i <= j < k < |tr|
    requires r in Final(tr[..i]) && Claimable(Final(tr[..i])[r], Clock(tr[..i]))
    requires BacksOff(tr[j].ev, x) && x in Hit(Final(tr[..j]), tr[j].ev, tr[j].now)
    requires ClaimsRow(tr[k].ev, x)
    ensures (exists c :: i <= c < k && ClaimsRow(tr[c].ev, r)) || (exists s :: j < s < k && SkipsPageOf(tr[s].ev, x))
  {
    if (forall c :: i <= c < k ==> !ClaimsRow(tr[c].ev, r)) && (forall s :: j < s < k ==> !SkipsPageOf(tr[s].ev, x)) {
      var pre := tr[..k];
      assert pre[..i] == tr[..i] && pre[..j] == tr[..j] && pre[j] == tr[j];
      assert Run(pre) by { PrefixRun(tr, k); }
      assert forall c :: 0 <= c < k ==> pre[c] == tr[c];
      WaitingRowIsAhead(pre, i, j, r, x);
      ClaimTakesEarliest(tr, k, r);
    }
  }
}
