/** Row constraints and fencing: what holds of every row in every reachable state. */
module DeletionRows {
  import opened DeletionKeys
  import opened DeletionTables
  import opened DeletionProtocol

  /** The CHECK constraints on a request row. */
  predicate RequestChecks(r: Request) {
    && r.cycle >= 1
    && (r.claim.None? <==> r.lease.None?)
    && (r.state == Processing <==> r.claim.Some?)
    && (r.state == Completed <==> r.completedAt.Some?)
    && (r.state == Failed <==> r.failedAt.Some?)
  }

  /** The CHECK constraints on an outbox row. */
  predicate OutboxChecks(o: Outbox) {
    && (o.lease.None? <==> o.leaseExpires.None?)
    && (o.deliveredAt.None? || o.lease.None?)
  }

  /** A current claim is the one its worker was handed, attempt count included. */
  predicate ClaimRecorded(w: World, id: Uuid)
    requires id in w.t.requests
  {
    var r := w.t.requests[id];
    r.claim.Some? ==> r.claim.value in w.h.claims && w.h.claims[r.claim.value] == Claim(id, r.attempts, r.claim.value)
  }

  /** A leased outbox row was due when its lease began. */
  predicate LeaseRecorded(w: World, id: Uuid)
    requires id in w.t.outbox
  {
    var o := w.t.outbox[id];
    o.lease.Some? ==>
      && o.lease.value in w.h.tickets && w.h.tickets[o.lease.value].deletion == id
      && o.nextAttempt <= w.h.tickets[o.lease.value].leasedAt <= w.now
  }

  /** The rows of one deletion: a request exists exactly when the agreement is tombstoned, an outbox
      row exactly when the request is not completed. */
  predicate RowsOf(w: World, id: Uuid) {
    && (id in w.t.requests <==> id in w.t.agreements && w.t.agreements[id].deletionRequestedAt.Some?)
    && (id in w.t.outbox <==> id in w.t.requests && w.t.requests[id].state != Completed)
    && (id in w.t.requests ==> RequestChecks(w.t.requests[id]) && ClaimRecorded(w, id))
    && (id in w.t.outbox ==> OutboxChecks(w.t.outbox[id]) && LeaseRecorded(w, id))
  }

  /** Whatever is handed out, leased, sent or queued carries an issued identifier. */
  predicate IssuedAs(w: World, k: Uuid) {
    && (k in w.h.claims ==> k in w.h.issued && w.h.claims[k].token == k)
    && (k in w.h.tickets ==> k in w.h.issued)
    && (k in w.h.sent ==> k in w.h.tickets && w.h.sent[k] in w.h.issued)
    && (k in w.queue ==> k in w.h.issued && w.queue[k].sentAt <= w.now)
    && (k in w.h.attempted ==> k in w.h.issued)
  }

  ghost predicate Rows(w: World) {
    && (forall id :: RowsOf(w, id))
    && (forall k :: IssuedAs(w, k))
  }

  lemma RowsFramed(w: World, w': World)
    requires Rows(w) && Outside(w, w')
    ensures Rows(w')
  {
    forall i ensures RowsOf(w', i) { assert RowsOf(w, i) && (Tombstoned(w'.t, i) <==> Tombstoned(w.t, i)); }
    forall k ensures IssuedAs(w', k) { assert IssuedAs(w, k); }
  }

  lemma RowsAfterAccept(w: World, id: Uuid, held: set<Key>, inventory: map<Uuid, Object>, now: Time)
    requires Rows(w) && Live(w.t, id)
    ensures Rows(AcceptApplied(w, id, held, inventory, now))
  {
    var w' := AcceptApplied(w, id, held, inventory, now);
    forall i ensures RowsOf(w', i) { assert RowsOf(w, i); }
    forall k ensures IssuedAs(w', k) { assert IssuedAs(w, k); }
  }

  lemma RowsAfterRedrive(w: World, id: Uuid, now: Time)
    requires Rows(w) && id in w.t.requests
    ensures Rows(Redriven(w, id, now))
  {
    var w' := Redriven(w, id, now);
    forall i ensures RowsOf(w', i) { assert RowsOf(w, i); }
    forall k ensures IssuedAs(w', k) { assert IssuedAs(w, k); }
  }

  lemma RowsAfterLate(w: World, id: Uuid, item: Uuid, late: Object, dropped: set<Uuid>, now: Time)
    requires Rows(w) && id in w.t.requests
    ensures Rows(LateApplied(w, id, item, late, dropped, now))
  {
    var w' := LateApplied(w, id, item, late, dropped, now);
    forall i ensures RowsOf(w', i) { assert RowsOf(w, i); }
    forall k ensures IssuedAs(w', k) { assert IssuedAs(w, k); }
  }

  lemma RowsAfterGrant(w: World, id: Uuid, m: Uuid, token: Uuid, now: Time)
    requires Rows(w) && m in w.queue && token !in w.h.issued && id in w.t.requests && Claimable(w.t.requests[id], now)
    ensures Rows(Granted(w, id, m, token, now))
  {
    var w' := Granted(w, id, m, token, now);
    assert IssuedAs(w, token) && IssuedAs(w, m);
    forall i ensures RowsOf(w', i) { assert RowsOf(w, i); }
    forall k ensures IssuedAs(w', k) { assert IssuedAs(w, k); }
  }

  lemma RowsAfterClaim(w: World, m: Uuid, token: Uuid, now: Time)
    requires Rows(w) && m in w.queue && token !in w.h.issued
    ensures Rows(Claimed(w, m, token, now))
  {
    var id := w.queue[m].deletion;
    if id in w.t.requests && Claimable(w.t.requests[id], now) {
      RowsAfterGrant(w, id, m, token, now);
    } else {
      var w' := Refused(w, m, token);
      assert IssuedAs(w, m);
      forall i ensures RowsOf(w', i) { assert RowsOf(w, i); }
      forall k ensures IssuedAs(w', k) { assert IssuedAs(w, k); }
    }
  }

  lemma RowsAfterClose(w: World, token: Uuid, now: Time)
    requires Rows(w) && Open(w, token)
    ensures Rows(SourceClosed(w, token, now))
  {
    var w' := SourceClosed(w, token, now);
    forall i ensures RowsOf(w', i) { assert RowsOf(w, i); }
    forall k ensures IssuedAs(w', k) { assert IssuedAs(w, k); }
  }

  lemma RowsAfterMark(w: World, token: Uuid, item: Uuid, now: Time)
    requires Rows(w) && token in w.h.claims
    ensures Rows(Closed(w, MarkDeletedTx(w.t, w.h.claims[token], item, now)))
  {
    var w' := Closed(w, MarkDeletedTx(w.t, w.h.claims[token], item, now));
    forall i ensures RowsOf(w', i) { assert RowsOf(w, i); }
    forall k ensures IssuedAs(w', k) { assert IssuedAs(w, k); }
  }

  lemma RowsAfterRetry(w: World, token: Uuid, failure: FailureCategory, next: Time)
    requires Rows(w) && token in w.h.claims
    ensures Rows(w.(t := RetryTx(w.t, w.h.claims[token], failure, next)))
  {
    var w' := w.(t := RetryTx(w.t, w.h.claims[token], failure, next));
    forall i ensures RowsOf(w', i) { assert RowsOf(w, i); }
    forall k ensures IssuedAs(w', k) { assert IssuedAs(w, k); }
  }

  lemma RowsAfterFail(w: World, token: Uuid, failure: FailureCategory, now: Time)
    requires Rows(w) && token in w.h.claims
    ensures Rows(w.(t := FailTx(w.t, w.h.claims[token], failure, now)))
  {
    var w' := w.(t := FailTx(w.t, w.h.claims[token], failure, now));
    forall i ensures RowsOf(w', i) { assert RowsOf(w, i); }
    forall k ensures IssuedAs(w', k) { assert IssuedAs(w, k); }
  }

  lemma RowsAfterComplete(w: World, token: Uuid, now: Time)
    requires Rows(w) && token in w.h.claims
    ensures Rows(w.(t := CompleteTx(w.t, w.h.claims[token], now)))
  {
    var w' := w.(t := CompleteTx(w.t, w.h.claims[token], now));
    forall i ensures RowsOf(w', i) { assert RowsOf(w, i); }
    forall k ensures IssuedAs(w', k) { assert IssuedAs(w, k); }
  }

  lemma RowsAfterRecover(w: World, now: Time, locked: set<Uuid>)
    requires Rows(w) && now <= w.now
    ensures Rows(Recovered(w, now, locked))
  {
    var w' := Recovered(w, now, locked);
    forall i ensures RowsOf(w', i) { assert RowsOf(w, i); }
    forall k ensures IssuedAs(w', k) { assert IssuedAs(w, k); }
  }

  lemma RowsAfterSweep(w: World, s: SweeperStep)
    requires Rows(w) && SweeperEnabled(w, s) && !s.Recover?
    ensures Rows(SweeperApply(w, s))
  {
    var w' := SweeperApply(w, s);
    forall i ensures RowsOf(w', i) {
      assert RowsOf(w, i) && (s.LeaseOutbox? ==> IssuedAs(w, s.ticket));
    }
    forall k ensures IssuedAs(w', k) { assert IssuedAs(w, k); }
  }

  lemma RowsKeptByEnv(tenant: Tenant, w: World, s: EnvStep)
    requires Rows(w) && EnvEnabled(tenant, w, s)
    ensures Rows(EnvApply(tenant, w, s))
  {
    if !Enters(s) {
      EnvIsOutside(tenant, w, s);
      RowsFramed(w, EnvApply(tenant, w, s));
    } else if s.Accept? {
      RowsAfterAccept(w, s.id, HeldKeys(w, s.id, s.read), s.inventory, s.now);
    } else if s.Redrive? {
      RowsAfterRedrive(w, s.id, s.now);
    } else {
      RowsAfterLate(w, s.id, s.item, s.late, s.dropped, s.now);
    }
  }

  lemma RowsKeptByWorker(tenant: Tenant, w: World, s: WorkerStep)
    requires Rows(w) && WorkerEnabled(tenant, w, s)
    ensures Rows(WorkerApply(tenant, w, s))
  {
    match s
    case TakeClaim(m, token, now) => RowsAfterClaim(w, m, token, now);
    case CloseSource(token, now) => RowsAfterClose(w, token, now);
    case MarkDeleted(token, item, now) => RowsAfterMark(w, token, item, now);
    case Retry(token, failure, next) => RowsAfterRetry(w, token, failure, next);
    case Fail(token, failure, now) => RowsAfterFail(w, token, failure, now);
    case Complete(token, now) => RowsAfterComplete(w, token, now);
    case _ =>
      var w' := WorkerApply(tenant, w, s);
      forall i ensures RowsOf(w', i) { assert RowsOf(w, i); }
      forall k ensures IssuedAs(w', k) { assert IssuedAs(w, k); }
  }

  lemma RowsKept(tenant: Tenant, w: World, s: Step)
    requires Rows(w) && Enabled(tenant, w, s)
    ensures Rows(Apply(tenant, w, s))
  {
    match s
    case Env(e) => RowsKeptByEnv(tenant, w, e);
    case Worker(x) => RowsKeptByWorker(tenant, w, x);
    case Sweeper(x) => if x.Recover? { RowsAfterRecover(w, x.now, x.locked); } else { RowsAfterSweep(w, x); }
  }

}
