/** Attempts and audit: the retry budget holds up to setbacks, and every retry cycle ends in exactly
    one terminal event. Then fencing: a lost claim is powerless for ever. */
module DeletionLedger {
  import opened DeletionKeys
  import opened DeletionTables
  import opened DeletionProtocol
  import opened DeletionRows

  /** Five claims a cycle, plus one for every expired lease or late artifact in it. */
  predicate Budgeted(w: World, id: Uuid) {
    id in w.t.requests ==>
      && w.t.requests[id].attempts <= MAX_ATTEMPTS + Setbacks(w.h, id)
      && (Waiting(w.t.requests[id]) ==> w.t.requests[id].attempts < MAX_ATTEMPTS + Setbacks(w.h, id))
  }

  function Count(t: Tables, id: Uuid, kind: AuditKind, cycle: nat): nat {
    t.audits[AuditEvent(id, kind, cycle)]
  }

  function One(b: bool): nat {
    if b then 1 else 0
  }

  /** What the audit table holds for one retry cycle of one deletion. */
  predicate CycleAudited(t: Tables, id: Uuid, cycle: nat) {
    var failed, completed := Count(t, id, FailedEvent, cycle), Count(t, id, CompletedEvent, cycle);
    if id !in t.requests || cycle == 0 || cycle > t.requests[id].cycle then
      failed == completed == 0 && Count(t, id, RequestedEvent, cycle) == 0 && Count(t, id, RedrivenEvent, cycle) == 0
    else
      && Count(t, id, RequestedEvent, cycle) == One(cycle == 1) && Count(t, id, RedrivenEvent, cycle) <= 1
      && (cycle < t.requests[id].cycle ==> failed + completed == 1)
      && (cycle == t.requests[id].cycle ==>
            failed == One(t.requests[id].state == Failed) && completed == One(t.requests[id].state == Completed))
  }

  ghost predicate Ledger(w: World) {
    && (forall id :: Budgeted(w, id))
    && (forall id, cycle: nat :: CycleAudited(w.t, id, cycle))
  }

  lemma LedgerFramed(w: World, w': World)
    requires Ledger(w) && w'.t.requests == w.t.requests && w'.t.audits == w.t.audits && w'.h.setbacks == w.h.setbacks
    ensures Ledger(w')
  {
    forall i ensures Budgeted(w', i) { assert Budgeted(w, i); }
    forall i, c: nat ensures CycleAudited(w'.t, i, c) { assert CycleAudited(w.t, i, c); }
  }

  lemma LedgerAfterAccept(w: World, id: Uuid, held: set<Key>, inventory: map<Uuid, Object>, now: Time)
    requires Rows(w) && Ledger(w) && Live(w.t, id)
    ensures Ledger(AcceptApplied(w, id, held, inventory, now))
  {
    var w' := AcceptApplied(w, id, held, inventory, now);
    forall i ensures Budgeted(w', i) { assert Budgeted(w, i) && RowsOf(w, i); }
    forall i, c: nat ensures CycleAudited(w'.t, i, c) { assert CycleAudited(w.t, i, c) && RowsOf(w, i); }
  }

  lemma LedgerAfterRedrive(w: World, id: Uuid, now: Time)
    requires Rows(w) && Ledger(w) && id in w.t.requests
    ensures Ledger(Redriven(w, id, now))
  {
    var w' := Redriven(w, id, now);
    forall i ensures Budgeted(w', i) { assert Budgeted(w, i); }
    forall i, c: nat ensures CycleAudited(w'.t, i, c) {
      assert RowsOf(w, id);
      CycleAfterRedrive(w.t, id, now, i, c);
    }
  }

  lemma CycleAfterRedrive(t: Tables, id: Uuid, now: Time, i: Uuid, c: nat)
    requires id in t.requests && t.requests[id].cycle >= 1 && forall j, d: nat :: CycleAudited(t, j, d)
    ensures CycleAudited(RedriveTx(t, id, now), i, c)
  {
    assert CycleAudited(t, i, c);
  }

  lemma LedgerAfterLate(w: World, id: Uuid, item: Uuid, late: Object, dropped: set<Uuid>, now: Time)
    requires Rows(w) && Ledger(w) && id in w.t.requests
    ensures Ledger(LateApplied(w, id, item, late, dropped, now))
  {
    var w' := LateApplied(w, id, item, late, dropped, now);
    forall i ensures Budgeted(w', i) { assert Budgeted(w, i) && RowsOf(w, i); }
    forall i, c: nat ensures CycleAudited(w'.t, i, c) { assert CycleAudited(w.t, i, c) && RowsOf(w, i); }
  }

  lemma LedgerAfterGrant(w: World, id: Uuid, m: Uuid, token: Uuid, now: Time)
    requires Rows(w) && Ledger(w) && m in w.queue && id in w.t.requests && Claimable(w.t.requests[id], now)
    ensures Ledger(Granted(w, id, m, token, now))
  {
    var w' := Granted(w, id, m, token, now);
    forall i ensures Budgeted(w', i) { assert Budgeted(w, i) && RowsOf(w, i); }
    forall i, c: nat ensures CycleAudited(w'.t, i, c) { assert CycleAudited(w.t, i, c) && RowsOf(w, i); }
  }

  lemma LedgerAfterClose(w: World, token: Uuid, now: Time)
    requires Rows(w) && Ledger(w) && Open(w, token)
    ensures Ledger(SourceClosed(w, token, now))
  {
    var w' := SourceClosed(w, token, now);
    forall i ensures Budgeted(w', i) { assert Budgeted(w, i) && RowsOf(w, i); }
    forall i, c: nat ensures CycleAudited(w'.t, i, c) { assert CycleAudited(w.t, i, c) && RowsOf(w, i); }
  }

  lemma LedgerAfterMark(w: World, token: Uuid, item: Uuid, now: Time)
    requires Rows(w) && Ledger(w) && token in w.h.claims
    ensures Ledger(Closed(w, MarkDeletedTx(w.t, w.h.claims[token], item, now)))
  {
    var w' := Closed(w, MarkDeletedTx(w.t, w.h.claims[token], item, now));
    forall i ensures Budgeted(w', i) { assert Budgeted(w, i) && RowsOf(w, i); }
    forall i, c: nat ensures CycleAudited(w'.t, i, c) { assert CycleAudited(w.t, i, c) && RowsOf(w, i); }
  }

  lemma LedgerAfterRetry(w: World, token: Uuid, failure: FailureCategory, next: Time)
    requires Rows(w) && Ledger(w) && token in w.h.claims && MayRetry(w.h.claims[token].attempts)
    ensures Ledger(w.(t := RetryTx(w.t, w.h.claims[token], failure, next)))
  {
    assert IssuedAs(w, token);
    var w' := w.(t := RetryTx(w.t, w.h.claims[token], failure, next));
    forall i ensures Budgeted(w', i) { assert Budgeted(w, i) && RowsOf(w, i); }
    forall i, c: nat ensures CycleAudited(w'.t, i, c) { assert CycleAudited(w.t, i, c) && RowsOf(w, i); }
  }

  lemma LedgerAfterFail(w: World, token: Uuid, failure: FailureCategory, now: Time)
    requires Rows(w) && Ledger(w) && token in w.h.claims
    ensures Ledger(w.(t := FailTx(w.t, w.h.claims[token], failure, now)))
  {
    var w' := w.(t := FailTx(w.t, w.h.claims[token], failure, now));
    forall i ensures Budgeted(w', i) { assert Budgeted(w, i) && RowsOf(w, i); }
    forall i, c: nat ensures CycleAudited(w'.t, i, c) { assert CycleAudited(w.t, i, c) && RowsOf(w, i); }
  }

  lemma LedgerAfterComplete(w: World, token: Uuid, now: Time)
    requires Rows(w) && Ledger(w) && token in w.h.claims
    ensures Ledger(w.(t := CompleteTx(w.t, w.h.claims[token], now)))
  {
    var w' := w.(t := CompleteTx(w.t, w.h.claims[token], now));
    forall i ensures Budgeted(w', i) { assert Budgeted(w, i) && RowsOf(w, i); }
    forall i, c: nat ensures CycleAudited(w'.t, i, c) { assert CycleAudited(w.t, i, c) && RowsOf(w, i); }
  }

  lemma LedgerAfterRecover(w: World, now: Time, locked: set<Uuid>)
    requires Rows(w) && Ledger(w) && now <= w.now
    ensures Ledger(Recovered(w, now, locked))
  {
    var w' := Recovered(w, now, locked);
    forall i ensures Budgeted(w', i) { assert Budgeted(w, i) && RowsOf(w, i); }
    forall i, c: nat ensures CycleAudited(w'.t, i, c) { assert CycleAudited(w.t, i, c) && RowsOf(w, i); }
  }

  lemma LedgerKeptByEnv(tenant: Tenant, w: World, s: EnvStep)
    requires Rows(w) && Ledger(w) && EnvEnabled(tenant, w, s)
    ensures Ledger(EnvApply(tenant, w, s))
  {
    if !Enters(s) {
      EnvIsOutside(tenant, w, s);
      LedgerFramed(w, EnvApply(tenant, w, s));
    } else if s.Accept? {
      LedgerAfterAccept(w, s.id, HeldKeys(w, s.id, s.read), s.inventory, s.now);
    } else if s.Redrive? {
      LedgerAfterRedrive(w, s.id, s.now);
    } else {
      LedgerAfterLate(w, s.id, s.item, s.late, s.dropped, s.now);
    }
  }

  lemma LedgerKeptByWorker(tenant: Tenant, w: World, s: WorkerStep)
    requires Rows(w) && Ledger(w) && WorkerEnabled(tenant, w, s)
    ensures Ledger(WorkerApply(tenant, w, s))
  {
    match s
    case TakeClaim(m, token, now) =>
      var id := w.queue[m].deletion;
      if id in w.t.requests && Claimable(w.t.requests[id], now) {
        LedgerAfterGrant(w, id, m, token, now);
      } else {
        LedgerFramed(w, Refused(w, m, token));
      }
    case CloseSource(token, now) => LedgerAfterClose(w, token, now);
    case MarkDeleted(token, item, now) => LedgerAfterMark(w, token, item, now);
    case Retry(token, failure, next) => LedgerAfterRetry(w, token, failure, next);
    case Fail(token, failure, now) => LedgerAfterFail(w, token, failure, now);
    case Complete(token, now) => LedgerAfterComplete(w, token, now);
    case _ => LedgerFramed(w, WorkerApply(tenant, w, s));
  }

  lemma LedgerKept(tenant: Tenant, w: World, s: Step)
    requires Rows(w) && Ledger(w) && Enabled(tenant, w, s)
    ensures Ledger(Apply(tenant, w, s))
  {
    match s
    case Env(e) => LedgerKeptByEnv(tenant, w, e);
    case Worker(x) => LedgerKeptByWorker(tenant, w, x);
    case Sweeper(x) =>
      if x.Recover? { LedgerAfterRecover(w, x.now, x.locked); } else { LedgerFramed(w, SweeperApply(w, x)); }
  }

  /** Completed and failed absorb every worker and sweeper step: only an operator's redrive or a late
      artifact leaves them. */
  lemma TerminalAbsorbsWorkers(tenant: Tenant, w: World, s: WorkerStep, id: Uuid)
    requires Rows(w) && WorkerEnabled(tenant, w, s) && id in w.t.requests && Terminal(w.t.requests[id])
    ensures id in WorkerApply(tenant, w, s).t.requests && WorkerApply(tenant, w, s).t.requests[id] == w.t.requests[id]
  {
    WorkerTablesAre(tenant, w, s);
    TablesAbsorb(w, s, id);
  }

  lemma TablesAbsorb(w: World, s: WorkerStep, id: Uuid)
    requires Rows(w) && id in w.t.requests && Terminal(w.t.requests[id])
    ensures id in WorkerTables(w, s).requests && WorkerTables(w, s).requests[id] == w.t.requests[id]
  {
    assert RowsOf(w, id);
  }

  lemma TerminalAbsorbsSweepers(w: World, s: SweeperStep, id: Uuid)
    requires SweeperEnabled(w, s) && id in w.t.requests && Terminal(w.t.requests[id])
    ensures id in SweeperApply(w, s).t.requests && SweeperApply(w, s).t.requests[id] == w.t.requests[id]
  {
  }

  /** A token that was handed out and is no longer any request's claim. */
  predicate Lost(w: World, token: Uuid) {
    token in w.h.claims && !Holds(w.t, w.h.claims[token].deletion, token)
  }

  /** Whether a worker acts with this token. */
  predicate ActsWith(s: WorkerStep, token: Uuid) {
    match s
    case CheckSource(k, _) => k == token
    case CloseSource(k, _) => k == token
    case CloseSourceTorn(k) => k == token
    case Wipe(k, _) => k == token
    case MarkDeleted(k, _, _) => k == token
    case Retry(k, _, _) => k == token
    case Fail(k, _, _) => k == token
    case Complete(k, _) => k == token
    case _ => false
  }

  /** A lost token changes no row whatever its worker does next, and removes no source object. */
  lemma LostIsPowerless(tenant: Tenant, w: World, s: WorkerStep, token: Uuid)
    requires Rows(w) && Lost(w, token) && ActsWith(s, token) && WorkerEnabled(tenant, w, s)
    ensures WorkerApply(tenant, w, s).t == w.t
    ensures forall key :: SourceShaped(tenant, key) ==> (key in WorkerApply(tenant, w, s).stored <==> key in w.stored)
  {
    assert IssuedAs(w, token);
    if s.Wipe? {
      var o := w.p.archive[s.item];
      if SourceShaped(tenant, o.key) {
        OwnedKeysAreDisjoint(tenant, tenant, o.deletion, o.deletion, Source, o.category, o.key);
      }
    }
  }

  /** ... and it never becomes current again. */
  lemma LostStaysLost(tenant: Tenant, w: World, s: Step, token: Uuid)
    requires Rows(w) && Lost(w, token) && Enabled(tenant, w, s)
    ensures Lost(Apply(tenant, w, s), token)
  {
    match s
    case Env(e) => LostInEnv(tenant, w, e, token);
    case Worker(x) => LostAmongWorkers(tenant, w, x, token);
    case Sweeper(x) => LostAmongSweepers(w, x, token);
  }

  lemma LostInEnv(tenant: Tenant, w: World, s: EnvStep, token: Uuid)
    requires Lost(w, token) && EnvEnabled(tenant, w, s)
    ensures Lost(EnvApply(tenant, w, s), token)
  {
  }

  lemma LostAmongWorkers(tenant: Tenant, w: World, s: WorkerStep, token: Uuid)
    requires Rows(w) && Lost(w, token) && WorkerEnabled(tenant, w, s)
    ensures Lost(WorkerApply(tenant, w, s), token)
  {
    assert IssuedAs(w, token);
    WorkerTablesAre(tenant, w, s);
    ClaimsRemain(tenant, w, s, token);
    TablesKeepLost(w, s, token);
  }

  lemma ClaimsRemain(tenant: Tenant, w: World, s: WorkerStep, token: Uuid)
    requires Rows(w) && token in w.h.claims && WorkerEnabled(tenant, w, s)
    ensures token in WorkerApply(tenant, w, s).h.claims
    ensures WorkerApply(tenant, w, s).h.claims[token] == w.h.claims[token]
  {
    assert IssuedAs(w, token);
  }

  lemma TablesKeepLost(w: World, s: WorkerStep, token: Uuid)
    requires Lost(w, token) && !(s.TakeClaim? && s.token == token)
    ensures !Holds(WorkerTables(w, s), w.h.claims[token].deletion, token)
  {
  }

  lemma LostAmongSweepers(w: World, s: SweeperStep, token: Uuid)
    requires Lost(w, token) && SweeperEnabled(w, s)
    ensures Lost(SweeperApply(w, s), token)
  {
  }

}
