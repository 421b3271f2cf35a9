/** The lease of a claim: every item that is closed renews it, and while it lasts nobody else takes the
    deletion away from its worker. */
module DeletionLease {
  import opened Prelude
  import opened DeletionTables
  import opened DeletionKeys
  import opened DeletionProtocol
  import opened DeletionRows
  import opened DeletionRuns

  /** The claim is current and ends at this time. */
  predicate LeasedUntil(t: Tables, id: Uuid, token: Uuid, end: Time) {
    && id in t.requests && t.requests[id].state == Processing && t.requests[id].claim == Some(token)
    && t.requests[id].lease == Some(end)
  }

  /** Closing an item under a current claim renews the lease by 120 seconds from the reading of the clock,
      whoever shares the object, and moves no other request. */
  lemma ClosingRenewsTheLease(t: Tables, c: Claim, item: Uuid, shared: bool, now: Time)
    requires c.deletion in t.requests && t.requests[c.deletion].state == Processing
    requires t.requests[c.deletion].claim == Some(c.token)
    ensures LeasedUntil(MarkDeletedTx(t, c, item, now), c.deletion, c.token, now + 120)
    ensures MayClose(t, c, item) ==> LeasedUntil(CloseSourceTx(t, c, item, shared, now), c.deletion, c.token, now + 120)
    ensures forall id :: id in t.requests && id != c.deletion ==>
              && MarkDeletedTx(t, c, item, now).requests[id] == t.requests[id]
              && (MayClose(t, c, item) ==> CloseSourceTx(t, c, item, shared, now).requests[id] == t.requests[id])
  {
  }

  /** The step in which the worker with this token reads the clock at n and takes or renews its lease. */
  predicate Renews(w: World, s: Step, id: Uuid, token: Uuid, n: Time) {
    s.Worker? && match s.worker
      case TakeClaim(m, k, now) => k == token && now == n && m in w.queue && w.queue[m].deletion == id
      case CloseSource(k, now) => k == token && now == n && k in w.h.claims && w.h.claims[k].deletion == id
      case MarkDeleted(k, _, now) => k == token && now == n && k in w.h.claims && w.h.claims[k].deletion == id
      case _ => false
  }

  /** What takes no part in the lease of this token: its own worker rests, no late artifact comes, and no
      clock reads `end` yet. */
  predicate WithinLease(s: Step, id: Uuid, token: Uuid, end: Time) {
    match s
    case Env(e) => !(e.Late? && e.id == id)
    case Worker(x) =>
      (match x
       case TakeClaim(_, _, now) => now < end
       case CloseSource(k, _) => k != token
       case MarkDeleted(k, _, _) => k != token
       case Retry(k, _, _) => k != token
       case Fail(k, _, _) => k != token
       case Complete(k, _) => k != token
       case _ => true)
    case Sweeper(x) => x.Recover? ==> x.now < end
  }

  lemma RenewedUntil(tenant: Tenant, w: World, s: Step, id: Uuid, token: Uuid, n: Time)
    requires Rows(w) && Enabled(tenant, w, s) && Renews(w, s, id, token, n)
    requires Holds(Apply(tenant, w, s).t, id, token)
    ensures LeasedUntil(Apply(tenant, w, s).t, id, token, n + 120)
  {
    assert RowsOf(w, id);
    if s.worker.TakeClaim? {
      assert IssuedAs(w, token);
    } else {
      assert IssuedAs(w, token);
      WorkerTablesAre(tenant, w, s.worker);
    }
  }

  lemma LeaseStays(tenant: Tenant, w: World, s: Step, id: Uuid, token: Uuid, end: Time)
    requires Rows(w) && LeasedUntil(w.t, id, token, end) && Enabled(tenant, w, s) && WithinLease(s, id, token, end)
    ensures id in Apply(tenant, w, s).t.requests && Apply(tenant, w, s).t.requests[id] == w.t.requests[id]
  {
    assert RowsOf(w, id);
    match s
    case Env(e) => LeaseStaysInEnv(tenant, w, e, id, token, end);
    case Worker(x) => LeaseStaysAmongWorkers(tenant, w, x, id, token, end);
    case Sweeper(x) => LeaseStaysSwept(w, x, id, token, end);
  }

  lemma LeaseStaysInEnv(tenant: Tenant, w: World, s: EnvStep, id: Uuid, token: Uuid, end: Time)
    requires Rows(w) && LeasedUntil(w.t, id, token, end) && EnvEnabled(tenant, w, s)
    requires WithinLease(Env(s), id, token, end)
    ensures id in EnvApply(tenant, w, s).t.requests && EnvApply(tenant, w, s).t.requests[id] == w.t.requests[id]
  {
    EnvRequestsAre(tenant, w, s);
    assert RowsOf(w, id);
  }

  lemma LeaseStaysAmongWorkers(tenant: Tenant, w: World, s: WorkerStep, id: Uuid, token: Uuid, end: Time)
    requires Rows(w) && LeasedUntil(w.t, id, token, end) && WorkerEnabled(tenant, w, s)
    requires WithinLease(Worker(s), id, token, end)
    ensures id in WorkerApply(tenant, w, s).t.requests && WorkerApply(tenant, w, s).t.requests[id] == w.t.requests[id]
  {
    WorkerTablesAre(tenant, w, s);
    LeaseStaysInTables(w, s, id, token, end);
  }

  lemma LeaseStaysInTables(w: World, s: WorkerStep, id: Uuid, token: Uuid, end: Time)
    requires Rows(w) && LeasedUntil(w.t, id, token, end) && WithinLease(Worker(s), id, token, end)
    ensures id in WorkerTables(w, s).requests && WorkerTables(w, s).requests[id] == w.t.requests[id]
  {
    assert RowsOf(w, id);
    if s.CloseSource? || s.MarkDeleted? || s.Retry? || s.Fail? || s.Complete? { assert IssuedAs(w, s.token); }
  }

  lemma LeaseStaysSwept(w: World, s: SweeperStep, id: Uuid, token: Uuid, end: Time)
    requires LeasedUntil(w.t, id, token, end) && SweeperEnabled(w, s) && WithinLease(Sweeper(s), id, token, end)
    ensures id in SweeperApply(w, s).t.requests && SweeperApply(w, s).t.requests[id] == w.t.requests[id]
  {
  }

  lemma {:induction false} LeaseOverRun(tenant: Tenant, w: World, run: seq<Step>, id: Uuid, token: Uuid, end: Time)
    requires Invariant(tenant, w) && LeasedUntil(w.t, id, token, end) && Legal(tenant, w, run)
    requires forall s :: s in run ==> WithinLease(s, id, token, end)
    ensures id in After(tenant, w, run).t.requests && After(tenant, w, run).t.requests[id] == w.t.requests[id]
    decreases |run|
  {
    if run != [] {
      LeaseStays(tenant, w, run[0], id, token, end);
      InvariantKept(tenant, w, run[0]);
      LeaseOverRun(tenant, Apply(tenant, w, run[0]), run[1..], id, token, end);
    }
  }

  /** A worker that claims its deletion, or closes an item of it, at clock reading n keeps it: whatever others
      do in between, nobody takes it while clocks read less than n + 120. */
  lemma NobodyTakesALeasedDeletion(tenant: Tenant, w: World, s: Step, run: seq<Step>, id: Uuid, token: Uuid, n: Time)
    requires Reached(tenant, w) && Enabled(tenant, w, s) && Renews(w, s, id, token, n)
    requires Holds(Apply(tenant, w, s).t, id, token) && Legal(tenant, Apply(tenant, w, s), run)
    requires forall x :: x in run ==> WithinLease(x, id, token, n + 120)
    ensures LeasedUntil(After(tenant, Apply(tenant, w, s), run).t, id, token, n + 120)
  {
    ReachedInvariant(tenant, w);
    RenewedUntil(tenant, w, s, id, token, n);
    InvariantKept(tenant, w, s);
    LeaseOverRun(tenant, Apply(tenant, w, s), run, id, token, n + 120);
  }

}
