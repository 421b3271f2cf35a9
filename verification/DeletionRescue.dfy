/** When a request that waits is out of reach, exactly: a message was skipped for a transaction that
    held its row and rolled back, and nothing else is under way for it. */
module DeletionRescue {
  import opened Prelude
  import opened DeletionTables
  import opened DeletionKeys
  import opened DeletionProtocol
  import opened DeletionRows
  import opened DeletionDelivery
  import opened DeletionRuns

  /** The request waits, its outbox row is delivered, and no message of it is queued or still to be sent. */
  ghost predicate Stranded(w: World, id: Uuid) {
    && id in w.t.requests && Waiting(w.t.requests[id]) && id in w.t.outbox && w.t.outbox[id].deliveredAt.Some?
    && (forall m :: m in w.queue ==> w.queue[m].deletion != id)
    && (forall k :: k in w.h.tickets && w.h.tickets[k].deletion == id ==> k in w.h.sent)
  }

  lemma HandlingNamesIt(w: World, m: Uuid, id: Uuid)
    requires id in w.t.requests && Waiting(w.t.requests[id]) && HandlingClaims(w, m, id)
    ensures w.queue[m].deletion == id
  {
    assert Holds(ClaimTx(w.t, w.queue[m].deletion, 0, w.queue[m].sentAt), id, 0);
  }

  /** Only a message lost to a rolled back transaction strands a request. */
  lemma StrandedBySwallowing(tenant: Tenant, w: World, id: Uuid)
    requires Reached(tenant, w) && Stranded(w, id)
    ensures Excused(w, id)
  {
    NeverStranded(tenant, w, id);
    if m :| HandlingClaims(w, m, id) {
      HandlingNamesIt(w, m, id);
    }
  }

  predicate LateOf(s: Step, id: Uuid) {
    s.Env? && s.env.Late? && s.env.id == id
  }

  // ---- what workers and sweepers can still do

  lemma Fresh(used: set<Uuid>) returns (x: Uuid)
    ensures forall y :: y in used ==> y < x
  {
    if used == {} {
      x := 0;
    } else {
      var y :| y in used;
      var x' := Fresh(used - {y});
      x := if y < x' then x' else y + 1;
      forall z | z in used ensures z < x { assert z == y || z in used - {y}; }
    }
  }

  lemma Prepend(tenant: Tenant, w: World, s: Step, rest: seq<Step>)
    requires Enabled(tenant, w, s) && Legal(tenant, Apply(tenant, w, s), rest)
    ensures Legal(tenant, w, [s] + rest)
    ensures After(tenant, w, [s] + rest) == After(tenant, Apply(tenant, w, s), rest)
  {
    assert ([s] + rest)[1..] == rest;
  }

  /** A run that hands the request to a worker under a new claim, without a late artifact of it. */
  ghost predicate HandsOver(tenant: Tenant, w: World, id: Uuid, rest: seq<Step>, token: Uuid) {
    && Legal(tenant, w, rest) && (forall s :: s in rest ==> !LateOf(s, id))
    && token !in w.h.issued && token in After(tenant, w, rest).h.claims
    && Holds(After(tenant, w, rest).t, id, token)
  }

  lemma HandsOverLater(tenant: Tenant, w: World, s: Step, id: Uuid, rest: seq<Step>, token: Uuid)
    requires Enabled(tenant, w, s) && !LateOf(s, id) && w.h.issued <= Apply(tenant, w, s).h.issued
    requires HandsOver(tenant, Apply(tenant, w, s), id, rest, token)
    ensures HandsOver(tenant, w, id, [s] + rest, token)
  {
    Prepend(tenant, w, s, rest);
  }

  /** Take a queued message of a request that is due. */
  lemma ClaimByMessage(tenant: Tenant, w: World, id: Uuid, m: Uuid) returns (rest: seq<Step>, token: Uuid)
    requires m in w.queue && w.queue[m].deletion == id && w.queue[m].sentAt <= w.now
    requires id in w.t.requests && Claimable(w.t.requests[id], w.now)
    ensures HandsOver(tenant, w, id, rest, token)
  {
    token := Fresh(w.h.issued);
    var s := Worker(TakeClaim(m, token, w.now));
    rest := [s];
    Prepend(tenant, w, s, []);
  }

  /** Send the message of an outbox lease, and let a worker take it. */
  lemma ClaimByTicket(tenant: Tenant, w: World, id: Uuid, ticket: Uuid) returns (rest: seq<Step>, token: Uuid)
    requires ticket in w.h.tickets && w.h.tickets[ticket].deletion == id && ticket !in w.h.sent
    requires id in w.t.requests && Claimable(w.t.requests[id], w.now)
    ensures HandsOver(tenant, w, id, rest, token)
  {
    var m := Fresh(w.h.issued);
    var send := Sweeper(Enqueue(ticket, m));
    rest, token := ClaimByMessage(tenant, Enqueued(w, ticket, m), id, m);
    assert Enabled(tenant, w, send) && Apply(tenant, w, send) == Enqueued(w, ticket, m);
    HandsOverLater(tenant, w, send, id, rest, token);
    rest := [send] + rest;
  }

  /** Lease the due outbox row, send, and let a worker take the message. */
  lemma ClaimByOutbox(tenant: Tenant, w: World, id: Uuid) returns (rest: seq<Step>, token: Uuid)
    requires Due(w.t, id, w.now) && Claimable(w.t.requests[id], w.now) && w.h.sent.Keys <= w.h.issued
    ensures HandsOver(tenant, w, id, rest, token)
  {
    var ticket := Fresh(w.h.issued);
    var lease := Sweeper(LeaseOutbox(id, ticket, w.now));
    var w1 := OutboxLeased(w, id, ticket, w.now);
    assert Enabled(tenant, w, lease) && Apply(tenant, w, lease) == w1;
    rest, token := ClaimByTicket(tenant, w1, id, ticket);
    HandsOverLater(tenant, w, lease, id, rest, token);
    rest := [lease] + rest;
  }

  lemma SentAreIssued(w: World)
    requires Rows(w)
    ensures w.h.sent.Keys <= w.h.issued
  {
    forall k | k in w.h.sent ensures k in w.h.issued { assert IssuedAs(w, k); }
  }

  /** An expired claim is recovered, which makes the request due. */
  lemma ClaimByRecovery(tenant: Tenant, w: World, id: Uuid) returns (rest: seq<Step>, token: Uuid)
    requires Rows(w) && id in w.t.requests && id in w.t.outbox && Expired(w.t.requests[id], w.now)
    ensures HandsOver(tenant, w, id, rest, token)
  {
    var recover := Sweeper(Recover(w.now, {}));
    var w1 := Recovered(w, w.now, {});
    assert Enabled(tenant, w, recover) && Apply(tenant, w, recover) == w1;
    SentAreIssued(w);
    rest, token := ClaimByOutbox(tenant, w1, id);
    HandsOverLater(tenant, w, recover, id, rest, token);
    rest := [recover] + rest;
  }

  function Later(a: Time, b: Option<Time>): Time {
    if b.Some? && b.value > a then b.value else a
  }

  lemma Wait(tenant: Tenant, w: World, id: Uuid, to: Time, rest: seq<Step>, token: Uuid)
    requires w.now <= to && HandsOver(tenant, w.(now := to), id, rest, token)
    ensures HandsOver(tenant, w, id, [Env(Tick(to))] + rest, token)
  {
    assert Enabled(tenant, w, Env(Tick(to))) && Apply(tenant, w, Env(Tick(to))) == w.(now := to);
    HandsOverLater(tenant, w, Env(Tick(to)), id, rest, token);
  }

  /** A request that is not stranded is claimed again by ticks, sweeps and workers alone. */
  lemma Reclaim(tenant: Tenant, w: World, id: Uuid) returns (rest: seq<Step>, token: Uuid)
    requires Reached(tenant, w) && id in w.t.requests && !Terminal(w.t.requests[id]) && !Stranded(w, id)
    ensures HandsOver(tenant, w, id, rest, token)
  {
    ReachedInvariant(tenant, w);
    assert RowsOf(w, id) && Deliverable(w, id);
    var r, o := w.t.requests[id], w.t.outbox[id];
    var to := Later(Later(Later(w.now, Some(r.nextAttempt)), r.lease), o.leaseExpires);
    if r.state == Processing {
      RowsLater(w, to);
      rest, token := ClaimByRecovery(tenant, w.(now := to), id);
    } else if o.deliveredAt.None? {
      to := Later(to, Some(o.nextAttempt));
      SentAreIssued(w);
      rest, token := ClaimByOutbox(tenant, w.(now := to), id);
    } else if m :| m in w.queue && w.queue[m].deletion == id {
      to := Later(to, Some(w.queue[m].sentAt));
      rest, token := ClaimByMessage(tenant, w.(now := to), id, m);
    } else {
      var k :| k in w.h.tickets && w.h.tickets[k].deletion == id && k !in w.h.sent;
      rest, token := ClaimByTicket(tenant, w.(now := to), id, k);
    }
    Wait(tenant, w, id, to, rest, token);
    rest := [Env(Tick(to))] + rest;
  }

  lemma RowsLater(w: World, to: Time)
    requires Rows(w) && w.now <= to
    ensures Rows(w.(now := to))
  {
    forall i ensures RowsOf(w.(now := to), i) { assert RowsOf(w, i); }
    forall k ensures IssuedAs(w.(now := to), k) { assert IssuedAs(w, k); }
  }

  // ---- and what leaves it out of their reach

  lemma StrandedStays(tenant: Tenant, w: World, s: Step, id: Uuid)
    requires Rows(w) && Stranded(w, id) && Enabled(tenant, w, s) && !LateOf(s, id)
    ensures Stranded(Apply(tenant, w, s), id)
  {
    match s
    case Env(e) => StrandedInEnv(tenant, w, e, id);
    case Worker(x) => StrandedAmongWorkers(tenant, w, x, id);
    case Sweeper(x) => StrandedAmongSweepers(w, x, id);
  }

  lemma StrandedInEnv(tenant: Tenant, w: World, s: EnvStep, id: Uuid)
    requires Rows(w) && Stranded(w, id) && EnvEnabled(tenant, w, s) && !LateOf(Env(s), id)
    ensures Stranded(EnvApply(tenant, w, s), id)
  {
    assert RowsOf(w, id);
    if !Enters(s) { EnvIsOutside(tenant, w, s); }
  }

  lemma StrandedAmongWorkers(tenant: Tenant, w: World, s: WorkerStep, id: Uuid)
    requires Rows(w) && Stranded(w, id) && WorkerEnabled(tenant, w, s)
    ensures Stranded(WorkerApply(tenant, w, s), id)
  {
    WorkerTablesAre(tenant, w, s);
    StrandedInTables(w, s, id);
  }

  lemma StrandedInTables(w: World, s: WorkerStep, id: Uuid)
    requires Rows(w) && Stranded(w, id)
    ensures var t := WorkerTables(w, s);
            id in t.requests && t.requests[id] == w.t.requests[id] && id in t.outbox && t.outbox[id] == w.t.outbox[id]
  {
    assert RowsOf(w, id);
  }

  lemma StrandedAmongSweepers(w: World, s: SweeperStep, id: Uuid)
    requires Rows(w) && Stranded(w, id) && SweeperEnabled(w, s)
    ensures Stranded(SweeperApply(w, s), id)
  {
    if s.LeaseOutbox? { assert IssuedAs(w, s.ticket); }
  }

  lemma {:induction false} StrandedOverRun(tenant: Tenant, w: World, run: seq<Step>, id: Uuid)
    requires Invariant(tenant, w) && Stranded(w, id) && Legal(tenant, w, run)
    requires forall s :: s in run ==> !LateOf(s, id)
    ensures Stranded(After(tenant, w, run), id) && Invariant(tenant, After(tenant, w, run))
    decreases |run|
  {
    if run != [] {
      StrandedStays(tenant, w, run[0], id);
      InvariantKept(tenant, w, run[0]);
      StrandedOverRun(tenant, Apply(tenant, w, run[0]), run[1..], id);
    }
  }

  /** From every reachable state workers and sweepers can take an unfinished request up again if and
      only if it is not stranded: no crash, lost message or race puts it out of their reach otherwise,
      and from a stranded one nothing but another late artifact helps. */
  lemma ReclaimableExactly(tenant: Tenant, w: World, id: Uuid)
    requires Reached(tenant, w) && id in w.t.requests && !Terminal(w.t.requests[id])
    ensures (exists rest, token :: HandsOver(tenant, w, id, rest, token)) <==> !Stranded(w, id)
  {
    if Stranded(w, id) {
      forall rest, token ensures !HandsOver(tenant, w, id, rest, token) {
        if HandsOver(tenant, w, id, rest, token) {
          ReachedInvariant(tenant, w);
          StrandedOverRun(tenant, w, rest, id);
        }
      }
    } else {
      var rest, token := Reclaim(tenant, w, id);
    }
  }

}
