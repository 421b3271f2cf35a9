/** No accepted deletion is ever stranded: whatever crashes, repeats or races, a waiting request
    keeps an undelivered outbox row or a queued message whose handling will claim it. */
module DeletionDelivery {
  import opened DeletionKeys
  import opened DeletionTables
  import opened DeletionProtocol
  import opened DeletionRows

  /** A queued message nobody has handled yet, sent when the request was already due. */
  predicate Wakes(w: World, m: Uuid, id: Uuid) {
    && m in w.queue && m !in w.h.attempted && w.queue[m].deletion == id
    && id in w.t.requests && w.t.requests[id].nextAttempt <= w.queue[m].sentAt
  }

  /** Such a message was skipped for a transaction that held the request row and rolled back. */
  predicate Swallowed(w: World, m: Message, id: Uuid) {
    && m in w.p.swallowed && m.deletion == id
    && id in w.t.requests && w.t.requests[id].nextAttempt <= m.sentAt
  }

  ghost predicate Excused(w: World, id: Uuid) {
    exists m :: Swallowed(w, m, id)
  }

  /** While a request waits: it is due no later than its outbox row; the message of the current
      outbox lease, once sent, still wakes it; a delivered row left a message that wakes it; or else
      such a message was swallowed. */
  ghost predicate Deliverable(w: World, id: Uuid) {
    id in w.t.requests && Waiting(w.t.requests[id]) && id in w.t.outbox ==>
      var o := w.t.outbox[id];
      && w.t.requests[id].nextAttempt <= o.nextAttempt
      && (o.lease.Some? && o.lease.value in w.h.sent ==> Wakes(w, w.h.sent[o.lease.value], id) || Excused(w, id))
      && (o.deliveredAt.Some? ==> (exists m :: Wakes(w, m, id)) || Excused(w, id))
  }

  /** A request that waits with the same rows and messages as before stays deliverable. */
  lemma DeliverableStays(w: World, v: World, id: Uuid)
    requires Deliverable(w, id) && v.queue == w.queue && v.h.attempted == w.h.attempted && v.h.sent == w.h.sent
    requires v.p.swallowed == w.p.swallowed
    requires id in v.t.requests && Waiting(v.t.requests[id]) && id in v.t.outbox ==>
               && id in w.t.requests && Waiting(w.t.requests[id]) && id in w.t.outbox
               && v.t.requests[id].nextAttempt == w.t.requests[id].nextAttempt && v.t.outbox[id] == w.t.outbox[id]
    ensures Deliverable(v, id)
  {
    if id in v.t.requests && Waiting(v.t.requests[id]) && id in v.t.outbox {
      assert forall m :: Wakes(w, m, id) ==> Wakes(v, m, id);
      assert forall m :: Swallowed(w, m, id) ==> Swallowed(v, m, id);
    }
  }

  /** Messages come, and none but those in `gone` loses what it wakes. */
  lemma MessagesStay(w: World, v: World, id: Uuid, gone: set<Uuid>)
    requires id in w.t.requests && id in v.t.requests && v.t.requests[id].nextAttempt == w.t.requests[id].nextAttempt
    requires w.p.swallowed <= v.p.swallowed
    requires forall m :: m in w.queue && m !in gone ==> m in v.queue && v.queue[m] == w.queue[m]
    requires forall m :: m in v.h.attempted && m !in gone ==> m in w.h.attempted
    ensures forall m :: Wakes(w, m, id) && m !in gone ==> Wakes(v, m, id)
    ensures Excused(w, id) ==> Excused(v, id)
  {
    if Excused(w, id) {
      var m :| Swallowed(w, m, id);
      assert Swallowed(v, m, id);
    }
  }

  ghost predicate Delivery(w: World) {
    forall id :: Deliverable(w, id)
  }

  lemma DeliveryAfterAccept(w: World, id: Uuid, held: set<Key>, inventory: map<Uuid, Object>, now: Time)
    requires Rows(w) && Delivery(w) && Live(w.t, id)
    ensures Delivery(AcceptApplied(w, id, held, inventory, now))
  {
    var w' := AcceptApplied(w, id, held, inventory, now);
    forall i ensures Deliverable(w', i) {
      assert Deliverable(w, i) && RowsOf(w, i);
      if i != id { DeliverableStays(w, w', i); }
    }
  }

  lemma DeliveryAfterRedrive(w: World, id: Uuid, now: Time)
    requires Rows(w) && Delivery(w) && id in w.t.requests
    ensures Delivery(Redriven(w, id, now))
  {
    var w' := Redriven(w, id, now);
    forall i ensures Deliverable(w', i) {
      assert Deliverable(w, i) && RowsOf(w, i);
      if i != id || w.t.requests[id].state != Failed { DeliverableStays(w, w', i); }
    }
  }

  lemma DeliveryAfterLate(w: World, id: Uuid, item: Uuid, late: Object, dropped: set<Uuid>, now: Time)
    requires Rows(w) && Delivery(w) && id in w.t.requests
    ensures Delivery(LateApplied(w, id, item, late, dropped, now))
  {
    var w' := LateApplied(w, id, item, late, dropped, now);
    forall i ensures Deliverable(w', i) {
      assert Deliverable(w, i) && RowsOf(w, i);
      if i != id { DeliverableStays(w, w', i); }
    }
  }

  /** A message that wakes a waiting request cannot be refused: its handling starts at or after `sentAt`. */
  lemma DeliveryAfterClaim(w: World, m: Uuid, token: Uuid, now: Time)
    requires Rows(w) && Delivery(w) && m in w.queue && token !in w.h.issued && w.queue[m].sentAt <= now
    ensures Delivery(Claimed(w, m, token, now))
  {
    var id, w' := w.queue[m].deletion, Claimed(w, m, token, now);
    forall i ensures Deliverable(w', i) {
      assert Deliverable(w, i);
      if i in w.t.requests { MessagesStay(w, w', i, {m}); }
    }
  }

  /** A message skipped for a transaction that commits is not needed; any other is recorded. */
  lemma DeliveryAfterSkip(w: World, m: Uuid, torn: bool)
    requires Delivery(w) && m in w.queue && (torn || Rearmed(w, w.queue[m].deletion))
    ensures Delivery(Skipped(w, m, torn))
  {
    var w' := Skipped(w, m, torn);
    var id := w.queue[m].deletion;
    forall i ensures Deliverable(w', i) {
      assert Deliverable(w, i);
      if i in w.t.requests {
        MessagesStay(w, w', i, {m});
        if torn && Wakes(w, m, i) { assert Swallowed(w', w.queue[m], i); }
      }
    }
  }

  lemma DeliveryAfterClose(w: World, token: Uuid, now: Time)
    requires Rows(w) && Delivery(w) && Open(w, token)
    ensures Delivery(SourceClosed(w, token, now))
  {
    var w' := SourceClosed(w, token, now);
    forall i ensures Deliverable(w', i) {
      assert Deliverable(w, i) && RowsOf(w, i);
      DeliverableStays(w, w', i);
    }
  }

  lemma DeliveryAfterMark(w: World, token: Uuid, item: Uuid, now: Time)
    requires Rows(w) && Delivery(w) && token in w.h.claims
    ensures Delivery(Closed(w, MarkDeletedTx(w.t, w.h.claims[token], item, now)))
  {
    var w' := Closed(w, MarkDeletedTx(w.t, w.h.claims[token], item, now));
    forall i ensures Deliverable(w', i) {
      assert Deliverable(w, i) && RowsOf(w, i);
      DeliverableStays(w, w', i);
    }
  }

  lemma DeliveryAfterRetry(w: World, token: Uuid, failure: FailureCategory, next: Time)
    requires Rows(w) && Delivery(w) && token in w.h.claims
    ensures Delivery(w.(t := RetryTx(w.t, w.h.claims[token], failure, next)))
  {
    var w' := w.(t := RetryTx(w.t, w.h.claims[token], failure, next));
    forall i ensures Deliverable(w', i) {
      assert Deliverable(w, i) && RowsOf(w, i);
      if i != w.h.claims[token].deletion || w'.t == w.t { DeliverableStays(w, w', i); }
    }
  }

  lemma DeliveryAfterFail(w: World, token: Uuid, failure: FailureCategory, now: Time)
    requires Rows(w) && Delivery(w) && token in w.h.claims
    ensures Delivery(w.(t := FailTx(w.t, w.h.claims[token], failure, now)))
  {
    var w' := w.(t := FailTx(w.t, w.h.claims[token], failure, now));
    forall i ensures Deliverable(w', i) {
      assert Deliverable(w, i) && RowsOf(w, i);
      if i != w.h.claims[token].deletion || w'.t == w.t { DeliverableStays(w, w', i); }
    }
  }

  lemma DeliveryAfterComplete(w: World, token: Uuid, now: Time)
    requires Rows(w) && Delivery(w) && token in w.h.claims
    ensures Delivery(w.(t := CompleteTx(w.t, w.h.claims[token], now)))
  {
    var w' := w.(t := CompleteTx(w.t, w.h.claims[token], now));
    forall i ensures Deliverable(w', i) {
      assert Deliverable(w, i) && RowsOf(w, i);
      DeliverableStays(w, w', i);
    }
  }

  lemma DeliveryAfterAck(w: World, m: Uuid)
    requires Rows(w) && Delivery(w) && m in w.h.attempted
    ensures Delivery(w.(queue := w.queue - {m}))
  {
    var w' := w.(queue := w.queue - {m});
    forall i ensures Deliverable(w', i) {
      assert Deliverable(w, i);
      if i in w.t.requests { MessagesStay(w, w', i, {m}); }
    }
  }

  lemma DeliveryAfterRecover(w: World, now: Time, locked: set<Uuid>)
    requires Rows(w) && Delivery(w) && now <= w.now
    ensures Delivery(Recovered(w, now, locked))
  {
    var w' := Recovered(w, now, locked);
    forall i ensures Deliverable(w', i) {
      assert Deliverable(w, i) && RowsOf(w, i);
      if !Recovers(w.t, i, now, locked) { DeliverableStays(w, w', i); }
    }
  }

  lemma DeliveryAfterLease(w: World, id: Uuid, ticket: Uuid, now: Time)
    requires Rows(w) && Delivery(w) && Due(w.t, id, now) && ticket !in w.h.issued
    ensures Delivery(OutboxLeased(w, id, ticket, now))
  {
    var w' := OutboxLeased(w, id, ticket, now);
    assert IssuedAs(w, ticket);
    forall i ensures Deliverable(w', i) {
      assert Deliverable(w, i) && RowsOf(w, i);
      if i in w.t.requests { MessagesStay(w, w', i, {}); }
    }
  }

  lemma DeliveryAfterEnqueue(w: World, ticket: Uuid, m: Uuid)
    requires Rows(w) && Delivery(w) && ticket in w.h.tickets && ticket !in w.h.sent && m !in w.h.issued
    ensures Delivery(Enqueued(w, ticket, m))
  {
    var w' := Enqueued(w, ticket, m);
    assert IssuedAs(w, m);
    forall i ensures Deliverable(w', i) {
      assert Deliverable(w, i) && RowsOf(w, i);
      if i in w.t.requests { MessagesStay(w, w', i, {}); }
    }
  }

  /** The delivered row is the one this sweeper leased and sent, so its message still wakes. */
  lemma DeliveryAfterMarkDelivered(w: World, ticket: Uuid, now: Time)
    requires Rows(w) && Delivery(w) && ticket in w.h.tickets && ticket in w.h.sent
    ensures Delivery(w.(t := DeliveredTx(w.t, w.h.tickets[ticket].deletion, ticket, now)))
  {
    var w' := w.(t := DeliveredTx(w.t, w.h.tickets[ticket].deletion, ticket, now));
    forall i ensures Deliverable(w', i) {
      assert Deliverable(w, i) && RowsOf(w, i);
      if i in w.t.requests { MessagesStay(w, w', i, {}); }
    }
  }

  lemma DeliveryAfterRelease(w: World, ticket: Uuid, next: Time)
    requires Rows(w) && Delivery(w) && ticket in w.h.tickets && w.h.tickets[ticket].leasedAt <= next
    ensures Delivery(w.(t := ReleaseTx(w.t, w.h.tickets[ticket].deletion, ticket, next)))
  {
    var w' := w.(t := ReleaseTx(w.t, w.h.tickets[ticket].deletion, ticket, next));
    forall i ensures Deliverable(w', i) {
      assert Deliverable(w, i) && RowsOf(w, i);
      if i in w.t.requests { MessagesStay(w, w', i, {}); }
    }
  }

  lemma DeliveryKeptByEnv(tenant: Tenant, w: World, s: EnvStep)
    requires Rows(w) && Delivery(w) && EnvEnabled(tenant, w, s)
    ensures Delivery(EnvApply(tenant, w, s))
  {
    if !Enters(s) {
      EnvIsOutside(tenant, w, s);
      DeliveryFramed(w, EnvApply(tenant, w, s));
    } else if s.Accept? {
      DeliveryAfterAccept(w, s.id, HeldKeys(w, s.id, s.read), s.inventory, s.now);
    } else if s.Redrive? {
      DeliveryAfterRedrive(w, s.id, s.now);
    } else {
      DeliveryAfterLate(w, s.id, s.item, s.late, s.dropped, s.now);
    }
  }

  lemma DeliveryFramed(w: World, w': World)
    requires Delivery(w) && w'.t.requests == w.t.requests && w'.t.outbox == w.t.outbox && w'.queue == w.queue
             && w'.h == w.h && w'.p.swallowed == w.p.swallowed
    ensures Delivery(w')
  {
    forall i ensures Deliverable(w', i) {
      assert Deliverable(w, i);
      DeliverableStays(w, w', i);
    }
  }

  lemma DeliveryKeptByWorker(tenant: Tenant, w: World, s: WorkerStep)
    requires Rows(w) && Delivery(w) && WorkerEnabled(tenant, w, s)
    ensures Delivery(WorkerApply(tenant, w, s))
  {
    match s
    case TakeClaim(m, token, now) => DeliveryAfterClaim(w, m, token, now);
    case Skip(m, torn) => DeliveryAfterSkip(w, m, torn);
    case CloseSource(token, now) => DeliveryAfterClose(w, token, now);
    case MarkDeleted(token, item, now) => DeliveryAfterMark(w, token, item, now);
    case Retry(token, failure, next) => DeliveryAfterRetry(w, token, failure, next);
    case Fail(token, failure, now) => DeliveryAfterFail(w, token, failure, now);
    case Complete(token, now) => DeliveryAfterComplete(w, token, now);
    case Ack(m) => DeliveryAfterAck(w, m);
    case _ => DeliveryFramed(w, WorkerApply(tenant, w, s));
  }

  lemma DeliveryKeptBySweeper(w: World, s: SweeperStep)
    requires Rows(w) && Delivery(w) && SweeperEnabled(w, s)
    ensures Delivery(SweeperApply(w, s))
  {
    match s
    case Recover(now, locked) => DeliveryAfterRecover(w, now, locked);
    case LeaseOutbox(id, ticket, now) => DeliveryAfterLease(w, id, ticket, now);
    case Enqueue(ticket, m) => DeliveryAfterEnqueue(w, ticket, m);
    case MarkDelivered(ticket, now) => DeliveryAfterMarkDelivered(w, ticket, now);
    case Release(ticket, next) => DeliveryAfterRelease(w, ticket, next);
  }

  lemma DeliveryKept(tenant: Tenant, w: World, s: Step)
    requires Rows(w) && Delivery(w) && Enabled(tenant, w, s)
    ensures Delivery(Apply(tenant, w, s))
  {
    match s
    case Env(e) => DeliveryKeptByEnv(tenant, w, e);
    case Worker(x) => DeliveryKeptByWorker(tenant, w, x);
    case Sweeper(x) => DeliveryKeptBySweeper(w, x);
  }

}
