/** What the deletion protocol guarantees over whole runs. */
module DeletionRuns {
  import opened Prelude
  import opened DeletionKeys
  import opened DeletionTables
  import opened DeletionProtocol
  import opened DeletionRows
  import opened DeletionDelivery
  import opened DeletionLedger
  import opened DeletionInventory
  import opened DeletionOwnership
  import opened DeletionSafety
  import opened DeletionSharing

  ghost predicate Invariant(tenant: Tenant, w: World) {
    Rows(w) && Delivery(w) && Ledger(w) && Inventory(w) && Ownership(tenant, w) && Safety(tenant, w) && Sharing(w)
  }

  lemma InitialInvariant(tenant: Tenant, w: World)
    requires Initial(w)
    ensures Invariant(tenant, w)
  {
    forall id ensures RowsOf(w, id) && IssuedAs(w, id) && Deliverable(w, id) && Budgeted(w, id)
      && AgreementKept(w, id) {}
    forall id, c: nat ensures CycleAudited(w.t, id, c) && PurgeKept(w, id, c) {}
    forall o ensures ItemKept(w, o) && TokenKept(w, o) && PreservedKept(w, o) {}
    forall o ensures OwnedItem(tenant, w, o) && OwnedLook(tenant, w, o) {}
    forall o ensures LookStands(w, o) && LookAnswered(w, o) {}
    forall k, o ensures WipeKept(w, k, o) && OwnedWipe(tenant, w, k, o) {}
    forall key ensures KeyKept(tenant, w, key) && StampKept(w, key) {}
    forall a, files ensures ColumnKept(w, a, files) {}
  }

  lemma InvariantKept(tenant: Tenant, w: World, s: Step)
    requires Invariant(tenant, w) && Enabled(tenant, w, s)
    ensures Invariant(tenant, Apply(tenant, w, s))
  {
    RowsKept(tenant, w, s);
    DeliveryKept(tenant, w, s);
    LedgerKept(tenant, w, s);
    InventoryKept(tenant, w, s);
    OwnershipKept(tenant, w, s);
    SafetyKept(tenant, w, s);
    SharingKept(tenant, w, s);
  }

  lemma {:induction false} InvariantOverRun(tenant: Tenant, w: World, run: seq<Step>)
    requires Invariant(tenant, w) && Legal(tenant, w, run)
    ensures Invariant(tenant, After(tenant, w, run))
    decreases |run|
  {
    if run != [] {
      InvariantKept(tenant, w, run[0]);
      InvariantOverRun(tenant, Apply(tenant, w, run[0]), run[1..]);
    }
  }

  /** A world some run leads to. */
  ghost predicate Reached(tenant: Tenant, w: World) {
    exists w0, run :: Initial(w0) && Legal(tenant, w0, run) && After(tenant, w0, run) == w
  }

  lemma ReachedInvariant(tenant: Tenant, w: World)
    requires Reached(tenant, w)
    ensures Invariant(tenant, w)
  {
    var w0, run :| Initial(w0) && Legal(tenant, w0, run) && After(tenant, w0, run) == w;
    InitialInvariant(tenant, w0);
    InvariantOverRun(tenant, w0, run);
  }

  lemma {:induction false} Append(tenant: Tenant, w: World, run: seq<Step>, s: Step)
    requires Legal(tenant, w, run) && Enabled(tenant, After(tenant, w, run), s)
    ensures Legal(tenant, w, run + [s])
    ensures After(tenant, w, run + [s]) == Apply(tenant, After(tenant, w, run), s)
    decreases |run|
  {
    if run == [] {
      assert ([] + [s])[1..] == [];
    } else {
      assert (run + [s])[1..] == run[1..] + [s];
      Append(tenant, Apply(tenant, w, run[0]), run[1..], s);
    }
  }

  lemma ReachedNext(tenant: Tenant, w: World, s: Step)
    requires Reached(tenant, w) && Enabled(tenant, w, s)
    ensures Reached(tenant, Apply(tenant, w, s))
  {
    var w0, run :| Initial(w0) && Legal(tenant, w0, run) && After(tenant, w0, run) == w;
    Append(tenant, w0, run, s);
  }

  // ---- 1. nothing is stranded

  /** Handling this message claims the request, whenever it happens. */
  ghost predicate HandlingClaims(w: World, m: Uuid, id: Uuid) {
    m in w.queue && forall token, now ::
      w.queue[m].sentAt <= now ==> Holds(ClaimTx(w.t, w.queue[m].deletion, token, now), id, token)
  }

  /** A waiting request has an undelivered outbox row, or a queued message whose handling claims it, or
      its message was skipped for a transaction that held the row and rolled back; a processing one is
      recovered and due as soon as its lease expires. */
  lemma NeverStranded(tenant: Tenant, w: World, id: Uuid)
    requires Reached(tenant, w) && id in w.t.requests && !Terminal(w.t.requests[id])
    ensures Waiting(w.t.requests[id]) ==>
      id in w.t.outbox && (w.t.outbox[id].deliveredAt.None? || (exists m :: HandlingClaims(w, m, id)) || Excused(w, id))
    ensures w.t.requests[id].state == Processing ==>
      w.t.requests[id].lease.Some? &&
      forall now, locked :: w.t.requests[id].lease.value <= now && id !in locked ==>
        var t := RecoverTx(w.t, now, locked);
        id in t.requests && id in t.outbox && t.requests[id].state == Retrying && t.requests[id].nextAttempt <= now
        && Due(t, id, now)
  {
    ReachedInvariant(tenant, w);
    assert RowsOf(w, id) && Deliverable(w, id);
    if Waiting(w.t.requests[id]) && w.t.outbox[id].deliveredAt.Some? {
      if !Excused(w, id) {
        var m :| Wakes(w, m, id);
        assert HandlingClaims(w, m, id);
      }
    }
  }

  // ---- 2. rows, attempts, audit and fencing

  predicate SameClaim(r: Request, q: Request) {
    r.claim.Some? && r.claim == q.claim
  }

  /** Every CHECK constraint holds, claims are exclusive, and attempts stay within the budget: five
      per retry cycle plus one for each expired lease or late artifact in it. */
  lemma RowsAlwaysValid(tenant: Tenant, w: World, id: Uuid)
    requires Reached(tenant, w) && id in w.t.requests
    ensures RequestChecks(w.t.requests[id]) && (id in w.t.outbox ==> OutboxChecks(w.t.outbox[id]))
    ensures w.t.requests[id].attempts <= MAX_ATTEMPTS + Setbacks(w.h, id)
    ensures forall other :: other in w.t.requests && SameClaim(w.t.requests[id], w.t.requests[other]) ==> other == id
  {
    ReachedInvariant(tenant, w);
    assert RowsOf(w, id) && Budgeted(w, id);
    forall other | other in w.t.requests && SameClaim(w.t.requests[id], w.t.requests[other]) ensures other == id {
      assert RowsOf(w, other);
    }
  }

  /** Each retry cycle that is over ended in exactly one terminal event; the current one has one
      exactly when the request is terminal, of that kind; no event is ever written twice. */
  lemma OneTerminalEventPerCycle(tenant: Tenant, w: World, id: Uuid, cycle: nat)
    requires Reached(tenant, w) && id in w.t.requests && 1 <= cycle <= w.t.requests[id].cycle
    ensures var failed, completed := Count(w.t, id, FailedEvent, cycle), Count(w.t, id, CompletedEvent, cycle);
            var r := w.t.requests[id];
            if cycle < r.cycle then failed + completed == 1
            else failed == One(r.state == Failed) && completed == One(r.state == Completed)
    ensures forall kind :: Count(w.t, id, kind, cycle) <= 1
  {
    ReachedInvariant(tenant, w);
    assert CycleAudited(w.t, id, cycle);
    forall kind ensures Count(w.t, id, kind, cycle) <= 1 {
      match kind
      case RequestedEvent =>
      case RedrivenEvent =>
      case CompletedEvent =>
      case FailedEvent =>
    }
  }

  /** A worker whose token was replaced never regains it and, whatever it still does, changes no row
      and removes no source object. */
  lemma {:induction false} LostForEver(tenant: Tenant, w: World, run: seq<Step>, token: Uuid, s: WorkerStep)
    requires Invariant(tenant, w) && Lost(w, token) && Legal(tenant, w, run)
    requires ActsWith(s, token) && WorkerEnabled(tenant, After(tenant, w, run), s)
    ensures var v := After(tenant, w, run);
            && Lost(v, token) && WorkerApply(tenant, v, s).t == v.t
            && forall key :: SourceShaped(tenant, key) ==>
               (key in WorkerApply(tenant, v, s).stored <==> key in v.stored)
    decreases |run|
  {
    if run == [] {
      LostIsPowerless(tenant, w, s, token);
    } else {
      InvariantKept(tenant, w, run[0]);
      LostStaysLost(tenant, w, run[0], token);
      LostForEver(tenant, Apply(tenant, w, run[0]), run[1..], token, s);
    }
  }

  // ---- 3. completion

  /** What a completed request leaves behind: no pending item, and none whose key is not owned; every
      deleted item's object was removed from storage after it was inventoried and is absent unless put
      again since; every preserved item is a source that a later sharer or a later upload answers for;
      references, derived rows and artifact intents are gone. */
  lemma CompletionIsSound(tenant: Tenant, w: World, id: Uuid, o: Uuid)
    requires Reached(tenant, w) && id in w.t.requests && w.t.requests[id].state == Completed
    requires o in w.p.archive && w.p.archive[o].deletion == id
    ensures w.p.archive[o].state != Pending && KeyChecked(tenant, w.p.archive[o])
    ensures w.p.archive[o].state == Deleted ==>
      && o in w.p.wipeTurn && o in w.p.inventoryTurn && w.p.inventoryTurn[o] < w.p.wipeTurn[o] && StaysRemoved(w, o)
    ensures w.p.archive[o].state == Preserved ==>
      w.p.archive[o].category == Source && Answered(w, id, w.p.archive[o].key)
    ensures Purged(w.t, id)
  {
    ReachedInvariant(tenant, w);
    assert ItemKept(w, o) && PreservedKept(w, o) && RowsOf(w, id) && OwnedItem(tenant, w, o);
    assert CycleAudited(w.t, id, w.t.requests[id].cycle) && PurgeKept(w, id, w.t.requests[id].cycle);
  }

  /** A deletion whose inventory holds a key that is not owned never completes. */
  lemma UnownedNeverCompletes(tenant: Tenant, w: World, id: Uuid, o: Uuid)
    requires Reached(tenant, w) && id in w.t.requests && o in w.p.archive && w.p.archive[o].deletion == id
    requires !KeyChecked(tenant, w.p.archive[o])
    ensures w.t.requests[id].state != Completed
  {
    if w.t.requests[id].state == Completed {
      CompletionIsSound(tenant, w, id, o);
    }
  }

  /** The request rows after a step of the API or of the processing worker. */
  function EnvRequests(w: World, s: EnvStep): map<Uuid, Request> {
    match s
    case Accept(id, _, _, now) => w.t.requests[id := AcceptedRow(now)]
    case Redrive(id, now) => if id in w.t.requests then RedriveTx(w.t, id, now).requests else w.t.requests
    case Late(id, _, _, _, now) =>
      if id in w.t.requests then w.t.requests[id := ReopenedRow(w.t.requests[id], now)] else w.t.requests
    case _ => w.t.requests
  }

  lemma EnvRequestsAre(tenant: Tenant, w: World, s: EnvStep)
    requires EnvEnabled(tenant, w, s)
    ensures EnvApply(tenant, w, s).t.requests == EnvRequests(w, s)
  {
    if !Enters(s) { EnvIsOutside(tenant, w, s); }
  }

  function StateOf(w: World, id: Uuid): Option<RequestState> {
    if id in w.t.requests then Some(w.t.requests[id].state) else None
  }

  /** No step of the API, of late processing or of a sweeper completes a request. */
  lemma OnlyWorkersComplete(tenant: Tenant, w: World, s: Step, id: Uuid)
    requires Enabled(tenant, w, s) && !s.Worker?
    ensures StateOf(Apply(tenant, w, s), id) == Some(Completed) ==> StateOf(w, id) == Some(Completed)
  {
    if s.Env? { EnvRequestsAre(tenant, w, s.env); } else { SweepersDoNotComplete(w, s.sweeper, id); }
  }

  lemma SweepersDoNotComplete(w: World, s: SweeperStep, id: Uuid)
    requires SweeperEnabled(w, s)
    ensures StateOf(SweeperApply(w, s), id) == Some(Completed) ==> StateOf(w, id) == Some(Completed)
  {
  }

  /** `complete_and_purge` under the current claim of this request, nothing pending, every intent reconciled. */
  predicate CompletesBy(w: World, s: Step, id: Uuid) {
    && s.Worker? && s.worker.Complete? && s.worker.token in w.h.claims && w.h.claims[s.worker.token].deletion == id
    && Holds(w.t, id, s.worker.token) && Purgeable(w.t, id)
  }

  /** Whoever acts, a step completes a request exactly when it is that transaction. */
  lemma CompletesExactly(tenant: Tenant, w: World, s: Step, id: Uuid)
    requires Rows(w) && Enabled(tenant, w, s) && StateOf(w, id) != Some(Completed)
    ensures StateOf(Apply(tenant, w, s), id) == Some(Completed) <==> CompletesBy(w, s, id)
  {
    if s.Worker? {
      WorkerTablesAre(tenant, w, s.worker);
      TablesComplete(w, s.worker, id);
    } else {
      OnlyWorkersComplete(tenant, w, s, id);
    }
  }

  lemma TablesComplete(w: World, s: WorkerStep, id: Uuid)
    requires Rows(w) && StateOf(w, id) != Some(Completed) && (s.Complete? ==> s.token in w.h.claims)
    ensures StateOf(w.(t := WorkerTables(w, s)), id) == Some(Completed) <==>
            s.Complete? && w.h.claims[s.token].deletion == id && Holds(w.t, id, s.token) && Purgeable(w.t, id)
  {
    assert RowsOf(w, id);
    if s.Complete? { assert IssuedAs(w, s.token); }
  }

  /** Intents are about artifacts (`ck_processing_artifact_intents_category`). */
  ghost predicate IntentsChecked(w: World) {
    forall i :: i in w.t.intents ==> IsArtifact(w.t.intents[i].category)
  }

  lemma IntentsCheckedKept(tenant: Tenant, w: World, s: Step)
    requires IntentsChecked(w) && Enabled(tenant, w, s)
    ensures IntentsChecked(Apply(tenant, w, s))
  {
    match s
    case Env(e) => IntentsCheckedInEnv(tenant, w, e);
    case Worker(x) =>
      WorkerTablesAre(tenant, w, x);
      IntentsCheckedInTables(w, x);
    case Sweeper(x) => assert SweeperApply(w, x).t.intents == w.t.intents;
  }

  lemma IntentsCheckedInEnv(tenant: Tenant, w: World, s: EnvStep)
    requires IntentsChecked(w) && EnvEnabled(tenant, w, s)
    ensures IntentsChecked(EnvApply(tenant, w, s))
  {
    var v := EnvApply(tenant, w, s);
    forall i | i in v.t.intents ensures IsArtifact(v.t.intents[i].category) {
      assert i in w.t.intents ==> IsArtifact(w.t.intents[i].category);
    }
  }

  lemma IntentsCheckedInTables(w: World, s: WorkerStep)
    requires IntentsChecked(w)
    ensures IntentsChecked(w.(t := WorkerTables(w, s)))
  {
    var t := WorkerTables(w, s);
    forall i | i in t.intents ensures IsArtifact(t.intents[i].category) {
      assert i in w.t.intents && t.intents[i] == w.t.intents[i];
    }
  }

  lemma {:induction false} IntentsCheckedOverRun(tenant: Tenant, w: World, run: seq<Step>)
    requires IntentsChecked(w) && Legal(tenant, w, run)
    ensures IntentsChecked(After(tenant, w, run))
    decreases |run|
  {
    if run != [] {
      IntentsCheckedKept(tenant, w, run[0]);
      IntentsCheckedOverRun(tenant, Apply(tenant, w, run[0]), run[1..]);
    }
  }

  lemma ReachedIntentsChecked(tenant: Tenant, w: World)
    requires Reached(tenant, w)
    ensures IntentsChecked(w)
  {
    var w0, run :| Initial(w0) && Legal(tenant, w0, run) && After(tenant, w0, run) == w;
    IntentsCheckedOverRun(tenant, w0, run);
  }

  /** The step that completes a request found every artifact intent of its agreement settled and in the
      inventory, its object removed after it was inventoried there. */
  lemma CompletionReconcilesIntents(tenant: Tenant, w: World, s: Step, id: Uuid, i: Uuid) returns (o: Uuid)
    requires Reached(tenant, w) && Enabled(tenant, w, s) && StateOf(w, id) != Some(Completed)
    requires StateOf(Apply(tenant, w, s), id) == Some(Completed)
    requires i in w.t.intents && w.t.intents[i].agreement == id
    ensures w.t.intents[i].state == Settled
    ensures o in w.p.archive && Finishes(w.p.archive[o], id, w.t.intents[i])
    ensures o in w.p.inventoryTurn && o in w.p.wipeTurn && w.p.inventoryTurn[o] < w.p.wipeTurn[o] && StaysRemoved(w, o)
  {
    ReachedInvariant(tenant, w);
    ReachedIntentsChecked(tenant, w);
    CompletesExactly(tenant, w, s, id);
    o :| o in w.t.objects && Finishes(w.t.objects[o], id, w.t.intents[i]);
    assert ItemKept(w, o) && PreservedKept(w, o);
  }

  /** What leaves a terminal state: a late artifact of that agreement, or the redrive of a failed one;
      both always do, and nothing else ever changes the row. */
  lemma TerminalLeavesExactly(tenant: Tenant, w: World, s: Step, id: Uuid)
    requires Reached(tenant, w) && Enabled(tenant, w, s) && id in w.t.requests && Terminal(w.t.requests[id])
    ensures var v := Apply(tenant, w, s);
            && id in v.t.requests
            && (v.t.requests[id] != w.t.requests[id] <==> Reopens(w, s, id))
            && (Reopens(w, s, id) ==> Waiting(v.t.requests[id]) && v.t.requests[id].cycle == w.t.requests[id].cycle + 1)
  {
    ReachedInvariant(tenant, w);
    match s
    case Env(e) => TerminalInEnv(tenant, w, e, id);
    case Worker(x) => TerminalAbsorbsWorkers(tenant, w, x, id);
    case Sweeper(x) => TerminalAbsorbsSweepers(w, x, id);
  }

  lemma TerminalInEnv(tenant: Tenant, w: World, s: EnvStep, id: Uuid)
    requires Rows(w) && EnvEnabled(tenant, w, s) && id in w.t.requests && Terminal(w.t.requests[id])
    ensures var v := EnvApply(tenant, w, s);
            && id in v.t.requests
            && (v.t.requests[id] != w.t.requests[id] <==> Reopens(w, Env(s), id))
            && (Reopens(w, Env(s), id) ==>
               Waiting(v.t.requests[id]) && v.t.requests[id].cycle == w.t.requests[id].cycle + 1)
  {
    EnvRequestsAre(tenant, w, s);
    EnvRequestsReopen(w, s, id);
  }

  lemma EnvRequestsReopen(w: World, s: EnvStep, id: Uuid)
    requires Rows(w) && id in w.t.requests && Terminal(w.t.requests[id])
    requires s.Accept? ==> Live(w.t, s.id)
    ensures id in EnvRequests(w, s)
    ensures EnvRequests(w, s)[id] != w.t.requests[id] <==> Reopens(w, Env(s), id)
    ensures Reopens(w, Env(s), id) ==>
              Waiting(EnvRequests(w, s)[id]) && EnvRequests(w, s)[id].cycle == w.t.requests[id].cycle + 1
  {
    if s.Accept? { assert RowsOf(w, s.id); }
  }

  predicate Reopens(w: World, s: Step, id: Uuid)
    requires id in w.t.requests
  {
    s.Env? && ((s.env.Late? && s.env.id == id)
      || (s.env.Redrive? && s.env.id == id && w.t.requests[id].state == Failed))
  }

  /** Once a deletion has completed, no later step of any run brings derived rows, references or intents
      back, not even after a late artifact reopened it: every writer passes the agreement fence. */
  lemma PurgedForEver(tenant: Tenant, w: World, run: seq<Step>, id: Uuid)
    requires Reached(tenant, w) && id in w.t.requests && w.t.requests[id].state == Completed && Legal(tenant, w, run)
    ensures Purged(After(tenant, w, run).t, id)
  {
    ReachedInvariant(tenant, w);
    InvariantOverRun(tenant, w, run);
    assert RowsOf(w, id);
    AuditsAccumulate(tenant, w, run, AuditEvent(id, CompletedEvent, w.t.requests[id].cycle));
    StaysPurged(w, After(tenant, w, run), id);
  }

  lemma StaysPurged(w: World, v: World, id: Uuid)
    requires Ledger(w) && Sharing(v) && id in w.t.requests && w.t.requests[id].state == Completed
    requires w.t.requests[id].cycle >= 1
    requires Count(w.t, id, CompletedEvent, w.t.requests[id].cycle) <=
             Count(v.t, id, CompletedEvent, w.t.requests[id].cycle)
    ensures Purged(v.t, id)
  {
    assert CycleAudited(w.t, id, w.t.requests[id].cycle) && PurgeKept(v, id, w.t.requests[id].cycle);
  }

  lemma AuditsGrow(tenant: Tenant, w: World, s: Step, e: AuditEvent)
    requires Enabled(tenant, w, s)
    ensures w.t.audits[e] <= Apply(tenant, w, s).t.audits[e]
  {
    match s
    case Env(x) => AuditsGrowInEnv(tenant, w, x, e);
    case Worker(x) => WorkerTablesAre(tenant, w, x);
    case Sweeper(x) => assert SweeperApply(w, x).t.audits == w.t.audits;
  }

  lemma AuditsGrowInEnv(tenant: Tenant, w: World, s: EnvStep, e: AuditEvent)
    requires EnvEnabled(tenant, w, s)
    ensures w.t.audits[e] <= EnvApply(tenant, w, s).t.audits[e]
  {
    if !Enters(s) { EnvIsOutside(tenant, w, s); }
  }

  lemma {:induction false} AuditsAccumulate(tenant: Tenant, w: World, run: seq<Step>, e: AuditEvent)
    requires Legal(tenant, w, run)
    ensures w.t.audits[e] <= After(tenant, w, run).t.audits[e]
    decreases |run|
  {
    if run != [] {
      AuditsGrow(tenant, w, run[0], e);
      AuditsAccumulate(tenant, Apply(tenant, w, run[0]), run[1..], e);
    }
  }

}
