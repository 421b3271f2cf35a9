/** The rows of the durable deletion protocol and what each worker transaction does to them.
    One tenant: every table below is the slice of one organization and workspace. A deletion
    request is keyed by the agreement it deletes (`uq_agreement_deletion_requests_agreement`). */
module DeletionTables {
  import opened Prelude
  import opened DeletionKeys

  type Uuid = nat
  type Time = nat
  type Key = string

  const LEASE_SECONDS: nat := 120
  const MAX_ATTEMPTS: nat := 5
  const BASE_DELAY_SECONDS: nat := 2
  const MAX_DELAY_SECONDS: nat := 300

  datatype RequestState = Accepted | Processing | Retrying | Completed | Failed
  datatype FailureCategory = ObjectStorage | DatabaseCleanup | ArtifactRace

  datatype Request = Request(
    state: RequestState, attempts: nat, cycle: nat,
    claim: Option<Uuid>, lease: Option<Time>, nextAttempt: Time,
    acceptedAt: Time, startedAt: Option<Time>, completedAt: Option<Time>, failedAt: Option<Time>,
    failure: Option<FailureCategory>)

  datatype Outbox = Outbox(
    attempts: nat, nextAttempt: Time, lease: Option<Uuid>, leaseExpires: Option<Time>, deliveredAt: Option<Time>)

  datatype ObjectState = Pending | Deleted | Preserved
  datatype Object = Object(deletion: Uuid, category: Category, key: Key, state: ObjectState)

  /** `versions` are the storage keys of its version rows, `files` those in its `files` column, and
      `derived` its index and review rows. */
  datatype Agreement = Agreement(
    versions: set<Key>, files: set<Key>, derived: set<Uuid>, deletionRequestedAt: Option<Time>)

  datatype RegistryState = Available | Gone
  datatype Registry = Registry(state: RegistryState, updatedAt: Time)

  datatype IntentState = Expected | Settled
  datatype Intent = Intent(agreement: Uuid, category: Category, key: Key, state: IntentState)

  datatype AuditKind = RequestedEvent | RedrivenEvent | CompletedEvent | FailedEvent
  datatype AuditEvent = AuditEvent(deletion: Uuid, kind: AuditKind, cycle: nat)

  datatype Tables = Tables(
    agreements: map<Uuid, Agreement>,
    requests: map<Uuid, Request>,
    objects: map<Uuid, Object>,
    outbox: map<Uuid, Outbox>,
    registry: map<Key, Registry>,
    intents: map<Uuid, Intent>,
    audits: multiset<AuditEvent>)

  /** What `claim` hands the worker. */
  datatype Claim = Claim(deletion: Uuid, attempts: nat, token: Uuid)

  // ---- DeletionRetryPolicy

  function Pow2(n: nat): (r: nat)
    ensures r >= 1
  {
    if n == 0 then 1 else 2 * Pow2(n - 1)
  }

  predicate MayRetry(attempts: nat) {
    attempts < MAX_ATTEMPTS
  }

  function DelaySeconds(attempts: nat): nat {
    var delay := BASE_DELAY_SECONDS * Pow2(if attempts == 0 then 0 else attempts - 1);
    if delay <= MAX_DELAY_SECONDS then delay else MAX_DELAY_SECONDS
  }

  /** Back-off never shrinks as attempts grow and stays within [2, 300] seconds. */
  lemma {:induction false} BackOffIsMonotone(m: nat, n: nat)
    requires m <= n
    ensures BASE_DELAY_SECONDS <= DelaySeconds(m) <= DelaySeconds(n) <= MAX_DELAY_SECONDS
    decreases n
  {
    if m < n {
      BackOffIsMonotone(m, n - 1);
      if n >= 2 {
        assert Pow2(n - 1) == 2 * Pow2(n - 2);
      }
    }
  }

  /** The delay doubles from two seconds until it stays at five minutes; a request gets five attempts. */
  lemma {:induction false} DelaysDouble(n: nat)
    ensures DelaySeconds(0) == DelaySeconds(1) == 2
    ensures n >= 1 ==> DelaySeconds(n + 1) == if 2 * DelaySeconds(n) < 300 then 2 * DelaySeconds(n) else 300
    ensures MayRetry(n) <==> n < 5
  {
    if n >= 1 {
      assert Pow2(n) == 2 * Pow2(n - 1);
    }
  }

  // ---- row predicates

  predicate Waiting(r: Request) {
    r.state == Accepted || r.state == Retrying
  }

  predicate Expired(r: Request, now: Time) {
    r.state == Processing && r.lease.Some? && r.lease.value <= now
  }

  predicate Claimable(r: Request, now: Time) {
    r.nextAttempt <= now && (Waiting(r) || Expired(r, now))
  }

  /** `_claim_is_current` and `_locked_claim`: the lease is not consulted, only state and token. */
  predicate Holds(t: Tables, id: Uuid, token: Uuid) {
    id in t.requests && t.requests[id].state == Processing && t.requests[id].claim == Some(token)
  }

  /** The three EXISTS branches that make a source object shared. */
  predicate Shared(t: Tables, id: Uuid, key: Key)
    requires id in t.requests
  {
    || ReferencedElsewhere(t, id, key)
    || (key in t.registry && t.registry[key].state == Available
        && t.registry[key].updatedAt > t.requests[id].acceptedAt)
  }

  predicate ReferencedElsewhere(t: Tables, id: Uuid, key: Key) {
    exists a :: a in t.agreements && a != id && LiveReference(t.agreements[a], key)
  }

  predicate LiveReference(a: Agreement, key: Key) {
    a.deletionRequestedAt.None? && (key in a.versions || key in a.files)
  }

  predicate HasPending(t: Tables, id: Uuid) {
    exists o :: o in t.objects && t.objects[o].deletion == id && t.objects[o].state == Pending
  }

  predicate Finishes(o: Object, id: Uuid, i: Intent) {
    o.deletion == id && o.category == i.category && o.key == i.key && o.state != Pending
  }

  predicate Reconciled(t: Tables, id: Uuid, i: Intent) {
    i.state == Settled && exists o :: o in t.objects && Finishes(t.objects[o], id, i)
  }

  predicate IntentsReconciled(t: Tables, id: Uuid) {
    forall i :: i in t.intents && t.intents[i].agreement == id ==> Reconciled(t, id, t.intents[i])
  }

  // ---- row transitions

  function ClaimedRow(r: Request, token: Uuid, now: Time): Request {
    r.(state := Processing, attempts := r.attempts + 1, claim := Some(token), lease := Some(now + LEASE_SECONDS),
       startedAt := if r.startedAt.Some? then r.startedAt else Some(now), failure := None)
  }

  function RetryingRow(r: Request, failure: FailureCategory, next: Time): Request {
    r.(state := Retrying, claim := None, lease := None, nextAttempt := next, failure := Some(failure))
  }

  function FailedRow(r: Request, failure: FailureCategory, now: Time): Request {
    r.(state := Failed, claim := None, lease := None, failure := Some(failure), failedAt := Some(now))
  }

  function CompletedRow(r: Request, now: Time): Request {
    r.(state := Completed, claim := None, lease := None, failure := None, completedAt := Some(now))
  }

  /** Every exit from processing re-arms the outbox and takes its lease away. */
  function ArmedRow(o: Outbox, next: Time): Outbox {
    o.(nextAttempt := next, lease := None, leaseExpires := None, deliveredAt := None)
  }

  function Armed(outbox: map<Uuid, Outbox>, id: Uuid, next: Time): map<Uuid, Outbox> {
    if id in outbox then outbox[id := ArmedRow(outbox[id], next)] else outbox
  }

  // ---- transactions of SQLAlchemyAgreementDeletionRepository

  function ClaimTx(t: Tables, id: Uuid, token: Uuid, now: Time): Tables {
    if id in t.requests && Claimable(t.requests[id], now)
    then t.(requests := t.requests[id := ClaimedRow(t.requests[id], token, now)])
    else t
  }

  /** The row `_finish_object` closes. */
  predicate PendingOf(t: Tables, id: Uuid, item: Uuid) {
    item in t.objects && t.objects[item].deletion == id && t.objects[item].state == Pending
  }

  /** `_finish_object`: close the object, and renew the lease of the claim that closes it. */
  function FinishObject(t: Tables, c: Claim, item: Uuid, state: ObjectState, now: Time): Tables {
    var id := c.deletion;
    t.(objects := if PendingOf(t, id, item) then t.objects[item := t.objects[item].(state := state)] else t.objects,
       requests := if id in t.requests && t.requests[id].claim == Some(c.token)
                   then t.requests[id := t.requests[id].(lease := Some(now + LEASE_SECONDS))] else t.requests)
  }

  /** The current claim and the pending item `delete_source_if_unreferenced` looks for. */
  predicate MayClose(t: Tables, c: Claim, item: Uuid) {
    Holds(t, c.deletion, c.token) && PendingOf(t, c.deletion, item)
  }

  /** The branch of `delete_source_if_unreferenced` that touches the object. */
  predicate Deletes(t: Tables, c: Claim, item: Uuid) {
    MayClose(t, c, item) && !Shared(t, c.deletion, t.objects[item].key)
  }

  /** The rows it writes once the EXISTS query has answered. */
  function CloseSourceTx(t: Tables, c: Claim, item: Uuid, shared: bool, now: Time): Tables
    requires MayClose(t, c, item)
  {
    if shared then FinishObject(t, c, item, Preserved, now)
    else FinishObject(t.(registry := t.registry[t.objects[item].key := Registry(Gone, now)]), c, item, Deleted, now)
  }

  /** The whole transaction when nothing comes between the query and the delete. */
  function DeleteSourceTx(t: Tables, c: Claim, item: Uuid, now: Time): Tables {
    if MayClose(t, c, item)
    then CloseSourceTx(t, c, item, Shared(t, c.deletion, t.objects[item].key), now) else t
  }

  function MarkDeletedTx(t: Tables, c: Claim, item: Uuid, now: Time): Tables {
    if Holds(t, c.deletion, c.token) then FinishObject(t, c, item, Deleted, now) else t
  }

  function RetryTx(t: Tables, c: Claim, failure: FailureCategory, next: Time): Tables {
    if Holds(t, c.deletion, c.token)
    then t.(requests := t.requests[c.deletion := RetryingRow(t.requests[c.deletion], failure, next)],
            outbox := Armed(t.outbox, c.deletion, next))
    else t
  }

  function FailTx(t: Tables, c: Claim, failure: FailureCategory, now: Time): Tables {
    if Holds(t, c.deletion, c.token)
    then t.(requests := t.requests[c.deletion := FailedRow(t.requests[c.deletion], failure, now)],
            outbox := Armed(t.outbox, c.deletion, now),
            audits := t.audits + multiset{AuditEvent(c.deletion, FailedEvent, t.requests[c.deletion].cycle)})
    else t
  }

  /** `SKIP LOCKED`: a request whose row another transaction holds is left for the next sweep. */
  predicate Recovers(t: Tables, id: Uuid, now: Time, locked: set<Uuid>) {
    id in t.requests && Expired(t.requests[id], now) && id !in locked
  }

  function RecoverTx(t: Tables, now: Time, locked: set<Uuid> := {}): Tables {
    t.(requests := map id | id in t.requests ::
         if Recovers(t, id, now, locked) then RetryingRow(t.requests[id], DatabaseCleanup, now) else t.requests[id],
       outbox := map id | id in t.outbox ::
         if Recovers(t, id, now, locked) then ArmedRow(t.outbox[id], now) else t.outbox[id])
  }

  /** What `complete_and_purge` requires before it purges; otherwise it raises. */
  predicate Purgeable(t: Tables, id: Uuid) {
    !HasPending(t, id) && IntentsReconciled(t, id)
  }

  function PurgedAgreement(a: Agreement): Agreement {
    a.(versions := {}, files := {}, derived := {})
  }

  /** Purge and completion of one agreement, `_purge_owned_rows` and the terminal update. */
  function PurgeTx(t: Tables, id: Uuid, now: Time): Tables
    requires id in t.requests && id in t.agreements
  {
    t.(agreements := t.agreements[id := PurgedAgreement(t.agreements[id])],
       requests := t.requests[id := CompletedRow(t.requests[id], now)],
       objects := map o | o in t.objects && t.objects[o].deletion != id :: t.objects[o],
       outbox := t.outbox - {id},
       intents := map i | i in t.intents && t.intents[i].agreement != id :: t.intents[i],
       audits := t.audits + multiset{AuditEvent(id, CompletedEvent, t.requests[id].cycle)})
  }

  function CompleteTx(t: Tables, c: Claim, now: Time): Tables {
    if Holds(t, c.deletion, c.token) && Purgeable(t, c.deletion) && c.deletion in t.agreements
    then PurgeTx(t, c.deletion, now) else t
  }

  predicate Due(t: Tables, id: Uuid, now: Time) {
    && id in t.outbox && id in t.requests
    && t.outbox[id].deliveredAt.None? && t.outbox[id].nextAttempt <= now && Waiting(t.requests[id])
    && (t.outbox[id].lease.None? || (t.outbox[id].leaseExpires.Some? && t.outbox[id].leaseExpires.value <= now))
  }

  function LeasedRow(o: Outbox, ticket: Uuid, now: Time): Outbox {
    o.(lease := Some(ticket), leaseExpires := Some(now + LEASE_SECONDS), attempts := o.attempts + 1)
  }

  function LeaseOutboxTx(t: Tables, id: Uuid, ticket: Uuid, now: Time): Tables
    requires id in t.outbox
  {
    t.(outbox := t.outbox[id := LeasedRow(t.outbox[id], ticket, now)])
  }

  /** The row a sweeper may still close: its own lease, not delivered. */
  predicate OwnsTicket(t: Tables, id: Uuid, ticket: Uuid) {
    id in t.outbox && t.outbox[id].lease == Some(ticket) && t.outbox[id].deliveredAt.None?
  }

  function DeliveredTx(t: Tables, id: Uuid, ticket: Uuid, now: Time): Tables {
    if OwnsTicket(t, id, ticket)
    then t.(outbox := t.outbox[id := t.outbox[id].(deliveredAt := Some(now), lease := None, leaseExpires := None)])
    else t
  }

  function ReleaseTx(t: Tables, id: Uuid, ticket: Uuid, next: Time): Tables {
    if OwnsTicket(t, id, ticket)
    then t.(outbox := t.outbox[id := t.outbox[id].(nextAttempt := next, lease := None, leaseExpires := None)])
    else t
  }

  // ---- transactions of the API and of late processing work

  function AcceptedRow(now: Time): Request {
    Request(Accepted, 0, 1, None, None, now, now, None, None, None, None)
  }

  /** `accept_deletion`: tombstone, request, inventory, outbox and audit in one transaction. */
  function AcceptTx(t: Tables, id: Uuid, inventory: map<Uuid, Object>, now: Time): Tables
    requires id in t.agreements
  {
    t.(agreements := t.agreements[id := t.agreements[id].(deletionRequestedAt := Some(now))],
       requests := t.requests[id := AcceptedRow(now)],
       objects := t.objects + inventory,
       outbox := t.outbox[id := Outbox(0, now, None, None, None)],
       audits := t.audits + multiset{AuditEvent(id, RequestedEvent, 1)})
  }

  function RedrivenRow(r: Request, now: Time): Request {
    r.(state := Accepted, cycle := r.cycle + 1, attempts := 0, claim := None, lease := None,
       nextAttempt := now, failure := None, failedAt := None)
  }

  /** `redrive_deletion` of a failed request. */
  function RedriveTx(t: Tables, id: Uuid, now: Time): Tables
    requires id in t.requests
  {
    if t.requests[id].state != Failed then t
    else t.(requests := t.requests[id := RedrivenRow(t.requests[id], now)],
            outbox := Armed(t.outbox, id, now),
            audits := t.audits + multiset{AuditEvent(id, RedrivenEvent, t.requests[id].cycle + 1)})
  }

  predicate Terminal(r: Request) {
    r.state == Completed || r.state == Failed
  }

  function ReopenedRow(r: Request, now: Time): Request {
    r.(state := Retrying, attempts := if Terminal(r) then 0 else r.attempts,
       cycle := if Terminal(r) then r.cycle + 1 else r.cycle, claim := None, lease := None, nextAttempt := now,
       failure := Some(ArtifactRace), completedAt := None, failedAt := None)
  }

  /** `_inventory_late_artifact`: an artifact that appears after acceptance reopens its deletion,
      whatever state that is in; a purged outbox row is inserted again. */
  function LateArtifactTx(t: Tables, id: Uuid, item: Uuid, late: Object, now: Time): Tables
    requires id in t.requests
  {
    t.(requests := t.requests[id := ReopenedRow(t.requests[id], now)],
       objects := t.objects[item := late.(state := Pending)],
       outbox := t.outbox[id := Outbox(0, now, None, None, None)])
  }

}
