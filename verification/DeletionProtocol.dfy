/** The deletion protocol as interleaved steps: any number of workers, sweepers and API calls over
    one set of tables, one object store and one at-least-once queue. Every database transaction is
    one step; storage calls, enqueues and lost transactions are steps of their own, so a crash is
    simply a step that never comes. The source reads `now` before it opens a transaction, so every
    step carries its own reading, which may lag behind the clock.

    One transaction is two steps, because it does not lock everything it reads: the source delete
    asks who shares the key, and only then removes the object. It holds the lock of the key and of
    its own request and item in between. A transaction that needs one of those comes after its end;
    so when such a step happens first, the open query has been rolled back. */
module DeletionProtocol {
  import opened Prelude
  import opened DeletionKeys
  import opened DeletionTables

  /** A queued delivery; `ticket` is the outbox lease under which it was enqueued. */
  datatype Message = Message(deletion: Uuid, ticket: Uuid, sentAt: Time)

  /** One outbox lease: `claim_due_outbox` read the clock as `leasedAt`. */
  datatype Ticket = Ticket(deletion: Uuid, leasedAt: Time)

  /** What workers and sweepers hold in memory. No transaction reads it; it says which claim, lease
      or message a process is entitled to act with. */
  datatype Handouts = Handouts(
    issued: set<Uuid>,            // every claim token, outbox ticket and message id so far
    claims: map<Uuid, Claim>,     // claim token to what the worker was handed
    tickets: map<Uuid, Ticket>,   // outbox lease token to the lease it stands for
    sent: map<Uuid, Uuid>,        // outbox lease token to the message enqueued under it
    attempted: set<Uuid>,         // messages whose claim transaction has run
    setbacks: map<Uuid, nat>)     // expired leases and late artifacts in the current retry cycle

  /** What the proofs remember about objects; a turn numbers the steps that touch them. */
  datatype Past = Past(
    turn: nat,
    claimTurn: map<Uuid, nat>,
    acceptTurn: map<Uuid, nat>,
    archive: map<Uuid, Object>,       // the inventory without the purge
    inventoryTurn: map<Uuid, nat>,
    wiped: map<(Uuid, Uuid), nat>,    // (token, item): the storage delete made under a claim
    wipeTurn: map<Uuid, nat>,         // last storage delete made for an item
    storeTurn: map<Key, nat>,         // last put of a key
    keys: map<Uuid, set<Key>>,        // every key an agreement ever referenced
    columns: set<(Uuid, set<Key>)>,   // every value its `files` column ever had
    held: map<Uuid, set<Key>>,        // the source keys inventoried when its deletion was accepted
    stamps: set<(Key, Time)>,         // recorded uploads
    swallowed: set<Message>)          // messages skipped for a transaction that then rolled back

  /** What an open source delete read: whether somebody shared the key of its item. */
  datatype Look = Look(item: Uuid, key: Key, shared: bool)

  /** `looks` holds the open source deletes by claim token. */
  datatype World = World(
    now: Time, t: Tables, stored: set<Key>, queue: map<Uuid, Message>, h: Handouts, p: Past, looks: map<Uuid, Look>)

  /** The API steps on references: `Create` is `POST /agreements`, whose last file becomes the first
      version; `AddVersion` is a later version, which replaces the `files` column; `Rewrite` is an
      archive or restore, which writes back the column it read before it took the row lock. */

  datatype EnvStep =
    | Tick(to: Time)
    | Upload(key: Key, now: Time)
    | UploadTorn(key: Key)
    | Create(agreement: Uuid, files: set<Key>, last: Option<Key>)
    | AddVersion(agreement: Uuid, key: Key)
    | Rewrite(agreement: Uuid, files: set<Key>)
    | Derive(agreement: Uuid, row: Uuid)
    | Plan(intent: Uuid, plan: Intent)
    | Drop(intent: Uuid)
    | StoreArtifact(key: Key)
    | Accept(id: Uuid, read: set<Key>, inventory: map<Uuid, Object>, now: Time)
    | Redrive(id: Uuid, now: Time)
    | Late(id: Uuid, item: Uuid, late: Object, dropped: set<Uuid>, now: Time)

  datatype WorkerStep =
    | TakeClaim(message: Uuid, token: Uuid, now: Time)
    | Skip(message: Uuid, torn: bool)
    | CheckSource(token: Uuid, item: Uuid)
    | CloseSource(token: Uuid, now: Time)
    | CloseSourceTorn(token: Uuid)
    | Wipe(token: Uuid, item: Uuid)
    | MarkDeleted(token: Uuid, item: Uuid, now: Time)
    | Retry(token: Uuid, failure: FailureCategory, next: Time)
    | Fail(token: Uuid, failure: FailureCategory, now: Time)
    | Complete(token: Uuid, now: Time)
    | Ack(message: Uuid)

  datatype SweeperStep =
    | Recover(now: Time, locked: set<Uuid>)
    | LeaseOutbox(id: Uuid, ticket: Uuid, now: Time)
    | Enqueue(ticket: Uuid, message: Uuid)
    | MarkDelivered(ticket: Uuid, now: Time)
    | Release(ticket: Uuid, next: Time)

  datatype Step = Env(env: EnvStep) | Worker(worker: WorkerStep) | Sweeper(sweeper: SweeperStep)

  function Setbacks(h: Handouts, id: Uuid): nat {
    if id in h.setbacks then h.setbacks[id] else 0
  }

  predicate Live(t: Tables, a: Uuid) {
    a in t.agreements && t.agreements[a].deletionRequestedAt.None?
  }

  // ---- guards

  /** An item a worker read with `pending_objects` under its claim, in the category it acts on. */
  predicate Read(w: World, token: Uuid, item: Uuid, source: bool) {
    && token in w.h.claims && item in w.p.archive && w.p.archive[item].deletion == w.h.claims[token].deletion
    && (w.p.archive[item].category == Source <==> source)
  }

  predicate KeyChecked(tenant: Tenant, o: Object) {
    ValidOwnedKey(tenant, o.deletion, o.category, o.key)
  }

  /** The source keys `deletion_objects` lists: the version rows, and the `files` column as the
      request had read it before it locked the agreement. */
  function HeldKeys(w: World, id: Uuid, read: set<Key>): set<Key>
    requires id in w.t.agreements
  {
    w.t.agreements[id].versions + read
  }

  predicate SourceRow(inventory: map<Uuid, Object>, o: Uuid, key: Key) {
    o in inventory && inventory[o].category == Source && inventory[o].key == key
  }

  /** The inventory `accept_deletion` builds: fresh rows, a source row for exactly the keys held. */
  ghost predicate Inventories(w: World, id: Uuid, held: set<Key>, inventory: map<Uuid, Object>) {
    && (forall o :: o in inventory ==>
          o !in w.p.archive && inventory[o].deletion == id && inventory[o].state == Pending)
    && (forall key :: key in held <==> exists o :: SourceRow(inventory, o, key))
  }

  /** The guard of `create_version`, under the lock of the key. */
  predicate MayRefer(t: Tables, key: Key) {
    key in t.registry ==> t.registry[key].state == Available
  }

  /** An embedding job's marker: its intent is dropped without a trace, also after acceptance. */
  predicate EmbeddingKey(key: Key) {
    "embedding-reindex/" <= key
  }

  /** A source delete between its query and its end. */
  predicate Open(w: World, token: Uuid) {
    token in w.looks && token in w.h.claims && MayClose(w.t, w.h.claims[token], w.looks[token].item)
  }

  /** How a transaction that held the request row leaves it when it commits, and how an open source
      delete holds it: the request is not waiting, or its outbox row still has a message to send. */
  predicate Rearmed(w: World, id: Uuid) {
    id in w.t.requests && Waiting(w.t.requests[id]) ==>
      && id in w.t.outbox && w.t.outbox[id].deliveredAt.None?
      && (w.t.outbox[id].lease.Some? ==> w.t.outbox[id].lease.value !in w.h.sent)
  }

  /** What the processing worker stores: the categories its intents may have. */
  predicate IsArtifact(category: Category) {
    category.Analysis? || category.Comparison?
  }

  /** A late artifact either names an inventory row of the same key or brings a new one. */
  predicate LateItem(w: World, id: Uuid, item: Uuid, late: Object) {
    && late.deletion == id && IsArtifact(late.category) && late.state == Pending
    && (if item in w.t.objects then w.t.objects[item].(state := Pending) == late else item !in w.p.archive)
  }

  /** An intent that this artifact settles: `expect` refused any other key for it. */
  predicate Plans(i: Intent, o: Object) {
    i.agreement == o.deletion && i.category == o.category && i.key == o.key
  }

  ghost predicate EnvEnabled(tenant: Tenant, w: World, s: EnvStep) {
    match s
    case Tick(to) => w.now <= to
    case Upload(key, now) => SourceShaped(tenant, key) && now <= w.now
    case UploadTorn(key) => SourceShaped(tenant, key)
    case Create(a, files, last) =>
      && a !in w.t.agreements && (last.None? <==> files == {})
      && (last.Some? ==> last.value in files && MayRefer(w.t, last.value))
    case AddVersion(a, key) => Live(w.t, a) && MayRefer(w.t, key)
    case Rewrite(a, files) => Live(w.t, a) && (a, files) in w.p.columns
    case Derive(a, _) => Live(w.t, a)
    case Plan(i, plan) =>
      && Live(w.t, plan.agreement) && IsArtifact(plan.category)
      && (i in w.t.intents ==> w.t.intents[i].agreement == plan.agreement)
    case Drop(i) => i in w.t.intents && (Live(w.t, w.t.intents[i].agreement) || EmbeddingKey(w.t.intents[i].key))
    case StoreArtifact(key) => !SourceShaped(tenant, key)
    case Accept(id, read, inventory, now) =>
      && Live(w.t, id) && (id, read) in w.p.columns && Inventories(w, id, HeldKeys(w, id, read), inventory)
      && now <= w.now
    case Redrive(id, now) => id in w.t.requests && now <= w.now
    case Late(id, item, late, dropped, now) =>
      && id in w.t.requests && now <= w.now && LateItem(w, id, item, late)
      && (forall i :: i in dropped && i in w.t.intents ==> Plans(w.t.intents[i], late))
  }

  ghost predicate WorkerEnabled(tenant: Tenant, w: World, s: WorkerStep) {
    match s
    case TakeClaim(m, token, now) => m in w.queue && token !in w.h.issued && w.queue[m].sentAt <= now <= w.now
    case Skip(m, torn) => m in w.queue && (torn || Rearmed(w, w.queue[m].deletion))
    case CheckSource(token, item) => Read(w, token, item, true) && KeyChecked(tenant, w.p.archive[item])
    case CloseSource(token, now) => Open(w, token) && now <= w.now
    case CloseSourceTorn(token) => Open(w, token) && !w.looks[token].shared
    case Wipe(token, item) => Read(w, token, item, false) && KeyChecked(tenant, w.p.archive[item])
    case MarkDeleted(token, item, now) => Read(w, token, item, false) && (token, item) in w.p.wiped && now <= w.now
    case Retry(token, _, _) => token in w.h.claims && MayRetry(w.h.claims[token].attempts)
    case Fail(token, _, now) => token in w.h.claims && !MayRetry(w.h.claims[token].attempts) && now <= w.now
    case Complete(token, now) => token in w.h.claims && now <= w.now
    case Ack(m) => m in w.h.attempted
  }

  ghost predicate SweeperEnabled(w: World, s: SweeperStep) {
    match s
    case Recover(now, locked) => now <= w.now
    case LeaseOutbox(id, ticket, now) => Due(w.t, id, now) && ticket !in w.h.issued && now <= w.now
    case Enqueue(ticket, m) => ticket in w.h.tickets && ticket !in w.h.sent && m !in w.h.issued
    case MarkDelivered(ticket, now) => ticket in w.h.tickets && ticket in w.h.sent && now <= w.now
    case Release(ticket, next) => ticket in w.h.tickets && w.h.tickets[ticket].leasedAt <= next
  }

  // ---- effects

  function Bump(p: Past): Past {
    p.(turn := p.turn + 1)
  }

  function Put(w: World, key: Key): World {
    w.(stored := w.stored + {key}, p := Bump(w.p).(storeTurn := w.p.storeTurn[key := w.p.turn]))
  }

  /** Whoever takes the lock of a key comes after the end of an open delete of that key. */
  function Unlocked(looks: map<Uuid, Look>, key: Key): map<Uuid, Look> {
    map token | token in looks && looks[token].key != key :: looks[token]
  }

  /** The put of an upload, under the lock of the key. */
  function PutLocked(w: World, key: Key): World {
    Put(w, key).(looks := Unlocked(w.looks, key))
  }

  /** An upload holds the key lock across the put and the registry row. */
  function Uploaded(w: World, key: Key, now: Time): World {
    var w' := PutLocked(w, key);
    w'.(t := w.t.(registry := w.t.registry[key := Registry(Available, now)]),
        p := w'.p.(stamps := w.p.stamps + {(key, now)}))
  }

  /** An agreement row with these versions and this `files` column. */
  function Rewritten(w: World, a: Uuid, versions: set<Key>, files: set<Key>): World {
    var row := if a in w.t.agreements then w.t.agreements[a] else Agreement({}, {}, {}, None);
    var known := if a in w.p.keys then w.p.keys[a] else {};
    w.(t := w.t.(agreements := w.t.agreements[a := row.(versions := versions, files := files)]),
       p := Bump(w.p).(keys := w.p.keys[a := known + versions + files], columns := w.p.columns + {(a, files)}))
  }

  /** Only the last file becomes a version; only its key is locked and looked up. */
  function Created(w: World, a: Uuid, files: set<Key>, last: Option<Key>): World {
    if last.None? then Rewritten(w, a, {}, files)
    else Rewritten(w, a, {last.value}, files).(looks := Unlocked(w.looks, last.value))
  }

  /** The new version is also the whole new `files` column. */
  function VersionAdded(w: World, a: Uuid, key: Key): World
    requires a in w.t.agreements
  {
    Rewritten(w, a, w.t.agreements[a].versions + {key}, {key}).(looks := Unlocked(w.looks, key))
  }

  function Derived(w: World, a: Uuid, row: Uuid): World
    requires a in w.t.agreements
  {
    var agreement := w.t.agreements[a];
    w.(t := w.t.(agreements := w.t.agreements[a := agreement.(derived := agreement.derived + {row})]))
  }

  function AcceptApplied(w: World, id: Uuid, held: set<Key>, inventory: map<Uuid, Object>, now: Time): World
    requires id in w.t.agreements
  {
    w.(t := AcceptTx(w.t, id, inventory, now),
       p := Bump(w.p).(acceptTurn := w.p.acceptTurn[id := w.p.turn], held := w.p.held[id := held],
                       archive := w.p.archive + inventory,
                       inventoryTurn := w.p.inventoryTurn + map o | o in inventory :: w.p.turn))
  }

  function Redriven(w: World, id: Uuid, now: Time): World
    requires id in w.t.requests
  {
    w.(t := RedriveTx(w.t, id, now),
       h := if w.t.requests[id].state == Failed then w.h.(setbacks := w.h.setbacks[id := 0]) else w.h)
  }

  function LateApplied(w: World, id: Uuid, item: Uuid, late: Object, dropped: set<Uuid>, now: Time): World
    requires id in w.t.requests
  {
    var t := LateArtifactTx(w.t, id, item, late, now);
    var setbacks := if Terminal(w.t.requests[id]) then 0 else Setbacks(w.h, id) + 1;
    w.(t := t.(intents := t.intents - dropped), h := w.h.(setbacks := w.h.setbacks[id := setbacks]),
       p := Bump(w.p).(archive := w.p.archive[item := late], inventoryTurn := w.p.inventoryTurn[item := w.p.turn]))
  }

  function Granted(w: World, id: Uuid, m: Uuid, token: Uuid, now: Time): World
    requires id in w.t.requests
  {
    var r := w.t.requests[id];
    var setbacks := Setbacks(w.h, id) + if r.state == Processing then 1 else 0;
    w.(t := w.t.(requests := w.t.requests[id := ClaimedRow(r, token, now)]),
       h := Handouts(w.h.issued + {token}, w.h.claims[token := Claim(id, r.attempts + 1, token)], w.h.tickets, w.h.sent,
                     w.h.attempted + {m}, w.h.setbacks[id := setbacks]),
       p := Bump(w.p).(claimTurn := w.p.claimTurn[token := w.p.turn]))
  }

  function Refused(w: World, m: Uuid, token: Uuid): World {
    w.(h := w.h.(issued := w.h.issued + {token}, attempted := w.h.attempted + {m}))
  }

  /** `claim` found the row locked and returned None, and the worker acknowledges the message. */
  function Skipped(w: World, m: Uuid, torn: bool): World
    requires m in w.queue
  {
    w.(h := w.h.(attempted := w.h.attempted + {m}),
       p := if torn then w.p.(swallowed := w.p.swallowed + {w.queue[m]}) else w.p)
  }

  function Claimed(w: World, m: Uuid, token: Uuid, now: Time): (w': World)
    requires m in w.queue
    ensures w'.t == ClaimTx(w.t, w.queue[m].deletion, token, now)
  {
    var id := w.queue[m].deletion;
    if id in w.t.requests && Claimable(w.t.requests[id], now) then Granted(w, id, m, token, now)
      else Refused(w, m, token)
  }

  /** Storage loses a key for an item; the tables are updated separately, if at all. */
  function Removed(w: World, item: Uuid, key: Key): World {
    w.(stored := w.stored - {key}, p := Bump(w.p).(wipeTurn := w.p.wipeTurn[item := w.p.turn]))
  }

  function Wiped(w: World, token: Uuid, item: Uuid): World
    requires item in w.p.archive
  {
    var w' := Removed(w, item, w.p.archive[item].key);
    w'.(p := w'.p.(wiped := w.p.wiped[(token, item) := w.p.turn]))
  }

  /** A transaction that may close inventory rows; the archive follows them. */
  function Closed(w: World, t: Tables): World {
    w.(t := t, p := w.p.(archive := w.p.archive + t.objects))
  }

  /** The query of a source delete. It takes the lock of the key; it looks no further, and its
      transaction ends, if the claim was lost or the item is not pending. */
  function Looked(w: World, token: Uuid, item: Uuid): World
    requires token in w.h.claims && item in w.p.archive
  {
    var c, key := w.h.claims[token], w.p.archive[item].key;
    var others := Unlocked(w.looks, key) - {token};
    w.(looks := if MayClose(w.t, c, item) then others[token := Look(item, key, Shared(w.t, c.deletion, key))]
      else others)
  }

  /** The transaction of this token ends. */
  function Ended(w: World, token: Uuid): World {
    w.(looks := w.looks - {token})
  }

  /** The object goes, the transaction is lost. */
  function SourceTorn(w: World, token: Uuid): World
    requires Open(w, token)
  {
    Removed(Ended(w, token), w.looks[token].item, w.looks[token].key)
  }

  function SourceClosed(w: World, token: Uuid, now: Time): World
    requires Open(w, token)
  {
    var look := w.looks[token];
    Closed(if look.shared then Ended(w, token) else SourceTorn(w, token),
           CloseSourceTx(w.t, w.h.claims[token], look.item, look.shared, now))
  }

  function Recovered(w: World, now: Time, locked: set<Uuid>): World {
    w.(t := RecoverTx(w.t, now, locked),
       h := w.h.(setbacks := w.h.setbacks +
         map id | id in w.t.requests && Recovers(w.t, id, now, locked) :: Setbacks(w.h, id) + 1))
  }

  function OutboxLeased(w: World, id: Uuid, ticket: Uuid, now: Time): World
    requires id in w.t.outbox
  {
    w.(t := LeaseOutboxTx(w.t, id, ticket, now),
       h := w.h.(issued := w.h.issued + {ticket}, tickets := w.h.tickets[ticket := Ticket(id, now)]))
  }

  function Enqueued(w: World, ticket: Uuid, m: Uuid): World
    requires ticket in w.h.tickets
  {
    w.(queue := w.queue[m := Message(w.h.tickets[ticket].deletion, ticket, w.now)],
       h := w.h.(issued := w.h.issued + {m}, sent := w.h.sent[ticket := m]))
  }

  ghost function EnvApply(tenant: Tenant, w: World, s: EnvStep): World
    requires EnvEnabled(tenant, w, s)
  {
    match s
    case Tick(to) => w.(now := to)
    case Upload(key, now) => Uploaded(w, key, now)
    case UploadTorn(key) => PutLocked(w, key)
    case Create(a, files, last) => Created(w, a, files, last)
    case AddVersion(a, key) => VersionAdded(w, a, key)
    case Rewrite(a, files) => Rewritten(w, a, w.t.agreements[a].versions, files)
    case Derive(a, row) => Derived(w, a, row)
    case Plan(i, plan) => w.(t := w.t.(intents := w.t.intents[i := plan]))
    case Drop(i) => w.(t := w.t.(intents := w.t.intents - {i}))
    case StoreArtifact(key) => Put(w, key)
    case Accept(id, read, inventory, now) => AcceptApplied(w, id, HeldKeys(w, id, read), inventory, now)
    case Redrive(id, now) => Redriven(w, id, now)
    case Late(id, item, late, dropped, now) => LateApplied(w, id, item, late, dropped, now)
  }

  ghost function WorkerApply(tenant: Tenant, w: World, s: WorkerStep): World
    requires WorkerEnabled(tenant, w, s)
  {
    match s
    case TakeClaim(m, token, now) => Claimed(w, m, token, now)
    case Skip(m, torn) => Skipped(w, m, torn)
    case CheckSource(token, item) => Looked(w, token, item)
    case CloseSource(token, now) => SourceClosed(w, token, now)
    case CloseSourceTorn(token) => SourceTorn(w, token)
    case Wipe(token, item) => Wiped(w, token, item)
    case MarkDeleted(token, item, now) => Closed(w, MarkDeletedTx(w.t, w.h.claims[token], item, now))
    case Retry(token, failure, next) => w.(t := RetryTx(w.t, w.h.claims[token], failure, next))
    case Fail(token, failure, now) => w.(t := FailTx(w.t, w.h.claims[token], failure, now))
    case Complete(token, now) => w.(t := CompleteTx(w.t, w.h.claims[token], now))
    case Ack(m) => w.(queue := w.queue - {m})
  }

  ghost function SweeperApply(w: World, s: SweeperStep): World
    requires SweeperEnabled(w, s)
  {
    match s
    case Recover(now, locked) => Recovered(w, now, locked)
    case LeaseOutbox(id, ticket, now) => OutboxLeased(w, id, ticket, now)
    case Enqueue(ticket, m) => Enqueued(w, ticket, m)
    case MarkDelivered(ticket, now) => w.(t := DeliveredTx(w.t, w.h.tickets[ticket].deletion, ticket, now))
    case Release(ticket, next) => w.(t := ReleaseTx(w.t, w.h.tickets[ticket].deletion, ticket, next))
  }

  ghost predicate Enabled(tenant: Tenant, w: World, s: Step) {
    match s
    case Env(e) => EnvEnabled(tenant, w, e)
    case Worker(x) => WorkerEnabled(tenant, w, x)
    case Sweeper(x) => SweeperEnabled(w, x)
  }

  ghost function Apply(tenant: Tenant, w: World, s: Step): World
    requires Enabled(tenant, w, s)
  {
    match s
    case Env(e) => EnvApply(tenant, w, e)
    case Worker(x) => WorkerApply(tenant, w, x)
    case Sweeper(x) => SweeperApply(w, x)
  }

  /** What each API step does to references and objects. A created agreement refers to its last file as a
      version and to all of them in the `files` column; a later version joins the versions and replaces that
      column, and is refused for a key on record as gone. */
  lemma ReferenceStepsAre(tenant: Tenant, w: World, s: EnvStep)
    requires EnvEnabled(tenant, w, s)
    ensures var v := EnvApply(tenant, w, s);
            match s
            case Create(a, files, last) =>
              && a !in w.t.agreements && (last.None? <==> files == {}) && v.stored == w.stored
              && (last.Some? ==> last.value in files)
              && (last.Some? && last.value in w.t.registry ==> w.t.registry[last.value].state == Available)
              && v.t == w.t.(agreements := w.t.agreements[a :=
                   Agreement(if last.Some? then {last.value} else {}, files, {}, None)])
            case AddVersion(a, key) =>
              && a in w.t.agreements && w.t.agreements[a].deletionRequestedAt.None? && v.stored == w.stored
              && (key in w.t.registry ==> w.t.registry[key].state == Available)
              && v.t == w.t.(agreements := w.t.agreements[a :=
                   w.t.agreements[a].(versions := w.t.agreements[a].versions + {key}, files := {key})])
            case Rewrite(a, files) =>
              && a in w.t.agreements && w.t.agreements[a].deletionRequestedAt.None? && v.stored == w.stored
              && v.t == w.t.(agreements := w.t.agreements[a := w.t.agreements[a].(files := files)])
            case Upload(key, now) =>
              v.stored == w.stored + {key} && v.t == w.t.(registry := w.t.registry[key := Registry(Available, now)])
            case UploadTorn(key) => v.stored == w.stored + {key} && v.t == w.t
            case StoreArtifact(key) => v.stored == w.stored + {key} && v.t == w.t
            case Accept(id, read, inventory, now) =>
              && id in w.t.agreements && w.t.agreements[id].deletionRequestedAt.None? && v.stored == w.stored
              && v.t == AcceptTx(w.t, id, inventory, now)
            case Redrive(id, now) => v.stored == w.stored && v.t == RedriveTx(w.t, id, now)
            case Late(id, item, late, dropped, now) =>
              v.stored == w.stored && v.t == LateArtifactTx(w.t, id, item, late, now).(intents := w.t.intents - dropped)
            case _ => v.stored == w.stored
  {
  }

  /** An accepted deletion lists, as pending items of its own, exactly the source keys of its version rows and
      of the `files` column as it had read it. */
  lemma AcceptListsWhatIsHeld(tenant: Tenant, w: World, id: Uuid, read: set<Key>, inventory: map<Uuid, Object>,
      now: Time, key: Key)
    requires EnvEnabled(tenant, w, Accept(id, read, inventory, now))
    ensures id in w.t.agreements && w.t.agreements[id].deletionRequestedAt.None? && (id, read) in w.p.columns
    ensures forall o :: o in inventory ==> inventory[o].deletion == id && inventory[o].state == Pending
    ensures key in w.t.agreements[id].versions || key in read <==>
            exists o :: o in inventory && inventory[o].category == Source && inventory[o].key == key
  {
    assert key in HeldKeys(w, id, read) <==> exists o :: SourceRow(inventory, o, key);
    if o :| o in inventory && inventory[o].category == Source && inventory[o].key == key {
      assert SourceRow(inventory, o, key);
    }
  }

  /** What each worker step does to storage and to the queue: the end of a source delete removes the key its
      query found unshared, the cleanup of any other item the item's key, an acknowledgement its message. */
  lemma WorkerStorageIs(tenant: Tenant, w: World, s: WorkerStep)
    requires WorkerEnabled(tenant, w, s)
    ensures var v := WorkerApply(tenant, w, s);
            && v.now == w.now && v.queue == (if s.Ack? then w.queue - {s.message} else w.queue)
            && match s
               case CloseSource(token, _) =>
                 token in w.looks && v.stored == w.stored - if w.looks[token].shared then {} else {w.looks[token].key}
               case CloseSourceTorn(token) =>
                 token in w.looks && !w.looks[token].shared && v.stored == w.stored - {w.looks[token].key}
               case Wipe(token, item) => item in w.p.archive && v.stored == w.stored - {w.p.archive[item].key}
               case _ => v.stored == w.stored
  {
  }

  /** What a sweeper step does: it recovers expired claims, leases a due row, enqueues one message under its
      lease, and closes or gives back the row under that lease. */
  lemma SweeperStepsAre(w: World, s: SweeperStep)
    requires SweeperEnabled(w, s)
    ensures var v := SweeperApply(w, s);
            && v.now == w.now && v.stored == w.stored && v.looks == w.looks && v.p == w.p
            && match s
               case Recover(now, locked) => v.queue == w.queue && v.t == RecoverTx(w.t, now, locked)
               case LeaseOutbox(id, ticket, now) =>
                 && v.queue == w.queue && id in w.t.outbox && v.t == LeaseOutboxTx(w.t, id, ticket, now)
                 && v.h.tickets == w.h.tickets[ticket := Ticket(id, now)]
               case Enqueue(ticket, m) =>
                 && ticket in w.h.tickets && ticket !in w.h.sent && v.t == w.t
                 && v.queue == w.queue[m := Message(w.h.tickets[ticket].deletion, ticket, w.now)]
                 && v.h.sent == w.h.sent[ticket := m]
               case MarkDelivered(ticket, now) =>
                 && ticket in w.h.tickets && ticket in w.h.sent && v.queue == w.queue
                 && v.t == DeliveredTx(w.t, w.h.tickets[ticket].deletion, ticket, now)
               case Release(ticket, next) =>
                 && ticket in w.h.tickets && v.queue == w.queue
                 && v.t == ReleaseTx(w.t, w.h.tickets[ticket].deletion, ticket, next)
  {
  }

  /** What a grant hands the worker: the deletion, the attempt it is, and its token. */
  lemma GrantIs(tenant: Tenant, w: World, m: Uuid, token: Uuid, now: Time)
    requires WorkerEnabled(tenant, w, TakeClaim(m, token, now))
    ensures var id := w.queue[m].deletion;
            var v := WorkerApply(tenant, w, TakeClaim(m, token, now));
            var granted := id in w.t.requests && w.t.requests[id].nextAttempt <= now
              && var r := w.t.requests[id];
                 r.state == Accepted || r.state == Retrying
                 || (r.state == Processing && r.lease.Some? && r.lease.value <= now);
            && v.t == (if granted then ClaimTx(w.t, id, token, now) else w.t)
            && v.h.claims == if !granted then w.h.claims
                             else w.h.claims[token := Claim(id, w.t.requests[id].attempts + 1, token)]
  {
  }

  /** With nothing in between, query and end are the one transaction of the repository. */
  lemma CheckThenClose(w: World, token: Uuid, item: Uuid, now: Time)
    requires Read(w, token, item, true) && item in w.t.objects && w.p.archive[item].key == w.t.objects[item].key
    ensures var v, c := Looked(w, token, item), w.h.claims[token];
            && (Open(v, token) <==> MayClose(w.t, c, item))
            && (Open(v, token) ==>
                  && SourceClosed(v, token, now).t == DeleteSourceTx(w.t, c, item, now)
                  && SourceClosed(v, token, now).stored ==
                       w.stored - if Deletes(w.t, c, item) then {w.t.objects[item].key} else {})
  {
  }

  // ---- frames

  /** Queries only end: no new one is made. */
  ghost predicate LooksEnd(w: World, v: World) {
    forall token :: token in v.looks ==> token in w.looks && v.looks[token] == w.looks[token]
  }

  predicate Tombstoned(t: Tables, a: Uuid) {
    a in t.agreements && t.agreements[a].deletionRequestedAt.Some?
  }

  predicate SameInventory(p: Past, q: Past) {
    && q.archive == p.archive && q.inventoryTurn == p.inventoryTurn && q.wiped == p.wiped && q.wipeTurn == p.wipeTurn
    && q.claimTurn == p.claimTurn && q.acceptTurn == p.acceptTurn && q.held == p.held && p.turn <= q.turn
    && q.swallowed == p.swallowed
  }

  /** What the API does apart from accepting and redriving, and the processing worker apart from late
      artifacts, stays out of the deletion protocol. */
  ghost predicate Outside(w: World, v: World) {
    && v.h == w.h && v.queue == w.queue && w.now <= v.now && LooksEnd(w, v) && SameInventory(w.p, v.p)
    && v.t.requests == w.t.requests && v.t.outbox == w.t.outbox && v.t.objects == w.t.objects
    && v.t.audits == w.t.audits
    && (forall a :: Tombstoned(v.t, a) <==> Tombstoned(w.t, a))
    && (forall a :: Tombstoned(w.t, a) ==> v.t.agreements[a] == w.t.agreements[a])
  }

  predicate Enters(s: EnvStep) {
    s.Accept? || s.Redrive? || s.Late?
  }

  lemma RewriteIsOutside(w: World, v: World, a: Uuid, versions: set<Key>, files: set<Key>)
    requires !Tombstoned(w.t, a) && LooksEnd(w, v) && v == Rewritten(w, a, versions, files).(looks := v.looks)
    ensures Outside(w, v)
  {
  }

  lemma ReferencesAreOutside(tenant: Tenant, w: World, s: EnvStep)
    requires EnvEnabled(tenant, w, s) && (s.Create? || s.AddVersion? || s.Rewrite? || s.Derive?)
    ensures Outside(w, EnvApply(tenant, w, s))
  {
    var v := EnvApply(tenant, w, s);
    match s
    case Create(a, files, last) => RewriteIsOutside(w, v, a, if last.None? then {} else {last.value}, files);
    case AddVersion(a, key) => RewriteIsOutside(w, v, a, w.t.agreements[a].versions + {key}, {key});
    case Rewrite(a, files) => RewriteIsOutside(w, v, a, w.t.agreements[a].versions, files);
    case Derive(a, row) => assert Outside(w, Derived(w, a, row));
  }

  lemma PutsAreOutside(tenant: Tenant, w: World, s: EnvStep)
    requires EnvEnabled(tenant, w, s) && (s.Upload? || s.UploadTorn? || s.StoreArtifact?)
    ensures Outside(w, EnvApply(tenant, w, s))
  {
  }

  lemma EnvIsOutside(tenant: Tenant, w: World, s: EnvStep)
    requires EnvEnabled(tenant, w, s) && !Enters(s)
    ensures Outside(w, EnvApply(tenant, w, s))
  {
    if s.Create? || s.AddVersion? || s.Rewrite? || s.Derive? {
      ReferencesAreOutside(tenant, w, s);
    } else if s.Upload? || s.UploadTorn? || s.StoreArtifact? {
      PutsAreOutside(tenant, w, s);
    }
  }

  /** The tables after a worker step. */
  ghost function WorkerTables(w: World, s: WorkerStep): Tables {
    match s
    case TakeClaim(m, token, now) => if m in w.queue then ClaimTx(w.t, w.queue[m].deletion, token, now) else w.t
    case CloseSource(token, now) =>
      if !Open(w, token) then w.t
      else CloseSourceTx(w.t, w.h.claims[token], w.looks[token].item, w.looks[token].shared, now)
    case MarkDeleted(token, item, now) =>
      if token in w.h.claims then MarkDeletedTx(w.t, w.h.claims[token], item, now) else w.t
    case Retry(token, failure, next) =>
      if token in w.h.claims then RetryTx(w.t, w.h.claims[token], failure, next) else w.t
    case Fail(token, failure, now) => if token in w.h.claims then FailTx(w.t, w.h.claims[token], failure, now) else w.t
    case Complete(token, now) => if token in w.h.claims then CompleteTx(w.t, w.h.claims[token], now) else w.t
    case _ => w.t
  }

  lemma WorkerTablesAre(tenant: Tenant, w: World, s: WorkerStep)
    requires WorkerEnabled(tenant, w, s)
    ensures WorkerApply(tenant, w, s).t == WorkerTables(w, s)
  {
  }

  // ---- runs

  /** No agreement, request, message or claim yet; objects of older uploads may already be stored. */
  ghost predicate Initial(w: World) {
    && w.t == Tables(map[], map[], map[], map[], map[], map[], multiset{})
    && w.queue == map[]
    && w.h == Handouts({}, map[], map[], map[], {}, map[])
    && w.p == Past(0, map[], map[], map[], map[], map[], map[], map[], map[], {}, map[], {}, {})
    && w.looks == map[]
  }

  ghost predicate Legal(tenant: Tenant, w: World, run: seq<Step>)
    decreases |run|
  {
    run == [] || (Enabled(tenant, w, run[0]) && Legal(tenant, Apply(tenant, w, run[0]), run[1..]))
  }

  ghost function After(tenant: Tenant, w: World, run: seq<Step>): World
    requires Legal(tenant, w, run)
    decreases |run|
  {
    if run == [] then w else After(tenant, Apply(tenant, w, run[0]), run[1..])
  }

}
