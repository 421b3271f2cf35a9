/** The object inventory over whole runs: nothing is marked deleted that was not removed from storage
    after it was inventoried, and completion leaves nothing pending. */
module DeletionInventory {
  import opened DeletionKeys
  import opened DeletionTables
  import opened DeletionProtocol
  import opened DeletionRows

  /** The removal made for an item still holds unless the key was put again later. */
  predicate StaysRemoved(w: World, o: Uuid)
    requires o in w.p.archive && o in w.p.wipeTurn
  {
    var key := w.p.archive[o].key;
    key in w.stored ==> key in w.p.storeTurn && w.p.wipeTurn[o] < w.p.storeTurn[key]
  }

  /** The claim that may now act on an item was granted after the item was inventoried. */
  predicate ClaimedSince(w: World, o: Uuid)
    requires o in w.p.archive && o in w.p.inventoryTurn && w.p.archive[o].deletion in w.t.requests
  {
    var claim := w.t.requests[w.p.archive[o].deletion].claim;
    claim.Some? ==> claim.value in w.p.claimTurn && w.p.inventoryTurn[o] < w.p.claimTurn[claim.value]
  }

  predicate Inventoried(w: World, o: Uuid)
    requires o in w.p.archive
  {
    var item := w.p.archive[o];
    && item.deletion in w.t.requests
    && o in w.p.inventoryTurn && w.p.inventoryTurn[o] < w.p.turn
    && (item.category == Source ==>
          item.deletion in w.p.acceptTurn && w.p.inventoryTurn[o] == w.p.acceptTurn[item.deletion])
    && ClaimedSince(w, o)
    && (item.state == Pending ==> o in w.t.objects && w.t.requests[item.deletion].state != Completed)
    && (item.state == Deleted ==> o in w.p.wipeTurn && w.p.inventoryTurn[o] < w.p.wipeTurn[o])
  }

  predicate ItemKept(w: World, o: Uuid) {
    && (o in w.t.objects ==> o in w.p.archive && w.p.archive[o] == w.t.objects[o])
    && (o in w.p.archive ==> Inventoried(w, o))
    && (o in w.p.wipeTurn ==> o in w.p.archive && w.p.wipeTurn[o] < w.p.turn && StaysRemoved(w, o))
  }

  /** A storage delete made under a claim came after that claim. */
  predicate WipeKept(w: World, token: Uuid, o: Uuid) {
    (token, o) in w.p.wiped ==>
      && token in w.h.claims && token in w.p.claimTurn && o in w.p.wipeTurn
      && w.p.claimTurn[token] < w.p.wiped[(token, o)] <= w.p.wipeTurn[o]
  }

  /** A source delete in progress is about a source item of its claim. */
  predicate LookRecorded(w: World, token: Uuid) {
    token in w.looks ==>
      var look := w.looks[token];
      Read(w, token, look.item, true) && w.p.archive[look.item].key == look.key
  }

  predicate TokenKept(w: World, token: Uuid) {
    && (token in w.h.claims ==> token in w.p.claimTurn && w.p.claimTurn[token] < w.p.turn)
    && LookRecorded(w, token)
  }

  predicate LookedAt(w: World, token: Uuid) {
    token in w.looks ==> ItemKept(w, w.looks[token].item)
  }

  ghost predicate Inventory(w: World) {
    && (forall o :: ItemKept(w, o))
    && (forall token, o :: WipeKept(w, token, o))
    && (forall token :: TokenKept(w, token))
  }

  lemma InventoryFramed(w: World, w': World)
    requires Inventory(w) && w'.t.objects == w.t.objects && w'.t.requests == w.t.requests && w'.stored == w.stored
    requires w'.h.claims == w.h.claims && w'.p.turn >= w.p.turn && w'.p.claimTurn == w.p.claimTurn
    requires w'.p.acceptTurn == w.p.acceptTurn && w'.p.archive == w.p.archive && w'.p.inventoryTurn == w.p.inventoryTurn
    requires w'.p.wiped == w.p.wiped && w'.p.wipeTurn == w.p.wipeTurn && w'.p.storeTurn == w.p.storeTurn
    requires LooksEnd(w, w')
    ensures Inventory(w')
  {
    forall o ensures ItemKept(w', o) { assert ItemKept(w, o); }
    forall k, o ensures WipeKept(w', k, o) { assert WipeKept(w, k, o); }
    forall k ensures TokenKept(w', k) { assert TokenKept(w, k) && LookedAt(w, k); }
  }

  lemma InventoryAfterPut(w: World, key: Key)
    requires Rows(w) && Inventory(w)
    ensures Inventory(Put(w, key))
  {
    var w' := Put(w, key);
    forall o ensures ItemKept(w', o) { assert ItemKept(w, o); }
    forall k, o ensures WipeKept(w', k, o) { assert WipeKept(w, k, o); }
    forall k ensures TokenKept(w', k) { assert TokenKept(w, k) && LookedAt(w, k); }
  }

  lemma InventoryAfterLook(w: World, token: Uuid, item: Uuid)
    requires Inventory(w) && Read(w, token, item, true)
    ensures Inventory(Looked(w, token, item))
  {
    var w' := Looked(w, token, item);
    forall o ensures ItemKept(w', o) { assert ItemKept(w, o); }
    forall k, o ensures WipeKept(w', k, o) { assert WipeKept(w, k, o); }
    forall k ensures TokenKept(w', k) { assert TokenKept(w, k) && LookedAt(w, k); }
  }

  lemma InventoryAfterAccept(w: World, id: Uuid, held: set<Key>, inventory: map<Uuid, Object>, now: Time)
    requires Rows(w) && Inventory(w) && Live(w.t, id) && Inventories(w, id, held, inventory)
    ensures Inventory(AcceptApplied(w, id, held, inventory, now))
  {
    var w' := AcceptApplied(w, id, held, inventory, now);
    assert RowsOf(w, id);
    forall o ensures ItemKept(w', o) { ItemAfterAccept(w, id, held, inventory, now, o); }
    forall k, o ensures WipeKept(w', k, o) { assert WipeKept(w, k, o); }
    forall k ensures TokenKept(w', k) { assert TokenKept(w, k) && LookedAt(w, k); }
  }

  lemma ItemAfterAccept(w: World, id: Uuid, held: set<Key>, inventory: map<Uuid, Object>, now: Time, o: Uuid)
    requires Inventory(w) && Live(w.t, id) && id !in w.t.requests && Inventories(w, id, held, inventory)
    ensures ItemKept(AcceptApplied(w, id, held, inventory, now), o)
  {
    assert ItemKept(w, o);
  }

  lemma InventoryAfterRedrive(w: World, id: Uuid, now: Time)
    requires Rows(w) && Inventory(w) && id in w.t.requests
    ensures Inventory(Redriven(w, id, now))
  {
    var w' := Redriven(w, id, now);
    assert RowsOf(w, id);
    forall o ensures ItemKept(w', o) { assert ItemKept(w, o); }
    forall k, o ensures WipeKept(w', k, o) { assert WipeKept(w, k, o); }
    forall k ensures TokenKept(w', k) { assert TokenKept(w, k) && LookedAt(w, k); }
  }

  lemma InventoryAfterLate(w: World, id: Uuid, item: Uuid, late: Object, dropped: set<Uuid>, now: Time)
    requires Rows(w) && Inventory(w) && id in w.t.requests && LateItem(w, id, item, late)
    ensures Inventory(LateApplied(w, id, item, late, dropped, now))
  {
    var w' := LateApplied(w, id, item, late, dropped, now);
    assert ItemKept(w, item);
    forall o ensures ItemKept(w', o) { assert ItemKept(w, o); }
    forall k, o ensures WipeKept(w', k, o) { assert WipeKept(w, k, o); }
    forall k ensures TokenKept(w', k) { assert TokenKept(w, k) && LookedAt(w, k); }
  }

  lemma InventoryAfterGrant(w: World, id: Uuid, m: Uuid, token: Uuid, now: Time)
    requires Rows(w) && Inventory(w) && m in w.queue && token !in w.h.issued && id in w.t.requests
             && Claimable(w.t.requests[id], now)
    ensures Inventory(Granted(w, id, m, token, now))
  {
    var w' := Granted(w, id, m, token, now);
    assert RowsOf(w, id) && IssuedAs(w, token);
    forall o ensures ItemKept(w', o) { assert ItemKept(w, o); }
    forall k, o ensures WipeKept(w', k, o) { assert WipeKept(w, k, o); }
    forall k ensures TokenKept(w', k) { assert TokenKept(w, k) && LookedAt(w, k); }
  }

  lemma InventoryAfterRemoval(w: World, item: Uuid)
    requires Inventory(w) && item in w.p.archive
    ensures Inventory(Removed(w, item, w.p.archive[item].key))
  {
    var w' := Removed(w, item, w.p.archive[item].key);
    forall o ensures ItemKept(w', o) { assert ItemKept(w, o); }
    forall k, o ensures WipeKept(w', k, o) { assert WipeKept(w, k, o) && ItemKept(w, o); }
    forall k ensures TokenKept(w', k) { assert TokenKept(w, k) && LookedAt(w, k); }
  }

  lemma InventoryAfterWipe(w: World, token: Uuid, item: Uuid)
    requires Rows(w) && Inventory(w) && Read(w, token, item, false)
    ensures Inventory(Wiped(w, token, item))
  {
    var w' := Wiped(w, token, item);
    assert TokenKept(w, token);
    forall o ensures ItemKept(w', o) { assert ItemKept(w, o); }
    forall k, o ensures WipeKept(w', k, o) { assert WipeKept(w, k, o) && ItemKept(w, o); }
    forall k ensures TokenKept(w', k) { assert TokenKept(w, k) && LookedAt(w, k); }
  }

  lemma InventoryAfterMark(w: World, token: Uuid, item: Uuid, now: Time)
    requires Rows(w) && Inventory(w) && Read(w, token, item, false) && (token, item) in w.p.wiped
    ensures Inventory(Closed(w, MarkDeletedTx(w.t, w.h.claims[token], item, now)))
  {
    var w' := Closed(w, MarkDeletedTx(w.t, w.h.claims[token], item, now));
    assert WipeKept(w, token, item) && IssuedAs(w, token);
    forall o ensures ItemKept(w', o) { assert ItemKept(w, o); }
    forall k, o ensures WipeKept(w', k, o) { assert WipeKept(w, k, o); }
    forall k ensures TokenKept(w', k) { assert TokenKept(w, k) && LookedAt(w, k); }
  }

  lemma InventoryAfterRetry(w: World, token: Uuid, failure: FailureCategory, next: Time)
    requires Rows(w) && Inventory(w) && token in w.h.claims
    ensures Inventory(w.(t := RetryTx(w.t, w.h.claims[token], failure, next)))
  {
    var w' := w.(t := RetryTx(w.t, w.h.claims[token], failure, next));
    forall o ensures ItemKept(w', o) { assert ItemKept(w, o); }
    forall k, o ensures WipeKept(w', k, o) { assert WipeKept(w, k, o); }
    forall k ensures TokenKept(w', k) { assert TokenKept(w, k) && LookedAt(w, k); }
  }

  lemma InventoryAfterFail(w: World, token: Uuid, failure: FailureCategory, now: Time)
    requires Rows(w) && Inventory(w) && token in w.h.claims
    ensures Inventory(w.(t := FailTx(w.t, w.h.claims[token], failure, now)))
  {
    var w' := w.(t := FailTx(w.t, w.h.claims[token], failure, now));
    forall o ensures ItemKept(w', o) { assert ItemKept(w, o); }
    forall k, o ensures WipeKept(w', k, o) { assert WipeKept(w, k, o); }
    forall k ensures TokenKept(w', k) { assert TokenKept(w, k) && LookedAt(w, k); }
  }

  lemma InventoryAfterComplete(w: World, token: Uuid, now: Time)
    requires Rows(w) && Inventory(w) && token in w.h.claims
    ensures Inventory(w.(t := CompleteTx(w.t, w.h.claims[token], now)))
  {
    var w' := w.(t := CompleteTx(w.t, w.h.claims[token], now));
    forall o ensures ItemKept(w', o) { assert ItemKept(w, o) && RowsOf(w, w.h.claims[token].deletion); }
    forall k, o ensures WipeKept(w', k, o) { assert WipeKept(w, k, o); }
    forall k ensures TokenKept(w', k) { assert TokenKept(w, k) && LookedAt(w, k); }
  }

  lemma InventoryAfterRecover(w: World, now: Time, locked: set<Uuid>)
    requires Rows(w) && Inventory(w)
    ensures Inventory(Recovered(w, now, locked))
  {
    var w' := Recovered(w, now, locked);
    forall o ensures ItemKept(w', o) { assert ItemKept(w, o); }
    forall k, o ensures WipeKept(w', k, o) { assert WipeKept(w, k, o); }
    forall k ensures TokenKept(w', k) { assert TokenKept(w, k) && LookedAt(w, k); }
  }

  /** The row change after the removal, if there was one. */
  lemma InventoryAfterClose(w: World, token: Uuid, now: Time)
    requires Rows(w) && Inventory(w) && Open(w, token)
    ensures Inventory(SourceClosed(w, token, now))
  {
    var look := w.looks[token];
    var v := if look.shared then Ended(w, token) else SourceTorn(w, token);
    assert ItemKept(w, look.item) && TokenKept(w, token);
    if look.shared { InventoryFramed(w, v); } else { InventoryAfterTorn(w, token); }
    ItemClosed(v, w.h.claims[token], look, now);
  }

  lemma ItemClosed(v: World, c: Claim, look: Look, now: Time)
    requires Inventory(v) && MayClose(v.t, c, look.item) && look.item in v.p.archive
    requires v.p.archive[look.item].category == Source
    requires !look.shared ==>
      && look.item in v.p.wipeTurn && look.item in v.p.inventoryTurn
      && v.p.inventoryTurn[look.item] < v.p.wipeTurn[look.item]
    ensures Inventory(Closed(v, CloseSourceTx(v.t, c, look.item, look.shared, now)))
  {
    var w' := Closed(v, CloseSourceTx(v.t, c, look.item, look.shared, now));
    forall o ensures ItemKept(w', o) { assert ItemKept(v, o); }
    forall k, o ensures WipeKept(w', k, o) { assert WipeKept(v, k, o); }
    forall k ensures TokenKept(w', k) { assert TokenKept(v, k) && LookedAt(v, k); }
  }

  lemma InventoryAfterTorn(w: World, token: Uuid)
    requires Rows(w) && Inventory(w) && Open(w, token)
    ensures Inventory(SourceTorn(w, token))
  {
    assert ItemKept(w, w.looks[token].item) && TokenKept(w, token);
    InventoryFramed(w, Ended(w, token));
    InventoryAfterRemoval(Ended(w, token), w.looks[token].item);
  }

  lemma InventoryKeptByEnv(tenant: Tenant, w: World, s: EnvStep)
    requires Rows(w) && Inventory(w) && EnvEnabled(tenant, w, s)
    ensures Inventory(EnvApply(tenant, w, s))
  {
    match s
    case Upload(key, now) => InventoryAfterPut(w, key); InventoryFramed(Put(w, key), EnvApply(tenant, w, s));
    case UploadTorn(key) => InventoryAfterPut(w, key); InventoryFramed(Put(w, key), EnvApply(tenant, w, s));
    case StoreArtifact(key) => InventoryAfterPut(w, key);
    case Accept(id, read, inventory, now) => InventoryAfterAccept(w, id, HeldKeys(w, id, read), inventory, now);
    case Redrive(id, now) => InventoryAfterRedrive(w, id, now);
    case Late(id, item, late, dropped, now) => InventoryAfterLate(w, id, item, late, dropped, now);
    case _ => InventoryFramed(w, EnvApply(tenant, w, s));
  }

  lemma InventoryKeptByWorker(tenant: Tenant, w: World, s: WorkerStep)
    requires Rows(w) && Inventory(w) && WorkerEnabled(tenant, w, s)
    ensures Inventory(WorkerApply(tenant, w, s))
  {
    match s
    case TakeClaim(m, token, now) =>
      var id := w.queue[m].deletion;
      if id in w.t.requests && Claimable(w.t.requests[id], now) {
        InventoryAfterGrant(w, id, m, token, now);
      } else {
        InventoryFramed(w, Refused(w, m, token));
      }
    case Skip(_, _) => InventoryFramed(w, WorkerApply(tenant, w, s));
    case CheckSource(token, item) => InventoryAfterLook(w, token, item);
    case CloseSource(token, now) => InventoryAfterClose(w, token, now);
    case CloseSourceTorn(token) => InventoryAfterTorn(w, token);
    case Wipe(token, item) => InventoryAfterWipe(w, token, item);
    case MarkDeleted(token, item, now) => InventoryAfterMark(w, token, item, now);
    case Retry(token, failure, next) => InventoryAfterRetry(w, token, failure, next);
    case Fail(token, failure, now) => InventoryAfterFail(w, token, failure, now);
    case Complete(token, now) => InventoryAfterComplete(w, token, now);
    case Ack(m) => InventoryFramed(w, WorkerApply(tenant, w, s));
  }

  lemma InventoryKept(tenant: Tenant, w: World, s: Step)
    requires Rows(w) && Inventory(w) && Enabled(tenant, w, s)
    ensures Inventory(Apply(tenant, w, s))
  {
    match s
    case Env(e) => InventoryKeptByEnv(tenant, w, e);
    case Worker(x) => InventoryKeptByWorker(tenant, w, x);
    case Sweeper(x) =>
      if x.Recover? { InventoryAfterRecover(w, x.now, x.locked); } else { InventoryFramed(w, SweeperApply(w, x)); }
  }

}
