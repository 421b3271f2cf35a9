/** Which keys a deletion acts on: no item is closed, wiped or looked up unless its key passed the
    check of owned keys, so an inventory with any other key is never finished. */
module DeletionOwnership {
  import opened DeletionKeys
  import opened DeletionTables
  import opened DeletionProtocol
  import opened DeletionInventory

  predicate OwnedItem(tenant: Tenant, w: World, o: Uuid) {
    o in w.p.archive && w.p.archive[o].state != Pending ==> KeyChecked(tenant, w.p.archive[o])
  }

  predicate OwnedWipe(tenant: Tenant, w: World, token: Uuid, o: Uuid) {
    (token, o) in w.p.wiped && o in w.p.archive ==> KeyChecked(tenant, w.p.archive[o])
  }

  predicate OwnedLook(tenant: Tenant, w: World, token: Uuid) {
    token in w.looks && w.looks[token].item in w.p.archive ==> KeyChecked(tenant, w.p.archive[w.looks[token].item])
  }

  ghost predicate Ownership(tenant: Tenant, w: World) {
    && (forall o :: OwnedItem(tenant, w, o))
    && (forall token, o :: OwnedWipe(tenant, w, token, o))
    && (forall token :: OwnedLook(tenant, w, token))
  }

  predicate SameItem(a: Object, b: Object) {
    a.deletion == b.deletion && a.category == b.category && a.key == b.key
  }

  /** Items keep what they name; none is closed, wiped or looked up but `touched`. */
  ghost predicate Touches(w: World, v: World, touched: set<Uuid>) {
    && (forall o :: o in w.p.archive ==> o in v.p.archive && SameItem(v.p.archive[o], w.p.archive[o]))
    && (forall o :: o in v.p.archive && v.p.archive[o].state != Pending ==>
          o in touched || (o in w.p.archive && w.p.archive[o].state != Pending))
    && (forall token, o :: (token, o) in v.p.wiped ==> o in touched || (o in w.p.archive && (token, o) in w.p.wiped))
    && (forall token :: token in v.looks ==>
          v.looks[token].item in touched
          || (v.looks[token].item in w.p.archive && token in w.looks && w.looks[token] == v.looks[token]))
  }

  lemma OwnedWhenTouched(tenant: Tenant, w: World, v: World, touched: set<Uuid>)
    requires Ownership(tenant, w) && Touches(w, v, touched)
    requires forall o :: o in touched ==> o in w.p.archive && KeyChecked(tenant, w.p.archive[o])
    ensures Ownership(tenant, v)
  {
    forall o ensures OwnedItem(tenant, v, o) { assert OwnedItem(tenant, w, o); }
    forall k, o ensures OwnedWipe(tenant, v, k, o) { assert OwnedWipe(tenant, w, k, o); }
    forall k ensures OwnedLook(tenant, v, k) { assert OwnedLook(tenant, w, k); }
  }

  lemma Recorded(w: World)
    requires Inventory(w)
    ensures forall token :: token in w.looks ==> w.looks[token].item in w.p.archive
    ensures forall token, o :: (token, o) in w.p.wiped ==> o in w.p.archive
    ensures forall o :: o in w.t.objects ==> o in w.p.archive && w.p.archive[o] == w.t.objects[o]
  {
    forall token | token in w.looks ensures w.looks[token].item in w.p.archive { assert TokenKept(w, token); }
    forall token, o | (token, o) in w.p.wiped ensures o in w.p.archive {
      assert WipeKept(w, token, o) && ItemKept(w, o);
    }
    forall o | o in w.t.objects ensures o in w.p.archive && w.p.archive[o] == w.t.objects[o] { assert ItemKept(w, o); }
  }

  lemma TouchesOutside(w: World, v: World)
    requires Inventory(w) && LooksEnd(w, v) && v.p.archive == w.p.archive && v.p.wiped == w.p.wiped
    ensures Touches(w, v, {})
  {
    Recorded(w);
  }

  lemma TouchesByAccept(w: World, id: Uuid, held: set<Key>, inventory: map<Uuid, Object>, now: Time)
    requires Inventory(w) && id in w.t.agreements && Inventories(w, id, held, inventory)
    ensures Touches(w, AcceptApplied(w, id, held, inventory, now), {})
  {
    Recorded(w);
    TouchesByAdding(w, AcceptApplied(w, id, held, inventory, now), inventory);
  }

  lemma TouchesByAdding(w: World, v: World, added: map<Uuid, Object>)
    requires forall token :: token in w.looks ==> w.looks[token].item in w.p.archive
    requires forall token, o :: (token, o) in w.p.wiped ==> o in w.p.archive
    requires v.p.archive == w.p.archive + added && v.p.wiped == w.p.wiped && v.looks == w.looks
    requires forall o :: o in added ==> o !in w.p.archive && added[o].state == Pending
    ensures Touches(w, v, {})
  {
  }

  lemma TouchesByLate(w: World, id: Uuid, item: Uuid, late: Object, dropped: set<Uuid>, now: Time)
    requires Inventory(w) && id in w.t.requests && LateItem(w, id, item, late)
    ensures Touches(w, LateApplied(w, id, item, late, dropped, now), {})
  {
    Recorded(w);
  }

  lemma TouchesByEnv(tenant: Tenant, w: World, s: EnvStep)
    requires Inventory(w) && EnvEnabled(tenant, w, s)
    ensures Touches(w, EnvApply(tenant, w, s), {})
  {
    if !Enters(s) {
      EnvIsOutside(tenant, w, s);
      TouchesOutside(w, EnvApply(tenant, w, s));
    } else if s.Accept? {
      TouchesByAccept(w, s.id, HeldKeys(w, s.id, s.read), s.inventory, s.now);
    } else if s.Redrive? {
      TouchesOutside(w, Redriven(w, s.id, s.now));
    } else {
      TouchesByLate(w, s.id, s.item, s.late, s.dropped, s.now);
    }
  }

  lemma OwnershipKeptByEnv(tenant: Tenant, w: World, s: EnvStep)
    requires Inventory(w) && Ownership(tenant, w) && EnvEnabled(tenant, w, s)
    ensures Ownership(tenant, EnvApply(tenant, w, s))
  {
    TouchesByEnv(tenant, w, s);
    OwnedWhenTouched(tenant, w, EnvApply(tenant, w, s), {});
  }

  /** The item a worker step closes, wipes or looks up. */
  function TouchedBy(w: World, s: WorkerStep): set<Uuid> {
    match s
    case CheckSource(_, item) => {item}
    case Wipe(_, item) => {item}
    case MarkDeleted(_, item, _) => {item}
    case CloseSource(token, _) => if token in w.looks then {w.looks[token].item} else {}
    case _ => {}
  }

  lemma TouchedIsOwned(tenant: Tenant, w: World, s: WorkerStep)
    requires Inventory(w) && Ownership(tenant, w) && WorkerEnabled(tenant, w, s)
    ensures forall o :: o in TouchedBy(w, s) ==> o in w.p.archive && KeyChecked(tenant, w.p.archive[o])
  {
    if s.MarkDeleted? {
      assert OwnedWipe(tenant, w, s.token, s.item);
    } else if s.CloseSource? {
      assert OwnedLook(tenant, w, s.token) && TokenKept(w, s.token);
    }
  }

  lemma TouchesByMark(w: World, token: Uuid, item: Uuid, now: Time)
    requires Inventory(w) && token in w.h.claims
    ensures Touches(w, Closed(w, MarkDeletedTx(w.t, w.h.claims[token], item, now)), {item})
  {
    Recorded(w);
  }

  lemma TouchesByClose(w: World, token: Uuid, now: Time)
    requires Inventory(w) && Open(w, token)
    ensures Touches(w, SourceClosed(w, token, now), {w.looks[token].item})
  {
    Recorded(w);
  }

  lemma TouchesByWorker(tenant: Tenant, w: World, s: WorkerStep)
    requires Inventory(w) && WorkerEnabled(tenant, w, s)
    ensures Touches(w, WorkerApply(tenant, w, s), TouchedBy(w, s))
  {
    if s.MarkDeleted? {
      TouchesByMark(w, s.token, s.item, s.now);
    } else if s.CloseSource? {
      TouchesByClose(w, s.token, s.now);
    } else if s.CheckSource? || s.Wipe? {
      TouchesByReading(tenant, w, s);
    } else {
      WorkersLeaveItems(tenant, w, s);
      TouchesOutside(w, WorkerApply(tenant, w, s));
    }
  }

  lemma TouchesByReading(tenant: Tenant, w: World, s: WorkerStep)
    requires Inventory(w) && WorkerEnabled(tenant, w, s) && (s.CheckSource? || s.Wipe?)
    ensures Touches(w, WorkerApply(tenant, w, s), TouchedBy(w, s))
  {
    Recorded(w);
  }

  lemma WorkersLeaveItems(tenant: Tenant, w: World, s: WorkerStep)
    requires WorkerEnabled(tenant, w, s) && !s.MarkDeleted? && !s.CloseSource? && !s.CheckSource? && !s.Wipe?
    ensures var v := WorkerApply(tenant, w, s);
            LooksEnd(w, v) && v.p.archive == w.p.archive && v.p.wiped == w.p.wiped
  {
  }

  lemma OwnershipKeptByWorker(tenant: Tenant, w: World, s: WorkerStep)
    requires Inventory(w) && Ownership(tenant, w) && WorkerEnabled(tenant, w, s)
    ensures Ownership(tenant, WorkerApply(tenant, w, s))
  {
    TouchedIsOwned(tenant, w, s);
    TouchesByWorker(tenant, w, s);
    OwnedWhenTouched(tenant, w, WorkerApply(tenant, w, s), TouchedBy(w, s));
  }

  lemma OwnershipKept(tenant: Tenant, w: World, s: Step)
    requires Inventory(w) && Ownership(tenant, w) && Enabled(tenant, w, s)
    ensures Ownership(tenant, Apply(tenant, w, s))
  {
    match s
    case Env(e) => OwnershipKeptByEnv(tenant, w, e);
    case Worker(x) => OwnershipKeptByWorker(tenant, w, x);
    case Sweeper(x) => OwnershipKeptBySweeper(tenant, w, x);
  }

  lemma OwnershipKeptBySweeper(tenant: Tenant, w: World, s: SweeperStep)
    requires Inventory(w) && Ownership(tenant, w) && SweeperEnabled(w, s)
    ensures Ownership(tenant, SweeperApply(w, s))
  {
    TouchesOutside(w, SweeperApply(w, s));
    OwnedWhenTouched(tenant, w, SweeperApply(w, s), {});
  }

  /** An open source delete is about a key of a source document. */
  lemma LooksAreSources(tenant: Tenant, w: World)
    requires Inventory(w) && Ownership(tenant, w)
    ensures forall token :: token in w.looks ==> SourceShaped(tenant, w.looks[token].key)
  {
    forall token | token in w.looks ensures SourceShaped(tenant, w.looks[token].key) {
      assert TokenKept(w, token) && OwnedLook(tenant, w, token);
    }
  }

}
