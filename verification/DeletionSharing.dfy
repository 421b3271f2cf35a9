/** Shared sources are not leaked, and completion is final: why every preserved object has somebody
    else responsible for it, and why purged rows never come back. */
module DeletionSharing {
  import opened DeletionKeys
  import opened DeletionTables
  import opened DeletionProtocol
  import opened DeletionRows
  import opened DeletionInventory
  import opened DeletionLedger

  /** An agreement referred to the key at some time, as a version or in its `files` column. */
  predicate References(w: World, a: Uuid, key: Key) {
    a in w.p.keys && key in w.p.keys[a]
  }

  /** Another agreement that once shared the key and is still live, or was accepted for deletion later. */
  predicate TakesOver(w: World, a: Uuid, id: Uuid, key: Key) {
    && a != id && References(w, a, key)
    && (Live(w.t, a) || (a in w.p.acceptTurn && id in w.p.acceptTurn && w.p.acceptTurn[id] < w.p.acceptTurn[a]))
  }

  /** A recorded upload newer than the acceptance of this deletion. */
  predicate Reuploaded(w: World, id: Uuid, key: Key, stamp: Time) {
    (key, stamp) in w.p.stamps && id in w.t.requests && w.t.requests[id].acceptedAt < stamp
  }

  ghost predicate Answered(w: World, id: Uuid, key: Key) {
    || (exists a :: TakesOver(w, a, id, key))
    || (exists stamp :: Reuploaded(w, id, key, stamp))
  }

  ghost predicate AcceptedAndAnswered(w: World, id: Uuid, key: Key) {
    id in w.p.acceptTurn && Answered(w, id, key)
  }

  ghost predicate PreservedKept(w: World, o: Uuid) {
    o in w.p.archive && w.p.archive[o].state == Preserved ==>
      w.p.archive[o].category == Source && AcceptedAndAnswered(w, w.p.archive[o].deletion, w.p.archive[o].key)
  }

  /** A source delete that found a sharer. */
  ghost predicate LookAnswered(w: World, token: Uuid) {
    token in w.looks && token in w.h.claims && w.looks[token].shared ==>
      AcceptedAndAnswered(w, w.h.claims[token].deletion, w.looks[token].key)
  }

  predicate InventoriedFor(w: World, o: Uuid, id: Uuid, key: Key) {
    o in w.p.archive && w.p.archive[o].deletion == id && w.p.archive[o].category == Source && w.p.archive[o].key == key
  }

  /** An accepted deletion has a source item for exactly the keys held when it was accepted. */
  ghost predicate HeldKept(w: World, a: Uuid)
    requires a in w.p.held
  {
    forall key :: key in w.p.held[a] <==> exists o :: InventoriedFor(w, o, a, key)
  }

  ghost predicate AgreementKept(w: World, a: Uuid) {
    && (a in w.p.keys <==> a in w.t.agreements)
    && (Live(w.t, a) ==> w.t.agreements[a].versions + w.t.agreements[a].files <= w.p.keys[a])
    && (a in w.t.requests ==>
          && a in w.p.keys && a in w.p.acceptTurn && w.p.acceptTurn[a] < w.p.turn
          && a in w.p.held && w.p.held[a] <= w.p.keys[a] && HeldKept(w, a))
    && (a in w.p.acceptTurn ==> a in w.t.requests) && (a in w.p.held ==> a in w.t.requests)
  }

  predicate ColumnKept(w: World, a: Uuid, files: set<Key>) {
    (a, files) in w.p.columns ==> a in w.p.keys && files <= w.p.keys[a]
  }

  predicate StampKept(w: World, key: Key) {
    && (key in w.t.registry && w.t.registry[key].state == Available ==>
       (key, w.t.registry[key].updatedAt) in w.p.stamps)
    && (key in w.p.storeTurn ==> w.p.storeTurn[key] < w.p.turn)
  }

  /** The references, the derived rows and the artifact intents of an agreement are gone. */
  predicate Purged(t: Tables, id: Uuid) {
    && id in t.agreements && t.agreements[id].versions == {} && t.agreements[id].files == {}
    && t.agreements[id].derived == {} && forall i :: i in t.intents ==> t.intents[i].agreement != id
  }

  /** A completed event means that they went, for good. */
  predicate PurgeKept(w: World, id: Uuid, cycle: nat) {
    Count(w.t, id, CompletedEvent, cycle) > 0 ==>
      Purged(w.t, id) && w.t.agreements[id].deletionRequestedAt.Some?
  }

  ghost predicate Answers(w: World) {
    && (forall o :: PreservedKept(w, o))
    && (forall token :: LookAnswered(w, token))
  }

  ghost predicate Agreements(w: World) {
    && (forall a :: AgreementKept(w, a))
    && (forall a, files :: ColumnKept(w, a, files))
  }

  ghost predicate Purges(w: World) {
    forall id, cycle: nat :: PurgeKept(w, id, cycle)
  }

  ghost predicate Sharing(w: World) {
    && Answers(w) && Agreements(w) && Purges(w)
    && (forall key :: StampKept(w, key))
  }

  // ---- answers stand

  /** Everything an answer rests on survives: references, acceptances and uploads only accumulate. */
  ghost predicate Grows(w: World, v: World) {
    && w.p.stamps <= v.p.stamps
    && (forall a, key :: References(w, a, key) ==> References(v, a, key))
    && (forall a :: a in w.p.acceptTurn ==> a in v.p.acceptTurn && v.p.acceptTurn[a] == w.p.acceptTurn[a])
    && (forall a :: Live(w.t, a) ==>
          Live(v.t, a)
          || (a in v.p.acceptTurn && forall b :: b in w.p.acceptTurn ==> w.p.acceptTurn[b] < v.p.acceptTurn[a]))
    && (forall id :: id in w.t.requests ==>
          id in v.t.requests && v.t.requests[id].acceptedAt == w.t.requests[id].acceptedAt)
  }

  lemma AnswerStands(w: World, v: World, id: Uuid, key: Key)
    requires Grows(w, v) && AcceptedAndAnswered(w, id, key)
    ensures AcceptedAndAnswered(v, id, key)
  {
    if a :| TakesOver(w, a, id, key) {
      assert References(v, a, key);
      assert TakesOver(v, a, id, key);
    } else {
      var stamp :| Reuploaded(w, id, key, stamp);
      assert Reuploaded(v, id, key, stamp);
    }
  }

  /** What is preserved or found shared afterwards was answered for before. */
  ghost predicate AnsweredBefore(w: World, v: World) {
    && (forall o :: o in v.p.archive && v.p.archive[o].state == Preserved ==>
          v.p.archive[o].category == Source && AcceptedAndAnswered(w, v.p.archive[o].deletion, v.p.archive[o].key))
    && (forall token :: token in v.looks && token in v.h.claims && v.looks[token].shared ==>
          AcceptedAndAnswered(w, v.h.claims[token].deletion, v.looks[token].key))
  }

  lemma AnswersStand(w: World, v: World)
    requires Grows(w, v) && AnsweredBefore(w, v)
    ensures Answers(v)
  {
    forall o ensures PreservedKept(v, o) {
      if o in v.p.archive && v.p.archive[o].state == Preserved {
        AnswerStands(w, v, v.p.archive[o].deletion, v.p.archive[o].key);
      }
    }
    forall token ensures LookAnswered(v, token) {
      if token in v.looks && token in v.h.claims && v.looks[token].shared {
        AnswerStands(w, v, v.h.claims[token].deletion, v.looks[token].key);
      }
    }
  }

  /** No item is preserved and no query answered in this step. */
  ghost predicate NothingPreserved(w: World, v: World) {
    && LooksEnd(w, v)
    && (forall token :: token in w.looks && token in v.h.claims ==>
          token in w.h.claims && v.h.claims[token] == w.h.claims[token])
    && (forall o :: o in v.p.archive && v.p.archive[o].state == Preserved ==>
          o in w.p.archive && v.p.archive[o] == w.p.archive[o])
  }

  lemma OldAnswersStand(w: World, v: World)
    requires Answers(w) && Grows(w, v) && NothingPreserved(w, v)
    ensures Answers(v)
  {
    forall o | o in v.p.archive && v.p.archive[o].state == Preserved
      ensures v.p.archive[o].category == Source
      ensures AcceptedAndAnswered(w, v.p.archive[o].deletion, v.p.archive[o].key)
    {
      assert PreservedKept(w, o);
    }
    forall token | token in v.looks && token in v.h.claims && v.looks[token].shared
      ensures AcceptedAndAnswered(w, v.h.claims[token].deletion, v.looks[token].key)
    {
      assert LookAnswered(w, token);
    }
    AnswersStand(w, v);
  }

  // ---- agreements stand

  ghost predicate SameSources(w: World, v: World) {
    forall o, id, key :: InventoriedFor(w, o, id, key) <==> InventoriedFor(v, o, id, key)
  }

  /** References, acceptances and source items stand still; live agreements may only lose files. */
  ghost predicate SameAgreements(w: World, v: World) {
    && v.p.keys == w.p.keys && v.p.columns == w.p.columns && v.p.held == w.p.held
    && v.p.acceptTurn == w.p.acceptTurn && v.p.turn >= w.p.turn
    && v.t.agreements.Keys == w.t.agreements.Keys && v.t.requests.Keys == w.t.requests.Keys
    && SameSources(w, v)
    && (forall a :: Live(v.t, a) ==>
          && Live(w.t, a) && v.t.agreements[a].versions <= w.t.agreements[a].versions
          && v.t.agreements[a].files <= w.t.agreements[a].files)
  }

  lemma HeldStands(w: World, v: World, a: Uuid)
    requires a in w.p.held && HeldKept(w, a) && a in v.p.held && v.p.held[a] == w.p.held[a]
    requires forall o, key :: InventoriedFor(w, o, a, key) <==> InventoriedFor(v, o, a, key)
    ensures HeldKept(v, a)
  {
    forall key ensures key in v.p.held[a] <==> exists o :: InventoriedFor(v, o, a, key) {
      if o :| InventoriedFor(w, o, a, key) { assert InventoriedFor(v, o, a, key); }
      if o :| InventoriedFor(v, o, a, key) { assert InventoriedFor(w, o, a, key); }
    }
  }

  lemma AgreementsStand(w: World, v: World)
    requires Agreements(w) && SameAgreements(w, v)
    ensures Agreements(v)
  {
    forall a ensures AgreementKept(v, a) {
      assert AgreementKept(w, a);
      if a in v.t.requests { HeldStands(w, v, a); }
    }
    forall a, files ensures ColumnKept(v, a, files) { assert ColumnKept(w, a, files); }
  }

  /** Tombstoned agreements, their intents and the completed events stand still. */
  ghost predicate SamePurges(w: World, v: World) {
    && (forall id, cycle: nat :: Count(v.t, id, CompletedEvent, cycle) == Count(w.t, id, CompletedEvent, cycle))
    && (forall a :: Tombstoned(w.t, a) ==> Tombstoned(v.t, a) && v.t.agreements[a] == w.t.agreements[a])
    && (forall i :: i in v.t.intents && Tombstoned(w.t, v.t.intents[i].agreement) ==>
          i in w.t.intents && w.t.intents[i].agreement == v.t.intents[i].agreement)
  }

  lemma PurgesStand(w: World, v: World)
    requires Purges(w) && SamePurges(w, v)
    ensures Purges(v)
  {
    forall id, cycle: nat ensures PurgeKept(v, id, cycle) {
      assert PurgeKept(w, id, cycle);
      assert Tombstoned(w.t, id) ==> Tombstoned(v.t, id);
    }
  }

  /** The registry, the recorded uploads and the turns of puts stand still, but for keys taken away. */
  ghost predicate SameStamps(w: World, v: World) {
    && w.p.stamps <= v.p.stamps && v.p.turn >= w.p.turn
    && (forall key :: key in v.t.registry && v.t.registry[key].state == Available ==>
          key in w.t.registry && v.t.registry[key] == w.t.registry[key])
    && (forall key :: key in v.p.storeTurn ==>
          (key in w.p.storeTurn && v.p.storeTurn[key] == w.p.storeTurn[key]) || v.p.storeTurn[key] < v.p.turn)
  }

  lemma StampsStand(w: World, v: World)
    requires (forall key :: StampKept(w, key)) && SameStamps(w, v)
    ensures forall key :: StampKept(v, key)
  {
    forall key ensures StampKept(v, key) { assert StampKept(w, key); }
  }

  lemma SharingStands(w: World, v: World)
    requires Sharing(w) && Grows(w, v) && NothingPreserved(w, v) && SameAgreements(w, v)
    requires SamePurges(w, v) && SameStamps(w, v)
    ensures Sharing(v)
  {
    OldAnswersStand(w, v);
    AgreementsStand(w, v);
    PurgesStand(w, v);
    StampsStand(w, v);
  }

  // ---- the steps of the API

  lemma SharingAfterUpload(w: World, key: Key, now: Time)
    requires Sharing(w)
    ensures Sharing(Uploaded(w, key, now))
  {
    var v := Uploaded(w, key, now);
    OldAnswersStand(w, v);
    AgreementsStand(w, v);
    PurgesStand(w, v);
    forall k ensures StampKept(v, k) { assert StampKept(w, k); }
  }

  /** An agreement is created, or a live one changes its references. */
  lemma SharingAfterRewrite(w: World, v: World, a: Uuid, versions: set<Key>, files: set<Key>)
    requires Rows(w) && Sharing(w) && (a in w.t.agreements ==> Live(w.t, a))
    requires v == Rewritten(w, a, versions, files).(looks := v.looks) && LooksEnd(w, v)
    ensures Sharing(v)
  {
    RewriteGrows(w, v, a, versions, files);
    OldAnswersStand(w, v);
    AgreementsAfterRewrite(w, v, a, versions, files);
    PurgesStand(w, v);
    StampsStand(w, v);
  }

  lemma RewriteGrows(w: World, v: World, a: Uuid, versions: set<Key>, files: set<Key>)
    requires Agreements(w) && (a in w.t.agreements ==> Live(w.t, a))
    requires v == Rewritten(w, a, versions, files).(looks := v.looks)
    ensures Grows(w, v) && SamePurges(w, v)
  {
    assert AgreementKept(w, a);
  }

  lemma AgreementsAfterRewrite(w: World, v: World, a: Uuid, versions: set<Key>, files: set<Key>)
    requires Rows(w) && Agreements(w) && (a in w.t.agreements ==> Live(w.t, a))
    requires v == Rewritten(w, a, versions, files).(looks := v.looks)
    ensures Agreements(v)
  {
    assert RowsOf(w, a) && AgreementKept(w, a);
    forall b ensures AgreementKept(v, b) {
      assert AgreementKept(w, b);
      if b in v.t.requests { HeldStands(w, v, b); }
    }
    forall b, column ensures ColumnKept(v, b, column) { assert ColumnKept(w, b, column); }
  }

  lemma NotAcceptedYet(w: World, id: Uuid)
    requires Rows(w) && Agreements(w) && Live(w.t, id)
    ensures id !in w.t.requests && id !in w.p.acceptTurn
    ensures forall b :: b in w.p.acceptTurn ==> w.p.acceptTurn[b] < w.p.turn
  {
    assert RowsOf(w, id) && AgreementKept(w, id);
    forall b | b in w.p.acceptTurn ensures w.p.acceptTurn[b] < w.p.turn { assert AgreementKept(w, b); }
  }

  lemma GrowsByAccept(w: World, id: Uuid, held: set<Key>, inventory: map<Uuid, Object>, now: Time)
    requires Live(w.t, id) && id !in w.t.requests && id !in w.p.acceptTurn
    requires forall b :: b in w.p.acceptTurn ==> w.p.acceptTurn[b] < w.p.turn
    ensures Grows(w, AcceptApplied(w, id, held, inventory, now))
  {
  }

  lemma SharingAfterAccept(w: World, id: Uuid, held: set<Key>, inventory: map<Uuid, Object>, now: Time)
    requires Rows(w) && Inventory(w) && Sharing(w) && Live(w.t, id) && Inventories(w, id, held, inventory)
    requires id in w.p.keys && held <= w.p.keys[id]
    ensures Sharing(AcceptApplied(w, id, held, inventory, now))
  {
    var v := AcceptApplied(w, id, held, inventory, now);
    NotAcceptedYet(w, id);
    GrowsByAccept(w, id, held, inventory, now);
    AcceptPreservesNothing(w, id, held, inventory, now);
    OldAnswersStand(w, v);
    AgreementsAfterAccept(w, id, held, inventory, now);
    StampsStand(w, v);
    PurgesStand(w, v);
  }

  lemma AcceptPreservesNothing(w: World, id: Uuid, held: set<Key>, inventory: map<Uuid, Object>, now: Time)
    requires Live(w.t, id) && id !in w.t.requests && Inventories(w, id, held, inventory)
    ensures var v := AcceptApplied(w, id, held, inventory, now);
            NothingPreserved(w, v) && SameStamps(w, v) && SamePurges(w, v)
  {
  }

  lemma AgreementsAfterAccept(w: World, id: Uuid, held: set<Key>, inventory: map<Uuid, Object>, now: Time)
    requires Rows(w) && Inventory(w) && Sharing(w) && Live(w.t, id) && Inventories(w, id, held, inventory)
    requires id in w.p.keys && held <= w.p.keys[id] && id !in w.t.requests
    ensures Agreements(AcceptApplied(w, id, held, inventory, now))
  {
    var v := AcceptApplied(w, id, held, inventory, now);
    forall a ensures AgreementKept(v, a) {
      assert AgreementKept(w, a);
      if a == id {
        InventoryIsHeld(w, id, held, inventory, now);
      } else if a in v.t.requests {
        forall o, key ensures InventoriedFor(w, o, a, key) <==> InventoriedFor(v, o, a, key) { assert ItemKept(w, o); }
        HeldStands(w, v, a);
      }
    }
    forall a, files ensures ColumnKept(v, a, files) { assert ColumnKept(w, a, files); }
  }

  /** No item of this deletion is older than its acceptance. */
  lemma InventoryIsHeld(w: World, id: Uuid, held: set<Key>, inventory: map<Uuid, Object>, now: Time)
    requires Inventory(w) && id in w.t.agreements && id !in w.t.requests && Inventories(w, id, held, inventory)
    ensures HeldKept(AcceptApplied(w, id, held, inventory, now), id)
  {
    var v := AcceptApplied(w, id, held, inventory, now);
    forall key ensures key in held <==> exists o :: InventoriedFor(v, o, id, key) {
      if o :| SourceRow(inventory, o, key) { assert InventoriedFor(v, o, id, key); }
      if o :| InventoriedFor(v, o, id, key) {
        assert ItemKept(w, o);
        assert SourceRow(inventory, o, key);
      }
    }
  }

  lemma SharingAfterLate(w: World, id: Uuid, item: Uuid, late: Object, dropped: set<Uuid>, now: Time)
    requires Inventory(w) && Sharing(w) && id in w.t.requests && LateItem(w, id, item, late)
    ensures Sharing(LateApplied(w, id, item, late, dropped, now))
  {
    LateGrows(w, id, item, late, dropped, now);
    LateAddsNoSource(w, id, item, late, dropped, now);
    SharingStands(w, LateApplied(w, id, item, late, dropped, now));
  }

  lemma LateGrows(w: World, id: Uuid, item: Uuid, late: Object, dropped: set<Uuid>, now: Time)
    requires id in w.t.requests
    ensures Grows(w, LateApplied(w, id, item, late, dropped, now))
    ensures SamePurges(w, LateApplied(w, id, item, late, dropped, now))
  {
  }

  lemma LateAddsNoSource(w: World, id: Uuid, item: Uuid, late: Object, dropped: set<Uuid>, now: Time)
    requires Inventory(w) && id in w.t.requests && LateItem(w, id, item, late)
    ensures SameAgreements(w, LateApplied(w, id, item, late, dropped, now))
    ensures NothingPreserved(w, LateApplied(w, id, item, late, dropped, now))
  {
    assert ItemKept(w, item);
  }

  /** Steps that leave the archive, acceptances, references and uploads alone. */
  lemma SharingPlainly(w: World, v: World)
    requires Sharing(w) && v.p.archive == w.p.archive && v.p.turn >= w.p.turn && v.looks == w.looks
    requires forall token :: token in w.looks && token in v.h.claims ==>
               token in w.h.claims && v.h.claims[token] == w.h.claims[token]
    requires v.p.stamps == w.p.stamps && v.t.registry == w.t.registry && v.p.acceptTurn == w.p.acceptTurn
    requires forall key :: key in v.p.storeTurn ==>
               (key in w.p.storeTurn && v.p.storeTurn[key] == w.p.storeTurn[key]) || v.p.storeTurn[key] < v.p.turn
    requires v.p.keys == w.p.keys && v.p.columns == w.p.columns && v.p.held == w.p.held
    requires v.t.agreements == w.t.agreements && v.t.intents.Keys <= w.t.intents.Keys
    requires forall i :: i in v.t.intents ==> v.t.intents[i].agreement == w.t.intents[i].agreement
    requires v.t.requests.Keys == w.t.requests.Keys
    requires forall id :: id in w.t.requests ==> v.t.requests[id].acceptedAt == w.t.requests[id].acceptedAt
    requires forall id, cycle: nat :: Count(v.t, id, CompletedEvent, cycle) == Count(w.t, id, CompletedEvent, cycle)
    ensures Sharing(v)
  {
    SharingStands(w, v);
  }

  lemma SharingAfterDerive(w: World, a: Uuid, row: Uuid)
    requires Sharing(w) && Live(w.t, a)
    ensures Sharing(Derived(w, a, row))
  {
    var v := Derived(w, a, row);
    SharingStands(w, v);
  }

  lemma SharingAfterPlan(w: World, i: Uuid, plan: Intent)
    requires Sharing(w) && Live(w.t, plan.agreement)
    ensures Sharing(w.(t := w.t.(intents := w.t.intents[i := plan])))
  {
    var v := w.(t := w.t.(intents := w.t.intents[i := plan]));
    SharingStands(w, v);
  }

  /** Ending queries changes nothing else. */
  lemma SharingAfterEnd(w: World, v: World)
    requires Sharing(w) && v == w.(looks := v.looks) && LooksEnd(w, v)
    ensures Sharing(v)
  {
    SharingStands(w, v);
  }

  lemma SharingAfterPut(w: World, key: Key)
    requires Sharing(w)
    ensures Sharing(Put(w, key)) && Sharing(PutLocked(w, key))
  {
    SharingPlainly(w, Put(w, key));
    SharingAfterEnd(Put(w, key), PutLocked(w, key));
  }

  lemma HeldIsKnown(w: World, id: Uuid, read: set<Key>)
    requires Sharing(w) && Live(w.t, id) && (id, read) in w.p.columns
    ensures id in w.p.keys && HeldKeys(w, id, read) <= w.p.keys[id]
  {
    assert AgreementKept(w, id) && ColumnKept(w, id, read);
  }

  lemma SharingKeptByEnv(tenant: Tenant, w: World, s: EnvStep)
    requires Rows(w) && Inventory(w) && Sharing(w) && EnvEnabled(tenant, w, s)
    ensures Sharing(EnvApply(tenant, w, s))
  {
    var v := EnvApply(tenant, w, s);
    match s
    case Upload(key, now) => SharingAfterUpload(w, key, now);
    case UploadTorn(key) => SharingAfterPut(w, key);
    case StoreArtifact(key) => SharingAfterPut(w, key);
    case Create(a, files, last) => SharingAfterRewrite(w, v, a, if last.None? then {} else {last.value}, files);
    case AddVersion(a, key) => SharingAfterRewrite(w, v, a, w.t.agreements[a].versions + {key}, {key});
    case Rewrite(a, files) => SharingAfterRewrite(w, v, a, w.t.agreements[a].versions, files);
    case Derive(a, row) => SharingAfterDerive(w, a, row);
    case Plan(i, plan) => SharingAfterPlan(w, i, plan);
    case Accept(id, read, inventory, now) =>
      HeldIsKnown(w, id, read);
      SharingAfterAccept(w, id, HeldKeys(w, id, read), inventory, now);
    case Late(id, item, late, dropped, now) => SharingAfterLate(w, id, item, late, dropped, now);
    case Tick(_) => SharingAfterPlainStep(tenant, w, s);
    case Drop(_) => SharingAfterPlainStep(tenant, w, s);
    case Redrive(_, _) => SharingAfterPlainStep(tenant, w, s);
  }

  lemma SharingAfterPlainStep(tenant: Tenant, w: World, s: EnvStep)
    requires Sharing(w) && EnvEnabled(tenant, w, s) && (s.Tick? || s.Drop? || s.Redrive?)
    ensures Sharing(EnvApply(tenant, w, s))
  {
    SharingPlainly(w, EnvApply(tenant, w, s));
  }

  // ---- the steps of workers and sweepers

  /** Whoever makes an object shared is an agreement or an upload that answers for it. */
  lemma SharedIsAnswered(w: World, id: Uuid, key: Key)
    requires Sharing(w) && id in w.t.requests && Shared(w.t, id, key)
    ensures AcceptedAndAnswered(w, id, key)
  {
    assert AgreementKept(w, id);
    if ReferencedElsewhere(w.t, id, key) {
      var a :| a in w.t.agreements && a != id && LiveReference(w.t.agreements[a], key);
      assert AgreementKept(w, a);
      assert TakesOver(w, a, id, key);
    } else {
      assert StampKept(w, key);
      assert Reuploaded(w, id, key, w.t.registry[key].updatedAt);
    }
  }

  lemma SharingAfterLook(w: World, token: Uuid, item: Uuid)
    requires Inventory(w) && Sharing(w) && Read(w, token, item, true)
    ensures Sharing(Looked(w, token, item))
  {
    var v, c, key := Looked(w, token, item), w.h.claims[token], w.p.archive[item].key;
    forall o | o in v.p.archive && v.p.archive[o].state == Preserved
      ensures v.p.archive[o].category == Source
      ensures AcceptedAndAnswered(w, v.p.archive[o].deletion, v.p.archive[o].key)
    {
      assert PreservedKept(w, o);
    }
    forall other | other in v.looks && other in v.h.claims && v.looks[other].shared
      ensures AcceptedAndAnswered(w, v.h.claims[other].deletion, v.looks[other].key)
    {
      assert LookAnswered(w, other) && ItemKept(w, item);
      if other == token { SharedIsAnswered(w, c.deletion, key); }
    }
    AnswersStand(w, v);
    AgreementsStand(w, v);
    PurgesStand(w, v);
    forall k ensures StampKept(v, k) { assert StampKept(w, k); }
  }

  lemma SharingAfterTorn(w: World, token: Uuid)
    requires Sharing(w) && Open(w, token)
    ensures Sharing(SourceTorn(w, token))
  {
    SharingAfterEnd(w, Ended(w, token));
    SharingPlainly(Ended(w, token), SourceTorn(w, token));
  }

  lemma SharingAfterClose(w: World, token: Uuid, now: Time)
    requires Inventory(w) && Sharing(w) && Open(w, token)
    ensures Sharing(SourceClosed(w, token, now))
  {
    var v := SourceClosed(w, token, now);
    CloseGrows(w, token, now);
    CloseKeepsSources(w, token, now);
    CloseAnswers(w, token, now);
    AnswersStand(w, v);
    AgreementsStand(w, v);
    PurgesStand(w, v);
    StampsStand(w, v);
  }

  lemma CloseGrows(w: World, token: Uuid, now: Time)
    requires Open(w, token)
    ensures var v := SourceClosed(w, token, now);
            Grows(w, v) && SamePurges(w, v) && SameStamps(w, v)
  {
  }

  lemma CloseKeepsSources(w: World, token: Uuid, now: Time)
    requires Inventory(w) && Open(w, token)
    ensures SameAgreements(w, SourceClosed(w, token, now))
  {
    var v := SourceClosed(w, token, now);
    forall o, id, key ensures InventoriedFor(w, o, id, key) <==> InventoriedFor(v, o, id, key) {
      assert ItemKept(w, o);
    }
  }

  lemma CloseAnswers(w: World, token: Uuid, now: Time)
    requires Inventory(w) && Sharing(w) && Open(w, token)
    ensures AnsweredBefore(w, SourceClosed(w, token, now))
  {
    var v, look := SourceClosed(w, token, now), w.looks[token];
    assert TokenKept(w, token) && LookAnswered(w, token);
    forall o | o in v.p.archive && v.p.archive[o].state == Preserved
      ensures v.p.archive[o].category == Source
      ensures AcceptedAndAnswered(w, v.p.archive[o].deletion, v.p.archive[o].key)
    {
      assert PreservedKept(w, o) && ItemKept(w, o);
    }
    forall other | other in v.looks && other in v.h.claims && v.looks[other].shared
      ensures AcceptedAndAnswered(w, v.h.claims[other].deletion, v.looks[other].key)
    {
      assert LookAnswered(w, other);
    }
  }

  lemma SharingAfterMark(w: World, token: Uuid, item: Uuid, now: Time)
    requires Inventory(w) && Sharing(w) && token in w.h.claims
    ensures Sharing(Closed(w, MarkDeletedTx(w.t, w.h.claims[token], item, now)))
  {
    MarkedItems(w, w.h.claims[token], item, now);
    SharingStands(w, Closed(w, MarkDeletedTx(w.t, w.h.claims[token], item, now)));
  }

  /** Marking an item deleted preserves none and moves none. */
  lemma MarkedItems(w: World, c: Claim, item: Uuid, now: Time)
    requires Inventory(w)
    ensures var v := Closed(w, MarkDeletedTx(w.t, c, item, now));
            && (forall o, id, key :: InventoriedFor(w, o, id, key) <==> InventoriedFor(v, o, id, key))
            && forall o :: o in v.p.archive && v.p.archive[o].state == Preserved ==>
                 o in w.p.archive && v.p.archive[o] == w.p.archive[o]
  {
    var v := Closed(w, MarkDeletedTx(w.t, c, item, now));
    forall o, id, key ensures InventoriedFor(w, o, id, key) <==> InventoriedFor(v, o, id, key) {
      assert ItemKept(w, o);
    }
    forall o | o in v.p.archive && v.p.archive[o].state == Preserved
      ensures o in w.p.archive && v.p.archive[o] == w.p.archive[o] { assert ItemKept(w, o); }
  }

  lemma SharingAfterComplete(w: World, token: Uuid, now: Time)
    requires Rows(w) && Sharing(w) && token in w.h.claims
    ensures Sharing(w.(t := CompleteTx(w.t, w.h.claims[token], now)))
  {
    var c, v := w.h.claims[token], w.(t := CompleteTx(w.t, w.h.claims[token], now));
    assert RowsOf(w, c.deletion);
    CompleteGrows(w, c, now);
    OldAnswersStand(w, v);
    AgreementsStand(w, v);
    forall id, cycle: nat ensures PurgeKept(v, id, cycle) { PurgeAfterComplete(w, c, now, id, cycle); }
    StampsStand(w, v);
  }

  lemma CompleteGrows(w: World, c: Claim, now: Time)
    requires RowsOf(w, c.deletion)
    ensures var v := w.(t := CompleteTx(w.t, c, now));
            Grows(w, v) && NothingPreserved(w, v) && SameAgreements(w, v) && SameStamps(w, v)
  {
  }

  lemma PurgeAfterComplete(w: World, c: Claim, now: Time, id: Uuid, cycle: nat)
    requires RowsOf(w, c.deletion) && Purges(w)
    ensures PurgeKept(w.(t := CompleteTx(w.t, c, now)), id, cycle)
  {
    assert PurgeKept(w, id, cycle);
  }

  lemma SharingAfterClaim(w: World, m: Uuid, token: Uuid, now: Time)
    requires Rows(w) && Inventory(w) && Sharing(w) && m in w.queue && token !in w.h.issued
    ensures Sharing(Claimed(w, m, token, now))
  {
    assert IssuedAs(w, token) && TokenKept(w, token);
    SharingPlainly(w, Claimed(w, m, token, now));
  }

  lemma SharingKeptByWorker(tenant: Tenant, w: World, s: WorkerStep)
    requires Rows(w) && Inventory(w) && Sharing(w) && WorkerEnabled(tenant, w, s)
    ensures Sharing(WorkerApply(tenant, w, s))
  {
    match s
    case TakeClaim(m, token, now) => SharingAfterClaim(w, m, token, now);
    case CheckSource(token, item) => SharingAfterLook(w, token, item);
    case CloseSource(token, now) => SharingAfterClose(w, token, now);
    case CloseSourceTorn(token) => SharingAfterTorn(w, token);
    case MarkDeleted(token, item, now) => SharingAfterMark(w, token, item, now);
    case Complete(token, now) => SharingAfterComplete(w, token, now);
    case Skip(_, _) => SharingAfterPlainWork(tenant, w, s);
    case Wipe(_, _) => SharingAfterPlainWork(tenant, w, s);
    case Retry(_, _, _) => SharingAfterPlainWork(tenant, w, s);
    case Fail(_, _, _) => SharingAfterPlainWork(tenant, w, s);
    case Ack(_) => SharingAfterPlainWork(tenant, w, s);
  }

  lemma SharingAfterPlainWork(tenant: Tenant, w: World, s: WorkerStep)
    requires Sharing(w) && WorkerEnabled(tenant, w, s)
    requires s.Skip? || s.Wipe? || s.Retry? || s.Fail? || s.Ack?
    ensures Sharing(WorkerApply(tenant, w, s))
  {
    if s.Retry? || s.Fail? {
      SharingAfterGivingUp(tenant, w, s);
    } else {
      SharingPlainly(w, WorkerApply(tenant, w, s));
    }
  }

  lemma SharingAfterGivingUp(tenant: Tenant, w: World, s: WorkerStep)
    requires Sharing(w) && WorkerEnabled(tenant, w, s) && (s.Retry? || s.Fail?)
    ensures Sharing(WorkerApply(tenant, w, s))
  {
    SharingPlainly(w, WorkerApply(tenant, w, s));
  }

  lemma SharingKept(tenant: Tenant, w: World, s: Step)
    requires Rows(w) && Inventory(w) && Sharing(w) && Enabled(tenant, w, s)
    ensures Sharing(Apply(tenant, w, s))
  {
    match s
    case Env(e) => SharingKeptByEnv(tenant, w, e);
    case Worker(x) => SharingKeptByWorker(tenant, w, x);
    case Sweeper(x) => SharingKeptBySweeper(w, x);
  }

  lemma SharingKeptBySweeper(w: World, s: SweeperStep)
    requires Sharing(w) && SweeperEnabled(w, s)
    ensures Sharing(SweeperApply(w, s))
  {
    SharingPlainly(w, SweeperApply(w, s));
  }

}
