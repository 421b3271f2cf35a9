/** Concrete runs that show where the guarantees end: a storage delete whose transaction is lost, a file
    that is listed while a delete is on its way, a file that a later version replaced, a message skipped
    for a transaction that rolls back, and a completed deletion that a late artifact reopens. */
module DeletionCrash {
  import opened Prelude
  import opened DeletionKeys
  import opened DeletionTables
  import opened DeletionProtocol
  import opened DeletionSharing
  import opened DeletionRuns
  import opened DeletionSources
  import opened DeletionDelivery
  import opened DeletionRescue

  function Untouched(): Handouts {
    Handouts({}, map[], map[], map[], {}, map[])
  }

  /** Nothing but one uploaded object. */
  lemma OneUpload(tenant: Tenant, key: Key) returns (w: World)
    requires SourceShaped(tenant, key)
    ensures Reached(tenant, w) && w.now == 0 && w.queue == map[] && w.p.archive == map[] && w.h == Untouched()
    ensures w.t == Tables(map[], map[], map[], map[], map[key := Registry(Available, 0)], map[], multiset{})
    ensures w.stored == {key} && w.p.columns == {} && w.looks == map[]
  {
    var w0 := World(0, Tables(map[], map[], map[], map[], map[], map[], multiset{}), {}, map[], Untouched(),
                    Past(0, map[], map[], map[], map[], map[], map[], map[], map[], {}, map[], {}, {}), map[]);
    assert Initial(w0) && Legal(tenant, w0, []) && After(tenant, w0, []) == w0;
    ReachedNext(tenant, w0, Env(Upload(key, 0)));
    w := Uploaded(w0, key, 0);
  }

  /** Agreement 1 is the only one; the key is its version; nothing has been accepted. */
  lemma OneAgreement(tenant: Tenant, key: Key) returns (w: World)
    requires SourceShaped(tenant, key)
    ensures Reached(tenant, w) && w.now == 0 && w.queue == map[] && w.p.archive == map[] && w.h == Untouched()
    ensures w.t == Tables(map[1 := Agreement({key}, {key}, {}, None)], map[], map[], map[],
                          map[key := Registry(Available, 0)], map[], multiset{})
    ensures w.stored == {key} && (1, {key}) in w.p.columns && w.looks == map[]
  {
    var w1 := OneUpload(tenant, key);
    ReachedNext(tenant, w1, Env(Create(1, {key}, Some(key))));
    w := Created(w1, 1, {key}, Some(key));
    assert w.t.agreements == map[1 := Agreement({key}, {key}, {}, None)];
  }

  /** A deletion of agreement 1 as `accept_deletion` leaves it at time 0. */
  predicate JustAccepted(w: World) {
    && w.now == 0 && w.queue == map[] && w.h == Untouched() && w.looks == map[]
    && w.t.requests == map[1 := AcceptedRow(0)] && w.t.outbox == map[1 := Outbox(0, 0, None, None, None)]
    && w.p.archive == w.t.objects
  }

  function OneItem(key: Key): map<Uuid, Object> {
    map[0 := Object(1, Source, key, Pending)]
  }

  lemma OneItemInventory(w: World, key: Key)
    requires w.p.archive == map[]
    ensures Inventories(w, 1, {key}, OneItem(key))
  {
    assert SourceRow(OneItem(key), 0, key);
  }

  /** `accept_deletion` of agreement 1 in a world without any other deletion. */
  lemma AcceptedState(w: World, held: set<Key>, inventory: map<Uuid, Object>)
    requires w.t.agreements.Keys == {1} && w.p.archive == map[] == w.t.objects && w.now == 0 && w.looks == map[]
    requires w.queue == map[] && w.h == Untouched() && w.t.requests == map[] && w.t.outbox == map[]
    ensures var v := AcceptApplied(w, 1, held, inventory, 0);
            && JustAccepted(v) && v.t.objects == inventory && v.stored == w.stored && v.p.keys == w.p.keys
            && v.t.agreements.Keys == {1} && v.t.agreements[1].deletionRequestedAt.Some?
            && v.t.registry == w.t.registry && v.t.intents == w.t.intents
  {
  }

  lemma AcceptedOne(tenant: Tenant, key: Key) returns (w: World)
    requires SourceShaped(tenant, key)
    ensures Reached(tenant, w) && JustAccepted(w) && w.t.objects == OneItem(key) && w.stored == {key}
    ensures w.t.registry == map[key := Registry(Available, 0)] && w.t.agreements.Keys == {1}
  {
    var w2 := OneAgreement(tenant, key);
    assert HeldKeys(w2, 1, {key}) == {key};
    OneItemInventory(w2, key);
    ReachedNext(tenant, w2, Env(Accept(1, {key}, OneItem(key), 0)));
    AcceptedState(w2, {key}, OneItem(key));
    w := AcceptApplied(w2, 1, {key}, OneItem(key), 0);
  }

  /** It is delivered and claimed with token 12. */
  predicate InHand(w: World) {
    && w.looks == map[] && 12 in w.h.claims && w.h.claims[12] == Claim(1, 1, 12) && Holds(w.t, 1, 12)
    && w.t.requests[1].acceptedAt == 0
  }

  lemma ClaimInHand(tenant: Tenant, w: World) returns (v: World)
    requires Reached(tenant, w) && JustAccepted(w)
    ensures Reached(tenant, v) && InHand(v)
    ensures v.t.objects == w.t.objects && v.p.archive == w.p.archive && v.t.registry == w.t.registry
    ensures v.t.agreements == w.t.agreements && v.t.intents == w.t.intents && v.stored == w.stored
            && v.p.keys == w.p.keys
  {
    ReachedNext(tenant, w, Sweeper(LeaseOutbox(1, 10, 0)));
    v := Delivered(tenant, w, OutboxLeased(w, 1, 10, 0));
  }

  lemma Delivered(tenant: Tenant, w: World, w1: World) returns (v: World)
    requires Reached(tenant, w1) && JustAccepted(w) && w1 == OutboxLeased(w, 1, 10, 0)
    ensures Reached(tenant, v) && InHand(v)
    ensures v.t.objects == w.t.objects && v.p.archive == w.p.archive && v.t.registry == w.t.registry
    ensures v.t.agreements == w.t.agreements && v.t.intents == w.t.intents && v.stored == w.stored
            && v.p.keys == w.p.keys
  {
    ReachedNext(tenant, w1, Sweeper(Enqueue(10, 11)));
    v := Taken(tenant, w1, Enqueued(w1, 10, 11));
  }

  lemma Taken(tenant: Tenant, w1: World, w2: World) returns (v: World)
    requires w1.t.requests == map[1 := AcceptedRow(0)] && w1.now == 0 && w1.looks == map[] && w1.h.claims == map[]
    requires w1.h.issued == {10} && 10 in w1.h.tickets && w1.h.tickets[10].deletion == 1
    requires w2 == Enqueued(w1, 10, 11) && Reached(tenant, w2)
    ensures Reached(tenant, v) && InHand(v)
    ensures v.t == w1.t.(requests := v.t.requests) && v.p.archive == w1.p.archive && v.stored == w1.stored
            && v.p.keys == w1.p.keys
  {
    ReachedNext(tenant, w2, Worker(TakeClaim(11, 12, 0)));
    v := Claimed(w2, 11, 12, 0);
  }

  /** The worker has asked who shares the key of item 0, and nobody did. */
  lemma FoundNobodyYet(tenant: Tenant, key: Key) returns (w: World)
    requires SourceShaped(tenant, key)
    ensures Reached(tenant, w) && Removing(w, 12, key) && w.stored == {key} && w.t.agreements.Keys == {1}
    ensures w.t.registry == map[key := Registry(Available, 0)]
  {
    var w1 := AcceptedOne(tenant, key);
    var w2 := ClaimInHand(tenant, w1);
    assert !Shared(w2.t, 1, key);
    ReachedNext(tenant, w2, Worker(CheckSource(12, 0)));
    w := Looked(w2, 12, 0);
  }

  /** The worker removes the object and dies before committing. The guard of `create_version` still
      sees an available registry row, so a version of agreement 2 may refer to an object that is gone. */
  lemma TornDeleteStrandsReference(tenant: Tenant, key: Key) returns (w: World)
    requires SourceShaped(tenant, key)
    ensures Reached(tenant, w) && Live(w.t, 2) && key in w.t.agreements[2].versions
    ensures key in w.t.registry && w.t.registry[key].state == Available && key !in w.stored
  {
    var w1 := FoundNobodyYet(tenant, key);
    ReachedNext(tenant, w1, Worker(CloseSourceTorn(12)));
    var w2 := SourceTorn(w1, 12);
    ReachedNext(tenant, w2, Env(Create(2, {key}, Some(key))));
    w := Created(w2, 2, {key}, Some(key));
  }

  /** Agreement 2 lists the stored object among its files, not as the last one, after the query and
      before the removal. Its creation waits for no lock, and the object goes. */
  lemma ListedFileIsLost(tenant: Tenant, key: Key, other: Key) returns (before: World, after: World)
    requires SourceShaped(tenant, key) && other != key
    ensures Reached(tenant, before) && Lists(before, 2, key) && key in before.stored
    ensures Enabled(tenant, before, Worker(CloseSource(12, 0)))
    ensures Reached(tenant, after) && after == Apply(tenant, before, Worker(CloseSource(12, 0)))
    ensures Lists(after, 2, key) && key !in after.stored
  {
    var w := FoundNobodyYet(tenant, key);
    ReachedNext(tenant, w, Env(Create(2, {key, other}, Some(other))));
    before := Created(w, 2, {key, other}, Some(other));
    ReachedNext(tenant, before, Worker(CloseSource(12, 0)));
    after := SourceClosed(before, 12, 0);
  }

  // ---- a file that a later version replaced

  function SourceOf(key: Key, state: ObjectState): Object {
    Object(1, Source, key, state)
  }

  /** Agreement 1 was created with the files f1 and f2, of which f2 became its version; version f3
      then replaced the whole list; then it was deleted. */
  lemma AcceptedAfterReplacement(tenant: Tenant, f1: Key, f2: Key, f3: Key) returns (w: World)
    requires SourceShaped(tenant, f1) && f1 != f2 && f1 != f3 && f2 != f3
    ensures Reached(tenant, w) && JustAccepted(w) && w.stored == {f1} && References(w, 1, f1)
    ensures w.t.objects == TwoItems(f2, f3)
    ensures w.t.agreements.Keys == {1} && w.t.agreements[1].deletionRequestedAt.Some?
    ensures w.t.registry == map[f1 := Registry(Available, 0)] && w.t.intents == map[]
  {
    var w1 := OneUpload(tenant, f1);
    ReachedNext(tenant, w1, Env(Create(1, {f1, f2}, Some(f2))));
    var w2 := Created(w1, 1, {f1, f2}, Some(f2));
    ReachedNext(tenant, w2, Env(AddVersion(1, f3)));
    var w3 := VersionAdded(w2, 1, f3);
    assert {f2} + {f3} == {f2, f3};
    assert w3.t.agreements == map[1 := Agreement({f2, f3}, {f3}, {}, None)];
    w := AcceptedThen(tenant, w3, f2, f3);
  }

  function TwoItems(f2: Key, f3: Key): map<Uuid, Object> {
    map[0 := SourceOf(f2, Pending), 1 := SourceOf(f3, Pending)]
  }

  lemma TwoItemsInventory(w: World, f2: Key, f3: Key)
    requires w.p.archive == map[]
    ensures Inventories(w, 1, {f2, f3}, TwoItems(f2, f3))
  {
    assert SourceRow(TwoItems(f2, f3), 0, f2) && SourceRow(TwoItems(f2, f3), 1, f3);
  }

  lemma AcceptIsEnabled(tenant: Tenant, w: World, f2: Key, f3: Key)
    requires f2 != f3 && w.t.agreements == map[1 := Agreement({f2, f3}, {f3}, {}, None)]
    requires (1, {f3}) in w.p.columns && w.p.archive == map[] && w.now == 0
    ensures Enabled(tenant, w, Env(Accept(1, {f3}, TwoItems(f2, f3), 0))) && HeldKeys(w, 1, {f3}) == {f2, f3}
  {
    assert HeldKeys(w, 1, {f3}) == {f2, f3};
    TwoItemsInventory(w, f2, f3);
  }

  lemma AcceptedThen(tenant: Tenant, w: World, f2: Key, f3: Key) returns (v: World)
    requires Reached(tenant, w) && f2 != f3 && w.t.agreements == map[1 := Agreement({f2, f3}, {f3}, {}, None)]
    requires (1, {f3}) in w.p.columns && w.p.archive == map[] == w.t.objects && w.now == 0 && w.looks == map[]
    requires w.queue == map[] && w.h == Untouched() && w.t.requests == map[] && w.t.outbox == map[]
             && w.t.intents == map[]
    ensures Reached(tenant, v) && JustAccepted(v) && v.stored == w.stored && v.p.keys == w.p.keys
    ensures v.t.objects == TwoItems(f2, f3)
    ensures v.t.agreements.Keys == {1} && v.t.agreements[1].deletionRequestedAt.Some?
    ensures v.t.registry == w.t.registry && v.t.intents == map[]
  {
    AcceptIsEnabled(tenant, w, f2, f3);
    ReachedNext(tenant, w, Env(Accept(1, {f3}, TwoItems(f2, f3), 0)));
    AcceptedState(w, {f2, f3}, TwoItems(f2, f3));
    v := AcceptApplied(w, 1, {f2, f3}, TwoItems(f2, f3), 0);
  }

  /** The claim is in hand, only agreement 1 exists, and it is being deleted. */
  predicate Alone(w: World) {
    && InHand(w) && w.p.archive == w.t.objects && w.t.intents == map[]
    && w.t.agreements.Keys == {1} && w.t.agreements[1].deletionRequestedAt.Some?
  }

  lemma ItemDeleted(tenant: Tenant, w: World, item: Uuid, key: Key) returns (v: World)
    requires Reached(tenant, w) && Alone(w) && SourceShaped(tenant, key) && key !in w.t.registry
    requires item in w.t.objects && w.t.objects[item] == SourceOf(key, Pending)
    ensures Reached(tenant, v) && Alone(v) && v.stored == w.stored - {key} && v.p.keys == w.p.keys
    ensures v.t.objects == w.t.objects[item := SourceOf(key, Deleted)]
    ensures v.t.registry == w.t.registry[key := Registry(Gone, 0)]
  {
    assert !Shared(w.t, 1, key);
    ReachedNext(tenant, w, Worker(CheckSource(12, item)));
    v := ItemRemoved(tenant, w, Looked(w, 12, item), item, key);
  }

  lemma ItemRemoved(tenant: Tenant, w: World, w1: World, item: Uuid, key: Key) returns (v: World)
    requires Alone(w) && item in w.t.objects && w.t.objects[item] == SourceOf(key, Pending)
    requires Reached(tenant, w1) && w1 == w.(looks := map[12 := Look(item, key, false)])
    ensures Reached(tenant, v) && Alone(v) && v.stored == w.stored - {key} && v.p.keys == w.p.keys
    ensures v.t.objects == w.t.objects[item := SourceOf(key, Deleted)]
    ensures v.t.registry == w.t.registry[key := Registry(Gone, 0)]
  {
    ReachedNext(tenant, w1, Worker(CloseSource(12, 0)));
    RemovedState(w, w1, item, key);
    v := SourceClosed(w1, 12, 0);
  }

  lemma RemovedState(w: World, w1: World, item: Uuid, key: Key)
    requires Alone(w) && item in w.t.objects && w.t.objects[item] == SourceOf(key, Pending)
    requires w1 == w.(looks := map[12 := Look(item, key, false)])
    ensures var v := SourceClosed(w1, 12, 0);
            && Alone(v) && v.stored == w.stored - {key} && v.p.keys == w.p.keys
            && v.t.objects == w.t.objects[item := SourceOf(key, Deleted)]
            && v.t.registry == w.t.registry[key := Registry(Gone, 0)]
  {
    var v := SourceClosed(w1, 12, 0);
    assert v.p.archive == v.t.objects;
  }

  /** The deletion completes, no agreement is left, and the object of the replaced file stays: it was
      in nobody's inventory. */
  lemma ReplacedFileLeaks(tenant: Tenant, f1: Key, f2: Key, f3: Key) returns (w: World)
    requires SourceShaped(tenant, f1) && SourceShaped(tenant, f2) && SourceShaped(tenant, f3)
    requires f1 != f2 && f1 != f3 && f2 != f3
    ensures Reached(tenant, w) && References(w, 1, f1) && f1 in w.stored
    ensures w.t.agreements.Keys == {1} && StateOf(w, 1) == Some(Completed)
  {
    var w1 := AcceptedAfterReplacement(tenant, f1, f2, f3);
    var w2 := ClaimInHand(tenant, w1);
    var w3 := BothDeleted(tenant, w2, f1, f2, f3);
    w := CompletedAlone(tenant, w3);
  }

  lemma BothDeleted(tenant: Tenant, w: World, f1: Key, f2: Key, f3: Key) returns (v: World)
    requires Reached(tenant, w) && Alone(w) && SourceShaped(tenant, f2) && SourceShaped(tenant, f3)
    requires f1 != f2 && f1 != f3 && f2 != f3
    requires w.t.objects == TwoItems(f2, f3)
    requires w.t.registry == map[f1 := Registry(Available, 0)] && w.stored == {f1}
    ensures Reached(tenant, v) && Alone(v) && v.stored == {f1} && v.p.keys == w.p.keys
    ensures forall o :: o in v.t.objects ==> v.t.objects[o].state != Pending
  {
    var w1 := ItemDeleted(tenant, w, 0, f2);
    v := SecondDeleted(tenant, w1, f1, f2, f3);
  }

  lemma SecondDeleted(tenant: Tenant, w: World, f1: Key, f2: Key, f3: Key) returns (v: World)
    requires Reached(tenant, w) && Alone(w) && SourceShaped(tenant, f3) && f1 != f3 && f2 != f3
    requires w.t.objects == TwoItems(f2, f3)[0 := SourceOf(f2, Deleted)] && w.stored == {f1} - {f2}
    requires w.t.registry == map[f1 := Registry(Available, 0), f2 := Registry(Gone, 0)]
    ensures Reached(tenant, v) && Alone(v) && v.stored == w.stored && v.p.keys == w.p.keys
    ensures forall o :: o in v.t.objects ==> v.t.objects[o].state != Pending
  {
    v := ItemDeleted(tenant, w, 1, f3);
  }

  lemma CompletedAlone(tenant: Tenant, w: World) returns (v: World)
    requires Reached(tenant, w) && Alone(w) && forall o :: o in w.t.objects ==> w.t.objects[o].state != Pending
    ensures Reached(tenant, v) && v.stored == w.stored && v.p.keys == w.p.keys
    ensures v.t.agreements.Keys == {1} && StateOf(v, 1) == Some(Completed)
  {
    ReachedNext(tenant, w, Worker(Complete(12, 0)));
    v := w.(t := CompleteTx(w.t, w.h.claims[12], 0));
  }

  // ---- a message that nobody handles

  /** The delivered message meets the row while a transaction holds it that then rolls back; it is
      acknowledged, and the waiting request has none left. */
  lemma SwallowedMessageStrands(tenant: Tenant, key: Key) returns (w: World)
    requires SourceShaped(tenant, key)
    ensures Reached(tenant, w) && Stranded(w, 1) && Excused(w, 1)
  {
    var w1 := AcceptedOne(tenant, key);
    ReachedNext(tenant, w1, Sweeper(LeaseOutbox(1, 10, 0)));
    var w2 := OutboxLeased(w1, 1, 10, 0);
    ReachedNext(tenant, w2, Sweeper(Enqueue(10, 11)));
    w := Swallow(tenant, Enqueued(w2, 10, 11));
    StrandedBySwallowing(tenant, w, 1);
  }

  lemma Swallow(tenant: Tenant, w: World) returns (v: World)
    requires Reached(tenant, w) && w.t.requests == map[1 := AcceptedRow(0)] && w.queue == map[11 := Message(1, 10, 0)]
    requires w.h.tickets == map[10 := Ticket(1, 0)] && w.h.sent == map[10 := 11] && 1 in w.t.outbox
    requires w.t.outbox[1].deliveredAt.None? && w.t.outbox[1].lease == Some(10)
    ensures Reached(tenant, v) && Stranded(v, 1)
  {
    ReachedNext(tenant, w, Sweeper(MarkDelivered(10, 0)));
    var w1 := w.(t := DeliveredTx(w.t, 1, 10, 0));
    ReachedNext(tenant, w1, Worker(Skip(11, true)));
    var w2 := Skipped(w1, 11, true);
    ReachedNext(tenant, w2, Worker(Ack(11)));
    v := w2.(queue := w2.queue - {11});
  }

  // ---- a completed deletion that comes back

  /** The deletion of agreement 1 has completed; then the processing worker inventories an artifact it
      had stored late, and the request waits again, in a new retry cycle. */
  lemma LateArtifactReopens(tenant: Tenant, f1: Key, f2: Key, f3: Key, artifact: Key)
    returns (before: World, late: Step, after: World)
    requires SourceShaped(tenant, f1) && SourceShaped(tenant, f2) && SourceShaped(tenant, f3)
    requires f1 != f2 && f1 != f3 && f2 != f3
    ensures Reached(tenant, before) && StateOf(before, 1) == Some(Completed) && Purged(before.t, 1)
    ensures Enabled(tenant, before, late) && LateOf(late, 1) && after == Apply(tenant, before, late)
    ensures Reached(tenant, after) && StateOf(after, 1) == Some(Retrying)
    ensures after.t.requests[1].cycle == before.t.requests[1].cycle + 1 && HasPending(after.t, 1)
  {
    before := ReplacedFileLeaks(tenant, f1, f2, f3);
    PurgedForEver(tenant, before, [], 1);
    var item := Fresh(before.p.archive.Keys + before.t.objects.Keys);
    var o := Object(1, Analysis, artifact, Pending);
    late := Env(Late(1, item, o, {}, 0));
    ReachedNext(tenant, before, late);
    after := LateApplied(before, 1, item, o, {}, 0);
    assert after.t.objects[item] == o;
  }

}
