/** `AgreementDeletionProcessor.handle` and `AgreementDeletionOutboxSweeper.sweep_once`, run without
    interference: exactly when one delivery finishes a deletion, and what one sweep delivers. */
module DeletionProcessor {
  import opened Prelude
  import opened DeletionKeys
  import opened DeletionTables
  import opened DeletionRepository

  datatype Handled = NotClaimed | Finished | Rescheduled | Exhausted

  /** A source somebody else still needs: its row is closed but the object stays. */
  ghost predicate Spared(t: Tables, id: Uuid, o: Uuid)
    requires id in t.requests && o in t.objects
  {
    t.objects[o].category == Source && Shared(t, id, t.objects[o].key)
  }

  ghost predicate Removable(tenant: Tenant, t: Tables, id: Uuid, o: Uuid, down: set<Key>)
    requires id in t.requests && o in t.objects
  {
    ValidOwnedKey(tenant, id, t.objects[o].category, t.objects[o].key)
      && (Spared(t, id, o) || t.objects[o].key !in down)
  }

  /** Every pending item has an owned key, and every object that must go can be deleted. */
  ghost predicate Cleanable(tenant: Tenant, t: Tables, id: Uuid, down: set<Key>)
    requires id in t.requests
  {
    forall o :: PendingOf(t, id, o) ==> Removable(tenant, t, id, o, down)
  }

  predicate Planned(o: Object, id: Uuid, i: Intent) {
    o.deletion == id && o.category == i.category && o.key == i.key
  }

  /** Every artifact intent of the agreement is settled and inventoried. */
  ghost predicate Closable(t: Tables, id: Uuid) {
    && id in t.agreements
    && forall i :: i in t.intents && t.intents[i].agreement == id ==>
         t.intents[i].state == Settled && exists o :: o in t.objects && Planned(t.objects[o], id, t.intents[i])
  }

  /** The keys a clean pass removes from storage. */
  ghost function RemovedKeys(t: Tables, id: Uuid, items: set<Uuid>): set<Key>
    requires id in t.requests && items <= t.objects.Keys
  {
    set o | o in items && !Spared(t, id, o) :: t.objects[o].key
  }

  ghost function PendingItems(t: Tables, id: Uuid): set<Uuid> {
    set o | o in t.objects && PendingOf(t, id, o)
  }

  function ClosedState(spared: bool): ObjectState {
    if spared then Preserved else Deleted
  }

  /** The source keys among the items that were removed. */
  ghost function DroppedKeys(t: Tables, id: Uuid, done: set<Uuid>): set<Key>
    requires id in t.requests && done <= t.objects.Keys
  {
    set o | o in done && t.objects[o].category == Source && !Spared(t, id, o) :: t.objects[o].key
  }

  ghost function ClosedObject(t: Tables, id: Uuid, done: set<Uuid>, o: Uuid): Object
    requires id in t.requests && o in t.objects
  {
    if o in done then t.objects[o].(state := ClosedState(Spared(t, id, o))) else t.objects[o]
  }

  function Goned(registry: map<Key, Registry>, keys: set<Key>, now: Time): map<Key, Registry> {
    registry + map key | key in keys :: Registry(Gone, now)
  }

  lemma GonedOneMore(registry: map<Key, Registry>, keys: set<Key>, key: Key, now: Time)
    ensures Goned(registry, keys + {key}, now) == Goned(registry, keys, now)[key := Registry(Gone, now)]
  {
  }

  /** The tables once the loop of `handle` has passed the items in `done`. */
  ghost function Passed(t: Tables, id: Uuid, done: set<Uuid>, now: Time): Tables
    requires id in t.requests && done <= t.objects.Keys
  {
    t.(objects := map o | o in t.objects :: ClosedObject(t, id, done, o),
       registry := Goned(t.registry, DroppedKeys(t, id, done), now))
  }

  /** Removing sources nobody shares does not change which sources are shared. */
  lemma SharedIsStable(t: Tables, id: Uuid, done: set<Uuid>, now: Time, key: Key)
    requires id in t.requests && done <= t.objects.Keys
    ensures Shared(Passed(t, id, done, now), id, key) <==> Shared(t, id, key)
  {
    assert ReferencedElsewhere(Passed(t, id, done, now), id, key) <==> ReferencedElsewhere(t, id, key);
  }

  /** One item of the loop; false is an ObjectCleanupError, which leaves everything as it was. */
  method HandleItem(repository: DeletionRepository, storage: ObjectStorage, tenant: Tenant, c: Claim, item: Uuid,
                    now: Time, ghost t: Tables, ghost done: set<Uuid>)
    returns (ok: bool)
    requires c.deletion in t.requests && done <= t.objects.Keys && repository.Rows() == Passed(t, c.deletion, done, now)
    requires Holds(t, c.deletion, c.token) && t.requests[c.deletion].lease == Some(now + LEASE_SECONDS)
    requires PendingOf(t, c.deletion, item) && item !in done
    modifies repository, storage
    ensures ok <==> Removable(tenant, t, c.deletion, item, storage.down)
    ensures !ok ==> repository.Rows() == old(repository.Rows()) && storage.stored == old(storage.stored)
    ensures ok ==> repository.Rows() == Passed(t, c.deletion, done + {item}, now)
    ensures ok ==> storage.stored == old(storage.stored) - RemovedKeys(t, c.deletion, {item})
    ensures var o := t.objects[item];
            var spared := o.category == Source && Shared(t, c.deletion, o.key);
            && (ok <==> ValidOwnedKey(tenant, c.deletion, o.category, o.key) && (spared || o.key !in storage.down))
            && (ok ==> storage.stored == old(storage.stored) - if spared then {} else {o.key})
  {
    var o := repository.objects[item];
    SharedIsStable(t, c.deletion, done, now, o.key);
    if !ValidOwnedKey(tenant, c.deletion, o.category, o.key) {
      return false;
    }
    if o.category == Source {
      var r := repository.DeleteSourceIfUnreferenced(c, item, storage, now);
      ok := r.Done?;
    } else {
      ok := storage.Delete(o.key);
      if ok {
        var r := repository.MarkDeleted(c, item, now);
      }
    }
    if ok {
      ItemPassed(t, c, done, item, now);
      RemovedOne(t, c.deletion, item);
    }
  }

  lemma RemovedOne(t: Tables, id: Uuid, item: Uuid)
    requires id in t.requests && item in t.objects
    ensures RemovedKeys(t, id, {item}) == if Spared(t, id, item) then {} else {t.objects[item].key}
  {
    assert RemovedKeys(t, id, {item}) <= {t.objects[item].key};
    assert !Spared(t, id, item) ==> t.objects[item].key in RemovedKeys(t, id, {item});
  }

  lemma ItemPassed(t: Tables, c: Claim, done: set<Uuid>, item: Uuid, now: Time)
    requires c.deletion in t.requests && done <= t.objects.Keys
    requires Holds(t, c.deletion, c.token) && t.requests[c.deletion].lease == Some(now + LEASE_SECONDS)
    requires PendingOf(t, c.deletion, item) && item !in done
    ensures var before := Passed(t, c.deletion, done, now);
            Passed(t, c.deletion, done + {item}, now) ==
              if t.objects[item].category == Source then DeleteSourceTx(before, c, item, now)
              else MarkDeletedTx(before, c, item, now)
  {
    var id, before := c.deletion, Passed(t, c.deletion, done, now);
    SharedIsStable(t, id, done, now, t.objects[item].key);
    PassedOneMore(t, id, done, item, now);
    RowUnmoved(t, id, now);
  }

  /** Closing an item renews the lease to what the claim set it to. */
  lemma RowUnmoved(t: Tables, id: Uuid, now: Time)
    requires id in t.requests && t.requests[id].lease == Some(now + LEASE_SECONDS)
    ensures t.requests[id := t.requests[id].(lease := Some(now + LEASE_SECONDS))] == t.requests
  {
  }

  lemma PassedOneMore(t: Tables, id: Uuid, done: set<Uuid>, item: Uuid, now: Time)
    requires id in t.requests && done <= t.objects.Keys && PendingOf(t, id, item) && item !in done
    ensures var before, o := Passed(t, id, done, now), t.objects[item];
            && before.objects[item] == o
            && Passed(t, id, done + {item}, now) == before.(
                 objects := before.objects[item := o.(state := ClosedState(Spared(t, id, item)))],
                 registry := if o.category == Source && !Spared(t, id, item)
                             then before.registry[o.key := Registry(Gone, now)] else before.registry)
  {
    var o := t.objects[item];
    DroppedOneMore(t, id, done, item);
    GonedOneMore(t.registry, DroppedKeys(t, id, done), o.key, now);
    assert DroppedKeys(t, id, done) + {} == DroppedKeys(t, id, done);
    ClosedOneMore(t, id, done, item, now);
  }

  lemma ClosedOneMore(t: Tables, id: Uuid, done: set<Uuid>, item: Uuid, now: Time)
    requires id in t.requests && done <= t.objects.Keys && item in t.objects
    ensures Passed(t, id, done + {item}, now).objects ==
      Passed(t, id, done, now).objects[item := t.objects[item].(state := ClosedState(Spared(t, id, item)))]
  {
  }

  lemma DroppedOneMore(t: Tables, id: Uuid, done: set<Uuid>, item: Uuid)
    requires id in t.requests && done <= t.objects.Keys && item in t.objects
    ensures DroppedKeys(t, id, done + {item}) ==
      DroppedKeys(t, id, done) + if t.objects[item].category == Source && !Spared(t, id, item)
        then {t.objects[item].key} else {}
  {
  }

  function NextAttempt(now: Time, attempts: nat): Time {
    now + DelaySeconds(attempts)
  }

  /** The rows after a failed pass: one retry or the terminal failure, nothing else about the request. */
  ghost predicate GaveUp(t: Tables, id: Uuid, failure: FailureCategory, now: Time, r: Handled, t': Tables)
    requires id in t.requests
  {
    var row := t.requests[id];
    if MayRetry(row.attempts) then
      && r == Rescheduled
      && t' == t.(requests := t.requests[id := RetryingRow(row, failure, NextAttempt(now, row.attempts))],
                  outbox := Armed(t.outbox, id, NextAttempt(now, row.attempts)))
    else
      && r == Exhausted
      && t' == t.(requests := t.requests[id := FailedRow(row, failure, now)], outbox := Armed(t.outbox, id, now),
                  audits := t.audits + multiset{AuditEvent(id, FailedEvent, row.cycle)})
  }

  ghost function FailureOf(cleanable: bool): FailureCategory {
    if cleanable then DatabaseCleanup else ObjectStorage
  }

  /** A pending item that the loop passes: it and every pending item before it can be cleaned up. */
  ghost predicate Reachable(tenant: Tenant, t: Tables, id: Uuid, down: set<Key>, o: Uuid)
    requires id in t.requests
  {
    PendingOf(t, id, o) && forall p: Uuid :: PendingOf(t, id, p) && p <= o ==> Removable(tenant, t, id, p, down)
  }

  ghost function CleanedItems(tenant: Tenant, t: Tables, id: Uuid, down: set<Key>): set<Uuid>
    requires id in t.requests
  {
    set o | o in t.objects && Reachable(tenant, t, id, down, o)
  }

  /** A clean pass passes every pending item. */
  lemma CleanableIsAll(tenant: Tenant, t: Tables, id: Uuid, down: set<Key>)
    requires id in t.requests && Cleanable(tenant, t, id, down)
    ensures CleanedItems(tenant, t, id, down) == PendingItems(t, id)
  {
  }

  /** The pass reaches the pending items before the first one whose key is not owned or whose object
      cannot go. */
  lemma ReachesAPrefix(tenant: Tenant, t: Tables, id: Uuid, down: set<Key>, o: Uuid)
    requires id in t.requests && o in t.objects
    ensures Reachable(tenant, t, id, down, o) <==>
            && t.objects[o].deletion == id && t.objects[o].state == Pending
            && forall p :: p in t.objects && t.objects[p].deletion == id && t.objects[p].state == Pending && p <= o ==>
                 && ValidOwnedKey(tenant, id, t.objects[p].category, t.objects[p].key)
                 && (t.objects[p].key !in down || (t.objects[p].category == Source && Shared(t, id, t.objects[p].key)))
    ensures o in CleanedItems(tenant, t, id, down) <==> Reachable(tenant, t, id, down, o)
  {
    if Reachable(tenant, t, id, down, o) {
      forall p | p in t.objects && t.objects[p].deletion == id && t.objects[p].state == Pending && p <= o
        ensures Removable(tenant, t, id, p, down)
      {
        assert PendingOf(t, id, p);
      }
    }
  }

  /** A pass closes the items it passed, as preserved exactly when somebody else still needs the source,
      and touches only items and registry. */
  lemma PassClosesItems(t: Tables, id: Uuid, done: set<Uuid>, now: Time, o: Uuid)
    requires id in t.requests && done <= t.objects.Keys && o in t.objects
    ensures var t' := Passed(t, id, done, now);
            && t' == t.(objects := t'.objects, registry := t'.registry) && t'.objects.Keys == t.objects.Keys
            && t'.objects[o] ==
               if o !in done then t.objects[o]
               else if t.objects[o].category == Source && Shared(t, id, t.objects[o].key)
               then t.objects[o].(state := Preserved) else t.objects[o].(state := Deleted)
  {
  }

  /** It removes exactly the keys of the other items it passed, and records those of sources as gone. */
  lemma PassRemovesKeys(t: Tables, id: Uuid, done: set<Uuid>, now: Time, key: Key)
    requires id in t.requests && done <= t.objects.Keys
    ensures var t' := Passed(t, id, done, now);
            var sources := set o | o in done && t.objects[o].category == Source && t.objects[o].key == key;
            var others := set o | o in done && t.objects[o].category != Source && t.objects[o].key == key;
            var dropped := sources != {} && !Shared(t, id, key);
            && (key in RemovedKeys(t, id, done) <==> others != {} || dropped)
            && (key in t'.registry <==> key in t.registry || dropped)
            && (key in t'.registry && dropped ==> t'.registry[key] == Registry(Gone, now))
            && (key in t.registry && !dropped ==> t'.registry[key] == t.registry[key])
  {
    DroppedKey(t, id, done, key);
    RemovedKey(t, id, done, key);
  }

  lemma DroppedKey(t: Tables, id: Uuid, done: set<Uuid>, key: Key)
    requires id in t.requests && done <= t.objects.Keys
    ensures var sources := set o | o in done && t.objects[o].category == Source && t.objects[o].key == key;
            key in DroppedKeys(t, id, done) <==> sources != {} && !Shared(t, id, key)
  {
    var sources := set o | o in done && t.objects[o].category == Source && t.objects[o].key == key;
    if sources != {} && !Shared(t, id, key) {
      var o :| o in sources;
      assert o in done && t.objects[o].category == Source && !Spared(t, id, o) && t.objects[o].key == key;
    }
    if key in DroppedKeys(t, id, done) {
      var o :| o in done && t.objects[o].category == Source && !Spared(t, id, o) && t.objects[o].key == key;
      assert o in sources;
    }
  }

  lemma RemovedKey(t: Tables, id: Uuid, done: set<Uuid>, key: Key)
    requires id in t.requests && done <= t.objects.Keys
    ensures var others := set o | o in done && t.objects[o].category != Source && t.objects[o].key == key;
            key in RemovedKeys(t, id, done) <==> others != {} || key in DroppedKeys(t, id, done)
  {
    var others := set o | o in done && t.objects[o].category != Source && t.objects[o].key == key;
    if key in RemovedKeys(t, id, done) {
      var o :| o in done && !Spared(t, id, o) && t.objects[o].key == key;
      assert o in others || key in DroppedKeys(t, id, done);
    }
    if others != {} {
      var o :| o in others;
      assert !Spared(t, id, o);
    }
  }

  /** The items the loop has passed. */
  ghost function Prefix(items: seq<Uuid>, i: nat): set<Uuid>
    requires i <= |items|
  {
    set j | 0 <= j < i :: items[j]
  }

  lemma PrefixOneMore(items: seq<Uuid>, i: nat)
    requires i < |items| && forall j, k :: 0 <= j < k < |items| ==> items[j] < items[k]
    ensures items[i] !in Prefix(items, i) && Prefix(items, i + 1) == Prefix(items, i) + {items[i]}
  {
  }

  lemma PrefixIsAll(t: Tables, id: Uuid, items: seq<Uuid>)
    requires forall o :: o in items <==> PendingOf(t, id, o)
    ensures Prefix(items, |items|) == PendingItems(t, id)
  {
    forall o | PendingOf(t, id, o) ensures o in Prefix(items, |items|) {
      var k :| 0 <= k < |items| && items[k] == o;
    }
    forall o | o in Prefix(items, |items|) ensures PendingOf(t, id, o) {
      var j :| 0 <= j < |items| && items[j] == o;
      assert items[j] in items;
    }
  }

  /** What the sorted loop has passed when it meets the first item it cannot clean up. */
  lemma StoppedAt(tenant: Tenant, t: Tables, id: Uuid, down: set<Key>, items: seq<Uuid>, i: nat)
    requires id in t.requests && i < |items|
    requires forall j, k :: 0 <= j < k < |items| ==> items[j] < items[k]
    requires forall o :: o in items <==> PendingOf(t, id, o)
    requires forall j :: 0 <= j < i ==> PendingOf(t, id, items[j]) && Removable(tenant, t, id, items[j], down)
    requires PendingOf(t, id, items[i]) && !Removable(tenant, t, id, items[i], down)
    ensures Prefix(items, i) == CleanedItems(tenant, t, id, down)
  {
    forall j | 0 <= j < i ensures Reachable(tenant, t, id, down, items[j]) {
      forall p | PendingOf(t, id, p) && p <= items[j] ensures Removable(tenant, t, id, p, down) {
        var k :| 0 <= k < |items| && items[k] == p;
      }
    }
    forall o | Reachable(tenant, t, id, down, o) ensures exists j :: 0 <= j < i && items[j] == o {
      var k :| 0 <= k < |items| && items[k] == o;
      assert items[k] < items[i];
    }
  }

  lemma RemovedOneMore(t: Tables, id: Uuid, done: set<Uuid>, item: Uuid)
    requires id in t.requests && done <= t.objects.Keys && item in t.objects
    ensures RemovedKeys(t, id, done + {item}) == RemovedKeys(t, id, done) + RemovedKeys(t, id, {item})
  {
  }

  /** The loop of `handle`: stops at the first item whose object cannot be cleaned up, and leaves the
      rows and the store as the items before it demand. */
  method CleanItems(repository: DeletionRepository, storage: ObjectStorage, tenant: Tenant, c: Claim, now: Time)
    returns (ok: bool)
    requires Holds(repository.Rows(), c.deletion, c.token)
    requires repository.requests[c.deletion].lease == Some(now + LEASE_SECONDS)
    modifies repository, storage
    ensures var t, id := old(repository.Rows()), c.deletion;
            var passed := CleanedItems(tenant, t, id, storage.down);
            && (ok <==> passed == PendingItems(t, id)) && (ok <==> Cleanable(tenant, t, id, storage.down))
            && repository.Rows() == Passed(t, id, passed, now)
            && storage.stored == old(storage.stored) - RemovedKeys(t, id, passed)
  {
    ghost var t, id := repository.Rows(), c.deletion;
    var items := repository.PendingObjects(c);
    ghost var done: set<Uuid> := {};
    var i := 0;
    assert repository.Rows().objects == Passed(t, id, done, now).objects;
    assert repository.Rows().registry == Passed(t, id, done, now).registry;
    while i < |items|
      invariant 0 <= i <= |items| && id in t.requests
      invariant done == Prefix(items, i) <= PendingItems(t, id)
      invariant repository.Rows() == Passed(t, id, done, now)
      invariant storage.stored == old(storage.stored) - RemovedKeys(t, id, done)
      invariant forall o :: o in done ==> Removable(tenant, t, id, o, storage.down)
    {
      ok := HandleItem(repository, storage, tenant, c, items[i], now, t, done);
      if !ok {
        StoppedAt(tenant, t, id, storage.down, items, i);
        assert items[i] in PendingItems(t, id) && items[i] !in CleanedItems(tenant, t, id, storage.down);
        return;
      }
      RemovedOneMore(t, id, done, items[i]);
      PrefixOneMore(items, i);
      done, i := done + {items[i]}, i + 1;
    }
    PrefixIsAll(t, id, items);
    CleanableIsAll(tenant, t, id, storage.down);
    ok := true;
  }

  /** One delivery. It finishes the deletion exactly when the request can be claimed, every pending
      object can be removed or must be spared, and every intent is settled and inventoried. Otherwise a
      claimed request is rescheduled or, out of attempts, failed with one audit event. Either way the
      items before the first that cannot be cleaned up are closed, and exactly their unspared keys go. */
  method Handle(repository: DeletionRepository, storage: ObjectStorage, tenant: Tenant, id: Uuid, token: Uuid,
      now: Time)
    returns (r: Handled)
    modifies repository, storage
    ensures var t := old(repository.Rows());
            r.NotClaimed? <==> !(id in t.requests && Claimable(t.requests[id], now))
    ensures r.NotClaimed? ==> repository.Rows() == old(repository.Rows()) && storage.stored == old(storage.stored)
    ensures !r.NotClaimed? ==>
              var t := ClaimTx(old(repository.Rows()), id, token, now);
              var clean := Cleanable(tenant, t, id, storage.down);
              var passed := CleanedItems(tenant, t, id, storage.down);
              var t' := Passed(t, id, passed, now);
              && (r.Finished? <==> clean && Closable(t, id)) && (clean <==> passed == PendingItems(t, id))
              && (r.Finished? ==> id in t'.agreements && repository.Rows() == PurgeTx(t', id, now))
              && (!r.Finished? ==> GaveUp(t', id, FailureOf(clean), now, r, repository.Rows()))
              && storage.stored == old(storage.stored) - RemovedKeys(t, id, passed)
    ensures !r.NotClaimed? ==>
              && id in repository.requests
              && (repository.requests[id].state == match r
                  case Finished => Completed
                  case Rescheduled => Retrying
                  case _ => Failed)
              && (r.Finished? || repository.requests[id].failure.Some?)
              && (!r.Finished? ==>
                    var clean := Cleanable(tenant, ClaimTx(old(repository.Rows()), id, token, now), id, storage.down);
                    repository.requests[id].failure.value == if clean then DatabaseCleanup else ObjectStorage)
  {
    var claim := repository.TakeClaim(id, token, now);
    if claim.None? {
      return NotClaimed;
    }
    var c := claim.value;
    ghost var t := repository.Rows();
    var clean := CleanItems(repository, storage, tenant, c, now);
    ghost var t' := repository.Rows();
    if !clean {
      r := GiveUp(repository, c, ObjectStorage, now, t');
      return;
    }
    CompletionCondition(t, id, now);
    var ok := repository.CompleteAndPurge(c, now);
    if ok {
      return Finished;
    }
    r := GiveUp(repository, c, DatabaseCleanup, now, t');
  }

  /** After a clean pass nothing is pending, so only the intents decide. */
  lemma CompletionCondition(t: Tables, id: Uuid, now: Time)
    requires id in t.requests
    ensures var t' := Passed(t, id, PendingItems(t, id), now);
            Purgeable(t', id) && id in t'.agreements <==> Closable(t, id)
  {
    var t' := Passed(t, id, PendingItems(t, id), now);
    assert !HasPending(t', id);
    forall i | i in t.intents && t.intents[i].agreement == id
      ensures Reconciled(t', id, t.intents[i]) <==>
        t.intents[i].state == Settled && exists o :: o in t.objects && Planned(t.objects[o], id, t.intents[i])
    {
      if o :| o in t.objects && Planned(t.objects[o], id, t.intents[i]) {
        assert Finishes(t'.objects[o], id, t.intents[i]) && o in t'.objects;
      }
      if o :| o in t'.objects && Finishes(t'.objects[o], id, t.intents[i]) {
        assert Planned(t.objects[o], id, t.intents[i]) && o in t.objects;
      }
    }
  }

  method GiveUp(repository: DeletionRepository, c: Claim, failure: FailureCategory, now: Time, ghost t: Tables)
    returns (r: Handled)
    requires Holds(t, c.deletion, c.token) && c.attempts == t.requests[c.deletion].attempts
    requires repository.Rows() == t
    modifies repository
    ensures GaveUp(t, c.deletion, failure, now, r, repository.Rows())
    ensures r == if c.attempts < 5 then Rescheduled else Exhausted
    ensures var row := t.requests[c.deletion];
            repository.requests == t.requests[c.deletion := if c.attempts < 5
              then row.(state := Retrying, claim := None, lease := None, failure := Some(failure),
                        nextAttempt := now + DelaySeconds(c.attempts))
              else row.(state := Failed, claim := None, lease := None, failure := Some(failure),
                        failedAt := Some(now))]
  {
    if !MayRetry(c.attempts) {
      repository.Fail(c, failure, now);
      return Exhausted;
    }
    repository.Retry(c, failure, now + DelaySeconds(c.attempts));
    r := Rescheduled;
  }

  // ---- the sweeper

  function DeliveredRow(o: Outbox, now: Time): Outbox {
    o.(attempts := o.attempts + 1, deliveredAt := Some(now), lease := None, leaseExpires := None)
  }

  function ReleasedRow(o: Outbox, now: Time): Outbox {
    o.(attempts := o.attempts + 1, lease := None, leaseExpires := None,
      nextAttempt := now + DelaySeconds(o.attempts + 1))
  }

  /** Sending spends one attempt and ends the lease; a failed one waits for the delay of that attempt. */
  lemma SentRowsAre(o: Outbox, now: Time)
    ensures DeliveredRow(o, now) == Outbox(o.attempts + 1, o.nextAttempt, None, None, Some(now))
    ensures ReleasedRow(o, now) == Outbox(o.attempts + 1, now + DelaySeconds(o.attempts + 1), None, None, o.deliveredAt)
  {
  }

  /** The rows with `sent` delivered. */
  ghost function SentRows(t: Tables, sent: seq<Uuid>, now: Time): Tables {
    t.(outbox := map id | id in t.outbox :: if id in sent then DeliveredRow(t.outbox[id], now) else t.outbox[id])
  }

  /** `sent` lists due rows, earliest first, and nothing due was passed over. */
  ghost predicate SentInOrder(t: Tables, sent: seq<Uuid>, now: Time) {
    && (forall i, j :: 0 <= i < j < |sent| ==> sent[i] != sent[j] && Before(t, sent[i], sent[j]))
    && (forall id :: id in sent ==> Due(t, id, now))
    && (forall i, id :: 0 <= i < |sent| && Due(t, id, now) && id !in sent ==> Before(t, sent[i], id))
  }

  /** Lease the first due row and enqueue it; deliver or release it. */
  method SendFirst(repository: DeletionRepository, queue: DeletionQueue, now: Time, ticket: Uuid)
    returns (message: Option<Leased>, ok: bool)
    modifies repository, queue
    ensures message.None? <==> forall id :: !Due(old(repository.Rows()), id, now)
    ensures message.None? ==> repository.Rows() == old(repository.Rows()) && queue.messages == old(queue.messages)
                              && queue.room == old(queue.room)
    ensures message.Some? ==>
              var t, id := old(repository.Rows()), message.value.deletion;
              && First(t, id, now) && (ok <==> old(queue.room) > 0)
              && repository.Rows() == t.(outbox := t.outbox[id :=
                   if ok then DeliveredRow(t.outbox[id], now) else ReleasedRow(t.outbox[id], now)])
              && queue.messages == old(queue.messages) + (if ok then [id] else [])
              && queue.room == if ok then old(queue.room) - 1 else 0
  {
    ok := true;
    message := repository.ClaimDueOutbox(ticket, now);
    if message.Some? {
      var id := message.value.deletion;
      ok := queue.EnqueueDeletion(id);
      if ok {
        repository.MarkOutboxDelivered(id, ticket, now);
      } else {
        repository.ReleaseOutbox(id, ticket, now + DelaySeconds(message.value.attempts));
      }
    }
  }

  /** What a sweep leaves of the rows t: everything due is sent, in order; or the queue gave out, and the first
      row still due was given back with back-off. */
  ghost predicate Swept(t: Tables, sent: seq<Uuid>, released: Option<Uuid>, now: Time, room: nat, t': Tables) {
    && SentInOrder(t, sent, now) && |sent| <= room
    && (released.None? ==> t' == SentRows(t, sent, now) && forall id :: Due(t, id, now) <==> id in sent)
    && (released.Some? ==>
          var rows, id := SentRows(t, sent, now), released.value;
          && |sent| == room && First(rows, id, now)
          && t' == rows.(outbox := rows.outbox[id := ReleasedRow(rows.outbox[id], now)]))
  }

  /** One sweep: recover what expired, then deliver every due row, earliest first. When the queue
      gives out, the row in hand is released with back-off and the sweep stops. */
  method SweepOnce(repository: DeletionRepository, queue: DeletionQueue, now: Time, firstTicket: Uuid)
    returns (sent: seq<Uuid>, released: Option<Uuid>)
    modifies repository, queue
    ensures queue.messages == old(queue.messages) + sent
    ensures Swept(RecoverTx(old(repository.Rows()), now), sent, released, now, old(queue.room), repository.Rows())
  {
    repository.RecoverStaleDeletions(now);
    sent, released := DeliverDue(repository, queue, now, firstTicket);
  }

  /** The loop of `sweep_once`. */
  method DeliverDue(repository: DeletionRepository, queue: DeletionQueue, now: Time, firstTicket: Uuid)
    returns (sent: seq<Uuid>, released: Option<Uuid>)
    modifies repository, queue
    ensures queue.messages == old(queue.messages) + sent
    ensures Swept(old(repository.Rows()), sent, released, now, old(queue.room), repository.Rows())
  {
    ghost var t, room := repository.Rows(), queue.room;
    sent, released := [], None;
    NothingSent(t, now);
    while true
      invariant SentInOrder(t, sent, now) && repository.Rows() == SentRows(t, sent, now)
      invariant queue.messages == old(queue.messages) + sent && |sent| + queue.room == room
      decreases queue.room
    {
      var message, ok := SendFirst(repository, queue, now, firstTicket + |sent|);
      if message.None? {
        NothingLeft(t, sent, now, room);
        return;
      }
      var id := message.value.deletion;
      if !ok {
        GivenBack(t, sent, now, id, repository.Rows());
        return sent, Some(id);
      }
      SentOneMore(t, sent, now, id);
      sent := sent + [id];
    }
  }

  lemma NothingSent(t: Tables, now: Time)
    ensures SentInOrder(t, [], now) && SentRows(t, [], now) == t
  {
  }

  lemma StillDue(t: Tables, sent: seq<Uuid>, now: Time, id: Uuid)
    requires SentInOrder(t, sent, now)
    ensures Due(SentRows(t, sent, now), id, now) <==> Due(t, id, now) && id !in sent
  {
  }

  lemma NothingLeft(t: Tables, sent: seq<Uuid>, now: Time, room: nat)
    requires SentInOrder(t, sent, now) && |sent| <= room
    requires forall id :: !Due(SentRows(t, sent, now), id, now)
    ensures Swept(t, sent, None, now, room, SentRows(t, sent, now))
  {
    forall id ensures Due(t, id, now) <==> id in sent {
      StillDue(t, sent, now, id);
    }
  }

  lemma GivenBack(t: Tables, sent: seq<Uuid>, now: Time, id: Uuid, t': Tables)
    requires SentInOrder(t, sent, now) && First(SentRows(t, sent, now), id, now)
    requires var rows := SentRows(t, sent, now);
             t' == rows.(outbox := rows.outbox[id := ReleasedRow(rows.outbox[id], now)])
    ensures Swept(t, sent, Some(id), now, |sent|, t')
  {
  }

  lemma SentOneMore(t: Tables, sent: seq<Uuid>, now: Time, id: Uuid)
    requires SentInOrder(t, sent, now) && First(SentRows(t, sent, now), id, now)
    ensures SentInOrder(t, sent + [id], now)
    ensures var t' := SentRows(t, sent, now);
            SentRows(t, sent + [id], now) == t'.(outbox := t'.outbox[id := DeliveredRow(t'.outbox[id], now)])
  {
    var t' := SentRows(t, sent, now);
    StillDue(t, sent, now, id);
    assert SentRows(t, sent + [id], now).outbox == t'.outbox[id := DeliveredRow(t'.outbox[id], now)];
    forall i, x | 0 <= i <= |sent| && Due(t, x, now) && x !in sent + [id] ensures Before(t, (sent + [id])[i], x) {
      assert forall y :: y in sent ==> y in sent + [id];
      StillDue(t, sent, now, x);
    }
  }

}
