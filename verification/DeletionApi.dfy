/** The transactions of the API and of the processing worker on the same tables, field by field. */
module DeletionApi {
  import opened Prelude
  import opened DeletionKeys
  import opened DeletionTables
  import opened DeletionRepository

  class AgreementRepository {
    const tables: DeletionRepository

    constructor (tables: DeletionRepository)
      ensures this.tables == tables
    {
      this.tables := tables;
    }

    /** `accept_deletion`; false is the RuntimeError for a missing or already deleted agreement. */
    method AcceptDeletion(id: Uuid, inventory: map<Uuid, Object>, now: Time) returns (ok: bool)
      requires forall o :: o in inventory ==> o !in tables.objects
      modifies tables
      ensures ok <==> id in old(tables.agreements) && old(tables.agreements)[id].deletionRequestedAt.None?
      ensures tables.Rows() == if ok then AcceptTx(old(tables.Rows()), id, inventory, now) else old(tables.Rows())
      ensures ok ==>
                && tables.requests == old(tables.requests)[id := Request(
                     Accepted, 0, 1, None, None, now, now, None, None, None, None)]
                && tables.outbox == old(tables.outbox)[id := Outbox(0, now, None, None, None)]
                && tables.agreements == old(tables.agreements)[id :=
                     old(tables.agreements)[id].(deletionRequestedAt := Some(now))]
                && tables.objects == old(tables.objects) + inventory
                && tables.audits == old(tables.audits) + multiset{AuditEvent(id, RequestedEvent, 1)}
    {
      if id !in tables.agreements || tables.agreements[id].deletionRequestedAt.Some? {
        return false;
      }
      tables.requests := tables.requests[id := AcceptedRow(now)];
      tables.objects := tables.objects + inventory;
      tables.audits := tables.audits + multiset{AuditEvent(id, RequestedEvent, 1)};
      tables.outbox := tables.outbox[id := Outbox(0, now, None, None, None)];
      tables.agreements := tables.agreements[id := tables.agreements[id].(deletionRequestedAt := Some(now))];
      ok := true;
    }

    /** `redrive_deletion`: a failed request, and no other, starts a new retry cycle. */
    method RedriveDeletion(id: Uuid, now: Time)
      requires id in tables.requests
      modifies tables
      ensures tables.Rows() == RedriveTx(old(tables.Rows()), id, now)
      ensures old(tables.requests)[id].state != Failed ==> tables.Rows() == old(tables.Rows())
      ensures old(tables.requests)[id].state == Failed ==>
                var r := old(tables.requests)[id];
                && tables.requests == old(tables.requests)[id := r.(
                     state := Accepted, cycle := r.cycle + 1, attempts := 0, claim := None, lease := None,
                     nextAttempt := now, failure := None, failedAt := None)]
                && tables.audits == old(tables.audits) + multiset{AuditEvent(id, RedrivenEvent, r.cycle + 1)}
                && (id in old(tables.outbox) ==> tables.outbox == old(tables.outbox)[id := old(tables.outbox)[id].(
                      nextAttempt := now, lease := None, leaseExpires := None, deliveredAt := None)])
    {
      if tables.requests[id].state != Failed {
        return;
      }
      var cycle := tables.requests[id].cycle + 1;
      tables.requests := tables.requests[id := RedrivenRow(tables.requests[id], now)];
      if id in tables.outbox {
        tables.outbox := tables.outbox[id := ArmedRow(tables.outbox[id], now)];
      }
      tables.audits := tables.audits + multiset{AuditEvent(id, RedrivenEvent, cycle)};
    }

    /** `_inventory_late_artifact`; false is the RuntimeError for a tombstone without a request. The row of
        the same category and key is reused; `unused` is the identifier of a new one. */
    method InventoryLateArtifact(id: Uuid, category: Category, key: Key, unused: Uuid, now: Time)
      returns (ok: bool, item: Uuid)
      requires unused !in tables.objects
      modifies tables
      ensures ok <==> id in old(tables.requests)
      ensures tables.Rows() == if ok
              then LateArtifactTx(old(tables.Rows()), id, item, Object(id, category, key, Pending), now)
              else old(tables.Rows())
      ensures || item == unused
              || (item in old(tables.objects) && old(tables.objects)[item].deletion == id
                  && old(tables.objects)[item].category == category && old(tables.objects)[item].key == key)
      ensures item == unused ==>
                !exists o :: o in old(tables.objects) && old(tables.objects)[o].deletion == id
                  && old(tables.objects)[o].category == category && old(tables.objects)[o].key == key
      ensures ok ==>
                var r := old(tables.requests)[id];
                var ended := r.state == Completed || r.state == Failed;
                && tables.objects == old(tables.objects)[item := Object(id, category, key, Pending)]
                && tables.requests == old(tables.requests)[id := r.(
                     state := Retrying, attempts := if ended then 0 else r.attempts,
                     cycle := if ended then r.cycle + 1 else r.cycle, claim := None, lease := None,
                     nextAttempt := now, failure := Some(ArtifactRace), completedAt := None, failedAt := None)]
                && tables.outbox == old(tables.outbox)[id := Outbox(0, now, None, None, None)]
    {
      item := unused;
      if o :| o in tables.objects && tables.objects[o].deletion == id && tables.objects[o].category == category
              && tables.objects[o].key == key
      {
        item := o;
      }
      if id !in tables.requests {
        return false, item;
      }
      tables.objects := tables.objects[item := Object(id, category, key, Pending)];
      tables.requests := tables.requests[id := ReopenedRow(tables.requests[id], now)];
      tables.outbox := tables.outbox[id := Outbox(0, now, None, None, None)];
      ok := true;
    }
  }

}
