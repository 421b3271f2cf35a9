/** The repository, processor and sweeper as the worker runs them: each transaction updates the tables
    in place, `handle` walks one claimed deletion to its end, `sweep_once` delivers what is due. */
module DeletionRepository {
  import opened Prelude
  import opened DeletionTables

  /** The object store; deleting a key in `down` raises and changes nothing. */
  class ObjectStorage {
    var stored: set<Key>
    const down: set<Key>

    constructor (stored: set<Key>, down: set<Key>)
      ensures this.stored == stored && this.down == down
    {
      this.stored, this.down := stored, down;
    }

    method Delete(key: Key) returns (ok: bool)
      modifies this
      ensures ok <==> key !in down
      ensures stored == if ok then old(stored) - {key} else old(stored)
    {
      ok := key !in down;
      if ok {
        stored := stored - {key};
      }
    }
  }

  /** The deletion queue; once `room` enqueues succeeded, the next one raises. */
  class DeletionQueue {
    var messages: seq<Uuid>
    var room: nat

    constructor (messages: seq<Uuid>, room: nat)
      ensures this.messages == messages && this.room == room
    {
      this.messages, this.room := messages, room;
    }

    method EnqueueDeletion(id: Uuid) returns (ok: bool)
      modifies this
      ensures ok <==> old(room) > 0
      ensures messages == if ok then old(messages) + [id] else old(messages)
      ensures room == if ok then old(room) - 1 else 0
    {
      ok := room > 0;
      if ok {
        messages, room := messages + [id], room - 1;
      }
    }
  }

  /** A leased outbox row as the sweeper sees it (`ClaimedDeletionOutbox`). */
  datatype Leased = Leased(deletion: Uuid, attempts: nat)

  /** How one guarded call of the repository ended: done, an ObjectCleanupError, or a RuntimeError. */
  datatype Outcome = Done | CleanupError | Raised

  class DeletionRepository {
    var agreements: map<Uuid, Agreement>
    var requests: map<Uuid, Request>
    var objects: map<Uuid, Object>
    var outbox: map<Uuid, Outbox>
    var registry: map<Key, Registry>
    var intents: map<Uuid, Intent>
    var audits: multiset<AuditEvent>

    function Rows(): Tables
      reads this
    {
      Tables(agreements, requests, objects, outbox, registry, intents, audits)
    }

    constructor (t: Tables)
      ensures Rows() == t
    {
      agreements, requests, objects, outbox := t.agreements, t.requests, t.objects, t.outbox;
      registry, intents, audits := t.registry, t.intents, t.audits;
    }

    method TakeClaim(id: Uuid, token: Uuid, now: Time) returns (claim: Option<Claim>)
      modifies this
      ensures Rows() == ClaimTx(old(Rows()), id, token, now)
      ensures claim.Some? <==>
              && id in old(requests) && old(requests)[id].nextAttempt <= now
              && var r := old(requests)[id];
                 || r.state == Accepted || r.state == Retrying
                 || (r.state == Processing && r.lease.Some? && r.lease.value <= now)
      ensures claim.Some? ==>
              && claim.value == Claim(id, old(requests)[id].attempts + 1, token)
              && requests == old(requests)[id := var r := old(requests)[id]; r.(
                   state := Processing, attempts := r.attempts + 1, claim := Some(token), lease := Some(now + 120),
                   startedAt := if r.startedAt.Some? then r.startedAt else Some(now), failure := None)]
    {
      if id !in requests || !Claimable(requests[id], now) {
        return None;
      }
      var attempts := requests[id].attempts + 1;
      requests := requests[id := ClaimedRow(requests[id], token, now)];
      claim := Some(Claim(id, attempts, token));
    }

    /** Pending items of a current claim in id order; nothing once the claim is lost. */
    method PendingObjects(c: Claim) returns (items: seq<Uuid>)
      ensures forall i, j :: 0 <= i < j < |items| ==> items[i] < items[j]
      ensures forall o :: o in items <==>
                && c.deletion in requests && requests[c.deletion].state == Processing
                && requests[c.deletion].claim == Some(c.token)
                && o in objects && objects[o].deletion == c.deletion && objects[o].state == Pending
    {
      items := [];
      if !Holds(Rows(), c.deletion, c.token) {
        return;
      }
      var left := set o | o in objects && PendingOf(Rows(), c.deletion, o);
      while left != {}
        invariant forall i, j :: 0 <= i < j < |items| ==> items[i] < items[j]
        invariant forall i, o :: 0 <= i < |items| && o in left ==> items[i] < o
        invariant forall o :: o in items || o in left <==> PendingOf(Rows(), c.deletion, o)
        decreases left
      {
        ghost var least := Least(left);
        var o :| o in left && forall x :: x in left ==> o <= x;
        items, left := items + [o], left - {o};
      }
    }

    method DeleteSourceIfUnreferenced(c: Claim, item: Uuid, storage: ObjectStorage, now: Time) returns (r: Outcome)
      modifies this, storage
      ensures var t := old(Rows());
              if !Holds(t, c.deletion, c.token) then r == Raised && Rows() == t && storage.stored == old(storage.stored)
              else if Deletes(t, c, item) && t.objects[item].key in storage.down
              then r == CleanupError && Rows() == t && storage.stored == old(storage.stored)
              else
                && r == Done && Rows() == DeleteSourceTx(t, c, item, now)
                && storage.stored == old(storage.stored) - if Deletes(t, c, item) then {t.objects[item].key} else {}
      ensures r.Raised? <==>
              !(c.deletion in old(requests) && old(requests)[c.deletion].state == Processing
                && old(requests)[c.deletion].claim == Some(c.token))
      ensures r.Done? && item in old(objects) && old(objects)[item].deletion == c.deletion
              && old(objects)[item].state == Pending ==>
                var key, accepted := old(objects)[item].key, old(requests)[c.deletion].acceptedAt;
                var shared :=
                  || (exists a :: a in old(agreements) && a != c.deletion
                       && old(agreements)[a].deletionRequestedAt.None?
                       && (key in old(agreements)[a].versions || key in old(agreements)[a].files))
                  || (key in old(registry) && old(registry)[key].state == Available
                      && old(registry)[key].updatedAt > accepted);
                && objects == old(objects)[item := old(objects)[item].(state := if shared then Preserved else Deleted)]
                && registry == (if shared then old(registry) else old(registry)[key := Registry(Gone, now)])
                && storage.stored == old(storage.stored) - (if shared then {} else {key})
      ensures r.Done? && item in old(objects) && old(objects)[item].deletion == c.deletion
              && old(objects)[item].state == Pending ==>
                requests == old(requests)[c.deletion := old(requests)[c.deletion].(lease := Some(now + 120))]
    {
      if !Holds(Rows(), c.deletion, c.token) {
        return Raised;
      }
      if !PendingOf(Rows(), c.deletion, item) {
        return Done;
      }
      var key := objects[item].key;
      var shared := Shared(Rows(), c.deletion, key);
      if !shared {
        var ok := storage.Delete(key);
        if !ok {
          return CleanupError;
        }
        registry := registry[key := Registry(Gone, now)];
      }
      Finish(c, item, if shared then Preserved else Deleted, now);
      r := Done;
    }

    /** `_finish_object`. */
    method Finish(c: Claim, item: Uuid, state: ObjectState, now: Time)
      modifies this
      ensures Rows() == FinishObject(old(Rows()), c, item, state, now)
      ensures objects ==
              if item in old(objects) && old(objects)[item].deletion == c.deletion
                 && old(objects)[item].state == Pending
              then old(objects)[item := old(objects)[item].(state := state)] else old(objects)
      ensures requests ==
              if c.deletion in old(requests) && old(requests)[c.deletion].claim == Some(c.token)
              then old(requests)[c.deletion := old(requests)[c.deletion].(lease := Some(now + 120))] else old(requests)
    {
      var id := c.deletion;
      if PendingOf(Rows(), id, item) {
        objects := objects[item := objects[item].(state := state)];
      }
      if id in requests && requests[id].claim == Some(c.token) {
        requests := requests[id := requests[id].(lease := Some(now + LEASE_SECONDS))];
      }
    }

    method MarkDeleted(c: Claim, item: Uuid, now: Time) returns (r: Outcome)
      modifies this
      ensures Rows() == MarkDeletedTx(old(Rows()), c, item, now)
      ensures r == if c.deletion in old(requests) && old(requests)[c.deletion].state == Processing
                      && old(requests)[c.deletion].claim == Some(c.token) then Done else Raised
      ensures r.Done? ==>
                requests == old(requests)[c.deletion := old(requests)[c.deletion].(lease := Some(now + 120))]
      ensures r.Done? && item in old(objects) && old(objects)[item].deletion == c.deletion
              && old(objects)[item].state == Pending ==>
                objects == old(objects)[item := old(objects)[item].(state := Deleted)]
    {
      if !Holds(Rows(), c.deletion, c.token) {
        return Raised;
      }
      Finish(c, item, Deleted, now);
      r := Done;
    }

    /** `retry` and `retry_database_cleanup`. */
    method Retry(c: Claim, failure: FailureCategory, next: Time)
      modifies this
      ensures Rows() == RetryTx(old(Rows()), c, failure, next)
      ensures || Rows() == old(Rows())
              || (c.deletion in old(requests) && old(requests)[c.deletion].state == Processing
                  && old(requests)[c.deletion].claim == Some(c.token))
      ensures c.deletion in old(requests) && old(requests)[c.deletion].state == Processing
              && old(requests)[c.deletion].claim == Some(c.token) ==>
                && requests == old(requests)[c.deletion := old(requests)[c.deletion].(
                     state := Retrying, claim := None, lease := None, nextAttempt := next, failure := Some(failure))]
                && (c.deletion in old(outbox) ==> outbox == old(outbox)[c.deletion := old(outbox)[c.deletion].(
                     nextAttempt := next, lease := None, leaseExpires := None, deliveredAt := None)])
    {
      if Holds(Rows(), c.deletion, c.token) {
        requests := requests[c.deletion := RetryingRow(requests[c.deletion], failure, next)];
        Rearm(c.deletion, next);
      }
    }

    method Rearm(id: Uuid, next: Time)
      modifies this`outbox
      ensures outbox == Armed(old(outbox), id, next)
    {
      if id in outbox {
        outbox := outbox[id := ArmedRow(outbox[id], next)];
      }
    }

    /** `fail` and `fail_database_cleanup`. */
    method Fail(c: Claim, failure: FailureCategory, now: Time)
      modifies this
      ensures Rows() == FailTx(old(Rows()), c, failure, now)
      ensures || Rows() == old(Rows())
              || (c.deletion in old(requests) && old(requests)[c.deletion].state == Processing
                  && old(requests)[c.deletion].claim == Some(c.token))
      ensures c.deletion in old(requests) && old(requests)[c.deletion].state == Processing
              && old(requests)[c.deletion].claim == Some(c.token) ==>
                && requests == old(requests)[c.deletion := old(requests)[c.deletion].(
                     state := Failed, claim := None, lease := None, failure := Some(failure), failedAt := Some(now))]
                && (c.deletion in old(outbox) ==> outbox == old(outbox)[c.deletion := old(outbox)[c.deletion].(
                     nextAttempt := now, lease := None, leaseExpires := None, deliveredAt := None)])
                && audits == old(audits)
                     + multiset{AuditEvent(c.deletion, FailedEvent, old(requests)[c.deletion].cycle)}
    {
      if Holds(Rows(), c.deletion, c.token) {
        var cycle := requests[c.deletion].cycle;
        requests := requests[c.deletion := FailedRow(requests[c.deletion], failure, now)];
        Rearm(c.deletion, now);
        audits := audits + multiset{AuditEvent(c.deletion, FailedEvent, cycle)};
      }
    }

    /** False is the exception the source raises for an unfinished inventory or intent. */
    method CompleteAndPurge(c: Claim, now: Time) returns (ok: bool)
      modifies this
      ensures Rows() == CompleteTx(old(Rows()), c, now)
      ensures || Rows() == old(Rows())
              || (ok && c.deletion in old(requests) && old(requests)[c.deletion].state == Processing
                  && old(requests)[c.deletion].claim == Some(c.token))
      ensures ok <==> c.deletion in old(agreements) &&
                      (Holds(old(Rows()), c.deletion, c.token) ==> Purgeable(old(Rows()), c.deletion))
      ensures c.deletion in old(requests) && old(requests)[c.deletion].state == Processing
              && old(requests)[c.deletion].claim == Some(c.token) ==>
                var id := c.deletion;
                && (ok <==>
                      && id in old(agreements)
                      && (forall o :: o in old(objects) && old(objects)[o].deletion == id ==>
                            old(objects)[o].state != Pending)
                      && forall i :: i in old(intents) && old(intents)[i].agreement == id ==>
                           && old(intents)[i].state == Settled
                           && exists o :: o in old(objects) && old(objects)[o].deletion == id
                                && old(objects)[o].category == old(intents)[i].category
                                && old(objects)[o].key == old(intents)[i].key)
                && (ok ==>
                      && requests == old(requests)[id := old(requests)[id].(
                           state := Completed, claim := None, lease := None, failure := None, completedAt := Some(now))]
                      && agreements == old(agreements)[id := Agreement(
                           {}, {}, {}, old(agreements)[id].deletionRequestedAt)]
                      && outbox == old(outbox) - {id}
                      && (forall o :: o in objects <==> o in old(objects) && old(objects)[o].deletion != id)
                      && (forall i :: i in intents <==> i in old(intents) && old(intents)[i].agreement != id)
                      && audits == old(audits) + multiset{AuditEvent(id, CompletedEvent, old(requests)[id].cycle)})
    {
      var id := c.deletion;
      if id !in agreements {
        return false;
      }
      if !Holds(Rows(), id, c.token) {
        return true;
      }
      if !Purgeable(Rows(), id) {
        return false;
      }
      var cycle := requests[id].cycle;
      agreements := agreements[id := PurgedAgreement(agreements[id])];
      objects := map o | o in objects && objects[o].deletion != id :: objects[o];
      outbox := outbox - {id};
      intents := map i | i in intents && intents[i].agreement != id :: intents[i];
      requests := requests[id := CompletedRow(requests[id], now)];
      audits := audits + multiset{AuditEvent(id, CompletedEvent, cycle)};
      ok := true;
    }

    method RecoverStaleDeletions(now: Time)
      modifies this
      ensures Rows() == RecoverTx(old(Rows()), now)
      ensures requests.Keys == old(requests).Keys && outbox.Keys == old(outbox).Keys
      ensures forall id :: id in old(requests) ==>
                var r := old(requests)[id];
                var expired := r.state == Processing && r.lease.Some? && r.lease.value <= now;
                && requests[id] == (if expired then r.(
                     state := Retrying, claim := None, lease := None, nextAttempt := now,
                     failure := Some(DatabaseCleanup))
                     else r)
                && (id in old(outbox) ==> outbox[id] == if expired then old(outbox)[id].(
                     nextAttempt := now, lease := None, leaseExpires := None, deliveredAt := None) else old(outbox)[id])
    {
      outbox := map id | id in outbox ::
        if id in requests && Expired(requests[id], now) then ArmedRow(outbox[id], now) else outbox[id];
      requests := map id | id in requests ::
        if Expired(requests[id], now) then RetryingRow(requests[id], DatabaseCleanup, now) else requests[id];
    }

    /** Leases the due row that comes first by (next_attempt_at, id). */
    method ClaimDueOutbox(ticket: Uuid, now: Time) returns (message: Option<Leased>)
      modifies this
      ensures message.None? <==> forall id :: !Due(old(Rows()), id, now)
      ensures message.None? ==> Rows() == old(Rows())
      ensures message.Some? ==>
        var id := message.value.deletion;
        && First(old(Rows()), id, now) && Rows() == LeaseOutboxTx(old(Rows()), id, ticket, now)
        && message.value.attempts == old(outbox)[id].attempts + 1
        && outbox == old(outbox)[id := old(outbox)[id].(
             lease := Some(ticket), leaseExpires := Some(now + 120), attempts := old(outbox)[id].attempts + 1)]
      ensures var due := set x | x in old(outbox) && x in old(requests)
                && old(outbox)[x].deliveredAt.None? && old(outbox)[x].nextAttempt <= now
                && (old(requests)[x].state == Accepted || old(requests)[x].state == Retrying)
                && (old(outbox)[x].lease.None?
                    || (old(outbox)[x].leaseExpires.Some? && old(outbox)[x].leaseExpires.value <= now));
              && (message.None? <==> due == {})
              && (message.Some? ==>
                    var id := message.value.deletion;
                    && id in due
                    && forall x :: x in due ==>
                         || old(outbox)[id].nextAttempt < old(outbox)[x].nextAttempt
                         || (old(outbox)[id].nextAttempt == old(outbox)[x].nextAttempt && id <= x))
    {
      var first := FirstDue(now);
      DueRowsAre(Rows(), now, first);
      if first.None? {
        return None;
      }
      var id := first.value;
      outbox := outbox[id := LeasedRow(outbox[id], ticket, now)];
      message := Some(Leased(id, outbox[id].attempts));
    }

    /** The query of `claim_due_outbox`. */
    method FirstDue(now: Time) returns (first: Option<Uuid>)
      ensures first.None? <==> forall id :: !Due(Rows(), id, now)
      ensures first.Some? ==> First(Rows(), first.value, now)
    {
      ghost var t := Rows();
      var due := set id | id in outbox && Due(Rows(), id, now);
      assert forall x {:trigger x in t.outbox} :: x in t.outbox && Due(t, x, now) ==> x in due;
      if due == {} {
        return None;
      }
      ghost var least := FirstOf(Rows(), due);
      var id :| id in due && forall x :: x in due ==> Before(Rows(), id, x);
      assert forall x {:trigger x in t.outbox} :: x in t.outbox && Due(t, x, now) ==> x in due && Before(t, id, x);
      first := Some(id);
    }

    method MarkOutboxDelivered(id: Uuid, ticket: Uuid, now: Time)
      modifies this
      ensures Rows() == DeliveredTx(old(Rows()), id, ticket, now)
      ensures outbox ==
              if id in old(outbox) && old(outbox)[id].lease == Some(ticket) && old(outbox)[id].deliveredAt.None?
              then old(outbox)[id := old(outbox)[id].(deliveredAt := Some(now), lease := None, leaseExpires := None)]
              else old(outbox)
    {
      if OwnsTicket(Rows(), id, ticket) {
        outbox := outbox[id := outbox[id].(deliveredAt := Some(now), lease := None, leaseExpires := None)];
      }
    }

    method ReleaseOutbox(id: Uuid, ticket: Uuid, next: Time)
      modifies this
      ensures Rows() == ReleaseTx(old(Rows()), id, ticket, next)
      ensures outbox ==
              if id in old(outbox) && old(outbox)[id].lease == Some(ticket) && old(outbox)[id].deliveredAt.None?
              then old(outbox)[id := old(outbox)[id].(nextAttempt := next, lease := None, leaseExpires := None)]
              else old(outbox)
    {
      if OwnsTicket(Rows(), id, ticket) {
        outbox := outbox[id := outbox[id].(nextAttempt := next, lease := None, leaseExpires := None)];
      }
    }
  }

  // ---- ordering

  lemma Least(s: set<nat>) returns (o: nat)
    requires s != {}
    ensures o in s && forall x :: x in s ==> o <= x
  {
    var y :| y in s;
    o := y;
    if s != {y} {
      var z := Least(s - {y});
      o := if y < z then y else z;
      forall x | x in s ensures o <= x { assert x == y || x in s - {y}; }
    }
  }

  predicate Before(t: Tables, a: Uuid, b: Uuid) {
    && a in t.outbox && b in t.outbox
    && (t.outbox[a].nextAttempt < t.outbox[b].nextAttempt
       || (t.outbox[a].nextAttempt == t.outbox[b].nextAttempt && a <= b))
  }

  ghost predicate First(t: Tables, id: Uuid, now: Time) {
    Due(t, id, now) && forall x :: Due(t, x, now) ==> Before(t, id, x)
  }

  /** The due rows, and the first of them by time and identifier. */
  lemma DueRowsAre(t: Tables, now: Time, first: Option<Uuid>)
    requires if first.None? then forall x :: !Due(t, x, now) else First(t, first.value, now)
    ensures var due := set x | x in t.outbox && x in t.requests
              && t.outbox[x].deliveredAt.None? && t.outbox[x].nextAttempt <= now
              && (t.requests[x].state == Accepted || t.requests[x].state == Retrying)
              && (t.outbox[x].lease.None?
                  || (t.outbox[x].leaseExpires.Some? && t.outbox[x].leaseExpires.value <= now));
            && (first.None? <==> due == {})
            && (first.Some? ==>
                  var id := first.value;
                  && id in due
                  && forall x :: x in due ==>
                       || t.outbox[id].nextAttempt < t.outbox[x].nextAttempt
                       || (t.outbox[id].nextAttempt == t.outbox[x].nextAttempt && id <= x))
  {
    var due := set x | x in t.outbox && x in t.requests
      && t.outbox[x].deliveredAt.None? && t.outbox[x].nextAttempt <= now
      && (t.requests[x].state == Accepted || t.requests[x].state == Retrying)
      && (t.outbox[x].lease.None? || (t.outbox[x].leaseExpires.Some? && t.outbox[x].leaseExpires.value <= now));
    forall x ensures x in due <==> Due(t, x, now) {
    }
    if first.Some? {
      assert first.value in due;
    }
  }

  lemma FirstOf(t: Tables, s: set<Uuid>) returns (o: Uuid)
    requires s != {} && s <= t.outbox.Keys
    ensures o in s && forall x :: x in s ==> Before(t, o, x)
  {
    var y :| y in s;
    o := y;
    if s != {y} {
      var z := FirstOf(t, s - {y});
      o := if Before(t, y, z) then y else z;
      forall x | x in s ensures Before(t, o, x) { assert x == y || x in s - {y}; }
    }
  }

}
