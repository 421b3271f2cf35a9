/** When a deletion can still complete, exactly: unless it has to deal with a key that is not owned. */
module DeletionCompletion {
  import opened Prelude
  import opened DeletionKeys
  import opened DeletionTables
  import opened DeletionProtocol
  import opened DeletionRows
  import opened DeletionInventory
  import opened DeletionOwnership
  import opened DeletionRuns
  import opened DeletionRescue

  predicate ItemOf(w: World, id: Uuid, o: Uuid) {
    o in w.p.archive && w.p.archive[o].deletion == id
  }

  function Artifact(i: Intent): Object {
    Object(i.agreement, i.category, i.key, Pending)
  }

  /** An intent nothing but the inventory of its artifact can settle. */
  predicate MustInventory(w: World, id: Uuid, i: Uuid) {
    i in w.t.intents && w.t.intents[i].agreement == id && !EmbeddingKey(w.t.intents[i].key)
  }

  /** The inventory holds a key that is not owned, or an artifact intent will bring one. */
  ghost predicate Blocked(tenant: Tenant, w: World, id: Uuid) {
    || (exists o :: ItemOf(w, id, o) && !KeyChecked(tenant, w.p.archive[o]))
    || (exists i :: MustInventory(w, id, i) && !KeyChecked(tenant, Artifact(w.t.intents[i])))
  }

  // ---- a blocked deletion stays so

  lemma ItemsStay(tenant: Tenant, w: World, s: Step)
    requires Inventory(w) && Enabled(tenant, w, s)
    ensures forall o :: o in w.p.archive ==>
              o in Apply(tenant, w, s).p.archive && SameItem(Apply(tenant, w, s).p.archive[o], w.p.archive[o])
  {
    match s
    case Env(e) => TouchesByEnv(tenant, w, e);
    case Worker(x) => TouchesByWorker(tenant, w, x);
    case Sweeper(x) => TouchesOutside(w, SweeperApply(w, x));
  }

  lemma SweepersAddNothing(w: World, s: SweeperStep)
    requires SweeperEnabled(w, s)
    ensures SweeperApply(w, s).t.intents == w.t.intents && SweeperApply(w, s).p == w.p
  {
  }

  /** An intent of a deletion leaves by the inventory of its artifact, as an embedding marker, or with the purge. */
  lemma IntentLeaves(tenant: Tenant, w: World, s: Step, id: Uuid, i: Uuid)
    requires Rows(w) && Enabled(tenant, w, s) && id in w.t.requests && MustInventory(w, id, i)
    ensures var v := Apply(tenant, w, s);
            || (i in v.t.intents && v.t.intents[i] == w.t.intents[i])
            || (s.Env? && s.env.Late? && s.env.late == Artifact(w.t.intents[i]))
            || CompletesBy(w, s, id)
  {
    assert RowsOf(w, id);
    match s
    case Env(e) => IntentLeavesEnv(tenant, w, e, id, i);
    case Worker(x) => IntentLeavesWorker(tenant, w, x, id, i);
    case Sweeper(x) => SweepersAddNothing(w, x);
  }

  lemma IntentLeavesEnv(tenant: Tenant, w: World, s: EnvStep, id: Uuid, i: Uuid)
    requires EnvEnabled(tenant, w, s) && !Live(w.t, id) && MustInventory(w, id, i)
    ensures var v := EnvApply(tenant, w, s);
            || (i in v.t.intents && v.t.intents[i] == w.t.intents[i])
            || (s.Late? && s.late == Artifact(w.t.intents[i]))
  {
  }

  lemma IntentLeavesWorker(tenant: Tenant, w: World, s: WorkerStep, id: Uuid, i: Uuid)
    requires Rows(w) && WorkerEnabled(tenant, w, s) && MustInventory(w, id, i)
    ensures var v := WorkerApply(tenant, w, s);
            || (i in v.t.intents && v.t.intents[i] == w.t.intents[i])
            || CompletesBy(w, Worker(s), id)
  {
    if s.Complete? { assert IssuedAs(w, s.token); }
    WorkerTablesAre(tenant, w, s);
  }

  lemma BlockedStays(tenant: Tenant, w: World, s: Step, id: Uuid)
    requires Invariant(tenant, w) && Enabled(tenant, w, s) && id in w.t.requests && Blocked(tenant, w, id)
    ensures Blocked(tenant, Apply(tenant, w, s), id)
  {
    var v := Apply(tenant, w, s);
    ItemsStay(tenant, w, s);
    if o :| ItemOf(w, id, o) && !KeyChecked(tenant, w.p.archive[o]) {
      assert ItemOf(v, id, o) && !KeyChecked(tenant, v.p.archive[o]);
    } else {
      var i :| MustInventory(w, id, i) && !KeyChecked(tenant, Artifact(w.t.intents[i]));
      IntentLeaves(tenant, w, s, id, i);
      if CompletesBy(w, s, id) {
        ReconciledIsOwned(tenant, w, id, i);
      } else if i in v.t.intents && v.t.intents[i] == w.t.intents[i] {
        assert MustInventory(v, id, i);
      } else {
        assert ItemOf(v, id, s.env.item) && v.p.archive[s.env.item] == s.env.late;
      }
    }
  }

  lemma ReconciledIsOwned(tenant: Tenant, w: World, id: Uuid, i: Uuid)
    requires Inventory(w) && Ownership(tenant, w) && Purgeable(w.t, id)
    requires i in w.t.intents && w.t.intents[i].agreement == id
    ensures KeyChecked(tenant, Artifact(w.t.intents[i]))
  {
    var o :| o in w.t.objects && Finishes(w.t.objects[o], id, w.t.intents[i]);
    assert ItemKept(w, o) && OwnedItem(tenant, w, o);
  }

  lemma {:induction false} BlockedOverRun(tenant: Tenant, w: World, run: seq<Step>, id: Uuid)
    requires Invariant(tenant, w) && Legal(tenant, w, run) && id in w.t.requests && Blocked(tenant, w, id)
    ensures id in After(tenant, w, run).t.requests && Blocked(tenant, After(tenant, w, run), id)
    ensures Invariant(tenant, After(tenant, w, run))
    decreases |run|
  {
    if run != [] {
      var v := Apply(tenant, w, run[0]);
      BlockedStays(tenant, w, run[0], id);
      InvariantKept(tenant, w, run[0]);
      RequestsStay(tenant, w, run[0], id);
      BlockedOverRun(tenant, v, run[1..], id);
    }
  }

  lemma RequestsStay(tenant: Tenant, w: World, s: Step, id: Uuid)
    requires Enabled(tenant, w, s) && id in w.t.requests
    ensures id in Apply(tenant, w, s).t.requests
  {
    match s
    case Env(e) => EnvRequestsAre(tenant, w, e);
    case Worker(x) => RequestsStayWorked(tenant, w, x, id);
    case Sweeper(x) => RequestsStaySwept(w, x, id);
  }

  lemma RequestsStayWorked(tenant: Tenant, w: World, s: WorkerStep, id: Uuid)
    requires WorkerEnabled(tenant, w, s) && id in w.t.requests
    ensures id in WorkerApply(tenant, w, s).t.requests
  {
    WorkerTablesAre(tenant, w, s);
  }

  lemma RequestsStaySwept(w: World, s: SweeperStep, id: Uuid)
    requires SweeperEnabled(w, s) && id in w.t.requests
    ensures id in SweeperApply(w, s).t.requests
  {
  }

  lemma CompletedIsClean(tenant: Tenant, w: World, id: Uuid)
    requires Reached(tenant, w) && id in w.t.requests && w.t.requests[id].state == Completed
    ensures !Blocked(tenant, w, id)
  {
    PurgedForEver(tenant, w, [], id);
    forall o | ItemOf(w, id, o) ensures KeyChecked(tenant, w.p.archive[o]) {
      CompletionIsSound(tenant, w, id, o);
    }
  }

  // ---- runs, composed

  /** Some run leads from one world to the other. */
  ghost predicate To(tenant: Tenant, w: World, v: World) {
    exists run :: Legal(tenant, w, run) && After(tenant, w, run) == v
  }

  lemma ToSelf(tenant: Tenant, w: World)
    ensures To(tenant, w, w)
  {
    assert Legal(tenant, w, []) && After(tenant, w, []) == w;
  }

  lemma ToNext(tenant: Tenant, w: World, v: World, s: Step)
    requires To(tenant, w, v) && Enabled(tenant, v, s)
    ensures To(tenant, w, Apply(tenant, v, s))
  {
    var run :| Legal(tenant, w, run) && After(tenant, w, run) == v;
    Append(tenant, w, run, s);
  }

  lemma ToByRun(tenant: Tenant, w: World, v: World, run: seq<Step>)
    requires To(tenant, w, v) && Legal(tenant, v, run)
    ensures To(tenant, w, After(tenant, v, run))
    decreases |run|
  {
    if run != [] {
      ToNext(tenant, w, v, run[0]);
      ToByRun(tenant, w, Apply(tenant, v, run[0]), run[1..]);
    }
  }

  lemma ToTrans(tenant: Tenant, w: World, v: World, u: World)
    requires To(tenant, w, v) && To(tenant, v, u)
    ensures To(tenant, w, u)
  {
    var run :| Legal(tenant, v, run) && After(tenant, v, run) == u;
    ToByRun(tenant, w, v, run);
  }

  lemma OneStep(tenant: Tenant, w: World, s: Step)
    requires Enabled(tenant, w, s)
    ensures To(tenant, w, Apply(tenant, w, s))
  {
    ToSelf(tenant, w);
    ToNext(tenant, w, w, s);
  }

  lemma ReachedAfter(tenant: Tenant, w: World, run: seq<Step>)
    requires Reached(tenant, w) && Legal(tenant, w, run)
    ensures Reached(tenant, After(tenant, w, run))
    decreases |run|
  {
    if run != [] {
      ReachedNext(tenant, w, run[0]);
      ReachedAfter(tenant, Apply(tenant, w, run[0]), run[1..]);
    }
  }

  // ---- and one that is not blocked can complete

  ghost function IntentsOf(w: World, id: Uuid): set<Uuid> {
    set i | i in w.t.intents && w.t.intents[i].agreement == id
  }

  ghost function PendingOnes(w: World, id: Uuid): set<Uuid> {
    set o | o in w.t.objects && PendingOf(w.t, id, o)
  }

  /** Every item is owned and no intent is left. */
  ghost predicate Clear(tenant: Tenant, w: World, id: Uuid) {
    && id in w.t.requests && IntentsOf(w, id) == {}
    && (forall o :: ItemOf(w, id, o) ==> KeyChecked(tenant, w.p.archive[o]))
  }

  /** The worker of this claim finishes the deletion. */
  ghost predicate AtWork(tenant: Tenant, w: World, id: Uuid, token: Uuid) {
    && Reached(tenant, w) && Clear(tenant, w, id) && Holds(w.t, id, token)
    && token in w.h.claims && w.h.claims[token].deletion == id && w.h.claims[token].token == token
  }

  /** The step that closes the row of an item. */
  ghost predicate Closes(w: World, token: Uuid, o: Uuid, s: WorkerStep) {
    if s.CloseSource? then s.token == token && s.now == w.now && Open(w, token) && w.looks[token].item == o
    else s == MarkDeleted(token, o, w.now) && Read(w, token, o, false) && (token, o) in w.p.wiped
  }

  /** The object is looked at or gone; its row is next. */
  lemma CloseRow(tenant: Tenant, w: World, id: Uuid, token: Uuid, o: Uuid, s: WorkerStep) returns (v: World)
    requires AtWork(tenant, w, id, token) && PendingOf(w.t, id, o) && Closes(w, token, o, s)
    ensures To(tenant, w, v) && AtWork(tenant, v, id, token) && PendingOnes(v, id) == PendingOnes(w, id) - {o}
  {
    v := WorkerApply(tenant, w, s);
    OneStep(tenant, w, Worker(s));
    ReachedNext(tenant, w, Worker(s));
    ReachedInvariant(tenant, w);
    Recorded(w);
    RowClosed(tenant, w, id, token, o, s);
    StaysClear(tenant, w, Worker(s), id);
  }

  lemma RowClosed(tenant: Tenant, w: World, id: Uuid, token: Uuid, o: Uuid, s: WorkerStep)
    requires Holds(w.t, id, token) && PendingOf(w.t, id, o) && Closes(w, token, o, s)
    requires token in w.h.claims && w.h.claims[token] == Claim(id, w.h.claims[token].attempts, token)
    ensures var v := WorkerApply(tenant, w, s);
            && v.h == w.h && Holds(v.t, id, token) && v.t.intents == w.t.intents
            && v.p.archive == w.p.archive + v.t.objects && v.t.objects.Keys == w.t.objects.Keys
            && PendingOnes(v, id) == PendingOnes(w, id) - {o}
  {
    var v := WorkerApply(tenant, w, s);
    var c := w.h.claims[token];
    if s.CloseSource? {
      var state := if w.looks[token].shared then Preserved else Deleted;
      assert v.t.objects == w.t.objects[o := w.t.objects[o].(state := state)];
      PendingWithout(w, v, id, o, state);
    } else {
      assert v.t == FinishObject(w.t, c, o, Deleted, w.now);
      PendingWithout(w, v, id, o, Deleted);
    }
  }

  lemma PendingWithout(w: World, v: World, id: Uuid, o: Uuid, state: ObjectState)
    requires PendingOf(w.t, id, o) && state != Pending
    requires v.t.objects == w.t.objects[o := w.t.objects[o].(state := state)]
    ensures PendingOnes(v, id) == PendingOnes(w, id) - {o} && v.t.objects.Keys == w.t.objects.Keys
  {
  }

  /** A step that adds no item and no intent leaves a clear deletion clear. */
  lemma StaysClear(tenant: Tenant, w: World, s: Step, id: Uuid)
    requires Inventory(w) && Clear(tenant, w, id) && Enabled(tenant, w, s)
    requires var v := Apply(tenant, w, s);
             IntentsOf(v, id) == {} && forall o :: ItemOf(v, id, o) ==> o in w.p.archive
    ensures Clear(tenant, Apply(tenant, w, s), id)
  {
    ItemsStay(tenant, w, s);
    RequestsStay(tenant, w, s, id);
    var v := Apply(tenant, w, s);
    forall o | ItemOf(v, id, o) ensures KeyChecked(tenant, v.p.archive[o]) { assert ItemOf(w, id, o); }
  }

  /** One pending item is cleaned up and closed. */
  lemma CloseItem(tenant: Tenant, w: World, id: Uuid, token: Uuid, o: Uuid) returns (v: World)
    requires AtWork(tenant, w, id, token) && PendingOf(w.t, id, o)
    ensures To(tenant, w, v) && AtWork(tenant, v, id, token) && PendingOnes(v, id) == PendingOnes(w, id) - {o}
  {
    ReachedInvariant(tenant, w);
    assert ItemKept(w, o) && ItemOf(w, id, o);
    var s := if w.t.objects[o].category == Source then CheckSource(token, o) else Wipe(token, o);
    var w1 := WorkerApply(tenant, w, s);
    OneStep(tenant, w, Worker(s));
    ReachedNext(tenant, w, Worker(s));
    var next := if s.CheckSource? then CloseSource(token, w.now) else MarkDeleted(token, o, w.now);
    ItemReady(tenant, w, id, token, o, s, next);
    v := CloseRow(tenant, w1, id, token, o, next);
    ToTrans(tenant, w, w1, v);
  }

  lemma ItemReady(tenant: Tenant, w: World, id: Uuid, token: Uuid, o: Uuid, s: WorkerStep, next: WorkerStep)
    requires AtWork(tenant, w, id, token) && PendingOf(w.t, id, o) && WorkerEnabled(tenant, w, s)
    requires ItemOf(w, id, o) && w.p.archive[o].category == w.t.objects[o].category
    requires (w.t.objects[o].category == Source && s == CheckSource(token, o) && next == CloseSource(token, w.now))
             || (w.t.objects[o].category != Source && s == Wipe(token, o) && next == MarkDeleted(token, o, w.now))
    ensures var v := WorkerApply(tenant, w, s);
            && Closes(v, token, o, next) && v.t == w.t && v.h == w.h && v.p.archive == w.p.archive
  {
  }

  lemma NoneIsPending(w: World, id: Uuid)
    requires PendingOnes(w, id) == {}
    ensures !HasPending(w.t, id)
  {
    forall o | o in w.t.objects && w.t.objects[o].deletion == id ensures w.t.objects[o].state != Pending {
      assert o !in PendingOnes(w, id);
    }
  }

  lemma FinishClaim(tenant: Tenant, w: World, id: Uuid, token: Uuid) returns (v: World)
    requires AtWork(tenant, w, id, token)
    ensures To(tenant, w, v) && StateOf(v, id) == Some(Completed)
    decreases |PendingOnes(w, id)|
  {
    if o :| o in PendingOnes(w, id) {
      var w1 := CloseItem(tenant, w, id, token, o);
      v := FinishClaim(tenant, w1, id, token);
      ToTrans(tenant, w, w1, v);
    } else {
      v := CompleteClaim(tenant, w, id, token);
    }
  }

  lemma CompleteClaim(tenant: Tenant, w: World, id: Uuid, token: Uuid) returns (v: World)
    requires AtWork(tenant, w, id, token) && PendingOnes(w, id) == {}
    ensures To(tenant, w, v) && StateOf(v, id) == Some(Completed)
  {
    ReachedInvariant(tenant, w);
    assert RowsOf(w, id);
    NoneIsPending(w, id);
    assert forall i :: i in w.t.intents && w.t.intents[i].agreement == id ==> i in IntentsOf(w, id);
    OneStep(tenant, w, Worker(Complete(token, w.now)));
    v := w.(t := CompleteTx(w.t, w.h.claims[token], w.now));
  }

  // ---- from anywhere

  /** The processing worker settles one intent: it inventories the artifact, or drops an embedding marker. */
  lemma SettleOne(tenant: Tenant, w: World, id: Uuid, i: Uuid) returns (v: World)
    requires Reached(tenant, w) && id in w.t.requests && !Blocked(tenant, w, id) && i in IntentsOf(w, id)
    requires StateOf(w, id) != Some(Completed)
    ensures To(tenant, w, v) && Reached(tenant, v) && id in v.t.requests && !Blocked(tenant, v, id)
    ensures IntentsOf(v, id) == IntentsOf(w, id) - {i} && StateOf(v, id) != Some(Completed)
  {
    var s;
    if EmbeddingKey(w.t.intents[i].key) {
      s := Env(Drop(i));
    } else {
      ReachedIntentsChecked(tenant, w);
      s := Inventorying(tenant, w, id, Artifact(w.t.intents[i]), {i});
    }
    v := Apply(tenant, w, s);
    OneStep(tenant, w, s);
    ReachedNext(tenant, w, s);
    SettledState(tenant, w, s, id, i);
  }

  /** A late artifact takes the row of its key in the inventory if there is one. */
  lemma Inventorying(tenant: Tenant, w: World, id: Uuid, late: Object, dropped: set<Uuid>) returns (s: Step)
    requires id in w.t.requests && late.deletion == id && IsArtifact(late.category) && late.state == Pending
    requires forall i :: i in dropped && i in w.t.intents ==> Plans(w.t.intents[i], late)
    ensures LateOf(s, id) && s.env.late == late && s.env.dropped == dropped && Enabled(tenant, w, s)
  {
    var item;
    if o :| o in w.t.objects && w.t.objects[o].(state := Pending) == late {
      item := o;
    } else {
      item := Fresh(w.p.archive.Keys + w.t.objects.Keys);
    }
    s := Env(Late(id, item, late, dropped, w.now));
  }

  lemma SettledState(tenant: Tenant, w: World, s: Step, id: Uuid, i: Uuid)
    requires id in w.t.requests && !Blocked(tenant, w, id) && i in IntentsOf(w, id) && Enabled(tenant, w, s)
    requires StateOf(w, id) != Some(Completed)
    requires s == Env(Drop(i)) || (LateOf(s, id) && s.env.late == Artifact(w.t.intents[i]) && s.env.dropped == {i}
                                   && MustInventory(w, id, i))
    ensures var v := Apply(tenant, w, s);
            && id in v.t.requests && !Blocked(tenant, v, id) && StateOf(v, id) != Some(Completed)
            && IntentsOf(v, id) == IntentsOf(w, id) - {i}
  {
    SettledTables(tenant, w, s, id, i);
    StaysUnblocked(tenant, w, Apply(tenant, w, s), id, i);
  }

  lemma SettledTables(tenant: Tenant, w: World, s: Step, id: Uuid, i: Uuid)
    requires id in w.t.requests && i in IntentsOf(w, id) && Enabled(tenant, w, s)
    requires StateOf(w, id) != Some(Completed)
    requires s == Env(Drop(i)) || (LateOf(s, id) && s.env.late == Artifact(w.t.intents[i]) && s.env.dropped == {i}
                                   && MustInventory(w, id, i))
    ensures var v := Apply(tenant, w, s);
            && id in v.t.requests && StateOf(v, id) != Some(Completed) && v.t.intents == w.t.intents - {i}
            && (v.p.archive == w.p.archive
                || (MustInventory(w, id, i) && v.p.archive == w.p.archive[s.env.item := Artifact(w.t.intents[i])]))
  {
  }

  lemma StaysUnblocked(tenant: Tenant, w: World, v: World, id: Uuid, i: Uuid)
    requires !Blocked(tenant, w, id) && i in IntentsOf(w, id) && v.t.intents == w.t.intents - {i}
    requires forall o :: o in v.p.archive ==>
               || (o in w.p.archive && v.p.archive[o] == w.p.archive[o])
               || (MustInventory(w, id, i) && v.p.archive[o] == Artifact(w.t.intents[i]))
    ensures !Blocked(tenant, v, id) && IntentsOf(v, id) == IntentsOf(w, id) - {i}
  {
    forall o | ItemOf(v, id, o) ensures KeyChecked(tenant, v.p.archive[o]) {
      assert ItemOf(w, id, o) || KeyChecked(tenant, Artifact(w.t.intents[i]));
    }
    forall j | MustInventory(v, id, j) ensures KeyChecked(tenant, Artifact(v.t.intents[j])) {
      assert MustInventory(w, id, j);
    }
  }

  lemma Settle(tenant: Tenant, w: World, id: Uuid) returns (v: World)
    requires Reached(tenant, w) && id in w.t.requests && !Blocked(tenant, w, id)
    requires StateOf(w, id) != Some(Completed)
    ensures To(tenant, w, v) && Reached(tenant, v) && Clear(tenant, v, id) && StateOf(v, id) != Some(Completed)
    decreases |IntentsOf(w, id)|
  {
    if i :| i in IntentsOf(w, id) {
      var w1 := SettleOne(tenant, w, id, i);
      v := Settle(tenant, w1, id);
      ToTrans(tenant, w, w1, v);
    } else {
      v := w;
      ToSelf(tenant, w);
    }
  }

  function SomeChecksum(): (r: string)
    ensures IsSha256(r)
  {
    seq(64, _ => 'a')
  }

  /** A failed request is redriven; a stranded one needs another late artifact. */
  lemma Revive(tenant: Tenant, w: World, id: Uuid) returns (v: World)
    requires Reached(tenant, w) && Clear(tenant, w, id) && StateOf(w, id) != Some(Completed) && Slashless(tenant, id)
    ensures To(tenant, w, v) && Reached(tenant, v) && Clear(tenant, v, id)
    ensures !Terminal(v.t.requests[id]) && !Stranded(v, id)
  {
    ReachedInvariant(tenant, w);
    assert RowsOf(w, id);
    var s;
    if w.t.requests[id].state == Failed {
      s := Env(Redrive(id, w.now));
    } else if Stranded(w, id) {
      AnalysisKeyIsOwned(tenant, id, SomeChecksum());
      s := Inventorying(tenant, w, id, Object(id, Analysis, AnalysisKey(tenant, id, SomeChecksum()), Pending), {});
    } else {
      ToSelf(tenant, w);
      return w;
    }
    v := Apply(tenant, w, s);
    OneStep(tenant, w, s);
    ReachedNext(tenant, w, s);
    RevivedState(tenant, w, s, id);
  }

  lemma RevivedState(tenant: Tenant, w: World, s: Step, id: Uuid)
    requires Rows(w) && Clear(tenant, w, id) && Enabled(tenant, w, s)
    requires (s == Env(Redrive(id, w.now)) && w.t.requests[id].state == Failed)
             || (LateOf(s, id) && s.env.dropped == {} && KeyChecked(tenant, s.env.late))
    ensures var v := Apply(tenant, w, s);
            Clear(tenant, v, id) && !Terminal(v.t.requests[id]) && !Stranded(v, id)
  {
    assert RowsOf(w, id);
    if LateOf(s, id) {
      RevivedByLate(tenant, w, s.env, id);
    } else {
      RevivedByRedrive(tenant, w, id);
    }
  }

  lemma RevivedByRedrive(tenant: Tenant, w: World, id: Uuid)
    requires Clear(tenant, w, id) && w.t.requests[id].state == Failed && id in w.t.outbox
    ensures var v := Redriven(w, id, w.now);
            Clear(tenant, v, id) && !Terminal(v.t.requests[id]) && !Stranded(v, id)
  {
    var v := Redriven(w, id, w.now);
    assert v.p == w.p && IntentsOf(v, id) == IntentsOf(w, id);
    forall o | ItemOf(v, id, o) ensures KeyChecked(tenant, v.p.archive[o]) { assert ItemOf(w, id, o); }
  }

  lemma RevivedByLate(tenant: Tenant, w: World, s: EnvStep, id: Uuid)
    requires Clear(tenant, w, id) && EnvEnabled(tenant, w, s) && LateOf(Env(s), id) && s.dropped == {}
    requires KeyChecked(tenant, s.late)
    ensures var v := EnvApply(tenant, w, s);
            Clear(tenant, v, id) && !Terminal(v.t.requests[id]) && !Stranded(v, id)
  {
    var v := EnvApply(tenant, w, s);
    assert IntentsOf(v, id) == IntentsOf(w, id);
    forall o | ItemOf(v, id, o) ensures KeyChecked(tenant, v.p.archive[o]) {
      assert ItemOf(w, id, o) || v.p.archive[o] == s.late;
    }
  }

  /** Nothing but a late artifact of its own gives a deletion another item or intent. */
  lemma NothingNew(tenant: Tenant, w: World, s: Step, id: Uuid)
    requires Invariant(tenant, w) && Clear(tenant, w, id) && Enabled(tenant, w, s) && !LateOf(s, id)
    ensures var v := Apply(tenant, w, s);
            IntentsOf(v, id) == {} && forall o :: ItemOf(v, id, o) ==> o in w.p.archive
  {
    assert RowsOf(w, id) && forall i :: i in w.t.intents ==> i !in IntentsOf(w, id);
    match s
    case Env(e) => NothingNewInEnv(tenant, w, e, id);
    case Worker(x) => NothingNewByWorker(tenant, w, x, id);
    case Sweeper(x) => SweepersAddNothing(w, x);
  }

  lemma NothingNewInEnv(tenant: Tenant, w: World, s: EnvStep, id: Uuid)
    requires EnvEnabled(tenant, w, s) && !LateOf(Env(s), id) && !Live(w.t, id)
    requires forall i :: i in w.t.intents ==> w.t.intents[i].agreement != id
    ensures var v := EnvApply(tenant, w, s);
            IntentsOf(v, id) == {} && forall o :: ItemOf(v, id, o) ==> o in w.p.archive
  {
  }

  lemma NothingNewByWorker(tenant: Tenant, w: World, s: WorkerStep, id: Uuid)
    requires Inventory(w) && WorkerEnabled(tenant, w, s)
    requires forall i :: i in w.t.intents ==> w.t.intents[i].agreement != id
    ensures var v := WorkerApply(tenant, w, s);
            IntentsOf(v, id) == {} && forall o :: ItemOf(v, id, o) ==> o in w.p.archive
  {
    Recorded(w);
    WorkerTablesAre(tenant, w, s);
  }

  lemma {:induction false} ClearOverRun(tenant: Tenant, w: World, run: seq<Step>, id: Uuid)
    requires Invariant(tenant, w) && Clear(tenant, w, id) && Legal(tenant, w, run)
    requires forall s :: s in run ==> !LateOf(s, id)
    ensures Clear(tenant, After(tenant, w, run), id)
    decreases |run|
  {
    if run != [] {
      NothingNew(tenant, w, run[0], id);
      StaysClear(tenant, w, run[0], id);
      InvariantKept(tenant, w, run[0]);
      ClearOverRun(tenant, Apply(tenant, w, run[0]), run[1..], id);
    }
  }

  /** A worker takes the request up and finishes it. */
  lemma TakeUp(tenant: Tenant, w: World, id: Uuid) returns (v: World)
    requires Reached(tenant, w) && Clear(tenant, w, id) && !Terminal(w.t.requests[id]) && !Stranded(w, id)
    ensures To(tenant, w, v) && StateOf(v, id) == Some(Completed)
  {
    var rest, token := Reclaim(tenant, w, id);
    var u := After(tenant, w, rest);
    ReachedInvariant(tenant, w);
    ClearOverRun(tenant, w, rest, id);
    ReachedAfter(tenant, w, rest);
    ReachedInvariant(tenant, u);
    assert RowsOf(u, id);
    v := FinishClaim(tenant, u, id, token);
    ToTrans(tenant, w, u, v);
  }

  lemma CompleteIt(tenant: Tenant, w: World, id: Uuid) returns (v: World)
    requires Reached(tenant, w) && id in w.t.requests && !Blocked(tenant, w, id) && Slashless(tenant, id)
    ensures To(tenant, w, v) && StateOf(v, id) == Some(Completed)
  {
    if w.t.requests[id].state == Completed {
      ToSelf(tenant, w);
      return w;
    }
    var w1 := Settle(tenant, w, id);
    var w2 := Revive(tenant, w1, id);
    v := TakeUp(tenant, w2, id);
    ToTrans(tenant, w1, w2, v);
    ToTrans(tenant, w, w1, v);
  }

  /** From every reachable state some continuation completes the request if and only if neither its
      inventory nor an artifact intent still to be inventoried holds a key that is not owned. */
  lemma CompletableExactly(tenant: Tenant, w: World, id: Uuid)
    requires Reached(tenant, w) && id in w.t.requests && Slashless(tenant, id)
    ensures (exists v :: To(tenant, w, v) && StateOf(v, id) == Some(Completed)) <==> !Blocked(tenant, w, id)
  {
    if Blocked(tenant, w, id) {
      forall v | To(tenant, w, v) ensures StateOf(v, id) != Some(Completed) {
        BlockedNeverCompletes(tenant, w, v, id);
      }
    } else {
      var v := CompleteIt(tenant, w, id);
    }
  }

  lemma BlockedNeverCompletes(tenant: Tenant, w: World, v: World, id: Uuid)
    requires Reached(tenant, w) && id in w.t.requests && Blocked(tenant, w, id) && To(tenant, w, v)
    ensures StateOf(v, id) != Some(Completed)
  {
    var run :| Legal(tenant, w, run) && After(tenant, w, run) == v;
    ReachedInvariant(tenant, w);
    BlockedOverRun(tenant, w, run, id);
    ReachedAfter(tenant, w, run);
    if StateOf(v, id) == Some(Completed) { CompletedIsClean(tenant, v, id); }
  }

}
