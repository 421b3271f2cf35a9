/** Source objects over whole runs: when a stored object stays for an agreement that refers to it, and
    when it goes with the last one. */
module DeletionSources {
  import opened Prelude
  import opened DeletionKeys
  import opened DeletionTables
  import opened DeletionProtocol
  import opened DeletionRows
  import opened DeletionLedger
  import opened DeletionInventory
  import opened DeletionOwnership
  import opened DeletionSafety
  import opened DeletionSharing
  import opened DeletionRuns

  // ---- what adds and removes objects

  /** A step that puts this key. */
  predicate Puts(s: Step, key: Key) {
    s.Env? && ((s.env.Upload? && s.env.key == key) || (s.env.UploadTorn? && s.env.key == key)
               || (s.env.StoreArtifact? && s.env.key == key))
  }

  predicate NeverPuts(run: seq<Step>, key: Key) {
    forall i :: 0 <= i < |run| ==> !Puts(run[i], key)
  }

  lemma NeverPutsLater(run: seq<Step>, key: Key)
    requires run != [] && NeverPuts(run, key)
    ensures !Puts(run[0], key) && NeverPuts(run[1..], key)
  {
    assert forall i :: 0 <= i < |run| - 1 ==> run[1..][i] == run[i + 1];
  }

  lemma EnvStores(tenant: Tenant, w: World, s: EnvStep)
    requires EnvEnabled(tenant, w, s)
    ensures forall key :: key in EnvApply(tenant, w, s).stored <==> key in w.stored || Puts(Env(s), key)
    ensures forall key :: key in EnvApply(tenant, w, s).p.storeTurn && !Puts(Env(s), key) ==>
              key in w.p.storeTurn && EnvApply(tenant, w, s).p.storeTurn[key] == w.p.storeTurn[key]
  {
  }

  lemma WorkersOnlyRemove(tenant: Tenant, w: World, s: WorkerStep)
    requires WorkerEnabled(tenant, w, s)
    ensures WorkerApply(tenant, w, s).stored <= w.stored && WorkerApply(tenant, w, s).p.storeTurn == w.p.storeTurn
  {
    if s.TakeClaim? {
      assert Claimed(w, s.message, s.token, s.now).stored == w.stored;
    }
  }

  lemma StoredOnlyByPut(tenant: Tenant, w: World, s: Step, key: Key)
    requires Enabled(tenant, w, s) && !Puts(s, key)
    ensures key in Apply(tenant, w, s).stored ==> key in w.stored
    ensures key in Apply(tenant, w, s).p.storeTurn ==>
              key in w.p.storeTurn && Apply(tenant, w, s).p.storeTurn[key] == w.p.storeTurn[key]
  {
    match s
    case Env(e) => EnvStores(tenant, w, e);
    case Worker(x) => WorkersOnlyRemove(tenant, w, x);
    case Sweeper(x) =>
  }

  lemma {:induction false} StoredOnlyByPuts(tenant: Tenant, w: World, run: seq<Step>, key: Key)
    requires Legal(tenant, w, run) && NeverPuts(run, key)
    ensures key in After(tenant, w, run).stored ==> key in w.stored
    ensures key in After(tenant, w, run).p.storeTurn ==>
              key in w.p.storeTurn && After(tenant, w, run).p.storeTurn[key] == w.p.storeTurn[key]
    decreases |run|
  {
    if run != [] {
      NeverPutsLater(run, key);
      StoredOnlyByPut(tenant, w, run[0], key);
      StoredOnlyByPuts(tenant, Apply(tenant, w, run[0]), run[1..], key);
    }
  }

  /** A source delete under way that found nobody: its next act is to remove the object. */
  predicate Removing(w: World, token: Uuid, key: Key) {
    Open(w, token) && !w.looks[token].shared && w.looks[token].key == key
  }

  ghost predicate InFlight(w: World, key: Key) {
    exists token :: Removing(w, token, key)
  }

  /** A source object leaves storage in one way only. */
  lemma RemovedByClose(tenant: Tenant, w: World, s: WorkerStep, key: Key)
    requires WorkerEnabled(tenant, w, s) && SourceShaped(tenant, key)
    requires key in w.stored && key !in WorkerApply(tenant, w, s).stored
    ensures (s.CloseSource? || s.CloseSourceTorn?) && Removing(w, s.token, key)
  {
    if s.Wipe? {
      var o := w.p.archive[s.item];
      OwnedKeysAreDisjoint(tenant, tenant, o.deletion, o.deletion, Source, o.category, key);
    }
  }

  lemma OnlyRemovingRemoves(tenant: Tenant, w: World, s: Step, key: Key)
    requires Enabled(tenant, w, s) && SourceShaped(tenant, key)
    requires key in w.stored && key !in Apply(tenant, w, s).stored
    ensures s.Worker? && InFlight(w, key)
  {
    match s
    case Env(e) => EnvStores(tenant, w, e);
    case Worker(x) => RemovedByClose(tenant, w, x, key);
    case Sweeper(x) =>
  }

  /** When a source object leaves storage, it is under a current claim of a deletion whose inventory
      still holds it, while no version of an agreement that is not being deleted refers to it and no
      upload newer than that deletion's acceptance is on record. */
  lemma RemovalIsJustified(tenant: Tenant, w: World, s: WorkerStep, key: Key)
    requires Invariant(tenant, w) && WorkerEnabled(tenant, w, s) && SourceShaped(tenant, key)
    requires key in w.stored && key !in WorkerApply(tenant, w, s).stored
    ensures s.CloseSource? || s.CloseSourceTorn?
    ensures s.token in w.looks && s.token in w.h.claims && MayClose(w.t, w.h.claims[s.token], w.looks[s.token].item)
    ensures w.t.objects[w.looks[s.token].item].key == key
    ensures forall a :: !HasVersion(w.t, a, key)
    ensures NoNewUpload(w.t, w.h.claims[s.token].deletion, key)
  {
    RemovedByClose(tenant, w, s, key);
    assert LookStands(w, s.token) && TokenKept(w, s.token) && ItemKept(w, w.looks[s.token].item);
  }

  // ---- not lost

  /** A live agreement was live before, and keeps its versions. */
  predicate VersionsKept(t: Tables, t': Tables, a: Uuid, key: Key) {
    && a in t'.agreements
    && (Live(t', a) ==> Live(t, a) && (HasVersion(t, a, key) ==> HasVersion(t', a, key)))
  }

  lemma RewriteKeepsVersions(w: World, b: Uuid, versions: set<Key>, files: set<Key>, a: Uuid, key: Key)
    requires a in w.t.agreements && (b in w.t.agreements ==> Live(w.t, b) && w.t.agreements[b].versions <= versions)
    ensures VersionsKept(w.t, Rewritten(w, b, versions, files).t, a, key)
  {
  }

  lemma ReferencesKeepVersions(tenant: Tenant, w: World, s: EnvStep, a: Uuid, key: Key)
    requires EnvEnabled(tenant, w, s) && a in w.t.agreements
    requires s.Create? || s.AddVersion? || s.Rewrite? || s.Derive? || s.Accept?
    ensures VersionsKept(w.t, EnvApply(tenant, w, s).t, a, key)
  {
    match s
    case Create(b, files, last) =>
      RewriteKeepsVersions(w, b, if last.None? then {} else {last.value}, files, a, key);
    case AddVersion(b, k) => RewriteKeepsVersions(w, b, w.t.agreements[b].versions + {k}, {k}, a, key);
    case Rewrite(b, files) => RewriteKeepsVersions(w, b, w.t.agreements[b].versions, files, a, key);
    case Derive(b, row) => assert VersionsKept(w.t, Derived(w, b, row).t, a, key);
    case Accept(id, read, inventory, now) =>
      assert VersionsKept(w.t, AcceptTx(w.t, id, inventory, now), a, key);
  }

  lemma EnvKeepsVersions(tenant: Tenant, w: World, s: EnvStep, a: Uuid, key: Key)
    requires EnvEnabled(tenant, w, s) && a in w.t.agreements
    ensures VersionsKept(w.t, EnvApply(tenant, w, s).t, a, key)
  {
    if s.Create? || s.AddVersion? || s.Rewrite? || s.Derive? || s.Accept? {
      ReferencesKeepVersions(tenant, w, s, a, key);
    } else {
      assert EnvApply(tenant, w, s).t.agreements == w.t.agreements;
    }
  }

  lemma WorkersKeepVersions(tenant: Tenant, w: World, s: WorkerStep, a: Uuid, key: Key)
    requires Rows(w) && WorkerEnabled(tenant, w, s) && a in w.t.agreements
    ensures VersionsKept(w.t, WorkerApply(tenant, w, s).t, a, key)
  {
    WorkerTablesAre(tenant, w, s);
    TablesKeepVersions(w, s, a, key);
  }

  lemma TablesKeepVersions(w: World, s: WorkerStep, a: Uuid, key: Key)
    requires Rows(w) && a in w.t.agreements
    ensures VersionsKept(w.t, WorkerTables(w, s), a, key)
  {
    assert RowsOf(w, a);
  }

  lemma VersionStays(tenant: Tenant, w: World, s: Step, a: Uuid, key: Key)
    requires Rows(w) && Enabled(tenant, w, s) && a in w.t.agreements
    ensures VersionsKept(w.t, Apply(tenant, w, s).t, a, key)
  {
    match s
    case Env(e) => EnvKeepsVersions(tenant, w, e, a, key);
    case Worker(x) => WorkersKeepVersions(tenant, w, x, a, key);
    case Sweeper(x) => SweepersKeepVersions(w, x, a, key);
  }

  lemma SweepersKeepVersions(w: World, s: SweeperStep, a: Uuid, key: Key)
    requires SweeperEnabled(w, s) && a in w.t.agreements
    ensures VersionsKept(w.t, SweeperApply(w, s).t, a, key)
  {
  }

  lemma {:induction false} LiveBefore(tenant: Tenant, w: World, run: seq<Step>, a: Uuid)
    requires Rows(w) && Legal(tenant, w, run) && a in w.t.agreements && Live(After(tenant, w, run).t, a)
    ensures Live(w.t, a)
    decreases |run|
  {
    if run != [] {
      RowsKept(tenant, w, run[0]);
      VersionStays(tenant, w, run[0], a, "");
      LiveBefore(tenant, Apply(tenant, w, run[0]), run[1..], a);
    }
  }

  lemma VersionKeepsObject(tenant: Tenant, w: World, s: Step, a: Uuid, key: Key)
    requires Invariant(tenant, w) && Enabled(tenant, w, s) && SourceShaped(tenant, key)
    requires HasVersion(w.t, a, key) && key in w.stored
    ensures key in Apply(tenant, w, s).stored
  {
    if key !in Apply(tenant, w, s).stored {
      RemovalFoundNoVersion(tenant, w, s, key);
    }
  }

  lemma RemovalFoundNoVersion(tenant: Tenant, w: World, s: Step, key: Key)
    requires Invariant(tenant, w) && Enabled(tenant, w, s) && SourceShaped(tenant, key)
    requires key in w.stored && key !in Apply(tenant, w, s).stored
    ensures forall a :: !HasVersion(w.t, a, key)
  {
    OnlyRemovingRemoves(tenant, w, s, key);
    RemovalIsJustified(tenant, w, s.worker, key);
  }

  /** Not lost: an object that is stored while a version of an agreement refers to it stays stored for
      as long as that agreement is not being deleted, over every run. */
  lemma {:induction false} LiveSourceSurvives(tenant: Tenant, w: World, a: Uuid, key: Key, run: seq<Step>)
    requires Invariant(tenant, w) && SourceShaped(tenant, key) && HasVersion(w.t, a, key) && key in w.stored
    requires Legal(tenant, w, run) && Live(After(tenant, w, run).t, a)
    ensures HasVersion(After(tenant, w, run).t, a, key) && key in After(tenant, w, run).stored
    decreases |run|
  {
    if run != [] {
      var v := Apply(tenant, w, run[0]);
      InvariantKept(tenant, w, run[0]);
      VersionStays(tenant, w, run[0], a, key);
      LiveBefore(tenant, v, run[1..], a);
      VersionKeepsObject(tenant, w, run[0], a, key);
      LiveSourceSurvives(tenant, v, a, key, run[1..]);
    }
  }

  /** ... and that condition is exact: without a new upload, a live agreement has the object of its
      version at the end of a run if and only if the object was there at its start. */
  lemma LiveSourceExactly(tenant: Tenant, w: World, a: Uuid, key: Key, run: seq<Step>)
    requires Invariant(tenant, w) && SourceShaped(tenant, key) && HasVersion(w.t, a, key)
    requires Legal(tenant, w, run) && NeverPuts(run, key) && Live(After(tenant, w, run).t, a)
    ensures key in After(tenant, w, run).stored <==> key in w.stored
  {
    if key in w.stored {
      LiveSourceSurvives(tenant, w, a, key, run);
    } else {
      StoredOnlyByPuts(tenant, w, run, key);
    }
  }

  /** A recorded upload newer than every acceptance of its key is in storage. */
  lemma NewUploadIsStored(tenant: Tenant, w: World, key: Key)
    requires Reached(tenant, w) && key in w.t.registry && w.t.registry[key].state == Available && NewerThanAll(w, key)
    ensures key in w.stored
  {
    ReachedInvariant(tenant, w);
    assert KeyKept(tenant, w, key);
  }

  // ---- references that are no version

  /** A live agreement has the key in its `files` column. */
  predicate Lists(w: World, a: Uuid, key: Key) {
    Live(w.t, a) && key in w.t.agreements[a].files
  }

  ghost predicate ListsThroughout(tenant: Tenant, w: World, run: seq<Step>, a: Uuid, key: Key)
    requires Legal(tenant, w, run)
    decreases |run|
  {
    Lists(w, a, key) && (run != [] ==> ListsThroughout(tenant, Apply(tenant, w, run[0]), run[1..], a, key))
  }

  /** Closed source items stay closed. */
  predicate StaysClosed(w: World, v: World, o: Uuid) {
    o in w.p.archive && w.p.archive[o].category == Source ==>
      && o in v.p.archive && SameItem(v.p.archive[o], w.p.archive[o])
      && (w.p.archive[o].state != Pending ==> v.p.archive[o].state != Pending)
  }

  lemma EnvKeepsClosed(tenant: Tenant, w: World, s: EnvStep, o: Uuid)
    requires Inventory(w) && EnvEnabled(tenant, w, s)
    ensures StaysClosed(w, EnvApply(tenant, w, s), o)
  {
    assert ItemKept(w, o);
    if !Enters(s) {
      EnvIsOutside(tenant, w, s);
    } else if s.Accept? {
      assert StaysClosed(w, AcceptApplied(w, s.id, HeldKeys(w, s.id, s.read), s.inventory, s.now), o);
    } else if s.Late? {
      assert StaysClosed(w, LateApplied(w, s.id, s.item, s.late, s.dropped, s.now), o);
    }
  }

  lemma ClosingKeepsClosed(w: World, t: Tables, o: Uuid)
    requires Inventory(w)
    requires OnlyCloses(w.t, t)
    ensures StaysClosed(w, Closed(w, t), o)
  {
    assert ItemKept(w, o);
  }

  lemma WorkersKeepClosed(tenant: Tenant, w: World, s: WorkerStep, o: Uuid)
    requires Inventory(w) && WorkerEnabled(tenant, w, s)
    ensures StaysClosed(w, WorkerApply(tenant, w, s), o)
  {
    if s.CloseSource? || s.MarkDeleted? {
      ClosersKeepClosed(tenant, w, s, o);
    } else if s.CheckSource? || s.Wipe? {
      TouchesByReading(tenant, w, s);
      assert WorkerApply(tenant, w, s).p.archive == w.p.archive;
    } else {
      WorkersLeaveItems(tenant, w, s);
    }
  }

  lemma ClosersKeepClosed(tenant: Tenant, w: World, s: WorkerStep, o: Uuid)
    requires Inventory(w) && WorkerEnabled(tenant, w, s) && (s.CloseSource? || s.MarkDeleted?)
    ensures StaysClosed(w, WorkerApply(tenant, w, s), o)
  {
    var t := WorkerTables(w, s);
    WorkerTablesAre(tenant, w, s);
    ClosedByTables(w, s);
    ClosingKeepsClosed(w, t, o);
    ArchiveFollows(tenant, w, s);
  }

  lemma ArchiveFollows(tenant: Tenant, w: World, s: WorkerStep)
    requires WorkerEnabled(tenant, w, s) && (s.CloseSource? || s.MarkDeleted?)
    ensures WorkerApply(tenant, w, s).p.archive == w.p.archive + WorkerTables(w, s).objects
  {
  }

  predicate OnlyCloses(t: Tables, t': Tables) {
    forall x :: x in t'.objects ==>
      && x in t.objects && SameItem(t'.objects[x], t.objects[x])
      && (t.objects[x].state != Pending ==> t'.objects[x].state != Pending)
  }

  lemma FinishOnlyCloses(t: Tables, c: Claim, item: Uuid, state: ObjectState, now: Time)
    ensures OnlyCloses(t, FinishObject(t, c, item, state, now))
  {
  }

  lemma ClosedByTables(w: World, s: WorkerStep)
    requires s.CloseSource? || s.MarkDeleted?
    ensures OnlyCloses(w.t, WorkerTables(w, s))
  {
    if s.MarkDeleted? && s.token in w.h.claims {
      FinishOnlyCloses(w.t, w.h.claims[s.token], s.item, Deleted, s.now);
    } else if s.CloseSource? && Open(w, s.token) {
      CloseOnlyCloses(w.t, w.h.claims[s.token], w.looks[s.token].item, w.looks[s.token].shared, s.now);
    }
  }

  lemma CloseOnlyCloses(t: Tables, c: Claim, item: Uuid, shared: bool, now: Time)
    requires MayClose(t, c, item)
    ensures OnlyCloses(t, CloseSourceTx(t, c, item, shared, now))
  {
    if shared {
      FinishOnlyCloses(t, c, item, Preserved, now);
    } else {
      FinishOnlyCloses(t.(registry := t.registry[t.objects[item].key := Registry(Gone, now)]), c, item, Deleted, now);
    }
  }

  lemma ClosedStays(tenant: Tenant, w: World, s: Step, o: Uuid)
    requires Inventory(w) && Enabled(tenant, w, s)
    ensures StaysClosed(w, Apply(tenant, w, s), o)
  {
    match s
    case Env(e) => EnvKeepsClosed(tenant, w, e, o);
    case Worker(x) => WorkersKeepClosed(tenant, w, x, o);
    case Sweeper(x) => assert SweeperApply(w, x).p.archive == w.p.archive;
  }

  /** A source delete that was over before a step is over after it. */
  lemma OverStaysOver(tenant: Tenant, w: World, s: Step, token: Uuid)
    requires Rows(w) && Inventory(w) && Enabled(tenant, w, s) && Inventory(Apply(tenant, w, s))
             && Rows(Apply(tenant, w, s))
    requires token in w.looks && Open(Apply(tenant, w, s), token)
    requires Apply(tenant, w, s).looks[token] == w.looks[token]
    ensures Open(w, token)
  {
    var v, o := Apply(tenant, w, s), w.looks[token].item;
    assert TokenKept(w, token) && TokenKept(v, token) && IssuedAs(w, token) && IssuedAs(v, token);
    if Lost(w, token) {
      LostStaysLost(tenant, w, s, token);
    }
    ClosedStays(tenant, w, s, o);
    assert ItemKept(w, o) && ItemKept(v, o);
  }

  /** The query of this token, as this step answers it. */
  ghost predicate LookedBy(w: World, v: World, s: Step, token: Uuid) {
    && s.Worker? && s.worker.CheckSource? && s.worker.token == token
    && Read(w, token, s.worker.item, true) && MayClose(w.t, w.h.claims[token], s.worker.item)
    && token in v.looks
    && v.looks[token] == Look(s.worker.item, w.p.archive[s.worker.item].key,
                              Shared(w.t, w.h.claims[token].deletion, w.p.archive[s.worker.item].key))
  }

  ghost predicate LookFrom(w: World, v: World, s: Step, token: Uuid) {
    token in v.looks ==> (token in w.looks && v.looks[token] == w.looks[token]) || LookedBy(w, v, s, token)
  }

  lemma LooksOnlyByQuery(tenant: Tenant, w: World, s: Step, token: Uuid)
    requires Enabled(tenant, w, s)
    ensures LookFrom(w, Apply(tenant, w, s), s, token)
  {
    match s
    case Env(e) => EnvEndsLooks(tenant, w, e);
    case Worker(x) => if !x.CheckSource? { WorkersEndLooks(tenant, w, x); }
    case Sweeper(x) => assert SweeperApply(w, x).looks == w.looks;
  }

  lemma EnvEndsLooks(tenant: Tenant, w: World, s: EnvStep)
    requires EnvEnabled(tenant, w, s)
    ensures LooksEnd(w, EnvApply(tenant, w, s))
  {
    if !Enters(s) { EnvIsOutside(tenant, w, s); }
  }

  lemma WorkersEndLooks(tenant: Tenant, w: World, s: WorkerStep)
    requires WorkerEnabled(tenant, w, s) && !s.CheckSource?
    ensures LooksEnd(w, WorkerApply(tenant, w, s))
  {
  }

  /** While the agreement lists the key, every query finds it. */
  lemma QueryFindsLister(w: World, v: World, s: Step, token: Uuid, a: Uuid, key: Key)
    requires Rows(w) && LookedBy(w, v, s, token) && v.looks[token].key == key && Lists(w, a, key)
    ensures v.looks[token].shared
  {
    assert RowsOf(w, a);
    assert ReferencedElsewhere(w.t, w.h.claims[token].deletion, key);
  }

  lemma RemovingBefore(tenant: Tenant, w: World, s: Step, token: Uuid, key: Key)
    requires Invariant(tenant, w) && Enabled(tenant, w, s) && Removing(Apply(tenant, w, s), token, key)
    requires token in w.looks && Apply(tenant, w, s).looks[token] == w.looks[token]
    ensures Removing(w, token, key)
  {
    InvariantKept(tenant, w, s);
    OverStaysOver(tenant, w, s, token);
  }

  lemma NoneTakesOff(tenant: Tenant, w: World, s: Step, a: Uuid, key: Key)
    requires Invariant(tenant, w) && Enabled(tenant, w, s) && Lists(w, a, key) && !InFlight(w, key)
    ensures !InFlight(Apply(tenant, w, s), key)
  {
    var v := Apply(tenant, w, s);
    forall token ensures !Removing(v, token, key) {
      LooksOnlyByQuery(tenant, w, s, token);
      if token in v.looks && v.looks[token].key == key {
        if token in w.looks && v.looks[token] == w.looks[token] {
          if Removing(v, token, key) { RemovingBefore(tenant, w, s, token, key); }
        } else {
          QueryFindsLister(w, v, s, token, a, key);
        }
      }
    }
  }

  lemma {:induction false} ListedSurvives(tenant: Tenant, w: World, run: seq<Step>, a: Uuid, key: Key)
    requires Invariant(tenant, w) && SourceShaped(tenant, key) && key in w.stored && !InFlight(w, key)
    requires Legal(tenant, w, run) && ListsThroughout(tenant, w, run, a, key)
    ensures key in After(tenant, w, run).stored
    decreases |run|
  {
    if run != [] {
      var v := Apply(tenant, w, run[0]);
      InvariantKept(tenant, w, run[0]);
      NoneTakesOff(tenant, w, run[0], a, key);
      if key !in v.stored { OnlyRemovingRemoves(tenant, w, run[0], key); }
      ListedSurvives(tenant, v, run[1..], a, key);
    }
  }

  lemma Overtaken(tenant: Tenant, w: World, a: Uuid, key: Key, token: Uuid) returns (run: seq<Step>)
    requires Lists(w, a, key) && Removing(w, token, key)
    ensures Legal(tenant, w, run) && ListsThroughout(tenant, w, run, a, key) && key !in After(tenant, w, run).stored
  {
    var s := Worker(CloseSource(token, w.now));
    run := [s];
    var v := Apply(tenant, w, s);
    assert Legal(tenant, v, []) && Lists(v, a, key) && ListsThroughout(tenant, v, [], a, key);
    assert run[1..] == [];
  }

  /** A file that is no version is protected by no lock. A live agreement that keeps listing a stored
      object has it at the end of every run if and only if, at the start, no source delete that found
      nobody is on its way from its query to the object. */
  lemma ListedSourceExactly(tenant: Tenant, w: World, a: Uuid, key: Key)
    requires Reached(tenant, w) && SourceShaped(tenant, key) && Lists(w, a, key) && key in w.stored
    ensures (forall run :: Legal(tenant, w, run) && ListsThroughout(tenant, w, run, a, key) ==>
               key in After(tenant, w, run).stored) <==> !InFlight(w, key)
  {
    ReachedInvariant(tenant, w);
    if InFlight(w, key) {
      var token :| Removing(w, token, key);
      var run := Overtaken(tenant, w, a, key, token);
    } else {
      forall run | Legal(tenant, w, run) && ListsThroughout(tenant, w, run, a, key)
        ensures key in After(tenant, w, run).stored
      {
        ListedSurvives(tenant, w, run, a, key);
      }
    }
  }

  // ---- not leaked

  /** Acceptances are recorded once, in the order of turns. */
  ghost predicate Accepts(w: World, v: World) {
    && w.p.turn <= v.p.turn
    && (forall a :: a in w.p.held ==> a in v.p.held && v.p.held[a] == w.p.held[a])
    && (forall a :: a in w.p.acceptTurn ==> a in v.p.acceptTurn && v.p.acceptTurn[a] == w.p.acceptTurn[a])
    && (forall a :: a in v.p.acceptTurn && a !in w.p.acceptTurn ==> w.p.turn <= v.p.acceptTurn[a])
  }

  lemma EnvAccepts(tenant: Tenant, w: World, s: EnvStep)
    requires Rows(w) && Agreements(w) && EnvEnabled(tenant, w, s)
    ensures Accepts(w, EnvApply(tenant, w, s))
  {
    if !Enters(s) {
      EnvIsOutside(tenant, w, s);
    } else {
      EntryAccepts(tenant, w, s);
    }
  }

  lemma EntryAccepts(tenant: Tenant, w: World, s: EnvStep)
    requires Rows(w) && Agreements(w) && EnvEnabled(tenant, w, s) && Enters(s)
    ensures Accepts(w, EnvApply(tenant, w, s))
  {
    if s.Accept? { assert AgreementKept(w, s.id) && RowsOf(w, s.id); }
  }

  lemma WorkersAcceptNothing(tenant: Tenant, w: World, s: WorkerStep)
    requires WorkerEnabled(tenant, w, s)
    ensures Accepts(w, WorkerApply(tenant, w, s))
  {
    if s.TakeClaim? {
      assert Accepts(w, Claimed(w, s.message, s.token, s.now));
    } else if s.CloseSource? || s.CloseSourceTorn? {
      RemovalAcceptsNothing(tenant, w, s);
    }
  }

  lemma RemovalAcceptsNothing(tenant: Tenant, w: World, s: WorkerStep)
    requires WorkerEnabled(tenant, w, s) && (s.CloseSource? || s.CloseSourceTorn?)
    ensures Accepts(w, WorkerApply(tenant, w, s))
  {
  }

  lemma StepAccepts(tenant: Tenant, w: World, s: Step)
    requires Rows(w) && Agreements(w) && Enabled(tenant, w, s)
    ensures Accepts(w, Apply(tenant, w, s))
  {
    match s
    case Env(e) => EnvAccepts(tenant, w, e);
    case Worker(x) => WorkersAcceptNothing(tenant, w, x);
    case Sweeper(x) => assert SweeperApply(w, x).p == w.p;
  }

  /** What an agreement held when its deletion was accepted is fixed for ever. */
  lemma {:induction false} HeldForEver(tenant: Tenant, w: World, run: seq<Step>)
    requires Invariant(tenant, w) && Legal(tenant, w, run)
    ensures Accepts(w, After(tenant, w, run))
    decreases |run|
  {
    if run != [] {
      InvariantKept(tenant, w, run[0]);
      StepAccepts(tenant, w, run[0]);
      HeldForEver(tenant, Apply(tenant, w, run[0]), run[1..]);
    }
  }

  /** Not leaked: when the last accepted of all that ever referred to a key has completed and held the
      key when it was accepted, and nothing was uploaded or put since, the object is gone. */
  lemma NoLeak(tenant: Tenant, w: World, last: Uuid, key: Key)
    requires Invariant(tenant, w)
    requires last in w.t.requests && w.t.requests[last].state == Completed && last in w.p.acceptTurn
    requires last in w.p.held && key in w.p.held[last]
    requires forall a :: References(w, a, key) ==>
      a in w.t.requests && a in w.p.acceptTurn && w.p.acceptTurn[a] <= w.p.acceptTurn[last]
    requires forall stamp :: (key, stamp) in w.p.stamps ==> stamp <= w.t.requests[last].acceptedAt
    requires key in w.p.storeTurn ==> w.p.storeTurn[key] <= w.p.acceptTurn[last]
    ensures key !in w.stored
  {
    assert AgreementKept(w, last);
    var o :| InventoriedFor(w, o, last, key);
    assert ItemKept(w, o) && PreservedKept(w, o);
    forall a ensures !TakesOver(w, a, last, key) { assert RowsOf(w, a); }
    assert !Answered(w, last, key);
  }

  /** No deletion still has to deal with the key. */
  ghost predicate NothingPending(w: World, key: Key) {
    forall o :: SourceItem(w, o, key) ==> w.p.archive[o].state != Pending
  }

  /** Source items come with an acceptance that held their key. */
  predicate NewlyHeld(w: World, s: Step, key: Key) {
    s.Env? && s.env.Accept? && s.env.id in w.t.agreements && key in HeldKeys(w, s.env.id, s.env.read)
  }

  lemma SourcesOnlyByAccept(tenant: Tenant, w: World, s: Step, o: Uuid, key: Key)
    requires Inventory(w) && Enabled(tenant, w, s) && SourceItem(Apply(tenant, w, s), o, key)
    ensures SourceItem(w, o, key) || NewlyHeld(w, s, key)
  {
    match s
    case Env(e) => SourcesInEnv(tenant, w, e, o, key);
    case Worker(x) => SourcesAmongWorkers(tenant, w, x, o, key);
    case Sweeper(x) => assert SweeperApply(w, x).p == w.p;
  }

  lemma SourcesInEnv(tenant: Tenant, w: World, s: EnvStep, o: Uuid, key: Key)
    requires Inventory(w) && EnvEnabled(tenant, w, s) && SourceItem(EnvApply(tenant, w, s), o, key)
    ensures SourceItem(w, o, key) || NewlyHeld(w, Env(s), key)
  {
    if !Enters(s) {
      EnvIsOutside(tenant, w, s);
    } else if s.Accept? {
      assert SourceRow(s.inventory, o, key) || SourceItem(w, o, key);
    } else if s.Late? {
      assert ItemKept(w, s.item);
    }
  }

  lemma SourcesAmongWorkers(tenant: Tenant, w: World, s: WorkerStep, o: Uuid, key: Key)
    requires Inventory(w) && WorkerEnabled(tenant, w, s) && SourceItem(WorkerApply(tenant, w, s), o, key)
    ensures SourceItem(w, o, key)
  {
    TouchesByWorker(tenant, w, s);
    assert ItemKept(w, o);
    assert o in w.p.archive && SameItem(WorkerApply(tenant, w, s).p.archive[o], w.p.archive[o]);
  }

  lemma NothingPendingStays(tenant: Tenant, w: World, s: Step, key: Key)
    requires Inventory(w) && Enabled(tenant, w, s) && NothingPending(w, key) && !NewlyHeld(w, s, key)
    ensures NothingPending(Apply(tenant, w, s), key)
  {
    var v := Apply(tenant, w, s);
    forall o | SourceItem(v, o, key) ensures v.p.archive[o].state != Pending {
      SourcesOnlyByAccept(tenant, w, s, o, key);
      ClosedStays(tenant, w, s, o);
    }
  }

  lemma NothingPendingKeepsObject(tenant: Tenant, w: World, s: Step, key: Key)
    requires Inventory(w) && Enabled(tenant, w, s) && SourceShaped(tenant, key) && NothingPending(w, key)
    ensures key in w.stored ==> key in Apply(tenant, w, s).stored
  {
    NothingPendingNoneInFlight(w, key);
    if key in w.stored && key !in Apply(tenant, w, s).stored {
      OnlyRemovingRemoves(tenant, w, s, key);
    }
  }

  lemma NothingPendingNoneInFlight(w: World, key: Key)
    requires Inventory(w) && NothingPending(w, key)
    ensures !InFlight(w, key)
  {
    forall token ensures !Removing(w, token, key) {
      assert TokenKept(w, token) && LookedAt(w, token);
      if token in w.looks { assert SourceItem(w, w.looks[token].item, key) || w.looks[token].key != key; }
    }
  }

  lemma NewlyHeldIsHeld(tenant: Tenant, w: World, s: Step, key: Key)
    requires Rows(w) && Agreements(w) && Enabled(tenant, w, s)
    ensures NewlyHeld(w, s, key) ==>
      && s.env.id !in w.p.held
      && s.env.id in Apply(tenant, w, s).p.held && key in Apply(tenant, w, s).p.held[s.env.id]
  {
    if s.Env? && s.env.Accept? { assert AgreementKept(w, s.env.id) && RowsOf(w, s.env.id); }
  }

  /** An object that no deletion has to deal with, and that no later acceptance holds, stays for ever. */
  lemma {:induction false} UnheldStays(tenant: Tenant, w: World, run: seq<Step>, key: Key)
    requires Invariant(tenant, w) && Legal(tenant, w, run) && SourceShaped(tenant, key)
    requires key in w.stored && NothingPending(w, key)
    requires forall d :: d in After(tenant, w, run).p.held && key in After(tenant, w, run).p.held[d] ==> d in w.p.held
    ensures key in After(tenant, w, run).stored
    decreases |run|
  {
    if run != [] {
      var s, v := run[0], Apply(tenant, w, run[0]);
      InvariantKept(tenant, w, s);
      HeldForEver(tenant, v, run[1..]);
      NewlyHeldIsHeld(tenant, w, s, key);
      NothingPendingStays(tenant, w, s, key);
      NothingPendingKeepsObject(tenant, w, s, key);
      StepAccepts(tenant, w, s);
      UnheldStays(tenant, v, run[1..], key);
    }
  }

  /** Every other agreement that ever referred to the key has been deleted. */
  ghost predicate LastSharer(w: World, last: Uuid, key: Key) {
    Live(w.t, last) && forall a :: a != last && References(w, a, key) ==>
      a in w.t.requests && w.t.requests[a].state == Completed
  }

  /** Nobody else comes to the key during the run: no put, no reference, no upload stamped after the
      last sharer's acceptance. */
  ghost predicate Undisturbed(tenant: Tenant, w: World, run: seq<Step>, last: Uuid, key: Key)
    requires Legal(tenant, w, run)
  {
    var v := After(tenant, w, run);
    && NeverPuts(run, key)
    && (forall a :: References(v, a, key) ==> a == last || References(w, a, key))
    && (last in v.t.requests ==> forall stamp :: (key, stamp) in v.p.stamps ==> stamp <= v.t.requests[last].acceptedAt)
  }

  /** The object goes with its last sharer if and only if that agreement still held the key when its
      deletion was accepted. A file that was replaced by a later version was not held any more. */
  lemma LastSharerDecides(tenant: Tenant, w: World, run: seq<Step>, last: Uuid, key: Key)
    requires Reached(tenant, w) && SourceShaped(tenant, key) && key in w.stored && LastSharer(w, last, key)
    requires Legal(tenant, w, run) && Undisturbed(tenant, w, run, last, key)
    requires StateOf(After(tenant, w, run), last) == Some(Completed)
    ensures last in After(tenant, w, run).p.held
    ensures key !in After(tenant, w, run).stored <==> key in After(tenant, w, run).p.held[last]
  {
    var v := After(tenant, w, run);
    ReachedInvariant(tenant, w);
    InvariantOverRun(tenant, w, run);
    HeldForEver(tenant, w, run);
    assert RowsOf(w, last) && AgreementKept(w, last) && AgreementKept(v, last);
    if key in v.p.held[last] {
      StoredOnlyByPuts(tenant, w, run, key);
      LastAccepted(w, v, last, key);
      NoLeak(tenant, v, last, key);
    } else {
      OthersAreDone(w, v, last, key);
      UnheldStays(tenant, w, run, key);
    }
  }

  lemma LastAccepted(w: World, v: World, last: Uuid, key: Key)
    requires Sharing(w) && Sharing(v) && Accepts(w, v) && LastSharer(w, last, key)
    requires last !in w.p.acceptTurn && last in v.p.acceptTurn
    requires forall a :: References(v, a, key) ==> a == last || References(w, a, key)
    requires key in v.p.storeTurn ==> key in w.p.storeTurn && v.p.storeTurn[key] == w.p.storeTurn[key]
    ensures key in v.p.storeTurn ==> v.p.storeTurn[key] <= v.p.acceptTurn[last]
    ensures forall a :: References(v, a, key) ==>
      a in v.t.requests && a in v.p.acceptTurn && v.p.acceptTurn[a] <= v.p.acceptTurn[last]
  {
    assert StampKept(w, key);
    forall a | References(v, a, key)
      ensures a in v.t.requests && a in v.p.acceptTurn && v.p.acceptTurn[a] <= v.p.acceptTurn[last]
    {
      assert AgreementKept(w, a) && AgreementKept(v, a);
    }
  }

  lemma OthersAreDone(w: World, v: World, last: Uuid, key: Key)
    requires Rows(w) && Inventory(w) && Sharing(w) && Sharing(v) && Accepts(w, v) && LastSharer(w, last, key)
    requires forall a :: References(v, a, key) ==> a == last || References(w, a, key)
    requires last in v.p.held && key !in v.p.held[last]
    ensures NothingPending(w, key)
    ensures forall d :: d in v.p.held && key in v.p.held[d] ==> d in w.p.held
  {
    forall o | SourceItem(w, o, key) ensures w.p.archive[o].state != Pending {
      var d := w.p.archive[o].deletion;
      assert ItemKept(w, o) && AgreementKept(w, d) && RowsOf(w, d) && InventoriedFor(w, o, d, key);
      assert References(w, d, key);
    }
    forall d | d in v.p.held && key in v.p.held[d] ensures d in w.p.held {
      assert AgreementKept(v, d) && References(v, d, key);
      assert AgreementKept(w, d);
    }
  }

}
