/** Shared sources are not lost: what an open source delete may still rely on, and why no interleaving
    of deletions, crashes and uploads takes a stored object away from a version of an agreement that
    is not being deleted. */
module DeletionSafety {
  import opened DeletionKeys
  import opened DeletionTables
  import opened DeletionProtocol
  import opened DeletionRows
  import opened DeletionInventory
  import opened DeletionOwnership

  predicate SourceItem(w: World, o: Uuid, key: Key) {
    o in w.p.archive && w.p.archive[o].category == Source && w.p.archive[o].key == key
  }

  /** The recorded upload of a key is newer than every acceptance that inventoried the key. */
  ghost predicate NewerThanAll(w: World, key: Key)
    requires key in w.t.registry
  {
    forall o :: SourceItem(w, o, key) && w.p.archive[o].deletion in w.t.requests ==>
      w.t.requests[w.p.archive[o].deletion].acceptedAt < w.t.registry[key].updatedAt
  }

  ghost predicate KeyKept(tenant: Tenant, w: World, key: Key) {
    key in w.t.registry ==>
      && SourceShaped(tenant, key)
      && (w.t.registry[key].state == Available && NewerThanAll(w, key) ==> key in w.stored)
  }

  predicate HasVersion(t: Tables, a: Uuid, key: Key) {
    Live(t, a) && key in t.agreements[a].versions
  }

  /** No upload newer than the acceptance of this deletion is on record. */
  predicate NoNewUpload(t: Tables, id: Uuid, key: Key) {
    id in t.requests && (key in t.registry && t.registry[key].state == Available ==>
                           t.registry[key].updatedAt <= t.requests[id].acceptedAt)
  }

  /** What the lock of the key preserves of a query that found nobody. File lists are not in it. */
  ghost predicate LookStands(w: World, token: Uuid) {
    token in w.looks && token in w.h.claims && !w.looks[token].shared ==>
      && (forall a :: !HasVersion(w.t, a, w.looks[token].key))
      && NoNewUpload(w.t, w.h.claims[token].deletion, w.looks[token].key)
  }

  ghost predicate Safety(tenant: Tenant, w: World) {
    && (forall key :: KeyKept(tenant, w, key))
    && (forall token :: LookStands(w, token))
  }

  /** Inventory rows, acceptances and the claims of open deletes stay; no query is added. */
  ghost predicate Steady(w: World, v: World) {
    && LooksEnd(w, v)
    && (forall token :: token in w.looks && token in w.h.claims ==>
          token in v.h.claims && v.h.claims[token] == w.h.claims[token])
    && (forall token :: token in w.looks && token in v.h.claims ==> token in w.h.claims)
    && (forall o, key :: SourceItem(w, o, key) ==>
          SourceItem(v, o, key) && v.p.archive[o].deletion == w.p.archive[o].deletion)
    && (forall id :: id in w.t.requests ==>
          id in v.t.requests && v.t.requests[id].acceptedAt == w.t.requests[id].acceptedAt)
  }

  /** Nothing a source object depends on moved against it. */
  ghost predicate Quiet(w: World, v: World) {
    && Steady(w, v) && w.stored <= v.stored && v.t.registry == w.t.registry
    && (forall a, key :: HasVersion(v.t, a, key) ==> HasVersion(w.t, a, key))
  }

  lemma NewerBefore(w: World, v: World, key: Key)
    requires Steady(w, v) && key in w.t.registry && key in v.t.registry && v.t.registry[key] == w.t.registry[key]
    requires NewerThanAll(v, key)
    ensures NewerThanAll(w, key)
  {
    forall o | SourceItem(w, o, key) && w.p.archive[o].deletion in w.t.requests
      ensures w.t.requests[w.p.archive[o].deletion].acceptedAt < w.t.registry[key].updatedAt
    {
      assert SourceItem(v, o, key);
    }
  }

  lemma SafetyWhenQuiet(tenant: Tenant, w: World, v: World)
    requires Safety(tenant, w) && Quiet(w, v)
    ensures Safety(tenant, v)
  {
    forall key ensures KeyKept(tenant, v, key) {
      assert KeyKept(tenant, w, key);
      if key in v.t.registry && NewerThanAll(v, key) { NewerBefore(w, v, key); }
    }
    forall token ensures LookStands(v, token) { assert LookStands(w, token); }
  }

  /** A recorded upload holds the lock of its key, so it ends every query of that key. */
  lemma SafetyAfterUpload(tenant: Tenant, w: World, key: Key, now: Time)
    requires Safety(tenant, w) && SourceShaped(tenant, key)
    ensures Safety(tenant, Uploaded(w, key, now))
  {
    var v := Uploaded(w, key, now);
    assert Steady(w, v);
    forall k ensures KeyKept(tenant, v, k) {
      assert KeyKept(tenant, w, k);
      if k != key && k in v.t.registry && NewerThanAll(v, k) { NewerBefore(w, v, k); }
    }
    assert forall a, k :: HasVersion(v.t, a, k) ==> HasVersion(w.t, a, k);
    forall token ensures LookStands(v, token) { assert LookStands(w, token); }
  }

  /** ... and so does a new version. */
  lemma SafetyAfterVersion(tenant: Tenant, w: World, v: World, key: Key)
    requires Safety(tenant, w) && Steady(w, v) && v.stored == w.stored && v.t.registry == w.t.registry
    requires v.looks == Unlocked(w.looks, key)
    requires forall a, k :: k != key && HasVersion(v.t, a, k) ==> HasVersion(w.t, a, k)
    ensures Safety(tenant, v)
  {
    forall k ensures KeyKept(tenant, v, k) {
      assert KeyKept(tenant, w, k);
      if k in v.t.registry && NewerThanAll(v, k) { NewerBefore(w, v, k); }
    }
    forall token ensures LookStands(v, token) { assert LookStands(w, token); }
  }

  lemma SafetyAfterLook(tenant: Tenant, w: World, token: Uuid, item: Uuid)
    requires Rows(w) && Inventory(w) && Safety(tenant, w) && Read(w, token, item, true)
    ensures Safety(tenant, Looked(w, token, item))
  {
    var v, c := Looked(w, token, item), w.h.claims[token];
    assert ItemKept(w, item) && RowsOf(w, c.deletion);
    forall k ensures KeyKept(tenant, v, k) {
      assert KeyKept(tenant, w, k);
      if k in v.t.registry && NewerThanAll(v, k) { assert NewerThanAll(w, k); }
    }
    forall other ensures LookStands(v, other) {
      assert LookStands(w, other);
      if other == token && Deletes(w.t, c, item) { FoundNobody(w, c.deletion, w.p.archive[item].key); }
    }
  }

  lemma FoundNobody(w: World, id: Uuid, key: Key)
    requires RowsOf(w, id) && id in w.t.requests && !Shared(w.t, id, key)
    ensures NoNewUpload(w.t, id, key) && forall a :: Live(w.t, a) ==> !LiveReference(w.t.agreements[a], key)
  {
    forall a | Live(w.t, a) ensures !LiveReference(w.t.agreements[a], key) {
      assert a != id && !ReferencedElsewhere(w.t, id, key);
    }
  }

  /** The one removal that could hurt: no version refers to the key and no newer upload is recorded. */
  lemma SafetyAfterTorn(tenant: Tenant, w: World, token: Uuid)
    requires Inventory(w) && Safety(tenant, w) && Open(w, token) && !w.looks[token].shared
    ensures Safety(tenant, SourceTorn(w, token))
  {
    var v, look, d := SourceTorn(w, token), w.looks[token], w.h.claims[token].deletion;
    assert TokenKept(w, token) && LookStands(w, token) && ItemKept(w, look.item);
    assert Steady(w, v);
    forall k ensures KeyKept(tenant, v, k) {
      assert KeyKept(tenant, w, k);
      if k in v.t.registry && NewerThanAll(v, k) {
        NewerBefore(w, v, k);
        assert k == look.key ==> SourceItem(v, look.item, k);
      }
    }
    forall other ensures LookStands(v, other) { assert LookStands(w, other); }
  }

  lemma SafetyAfterClose(tenant: Tenant, w: World, token: Uuid, now: Time)
    requires Inventory(w) && Safety(tenant, w) && Open(w, token) && SourceShaped(tenant, w.looks[token].key)
    ensures Safety(tenant, SourceClosed(w, token, now))
  {
    var look := w.looks[token];
    var t := CloseSourceTx(w.t, w.h.claims[token], look.item, look.shared, now);
    CloseIsSteady(w, token, now);
    if look.shared {
      SafetyAfterSparing(tenant, w, Ended(w, token), t);
    } else {
      assert TokenKept(w, token) && ItemKept(w, look.item);
      SafetyAfterTorn(tenant, w, token);
      RegistryGone(tenant, SourceTorn(w, token), Closed(SourceTorn(w, token), t), look.key, now);
    }
  }

  lemma CloseIsSteady(w: World, token: Uuid, now: Time)
    requires Inventory(w) && Open(w, token)
    ensures var look := w.looks[token];
            var u := if look.shared then Ended(w, token) else SourceTorn(w, token);
            Steady(u, Closed(u, CloseSourceTx(w.t, w.h.claims[token], look.item, look.shared, now)))
  {
    var look := w.looks[token];
    var u := if look.shared then Ended(w, token) else SourceTorn(w, token);
    var t := CloseSourceTx(w.t, w.h.claims[token], look.item, look.shared, now);
    assert TokenKept(w, token) && ItemKept(w, look.item);
    ClosedKeepsItems(w, t.objects);
    SteadyClosed(u, t);
  }

  /** The row of a shared item is closed; storage and registry stay. */
  lemma SafetyAfterSparing(tenant: Tenant, w: World, u: World, t: Tables)
    requires Safety(tenant, w) && LooksEnd(w, u) && u == w.(looks := u.looks) && Steady(u, Closed(u, t))
    requires t.registry == w.t.registry && t.agreements == w.t.agreements
    ensures Safety(tenant, Closed(u, t))
  {
    QuietPlainly(w, u);
    SafetyWhenQuiet(tenant, w, u);
    SafetyWhenQuiet(tenant, u, Closed(u, t));
  }

  lemma SteadyClosed(u: World, t: Tables)
    requires forall o :: o in u.p.archive ==> SameItem((u.p.archive + t.objects)[o], u.p.archive[o])
    requires forall id :: id in u.t.requests ==>
               id in t.requests && t.requests[id].acceptedAt == u.t.requests[id].acceptedAt
    ensures Steady(u, Closed(u, t))
  {
  }

  /** Closing an item changes neither its deletion nor its category nor its key. */
  lemma ClosedKeepsItems(w: World, objects: map<Uuid, Object>)
    requires Inventory(w)
    requires forall o :: o in objects ==> o in w.t.objects && SameItem(objects[o], w.t.objects[o])
    ensures forall o :: o in w.p.archive ==> SameItem((w.p.archive + objects)[o], w.p.archive[o])
  {
    forall o | o in w.p.archive ensures SameItem((w.p.archive + objects)[o], w.p.archive[o]) { assert ItemKept(w, o); }
  }

  lemma RegistryGone(tenant: Tenant, u: World, v: World, key: Key, now: Time)
    requires Safety(tenant, u) && Steady(u, v) && v.stored == u.stored && v.t.agreements == u.t.agreements
    requires v.t.registry == u.t.registry[key := Registry(Gone, now)] && SourceShaped(tenant, key)
    ensures Safety(tenant, v)
  {
    forall k ensures KeyKept(tenant, v, k) {
      assert KeyKept(tenant, u, k);
      if k != key && k in v.t.registry && NewerThanAll(v, k) { NewerBefore(u, v, k); }
    }
    assert forall a, k :: HasVersion(v.t, a, k) ==> HasVersion(u.t, a, k);
    forall token ensures LookStands(v, token) { assert LookStands(u, token); }
  }

  lemma QuietMark(w: World, token: Uuid, item: Uuid, now: Time)
    requires Inventory(w) && token in w.h.claims
    ensures Quiet(w, Closed(w, MarkDeletedTx(w.t, w.h.claims[token], item, now)))
  {
    var v := Closed(w, MarkDeletedTx(w.t, w.h.claims[token], item, now));
    ClosedKeepsItems(w, MarkDeletedTx(w.t, w.h.claims[token], item, now).objects);
  }

  /** An unfenced storage delete cannot reach a source key at all. */
  lemma SafetyAfterWipe(tenant: Tenant, w: World, token: Uuid, item: Uuid)
    requires Safety(tenant, w) && Read(w, token, item, false) && KeyChecked(tenant, w.p.archive[item])
    ensures Safety(tenant, Wiped(w, token, item))
  {
    var gone, v := w.p.archive[item].key, Wiped(w, token, item);
    if SourceShaped(tenant, gone) {
      OwnedKeysAreDisjoint(tenant, tenant, 0, w.p.archive[item].deletion, Source, w.p.archive[item].category, gone);
    }
    assert Steady(w, v);
    forall k ensures KeyKept(tenant, v, k) {
      assert KeyKept(tenant, w, k);
      if k in v.t.registry && NewerThanAll(v, k) { NewerBefore(w, v, k); }
    }
    forall other ensures LookStands(v, other) { assert LookStands(w, other); }
  }

  lemma SafetyAfterReference(tenant: Tenant, w: World, s: EnvStep, key: Key)
    requires Safety(tenant, w) && EnvEnabled(tenant, w, s)
    requires (s.AddVersion? && s.key == key) || (s.Create? && s.last.Some? && s.last.value == key)
    ensures Safety(tenant, EnvApply(tenant, w, s))
  {
    SafetyAfterVersion(tenant, w, EnvApply(tenant, w, s), key);
  }

  lemma SafetyKeptByEnv(tenant: Tenant, w: World, s: EnvStep)
    requires Rows(w) && Inventory(w) && Safety(tenant, w) && EnvEnabled(tenant, w, s)
    ensures Safety(tenant, EnvApply(tenant, w, s))
  {
    if s.Upload? {
      SafetyAfterUpload(tenant, w, s.key, s.now);
    } else if s.AddVersion? {
      SafetyAfterReference(tenant, w, s, s.key);
    } else if s.Create? && s.last.Some? {
      SafetyAfterReference(tenant, w, s, s.last.value);
    } else {
      QuietEnv(tenant, w, s);
      SafetyWhenQuiet(tenant, w, EnvApply(tenant, w, s));
    }
  }

  /** Steps that touch neither the inventory nor the claims, nor the registry. */
  lemma QuietPlainly(w: World, v: World)
    requires LooksEnd(w, v) && v.h.claims == w.h.claims && v.p.archive == w.p.archive
    requires w.stored <= v.stored && v.t.registry == w.t.registry
    requires forall id :: id in w.t.requests ==>
               id in v.t.requests && v.t.requests[id].acceptedAt == w.t.requests[id].acceptedAt
    requires forall a :: Live(v.t, a) && v.t.agreements[a].versions != {} ==>
               Live(w.t, a) && v.t.agreements[a].versions <= w.t.agreements[a].versions
    ensures Quiet(w, v)
  {
  }

  lemma QuietAccept(w: World, id: Uuid, held: set<Key>, inventory: map<Uuid, Object>, now: Time)
    requires Rows(w) && Live(w.t, id) && Inventories(w, id, held, inventory)
    ensures Quiet(w, AcceptApplied(w, id, held, inventory, now))
  {
    assert RowsOf(w, id);
  }

  lemma QuietLate(w: World, id: Uuid, item: Uuid, late: Object, dropped: set<Uuid>, now: Time)
    requires Inventory(w) && id in w.t.requests && LateItem(w, id, item, late)
    ensures Quiet(w, LateApplied(w, id, item, late, dropped, now))
  {
    assert ItemKept(w, item);
  }

  lemma QuietEnv(tenant: Tenant, w: World, s: EnvStep)
    requires Rows(w) && Inventory(w) && EnvEnabled(tenant, w, s)
    requires !s.Upload? && !s.AddVersion? && !(s.Create? && s.last.Some?)
    ensures Quiet(w, EnvApply(tenant, w, s))
  {
    if s.Accept? {
      QuietAccept(w, s.id, HeldKeys(w, s.id, s.read), s.inventory, s.now);
    } else if s.Late? {
      QuietLate(w, s.id, s.item, s.late, s.dropped, s.now);
    } else if s.UploadTorn? || s.StoreArtifact? {
      QuietPut(tenant, w, s);
    } else {
      QuietPlainly(w, EnvApply(tenant, w, s));
    }
  }

  lemma QuietPut(tenant: Tenant, w: World, s: EnvStep)
    requires EnvEnabled(tenant, w, s) && (s.UploadTorn? || s.StoreArtifact?)
    ensures Quiet(w, EnvApply(tenant, w, s))
  {
    QuietPlainly(w, EnvApply(tenant, w, s));
  }

  lemma QuietClaim(w: World, m: Uuid, token: Uuid, now: Time)
    requires Rows(w) && Inventory(w) && m in w.queue && token !in w.h.issued
    ensures Quiet(w, Claimed(w, m, token, now))
  {
    assert IssuedAs(w, token) && TokenKept(w, token);
    QuietGrant(w, Claimed(w, m, token, now), token);
  }

  lemma QuietGrant(w: World, v: World, token: Uuid)
    requires token !in w.looks && (forall k :: k in w.h.claims ==> k in v.h.claims && v.h.claims[k] == w.h.claims[k])
    requires forall k :: k in v.h.claims && k != token ==> k in w.h.claims
    requires v.looks == w.looks && v.p.archive == w.p.archive && v.stored == w.stored && v.t.registry == w.t.registry
    requires v.t.agreements == w.t.agreements
    requires forall id :: id in w.t.requests ==>
               id in v.t.requests && v.t.requests[id].acceptedAt == w.t.requests[id].acceptedAt
    ensures Quiet(w, v)
  {
  }

  lemma QuietComplete(w: World, token: Uuid, now: Time)
    requires Rows(w) && token in w.h.claims
    ensures Quiet(w, w.(t := CompleteTx(w.t, w.h.claims[token], now)))
  {
    assert RowsOf(w, w.h.claims[token].deletion);
  }

  lemma QuietWorker(tenant: Tenant, w: World, s: WorkerStep)
    requires Rows(w) && Inventory(w) && WorkerEnabled(tenant, w, s)
    requires s.TakeClaim? || s.Skip? || s.Retry? || s.Fail? || s.Complete? || s.Ack?
    ensures Quiet(w, WorkerApply(tenant, w, s))
  {
    if s.Complete? {
      QuietComplete(w, s.token, s.now);
    } else if s.TakeClaim? {
      QuietClaim(w, s.message, s.token, s.now);
    } else {
      QuietPlainWork(tenant, w, s);
    }
  }

  lemma QuietPlainWork(tenant: Tenant, w: World, s: WorkerStep)
    requires WorkerEnabled(tenant, w, s) && (s.Skip? || s.Retry? || s.Fail? || s.Ack?)
    ensures Quiet(w, WorkerApply(tenant, w, s))
  {
    QuietPlainly(w, WorkerApply(tenant, w, s));
  }

  lemma SafetyKeptByWorker(tenant: Tenant, w: World, s: WorkerStep)
    requires Rows(w) && Inventory(w) && Safety(tenant, w) && WorkerEnabled(tenant, w, s)
    requires Ownership(tenant, w)
    ensures Safety(tenant, WorkerApply(tenant, w, s))
  {
    LooksAreSources(tenant, w);
    match s
    case CheckSource(token, item) => SafetyAfterLook(tenant, w, token, item);
    case CloseSource(token, now) => SafetyAfterClose(tenant, w, token, now);
    case CloseSourceTorn(token) => SafetyAfterTorn(tenant, w, token);
    case Wipe(token, item) => SafetyAfterWipe(tenant, w, token, item);
    case MarkDeleted(token, item, now) =>
      QuietMark(w, token, item, now);
      SafetyWhenQuiet(tenant, w, WorkerApply(tenant, w, s));
    case _ =>
      QuietWorker(tenant, w, s);
      SafetyWhenQuiet(tenant, w, WorkerApply(tenant, w, s));
  }

  lemma QuietSweeper(w: World, s: SweeperStep)
    requires SweeperEnabled(w, s)
    ensures Quiet(w, SweeperApply(w, s))
  {
  }

  lemma SafetyKept(tenant: Tenant, w: World, s: Step)
    requires Rows(w) && Inventory(w) && Ownership(tenant, w) && Safety(tenant, w) && Enabled(tenant, w, s)
    ensures Safety(tenant, Apply(tenant, w, s))
  {
    match s
    case Env(e) => SafetyKeptByEnv(tenant, w, e);
    case Worker(x) => SafetyKeptByWorker(tenant, w, x);
    case Sweeper(x) =>
      QuietSweeper(w, x);
      SafetyWhenQuiet(tenant, w, SweeperApply(w, x));
  }

}
