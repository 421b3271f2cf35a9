/** The repair of a row that the migration's backfill froze ends well over every run: any attempts, by any
    workers, with crashes anywhere, and other commits in between. */
module PackageRepairs {
  import opened Prelude
  import opened FinalPackage
  import opened PackageRuns
  import opened PackageConvergence

  /** A repair `p` of the row as it was, under the event `e` that its trigger asks for. */
  datatype Case = Case(p: Prepared, row: Package, e: Event)

  /** The metadata the worker prepared are those the trigger admits for the row the event names. */
  ghost predicate Sound(codec: Codec, c: Case, w: World) {
    && WellPrepared(codec, c.p) && c.row.review == c.p.review && c.e.id == c.p.event
    && c.p.repair == Some(RepairOf(c.row.id, c.row.metadata))
    && c.e.workflow in w.reviews && Admits(c.e, w.reviews[c.e.workflow], c.row, c.row.(metadata := c.p.metadata))
  }

  /** The row is still the old one and its event unprocessed. */
  predicate Unrepaired(c: Case, w: World) {
    && c.p.review in w.packages && w.packages[c.p.review] == c.row
    && c.p.event in w.events && w.events[c.p.event] == c.e
  }

  /** The row has the prepared metadata, both recovery objects are there, and one audit event says so. */
  predicate Repaired(codec: Codec, c: Case, w: World) {
    && c.p.review in w.packages && w.packages[c.p.review] == c.row.(metadata := c.p.metadata)
    && Backed(codec, w.objects, c.p.metadata) && w.audits[Audit(c.row.id, c.p.correlation)] == 1
  }

  /** A commit under way is of this repair and read the old row, or of another event elsewhere. */
  predicate RepairPhase(c: Case, phase: Phase) {
    if phase.p == c.p then phase.existing == Some(c.row) else Elsewhere(phase.p, c.p) && phase.p.event != c.p.event
  }

  ghost predicate RepairReady(codec: Codec, c: Case, w: World) {
    && Sound(codec, c, w) && StorageReady(codec, w.objects, c.p.metadata) && KeysFree(w, c.p.metadata, c.p.review)
    && (Unrepaired(c, w) || Repaired(codec, c, w))
    && (forall x :: x in w.workers ==> RepairPhase(c, w.workers[x]))
  }

  /** Events have different packages: a commit is of this repair, or of another event elsewhere. */
  predicate Permitted(s: Step, c: Case) {
    s.Begin? ==> s.p == c.p || (Elsewhere(s.p, c.p) && s.p.event != c.p.event)
  }

  // ---- one step

  lemma RepairStorageStep(codec: Codec, c: Case, w: World, v: World, worker: nat)
    requires RepairReady(codec, c, w) && Grows(w, v) && v.packages == w.packages && v.audits == w.audits
    requires v.events == w.events && v.reviews == w.reviews && StorageReady(codec, v.objects, c.p.metadata)
    requires forall x :: x in v.workers && x != worker ==> x in w.workers && v.workers[x] == w.workers[x]
    requires worker in v.workers ==> RepairPhase(c, v.workers[worker])
    ensures RepairReady(codec, c, v) && (Repaired(codec, c, w) ==> Repaired(codec, c, v))
  {
    if Repaired(codec, c, w) { BackedGrows(codec, w, v, c.p.metadata); }
  }

  lemma RepairBegins(codec: Codec, c: Case, w: World, worker: nat, q: Prepared)
    requires RepairReady(codec, c, w) && Enabled(codec, w, Begin(worker, q)) && Permitted(Begin(worker, q), c)
    ensures RepairReady(codec, c, Apply(codec, w, Begin(worker, q)))
    ensures Repaired(codec, c, w) ==> Repaired(codec, c, Apply(codec, w, Begin(worker, q)))
  {
    if q == c.p { assert w.packages[q.review] == c.row; }
    RepairStorageStep(codec, c, w, Apply(codec, w, Begin(worker, q)), worker);
  }

  lemma RepairPutsManifest(codec: Codec, c: Case, w: World, worker: nat)
    requires RepairReady(codec, c, w) && worker in w.workers && PhaseKept(codec, w, w.workers[worker])
    requires w.workers[worker].Began?
    ensures var v := Manifested(codec, w, worker, w.workers[worker]);
            RepairReady(codec, c, v) && (Repaired(codec, c, w) ==> Repaired(codec, c, v))
  {
    RepairStorageStep(codec, c, w, Manifested(codec, w, worker, w.workers[worker]), worker);
  }

  lemma RepairPutsReport(codec: Codec, c: Case, w: World, worker: nat)
    requires RepairReady(codec, c, w) && worker in w.workers && PhaseKept(codec, w, w.workers[worker])
    requires w.workers[worker].ManifestThere?
    ensures var v := Reported(codec, w, worker, w.workers[worker]);
            RepairReady(codec, c, v) && (Repaired(codec, c, w) ==> Repaired(codec, c, v))
  {
    RepairStorageStep(codec, c, w, Reported(codec, w, worker, w.workers[worker]), worker);
  }

  /** The writes of a commit of this repair. */
  lemma OwnRepairWrites(codec: Codec, c: Case, w: World, newId: Id)
    requires RepairReady(codec, c, w) && Backed(codec, w.objects, c.p.metadata) && (forall a :: w.audits[a] <= 1)
    requires Written(w, c.p, Some(c.row), newId).Some?
    ensures var v := Written(w, c.p, Some(c.row), newId).value;
            Repaired(codec, c, v) && KeysFree(v, c.p.metadata, c.p.review) && v.workers == w.workers
            && v.objects == w.objects && v.reviews == w.reviews
  {
    if Matches(c.p, c.row) { assert c.row.(metadata := c.p.metadata) == c.row; }
  }

  lemma WritesNoReview(w: World, p: Prepared, existing: Option<Package>, newId: Id)
    ensures Written(w, p, existing, newId).Some? ==> Written(w, p, existing, newId).value.reviews == w.reviews
  {
  }

  /** The writes of a commit of another event. */
  lemma OtherWrites(codec: Codec, c: Case, w: World, v: World, phase: Phase, newId: Id)
    requires RepairReady(codec, c, w) && RepairPhase(c, phase) && phase.p != c.p && (forall a :: w.audits[a] <= 1)
    requires Written(w, phase.p, phase.existing, newId) == Some(v)
    requires phase.p.review in w.packages ==> w.packages[phase.p.review].review == phase.p.review
    ensures KeysFree(v, c.p.metadata, c.p.review) && v.workers == w.workers && v.objects == w.objects
    ensures v.reviews == w.reviews && (Unrepaired(c, w) ==> Unrepaired(c, v))
    ensures Repaired(codec, c, w) ==> Repaired(codec, c, v)
  {
    WritesNoReview(w, phase.p, phase.existing, newId);
    WritesOneRow(w, phase.p, phase.existing, newId);
    ProcessedByWriting(w, phase.p, phase.existing, newId);
    var a :| v.audits == Audited(w.audits, a);
    OtherRow(codec, c, w, v, phase.p, a);
  }

  lemma OtherRow(codec: Codec, c: Case, w: World, v: World, q: Prepared, a: Audit)
    requires KeysFree(w, c.p.metadata, c.p.review) && Elsewhere(q, c.p) && q.event != c.p.event
    requires OneRowWritten(w, v, q) && v.audits == Audited(w.audits, a) && v.events == Processed(w, q.event)
    requires forall x :: w.audits[x] <= 1
    ensures KeysFree(v, c.p.metadata, c.p.review)
    ensures Unrepaired(c, w) ==> Unrepaired(c, v)
    ensures Repaired(codec, c, w) ==> Repaired(codec, c, v)
  {
    AuditedOnce(w.audits, a);
  }

  lemma RepairFinishes(codec: Codec, c: Case, w: World, worker: nat, newId: Id)
    requires RepairReady(codec, c, w) && worker in w.workers && PhaseKept(codec, w, w.workers[worker])
    requires w.workers[worker].BothThere? && (forall a :: w.audits[a] <= 1) && RowsNamed(w)
    ensures var v := Finished(w, worker, w.workers[worker], newId);
            RepairReady(codec, c, v) && (Repaired(codec, c, w) ==> Repaired(codec, c, v))
  {
    var phase := w.workers[worker];
    assert RepairPhase(c, phase);
    var written := Written(w, phase.p, phase.existing, newId);
    if written.Some? {
      if phase.p == c.p {
        OwnRepairWrites(codec, c, w, newId);
      } else {
        OtherWrites(codec, c, w, written.value, phase, newId);
      }
      RepairStorageStep(codec, c, written.value, Ended(written.value, worker), worker);
    } else {
      RepairStorageStep(codec, c, w, Ended(w, worker), worker);
    }
  }

  lemma RepairStepReady(codec: Codec, c: Case, start: World, w: World, s: Step)
    requires RepairReady(codec, c, w) && Kept(codec, start, w) && Enabled(codec, w, s) && Permitted(s, c)
    ensures RepairReady(codec, c, Apply(codec, w, s))
    ensures Repaired(codec, c, w) ==> Repaired(codec, c, Apply(codec, w, s))
  {
    if !s.Begin? { assert PhaseKept(codec, w, w.workers[s.worker]); }
    match s
    case Begin(worker, q) => RepairBegins(codec, c, w, worker, q);
    case PutManifest(worker) => RepairPutsManifest(codec, c, w, worker);
    case PutPdf(worker) => RepairPutsReport(codec, c, w, worker);
    case Finish(worker, newId) =>
      assert forall r :: r in w.packages ==> RowKept(codec, start, w, r);
      RepairFinishes(codec, c, w, worker, newId);
    case Crash(worker) => RepairStorageStep(codec, c, w, Ended(w, worker), worker);
  }

  // ---- whole runs

  ghost predicate RepairStarts(codec: Codec, c: Case, start: World) {
    Fresh(start) && RepairReady(codec, c, start) && forall a :: start.audits[a] <= 1
  }

  lemma {:induction false} RepairRunReady(codec: Codec, c: Case, start: World, steps: seq<Step>)
    requires RepairStarts(codec, c, start) && Legal(codec, start, steps) && (forall s :: s in steps ==> Permitted(s, c))
    ensures RepairReady(codec, c, After(codec, start, steps)) && Kept(codec, start, After(codec, start, steps))
  {
    KeptOverRun(codec, start, steps);
    if steps != [] {
      var n := |steps| - 1;
      RepairRunReady(codec, c, start, steps[..n]);
      RepairStepReady(codec, c, start, After(codec, start, steps[..n]), steps[n]);
    }
  }

  lemma RepairLastStep(codec: Codec, c: Case, start: World, steps: seq<Step>, s: Step)
    requires RepairStarts(codec, c, start) && Legal(codec, start, steps + [s])
    requires (forall t :: t in steps ==> Permitted(t, c)) && Permitted(s, c)
    requires Repaired(codec, c, After(codec, start, steps))
    ensures Repaired(codec, c, After(codec, start, steps + [s]))
  {
    OneMore(codec, start, steps, s);
    RepairRunReady(codec, c, start, steps);
    RepairStepReady(codec, c, start, After(codec, start, steps), s);
  }

  /** Once repaired, the row, its objects and its audit event stay so. */
  lemma {:induction false} RepairedForEver(codec: Codec, c: Case, start: World, steps: seq<Step>, more: seq<Step>)
    requires RepairStarts(codec, c, start) && Legal(codec, start, steps + more)
    requires forall s :: s in steps + more ==> Permitted(s, c)
    requires Repaired(codec, c, After(codec, start, steps))
    ensures Repaired(codec, c, After(codec, start, steps + more))
    decreases |more|
  {
    if more == [] {
      assert steps + more == steps;
    } else {
      var init, s := more[..|more| - 1], more[|more| - 1];
      LastApart(steps, init, s);
      assert more == init + [s];
      OneMore(codec, start, steps + init, s);
      RepairedForEver(codec, c, start, steps, init);
      RepairLastStep(codec, c, start, steps + init, s);
    }
  }

  lemma LastApart(steps: seq<Step>, init: seq<Step>, s: Step)
    ensures steps + (init + [s]) == steps + init + [s]
  {
    AppendIsAssociative(steps, init, [s]);
  }

  /** After any attempts and crashes the row is repaired, or one more commit by an idle worker can run from
      start to end and repairs it; either way with both recovery objects and exactly one audit event. */
  lemma RepairConverges(codec: Codec, c: Case, start: World, steps: seq<Step>, x: nat, newId: Id)
    requires RepairStarts(codec, c, start) && Legal(codec, start, steps) && (forall s :: s in steps ==> Permitted(s, c))
    requires x !in After(codec, start, steps).workers && NewId(After(codec, start, steps), newId)
    ensures Repaired(codec, c, After(codec, start, steps))
            || (Legal(codec, start, steps + FullCommit(c.p, x, newId))
                && Repaired(codec, c, After(codec, start, steps + FullCommit(c.p, x, newId))))
  {
    RepairRunReady(codec, c, start, steps);
    var w := After(codec, start, steps);
    if !Repaired(codec, c, w) {
      FullCommitIs(codec, start, steps, c.p, x, newId);
      FullCommitRepairs(codec, c, w, x, newId);
    }
  }

  lemma FullCommitRepairs(codec: Codec, c: Case, w: World, x: nat, newId: Id)
    requires RepairReady(codec, c, w) && Unrepaired(c, w) && w.audits[Audit(c.row.id, c.p.correlation)] <= 1
    ensures var v := Stocked(codec, w, c.p, x);
            Repaired(codec, c, Finished(v, x, BothThere(c.p, Existing(w, c.p.review)), newId))
  {
    StockedIs(codec, w, c.p, x);
    WriteRepairs(w, Stocked(codec, w, c.p, x), c.p, newId);
  }

  // ---- from the migration on

  /** What the migration leaves: a row of a terminal workflow, the event it backfilled for it, and nothing in
      the way of the two recovery keys. */
  ghost predicate Migrated(codec: Codec, s: Snapshot, row: Package, id: Id, correlation: string, start: World) {
    && IsTerminalState(s.state) && Printable(codec, s, true, id, correlation)
    && row.organization == s.organization && row.workspace == s.workspace && row.review == s.review
    && Fresh(start) && s.review in start.packages && start.packages[s.review] == row
    && id in start.events && start.events[id] == Backfilled(codec, s, Some(row), id, correlation)
    && s.workflow in start.reviews && start.reviews[s.workflow] == s.review && (forall a :: start.audits[a] <= 1)
  }

  /** The repair the worker prepares from the backfilled event. */
  function RepairOfRow(codec: Codec, s: Snapshot, row: Package, id: Id, correlation: string): Case
    requires IsTerminalState(s.state) && Printable(codec, s, true, id, correlation)
  {
    BackfilledPrepares(codec, s, Some(row), id, correlation);
    var e := Backfilled(codec, s, Some(row), id, correlation);
    Case(Prepare(codec, Some(e), s.workflow, correlation).value, row, e)
  }

  lemma MigratedIsReady(codec: Codec, s: Snapshot, row: Package, id: Id, correlation: string, start: World)
    requires Migrated(codec, s, row, id, correlation, start)
    requires var m := RepairOfRow(codec, s, row, id, correlation).p.metadata;
             StorageReady(codec, start.objects, m) && KeysFree(start, m, s.review)
    ensures RepairStarts(codec, RepairOfRow(codec, s, row, id, correlation), start)
  {
    var c := RepairOfRow(codec, s, row, id, correlation);
    BackfilledPrepares(codec, s, Some(row), id, correlation);
    PreparedIsWell(codec, Some(c.e), s.workflow, correlation);
    RepairIsAdmitted(codec, s, row, id, correlation, row);
  }

  /** Every backfilled row ends repaired, whatever happens on the way. */
  lemma BackfilledEndsRepaired(codec: Codec, s: Snapshot, row: Package, id: Id, correlation: string, start: World,
                               steps: seq<Step>, x: nat, newId: Id)
    requires Migrated(codec, s, row, id, correlation, start)
    requires var c := RepairOfRow(codec, s, row, id, correlation);
             && StorageReady(codec, start.objects, c.p.metadata) && KeysFree(start, c.p.metadata, s.review)
             && Legal(codec, start, steps) && (forall t :: t in steps ==> Permitted(t, c))
    requires x !in After(codec, start, steps).workers && NewId(After(codec, start, steps), newId)
    ensures var c := RepairOfRow(codec, s, row, id, correlation);
            || Repaired(codec, c, After(codec, start, steps))
            || (Legal(codec, start, steps + FullCommit(c.p, x, newId))
                && Repaired(codec, c, After(codec, start, steps + FullCommit(c.p, x, newId))))
  {
    MigratedIsReady(codec, s, row, id, correlation, start);
    RepairConverges(codec, RepairOfRow(codec, s, row, id, correlation), start, steps, x, newId);
  }

}
