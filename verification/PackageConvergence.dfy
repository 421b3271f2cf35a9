/** Commits of one frozen package converge; the repair of an old row happens at most once. */
module PackageConvergence {
  import opened Prelude
  import opened FinalPackage
  import opened PackageRuns

  /** Payloads of other events concern other reviews and other object keys. */
  predicate Elsewhere(q: Prepared, p: Prepared) {
    && q.review != p.review
    && {q.metadata.manifestKey, q.metadata.pdfKey} !! {p.metadata.manifestKey, p.metadata.pdfKey}
  }

  predicate Allowed(s: Step, p: Prepared) {
    s.Begin? ==> s.p == p || Elsewhere(s.p, p)
  }

  /** The two objects of p are absent or right. */
  predicate StorageReady(codec: Codec, objects: map<string, Stored>, m: Metadata) {
    && (m.manifestKey in objects ==> Holds(codec, objects, m.manifestKey, m.manifestChecksum, JSON))
    && (m.pdfKey in objects ==> Holds(codec, objects, m.pdfKey, m.pdfChecksum, PDF))
  }

  /** The row of p with both objects and its one audit event. */
  predicate Committed(codec: Codec, w: World, p: Prepared) {
    && p.review in w.packages && Matches(p, w.packages[p.review]) && Backed(codec, w.objects, p.metadata)
    && w.audits[Audit(w.packages[p.review].id, p.correlation)] == 1
  }

  predicate OwnPhase(w: World, p: Prepared, phase: Phase) {
    if phase.p == p then phase.existing.Some? ==> p.review in w.packages && w.packages[p.review] == phase.existing.value
    else Elsewhere(phase.p, p)
  }

  /** Nothing in the way of p: objects and row are absent or right, and every commit under way is of p or elsewhere. */
  ghost predicate Ready(codec: Codec, w: World, p: Prepared) {
    && WellPrepared(codec, p) && p.repair.None?
    && StorageReady(codec, w.objects, p.metadata) && KeysFree(w, p.metadata, p.review)
    && (p.review in w.packages ==> Committed(codec, w, p))
    && (forall x :: x in w.workers ==> OwnPhase(w, p, w.workers[x]) && PhaseKept(codec, w, w.workers[x]))
  }

  /** What a step may do to p: nothing once it is committed. */
  predicate Undisturbed(w: World, v: World, p: Prepared) {
    && Grows(w, v)
    && (p.review in w.packages ==>
          && p.review in v.packages && v.packages[p.review] == w.packages[p.review]
          && v.audits[Audit(w.packages[p.review].id, p.correlation)] ==
             w.audits[Audit(w.packages[p.review].id, p.correlation)])
  }

  // ---- one step

  lemma StorageStepReady(codec: Codec, w: World, v: World, p: Prepared, worker: nat)
    requires Ready(codec, w, p) && Grows(w, v) && v.packages == w.packages && v.audits == w.audits
    requires StorageReady(codec, v.objects, p.metadata)
    requires forall x :: x in v.workers && x != worker ==> x in w.workers && v.workers[x] == w.workers[x]
    requires worker in v.workers ==> OwnPhase(v, p, v.workers[worker]) && PhaseKept(codec, v, v.workers[worker])
    ensures Ready(codec, v, p)
  {
    forall x | x in v.workers ensures OwnPhase(v, p, v.workers[x]) && PhaseKept(codec, v, v.workers[x]) {
      if x != worker {
        assert OwnPhase(w, p, w.workers[x]);
        PhaseGrows(codec, w, v, w.workers[x]);
      }
    }
    if p.review in w.packages {
      BackedGrows(codec, w, v, p.metadata);
    }
  }

  lemma BeginReady(codec: Codec, w: World, p: Prepared, worker: nat, q: Prepared)
    requires Ready(codec, w, p) && Enabled(codec, w, Begin(worker, q)) && (q == p || Elsewhere(q, p))
    requires forall r :: r in w.packages ==> w.packages[r].review == r
    ensures Ready(codec, Apply(codec, w, Begin(worker, q)), p)
  {
    StorageStepReady(codec, w, Apply(codec, w, Begin(worker, q)), p, worker);
  }

  lemma ManifestReady(codec: Codec, w: World, p: Prepared, worker: nat)
    requires Ready(codec, w, p) && worker in w.workers && w.workers[worker].Began?
    ensures Ready(codec, Manifested(codec, w, worker, w.workers[worker]), p)
    ensures Grows(w, Manifested(codec, w, worker, w.workers[worker]))
  {
    assert OwnPhase(w, p, w.workers[worker]) && PhaseKept(codec, w, w.workers[worker]);
    StorageStepReady(codec, w, Manifested(codec, w, worker, w.workers[worker]), p, worker);
  }

  lemma ReportReady(codec: Codec, w: World, p: Prepared, worker: nat)
    requires Ready(codec, w, p) && worker in w.workers && w.workers[worker].ManifestThere?
    ensures Ready(codec, Reported(codec, w, worker, w.workers[worker]), p)
    ensures Grows(w, Reported(codec, w, worker, w.workers[worker]))
  {
    assert OwnPhase(w, p, w.workers[worker]) && PhaseKept(codec, w, w.workers[worker]);
    StorageStepReady(codec, w, Reported(codec, w, worker, w.workers[worker]), p, worker);
  }

  predicate NewId(w: World, id: Id) {
    (forall r :: r in w.packages ==> w.packages[r].id != id) && (forall a :: a in w.audits ==> a.package != id)
  }

  lemma OwnWriteReady(codec: Codec, w: World, p: Prepared, existing: Option<Package>, newId: Id)
    requires Ready(codec, w, p) && NewId(w, newId) && Backed(codec, w.objects, p.metadata)
    requires existing.Some? ==> p.review in w.packages && w.packages[p.review] == existing.value
    requires Written(w, p, existing, newId).Some?
    ensures var v := Written(w, p, existing, newId).value;
            Committed(codec, v, p) && KeysFree(v, p.metadata, p.review) && Undisturbed(w, v, p)
  {
    var v := Written(w, p, existing, newId).value;
    if existing.None? {
      assert Audit(newId, p.correlation) !in w.audits;
      assert v.packages[p.review] == Package(newId, p.organization, p.workspace, p.review, p.metadata);
    }
  }

  lemma OtherWriteReady(codec: Codec, w: World, p: Prepared, q: Prepared, existing: Option<Package>, newId: Id)
    requires Ready(codec, w, p) && NewId(w, newId) && Elsewhere(q, p)
    requires Written(w, q, existing, newId).Some?
    requires q.review in w.packages ==> w.packages[q.review].review == q.review
    ensures var v := Written(w, q, existing, newId).value;
            KeysFree(v, p.metadata, p.review) && Undisturbed(w, v, p)
              && (p.review in v.packages ==> Committed(codec, v, p))
  {
    WritesOneRow(w, q, existing, newId);
    var v := Written(w, q, existing, newId).value;
    var a :| v.audits == Audited(w.audits, a);
    OneOtherRow(codec, w, v, p, q, a);
  }

  lemma OneOtherRow(codec: Codec, w: World, v: World, p: Prepared, q: Prepared, a: Audit)
    requires Ready(codec, w, p) && Elsewhere(q, p) && OneRowWritten(w, v, q) && v.audits == Audited(w.audits, a)
    ensures KeysFree(v, p.metadata, p.review) && Undisturbed(w, v, p)
            && (p.review in v.packages ==> Committed(codec, v, p))
  {
  }

  lemma FinishReady(codec: Codec, w: World, p: Prepared, worker: nat, newId: Id)
    requires Ready(codec, w, p) && NewId(w, newId) && worker in w.workers && w.workers[worker].BothThere?
    requires forall r :: r in w.packages ==> w.packages[r].review == r
    ensures Ready(codec, Finished(w, worker, w.workers[worker], newId), p)
    ensures Undisturbed(w, Finished(w, worker, w.workers[worker], newId), p)
  {
    var phase := w.workers[worker];
    assert OwnPhase(w, p, phase) && PhaseKept(codec, w, phase);
    var written := Written(w, phase.p, phase.existing, newId);
    if written.Some? {
      if phase.p == p {
        OwnWriteReady(codec, w, p, phase.existing, newId);
      } else {
        OtherWriteReady(codec, w, p, phase.p, phase.existing, newId);
      }
      var v := written.value;
      assert v.objects == w.objects && v.workers == w.workers by {
        WritesOneRow(w, phase.p, phase.existing, newId);
      }
      forall x | x in v.workers ensures OwnPhase(v, p, v.workers[x]) && PhaseKept(codec, v, v.workers[x]) {
        assert OwnPhase(w, p, w.workers[x]);
        PhaseGrows(codec, w, v, w.workers[x]);
      }
      StorageStepReady(codec, v, Ended(v, worker), p, worker);
    } else {
      StorageStepReady(codec, w, Ended(w, worker), p, worker);
    }
  }

  predicate RowsNamed(w: World) {
    forall r :: r in w.packages ==> w.packages[r].review == r
  }

  /** Every step keeps the way clear for p, and none changes a committed p. */
  lemma StepReady(codec: Codec, w: World, p: Prepared, s: Step)
    requires Ready(codec, w, p) && RowsNamed(w) && Enabled(codec, w, s) && Allowed(s, p)
    ensures Ready(codec, Apply(codec, w, s), p) && Undisturbed(w, Apply(codec, w, s), p)
  {
    match s
    case Begin(worker, q) => BeginReady(codec, w, p, worker, q);
    case PutManifest(worker) => ManifestReady(codec, w, p, worker);
    case PutPdf(worker) => ReportReady(codec, w, p, worker);
    case Finish(worker, newId) => FinishReady(codec, w, p, worker, newId);
    case Crash(worker) => StorageStepReady(codec, w, Ended(w, worker), p, worker);
  }

  // ---- whole runs

  ghost predicate Starts(codec: Codec, start: World, p: Prepared) {
    Fresh(start) && Ready(codec, start, p) && forall a :: start.audits[a] <= 1
  }

  lemma RunKeepsRowsNamed(codec: Codec, start: World, steps: seq<Step>)
    requires Fresh(start) && Legal(codec, start, steps) && (forall a :: start.audits[a] <= 1)
    ensures RowsNamed(After(codec, start, steps))
  {
    KeptOverRun(codec, start, steps);
    var w := After(codec, start, steps);
    forall r | r in w.packages ensures w.packages[r].review == r {
      assert RowKept(codec, start, w, r);
    }
  }

  lemma {:induction false} RunReady(codec: Codec, start: World, p: Prepared, steps: seq<Step>)
    requires Starts(codec, start, p) && Legal(codec, start, steps) && (forall s :: s in steps ==> Allowed(s, p))
    ensures Ready(codec, After(codec, start, steps), p)
  {
    if steps != [] {
      var n := |steps| - 1;
      RunReady(codec, start, p, steps[..n]);
      RunKeepsRowsNamed(codec, start, steps[..n]);
      StepReady(codec, After(codec, start, steps[..n]), p, steps[n]);
    }
  }

  /** One commit from start to end. */
  function FullCommit(p: Prepared, x: nat, newId: Id): seq<Step> {
    [Begin(x, p), PutManifest(x), PutPdf(x), Finish(x, newId)]
  }

  /** The world when a commit has both objects in place. */
  function Stocked(codec: Codec, w: World, p: Prepared, x: nat): World {
    var began := Apply(codec, w, Begin(x, p));
    var manifest := Manifested(codec, began, x, Began(p, Existing(w, p.review)));
    Reported(codec, manifest, x, ManifestThere(p, Existing(w, p.review)))
  }

  lemma StockedIs(codec: Codec, w: World, p: Prepared, x: nat)
    requires WellPrepared(codec, p) && StorageReady(codec, w.objects, p.metadata)
    ensures var v := Stocked(codec, w, p, x);
            && x in v.workers && v.workers[x] == BothThere(p, Existing(w, p.review))
               && Backed(codec, v.objects, p.metadata)
            && v.packages == w.packages && v.audits == w.audits && v.events == w.events && v.reviews == w.reviews
            && StorageReady(codec, v.objects, p.metadata)
  {
  }

  lemma OneMore(codec: Codec, w: World, steps: seq<Step>, s: Step)
    ensures After(codec, w, steps + [s]) == Apply(codec, After(codec, w, steps), s)
    ensures Legal(codec, w, steps + [s]) <==> Legal(codec, w, steps) && Enabled(codec, After(codec, w, steps), s)
  {
    assert (steps + [s])[..|steps|] == steps;
  }

  lemma FourMore(codec: Codec, w: World, steps: seq<Step>, a: Step, b: Step, c: Step, d: Step)
    ensures var v0 := After(codec, w, steps);
            var v1 := Apply(codec, v0, a);
            var v2 := Apply(codec, v1, b);
            var v3 := Apply(codec, v2, c);
            && After(codec, w, steps + [a, b, c, d]) == Apply(codec, v3, d)
            && (Legal(codec, w, steps + [a, b, c, d]) <==>
                  && Legal(codec, w, steps) && Enabled(codec, v0, a) && Enabled(codec, v1, b)
                  && Enabled(codec, v2, c) && Enabled(codec, v3, d))
  {
    OneMore(codec, w, steps, a);
    OneMore(codec, w, steps + [a], b);
    OneMore(codec, w, steps + [a] + [b], c);
    OneMore(codec, w, steps + [a] + [b] + [c], d);
    assert steps + [a, b, c, d] == steps + [a] + [b] + [c] + [d];
  }

  /** A full commit that finds its checks passed and its objects absent or right is a run of its four
      steps: none is refused before its database writes. */
  lemma FullCommitIs(codec: Codec, start: World, steps: seq<Step>, p: Prepared, x: nat, newId: Id)
    requires var w := After(codec, start, steps);
             && WellPrepared(codec, p) && StorageReady(codec, w.objects, p.metadata)
             && Checks(p, Existing(w, p.review)) && x !in w.workers && NewId(w, newId)
    ensures Legal(codec, start, steps) ==> Legal(codec, start, steps + FullCommit(p, x, newId))
    ensures var w := After(codec, start, steps);
            After(codec, start, steps + FullCommit(p, x, newId)) ==
              Finished(Stocked(codec, w, p, x), x, BothThere(p, Existing(w, p.review)), newId)
  {
    FullCommitRuns(codec, After(codec, start, steps), p, x, newId);
    FourMore(codec, start, steps, Begin(x, p), PutManifest(x), PutPdf(x), Finish(x, newId));
  }

  lemma FullCommitRuns(codec: Codec, w: World, p: Prepared, x: nat, newId: Id)
    requires WellPrepared(codec, p) && StorageReady(codec, w.objects, p.metadata)
    requires Checks(p, Existing(w, p.review)) && x !in w.workers && NewId(w, newId)
    ensures var v1 := Apply(codec, w, Begin(x, p));
            var v2 := Apply(codec, v1, PutManifest(x));
            var v3 := Apply(codec, v2, PutPdf(x));
            && Enabled(codec, w, Begin(x, p)) && Enabled(codec, v1, PutManifest(x)) && Enabled(codec, v2, PutPdf(x))
            && Enabled(codec, v3, Finish(x, newId)) && v3 == Stocked(codec, w, p, x)
            && Apply(codec, v3, Finish(x, newId)) == Finished(v3, x, BothThere(p, Existing(w, p.review)), newId)
  {
    StockedIs(codec, w, p, x);
  }

  /** Convergence: after any number of commits of p and of other packages, by any workers and with crashes
      at any point, one more commit of p by an idle worker can run from start to end, and ends with its
      row, both objects and exactly one audit event. */
  lemma Converges(codec: Codec, start: World, p: Prepared, steps: seq<Step>, x: nat, newId: Id)
    requires Starts(codec, start, p) && Legal(codec, start, steps) && (forall s :: s in steps ==> Allowed(s, p))
    requires NewId(After(codec, start, steps), newId) && x !in After(codec, start, steps).workers
    ensures Legal(codec, start, steps + FullCommit(p, x, newId))
    ensures Committed(codec, After(codec, start, steps + FullCommit(p, x, newId)), p)
  {
    var w := After(codec, start, steps);
    RunReady(codec, start, p, steps);
    RunKeepsRowsNamed(codec, start, steps);
    FullCommitIs(codec, start, steps, p, x, newId);
    StockedIs(codec, w, p, x);
    WriteConverges(codec, w, Stocked(codec, w, p, x), p, newId);
  }

  /** The database writes of that commit. */
  lemma WriteConverges(codec: Codec, w: World, v: World, p: Prepared, newId: Id)
    requires Ready(codec, w, p) && NewId(w, newId) && Backed(codec, v.objects, p.metadata)
    requires v.packages == w.packages && v.audits == w.audits && v.events == w.events && v.reviews == w.reviews
    ensures Written(v, p, Existing(w, p.review), newId).Some?
    ensures Committed(codec, Written(v, p, Existing(w, p.review), newId).value, p)
  {
    if p.review !in w.packages {
      assert Audit(newId, p.correlation) !in v.audits;
    }
  }

  lemma UndisturbedJoins(u: World, v: World, w: World, p: Prepared)
    requires Undisturbed(u, v, p) && Undisturbed(v, w, p)
    ensures Undisturbed(u, w, p)
  {
  }

  /** Once p is committed, no later step of any worker changes its row, its objects or its audit event. */
  lemma {:induction false} CommittedForEver(codec: Codec, start: World, p: Prepared, steps: seq<Step>, i: nat)
    requires Starts(codec, start, p) && Legal(codec, start, steps) && (forall s :: s in steps ==> Allowed(s, p))
    requires i <= |steps|
    ensures Undisturbed(After(codec, start, steps[..i]), After(codec, start, steps), p)
    ensures p.review in After(codec, start, steps[..i]).packages ==> Committed(codec, After(codec, start, steps), p)
  {
    RunReady(codec, start, p, steps);
    if i == |steps| {
      assert steps[..i] == steps;
    } else {
      var n := |steps| - 1;
      assert steps[..n][..i] == steps[..i];
      CommittedForEver(codec, start, p, steps[..n], i);
      LastStep(codec, start, p, steps);
      UndisturbedJoins(After(codec, start, steps[..i]), After(codec, start, steps[..n]), After(codec, start, steps), p);
    }
  }

  lemma LastStep(codec: Codec, start: World, p: Prepared, steps: seq<Step>)
    requires Starts(codec, start, p) && Legal(codec, start, steps) && (forall s :: s in steps ==> Allowed(s, p))
             && steps != []
    ensures Undisturbed(After(codec, start, steps[..|steps| - 1]), After(codec, start, steps), p)
  {
    var n := |steps| - 1;
    RunReady(codec, start, p, steps[..n]);
    RunKeepsRowsNamed(codec, start, steps[..n]);
    StepReady(codec, After(codec, start, steps[..n]), p, steps[n]);
  }

  /** With a collision-free hash the objects hold the frozen bytes themselves. */
  lemma FrozenBytes(codec: Codec, w: World, p: Prepared)
    requires (forall a, b :: codec.hash(a) == codec.hash(b) ==> a == b) && WellPrepared(codec, p)
             && Committed(codec, w, p)
    ensures w.objects[p.metadata.manifestKey].content == p.manifestContent
            && w.objects[p.metadata.pdfKey].content == p.pdfContent
  {
  }

  // ---- repairs

  /** The step that changes an existing row. */
  predicate RepairStep(w: World, s: Step, event: Id) {
    && s.Finish? && s.worker in w.workers
    && var phase := w.workers[s.worker];
       && phase.p.event == event && phase.existing.Some? && !Matches(phase.p, phase.existing.value)
       && Repairs(w, phase.p, phase.existing.value)
  }

  /** A row never disappears, and only a repair changes it: from exactly the metadata its event records as the
      legacy ones, to exactly the prepared ones. */
  lemma OnlyARepairChangesARow(codec: Codec, w: World, s: Step, r: Id)
    requires Enabled(codec, w, s) && RowsNamed(w) && r in w.packages
    ensures var v := Apply(codec, w, s);
            && r in v.packages
            && (v.packages[r] != w.packages[r] ==>
                  && s.Finish? && RepairStep(w, s, w.workers[s.worker].p.event)
                  && var p := w.workers[s.worker].p;
                     var e := w.events[p.event];
                     && p.review == r && e.frozen.value.repair.value.legacy == Some(w.packages[r].metadata)
                     && v.packages[r] == w.packages[r].(metadata := p.metadata))
  {
  }

  lemma RepairUsesUpItsEvent(codec: Codec, w: World, s: Step, event: Id)
    requires RepairStep(w, s, event)
    ensures event in w.events && !w.events[event].processed
    ensures event in Apply(codec, w, s).events && Apply(codec, w, s).events[event].processed
  {
  }

  lemma ProcessedByWriting(w: World, p: Prepared, existing: Option<Package>, newId: Id)
    ensures var written := Written(w, p, existing, newId);
            written.Some? ==> written.value.events == Processed(w, p.event)
  {
  }

  lemma ProcessedStays(codec: Codec, w: World, s: Step, event: Id)
    requires event in w.events && w.events[event].processed
    ensures event in Apply(codec, w, s).events && Apply(codec, w, s).events[event].processed
  {
    if s.Finish? && s.worker in w.workers {
      var phase := w.workers[s.worker];
      ProcessedByWriting(w, phase.p, phase.existing, s.newId);
    } else {
      assert Apply(codec, w, s).events == w.events;
    }
  }

  lemma {:induction false} ProcessedForEver(codec: Codec, start: World, steps: seq<Step>, i: nat, event: Id)
    requires i <= |steps|
    requires event in After(codec, start, steps[..i]).events && After(codec, start, steps[..i]).events[event].processed
    ensures event in After(codec, start, steps).events && After(codec, start, steps).events[event].processed
    decreases |steps| - i
  {
    if i < |steps| {
      assert steps[..i + 1][..i] == steps[..i];
      ProcessedStays(codec, After(codec, start, steps[..i]), steps[i], event);
      ProcessedForEver(codec, start, steps, i + 1, event);
    } else {
      assert steps[..i] == steps;
    }
  }

  /** In any run, an event repairs a row at most once. */
  lemma RepairedAtMostOnce(codec: Codec, start: World, steps: seq<Step>, i: nat, j: nat, event: Id)
    requires i < j < |steps| && RepairStep(After(codec, start, steps[..i]), steps[i], event)
    ensures !RepairStep(After(codec, start, steps[..j]), steps[j], event)
  {
    assert steps[..i + 1][..i] == steps[..i];
    RepairUsesUpItsEvent(codec, After(codec, start, steps[..i]), steps[i], event);
    assert steps[..j][..i + 1] == steps[..i + 1];
    ProcessedForEver(codec, start, steps[..j], i + 1, event);
    if RepairStep(After(codec, start, steps[..j]), steps[j], event) {
      RepairUsesUpItsEvent(codec, After(codec, start, steps[..j]), steps[j], event);
    }
  }

  /** The repair of a backfilled event succeeds on the row it was built for: a commit by an idle worker
      can run from start to end, and moves the row to the prepared metadata, with both recovery objects
      in place and exactly one audit event. */
  lemma RepairSucceeds(codec: Codec, w: World, p: Prepared, x: nat, newId: Id)
    requires WellPrepared(codec, p) && StorageReady(codec, w.objects, p.metadata) && KeysFree(w, p.metadata, p.review)
    requires p.review in w.packages && Checks(p, Some(w.packages[p.review])) && p.repair.Some?
    requires x !in w.workers && NewId(w, newId) && w.audits[Audit(w.packages[p.review].id, p.correlation)] <= 1
    requires p.event in w.events && w.events[p.event].workflow in w.reviews
    requires Admits(w.events[p.event], w.reviews[w.events[p.event].workflow], w.packages[p.review],
                    w.packages[p.review].(metadata := p.metadata))
    ensures Legal(codec, w, FullCommit(p, x, newId))
    ensures var v := After(codec, w, FullCommit(p, x, newId));
            && p.review in v.packages && v.packages[p.review] == w.packages[p.review].(metadata := p.metadata)
            && Backed(codec, v.objects, p.metadata)
            && v.audits[Audit(v.packages[p.review].id, p.correlation)] == 1
  {
    FullCommitIs(codec, w, [], p, x, newId);
    assert [] + FullCommit(p, x, newId) == FullCommit(p, x, newId);
    StockedIs(codec, w, p, x);
    WriteRepairs(w, Stocked(codec, w, p, x), p, newId);
  }

  lemma WriteRepairs(w: World, v: World, p: Prepared, newId: Id)
    requires v.packages == w.packages && v.audits == w.audits && v.events == w.events && v.reviews == w.reviews
    requires KeysFree(w, p.metadata, p.review) && p.review in w.packages
    requires Checks(p, Some(w.packages[p.review])) && p.repair.Some?
    requires w.audits[Audit(w.packages[p.review].id, p.correlation)] <= 1
    requires p.event in w.events && w.events[p.event].workflow in w.reviews
    requires Admits(w.events[p.event], w.reviews[w.events[p.event].workflow], w.packages[p.review],
                    w.packages[p.review].(metadata := p.metadata))
    ensures var written := Written(v, p, Some(w.packages[p.review]), newId);
            && written.Some? && written.value.objects == v.objects
            && written.value.packages == w.packages[p.review := w.packages[p.review].(metadata := p.metadata)]
            && written.value.audits[Audit(w.packages[p.review].id, p.correlation)] == 1
  {
    if Matches(p, w.packages[p.review]) {
      assert w.packages[p.review].(metadata := p.metadata) == w.packages[p.review];
    }
  }

}
