/** Commits of final packages by any number of workers, with crashes after any storage write. */
module PackageRuns {
  import opened Prelude
  import opened FinalPackage

  datatype Stored = Stored(content: string, contentType: string)
  datatype Audit = Audit(package: Id, correlation: string)

  /** How far a commit has come, and the row it read at its start. */
  datatype Phase =
    | Began(p: Prepared, existing: Option<Package>)
    | ManifestThere(p: Prepared, existing: Option<Package>)
    | BothThere(p: Prepared, existing: Option<Package>)

  /** The review a workflow belongs to is `reviews[workflow]`. Package rows are keyed by their review,
      which is unique. */
  datatype World = World(objects: map<string, Stored>, packages: map<Id, Package>, audits: multiset<Audit>,
                         events: map<Id, Event>, reviews: map<Id, Id>, workers: map<nat, Phase>)

  datatype Step =
    | Begin(worker: nat, p: Prepared)
    | PutManifest(worker: nat)
    | PutPdf(worker: nat)
    | Finish(worker: nat, newId: Id)
    | Crash(worker: nat)

  // ---- one step

  /** `_ensure_object` accepts what is there only with the same type and checksum. */
  predicate Holds(codec: Codec, objects: map<string, Stored>, key: string, checksum: string, contentType: string) {
    key in objects && objects[key].contentType == contentType && codec.hash(objects[key].content) == checksum
  }

  /** Create if absent. */
  function Ensured(objects: map<string, Stored>, key: string, content: string, contentType: string)
    : map<string, Stored>
  {
    if key in objects then objects else objects[key := Stored(content, contentType)]
  }

  function Existing(w: World, review: Id): Option<Package> {
    if review in w.packages then Some(w.packages[review]) else None
  }

  function Audited(audits: multiset<Audit>, a: Audit): multiset<Audit> {
    if a in audits then audits else audits + multiset{a}
  }

  /** The unique object keys of the package table. */
  predicate KeysFree(w: World, m: Metadata, review: Id) {
    forall r :: r in w.packages && r != review ==>
      w.packages[r].metadata.manifestKey != m.manifestKey && w.packages[r].metadata.pdfKey != m.pdfKey
  }

  /** The repair's UPDATE: its WHERE clause and the trigger. */
  predicate Repairs(w: World, p: Prepared, read: Package) {
    && p.repair.Some? && p.review in w.packages && p.event in w.events && KeysFree(w, p.metadata, p.review)
    && var row := w.packages[p.review];
       && row.id == p.repair.value.package
       && row.metadata.manifestKey == read.metadata.manifestKey && row.metadata.pdfKey == read.metadata.pdfKey
       && row.metadata.manifestChecksum == read.metadata.manifestChecksum
          && row.metadata.pdfChecksum == read.metadata.pdfChecksum
       && w.events[p.event].workflow in w.reviews
       && Admits(w.events[p.event], w.reviews[w.events[p.event].workflow], row, row.(metadata := p.metadata))
  }

  function Processed(w: World, event: Id): map<Id, Event> {
    if event in w.events then w.events[event := w.events[event].(processed := true)] else w.events
  }

  /** The database writes of a commit; None when a constraint, the WHERE clause or the trigger stops them. */
  function Written(w: World, p: Prepared, existing: Option<Package>, newId: Id): Option<World> {
    if existing.None? then
      if p.review in w.packages || !KeysFree(w, p.metadata, p.review) then None
      else
        var row := Package(newId, p.organization, p.workspace, p.review, p.metadata);
        Some(w.(packages := w.packages[p.review := row], audits := Audited(w.audits, Audit(newId, p.correlation)),
          events := Processed(w, p.event)))
    else if Matches(p, existing.value) then
      Some(w.(audits := Audited(w.audits, Audit(existing.value.id, p.correlation)), events := Processed(w, p.event)))
    else if Repairs(w, p, existing.value) then
      var row := w.packages[p.review].(metadata := p.metadata);
      Some(w.(packages := w.packages[p.review := row],
        audits := Audited(w.audits, Audit(existing.value.id, p.correlation)), events := Processed(w, p.event)))
    else None
  }

  function Ended(w: World, worker: nat): World {
    w.(workers := w.workers - {worker})
  }

  ghost predicate Enabled(codec: Codec, w: World, s: Step) {
    match s
    case Begin(worker, p) => worker !in w.workers && WellPrepared(codec, p) && Checks(p, Existing(w, p.review))
    case PutManifest(worker) => worker in w.workers && w.workers[worker].Began?
    case PutPdf(worker) => worker in w.workers && w.workers[worker].ManifestThere?
    case Finish(worker, newId) =>
      && worker in w.workers && w.workers[worker].BothThere?
      && (forall r :: r in w.packages ==> w.packages[r].id != newId)
      && (forall a :: a in w.audits ==> a.package != newId)
    case Crash(worker) => worker in w.workers
  }

  function Manifested(codec: Codec, w: World, worker: nat, phase: Phase): World {
    var m := phase.p.metadata;
    var objects := Ensured(w.objects, m.manifestKey, phase.p.manifestContent, JSON);
    if Holds(codec, objects, m.manifestKey, m.manifestChecksum, JSON)
    then w.(objects := objects, workers := w.workers[worker := ManifestThere(phase.p, phase.existing)])
    else Ended(w, worker)
  }

  function Reported(codec: Codec, w: World, worker: nat, phase: Phase): World {
    var m := phase.p.metadata;
    var objects := Ensured(w.objects, m.pdfKey, phase.p.pdfContent, PDF);
    if Holds(codec, objects, m.pdfKey, m.pdfChecksum, PDF)
    then w.(objects := objects, workers := w.workers[worker := BothThere(phase.p, phase.existing)])
    else Ended(w, worker)
  }

  function Finished(w: World, worker: nat, phase: Phase, newId: Id): World {
    var written := Written(w, phase.p, phase.existing, newId);
    Ended(if written.Some? then written.value else w, worker)
  }

  function Apply(codec: Codec, w: World, s: Step): World {
    if s.Begin? then w.(workers := w.workers[s.worker := Began(s.p, Existing(w, s.p.review))])
    else if s.worker !in w.workers then w
    else match s
      case PutManifest(worker) => Manifested(codec, w, worker, w.workers[worker])
      case PutPdf(worker) => Reported(codec, w, worker, w.workers[worker])
      case Finish(worker, newId) => Finished(w, worker, w.workers[worker], newId)
      case Crash(worker) => Ended(w, worker)
  }

  ghost predicate Legal(codec: Codec, start: World, steps: seq<Step>) {
    steps == [] ||
    var n := |steps| - 1;
    Legal(codec, start, steps[..n]) && Enabled(codec, After(codec, start, steps[..n]), steps[n])
  }

  function After(codec: Codec, start: World, steps: seq<Step>): World {
    if steps == [] then start else Apply(codec, After(codec, start, steps[..|steps| - 1]), steps[|steps| - 1])
  }

  // ---- every row is backed by its objects

  /** Both objects of a row are there, of the right types and with the row's checksums. */
  predicate Backed(codec: Codec, objects: map<string, Stored>, m: Metadata) {
    && Holds(codec, objects, m.manifestKey, m.manifestChecksum, JSON)
    && Holds(codec, objects, m.pdfKey, m.pdfChecksum, PDF)
  }

  ghost predicate PhaseKept(codec: Codec, w: World, phase: Phase) {
    && WellPrepared(codec, phase.p)
    && (phase.existing.Some? ==> phase.existing.value.review == phase.p.review)
    && (phase.ManifestThere? || phase.BothThere? ==>
       Holds(codec, w.objects, phase.p.metadata.manifestKey, phase.p.metadata.manifestChecksum, JSON))
    && (phase.BothThere? ==> Holds(codec, w.objects, phase.p.metadata.pdfKey, phase.p.metadata.pdfChecksum, PDF))
  }

  /** Rows as they were at the start, or backed; audit events without repetition. */
  ghost predicate RowKept(codec: Codec, start: World, w: World, r: Id)
    requires r in w.packages
  {
    && w.packages[r].review == r
    && ((r in start.packages && w.packages[r] == start.packages[r]) || Backed(codec, w.objects, w.packages[r].metadata))
  }

  ghost predicate Kept(codec: Codec, start: World, w: World) {
    && (forall r :: r in w.packages ==> RowKept(codec, start, w, r))
    && (forall x :: x in w.workers ==> PhaseKept(codec, w, w.workers[x]))
    && (forall a :: w.audits[a] <= 1)
  }

  predicate Fresh(start: World) {
    && start.workers == map[]
    && (forall r :: r in start.packages ==> start.packages[r].review == r)
  }

  /** Objects are only ever added. */
  predicate Grows(v: World, w: World) {
    forall k :: k in v.objects ==> k in w.objects && w.objects[k] == v.objects[k]
  }

  lemma BackedGrows(codec: Codec, v: World, w: World, m: Metadata)
    requires Grows(v, w) && Backed(codec, v.objects, m)
    ensures Backed(codec, w.objects, m)
  {
  }

  lemma PhaseGrows(codec: Codec, v: World, w: World, phase: Phase)
    requires Grows(v, w) && PhaseKept(codec, v, phase)
    ensures PhaseKept(codec, w, phase)
  {
  }

  /** A step that leaves the rows alone and gives at most one worker a new phase. */
  lemma StorageStepKeeps(codec: Codec, start: World, v: World, w: World, worker: nat)
    requires Kept(codec, start, v) && Grows(v, w) && w.packages == v.packages && w.audits == v.audits
    requires forall x :: x in w.workers && x != worker ==> x in v.workers && w.workers[x] == v.workers[x]
    requires worker in w.workers ==> PhaseKept(codec, w, w.workers[worker])
    ensures Kept(codec, start, w)
  {
    forall x | x in w.workers ensures PhaseKept(codec, w, w.workers[x]) {
      if x != worker {
        PhaseGrows(codec, v, w, v.workers[x]);
      }
    }
    forall r | r in w.packages ensures RowKept(codec, start, w, r) {
      assert RowKept(codec, start, v, r);
      if Backed(codec, v.objects, v.packages[r].metadata) {
        BackedGrows(codec, v, w, v.packages[r].metadata);
      }
    }
  }

  lemma AuditedOnce(audits: multiset<Audit>, a: Audit)
    requires forall x :: audits[x] <= 1
    ensures forall x :: Audited(audits, a)[x] <= 1
  {
  }

  /** Storage and the other rows are untouched; the row of the review stays, or is now the prepared one. */
  ghost predicate OneRowWritten(w: World, v: World, p: Prepared) {
    && v.objects == w.objects && v.workers == w.workers
    && (forall r :: r != p.review ==> (r in v.packages <==> r in w.packages))
    && (forall r :: r != p.review && r in w.packages ==> v.packages[r] == w.packages[r])
    && (p.review in v.packages ==>
          || (p.review in w.packages && v.packages[p.review] == w.packages[p.review])
          || (v.packages[p.review].review == p.review && v.packages[p.review].metadata == p.metadata))
  }

  lemma WritesOneRow(w: World, p: Prepared, existing: Option<Package>, newId: Id)
    requires Written(w, p, existing, newId).Some?
    requires p.review in w.packages ==> w.packages[p.review].review == p.review
    ensures var v := Written(w, p, existing, newId).value;
            OneRowWritten(w, v, p) && exists a :: v.audits == Audited(w.audits, a)
  {
    var v := Written(w, p, existing, newId).value;
    var a := Audit(if existing.Some? then existing.value.id else newId, p.correlation);
    assert v.audits == Audited(w.audits, a);
  }

  lemma FinishKeeps(codec: Codec, start: World, w: World, worker: nat, newId: Id)
    requires Kept(codec, start, w) && worker in w.workers && w.workers[worker].BothThere?
    ensures Kept(codec, start, Finished(w, worker, w.workers[worker], newId))
  {
    var phase := w.workers[worker];
    assert PhaseKept(codec, w, phase);
    if phase.p.review in w.packages {
      assert RowKept(codec, start, w, phase.p.review);
    }
    var written := Written(w, phase.p, phase.existing, newId);
    if written.Some? {
      WritesOneRow(w, phase.p, phase.existing, newId);
      WriteKeeps(codec, start, w, written.value, phase);
    }
    var u := if written.Some? then written.value else w;
    StorageStepKeeps(codec, start, u, Ended(u, worker), worker);
  }

  lemma WriteKeeps(codec: Codec, start: World, w: World, v: World, phase: Phase)
    requires Kept(codec, start, w) && PhaseKept(codec, w, phase) && phase.BothThere?
    requires OneRowWritten(w, v, phase.p) && exists a :: v.audits == Audited(w.audits, a)
    ensures Kept(codec, start, v)
  {
    forall r | r in v.packages ensures RowKept(codec, start, v, r) {
      assert r in w.packages ==> RowKept(codec, start, w, r);
    }
    forall x | x in v.workers ensures PhaseKept(codec, v, v.workers[x]) {
      PhaseGrows(codec, w, v, w.workers[x]);
    }
    var a :| v.audits == Audited(w.audits, a);
    AuditedOnce(w.audits, a);
  }

  lemma BeginKeeps(codec: Codec, start: World, w: World, worker: nat, p: Prepared)
    requires Kept(codec, start, w) && Enabled(codec, w, Begin(worker, p))
    ensures Kept(codec, start, Apply(codec, w, Begin(worker, p)))
  {
    if p.review in w.packages {
      assert RowKept(codec, start, w, p.review);
    }
    StorageStepKeeps(codec, start, w, Apply(codec, w, Begin(worker, p)), worker);
  }

  lemma ManifestKeeps(codec: Codec, start: World, w: World, worker: nat)
    requires Kept(codec, start, w) && worker in w.workers && w.workers[worker].Began?
    ensures Kept(codec, start, Manifested(codec, w, worker, w.workers[worker]))
  {
    assert PhaseKept(codec, w, w.workers[worker]);
    StorageStepKeeps(codec, start, w, Manifested(codec, w, worker, w.workers[worker]), worker);
  }

  lemma ReportKeeps(codec: Codec, start: World, w: World, worker: nat)
    requires Kept(codec, start, w) && worker in w.workers && w.workers[worker].ManifestThere?
    ensures Kept(codec, start, Reported(codec, w, worker, w.workers[worker]))
  {
    assert PhaseKept(codec, w, w.workers[worker]);
    StorageStepKeeps(codec, start, w, Reported(codec, w, worker, w.workers[worker]), worker);
  }

  lemma StepKeeps(codec: Codec, start: World, w: World, s: Step)
    requires Kept(codec, start, w) && Enabled(codec, w, s)
    ensures Kept(codec, start, Apply(codec, w, s))
  {
    match s
    case Begin(worker, p) => BeginKeeps(codec, start, w, worker, p);
    case PutManifest(worker) => ManifestKeeps(codec, start, w, worker);
    case PutPdf(worker) => ReportKeeps(codec, start, w, worker);
    case Finish(worker, newId) => FinishKeeps(codec, start, w, worker, newId);
    case Crash(worker) => StorageStepKeeps(codec, start, w, Ended(w, worker), worker);
  }

  lemma {:induction false} KeptOverRun(codec: Codec, start: World, steps: seq<Step>)
    requires Fresh(start) && Legal(codec, start, steps) && (forall a :: start.audits[a] <= 1)
    ensures Kept(codec, start, After(codec, start, steps))
  {
    if steps != [] {
      var n := |steps| - 1;
      KeptOverRun(codec, start, steps[..n]);
      StepKeeps(codec, start, After(codec, start, steps[..n]), steps[n]);
    }
  }

  /** Whatever the workers do and wherever they crash: no row written by a commit lacks either object, both
      match its checksums, and no audit event is recorded twice. */
  lemma NoRowWithoutItsObjects(codec: Codec, start: World, steps: seq<Step>, r: Id)
    requires Fresh(start) && Legal(codec, start, steps) && (forall a :: start.audits[a] <= 1)
    requires r in After(codec, start, steps).packages
    ensures var w := After(codec, start, steps);
            && ((r in start.packages && w.packages[r] == start.packages[r])
               || Backed(codec, w.objects, w.packages[r].metadata))
            && forall a :: w.audits[a] <= 1
  {
    KeptOverRun(codec, start, steps);
    assert RowKept(codec, start, After(codec, start, steps), r);
  }

}
