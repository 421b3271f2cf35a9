/** Terminal review packages: frozen events, prepared payloads, the metadata row, and the one-time repair of
    rows written before the immutability migration. */
module FinalPackage {
  import opened Prelude
  import PdfWriter
  import PdfReader
  import PdfRoundTrip

  type Id = string

  /** SHA-256 as hexadecimal text, and the canonical JSON of a manifest. */
  datatype Codec = Codec(hash: string -> string, dump: Snapshot -> string)

  datatype Provenance = Provenance(event: Id, correlation: string)
  datatype Snapshot = Snapshot(organization: Id, workspace: Id, review: Id, agreement: Id, workflow: Id, state: string,
                               manifestKey: string, pdfKey: string, provenance: Option<Provenance>, details: string)
  datatype Metadata = Metadata(workflow: Id, state: string, manifestKey: string, pdfKey: string,
                               manifestChecksum: string, pdfChecksum: string)

  /** None stands for a value of the wrong shape. */
  datatype Repair = Repair(source: string, package: Option<Id>, legacy: Option<Metadata>, manifestChecksum: string,
      pdfChecksum: string)
  datatype Frozen = Plain(snapshot: Snapshot) | Repairing(manifest: Option<Snapshot>, repair: Option<Repair>)

  datatype Event = Event(id: Id, workflow: Id, organization: Id, workspace: Id, kind: string, correlation: string,
                         idempotencyKey: string, frozen: Option<Frozen>, manifestKey: string, pdfKey: string,
                           processed: bool)

  datatype Package = Package(id: Id, organization: Id, workspace: Id, review: Id, metadata: Metadata)

  datatype RepairOf = RepairOf(package: Id, legacy: Metadata)
  datatype Prepared = Prepared(event: Id, correlation: string, organization: Id, workspace: Id, review: Id,
                               manifestContent: string, pdfContent: string, metadata: Metadata,
                                 repair: Option<RepairOf>)

  const TERMINAL: string := "review.workflow.terminal"
  const REPAIR_SOURCE: string := "postgresql-terminal-migration-package-repair"
  const JSON: string := "application/json"
  const PDF: string := "application/pdf"

  predicate IsTerminalState(state: string) {
    state in {"approved", "rejected", "revision_requested"}
  }

  // ---- preparing

  function ReportLines(s: Snapshot, checksum: string): seq<string> {
    [ "Agreement Intelligence - Final Review Package",
      "Agreement ID: " + s.agreement,
      "Review ID: " + s.review,
      "Outcome: " + s.state,
      "Manifest checksum: sha256:" + checksum ]
  }

  function Report(s: Snapshot, checksum: string): Option<string> {
    if forall line :: line in ReportLines(s, checksum) ==> PdfWriter.Latin1(line)
    then Some(PdfWriter.Printed(PdfWriter.Objects(PdfWriter.Stream(ReportLines(s, checksum)))))
    else None
  }

  function ObjectBase(organization: Id, workspace: Id, review: Id, repair: bool): string {
    "reviews/" + organization + "/" + workspace + "/" + review + "/final-package"
    + if repair then "/recovery-0035" else ""
  }

  /** The identity a frozen snapshot must agree on with its event. */
  predicate SameIdentity(s: Snapshot, e: Event) {
    && s.provenance == Some(Provenance(e.id, e.correlation))
    && s.workflow == e.workflow && s.organization == e.organization && s.workspace == e.workspace
    && IsTerminalState(s.state)
  }

  function Contents(codec: Codec, s: Snapshot, repair: bool): Option<(string, string, Metadata)> {
    var manifest := codec.dump(s);
    var checksum := codec.hash(manifest);
    var report :- Report(s, checksum);
    var base := ObjectBase(s.organization, s.workspace, s.review, repair);
    Some((manifest, report, Metadata(s.workflow, s.state, base + "/manifest.json", base + "/report.pdf", checksum,
      codec.hash(report))))
  }

  /** `prepare`; None is a FinalPackageConflictError, or a report line outside Latin-1. */
  function Prepare(codec: Codec, found: Option<Event>, workflow: Id, correlation: string): Option<Prepared> {
    var e :- found;
    if e.kind != TERMINAL || e.workflow != workflow || e.correlation != correlation then None
    else
      var frozen :- e.frozen;
      var s :- if frozen.Plain? then Some(frozen.snapshot) else frozen.manifest;
      var repair :- RepairFields(frozen);
      if !SameIdentity(s, e) then None
      else
        var made :- Contents(codec, s, frozen.Repairing?);
        var m := made.2;
        if s.manifestKey != m.manifestKey || s.pdfKey != m.pdfKey || e.manifestKey != m.manifestKey
          || e.pdfKey != m.pdfKey then None
        else if frozen.Repairing? && !SameChecksums(frozen, m) then None
        else Some(Prepared(e.id, correlation, s.organization, s.workspace, s.review, made.0, made.1, m, repair))
  }

  function RepairFields(frozen: Frozen): Option<Option<RepairOf>> {
    if frozen.Plain? then Some(None)
    else
      var repair :- frozen.repair;
      var package :- repair.package;
      var legacy :- repair.legacy;
      if repair.source != REPAIR_SOURCE then None else Some(Some(RepairOf(package, legacy)))
  }

  predicate SameChecksums(frozen: Frozen, m: Metadata)
    requires frozen.Repairing?
  {
    frozen.repair.Some? && frozen.repair.value.manifestChecksum == m.manifestChecksum
      && frozen.repair.value.pdfChecksum == m.pdfChecksum
  }

  // ---- committing

  predicate Matches(p: Prepared, row: Package) {
    row.organization == p.organization && row.workspace == p.workspace && row.review == p.review
      && row.metadata == p.metadata
  }

  /** The checks `commit` makes before it touches storage. */
  predicate Checks(p: Prepared, existing: Option<Package>) {
    if existing.None? then p.repair.None?
    else if p.repair.Some? then existing.value.id == p.repair.value.package
      && existing.value.metadata == p.repair.value.legacy
    else Matches(p, existing.value)
  }

  /** The trigger of the migration: the only update of a package row it admits under the given event. */
  predicate Admits(e: Event, workflowReview: Id, before: Package, after: Package) {
    && e.kind == TERMINAL && !e.processed && e.idempotencyKey == BackfillKey(e.workflow)
    && e.organization == before.organization && e.workspace == before.workspace && workflowReview == before.review
    && e.frozen.Some? && e.frozen.value.Repairing? && e.frozen.value.repair.Some? && e.frozen.value.manifest.Some?
    && var r := e.frozen.value.repair.value;
       && r.source == REPAIR_SOURCE && r.package == Some(before.id) && r.legacy == Some(before.metadata)
       && e.manifestKey == after.metadata.manifestKey && e.pdfKey == after.metadata.pdfKey
       && r.manifestChecksum == after.metadata.manifestChecksum && r.pdfChecksum == after.metadata.pdfChecksum
       && after.(metadata := before.metadata) == before
       && after.metadata.workflow == e.workflow && after.metadata.state == e.frozen.value.manifest.value.state
  }

  function BackfillKey(workflow: Id): string {
    "workflow:" + workflow + ":terminal-package-backfill:0035"
  }

  /** The trigger in full: an unprocessed terminal event of the backfill, of the row's scope and review, whose
      repair names the row and exactly its present metadata; the update writes what the event announces and
      touches nothing else. */
  lemma AdmitsExactly(e: Event, workflowReview: Id, before: Package, after: Package)
    ensures Admits(e, workflowReview, before, after) <==>
            && e.kind == "review.workflow.terminal" && !e.processed
            && e.idempotencyKey == "workflow:" + e.workflow + ":terminal-package-backfill:0035"
            && e.organization == before.organization && e.workspace == before.workspace
            && workflowReview == before.review
            && e.frozen.Some? && e.frozen.value.Repairing?
            && e.frozen.value.manifest.Some? && e.frozen.value.repair.Some?
            && var r := e.frozen.value.repair.value;
               && r.source == "postgresql-terminal-migration-package-repair"
               && r.package == Some(before.id) && r.legacy == Some(before.metadata)
               && after == before.(metadata := Metadata(e.workflow, e.frozen.value.manifest.value.state, e.manifestKey,
                    e.pdfKey, r.manifestChecksum, r.pdfChecksum))
  {
  }

  // ---- the backfill

  /** `_backfill_terminal_package_event`: the event built for a terminal workflow, with a repair when the
      review already has a package row. */
  function Backfilled(codec: Codec, s: Snapshot, legacy: Option<Package>, id: Id, correlation: string): Event {
    var base := ObjectBase(s.organization, s.workspace, s.review, legacy.Some?);
    var manifest := s.(manifestKey := base + "/manifest.json", pdfKey := base + "/report.pdf",
                       provenance := Some(Provenance(id, correlation)));
    var checksum := codec.hash(codec.dump(manifest));
    var report := PdfWriter.Printed(PdfWriter.Objects(PdfWriter.Stream(ReportLines(manifest, checksum))));
    var frozen :=
      if legacy.None? then Plain(manifest)
      else Repairing(Some(manifest),
             Some(Repair(REPAIR_SOURCE, Some(legacy.value.id), Some(legacy.value.metadata), checksum,
               codec.hash(report))));
    Event(id, s.workflow, s.organization, s.workspace, TERMINAL, correlation, BackfillKey(s.workflow), Some(frozen),
      base + "/manifest.json", base + "/report.pdf", false)
  }

  /** The printer of the migration raises for the same snapshots as the worker's. */
  predicate Printable(codec: Codec, s: Snapshot, repair: bool, id: Id, correlation: string) {
    var base := ObjectBase(s.organization, s.workspace, s.review, repair);
    var manifest := s.(manifestKey := base + "/manifest.json", pdfKey := base + "/report.pdf",
                       provenance := Some(Provenance(id, correlation)));
    Report(manifest, codec.hash(codec.dump(manifest))).Some?
  }

  /** Every backfilled event prepares, and to exactly the row the event announces. */
  lemma BackfilledPrepares(codec: Codec, s: Snapshot, legacy: Option<Package>, id: Id, correlation: string)
    requires s.state in ["approved", "rejected", "revision_requested"]
    requires Printable(codec, s, legacy.Some?, id, correlation)
    ensures var p := Prepare(codec, Some(Backfilled(codec, s, legacy, id, correlation)), s.workflow, correlation);
            && p.Some? && p.value.event == id && p.value.review == s.review
            && p.value.repair == if legacy.Some? then Some(RepairOf(legacy.value.id, legacy.value.metadata)) else None
  {
  }

  /** What the worker checks before a repair implies what the trigger demands of the update. */
  lemma RepairIsAdmitted(codec: Codec, s: Snapshot, legacy: Package, id: Id, correlation: string, existing: Package)
    requires IsTerminalState(s.state) && Printable(codec, s, true, id, correlation)
    requires existing.organization == s.organization && existing.workspace == s.workspace && existing.review == s.review
    ensures var e := Backfilled(codec, s, Some(legacy), id, correlation);
            var p := Prepare(codec, Some(e), s.workflow, correlation).value;
            Checks(p, Some(existing)) ==> Admits(e, s.review, existing, existing.(metadata := p.metadata))
  {
    BackfilledPrepares(codec, s, Some(legacy), id, correlation);
  }

  /** For any event at all: whatever the trigger admits, the worker's own checks accept too, and the row
      becomes what the event announces. */
  lemma AdmittedIsChecked(codec: Codec, e: Event, before: Package, after: Package)
    requires Admits(e, before.review, before, after)
    requires Prepare(codec, Some(e), e.workflow, e.correlation).Some?
    ensures var p := Prepare(codec, Some(e), e.workflow, e.correlation).value;
            Checks(p, Some(before)) && after.metadata == p.metadata
  {
  }

  /** A repair that changed the row is refused when it is delivered again, and only then. */
  lemma RedeliveredRepairIsRefused(p: Prepared, row: Package)
    requires p.repair.Some? && Checks(p, Some(row))
    ensures Checks(p, Some(row.(metadata := p.metadata))) <==> p.repair.value.legacy == p.metadata
  {
  }

  // ---- what a prepared payload is

  ghost predicate WellPrepared(codec: Codec, p: Prepared) {
    && p.metadata.manifestChecksum == codec.hash(p.manifestContent)
       && p.metadata.pdfChecksum == codec.hash(p.pdfContent)
    && p.metadata.manifestKey != p.metadata.pdfKey
  }

  lemma PreparedIsWell(codec: Codec, found: Option<Event>, workflow: Id, correlation: string)
    requires Prepare(codec, found, workflow, correlation).Some?
    ensures WellPrepared(codec, Prepare(codec, found, workflow, correlation).value)
  {
    var p := Prepare(codec, found, workflow, correlation).value;
    var base := ObjectBase(p.organization, p.workspace, p.review, found.value.frozen.value.Repairing?);
    assert p.metadata.manifestKey[|base|..] == "/manifest.json" && p.metadata.pdfKey[|base|..] == "/report.pdf";
  }

  /** The five lines a report of snapshot s must show. */
  ghost predicate ShowsTheReview(s: Snapshot, checksum: string, lines: seq<string>) {
    && |lines| == 5
    && lines[0] == PdfRoundTrip.Normalized("Agreement Intelligence - Final Review Package")
    && lines[1] == PdfRoundTrip.Normalized("Agreement ID: " + s.agreement)
    && lines[2] == PdfRoundTrip.Normalized("Review ID: " + s.review)
    && lines[3] == PdfRoundTrip.Normalized("Outcome: " + s.state)
    && lines[4] == PdfRoundTrip.Normalized("Manifest checksum: sha256:" + checksum)
  }

  lemma ReportShows(s: Snapshot, checksum: string)
    requires Report(s, checksum).Some?
    ensures var lines := PdfReader.ReadLines(Report(s, checksum).value);
            lines.Some? && ShowsTheReview(s, checksum, lines.value)
  {
    PdfRoundTrip.PdfReadsBack(ReportLines(s, checksum));
    FiveNormalized(ReportLines(s, checksum));
    LinesShowTheReview(s, checksum, PdfRoundTrip.NormalizedLines(ReportLines(s, checksum)));
  }

  lemma FiveNormalized(lines: seq<string>)
    requires |lines| == 5
    ensures Normalizes(lines, PdfRoundTrip.NormalizedLines(lines))
  {
  }

  ghost predicate Normalizes(lines: seq<string>, normalized: seq<string>) {
    && |lines| == |normalized| == 5
    && normalized[0] == PdfRoundTrip.Normalized(lines[0]) && normalized[1] == PdfRoundTrip.Normalized(lines[1])
    && normalized[2] == PdfRoundTrip.Normalized(lines[2]) && normalized[3] == PdfRoundTrip.Normalized(lines[3])
    && normalized[4] == PdfRoundTrip.Normalized(lines[4])
  }

  lemma LinesShowTheReview(s: Snapshot, checksum: string, normalized: seq<string>)
    requires Normalizes(ReportLines(s, checksum), normalized)
    ensures ShowsTheReview(s, checksum, normalized)
  {
  }

  /** The snapshot an event froze. */
  ghost predicate Freezes(e: Event, s: Snapshot) {
    e.frozen == Some(Plain(s)) || (e.frozen.Some? && e.frozen.value.Repairing? && e.frozen.value.manifest == Some(s))
  }

  lemma PreparedFrom(codec: Codec, e: Event, s: Snapshot, workflow: Id, correlation: string)
    requires Freezes(e, s) && Prepare(codec, Some(e), workflow, correlation).Some?
    ensures var p := Prepare(codec, Some(e), workflow, correlation).value;
            p.manifestContent == codec.dump(s) && Report(s, codec.hash(codec.dump(s))) == Some(p.pdfContent)
  {
    if e.frozen.value.Plain? {
      assert e.frozen.value.snapshot == s;
    } else {
      assert e.frozen.value.manifest.value == s;
    }
  }

  /** The stored report reads back exactly five lines: the title, the agreement, the review and the outcome of
      the snapshot the event froze, and the checksum of the manifest beside it. */
  lemma ReportNamesItsManifest(codec: Codec, e: Event, s: Snapshot, workflow: Id, correlation: string)
    requires Freezes(e, s) && Prepare(codec, Some(e), workflow, correlation).Some?
    ensures var p := Prepare(codec, Some(e), workflow, correlation).value;
            var lines := PdfReader.ReadLines(p.pdfContent);
            && p.manifestContent == codec.dump(s) && lines.Some?
            && ShowsTheReview(s, codec.hash(p.manifestContent), lines.value)
  {
    PreparedFrom(codec, e, s, workflow, correlation);
    ReportShows(s, codec.hash(codec.dump(s)));
  }

  predicate Encodable(s: string) {
    forall c :: c in s ==> c as int < 256
  }

  lemma PrefixIsPrintable(first: string, s: string)
    requires Encodable(first)
    ensures PdfWriter.Latin1(first + s) <==> Encodable(s)
  {
    PdfWriter.Latin1Concat(first, s);
  }

  lemma FiveEncodable(lines: seq<string>)
    requires |lines| == 5
    ensures (forall line :: line in lines ==> PdfWriter.Latin1(line)) <==>
            PdfWriter.Latin1(lines[0]) && PdfWriter.Latin1(lines[1]) && PdfWriter.Latin1(lines[2])
            && PdfWriter.Latin1(lines[3]) && PdfWriter.Latin1(lines[4])
  {
  }

  lemma LabelsAreEncodable()
    ensures Encodable("Agreement ID: ") && Encodable("Review ID: ") && Encodable("Outcome: ")
  {
  }

  lemma LastLabelIsEncodable()
    ensures Encodable("Manifest checksum: sha256:")
  {
  }

  lemma TitleIsEncodable()
    ensures Encodable("Agreement Intelligence - Final Review Package")
  {
    HalvesAreEncodable();
    PrefixIsPrintable("Agreement Intelligence", " - Final Review Package");
    TitleHalves();
  }

  lemma HalvesAreEncodable()
    ensures Encodable("Agreement Intelligence") && Encodable(" - Final Review Package")
  {
  }

  lemma TitleHalves()
    ensures "Agreement Intelligence" + " - Final Review Package" == "Agreement Intelligence - Final Review Package"
  {
  }

  lemma StatesAreEncodable()
    ensures Encodable("approved") && Encodable("rejected") && Encodable("revision_requested")
  {
  }

  lemma LineIsEncodable(first: string, value: string, line: string)
    requires Encodable(first) && line == first + value
    ensures PdfWriter.Latin1(line) <==> Encodable(value)
  {
    PrefixIsPrintable(first, value);
  }

  /** A report can be printed unless a review, an agreement or the checksum holds a character outside Latin-1. */
  lemma ReportPrints(s: Snapshot, checksum: string)
    requires s.state in ["approved", "rejected", "revision_requested"]
    ensures Report(s, checksum).Some? <==> Encodable(s.agreement) && Encodable(s.review) && Encodable(checksum)
  {
    var lines := ReportLines(s, checksum);
    FiveEncodable(lines);
    LabelsAreEncodable();
    LastLabelIsEncodable();
    TitleIsEncodable();
    StatesAreEncodable();
    LineIsEncodable("Agreement ID: ", s.agreement, lines[1]);
    LineIsEncodable("Review ID: ", s.review, lines[2]);
    LineIsEncodable("Outcome: ", s.state, lines[3]);
    LineIsEncodable("Manifest checksum: sha256:", checksum, lines[4]);
  }

  /** `prepare` in full: the events it accepts. A terminal event of this workflow and correlation with a frozen
      snapshot that names the event, its workflow and its scope, a terminal state, and the object keys of its
      scope; a repair must also carry its source, package, legacy metadata and both checksums. */
  ghost predicate Acceptable(codec: Codec, e: Event, workflow: Id, correlation: string) {
    && e.kind == "review.workflow.terminal" && e.workflow == workflow && e.correlation == correlation
    && e.frozen.Some?
    && (e.frozen.value.Repairing? ==>
          && e.frozen.value.manifest.Some? && e.frozen.value.repair.Some?
          && e.frozen.value.repair.value.source == "postgresql-terminal-migration-package-repair"
          && e.frozen.value.repair.value.package.Some? && e.frozen.value.repair.value.legacy.Some?)
    && var s := if e.frozen.value.Plain? then e.frozen.value.snapshot else e.frozen.value.manifest.value;
       var base := "reviews/" + s.organization + "/" + s.workspace + "/" + s.review + "/final-package"
                   + (if e.frozen.value.Repairing? then "/recovery-0035" else "");
       var checksum := codec.hash(codec.dump(s));
       && s.provenance == Some(Provenance(e.id, e.correlation)) && s.workflow == e.workflow
       && s.organization == e.organization && s.workspace == e.workspace
       && s.state in ["approved", "rejected", "revision_requested"]
       && Report(s, checksum).Some?
       && s.manifestKey == base + "/manifest.json" && e.manifestKey == base + "/manifest.json"
       && s.pdfKey == base + "/report.pdf" && e.pdfKey == base + "/report.pdf"
       && (e.frozen.value.Repairing? ==>
             && e.frozen.value.repair.value.manifestChecksum == checksum
             && e.frozen.value.repair.value.pdfChecksum == codec.hash(Report(s, checksum).value))
  }

  lemma PreparesExactly(codec: Codec, e: Event, workflow: Id, correlation: string)
    ensures Prepare(codec, None, workflow, correlation).None?
    ensures Prepare(codec, Some(e), workflow, correlation).Some? <==> Acceptable(codec, e, workflow, correlation)
  {
    if Acceptable(codec, e, workflow, correlation) {
      PreparedFields(codec, e, workflow, correlation);
    }
    if Prepare(codec, Some(e), workflow, correlation).Some? {
      PreparedIsAcceptable(codec, e, workflow, correlation);
    }
  }

  lemma PreparedIsAcceptable(codec: Codec, e: Event, workflow: Id, correlation: string)
    requires Prepare(codec, Some(e), workflow, correlation).Some?
    ensures Acceptable(codec, e, workflow, correlation)
  {
  }

  /** What it hands to `commit`. */
  lemma PreparedFields(codec: Codec, e: Event, workflow: Id, correlation: string)
    requires Acceptable(codec, e, workflow, correlation)
    ensures var p := Prepare(codec, Some(e), workflow, correlation);
            var frozen := e.frozen.value;
            var s := if frozen.Plain? then frozen.snapshot else frozen.manifest.value;
            var manifest := codec.dump(s);
            var report := Report(s, codec.hash(manifest)).value;
            p == Some(Prepared(e.id, e.correlation, e.organization, e.workspace, s.review, manifest, report,
              Metadata(e.workflow, s.state, e.manifestKey, e.pdfKey, codec.hash(manifest), codec.hash(report)),
              if frozen.Plain? then None
              else Some(RepairOf(frozen.repair.value.package.value, frozen.repair.value.legacy.value))))
  {
  }

  /** The event the backfill writes. */
  lemma BackfilledFields(codec: Codec, s: Snapshot, legacy: Option<Package>, id: Id, correlation: string)
    ensures var e := Backfilled(codec, s, legacy, id, correlation);
            && e.id == id && e.workflow == s.workflow && e.organization == s.organization && e.workspace == s.workspace
            && e.kind == "review.workflow.terminal" && e.correlation == correlation && !e.processed
            && e.idempotencyKey == "workflow:" + s.workflow + ":terminal-package-backfill:0035"
            && e.frozen.Some? && (e.frozen.value.Repairing? <==> legacy.Some?)
            && (e.frozen.value.Repairing? ==>
                  && e.frozen.value.manifest.Some? && e.frozen.value.repair.Some?
                  && e.frozen.value.repair.value.source == "postgresql-terminal-migration-package-repair"
                  && e.frozen.value.repair.value.package == Some(legacy.value.id)
                  && e.frozen.value.repair.value.legacy == Some(legacy.value.metadata))
            && var made := if legacy.None? then e.frozen.value.snapshot else e.frozen.value.manifest.value;
               made == s.(manifestKey := e.manifestKey, pdfKey := e.pdfKey,
                          provenance := Some(Provenance(id, correlation)))
  {
  }

}
