/** `commit` of the final package generator, write by write. */
module PackageGenerator {
  import opened Prelude
  import opened FinalPackage
  import opened PackageRuns

  /** Object storage with create-if-absent. */
  class PackageStorage {
    var objects: map<string, Stored>

    constructor ()
      ensures objects == map[]
    {
      objects := map[];
    }

    method Read(key: string) returns (r: Option<Stored>)
      ensures r == if key in objects then Some(objects[key]) else None
    {
      r := if key in objects then Some(objects[key]) else None;
    }

    /** What another worker does. */
    method Rival(key: string, rival: Option<Stored>)
      modifies this
      ensures objects == Raced(old(objects), key, rival)
    {
      if rival.Some? && key !in objects {
        objects := objects[key := rival.value];
      }
    }

    method PutImmutable(key: string, content: string, contentType: string) returns (created: bool)
      modifies this
      ensures created <==> key !in old(objects)
      ensures objects == Ensured(old(objects), key, content, contentType)
    {
      created := key !in objects;
      if created {
        objects := objects[key := Stored(content, contentType)];
      }
    }
  }

  class PackageDatabase {
    var packages: map<Id, Package>
    var audits: multiset<Audit>
    var events: map<Id, Event>
    var reviews: map<Id, Id>

    constructor ()
      ensures packages == map[] && audits == multiset{} && events == map[] && reviews == map[]
    {
      packages, audits, events, reviews := map[], multiset{}, map[], map[];
    }
  }

  class TerminalReviewPackageGenerator {
    const codec: Codec
    const storage: PackageStorage
    const database: PackageDatabase

    constructor (codec: Codec, storage: PackageStorage, database: PackageDatabase)
      ensures this.codec == codec && this.storage == storage && this.database == database
    {
      this.codec, this.storage, this.database := codec, storage, database;
    }

    /** What the state machine of the package runs sees. */
    function Seen(): World
      reads storage, database
    {
      World(storage.objects, database.packages, database.audits, database.events, database.reviews, map[])
    }

    /** `_ensure_object`, with what a rival worker stores under the key between the read and the write. */
    method EnsureObject(key: string, content: string, contentType: string, rival: Option<Stored>) returns (ok: bool)
      modifies storage
      ensures storage.objects == Ensured(Raced(old(storage.objects), key, rival), key, content, contentType)
      ensures ok <==>
              && key in storage.objects && storage.objects[key].contentType == contentType
              && codec.hash(storage.objects[key].content) == codec.hash(content)
      ensures storage.objects ==
              if key in old(storage.objects) then old(storage.objects)
              else old(storage.objects)[key := if rival.Some? then rival.value else Stored(content, contentType)]
    {
      var stored := storage.Read(key);
      if stored.None? {
        storage.Rival(key, rival);
        var created := storage.PutImmutable(key, content, contentType);
        if created {
          return true;
        }
        stored := storage.Read(key);
      }
      ok := stored.Some? && stored.value.contentType == contentType
        && codec.hash(stored.value.content) == codec.hash(content);
    }

    /** The rows are those of a world, and the package of p has this id. */
    predicate RowsAre(w: World, p: Prepared, id: Id)
      reads database
    {
      database.packages == w.packages && database.audits == w.audits && p.review in w.packages
        && w.packages[p.review].id == id
    }

    method RecordAudit(package: Id, correlation: string)
      modifies database`audits
      ensures database.audits == Audited(old(database.audits), Audit(package, correlation))
      ensures database.audits ==
              if Audit(package, correlation) in old(database.audits) then old(database.audits)
              else old(database.audits) + multiset{Audit(package, correlation)}
    {
      if Audit(package, correlation) !in database.audits {
        database.audits := database.audits + multiset{Audit(package, correlation)};
      }
    }

    /** The trigger on the package table, for the event the transaction has named. */
    predicate TriggerAdmits(event: Id, before: Package, after: Package)
      reads database
    {
      && event in database.events && database.events[event].workflow in database.reviews
      && Admits(database.events[event], database.reviews[database.events[event].workflow], before, after)
    }

    /** `_repair_metadata`: an update of the row with the repaired id that still has the keys and checksums
        read at the start, past the trigger and the unique keys; any other row count than one raises. What
        the caller learns: the row of this review had the repaired id and exactly the metadata its event
        records as the legacy ones, it now has the prepared ones, and no other row moved. */
    method RepairMetadata(p: Prepared, existing: Package) returns (ok: bool)
      requires KeyedByReview(database.packages) && IdsDistinct(database.packages)
      requires existing.review == p.review && (p.repair.Some? ==> existing.id == p.repair.value.package)
      requires p.review in database.packages && database.packages[p.review].id == existing.id
      modifies database`packages
      ensures ok <==> Repairs(old(Seen()), p, existing)
      ensures ok <==>
              && p.repair.Some? && p.event in database.events
              && database.events[p.event].workflow in database.reviews
              && NoRowUses(old(database.packages), p.review, p.metadata)
              && var row, read := old(database.packages)[p.review], existing.metadata;
                 && row.metadata.manifestKey == read.manifestKey && row.metadata.pdfKey == read.pdfKey
                 && row.metadata.manifestChecksum == read.manifestChecksum
                 && row.metadata.pdfChecksum == read.pdfChecksum
                 && Admits(database.events[p.event], database.reviews[database.events[p.event].workflow], row,
                      row.(metadata := p.metadata))
      ensures ok ==>
                && p.repair.Some? && p.event in database.events
                && var row, event := old(database.packages)[p.review], database.events[p.event];
                   && row.id == p.repair.value.package && !event.processed
                   && event.frozen.Some? && event.frozen.value.Repairing? && event.frozen.value.repair.Some?
                   && event.frozen.value.repair.value.legacy == Some(row.metadata)
                   && database.packages == old(database.packages)[p.review := row.(metadata := p.metadata)]
      ensures !ok ==> database.packages == old(database.packages)
    {
      ok := false;
      if p.repair.Some? {
        var id := p.repair.value.package;
        var hit := set r | r in database.packages && Selected(database.packages[r], id, existing.metadata);
        OnlyTheReview(database.packages, p.review, id, existing.metadata);
        if hit != {} {
          var r :| r in hit;
          var after := database.packages[r].(metadata := p.metadata);
          var free := forall other :: other in database.packages && other != r ==>
            database.packages[other].metadata.manifestKey != after.metadata.manifestKey
            && database.packages[other].metadata.pdfKey != after.metadata.pdfKey;
          ok := free && TriggerAdmits(p.event, database.packages[r], after);
          if ok {
            database.packages := database.packages[r := after];
          }
        }
      }
    }

    method EnsureObjects(p: Prepared, rivals: Rivals) returns (ok: bool)
      requires WellPrepared(codec, p)
      modifies storage
      ensures storage.objects == CommitObjects(codec, old(storage.objects), p, rivals)
      ensures ok <==> Backed(codec, storage.objects, p.metadata)
      ensures ok <==>
              && p.metadata.manifestKey in storage.objects && p.metadata.pdfKey in storage.objects
              && storage.objects[p.metadata.manifestKey].contentType == "application/json"
              && storage.objects[p.metadata.pdfKey].contentType == "application/pdf"
              && codec.hash(storage.objects[p.metadata.manifestKey].content) == p.metadata.manifestChecksum
              && codec.hash(storage.objects[p.metadata.pdfKey].content) == p.metadata.pdfChecksum
    {
      ok := EnsureObject(p.metadata.manifestKey, p.manifestContent, JSON, rivals.manifest);
      if ok {
        ok := EnsureObject(p.metadata.pdfKey, p.pdfContent, PDF, rivals.report);
      }
    }

    /** The insert of a new row, under the unique keys of the table. */
    method InsertPackage(p: Prepared, newId: Id) returns (ok: bool)
      requires p.review !in database.packages
      modifies database`packages
      ensures ok <==> KeysFree(old(Seen()), p.metadata, p.review)
      ensures ok <==> forall r :: r in old(database.packages) ==>
                old(database.packages)[r].metadata.manifestKey != p.metadata.manifestKey
                && old(database.packages)[r].metadata.pdfKey != p.metadata.pdfKey
      ensures database.packages ==
              if ok
              then old(database.packages)[p.review := Package(newId, p.organization, p.workspace, p.review, p.metadata)]
                                   else old(database.packages)
    {
      ok := forall r :: r in database.packages ==>
        database.packages[r].metadata.manifestKey != p.metadata.manifestKey
          && database.packages[r].metadata.pdfKey != p.metadata.pdfKey;
      if ok {
        database.packages := database.packages[p.review :=
          Package(newId, p.organization, p.workspace, p.review, p.metadata)];
      }
    }

    /** The row and the audit event, given the row read at the start. */
    method WriteRows(p: Prepared, existing: Option<Package>, newId: Id) returns (id: Option<Id>)
      requires KeyedByReview(database.packages) && IdsDistinct(database.packages)
      requires existing == Existing(Seen(), p.review) && Checks(p, existing)
      modifies database`packages, database`audits
      ensures id.Some? <==> Written(old(Seen()), p, existing, newId).Some?
      ensures id.None? ==> database.packages == old(database.packages) && database.audits == old(database.audits)
      ensures id.Some? ==> RowsAre(Written(old(Seen()), p, existing, newId).value, p, id.value)
    {
      id := None;
      if existing.None? {
        var ok := InsertPackage(p, newId);
        if ok {
          RecordAudit(newId, p.correlation);
          id := Some(newId);
        }
      } else {
        if !Matches(p, existing.value) {
          var ok := RepairMetadata(p, existing.value);
          if !ok {
            return;
          }
        }
        RecordAudit(existing.value.id, p.correlation);
        id := Some(existing.value.id);
      }
    }

    /** The whole commit: None when it raised, in which case the database transaction rolled back. Objects are
        written before rows, and rows exactly as the state machine's finishing step writes them. */
    method Commit(p: Prepared, newId: Id, rivals: Rivals) returns (id: Option<Id>)
      requires WellPrepared(codec, p) && KeyedByReview(database.packages) && IdsDistinct(database.packages)
      modifies storage, database`packages, database`audits
      ensures storage.objects
           == if Checks(p, Existing(old(Seen()), p.review)) then CommitObjects(codec, old(storage.objects), p, rivals)
             else old(storage.objects)
      ensures id.Some? <==> CommitPasses(codec, old(Seen()), storage.objects, p, newId)
      ensures id.None? ==> database.packages == old(database.packages) && database.audits == old(database.audits)
      ensures id.Some? ==>
                RowsAre(Written(old(Seen()).(objects := storage.objects), p, Existing(old(Seen()), p.review),
                  newId).value, p, id.value)
      ensures id.Some? ==>
                && database.packages == old(database.packages)[p.review :=
                     if p.review in old(database.packages)
                     then old(database.packages)[p.review].(metadata := p.metadata)
                     else Package(newId, p.organization, p.workspace, p.review, p.metadata)]
                && id.value == database.packages[p.review].id
                && database.audits == (if Audit(id.value, p.correlation) in old(database.audits)
                     then old(database.audits) else old(database.audits) + multiset{Audit(id.value, p.correlation)})
    {
      var existing := if p.review in database.packages then Some(database.packages[p.review]) else None;
      if !Checks(p, existing) {
        return None;
      }
      var ok := EnsureObjects(p, rivals);
      if !ok {
        return None;
      }
      id := WriteRows(p, existing, newId);
    }
  }

  /** The package table has one row for each review, and a primary key. */
  predicate KeyedByReview(packages: map<Id, Package>) {
    forall r :: r in packages ==> packages[r].review == r
  }

  predicate IdsDistinct(packages: map<Id, Package>) {
    forall r, s :: r in packages && s in packages && packages[r].id == packages[s].id ==> r == s
  }

  /** The WHERE clause of the repair. */
  predicate Selected(row: Package, id: Id, read: Metadata) {
    && row.id == id && row.metadata.manifestKey == read.manifestKey && row.metadata.pdfKey == read.pdfKey
    && row.metadata.manifestChecksum == read.manifestChecksum && row.metadata.pdfChecksum == read.pdfChecksum
  }

  /** The id selects the row of the review, or none. */
  lemma OnlyTheReview(packages: map<Id, Package>, review: Id, id: Id, read: Metadata)
    requires IdsDistinct(packages) && review in packages && packages[review].id == id
    ensures (set r | r in packages && Selected(packages[r], id, read)) ==
            if Selected(packages[review], id, read) then {review} else {}
  {
  }

  /** What rival workers store under the two keys while this commit looks the other way. */
  datatype Rivals = Rivals(manifest: Option<Stored>, report: Option<Stored>)

  function Raced(objects: map<string, Stored>, key: string, rival: Option<Stored>): map<string, Stored> {
    if rival.Some? && key !in objects then objects[key := rival.value] else objects
  }

  /** A commit succeeds when its checks pass on the row it read, both objects are right, and the writes go through. */
  predicate CommitPasses(codec: Codec, w: World, objects: map<string, Stored>, p: Prepared, newId: Id) {
    var existing := Existing(w, p.review);
    Checks(p, existing) && Backed(codec, objects, p.metadata)
      && Written(w.(objects := objects), p, existing, newId).Some?
  }

  /** When a commit succeeds, in full. Both objects are stored with their types and checksums. A new row meets no
      used key and is no repair; a row that is there already agrees in every column, or the payload repairs it:
      it has the repaired id and exactly the legacy metadata, and agrees already or passes keys and trigger. */
  lemma PassesExactly(codec: Codec, w: World, objects: map<string, Stored>, p: Prepared, newId: Id)
    ensures CommitPasses(codec, w, objects, p, newId) <==>
            && ObjectsAreRight(codec, objects, p.metadata)
            && if p.review !in w.packages then p.repair.None? && NoRowUses(w.packages, p.review, p.metadata)
               else
                 var row := w.packages[p.review];
                 var agrees := row.organization == p.organization && row.workspace == p.workspace
                   && row.review == p.review && row.metadata == p.metadata;
                 if p.repair.None? then agrees
                 else
                   && row.id == p.repair.value.package && row.metadata == p.repair.value.legacy
                   && (agrees
                       || (p.event in w.events && w.events[p.event].workflow in w.reviews
                           && NoRowUses(w.packages, p.review, p.metadata)
                           && Admits(w.events[p.event], w.reviews[w.events[p.event].workflow], row,
                                row.(metadata := p.metadata))))
  {
    assert KeysFree(w, p.metadata, p.review) <==> NoRowUses(w.packages, p.review, p.metadata);
    assert Backed(codec, objects, p.metadata) <==> ObjectsAreRight(codec, objects, p.metadata);
  }

  ghost predicate ObjectsAreRight(codec: Codec, objects: map<string, Stored>, m: Metadata) {
    && m.manifestKey in objects && m.pdfKey in objects
    && objects[m.manifestKey].contentType == "application/json" && objects[m.pdfKey].contentType == "application/pdf"
    && codec.hash(objects[m.manifestKey].content) == m.manifestChecksum
    && codec.hash(objects[m.pdfKey].content) == m.pdfChecksum
  }

  ghost predicate NoRowUses(packages: map<Id, Package>, review: Id, m: Metadata) {
    forall r :: r in packages && r != review ==>
      packages[r].metadata.manifestKey != m.manifestKey && packages[r].metadata.pdfKey != m.pdfKey
  }

  /** The objects a commit leaves: it writes the report only after the manifest is right. */
  function CommitObjects(codec: Codec, objects: map<string, Stored>, p: Prepared, rivals: Rivals): map<string, Stored> {
    var one := Ensured(Raced(objects, p.metadata.manifestKey, rivals.manifest), p.metadata.manifestKey,
      p.manifestContent, JSON);
    if !Holds(codec, one, p.metadata.manifestKey, p.metadata.manifestChecksum, JSON) then one
    else Ensured(Raced(one, p.metadata.pdfKey, rivals.report), p.metadata.pdfKey, p.pdfContent, PDF)
  }

}
