/** Deleting an agreement with a final package: the deletion's key check accepts the two keys of an
    ordinary package and refuses those of a repaired one. */
module PackageRecovery {
  import opened DeletionKeys
  import opened DeletionTables
  import opened DeletionProtocol
  import opened DeletionRuns
  import FinalPackage

  function PackageKey(tenant: Tenant, review: string, repair: bool, file: string): string {
    FinalPackage.ObjectBase(tenant.organization, tenant.workspace, review, repair) + "/" + file
  }

  function BaseParts(tenant: Tenant, review: string): seq<string> {
    ["reviews", tenant.organization, tenant.workspace] + [review, "final-package"]
  }

  function ExpectedParts(tenant: Tenant, review: string, repair: bool, file: string): seq<string> {
    BaseParts(tenant, review) + (if repair then ["recovery-0035"] else []) + [file]
  }

  lemma TenantParts(tenant: Tenant)
    requires '/' !in tenant.organization && '/' !in tenant.workspace
    ensures Parts("reviews/" + tenant.organization + "/" + tenant.workspace) ==
            ["reviews", tenant.organization, tenant.workspace]
  {
    OnePart("reviews");
    PartAppended("reviews", tenant.organization);
    assert "reviews" + "/" + tenant.organization == "reviews/" + tenant.organization;
    PartAppended("reviews/" + tenant.organization, tenant.workspace);
  }

  lemma PathOfBase(tenant: Tenant, review: string)
    requires '/' !in tenant.organization && '/' !in tenant.workspace && '/' !in review
    ensures Parts(FinalPackage.ObjectBase(tenant.organization, tenant.workspace, review, false)) ==
            BaseParts(tenant, review)
  {
    var path := "reviews/" + tenant.organization + "/" + tenant.workspace;
    TenantParts(tenant);
    PartAppended(path, review);
    PartAppended(path + "/" + review, "final-package");
    assert FinalPackage.ObjectBase(tenant.organization, tenant.workspace, review, false) ==
           path + "/" + review + "/" + "final-package";
  }

  lemma PackageParts(tenant: Tenant, review: string, repair: bool, file: string)
    requires '/' !in tenant.organization && '/' !in tenant.workspace && '/' !in review && '/' !in file
    ensures Parts(PackageKey(tenant, review, repair, file)) == ExpectedParts(tenant, review, repair, file)
  {
    var base := FinalPackage.ObjectBase(tenant.organization, tenant.workspace, review, false);
    PathOfBase(tenant, review);
    if repair {
      PartAppended(base, "recovery-0035");
      RepairBase(tenant, review);
      PartAppended(base + "/" + "recovery-0035", file);
    } else {
      PartAppended(base, file);
    }
  }

  lemma RepairBase(tenant: Tenant, review: string)
    ensures FinalPackage.ObjectBase(tenant.organization, tenant.workspace, review, true) ==
            FinalPackage.ObjectBase(tenant.organization, tenant.workspace, review, false) + "/" + "recovery-0035"
  {
  }

  function FileOf(category: Category): string {
    if category == ReviewManifest then "manifest.json" else "report.pdf"
  }

  /** The keys `prepare` makes for a package are owned exactly when the package is not a repair. */
  lemma PackageKeyIsOwned(tenant: Tenant, agreement: nat, review: string, repair: bool, category: Category)
    requires '/' !in tenant.organization && '/' !in tenant.workspace && '/' !in review
    requires category == ReviewManifest || category == ReviewPdf
    ensures ValidOwnedKey(tenant, agreement, category, PackageKey(tenant, review, repair, FileOf(category)))
            <==> !repair && tenant.isUuid(review)
  {
    PackageParts(tenant, review, repair, FileOf(category));
    var parts := ExpectedParts(tenant, review, repair, FileOf(category));
    if !repair {
      assert parts[..3] == ["reviews", tenant.organization, tenant.workspace];
      assert parts[4..] == ["final-package", FileOf(category)];
    }
  }

  /** A deletion that has a repaired package to remove never completes, over every run. */
  lemma RepairedPackageBlocksDeletion(tenant: Tenant, w: World, id: Uuid, o: Uuid, review: string, category: Category)
    requires '/' !in tenant.organization && '/' !in tenant.workspace && '/' !in review
    requires category == ReviewManifest || category == ReviewPdf
    requires Reached(tenant, w) && id in w.t.requests && o in w.p.archive
    requires w.p.archive[o].deletion == id && w.p.archive[o].category == category
    requires w.p.archive[o].key == PackageKey(tenant, review, true, FileOf(category))
    ensures w.t.requests[id].state != Completed
  {
    PackageKeyIsOwned(tenant, id, review, true, category);
    UnownedNeverCompletes(tenant, w, id, o);
  }

}
