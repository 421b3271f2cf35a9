/** Which object keys a deletion may touch (`_validate_owned_key`).
    UUID parsing is a parameter: nothing below depends on how it works. */
module DeletionKeys {
  import opened Text

  datatype Category = Source | Analysis | Comparison | ReviewManifest | ReviewPdf

  /** The identity a key is checked against; `name` renders an agreement id as `str(UUID)` does. */
  datatype Tenant = Tenant(organization: string, workspace: string, name: nat -> string, isUuid: string -> bool)

  /** Python's `key.split("/")`: always at least one part. */
  function Parts(key: string): (r: seq<string>)
    ensures |r| >= 1
  {
    if key == "" then [""]
    else
      var rest := Parts(key[1..]);
      if key[0] == '/' then [""] + rest else [[key[0]] + rest[0]] + rest[1..]
  }

  predicate IsSha256(value: string) {
    |value| == 64 && forall c :: c in value ==> '0' <= c <= '9' || 'a' <= c <= 'f'
  }

  predicate SourceShaped(tenant: Tenant, key: string) {
    var parts := Parts(key);
    && |parts| == 7
    && parts[..5] == ["tenants", tenant.organization, "workspaces", tenant.workspace, "documents"]
    && IsSha256(parts[5])
    && (parts[6] == "original.pdf" || parts[6] == "original.docx")
  }

  /** `_validate_owned_key`, branch for branch; false is the raised ObjectCleanupError. */
  predicate ValidOwnedKey(tenant: Tenant, agreement: nat, category: Category, key: string) {
    var parts := Parts(key);
    match category
    case Source => SourceShaped(tenant, key)
    case Analysis =>
      && |parts| == 9
      && parts[..7] == ["tenants", tenant.organization, "workspaces", tenant.workspace,
                        "agreements", tenant.name(agreement), "analysis"]
      && IsSha256(parts[7])
      && parts[8] == "document-analysis.v1.json"
    case Comparison =>
      && |parts| == 3
      && parts[0] == "comparisons"
      && tenant.isUuid(parts[1])
      && parts[2] == "version-comparison.v1.json"
    case _ =>
      && |parts| == 6
      && parts[..3] == ["reviews", tenant.organization, tenant.workspace]
      && tenant.isUuid(parts[3])
      && parts[4..] == ["final-package", if category == ReviewManifest then "manifest.json" else "report.pdf"]
  }

  /** Splitting on "/" loses nothing, so distinct keys have distinct parts. */
  lemma {:induction false} PartsRoundTrip(key: string)
    ensures Join("/", Parts(key)) == key
  {
    if key != "" {
      PartsRoundTrip(key[1..]);
      var rest := Parts(key[1..]);
      assert key == [key[0]] + key[1..];
      if key[0] == '/' {
        assert Parts(key)[1..] == rest;
      } else {
        assert Parts(key)[0] == [key[0]] + rest[0];
        assert Parts(key)[1..] == rest[1..];
      }
    }
  }

  /** A validated key belongs to one category only, and a validated analysis key to one agreement
      only: no unfenced storage delete of a derived object can hit a source document, of this
      tenant or of any other. */
  lemma OwnedKeysAreDisjoint(tenant: Tenant, other: Tenant, a: nat, b: nat, c: Category, d: Category, key: string)
    requires ValidOwnedKey(tenant, a, c, key) && ValidOwnedKey(other, b, d, key)
    ensures c == d
    ensures c.Analysis? ==> tenant.name(a) == other.name(b)
    ensures !c.Comparison? ==> tenant.organization == other.organization && tenant.workspace == other.workspace
  {
    var parts := Parts(key);
    if c.Source? {
      assert parts[..5][1] == parts[1] && parts[..5][3] == parts[3];
    } else if c.Analysis? {
      assert parts[..7][1] == parts[1] && parts[..7][3] == parts[3] && parts[..7][5] == parts[5];
    } else if !c.Comparison? {
      assert parts[..3][1] == parts[1] && parts[..3][2] == parts[2];
      assert parts[4..][1] == parts[5] && "manifest.json"[0] != "report.pdf"[0];
    }
  }

  /** The recovery object of a repaired package has seven parts and is refused by every category,
      so a deletion whose inventory holds one can never finish. */
  lemma RecoveryKeysAreRefused(tenant: Tenant, agreement: nat, category: Category, key: string)
    requires |Parts(key)| == 7 && Parts(key)[0] == "reviews"
    ensures !ValidOwnedKey(tenant, agreement, category, key)
  {
    assert Parts(key)[..5][0] == "reviews" && "tenants"[0] != "reviews"[0];
  }

  // ---- paths

  lemma FirstPart(key: string)
    requires key != ""
    ensures var rest := Parts(key[1..]);
            Parts(key) == if key[0] == '/' then [""] + rest else [[key[0]] + rest[0]] + rest[1..]
  {
  }

  /** Parts of a path are joined as paths are. */
  lemma {:induction false} PartsOfJoined(a: string, b: string)
    ensures Parts(a + "/" + b) == Parts(a) + Parts(b)
  {
    var key := a + "/" + b;
    FirstPart(key);
    if a == "" {
      assert key[1..] == b;
    } else {
      PartsOfJoined(a[1..], b);
      FirstPart(a);
      assert key[1..] == a[1..] + "/" + b && key[0] == a[0];
    }
  }

  lemma {:induction false} OnePart(id: string)
    requires '/' !in id
    ensures Parts(id) == [id]
  {
    if id != "" {
      OnePart(id[1..]);
      assert id == [id[0]] + id[1..];
    }
  }

  /** One more part at the end of a path. */
  lemma PartAppended(path: string, id: string)
    requires '/' !in id
    ensures Parts(path + "/" + id) == Parts(path) + [id]
  {
    PartsOfJoined(path, id);
    OnePart(id);
  }

  lemma {:induction false} PartsOfJoin(parts: seq<string>)
    requires parts != [] && forall p :: p in parts ==> '/' !in p
    ensures Parts(Join("/", parts)) == parts
  {
    OnePart(parts[0]);
    if |parts| > 1 {
      PartsOfJoin(parts[1..]);
      PartsOfJoined(parts[0], Join("/", parts[1..]));
    }
  }

  lemma {:induction false} PartsHoldNoSlash(key: string)
    ensures forall p :: p in Parts(key) ==> '/' !in p
  {
    if key != "" {
      PartsHoldNoSlash(key[1..]);
      FirstPart(key);
    }
  }

  /** Identifiers are rendered without a slash, as UUIDs are. */
  predicate Slashless(tenant: Tenant, agreement: nat) {
    '/' !in tenant.organization && '/' !in tenant.workspace && '/' !in tenant.name(agreement)
  }

  // ---- the keys that are owned, spelled out

  /** A source document: the two content types, under the hash of the upload. */
  lemma SourceKeysAre(tenant: Tenant, agreement: nat, key: string)
    requires Slashless(tenant, agreement)
    ensures ValidOwnedKey(tenant, agreement, Source, key) <==> exists hash, file ::
      && key == Join("/", ["tenants", tenant.organization, "workspaces", tenant.workspace, "documents", hash, file])
      && |hash| == 64 && (forall c :: c in hash ==> '0' <= c <= '9' || 'a' <= c <= 'f')
      && file in {"original.pdf", "original.docx"}
  {
    var parts := Parts(key);
    PartsRoundTrip(key);
    if SourceShaped(tenant, key) {
      assert parts == parts[..5] + [parts[5], parts[6]];
      assert parts == ["tenants", tenant.organization, "workspaces", tenant.workspace, "documents", parts[5], parts[6]];
    }
    forall hash, file | key == Join("/", ["tenants", tenant.organization, "workspaces", tenant.workspace, "documents",
                                          hash, file]) && IsSha256(hash) && file in {"original.pdf", "original.docx"}
      ensures SourceShaped(tenant, key)
    {
      var path := ["tenants", tenant.organization, "workspaces", tenant.workspace, "documents", hash, file];
      PartsOfJoin(path);
      assert path[..5] == ["tenants", tenant.organization, "workspaces", tenant.workspace, "documents"];
    }
  }

  /** `_artifact_key` of the document processor. */
  function AnalysisKey(tenant: Tenant, agreement: nat, checksum: string): string {
    Join("/", ["tenants", tenant.organization, "workspaces", tenant.workspace, "agreements", tenant.name(agreement),
               "analysis", checksum, "document-analysis.v1.json"])
  }

  lemma AnalysisParts(tenant: Tenant, agreement: nat, checksum: string)
    requires Slashless(tenant, agreement) && '/' !in checksum
    ensures Parts(AnalysisKey(tenant, agreement, checksum))
      == ["tenants", tenant.organization, "workspaces", tenant.workspace, "agreements", tenant.name(agreement),
          "analysis", checksum, "document-analysis.v1.json"]
  {
    PartsOfJoin(["tenants", tenant.organization, "workspaces", tenant.workspace, "agreements", tenant.name(agreement),
                 "analysis", checksum, "document-analysis.v1.json"]);
  }

  /** The key of an analysis is owned by its agreement exactly when it names a checksum. */
  lemma AnalysisKeyIsOwned(tenant: Tenant, agreement: nat, checksum: string)
    requires Slashless(tenant, agreement) && '/' !in checksum
    ensures ValidOwnedKey(tenant, agreement, Analysis, AnalysisKey(tenant, agreement, checksum)) <==>
            |checksum| == 64 && forall c :: c in checksum ==> '0' <= c <= '9' || 'a' <= c <= 'f'
  {
    AnalysisParts(tenant, agreement, checksum);
    var parts := Parts(AnalysisKey(tenant, agreement, checksum));
    assert parts[..7] == ["tenants", tenant.organization, "workspaces", tenant.workspace, "agreements",
                          tenant.name(agreement), "analysis"];
  }

  /** ... and no other key is. */
  lemma AnalysisKeysAre(tenant: Tenant, agreement: nat, key: string) returns (hash: string)
    requires ValidOwnedKey(tenant, agreement, Analysis, key)
    ensures key == Join("/", ["tenants", tenant.organization, "workspaces", tenant.workspace, "agreements",
                              tenant.name(agreement), "analysis", hash, "document-analysis.v1.json"])
    ensures |hash| == 64 && forall c :: c in hash ==> '0' <= c <= '9' || 'a' <= c <= 'f'
  {
    var parts := Parts(key);
    PartsRoundTrip(key);
    hash := parts[7];
    assert parts == parts[..7] + [parts[7], parts[8]];
    assert parts == ["tenants", tenant.organization, "workspaces", tenant.workspace, "agreements",
                     tenant.name(agreement), "analysis", hash, "document-analysis.v1.json"];
  }

  lemma ComparisonKeysAre(tenant: Tenant, agreement: nat, key: string)
    ensures ValidOwnedKey(tenant, agreement, Comparison, key) <==> exists id ::
      key == Join("/", ["comparisons", id, "version-comparison.v1.json"]) && '/' !in id && tenant.isUuid(id)
  {
    var parts := Parts(key);
    PartsRoundTrip(key);
    PartsHoldNoSlash(key);
    if ValidOwnedKey(tenant, agreement, Comparison, key) {
      assert parts == ["comparisons", parts[1], "version-comparison.v1.json"] && parts[1] in parts;
    }
    forall id | key == Join("/", ["comparisons", id, "version-comparison.v1.json"]) && '/' !in id && tenant.isUuid(id)
      ensures ValidOwnedKey(tenant, agreement, Comparison, key)
    {
      PartsOfJoin(["comparisons", id, "version-comparison.v1.json"]);
    }
  }

  /** The two objects of a final package. */
  lemma ReviewKeysAre(tenant: Tenant, agreement: nat, category: Category, key: string) returns (review: string)
    requires ValidOwnedKey(tenant, agreement, category, key) && (category == ReviewManifest || category == ReviewPdf)
    ensures key == Join("/", ["reviews", tenant.organization, tenant.workspace, review, "final-package",
                              if category == ReviewManifest then "manifest.json" else "report.pdf"])
    ensures '/' !in review && tenant.isUuid(review)
  {
    var parts := Parts(key);
    PartsRoundTrip(key);
    PartsHoldNoSlash(key);
    review := parts[3];
    assert parts == parts[..3] + [parts[3]] + parts[4..] && review in parts;
    assert parts == ["reviews", tenant.organization, tenant.workspace, review, "final-package",
                     if category == ReviewManifest then "manifest.json" else "report.pdf"];
  }

}
