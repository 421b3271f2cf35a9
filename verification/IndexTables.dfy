/** The retrieval index tables: builds, their chunk rows and the embeddings of those rows. */
module IndexTables {
  import opened Prelude
  import opened Chunking

  datatype BuildState = Building | Active | Stale
  datatype Build = Build(agreement: nat, checksum: string, state: BuildState, createdAt: nat, activatedAt: Option<nat>)

  datatype ChunkKey = ChunkKey(agreement: nat, build: nat, id: string)
  datatype ChunkRow = ChunkRow(checksum: string, ordinal: nat, path: seq<string>, anchors: seq<string>, content: string)

  datatype EmbeddingKey = EmbeddingKey(chunk: ChunkKey, indexVersion: string, dimensions: nat)
  datatype EmbeddingState = Ready | Failed | Unavailable
  datatype Embedding = Embedding(state: EmbeddingState, vector: Option<seq<real>>, model: string,
                                 configurationVersion: string, inputTokens: Option<nat>, failure: Option<string>)

  /** `readable` are the agreements of the tenant without a deletion request: those the completion fence
      lets through. */
  datatype Tables = Tables(readable: set<nat>, builds: map<nat, Build>,
                           chunks: map<ChunkKey, ChunkRow>, embeddings: map<EmbeddingKey, Embedding>)

  // ---- the constraints of the schema

  predicate BothActive(a: Build, b: Build) {
    a.agreement == b.agreement && a.state == Active && b.state == Active
  }

  ghost predicate OneActive(builds: map<nat, Build>) {
    forall a, b :: a in builds && b in builds && BothActive(builds[a], builds[b]) ==> a == b
  }

  predicate Matches(b: Build, agreement: nat, checksum: string) {
    b.agreement == agreement && b.checksum == checksum
  }

  ghost predicate OnePerSource(builds: map<nat, Build>) {
    forall a, b :: a in builds && b in builds && Matches(builds[a], builds[b].agreement, builds[b].checksum) ==> a == b
  }

  ghost predicate ChunksHaveBuilds(t: Tables) {
    forall k :: k in t.chunks ==> k.build in t.builds && t.builds[k.build].agreement == k.agreement
  }

  ghost predicate EmbeddingsHaveChunks(t: Tables) {
    forall e :: e in t.embeddings ==> e.chunk in t.chunks
  }

  ghost predicate Constraints(t: Tables) {
    OneActive(t.builds) && OnePerSource(t.builds) && ChunksHaveBuilds(t) && EmbeddingsHaveChunks(t)
  }

  // ---- index activation

  function RowOf(checksum: string, c: Chunk): ChunkRow {
    ChunkRow(checksum, c.ordinal, c.path, c.anchors, c.text)
  }

  predicate UniqueIds(chunks: seq<Chunk>) {
    forall i, j :: 0 <= i < j < |chunks| ==> chunks[i].id != chunks[j].id
  }

  /** The rows one build holds for a chunk list. */
  function RowMap(agreement: nat, build: nat, checksum: string, chunks: seq<Chunk>): map<ChunkKey, ChunkRow>
    requires UniqueIds(chunks)
  {
    map i | 0 <= i < |chunks| :: ChunkKey(agreement, build, chunks[i].id) := RowOf(checksum, chunks[i])
  }

  ghost function FindBuild(t: Tables, agreement: nat, checksum: string): (r: Option<nat>)
    ensures r.Some? ==> r.value in t.builds && Matches(t.builds[r.value], agreement, checksum)
    ensures r.None? ==> forall b :: b in t.builds ==> !Matches(t.builds[b], agreement, checksum)
  {
    if exists b :: b in t.builds && Matches(t.builds[b], agreement, checksum)
    then var b :| b in t.builds && Matches(t.builds[b], agreement, checksum); Some(b)
    else None
  }

  /** The source is already indexed: its build is the active one. */
  predicate AlreadyActive(t: Tables, agreement: nat, checksum: string) {
    exists b :: b in t.builds && Matches(t.builds[b], agreement, checksum) && t.builds[b].state == Active
  }

  function StaleIds(t: Tables, agreement: nat, id: nat): set<nat> {
    set b | b in t.builds && t.builds[b].agreement == agreement && t.builds[b].state == Active && b != id
  }

  function ActivatedBuilds(t: Tables, agreement: nat, checksum: string, id: nat, now: nat): map<nat, Build> {
    var stale := StaleIds(t, agreement, id);
    (map b | b in t.builds :: if b in stale then t.builds[b].(state := Stale) else t.builds[b])
    [id := if id in t.builds then t.builds[id].(state := Active, activatedAt := Some(now))
           else Build(agreement, checksum, Active, now, Some(now))]
  }

  /** Build `id` becomes the agreement's active build with exactly these chunk rows; the former active
      build loses its rows. */
  function Activated(t: Tables, agreement: nat, checksum: string, chunks: seq<Chunk>, id: nat, now: nat): Tables
    requires UniqueIds(chunks)
  {
    var stale := StaleIds(t, agreement, id);
    t.(builds := ActivatedBuilds(t, agreement, checksum, id, now),
       chunks := (map k | k in t.chunks && k.build != id && k.build !in stale :: t.chunks[k])
         + RowMap(agreement, id, checksum, chunks),
       embeddings := map e | e in t.embeddings && e.chunk.build !in stale :: t.embeddings[e])
  }

  /** One run of the index sink. An empty or colliding chunk list violates a constraint of the insert and rolls back. */
  ghost function IndexTx(t: Tables, agreement: nat, checksum: string, chunks: seq<Chunk>, unused: nat,
      now: nat): Tables
  {
    var found := FindBuild(t, agreement, checksum);
    if agreement !in t.readable then t
    else if found.Some? && t.builds[found.value].state == Active then t
    else if chunks == [] || !UniqueIds(chunks) then t
    else Activated(t, agreement, checksum, chunks, if found.Some? then found.value else unused, now)
  }

  // ---- what every run keeps

  /** Between transactions no build is half made, and only active builds hold rows. */
  ghost predicate Settled(t: Tables) {
    && (forall b :: b in t.builds ==> t.builds[b].state != Building)
    && (forall k :: k in t.chunks ==> k.build in t.builds && t.builds[k.build].state == Active)
  }

  function RowsOfBuild(t: Tables, b: nat): map<ChunkKey, ChunkRow> {
    map k | k in t.chunks && k.build == b :: t.chunks[k]
  }

  /** Returning to an older source: its build holds no row any more, so deleting its chunk rows breaks no
      reference of an embedding. */
  lemma RebuildDeletesNothing(t: Tables, b: nat)
    requires Settled(t) && Constraints(t) && b in t.builds && t.builds[b].state != Active
    ensures RowsOfBuild(t, b) == map[]
    ensures forall e :: e in t.embeddings ==> e.chunk.build != b
  {
    forall e | e in t.embeddings ensures e.chunk.build != b {
      assert e.chunk in t.chunks;
    }
  }

  /** Rows of other agreements are out of reach of an activation. */
  lemma ActivationIsLocal(t: Tables, agreement: nat, checksum: string, chunks: seq<Chunk>, id: nat, now: nat, b: nat)
    requires UniqueIds(chunks) && ChunksHaveBuilds(t) && b in t.builds && t.builds[b].agreement != agreement && b != id
    ensures var u := Activated(t, agreement, checksum, chunks, id, now);
            u.builds[b] == t.builds[b] && RowsOfBuild(u, b) == RowsOfBuild(t, b)
  {
  }

  lemma ActivatedBuildsAgree(t: Tables, agreement: nat, checksum: string, id: nat, now: nat)
    requires OneActive(t.builds) && OnePerSource(t.builds)
    requires id in t.builds ==> Matches(t.builds[id], agreement, checksum)
    requires id !in t.builds ==> FindBuild(t, agreement, checksum).None?
    ensures var builds := ActivatedBuilds(t, agreement, checksum, id, now);
            OneActive(builds) && OnePerSource(builds)
  {
  }

  /** The former active build is the only one that loses rows; the new one holds exactly the chunk list. */
  lemma ActivatedRows(t: Tables, agreement: nat, checksum: string, chunks: seq<Chunk>, id: nat, now: nat, k: ChunkKey)
    requires Settled(t) && ChunksHaveBuilds(t) && UniqueIds(chunks)
    requires id in t.builds ==> Matches(t.builds[id], agreement, checksum)
    ensures var u := Activated(t, agreement, checksum, chunks, id, now);
            && (k in u.chunks ==>
               k.build in u.builds && u.builds[k.build].agreement == k.agreement && u.builds[k.build].state == Active)
            && (k.build == id ==> (k in u.chunks <==> k in RowMap(agreement, id, checksum, chunks)))
  {
  }

  lemma ActivatedEmbedding(t: Tables, agreement: nat, checksum: string, chunks: seq<Chunk>, id: nat, now: nat,
      e: EmbeddingKey)
    requires Settled(t) && EmbeddingsHaveChunks(t) && UniqueIds(chunks)
    requires id in t.builds ==> t.builds[id].state != Active
    requires e in Activated(t, agreement, checksum, chunks, id, now).embeddings
    ensures e.chunk in Activated(t, agreement, checksum, chunks, id, now).chunks
  {
    assert e.chunk in t.chunks;
  }

  lemma ActivationKeepsConstraints(t: Tables, agreement: nat, checksum: string, chunks: seq<Chunk>, id: nat, now: nat)
    requires Constraints(t) && Settled(t) && UniqueIds(chunks)
    requires id in t.builds ==> Matches(t.builds[id], agreement, checksum) && t.builds[id].state != Active
    requires id !in t.builds ==> FindBuild(t, agreement, checksum).None?
    ensures Constraints(Activated(t, agreement, checksum, chunks, id, now))
    ensures Settled(Activated(t, agreement, checksum, chunks, id, now))
  {
    var u := Activated(t, agreement, checksum, chunks, id, now);
    ActivatedBuildsAgree(t, agreement, checksum, id, now);
    forall k ensures k in u.chunks ==>
      k.build in u.builds && u.builds[k.build].agreement == k.agreement && u.builds[k.build].state == Active {
      ActivatedRows(t, agreement, checksum, chunks, id, now, k);
    }
    forall e | e in u.embeddings ensures e.chunk in u.chunks {
      ActivatedEmbedding(t, agreement, checksum, chunks, id, now, e);
    }
  }

  /** The build holds a row for each chunk, field by field, and no other row. */
  ghost predicate HoldsChunks(t: Tables, agreement: nat, build: nat, checksum: string, chunks: seq<Chunk>) {
    && (forall i :: 0 <= i < |chunks| ==>
          var key := ChunkKey(agreement, build, chunks[i].id);
          && key in t.chunks
          && t.chunks[key].checksum == checksum && t.chunks[key].ordinal == chunks[i].ordinal
          && t.chunks[key].path == chunks[i].path && t.chunks[key].anchors == chunks[i].anchors
          && t.chunks[key].content == chunks[i].text)
    && (forall k :: k in t.chunks && k.build == build ==>
          exists i :: 0 <= i < |chunks| && chunks[i].id == k.id && k.agreement == agreement)
  }

  lemma RowsHoldChunks(t: Tables, agreement: nat, build: nat, checksum: string, chunks: seq<Chunk>)
    requires UniqueIds(chunks) && RowsOfBuild(t, build) == RowMap(agreement, build, checksum, chunks)
    ensures HoldsChunks(t, agreement, build, checksum, chunks)
  {
    var rows := RowMap(agreement, build, checksum, chunks);
    forall i | 0 <= i < |chunks| ensures ChunkKey(agreement, build, chunks[i].id) in rows {
    }
    assert forall k :: k in rows <==> k in t.chunks && k.build == build;
  }

  lemma HoldingCarries(t: Tables, u: Tables, agreement: nat, build: nat, checksum: string, chunks: seq<Chunk>)
    requires HoldsChunks(t, agreement, build, checksum, chunks) && RowsOfBuild(u, build) == RowsOfBuild(t, build)
    ensures HoldsChunks(u, agreement, build, checksum, chunks)
  {
    forall k: ChunkKey | k.build == build
      ensures k in u.chunks <==> k in t.chunks
      ensures k in u.chunks ==> u.chunks[k] == t.chunks[k]
    {
      assert k in u.chunks <==> k in RowsOfBuild(u, build);
      assert k in t.chunks <==> k in RowsOfBuild(t, build);
    }
  }

  /** An activated build holds exactly the chunks it was made from. */
  lemma ActivationHoldsTheChunks(t: Tables, agreement: nat, checksum: string, chunks: seq<Chunk>, id: nat, now: nat)
    requires UniqueIds(chunks)
    ensures HoldsChunks(Activated(t, agreement, checksum, chunks, id, now), agreement, id, checksum, chunks)
  {
    var rows := RowMap(agreement, id, checksum, chunks);
    var u := Activated(t, agreement, checksum, chunks, id, now);
    assert forall k :: k in rows ==> k in u.chunks && u.chunks[k] == rows[k] && k.build == id;
    assert RowsOfBuild(u, id) == rows;
    RowsHoldChunks(u, agreement, id, checksum, chunks);
  }

  /** The build was the active one of this agreement. */
  predicate Retires(t: Tables, agreement: nat, id: nat, b: nat) {
    b != id && b in t.builds && t.builds[b].agreement == agreement && t.builds[b].state == Active
  }

  /** What an activation does to the other builds and to their rows and embeddings. */
  lemma ActivationRetiresTheFormerBuild(t: Tables, agreement: nat, checksum: string, chunks: seq<Chunk>, id: nat,
      now: nat, b: nat, k: ChunkKey, e: EmbeddingKey)
    requires UniqueIds(chunks)
    ensures var u := Activated(t, agreement, checksum, chunks, id, now);
            && u.readable == t.readable && id in u.builds && (b in u.builds <==> b == id || b in t.builds)
            && u.builds[id] == (if id in t.builds then t.builds[id].(state := Active, activatedAt := Some(now))
                                else Build(agreement, checksum, Active, now, Some(now)))
            && (b in t.builds && b != id ==>
                  u.builds[b] == if Retires(t, agreement, id, b) then t.builds[b].(state := Stale) else t.builds[b])
            && (k.build != id ==> (k in u.chunks <==> k in t.chunks && !Retires(t, agreement, id, k.build)))
            && (k.build != id && k in u.chunks ==> u.chunks[k] == t.chunks[k])
            && (e in u.embeddings <==> e in t.embeddings && !Retires(t, agreement, id, e.chunk.build))
            && (e in u.embeddings ==> u.embeddings[e] == t.embeddings[e])
  {
    assert b in StaleIds(t, agreement, id) <==> Retires(t, agreement, id, b);
    assert k.build in StaleIds(t, agreement, id) <==> Retires(t, agreement, id, k.build);
    assert e.chunk.build in StaleIds(t, agreement, id) <==> Retires(t, agreement, id, e.chunk.build);
  }

}
