/** The two writers of the retrieval index, statement by statement. */
module IndexSink {
  import opened Prelude
  import opened Text
  import opened Chunking
  import opened IndexTables

  /** One connection to the index tables. Each statement demands what the schema's constraints demand of it. */
  class RetrievalStore {
    var readable: set<nat>
    var builds: map<nat, Build>
    var chunks: map<ChunkKey, ChunkRow>
    var embeddings: map<EmbeddingKey, Embedding>

    constructor ()
      ensures Rows() == Tables({}, map[], map[], map[])
    {
      readable, builds, chunks, embeddings := {}, map[], map[], map[];
    }

    ghost function Rows(): Tables
      reads this
    {
      Tables(readable, builds, chunks, embeddings)
    }

    method DeleteChunks(ids: set<nat>)
      requires forall e :: e in embeddings ==> e.chunk.build !in ids
      modifies this`chunks
      ensures chunks == map k | k in old(chunks) && k.build !in ids :: old(chunks)[k]
    {
      chunks := map k | k in chunks && k.build !in ids :: chunks[k];
    }

    method DeleteEmbeddings(ids: set<nat>)
      modifies this`embeddings
      ensures embeddings == map e | e in old(embeddings) && e.chunk.build !in ids :: old(embeddings)[e]
    {
      embeddings := map e | e in embeddings && e.chunk.build !in ids :: embeddings[e];
    }

    method DeleteEmbedding(e: EmbeddingKey)
      modifies this`embeddings
      ensures embeddings == old(embeddings) - {e}
    {
      embeddings := embeddings - {e};
    }

    method InsertEmbedding(e: EmbeddingKey, row: Embedding)
      requires e.chunk in chunks && e !in embeddings
      modifies this`embeddings
      ensures embeddings == old(embeddings)[e := row]
    {
      embeddings := embeddings[e := row];
    }

    method InsertChunks(agreement: nat, build: nat, checksum: string, made: seq<Chunk>)
      requires build in builds && builds[build].agreement == agreement
      requires UniqueIds(made) && forall k :: k in chunks ==> k.build != build
      modifies this`chunks
      ensures chunks == old(chunks) + RowMap(agreement, build, checksum, made)
      ensures HoldsChunks(Rows(), agreement, build, checksum, made)
    {
      var before := chunks;
      for i := 0 to |made|
        invariant UniqueIds(made[..i]) && chunks == before + RowMap(agreement, build, checksum, made[..i])
      {
        OneMoreRow(before, agreement, build, checksum, made, i);
        chunks := chunks[ChunkKey(agreement, build, made[i].id) := RowOf(checksum, made[i])];
      }
      assert made[..|made|] == made;
      RowMapBuild(agreement, build, checksum, made);
      assert RowsOfBuild(Rows(), build) == RowMap(agreement, build, checksum, made);
      RowsHoldChunks(Rows(), agreement, build, checksum, made);
    }

    method MarkStale(ids: set<nat>)
      modifies this`builds
      ensures builds == map b | b in old(builds) :: if b in ids then old(builds)[b].(state := Stale) else old(builds)[b]
    {
      builds := map b | b in builds :: if b in ids then builds[b].(state := Stale) else builds[b];
    }

    method Activate(id: nat, now: nat)
      requires id in builds
      requires forall b :: b in builds && b != id && builds[b].state == Active ==>
               builds[b].agreement != builds[id].agreement
      modifies this`builds
      ensures builds == old(builds)[id := old(builds)[id].(state := Active, activatedAt := Some(now))]
    {
      builds := builds[id := builds[id].(state := Active, activatedAt := Some(now))];
    }

    method SelectBuild(agreement: nat, checksum: string) returns (r: Option<nat>)
      requires OnePerSource(builds)
      ensures r == FindBuild(Rows(), agreement, checksum)
      ensures r.Some? ==>
                r.value in builds && builds[r.value].agreement == agreement && builds[r.value].checksum == checksum
      ensures r.None? ==>
                forall b :: b in builds ==> !(builds[b].agreement == agreement && builds[b].checksum == checksum)
    {
      if b :| b in builds && Matches(builds[b], agreement, checksum) {
        r := Some(b);
        assert Matches(builds[b], agreement, checksum);
        ghost var found := FindBuild(Rows(), agreement, checksum);
        assert found.Some? && Matches(builds[found.value], builds[b].agreement, builds[b].checksum);
      } else {
        r := None;
      }
    }

    /** `SQLAlchemyDocumentIndexSink.completed`. The result is false when an exception rolls the transaction back. */
    method CompleteIndex(digest: Digest, agreement: nat, checksum: string, blocks: seq<Block>, unused: nat, now: nat)
      returns (ok: bool)
      requires Constraints(Rows()) && Settled(Rows()) && unused !in builds
      modifies this
      ensures Constraints(Rows()) && Settled(Rows())
      ensures var made := ChunksOf(digest, checksum, Groups(blocks));
              var active := exists b :: b in old(builds) && old(builds)[b].agreement == agreement
                              && old(builds)[b].checksum == checksum && old(builds)[b].state == Active;
              && (ok <==>
                    && (forall b :: b in blocks ==> b.text != "" && (Strip(b.text) == "" || b.anchor != ""))
                    && (agreement !in readable || active
                        || (made != [] && forall i, j :: 0 <= i < j < |made| ==> made[i].id != made[j].id)))
              && (!ok || agreement !in readable || active ==> Rows() == old(Rows()))
              && (ok && agreement in readable && !active ==>
                    exists id :: id in builds && builds[id].agreement == agreement && builds[id].checksum == checksum
                      && builds[id].state == Active && HoldsChunks(Rows(), agreement, id, checksum, made))
      ensures ok ==> Rows() == IndexTx(old(Rows()), agreement, checksum, ChunksOf(digest, checksum, Groups(blocks)),
              unused, now)
    {
      var made := StructuralChunks(digest, checksum, blocks);
      if made.None? {
        return false;
      }
      if agreement !in readable {
        return true;
      }
      var found := SelectBuild(agreement, checksum);
      ActiveIsFound(Rows(), agreement, checksum);
      if found.Some? && builds[found.value].state == Active {
        return true;
      }
      if made.value == [] || !UniqueIds(made.value) {
        return false;
      }
      ActivationKeepsConstraints(Rows(), agreement, checksum, made.value,
        if found.Some? then found.value else unused, now);
      WriteBuild(agreement, checksum, made.value, found, unused, now);
      ok := true;
    }

    /** The writes of one index transaction, in the source's order; no statement meets a violated constraint. */
    method WriteBuild(agreement: nat, checksum: string, made: seq<Chunk>, found: Option<nat>, unused: nat, now: nat)
      requires Constraints(Rows()) && Settled(Rows()) && unused !in builds && UniqueIds(made)
      requires found == FindBuild(Rows(), agreement, checksum) && (found.Some? ==> builds[found.value].state != Active)
      modifies this
      ensures Rows() == Activated(old(Rows()), agreement, checksum, made,
              if found.Some? then found.value else unused, now)
      ensures HoldsChunks(Rows(), agreement, if found.Some? then found.value else unused, checksum, made)
    {
      ActivationHoldsTheChunks(Rows(), agreement, checksum, made, if found.Some? then found.value else unused, now);
      var id := if found.Some? then found.value else unused;
      NoEmbeddingOf(Rows(), id);
      ReplaceRows(agreement, checksum, made, id, now);
    }

    method ReplaceRows(agreement: nat, checksum: string, made: seq<Chunk>, id: nat, now: nat)
      requires UniqueIds(made)
      requires id in builds ==> builds[id].agreement == agreement && builds[id].state != Active
      requires forall k :: k in chunks ==> k.build != id
      requires forall e :: e in embeddings ==> e.chunk.build != id
      modifies this
      ensures Rows() == Activated(old(Rows()), agreement, checksum, made, id, now)
    {
      ghost var t := Rows();
      FillBuild(agreement, checksum, made, id, now);
      WrittenBuilds(t, Rows(), agreement, checksum, id, now);
      var stale := SwitchBuild(agreement, id, now);
      DeleteEmbeddings(stale);
      WrittenChunks(t, agreement, checksum, made, id, now, chunks);
      DeleteChunks(stale);
    }

    method FillBuild(agreement: nat, checksum: string, made: seq<Chunk>, id: nat, now: nat)
      requires UniqueIds(made) && (id in builds ==> builds[id].agreement == agreement)
      requires forall k :: k in chunks ==> k.build != id
      requires forall e :: e in embeddings ==> e.chunk.build != id
      modifies this`builds, this`chunks
      ensures builds == if id in old(builds) then old(builds)
              else old(builds)[id := Build(agreement, checksum, Building, now, None)]
      ensures chunks == old(chunks) + RowMap(agreement, id, checksum, made)
    {
      if id !in builds {
        builds := builds[id := Build(agreement, checksum, Building, now, None)];
      } else {
        DeleteChunks({id});
        assert chunks == old(chunks);
      }
      InsertChunks(agreement, id, checksum, made);
    }

    method SwitchBuild(agreement: nat, id: nat, now: nat) returns (stale: set<nat>)
      requires id in builds && builds[id].agreement == agreement && builds[id].state != Active
      modifies this`builds
      ensures stale == StaleIds(old(Rows()), agreement, id)
      ensures builds == (map b | b in old(builds) :: if b in stale then old(builds)[b].(state := Stale)
              else old(builds)[b])
                        [id := old(builds)[id].(state := Active, activatedAt := Some(now))]
    {
      stale := set b | b in builds && builds[b].agreement == agreement && builds[b].state == Active && b != id;
      MarkStale(stale);
      Activate(id, now);
    }
  }

  lemma ActiveIsFound(t: Tables, agreement: nat, checksum: string)
    requires OnePerSource(t.builds)
    ensures var found := FindBuild(t, agreement, checksum);
            AlreadyActive(t, agreement, checksum) <==> found.Some? && t.builds[found.value].state == Active
  {
    var found := FindBuild(t, agreement, checksum);
    forall b | b in t.builds && Matches(t.builds[b], agreement, checksum) ensures found == Some(b) {
      assert Matches(t.builds[b], t.builds[found.value].agreement, t.builds[found.value].checksum);
    }
  }

  lemma OneMoreRow(before: map<ChunkKey, ChunkRow>, agreement: nat, build: nat, checksum: string, made: seq<Chunk>,
      i: nat)
    requires UniqueIds(made) && i < |made|
    ensures UniqueIds(made[..i]) && UniqueIds(made[..i + 1])
    ensures before + RowMap(agreement, build, checksum, made[..i + 1])
      == (before + RowMap(agreement, build, checksum, made[..i]))[ChunkKey(agreement, build, made[i].id) :=
        RowOf(checksum, made[i])]
  {
    var rows := RowMap(agreement, build, checksum, made[..i + 1]);
    var key := ChunkKey(agreement, build, made[i].id);
    assert made[..i + 1][i] == made[i];
    assert key in rows && rows[key] == RowOf(checksum, made[i]);
    assert forall j :: 0 <= j < i ==> made[..i + 1][j] == made[..i][j];
    AddToMerge(before, RowMap(agreement, build, checksum, made[..i]), key, RowOf(checksum, made[i]));
    assert rows == RowMap(agreement, build, checksum, made[..i])[key := RowOf(checksum, made[i])];
  }

  lemma AddToMerge<K, V>(a: map<K, V>, b: map<K, V>, k: K, v: V)
    ensures a + b[k := v] == (a + b)[k := v]
  {
  }

  lemma RowMapBuild(agreement: nat, build: nat, checksum: string, made: seq<Chunk>)
    requires UniqueIds(made)
    ensures forall k :: k in RowMap(agreement, build, checksum, made) ==> k.build == build
  {
  }

  lemma WrittenBuilds(t: Tables, u: Tables, agreement: nat, checksum: string, id: nat, now: nat)
    requires id in t.builds ==> t.builds[id].state != Active
    requires u.builds == if id in t.builds then t.builds
             else t.builds[id := Build(agreement, checksum, Building, now, None)]
    ensures StaleIds(u, agreement, id) == StaleIds(t, agreement, id)
    ensures ActivatedBuilds(t, agreement, checksum, id, now)
      == (map b | b in u.builds :: if b in StaleIds(u, agreement, id) then u.builds[b].(state := Stale)
        else u.builds[b])
         [id := u.builds[id].(state := Active, activatedAt := Some(now))]
  {
    assert StaleIds(u, agreement, id) == StaleIds(t, agreement, id);
  }

  lemma WrittenChunks(t: Tables, agreement: nat, checksum: string, made: seq<Chunk>, id: nat, now: nat,
      all: map<ChunkKey, ChunkRow>)
    requires UniqueIds(made) && all == t.chunks + RowMap(agreement, id, checksum, made)
    requires forall k :: k in t.chunks ==> k.build != id
    ensures (map k | k in all && k.build !in StaleIds(t, agreement, id) :: all[k])
      == Activated(t, agreement, checksum, made, id, now).chunks
  {
    RowMapBuild(agreement, id, checksum, made);
  }

  lemma NoEmbeddingOf(t: Tables, id: nat)
    requires Constraints(t) && Settled(t)
    requires id in t.builds ==> t.builds[id].state != Active
    ensures forall k :: k in t.chunks ==> k.build != id
    ensures forall e :: e in t.embeddings ==> e.chunk.build != id
  {
    forall e | e in t.embeddings ensures e.chunk.build != id {
      assert e.chunk in t.chunks;
    }
  }

}
