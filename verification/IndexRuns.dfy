/** Every run of the index and embedding writers, with deletions in between, keeps one exact active build. */
module IndexRuns {
  import opened Chunking
  import opened IndexTables

  /** The tables, the document each build was last made from, and the agreements whose deletion was accepted
      or whose rows were purged. */
  datatype World = World(t: Tables, origin: map<nat, seq<Block>>, retired: set<nat>, purged: set<nat>)

  datatype Step =
    | Create(agreement: nat)
    | Accept(agreement: nat)
    | Purge(agreement: nat)
    | Index(agreement: nat, checksum: string, blocks: seq<Block>, unused: nat, now: nat)
    | Embed(agreement: nat, rows: map<EmbeddingKey, Embedding>)

  predicate WellFormed(blocks: seq<Block>) {
    forall b :: b in blocks ==> !Malformed(b)
  }

  function PurgeTx(t: Tables, agreement: nat): Tables {
    t.(builds := map b | b in t.builds && t.builds[b].agreement != agreement :: t.builds[b],
       chunks := map k | k in t.chunks && k.agreement != agreement :: t.chunks[k],
       embeddings := map e | e in t.embeddings && e.chunk.agreement != agreement :: t.embeddings[e])
  }

  /** One run of the embedding sink writes rows for chunks its query returned, behind the same fence. */
  function EmbedTx(t: Tables, agreement: nat, rows: map<EmbeddingKey, Embedding>): Tables {
    if agreement in t.readable then t.(embeddings := t.embeddings + rows) else t
  }

  ghost predicate Enabled(w: World, s: Step) {
    match s
    case Create(a) => a !in w.retired
    case Accept(a) => a in w.t.readable
    case Purge(a) => a in w.retired
    case Index(_, _, _, unused, _) => unused !in w.t.builds
    case Embed(a, rows) => forall e :: e in rows ==> e.chunk in w.t.chunks && e.chunk.agreement == a
  }

  ghost function Indexed(digest: Digest, w: World, a: nat, checksum: string, blocks: seq<Block>, unused: nat,
      now: nat): World
  {
    if !WellFormed(blocks) then w
    else
      var u := IndexTx(w.t, a, checksum, ChunksOf(digest, checksum, Groups(blocks)), unused, now);
      if u == w.t then w
      else
        var found := FindBuild(w.t, a, checksum);
        w.(t := u, origin := w.origin[if found.Some? then found.value else unused := blocks])
  }

  ghost function Apply(digest: Digest, w: World, s: Step): World {
    match s
    case Create(a) => w.(t := w.t.(readable := w.t.readable + {a}))
    case Accept(a) => w.(t := w.t.(readable := w.t.readable - {a}), retired := w.retired + {a})
    case Purge(a) => w.(t := PurgeTx(w.t, a), purged := w.purged + {a})
    case Index(a, checksum, blocks, unused, now) => Indexed(digest, w, a, checksum, blocks, unused, now)
    case Embed(a, rows) => w.(t := EmbedTx(w.t, a, rows))
  }

  const EMPTY := World(Tables({}, map[], map[], map[]), map[], {}, {})

  ghost predicate Legal(digest: Digest, steps: seq<Step>) {
    steps == [] || (Legal(digest, steps[..|steps| - 1])
      && Enabled(After(digest, steps[..|steps| - 1]), steps[|steps| - 1]))
  }

  ghost function After(digest: Digest, steps: seq<Step>): World {
    if steps == [] then EMPTY else Apply(digest, After(digest, steps[..|steps| - 1]), steps[|steps| - 1])
  }

  // ---- the invariant

  /** An active build's rows are the chunker's output for the document it was made from. */
  ghost predicate Pure(digest: Digest, w: World, b: nat)
    requires b in w.t.builds
  {
    w.t.builds[b].state == Active ==>
      && b in w.origin
      && var chunks := ChunksOf(digest, w.t.builds[b].checksum, Groups(w.origin[b]));
         HoldsChunks(w.t, w.t.builds[b].agreement, b, w.t.builds[b].checksum, chunks)
  }

  ghost predicate Gone(t: Tables, a: nat) {
    && a !in t.readable
    && (forall b :: b in t.builds ==> t.builds[b].agreement != a)
    && (forall k :: k in t.chunks ==> k.agreement != a)
    && (forall e :: e in t.embeddings ==> e.chunk.agreement != a)
  }

  ghost predicate Fenced(w: World) {
    && w.purged <= w.retired && w.retired !! w.t.readable
    && forall a :: a in w.purged ==> Gone(w.t, a)
  }

  ghost predicate Invariant(digest: Digest, w: World) {
    && Constraints(w.t) && Settled(w.t) && Fenced(w)
    && forall b :: b in w.t.builds ==> Pure(digest, w, b)
  }

  // ---- it is kept

  lemma PureStays(digest: Digest, w: World, v: World, b: nat)
    requires b in w.t.builds && b in v.t.builds && w.t.builds[b] == v.t.builds[b]
    requires b in w.origin ==> b in v.origin && v.origin[b] == w.origin[b]
    requires Pure(digest, w, b) && RowsOfBuild(v.t, b) == RowsOfBuild(w.t, b)
    ensures Pure(digest, v, b)
  {
    var build := w.t.builds[b];
    if build.state == Active {
      var chunks := ChunksOf(digest, build.checksum, Groups(w.origin[b]));
      HoldingCarries(w.t, v.t, build.agreement, b, build.checksum, chunks);
    }
  }

  lemma PureUntouched(digest: Digest, w: World, v: World, b: nat)
    requires b in w.t.builds && Pure(digest, w, b)
    requires v.t.builds == w.t.builds && v.t.chunks == w.t.chunks && v.origin == w.origin
    ensures Pure(digest, v, b)
  {
    assert RowsOfBuild(v.t, b) == RowsOfBuild(w.t, b);
    PureStays(digest, w, v, b);
  }

  lemma IndexKeepsPure(digest: Digest, w: World, a: nat, checksum: string, blocks: seq<Block>, unused: nat, now: nat,
      b: nat)
    requires Invariant(digest, w) && unused !in w.t.builds
    requires b in Indexed(digest, w, a, checksum, blocks, unused, now).t.builds
    ensures Pure(digest, Indexed(digest, w, a, checksum, blocks, unused, now), b)
  {
    var v := Indexed(digest, w, a, checksum, blocks, unused, now);
    if v != w {
      var chunks := ChunksOf(digest, checksum, Groups(blocks));
      var found := FindBuild(w.t, a, checksum);
      var id := if found.Some? then found.value else unused;
      if b == id {
        ActivationHoldsTheChunks(w.t, a, checksum, chunks, id, now);
      } else if b in w.t.builds && w.t.builds[b].agreement != a {
        ActivationIsLocal(w.t, a, checksum, chunks, id, now, b);
        PureStays(digest, w, v, b);
      }
    } else {
      assert Pure(digest, w, b);
    }
  }

  lemma IndexKeepsGone(digest: Digest, w: World, a: nat, checksum: string, blocks: seq<Block>, unused: nat, now: nat)
    requires Invariant(digest, w)
    ensures Fenced(Indexed(digest, w, a, checksum, blocks, unused, now))
  {
    var v := Indexed(digest, w, a, checksum, blocks, unused, now);
    forall x | x in v.purged ensures Gone(v.t, x) {
      assert Gone(w.t, x);
    }
  }

  lemma IndexKeeps(digest: Digest, w: World, a: nat, checksum: string, blocks: seq<Block>, unused: nat, now: nat)
    requires Invariant(digest, w) && unused !in w.t.builds
    ensures Invariant(digest, Indexed(digest, w, a, checksum, blocks, unused, now))
  {
    var v := Indexed(digest, w, a, checksum, blocks, unused, now);
    if v != w {
      var found := FindBuild(w.t, a, checksum);
      var id := if found.Some? then found.value else unused;
      ActivationKeepsConstraints(w.t, a, checksum, ChunksOf(digest, checksum, Groups(blocks)), id, now);
    }
    IndexKeepsGone(digest, w, a, checksum, blocks, unused, now);
    forall b | b in v.t.builds ensures Pure(digest, v, b) {
      IndexKeepsPure(digest, w, a, checksum, blocks, unused, now, b);
    }
  }

  lemma PurgeKeepsTables(t: Tables, a: nat)
    requires Constraints(t) && Settled(t)
    ensures Constraints(PurgeTx(t, a)) && Settled(PurgeTx(t, a))
    ensures forall x :: (x == a && a !in t.readable) || Gone(t, x) ==> Gone(PurgeTx(t, a), x)
  {
  }

  lemma PurgeKeepsRows(t: Tables, a: nat, b: nat)
    requires ChunksHaveBuilds(t) && b in PurgeTx(t, a).builds
    ensures RowsOfBuild(PurgeTx(t, a), b) == RowsOfBuild(t, b)
  {
  }

  lemma PurgeKeeps(digest: Digest, w: World, a: nat)
    requires Invariant(digest, w) && Enabled(w, Purge(a))
    ensures Invariant(digest, Apply(digest, w, Purge(a)))
  {
    var v := Apply(digest, w, Purge(a));
    PurgeKeepsTables(w.t, a);
    forall b | b in v.t.builds ensures Pure(digest, v, b) {
      PurgeKeepsRows(w.t, a, b);
      PureStays(digest, w, v, b);
    }
  }

  lemma EmbedKeepsTables(t: Tables, a: nat, rows: map<EmbeddingKey, Embedding>)
    requires Constraints(t) && Settled(t)
    requires forall e :: e in rows ==> e.chunk in t.chunks && e.chunk.agreement == a
    ensures Constraints(EmbedTx(t, a, rows)) && Settled(EmbedTx(t, a, rows))
    ensures forall x :: Gone(t, x) ==> Gone(EmbedTx(t, a, rows), x)
  {
  }

  lemma EmbedKeeps(digest: Digest, w: World, a: nat, rows: map<EmbeddingKey, Embedding>)
    requires Invariant(digest, w) && Enabled(w, Embed(a, rows))
    ensures Invariant(digest, Apply(digest, w, Embed(a, rows)))
  {
    var v := Apply(digest, w, Embed(a, rows));
    EmbedKeepsTables(w.t, a, rows);
    forall b | b in v.t.builds ensures Pure(digest, v, b) {
      PureUntouched(digest, w, v, b);
    }
  }

  lemma FenceKeeps(digest: Digest, w: World, s: Step)
    requires Invariant(digest, w) && Enabled(w, s) && (s.Create? || s.Accept?)
    ensures Invariant(digest, Apply(digest, w, s))
  {
    var v := Apply(digest, w, s);
    forall x | x in v.purged ensures Gone(v.t, x) {
      assert Gone(w.t, x);
    }
    forall b | b in v.t.builds ensures Pure(digest, v, b) {
      PureUntouched(digest, w, v, b);
    }
  }

  /** The index invariant over every run: at most one active build per agreement, rows and embeddings only
      for it, its chunk rows exactly the chunker's output, and nothing left or brought back after a purge. */
  lemma {:induction false} InvariantOverRun(digest: Digest, steps: seq<Step>)
    requires Legal(digest, steps)
    ensures Invariant(digest, After(digest, steps))
  {
    if steps != [] {
      var before, s := steps[..|steps| - 1], steps[|steps| - 1];
      var w := After(digest, before);
      InvariantOverRun(digest, before);
      match s
      case Create(_) => FenceKeeps(digest, w, s);
      case Accept(_) => FenceKeeps(digest, w, s);
      case Purge(a) => PurgeKeeps(digest, w, a);
      case Index(a, checksum, blocks, unused, now) => IndexKeeps(digest, w, a, checksum, blocks, unused, now);
      case Embed(a, rows) => EmbedKeeps(digest, w, a, rows);
    }
  }

  // ---- what follows

  ghost predicate IsActive(t: Tables, b: nat, a: nat) {
    b in t.builds && t.builds[b].state == Active && t.builds[b].agreement == a
  }

  /** After any run, every stored chunk and embedding of an agreement belongs to its one active build. */
  lemma RowsOnlyForTheActiveBuild(digest: Digest, steps: seq<Step>, b: nat, a: nat)
    requires Legal(digest, steps) && IsActive(After(digest, steps).t, b, a)
    ensures var t := After(digest, steps).t;
            && (forall c :: IsActive(t, c, a) ==> c == b)
            && (forall k :: k in t.chunks && k.agreement == a ==> k.build == b)
            && (forall e :: e in t.embeddings && e.chunk.agreement == a ==> e.chunk.build == b && e.chunk in t.chunks)
  {
    InvariantOverRun(digest, steps);
    var t := After(digest, steps).t;
    forall c | IsActive(t, c, a) ensures c == b {
      assert BothActive(t.builds[c], t.builds[b]);
    }
    forall k | k in t.chunks && k.agreement == a ensures k.build == b {
      assert IsActive(t, k.build, a);
    }
    forall e | e in t.embeddings && e.chunk.agreement == a ensures e.chunk.build == b && e.chunk in t.chunks {
      assert IsActive(t, e.chunk.build, a);
    }
  }

  /** After any run: builds are active or stale, one for each source; a row belongs to the active build of its
      agreement, and that build holds exactly the chunks of the document it was last made from. */
  lemma StoredRowsAreLive(digest: Digest, steps: seq<Step>, b: nat, c: nat, k: ChunkKey, e: EmbeddingKey)
    requires Legal(digest, steps)
    ensures var w := After(digest, steps);
            && (k in w.t.chunks ==> IsActive(w.t, k.build, k.agreement))
            && (e in w.t.embeddings ==> e.chunk in w.t.chunks)
            && (b in w.t.builds ==> w.t.builds[b].state == Active || w.t.builds[b].state == Stale)
            && (b in w.t.builds && c in w.t.builds && w.t.builds[b].agreement == w.t.builds[c].agreement ==>
                  (w.t.builds[b].checksum == w.t.builds[c].checksum ==> b == c))
            && (b in w.t.builds && w.t.builds[b].state == Active ==>
                  && b in w.origin
                  && var checksum := w.t.builds[b].checksum;
                     HoldsChunks(w.t, w.t.builds[b].agreement, b, checksum,
                       ChunksOf(digest, checksum, Groups(w.origin[b]))))
  {
    InvariantOverRun(digest, steps);
    var w := After(digest, steps);
    if b in w.t.builds {
      assert Pure(digest, w, b);
      if c in w.t.builds && w.t.builds[b].checksum == w.t.builds[c].checksum {
        assert Matches(w.t.builds[b], w.t.builds[b].agreement, w.t.builds[c].checksum);
      }
    }
  }

  /** A purge removes every row of its agreement and no other. */
  lemma PurgeRemovesExactly(t: Tables, a: nat, b: nat, k: ChunkKey, e: EmbeddingKey)
    ensures var u := PurgeTx(t, a);
            && u.readable == t.readable
            && (b in u.builds <==> b in t.builds && t.builds[b].agreement != a)
            && (b in u.builds ==> u.builds[b] == t.builds[b])
            && (k in u.chunks <==> k in t.chunks && k.agreement != a) && (k in u.chunks ==> u.chunks[k] == t.chunks[k])
            && (e in u.embeddings <==> e in t.embeddings && e.chunk.agreement != a)
            && (e in u.embeddings ==> u.embeddings[e] == t.embeddings[e])
  {
  }

  lemma IndexTxActivates(t: Tables, a: nat, checksum: string, chunks: seq<Chunk>, unused: nat, now: nat)
    returns (b: nat)
    requires a in t.readable && chunks != [] && UniqueIds(chunks) && unused !in t.builds
    ensures var u := IndexTx(t, a, checksum, chunks, unused, now);
            IsActive(u, b, a) && u.builds[b].checksum == checksum
    ensures OnePerSource(t.builds) ==>
              var u := IndexTx(t, a, checksum, chunks, unused, now);
              if exists c :: IsActive(t, c, a) && t.builds[c].checksum == checksum then u == t
              else HoldsChunks(u, a, b, checksum, chunks)
  {
    var found := FindBuild(t, a, checksum);
    b := if found.Some? then found.value else unused;
    ActivationHoldsTheChunks(t, a, checksum, chunks, b, now);
    if OnePerSource(t.builds) {
      forall c | IsActive(t, c, a) && t.builds[c].checksum == checksum ensures b == c {
        assert Matches(t.builds[c], t.builds[b].agreement, t.builds[b].checksum);
      }
    }
  }

  /** Indexing a readable agreement, also when returning to an older source, makes the build of that source
      the active one and its rows the chunks of the document it was made from. */
  lemma IndexingActivatesTheSource(digest: Digest, steps: seq<Step>, a: nat, checksum: string, blocks: seq<Block>,
      unused: nat, now: nat)
    returns (b: nat)
    requires Legal(digest, steps) && Enabled(After(digest, steps), Index(a, checksum, blocks, unused, now))
    requires a in After(digest, steps).t.readable && WellFormed(blocks)
    requires var chunks := ChunksOf(digest, checksum, Groups(blocks)); chunks != [] && UniqueIds(chunks)
    ensures var w := Indexed(digest, After(digest, steps), a, checksum, blocks, unused, now);
            IsActive(w.t, b, a) && w.t.builds[b].checksum == checksum && Pure(digest, w, b)
    ensures var t := After(digest, steps).t;
            var u := Indexed(digest, After(digest, steps), a, checksum, blocks, unused, now).t;
            if exists c :: IsActive(t, c, a) && t.builds[c].checksum == checksum then u == t
            else HoldsChunks(u, a, b, checksum, ChunksOf(digest, checksum, Groups(blocks)))
  {
    InvariantOverRun(digest, steps);
    var w := After(digest, steps);
    b := IndexTxActivates(w.t, a, checksum, ChunksOf(digest, checksum, Groups(blocks)), unused, now);
    IndexKeeps(digest, w, a, checksum, blocks, unused, now);
  }

  /** Indexing the same source twice changes nothing the second time. */
  lemma IndexingTwiceIsOnce(t: Tables, a: nat, checksum: string, chunks: seq<Chunk>, more: seq<Chunk>, unused: nat,
      next: nat, now: nat, later: nat)
    requires Constraints(t) && Settled(t) && unused !in t.builds && chunks != [] && UniqueIds(chunks)
    ensures var u := IndexTx(t, a, checksum, chunks, unused, now);
            IndexTx(u, a, checksum, more, next, later) == u
  {
    var u := IndexTx(t, a, checksum, chunks, unused, now);
    if a in t.readable {
      var found := FindBuild(t, a, checksum);
      var id := if found.Some? then found.value else unused;
      if u != t {
        ActivationKeepsConstraints(t, a, checksum, chunks, id, now);
      }
      assert Matches(u.builds[id], a, checksum) && u.builds[id].state == Active;
      var again := FindBuild(u, a, checksum);
      assert Matches(u.builds[again.value], u.builds[id].agreement, u.builds[id].checksum);
    }
  }

}
