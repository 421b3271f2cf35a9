/** Embedding of active chunks: batches, retries, and rows that are replaced whole. */
module EmbeddingSink {
  import opened Prelude
  import opened IndexTables
  import opened IndexSink
  import IndexRuns

  datatype Configuration = Configuration(model: string, dimensions: nat, indexVersion: string, batchSize: nat,
      maxRetries: nat)

  /** The active configuration's version, and the model its route names for the gateway. */
  datatype Route = Route(version: string, model: string)

  datatype Reply =
    | Vectors(vectors: seq<seq<real>>, model: string, inputTokens: Option<nat>)
    | Down(reason: string)
    | Invalid

  /** What the provider answers to the batch at this offset, attempt by attempt; None when no gateway is configured. */
  type Gateway = Option<(nat, nat) -> Reply>

  function ActiveModel(c: Configuration, route: Route, gateway: Gateway): string {
    if gateway.Some? then route.model else c.model
  }

  function KeyOf(c: Configuration, k: ChunkKey): EmbeddingKey {
    EmbeddingKey(k, c.indexVersion, c.dimensions)
  }

  predicate ReadyFor(t: Tables, c: Configuration, version: string, model: string, k: ChunkKey) {
    var e := KeyOf(c, k);
    && e in t.embeddings && t.embeddings[e].state == Ready
    && t.embeddings[e].model == model && t.embeddings[e].configurationVersion == version
  }

  predicate Wanted(t: Tables, a: nat, c: Configuration, version: string, model: string, k: ChunkKey) {
    && k in t.chunks && k.agreement == a && k.build in t.builds && t.builds[k.build].state == Active
    && !ReadyFor(t, c, version, model, k)
  }

  function Ordinal(t: Tables, k: ChunkKey): nat {
    if k in t.chunks then t.chunks[k].ordinal else 0
  }

  predicate Distinct(pending: seq<ChunkKey>) {
    forall i, j :: 0 <= i < j < |pending| ==> pending[i] != pending[j]
  }

  /** The answer of the query: exactly the wanted chunks, each once, by ordinal. */
  ghost predicate Answers(t: Tables, a: nat, c: Configuration, version: string, model: string, pending: seq<ChunkKey>) {
    && (forall k :: k in pending <==> Wanted(t, a, c, version, model, k))
    && Distinct(pending) && InOrder(t, pending)
  }

  /** The first answer that is not an outage, within the retries; else the last outage. */
  function Answer(ask: (nat, nat) -> Reply, offset: nat, attempt: nat, last: nat): Reply
    requires attempt <= last
    decreases last - attempt
  {
    if ask(offset, attempt).Down? && attempt < last then Answer(ask, offset, attempt + 1, last)
      else ask(offset, attempt)
  }

  predicate Shaped(vectors: seq<seq<real>>, size: nat, dimensions: nat) {
    |vectors| == size && forall v :: v in vectors ==> |v| == dimensions
  }

  /** `ceil(tokens / size)`. */
  function TokenShare(tokens: Option<nat>, size: nat): Option<nat>
    requires size > 0
  {
    if tokens.None? then None else Some((tokens.value + size - 1) / size)
  }

  function RowFor(c: Configuration, version: string, reply: Option<Reply>, size: nat, position: nat): Embedding
    requires position < size
  {
    if reply.None? then Embedding(Unavailable, None, c.model, version, None, Some("embedding_provider_unconfigured"))
    else match reply.value
      case Down(reason) =>
        Embedding(Unavailable, None, c.model, version, None,
          Some(if reason == "" then "embedding_provider_unavailable" else reason))
      case Invalid => Embedding(Unavailable, None, c.model, version, None, Some("embedding_response_invalid"))
      case Vectors(vectors, model, tokens) =>
        if Shaped(vectors, size, c.dimensions)
        then Embedding(Ready, Some(vectors[position]), model, version, TokenShare(tokens, size), None)
        else Embedding(Failed, None, model, version, TokenShare(tokens, size), Some("embedding_dimension_mismatch"))
  }

  function BatchReply(c: Configuration, gateway: Gateway, offset: nat): Option<Reply> {
    if gateway.None? then None else Some(Answer(gateway.value, offset, 1, c.maxRetries + 1))
  }

  function BatchLength(c: Configuration, n: nat, offset: nat): nat
    requires offset <= n
  {
    if n - offset < c.batchSize then n - offset else c.batchSize
  }

  /** The multiples of the batch size: where `_batches` starts the batch that holds position i. */
  function BatchStart(size: nat, i: nat): (start: nat)
    requires size > 0
    ensures start <= i < start + size
  {
    if i < size then 0 else size + BatchStart(size, i - size)
  }

  /** The row chunk i of n pending ones gets: its own position in the answer to its own batch. */
  function RowAt(c: Configuration, version: string, gateway: Gateway, n: nat, i: nat): Embedding
    requires c.batchSize > 0 && i < n
  {
    var offset := BatchStart(c.batchSize, i);
    RowFor(c, version, BatchReply(c, gateway, offset), BatchLength(c, n, offset), i - offset)
  }

  function RunRows(c: Configuration, version: string, gateway: Gateway, n: nat): seq<Embedding>
    requires c.batchSize > 0
  {
    seq(n, i requires 0 <= i < n => RowAt(c, version, gateway, n, i))
  }

  /** The first `upto` chunks with their rows. */
  function Put(c: Configuration, pending: seq<ChunkKey>, rows: seq<Embedding>, upto: nat): map<EmbeddingKey, Embedding>
    requires upto <= |pending| == |rows|
  {
    if upto == 0 then map[] else Put(c, pending, rows, upto - 1)[KeyOf(c, pending[upto - 1]) := rows[upto - 1]]
  }

  /** The rows one run writes. */
  function NewRows(c: Configuration, version: string, gateway: Gateway, pending: seq<ChunkKey>)
    : map<EmbeddingKey, Embedding>
    requires c.batchSize > 0
  {
    Put(c, pending, RunRows(c, version, gateway, |pending|), |pending|)
  }

  class EmbeddingIndexSink {
    const configuration: Configuration
    const gateway: Gateway

    constructor (configuration: Configuration, gateway: Gateway)
      ensures this.configuration == configuration && this.gateway == gateway
    {
      this.configuration, this.gateway := configuration, gateway;
    }

    method ActiveUnembeddedChunks(store: RetrievalStore, a: nat, version: string, model: string)
      returns (pending: seq<ChunkKey>)
      ensures Answers(store.Rows(), a, configuration, version, model, pending)
      ensures forall k :: k in pending <==>
                && k in store.chunks && k.agreement == a
                && k.build in store.builds && store.builds[k.build].state == Active
                && var e := EmbeddingKey(k, configuration.indexVersion, configuration.dimensions);
                   !(e in store.embeddings && store.embeddings[e].state == Ready && store.embeddings[e].model == model
                     && store.embeddings[e].configurationVersion == version)
      ensures forall i, j :: 0 <= i < j < |pending| ==> pending[i] != pending[j]
      ensures forall i, j :: 0 <= i < j < |pending| && pending[i] in store.chunks && pending[j] in store.chunks ==>
                store.chunks[pending[i]].ordinal <= store.chunks[pending[j]].ordinal
    {
      var t := Tables(store.readable, store.builds, store.chunks, store.embeddings);
      var left := set k | k in t.chunks && Wanted(t, a, configuration, version, model, k);
      pending := [];
      while left != {}
        invariant forall k :: Wanted(t, a, configuration, version, model, k) <==> k in left || k in pending
        invariant Picked(t, pending, left)
        decreases |left|
      {
        ghost var first := Earliest(t, left);
        var k :| k in left && forall x :: x in left ==> Ordinal(t, k) <= Ordinal(t, x);
        PickNext(t, pending, left, k);
        pending, left := pending + [k], left - {k};
      }
      AnswersAre(t, a, configuration, version, model, pending);
    }

    /** The retry loop: it stops at the first answer that is no outage, and never asks more than
        maxRetries + 1 times. */
    method AskGateway(ask: (nat, nat) -> Reply, offset: nat) returns (reply: Reply, attempts: nat)
      ensures 1 <= attempts <= configuration.maxRetries + 1 && reply == ask(offset, attempts)
      ensures forall n :: 1 <= n < attempts ==> ask(offset, n).Down?
      ensures reply.Down? ==> attempts == configuration.maxRetries + 1
      ensures reply == Answer(ask, offset, 1, configuration.maxRetries + 1)
    {
      attempts := 1;
      reply := ask(offset, 1);
      while reply.Down? && attempts <= configuration.maxRetries
        invariant 1 <= attempts <= configuration.maxRetries + 1 && reply == ask(offset, attempts)
        invariant forall n :: 1 <= n < attempts ==> ask(offset, n).Down?
        invariant Answer(ask, offset, 1, configuration.maxRetries + 1) ==
                  Answer(ask, offset, attempts, configuration.maxRetries + 1)
      {
        attempts := attempts + 1;
        reply := ask(offset, attempts);
      }
    }

    /** `_replace_batch`: delete and insert, row by row; the new rows join those of the batches before. */
    method ReplaceBatch(store: RetrievalStore, version: string, pending: seq<ChunkKey>, offset: nat,
                        reply: Option<Reply>, ghost before: map<EmbeddingKey, Embedding>, ghost rows: seq<Embedding>)
      requires offset <= |pending| == |rows| && reply == BatchReply(configuration, gateway, offset)
      requires forall k :: k in pending ==> k in store.chunks
      requires BatchRows(configuration, version, reply, rows, offset, BatchLength(configuration, |pending|, offset))
      requires store.embeddings == before + Put(configuration, pending, rows, offset)
      modifies store`embeddings
      ensures var next := offset + BatchLength(configuration, |pending|, offset);
              store.embeddings == before + Put(configuration, pending, rows, next)
    {
      var size := BatchLength(configuration, |pending|, offset);
      for p := 0 to size
        invariant store.embeddings == before + Put(configuration, pending, rows, offset + p)
      {
        var e := KeyOf(configuration, pending[offset + p]);
        OneMoreEmbedding(configuration, pending, rows, offset + p, before);
        store.DeleteEmbedding(e);
        store.InsertEmbedding(e, RowFor(configuration, version, reply, size, p));
      }
    }

    /** `_embed_batch`: false when a reindex job must not accept a row that is not ready. */
    method EmbedBatch(store: RetrievalStore, version: string, pending: seq<ChunkKey>, offset: nat, reindex: bool,
                      ghost before: map<EmbeddingKey, Embedding>, ghost rows: seq<Embedding>) returns (ok: bool)
      requires offset < |pending| && AtBatch(configuration, |pending|, offset)
      requires forall k :: k in pending ==> k in store.chunks
      requires |rows| == |pending| && BatchAnswered(configuration, version, gateway, rows, offset)
      requires store.embeddings == before + Put(configuration, pending, rows, offset)
      modifies store`embeddings
      ensures var next := offset + BatchLength(configuration, |pending|, offset);
              && (ok <==> !reindex || AllReady(rows, offset, next))
              && (ok ==> store.embeddings == before + Put(configuration, pending, rows, next))
    {
      var reply := AnswerBatch(offset);
      var size := BatchLength(configuration, |pending|, offset);
      BatchIsReadyOrNot(configuration, version, reply, rows, offset, size);
      if reindex && !AnswerIsReady(configuration, reply, size) {
        return false;
      }
      ReplaceBatch(store, version, pending, offset, reply, before, rows);
      ok := true;
    }

    method AnswerBatch(offset: nat) returns (reply: Option<Reply>)
      ensures reply == BatchReply(configuration, gateway, offset)
    {
      reply := None;
      if gateway.Some? {
        var answer, attempts := AskGateway(gateway.value, offset);
        reply := Some(answer);
      }
    }

    /** `SQLAlchemyEmbeddingIndexSink.completed`; on false the transaction rolled back. An agreement behind
        the fence is left alone before the configuration is looked up; without an active configuration the
        run raises. */
    method CompleteEmbedding(store: RetrievalStore, a: nat, route: Option<Route>, reindex: bool)
      returns (ok: bool, pending: seq<ChunkKey>)
      requires configuration.batchSize > 0
      modifies store`embeddings
      ensures a !in store.readable || route.None? ==> pending == [] && store.embeddings == old(store.embeddings)
      ensures ok <==> a !in store.readable
                      || (route.Some? && (!reindex || forall i :: 0 <= i < |pending| ==>
                            RunRows(configuration, route.value.version, gateway, |pending|)[i].state == Ready))
      ensures a in store.readable && route.Some? ==>
                && Answers(old(store.Rows()), a, configuration, route.value.version,
                           if gateway.Some? then route.value.model else configuration.model, pending)
                && store.embeddings == if ok
                   then old(store.embeddings) + NewRows(configuration, route.value.version, gateway, pending)
                   else old(store.embeddings)
    {
      pending := [];
      if a !in store.readable {
        return true, pending;
      }
      if route.None? {
        return false, pending;
      }
      var model := if gateway.Some? then route.value.model else configuration.model;
      pending := ActiveUnembeddedChunks(store, a, route.value.version, model);
      ok := EmbedAll(store, route.value.version, pending, reindex);
    }

    method EmbedAll(store: RetrievalStore, version: string, pending: seq<ChunkKey>, reindex: bool) returns (ok: bool)
      requires configuration.batchSize > 0 && forall k :: k in pending ==> k in store.chunks
      modifies store`embeddings
      ensures var rows := RunRows(configuration, version, gateway, |pending|);
              ok <==> !reindex || AllReady(rows, 0, |rows|)
      ensures store.embeddings
           == if ok then old(store.embeddings) + NewRows(configuration, version, gateway, pending)
             else old(store.embeddings)
    {
      ghost var rows := RunRows(configuration, version, gateway, |pending|);
      forall offset: nat | AtBatch(configuration, |rows|, offset) && offset < |rows|
        ensures BatchAnswered(configuration, version, gateway, rows, offset)
      {
        RowsOfBatch(configuration, version, gateway, |pending|, offset);
      }
      ok := EmbedBatches(store, version, pending, reindex, rows);
    }

    /** The loop over the batches; a refused one rolls all of them back. */
    method EmbedBatches(store: RetrievalStore, version: string, pending: seq<ChunkKey>, reindex: bool,
                        ghost rows: seq<Embedding>) returns (ok: bool)
      requires configuration.batchSize > 0 && |rows| == |pending| && forall k :: k in pending ==> k in store.chunks
      requires forall offset: nat :: AtBatch(configuration, |rows|, offset) && offset < |rows| ==>
                 BatchAnswered(configuration, version, gateway, rows, offset)
      modifies store`embeddings
      ensures ok <==> !reindex || AllReady(rows, 0, |rows|)
      ensures store.embeddings ==
              if ok then old(store.embeddings) + Put(configuration, pending, rows, |pending|) else old(store.embeddings)
    {
      var saved := store.embeddings;
      var offset: nat := 0;
      PutNothing(configuration, pending, rows, saved);
      while offset < |pending|
        invariant offset <= |pending| && AtBatch(configuration, |pending|, offset)
        invariant store.embeddings == saved + Put(configuration, pending, rows, offset)
        invariant reindex ==> AllReady(rows, 0, offset)
        decreases |pending| - offset
      {
        var done := EmbedBatch(store, version, pending, offset, reindex, saved, rows);
        var next := offset + BatchLength(configuration, |pending|, offset);
        ReachNext(configuration, |pending|, offset);
        if !done {
          NotAllReady(rows, offset, next);
          store.embeddings := saved;
          return false;
        }
        if reindex { ReadyJoined(rows, offset, next); }
        offset := next;
      }
      ok := true;
    }
  }

  lemma {:induction false} SameBatch(size: nat, offset: nat, p: nat)
    requires size > 0 && BatchStart(size, offset) == offset && p < size
    ensures BatchStart(size, offset + p) == offset
  {
    if offset >= size {
      SameBatch(size, offset - size, p);
    }
  }

  lemma {:induction false} NextBatch(size: nat, offset: nat)
    requires size > 0 && BatchStart(size, offset) == offset
    ensures BatchStart(size, offset + size) == offset + size
  {
  }

  /** Where the next batch begins, or the end. */
  predicate AtBatch(c: Configuration, n: nat, offset: nat) {
    c.batchSize > 0 && (offset < n ==> BatchStart(c.batchSize, offset) == offset)
  }

  lemma ReachNext(c: Configuration, n: nat, offset: nat)
    requires offset < n && AtBatch(c, n, offset)
    ensures var next := offset + BatchLength(c, n, offset);
            offset < next <= n && AtBatch(c, n, next)
  {
    NextBatch(c.batchSize, offset);
  }

  lemma PutNothing(c: Configuration, pending: seq<ChunkKey>, rows: seq<Embedding>, before: map<EmbeddingKey, Embedding>)
    requires |pending| == |rows|
    ensures before + Put(c, pending, rows, 0) == before
  {
  }

  lemma NotAllReady(rows: seq<Embedding>, from: nat, to: nat)
    requires from <= to <= |rows| && !AllReady(rows, from, to)
    ensures !AllReady(rows, 0, |rows|)
  {
  }

  lemma ReadyJoined(rows: seq<Embedding>, middle: nat, to: nat)
    requires AllReady(rows, 0, middle) && AllReady(rows, middle, to)
    ensures AllReady(rows, 0, to)
  {
  }

  predicate AnswerIsReady(c: Configuration, reply: Option<Reply>, size: nat) {
    reply.Some? && reply.value.Vectors? && Shaped(reply.value.vectors, size, c.dimensions)
  }

  /** The rows of one batch answer to one reply. */
  ghost predicate BatchRows(c: Configuration, version: string, reply: Option<Reply>, rows: seq<Embedding>, offset: nat,
      size: nat)
  {
    && offset + size <= |rows|
    && forall i :: offset <= i < offset + size ==> rows[i] == RowFor(c, version, reply, size, i - offset)
  }

  /** The rows of the batch at this offset are what its reply makes of them. */
  ghost predicate BatchAnswered(c: Configuration, version: string, gateway: Gateway, rows: seq<Embedding>,
      offset: nat)
  {
    && offset < |rows|
    && BatchRows(c, version, BatchReply(c, gateway, offset), rows, offset, BatchLength(c, |rows|, offset))
  }

  lemma RowsOfBatch(c: Configuration, version: string, gateway: Gateway, n: nat, offset: nat)
    requires offset < n && AtBatch(c, n, offset)
    ensures BatchAnswered(c, version, gateway, RunRows(c, version, gateway, n), offset)
  {
    var rows, size := RunRows(c, version, gateway, n), BatchLength(c, n, offset);
    forall i | offset <= i < offset + size
      ensures rows[i] == RowFor(c, version, BatchReply(c, gateway, offset), size, i - offset)
    {
      SameBatch(c.batchSize, offset, i - offset);
      RowIsAnswered(c, version, gateway, n, i, offset);
    }
  }

  lemma RowIsAnswered(c: Configuration, version: string, gateway: Gateway, n: nat, i: nat, offset: nat)
    requires c.batchSize > 0 && i < n && BatchStart(c.batchSize, i) == offset
    ensures RunRows(c, version, gateway, n)[i] ==
            RowFor(c, version, BatchReply(c, gateway, offset), BatchLength(c, n, offset), i - offset)
  {
  }

  ghost predicate AllReady(rows: seq<Embedding>, from: nat, to: nat) {
    from <= to <= |rows| && forall i :: from <= i < to ==> rows[i].state == Ready
  }

  /** All rows of a batch are ready or none is. */
  lemma BatchIsReadyOrNot(c: Configuration, version: string, reply: Option<Reply>, rows: seq<Embedding>, offset: nat,
      size: nat)
    requires BatchRows(c, version, reply, rows, offset, size) && size > 0
    ensures AllReady(rows, offset, offset + size) <==> AnswerIsReady(c, reply, size)
  {
    assert rows[offset].state == Ready <==> AnswerIsReady(c, reply, size);
  }

  /** The new rows are one for each of the chunks, and no others. */
  lemma {:induction false} PutRows(c: Configuration, pending: seq<ChunkKey>, rows: seq<Embedding>, upto: nat)
    requires upto <= |pending| == |rows| && Distinct(pending)
    ensures forall i :: 0 <= i < upto ==> KeyOf(c, pending[i]) in Put(c, pending, rows, upto)
    ensures forall i :: 0 <= i < upto ==> Put(c, pending, rows, upto)[KeyOf(c, pending[i])] == rows[i]
    ensures forall e :: e in Put(c, pending, rows, upto) ==> e.chunk in pending && e == KeyOf(c, e.chunk)
  {
    if upto > 0 {
      PutRows(c, pending, rows, upto - 1);
      assert pending[upto - 1] in pending;
    }
  }

  lemma ReplaceInMerge<K, V>(a: map<K, V>, b: map<K, V>, k: K, v: V)
    ensures a + b[k := v] == ((a + b) - {k})[k := v]
  {
  }

  lemma OneMoreEmbedding(c: Configuration, pending: seq<ChunkKey>, rows: seq<Embedding>, i: nat,
      before: map<EmbeddingKey, Embedding>)
    requires i < |pending| == |rows|
    ensures before + Put(c, pending, rows, i + 1)
         == ((before + Put(c, pending, rows, i)) - {KeyOf(c, pending[i])})[KeyOf(c, pending[i]) := rows[i]]
  {
    ReplaceInMerge(before, Put(c, pending, rows, i), KeyOf(c, pending[i]), rows[i]);
  }

  predicate InOrder(t: Tables, pending: seq<ChunkKey>) {
    forall i, j :: 0 <= i < j < |pending| ==> Ordinal(t, pending[i]) <= Ordinal(t, pending[j])
  }

  /** Chunks picked so far, by ordinal, each once, and none later than one that is left. */
  predicate Picked(t: Tables, pending: seq<ChunkKey>, left: set<ChunkKey>) {
    && Distinct(pending) && InOrder(t, pending)
    && (forall k :: k in left ==> k !in pending)
    && (forall i, k :: 0 <= i < |pending| && k in left ==> Ordinal(t, pending[i]) <= Ordinal(t, k))
  }

  lemma AnswersAre(t: Tables, a: nat, c: Configuration, version: string, model: string, pending: seq<ChunkKey>)
    requires Answers(t, a, c, version, model, pending)
    ensures forall k :: k in pending <==>
              && k in t.chunks && k.agreement == a && k.build in t.builds && t.builds[k.build].state == Active
              && var e := EmbeddingKey(k, c.indexVersion, c.dimensions);
                 !(e in t.embeddings && t.embeddings[e].state == Ready && t.embeddings[e].model == model
                   && t.embeddings[e].configurationVersion == version)
    ensures forall i, j :: 0 <= i < j < |pending| && pending[i] in t.chunks && pending[j] in t.chunks ==>
              t.chunks[pending[i]].ordinal <= t.chunks[pending[j]].ordinal
  {
    forall k ensures k in pending <==> Wanted(t, a, c, version, model, k) {
    }
    forall i, j | 0 <= i < j < |pending| ensures Ordinal(t, pending[i]) <= Ordinal(t, pending[j]) {
    }
  }

  lemma PickNext(t: Tables, pending: seq<ChunkKey>, left: set<ChunkKey>, k: ChunkKey)
    requires Picked(t, pending, left) && k in left && forall x :: x in left ==> Ordinal(t, k) <= Ordinal(t, x)
    ensures Picked(t, pending + [k], left - {k})
  {
  }

  lemma Earliest(t: Tables, s: set<ChunkKey>) returns (k: ChunkKey)
    requires s != {}
    ensures k in s && forall x :: x in s ==> Ordinal(t, k) <= Ordinal(t, x)
  {
    var y :| y in s;
    k := y;
    if s != {y} {
      var z := Earliest(t, s - {y});
      k := if Ordinal(t, y) < Ordinal(t, z) then y else z;
      forall x | x in s ensures Ordinal(t, k) <= Ordinal(t, x) {
        assert x == y || x in s - {y};
      }
    }
  }

  /** The row of chunk i, in full. Batches start at the multiples of the batch size; a batch is asked for until
      the provider is not down, at most maxRetries + 1 times; every chunk gets its own position in the answer. */
  lemma RunRowIs(c: Configuration, version: string, gateway: Gateway, n: nat, i: nat)
    returns (batch: nat, offset: nat, size: nat, attempt: nat)
    requires c.batchSize > 0 && i < n
    ensures offset == batch * c.batchSize && offset <= i < offset + size
    ensures size == if c.batchSize <= n - offset then c.batchSize else n - offset
    ensures var row := RunRows(c, version, gateway, n)[i];
            if gateway.None? then
              row == Embedding(Unavailable, None, c.model, version, None, Some("embedding_provider_unconfigured"))
            else
              var reply := gateway.value(offset, attempt);
              && 1 <= attempt <= c.maxRetries + 1 && (reply.Down? ==> attempt == c.maxRetries + 1)
              && (forall m :: 1 <= m < attempt ==> gateway.value(offset, m).Down?)
              && match reply
                 case Down(reason) =>
                   row == Embedding(Unavailable, None, c.model, version, None,
                     Some(if reason == "" then "embedding_provider_unavailable" else reason))
                 case Invalid =>
                   row == Embedding(Unavailable, None, c.model, version, None, Some("embedding_response_invalid"))
                 case Vectors(vectors, model, tokens) =>
                   && row.model == model && row.configurationVersion == version
                   && (row.inputTokens.None? <==> tokens.None?)
                   && (tokens.Some? ==> row.inputTokens.value == (tokens.value + size - 1) / size)
                   && if |vectors| == size && forall v :: v in vectors ==> |v| == c.dimensions
                      then row.state == Ready && row.vector == Some(vectors[i - offset]) && row.failure.None?
                      else row.state == Failed && row.vector.None?
                           && row.failure == Some("embedding_dimension_mismatch")
  {
    offset := BatchStart(c.batchSize, i);
    batch := BatchNumber(c.batchSize, i);
    size := BatchLength(c, n, offset);
    attempt := 1;
    if gateway.Some? {
      attempt := AnswerIs(gateway.value, offset, 1, c.maxRetries + 1);
    }
  }

  lemma {:induction false} BatchNumber(size: nat, i: nat) returns (batch: nat)
    requires size > 0
    ensures BatchStart(size, i) == batch * size
  {
    batch := 0;
    if i >= size {
      batch := BatchNumber(size, i - size);
      batch := batch + 1;
    }
  }

  lemma {:induction false} AnswerIs(ask: (nat, nat) -> Reply, offset: nat, from: nat, last: nat) returns (attempt: nat)
    requires from <= last
    ensures from <= attempt <= last && Answer(ask, offset, from, last) == ask(offset, attempt)
    ensures ask(offset, attempt).Down? ==> attempt == last
    ensures forall m :: from <= m < attempt ==> ask(offset, m).Down?
    decreases last - from
  {
    attempt := from;
    if ask(offset, from).Down? && from < last {
      attempt := AnswerIs(ask, offset, from + 1, last);
    }
  }

  // ---- what a run leaves behind

  /** One run writes row i under chunk i's key and nothing else. */
  lemma NewRowsAre(c: Configuration, version: string, gateway: Gateway, pending: seq<ChunkKey>, i: nat,
      e: EmbeddingKey)
    requires c.batchSize > 0 && Distinct(pending) && i < |pending|
    ensures var rows := NewRows(c, version, gateway, pending);
            var key := EmbeddingKey(pending[i], c.indexVersion, c.dimensions);
            && key in rows && rows[key] == RunRows(c, version, gateway, |pending|)[i]
            && (e in rows ==> e.chunk in pending && e.indexVersion == c.indexVersion && e.dimensions == c.dimensions)
  {
    PutRows(c, pending, RunRows(c, version, gateway, |pending|), |pending|);
    assert KeyOf(c, pending[i]) == EmbeddingKey(pending[i], c.indexVersion, c.dimensions);
  }

  /** The rows of a run belong to stored, active chunks of the agreement: the step `Embed` of the index runs. */
  lemma RunIsAnEmbedStep(w: IndexRuns.World, a: nat, c: Configuration, route: Route, gateway: Gateway,
      pending: seq<ChunkKey>)
    requires c.batchSize > 0 && Answers(w.t, a, c, route.version, ActiveModel(c, route, gateway), pending)
    ensures IndexRuns.Enabled(w, IndexRuns.Embed(a, NewRows(c, route.version, gateway, pending)))
  {
    PutRows(c, pending, RunRows(c, route.version, gateway, |pending|), |pending|);
  }

  predicate Settled(rows: seq<Embedding>, version: string, model: string, i: nat)
    requires i < |rows|
  {
    rows[i].state == Ready && rows[i].model == model && rows[i].configurationVersion == version
  }

  /** What a later run asks for: the chunks whose new row is not ready, or names another model or version. */
  lemma WantedAgain(t: Tables, a: nat, c: Configuration, version: string, model: string, pending: seq<ChunkKey>,
      rows: seq<Embedding>, k: ChunkKey)
    requires Answers(t, a, c, version, model, pending) && |rows| == |pending|
    ensures Wanted(t.(embeddings := t.embeddings + Put(c, pending, rows, |pending|)), a, c, version, model, k) <==>
            exists i :: 0 <= i < |pending| && pending[i] == k && !Settled(rows, version, model, i)
  {
    PutRows(c, pending, rows, |pending|);
    var put := Put(c, pending, rows, |pending|);
    if k in pending {
      var i :| 0 <= i < |pending| && pending[i] == k;
      assert put[KeyOf(c, k)] == rows[i];
    } else {
      assert KeyOf(c, k) !in put;
    }
  }

  lemma StartOfStart(size: nat, i: nat)
    requires size > 0
    ensures BatchStart(size, BatchStart(size, i)) == BatchStart(size, i)
  {
    if i >= size { StartOfStart(size, i - size); }
  }

  /** The answer to the batch at this offset is well shaped and names the model. */
  predicate AnswersFor(c: Configuration, gateway: Gateway, n: nat, offset: nat, model: string)
    requires offset < n
  {
    var reply := BatchReply(c, gateway, offset);
    AnswerIsReady(c, reply, BatchLength(c, n, offset)) && reply.value.model == model
  }

  predicate StartsBatch(c: Configuration, n: nat, offset: nat) {
    c.batchSize > 0 && offset < n && BatchStart(c.batchSize, offset) == offset
  }

  /** Every batch of the run is answered so. */
  ghost predicate AllAnswered(c: Configuration, gateway: Gateway, n: nat, model: string) {
    forall offset :: StartsBatch(c, n, offset) ==> AnswersFor(c, gateway, n, offset, model)
  }

  predicate SettledAt(c: Configuration, version: string, gateway: Gateway, n: nat, model: string, i: nat) {
    c.batchSize > 0 && i < n && Settled(RunRows(c, version, gateway, n), version, model, i)
  }

  lemma SettledWhen(c: Configuration, version: string, gateway: Gateway, n: nat, model: string, i: nat)
    requires c.batchSize > 0 && i < n
    ensures var offset := BatchStart(c.batchSize, i);
            StartsBatch(c, n, offset) &&
            (SettledAt(c, version, gateway, n, model, i) <==> AnswersFor(c, gateway, n, offset, model))
  {
    StartOfStart(c.batchSize, i);
  }

  lemma AllSettledWhen(c: Configuration, version: string, gateway: Gateway, n: nat, model: string)
    requires c.batchSize > 0
    ensures (forall i :: 0 <= i < n ==> SettledAt(c, version, gateway, n, model, i)) <==>
            AllAnswered(c, gateway, n, model)
  {
    if AllAnswered(c, gateway, n, model) {
      forall i | 0 <= i < n ensures SettledAt(c, version, gateway, n, model, i) {
        SettledWhen(c, version, gateway, n, model, i);
      }
    } else {
      var offset :| StartsBatch(c, n, offset) && !AnswersFor(c, gateway, n, offset, model);
      SettledWhen(c, version, gateway, n, model, offset);
    }
  }

  /** A second run asks again for exactly the chunks whose row is not settled. */
  lemma AskedAgain(t: Tables, a: nat, c: Configuration, version: string, model: string, gateway: Gateway,
                   pending: seq<ChunkKey>, again: seq<ChunkKey>, i: nat)
    requires c.batchSize > 0 && Answers(t, a, c, version, model, pending) && i < |pending|
    requires Answers(t.(embeddings := t.embeddings + NewRows(c, version, gateway, pending)), a, c, version, model,
             again)
    ensures pending[i] in again <==> !SettledAt(c, version, gateway, |pending|, model, i)
  {
    var rows := RunRows(c, version, gateway, |pending|);
    WantedAgain(t, a, c, version, model, pending, rows, pending[i]);
    assert forall j :: 0 <= j < |pending| && pending[j] == pending[i] ==> j == i;
  }

  /** Embedding is settled after one run exactly when every batch got an answer that was well shaped and
      named the active model. */
  lemma SecondRunIsIdle(t: Tables, a: nat, c: Configuration, version: string, model: string, gateway: Gateway,
                        pending: seq<ChunkKey>, again: seq<ChunkKey>)
    requires c.batchSize > 0 && Answers(t, a, c, version, model, pending)
    requires Answers(t.(embeddings := t.embeddings + NewRows(c, version, gateway, pending)), a, c, version, model,
             again)
    ensures again == [] <==> AllAnswered(c, gateway, |pending|, model)
  {
    var rows := RunRows(c, version, gateway, |pending|);
    AllSettledWhen(c, version, gateway, |pending|, model);
    forall i | 0 <= i < |pending|
      ensures pending[i] in again <==> !SettledAt(c, version, gateway, |pending|, model, i)
    {
      AskedAgain(t, a, c, version, model, gateway, pending, again, i);
    }
    if again != [] {
      assert again[0] in again;
      WantedAgain(t, a, c, version, model, pending, rows, again[0]);
    }
  }

  /** A provider that answers every batch in the right shape, under a model name of its own. */
  function Renaming(c: Configuration, n: nat, name: string): Gateway {
    Some((offset: nat, attempt: nat) =>
      Vectors(seq(if offset <= n then BatchLength(c, n, offset) else 0, _ => seq(c.dimensions, _ => 0.0)), name, None))
  }

  /** Its rows are all ready, and every chunk is asked for again: the run never becomes idle. */
  lemma OtherNameIsAskedAgain(t: Tables, a: nat, c: Configuration, version: string, model: string, name: string,
                              pending: seq<ChunkKey>, again: seq<ChunkKey>)
    requires c.batchSize > 0 && Answers(t, a, c, version, model, pending) && name != model
    requires var gateway := Renaming(c, |pending|, name);
             Answers(t.(embeddings := t.embeddings + NewRows(c, version, gateway, pending)), a, c, version, model,
                     again)
    ensures forall i :: 0 <= i < |pending| ==>
              RunRows(c, version, Renaming(c, |pending|, name), |pending|)[i].state == Ready && pending[i] in again
  {
    var gateway := Renaming(c, |pending|, name);
    var rows := RunRows(c, version, gateway, |pending|);
    forall i | 0 <= i < |pending| ensures rows[i].state == Ready && pending[i] in again {
      RenamedRow(c, version, |pending|, name, i);
      AskedAgain(t, a, c, version, model, gateway, pending, again, i);
    }
  }

  lemma RenamedRow(c: Configuration, version: string, n: nat, name: string, i: nat)
    requires c.batchSize > 0 && i < n
    ensures var row := RunRows(c, version, Renaming(c, n, name), n)[i]; row.state == Ready && row.model == name
  {
    var offset := BatchStart(c.batchSize, i);
    var reply := BatchReply(c, Renaming(c, n, name), offset);
    assert Answer(Renaming(c, n, name).value, offset, 1, c.maxRetries + 1) == Renaming(c, n, name).value(offset, 1);
    assert Shaped(reply.value.vectors, BatchLength(c, n, offset), c.dimensions);
  }

  /** After a run, every active chunk of the agreement has a row for the index version and dimensions. */
  lemma EveryChunkHasARow(t: Tables, a: nat, c: Configuration, version: string, model: string, gateway: Gateway,
      pending: seq<ChunkKey>, k: ChunkKey)
    requires c.batchSize > 0 && Answers(t, a, c, version, model, pending)
    requires k in t.chunks && k.agreement == a && k.build in t.builds && t.builds[k.build].state == Active
    ensures KeyOf(c, k) in t.embeddings + NewRows(c, version, gateway, pending)
  {
    PutRows(c, pending, RunRows(c, version, gateway, |pending|), |pending|);
    if Wanted(t, a, c, version, model, k) {
      var i :| 0 <= i < |pending| && pending[i] == k;
      assert KeyOf(c, pending[i]) in NewRows(c, version, gateway, pending);
    }
  }

  /** The shares written for a batch add up to at least the tokens used, and to less than one more each. */
  lemma SharesCoverTheTokens(tokens: nat, size: nat)
    requires size > 0
    ensures var share := TokenShare(Some(tokens), size).value; tokens <= size * share < tokens + size
  {
  }

}
