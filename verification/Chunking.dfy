/** Structure-aware chunks: groups under headings, and a sliding window over groups that are too long. */
module Chunking {
  import opened Prelude
  import opened Text

  const MAX_CHUNK_TOKENS: nat := 1000
  const CHUNK_OVERLAP_TOKENS: nat := 100

  /** Where window k starts: each one starts 100 tokens before its predecessor ended. */
  function Start(k: nat): nat {
    900 * k
  }

  datatype Kind = Heading | Paragraph | ListItem | Table
  datatype Block = Block(kind: Kind, text: string, anchor: string)

  datatype Entry = Entry(anchor: string, text: string)
  datatype Group = Group(path: seq<string>, entries: seq<Entry>)
  datatype Token = Token(anchor: string, word: string)
  datatype Chunk = Chunk(id: string, ordinal: nat, path: seq<string>, anchors: seq<string>, text: string)

  /** What a chunk id is computed from; the chunker version is constant. */
  datatype Payload = Payload(anchors: seq<string>, checksum: string, start: nat)

  /** "chunk-" and a truncated SHA-256 of the payload's canonical JSON. */
  type Digest = Payload -> string

  // ---- grouping

  /** `_required_string` raises for these blocks. */
  predicate Malformed(b: Block) {
    b.text == "" || (Strip(b.text) != "" && b.anchor == "")
  }

  function CurrentPath(groups: seq<Group>): seq<string> {
    if groups == [] then [] else groups[|groups| - 1].path
  }

  /** What one block adds to the groups built so far. */
  function Extend(groups: seq<Group>, b: Block): seq<Group> {
    var text := Strip(b.text);
    var entry := Entry(b.anchor, text);
    if text == "" then groups
    else if b.kind == Heading then groups + [Group(CurrentPath(groups) + [text], [entry])]
    else if groups == [] then [Group([], [entry])]
    else groups[|groups| - 1 := groups[|groups| - 1].(entries := groups[|groups| - 1].entries + [entry])]
  }

  function Groups(blocks: seq<Block>): seq<Group> {
    if blocks == [] then [] else Extend(Groups(blocks[..|blocks| - 1]), blocks[|blocks| - 1])
  }

  method BuildGroups(blocks: seq<Block>) returns (r: Option<seq<Group>>)
    ensures r.None? <==> exists b :: b in blocks && (b.text == "" || (Strip(b.text) != "" && b.anchor == ""))
    ensures r.Some? ==> r.value == Groups(blocks)
  {
    var path: seq<string> := [];
    var groups: seq<Group> := [];
    var i := 0;
    while i < |blocks|
      invariant 0 <= i <= |blocks|
      invariant forall j :: 0 <= j < i ==> !Malformed(blocks[j])
      invariant groups == Groups(blocks[..i]) && path == CurrentPath(groups)
    {
      var b := blocks[i];
      assert blocks[..i + 1][..i] == blocks[..i];
      if b.text == "" {
        assert Malformed(b);
        return None;
      }
      var text := Strip(b.text);
      if text != "" {
        if b.anchor == "" {
          assert Malformed(b);
          return None;
        }
        if b.kind == Heading {
          path := path + [text];
          groups := groups + [Group(path, [Entry(b.anchor, text)])];
        } else if groups != [] {
          var last := |groups| - 1;
          groups := groups[last := groups[last].(entries := groups[last].entries + [Entry(b.anchor, text)])];
        } else {
          groups := groups + [Group(path, [Entry(b.anchor, text)])];
        }
      }
      i := i + 1;
    }
    assert blocks[..i] == blocks;
    r := Some(groups);
  }

  // ---- chunks of one group

  function Texts(entries: seq<Entry>): seq<string> {
    seq(|entries|, i requires 0 <= i < |entries| => entries[i].text)
  }

  function Anchors(entries: seq<Entry>): seq<string> {
    seq(|entries|, i requires 0 <= i < |entries| => entries[i].anchor)
  }

  function EntryTokens(e: Entry): seq<Token> {
    var words := Split(e.text);
    seq(|words|, i requires 0 <= i < |words| => Token(e.anchor, words[i]))
  }

  function Tokens(entries: seq<Entry>): seq<Token> {
    if entries == [] then [] else Tokens(entries[..|entries| - 1]) + EntryTokens(entries[|entries| - 1])
  }

  function Words(tokens: seq<Token>): seq<string> {
    seq(|tokens|, i requires 0 <= i < |tokens| => tokens[i].word)
  }

  /** `dict.fromkeys` over the anchors: first occurrences, in order. */
  function Distinct(s: seq<string>): (r: seq<string>)
    ensures forall x :: x in r <==> x in s
    ensures forall i, j :: 0 <= i < j < |r| ==> r[i] != r[j]
  {
    if s == [] then []
    else
      var r := Distinct(s[..|s| - 1]);
      var x := s[|s| - 1];
      assert s == s[..|s| - 1] + [x];
      if x in r then r else r + [x]
  }

  function TokenAnchors(tokens: seq<Token>): seq<string> {
    seq(|tokens|, i requires 0 <= i < |tokens| => tokens[i].anchor)
  }

  /** `_chunk_from_tokens`. */
  function ChunkFromTokens(digest: Digest, checksum: string, path: seq<string>, tokens: seq<Token>, ordinal: nat,
      start: nat): Chunk
  {
    var anchors := Distinct(TokenAnchors(tokens));
    Chunk(digest(Payload(anchors, checksum, start)), ordinal, path, anchors, Join(" ", Words(tokens)))
  }

  /** How many windows a group of n tokens needs: one, and one more for every 900 tokens begun past 1,000. */
  function WindowCount(n: nat): nat {
    if n <= MAX_CHUNK_TOKENS then 1 else 1 + (n - MAX_CHUNK_TOKENS + 899) / 900
  }

  function WindowEnd(n: nat, k: nat): nat {
    if Start(k) + MAX_CHUNK_TOKENS <= n then Start(k) + MAX_CHUNK_TOKENS else n
  }

  /** Every window but the first starts 100 tokens before its predecessor ended and adds a token. */
  lemma WindowBounds(n: nat, k: nat)
    requires n > MAX_CHUNK_TOKENS
    ensures k < WindowCount(n) <==> k == 0 || Start(k) + CHUNK_OVERLAP_TOKENS < n
    ensures k < WindowCount(n) ==> Start(k) < WindowEnd(n, k) <= n
    ensures k + 1 < WindowCount(n) ==> WindowEnd(n, k) == Start(k) + MAX_CHUNK_TOKENS
    ensures k + 1 == WindowCount(n) ==> WindowEnd(n, k) == n
  {
  }

  function Window(tokens: seq<Token>, k: nat): seq<Token>
    requires |tokens| > MAX_CHUNK_TOKENS && k < WindowCount(|tokens|)
  {
    WindowBounds(|tokens|, k);
    tokens[Start(k)..WindowEnd(|tokens|, k)]
  }

  function WindowChunk(digest: Digest, checksum: string, path: seq<string>, tokens: seq<Token>, ordinal: nat,
      k: nat): Chunk
    requires |tokens| > MAX_CHUNK_TOKENS && k < WindowCount(|tokens|)
  {
    ChunkFromTokens(digest, checksum, path, Window(tokens, k), ordinal + k, Start(k))
  }

  /** The chunks of the first m windows. */
  function WindowChunks(digest: Digest, checksum: string, path: seq<string>, tokens: seq<Token>, ordinal: nat,
      m: nat): (chunks: seq<Chunk>)
    requires |tokens| > MAX_CHUNK_TOKENS && m <= WindowCount(|tokens|)
    ensures |chunks| == m
  {
    seq(m, k requires 0 <= k < m => WindowChunk(digest, checksum, path, tokens, ordinal, k))
  }

  function WholeChunk(digest: Digest, checksum: string, g: Group, ordinal: nat): Chunk {
    Chunk(digest(Payload(Anchors(g.entries), checksum, 0)), ordinal, g.path, Anchors(g.entries),
      Join("\n", Texts(g.entries)))
  }

  /** `_chunks_for_group`, in closed form. */
  function GroupChunks(digest: Digest, checksum: string, g: Group, ordinal: nat): seq<Chunk> {
    var tokens := Tokens(g.entries);
    if |tokens| <= MAX_CHUNK_TOKENS then [WholeChunk(digest, checksum, g, ordinal)]
    else WindowChunks(digest, checksum, g.path, tokens, ordinal, WindowCount(|tokens|))
  }

  ghost predicate AreWindows(digest: Digest, checksum: string, path: seq<string>, tokens: seq<Token>, ordinal: nat,
      goal: seq<Chunk>)
    requires |tokens| > MAX_CHUNK_TOKENS
  {
    && |goal| == WindowCount(|tokens|)
    && forall k :: 0 <= k < |goal| ==> goal[k] == WindowChunk(digest, checksum, path, tokens, ordinal, k)
  }

  lemma WindowChunksAre(digest: Digest, checksum: string, path: seq<string>, tokens: seq<Token>, ordinal: nat)
    requires |tokens| > MAX_CHUNK_TOKENS
    ensures AreWindows(digest, checksum, path, tokens, ordinal,
            WindowChunks(digest, checksum, path, tokens, ordinal, WindowCount(|tokens|)))
  {
    var goal := WindowChunks(digest, checksum, path, tokens, ordinal, WindowCount(|tokens|));
    assert |goal| == WindowCount(|tokens|);
  }

  /** The token loop: the windows it has closed, and the one still open. */
  method WindowLoop(digest: Digest, checksum: string, path: seq<string>, source: seq<Token>, ordinal: nat,
      ghost goal: seq<Chunk>)
    returns (chunks: seq<Chunk>, current: seq<Token>, start: nat)
    requires |source| > MAX_CHUNK_TOKENS && AreWindows(digest, checksum, path, source, ordinal, goal)
    ensures Sliding(source, |chunks|, start, |source|, current)
    ensures chunks <= goal
  {
    chunks, current, start := [], [], 0;
    for i := 0 to |source|
      invariant Sliding(source, |chunks|, start, i, current)
      invariant chunks <= goal
    {
      if |current| == MAX_CHUNK_TOKENS {
        FullWindow(source, |chunks|, start, i, current);
        NextWindow(digest, checksum, path, source, ordinal, |chunks|, current, start, goal);
        chunks := chunks + [ChunkFromTokens(digest, checksum, path, current, ordinal + |chunks|, start)];
        var overlap := current[|current| - CHUNK_OVERLAP_TOKENS..];
        start := start + MAX_CHUNK_TOKENS - |overlap|;
        current := overlap + [source[i]];
      } else {
        OpenWindow(source, |chunks|, start, i, current);
        current := current + [source[i]];
      }
    }
  }

  /** After i tokens and k closed windows, the loop holds the tokens from the start of window k to i. */
  predicate Sliding(source: seq<Token>, k: nat, start: nat, i: nat, current: seq<Token>) {
    && |source| > MAX_CHUNK_TOKENS && k < WindowCount(|source|)
    && start == Start(k) <= i <= |source| && current == source[start..i] && |current| <= MAX_CHUNK_TOKENS
    && (k == 0 || start + CHUNK_OVERLAP_TOKENS < i)
  }

  lemma NextWindow(digest: Digest, checksum: string, path: seq<string>, source: seq<Token>, ordinal: nat, k: nat,
        current: seq<Token>, start: nat, goal: seq<Chunk>)
    requires |source| > MAX_CHUNK_TOKENS && AreWindows(digest, checksum, path, source, ordinal, goal)
    requires k < WindowCount(|source|) && current == Window(source, k) && start == Start(k)
    ensures k < |goal| && ChunkFromTokens(digest, checksum, path, current, ordinal + k, start) == goal[k]
  {
  }

  lemma OpenWindow(source: seq<Token>, k: nat, start: nat, i: nat, current: seq<Token>)
    requires Sliding(source, k, start, i, current) && i < |source| && |current| < MAX_CHUNK_TOKENS
    ensures Sliding(source, k, start, i + 1, current + [source[i]])
  {
  }

  lemma FullWindow(source: seq<Token>, k: nat, start: nat, i: nat, current: seq<Token>)
    requires Sliding(source, k, start, i, current) && i < |source| && |current| == MAX_CHUNK_TOKENS
    ensures Window(source, k) == current
    ensures Sliding(source, k + 1, start + MAX_CHUNK_TOKENS - CHUNK_OVERLAP_TOKENS, i + 1,
              current[|current| - CHUNK_OVERLAP_TOKENS..] + [source[i]])
  {
  }

  lemma LastWindow(source: seq<Token>, k: nat, start: nat, current: seq<Token>)
    requires Sliding(source, k, start, |source|, current)
    ensures k + 1 == WindowCount(|source|) && Window(source, k) == current != []
  {
  }

  method SlidingChunks(digest: Digest, checksum: string, path: seq<string>, source: seq<Token>, ordinal: nat)
    returns (chunks: seq<Chunk>)
    requires |source| > MAX_CHUNK_TOKENS
    ensures chunks == WindowChunks(digest, checksum, path, source, ordinal, WindowCount(|source|))
  {
    ghost var goal := WindowChunks(digest, checksum, path, source, ordinal, WindowCount(|source|));
    WindowChunksAre(digest, checksum, path, source, ordinal);
    var current, start;
    chunks, current, start := WindowLoop(digest, checksum, path, source, ordinal, goal);
    LastWindow(source, |chunks|, start, current);
    NextWindow(digest, checksum, path, source, ordinal, |chunks|, current, start, goal);
    if current != [] {
      chunks := chunks + [ChunkFromTokens(digest, checksum, path, current, ordinal + |chunks|, start)];
    }
    assert chunks == goal;
  }

  /** `_chunks_for_group`: one chunk of the joined text, or the windows over its tokens. */
  method ChunksForGroup(digest: Digest, checksum: string, g: Group, ordinal: nat) returns (chunks: seq<Chunk>)
    ensures chunks == GroupChunks(digest, checksum, g, ordinal)
  {
    var text := Join("\n", Texts(g.entries));
    WordsOfEntries(g.entries);
    if |Split(text)| <= MAX_CHUNK_TOKENS {
      var anchors := Anchors(g.entries);
      chunks := [Chunk(digest(Payload(anchors, checksum, 0)), ordinal, g.path, anchors, text)];
    } else {
      chunks := SlidingChunks(digest, checksum, g.path, Tokens(g.entries), ordinal);
    }
  }

  /** The chunks of a whole document, ordinals running on. */
  function ChunksOf(digest: Digest, checksum: string, groups: seq<Group>): seq<Chunk> {
    if groups == [] then []
    else
      var before := ChunksOf(digest, checksum, groups[..|groups| - 1]);
      before + GroupChunks(digest, checksum, groups[|groups| - 1], |before|)
  }

  /** `structural_chunks_from_manifest`; None is the ValueError of a malformed block. */
  method StructuralChunks(digest: Digest, checksum: string, blocks: seq<Block>) returns (r: Option<seq<Chunk>>)
    ensures r.None? <==> exists b :: b in blocks && (b.text == "" || (Strip(b.text) != "" && b.anchor == ""))
    ensures r.Some? ==> r.value == ChunksOf(digest, checksum, Groups(blocks))
  {
    var built := BuildGroups(blocks);
    if built.None? {
      return None;
    }
    var groups := built.value;
    var chunks: seq<Chunk> := [];
    var i := 0;
    while i < |groups|
      invariant 0 <= i <= |groups|
      invariant chunks == ChunksOf(digest, checksum, groups[..i])
    {
      var more := ChunksForGroup(digest, checksum, groups[i], |chunks|);
      assert groups[..i + 1][..i] == groups[..i];
      chunks, i := chunks + more, i + 1;
    }
    assert groups[..i] == groups;
    r := Some(chunks);
  }

  // ---- words survive

  lemma {:induction false} WordsOfConcat(a: seq<Token>, b: seq<Token>)
    ensures Words(a + b) == Words(a) + Words(b)
  {
  }

  lemma {:induction false} TokensAreWords(entries: seq<Entry>)
    ensures Words(Tokens(entries)) == AllWords(Texts(entries))
  {
    if entries != [] {
      var init, last := entries[..|entries| - 1], entries[|entries| - 1];
      TokensAreWords(init);
      WordsOfConcat(Tokens(init), EntryTokens(last));
      assert Words(EntryTokens(last)) == Split(last.text);
      assert Texts(entries)[..|init|] == Texts(init);
    }
  }

  /** The tokens of a group are the words of its joined text. */
  lemma WordsOfEntries(entries: seq<Entry>)
    ensures Words(Tokens(entries)) == Split(Join("\n", Texts(entries)))
  {
    TokensAreWords(entries);
    SplitJoinLines(Texts(entries));
  }

}
