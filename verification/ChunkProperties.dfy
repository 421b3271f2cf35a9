/** What the chunker promises: no word is lost, chunks are exact windows, and chunk ids name one chunk. */
module ChunkProperties {
  import opened Prelude
  import opened Text
  import opened Chunking

  // ---- lossless coverage

  /** The words a chunk adds: all of them, or all but the repeated 100. */
  function Added(c: Chunk, repeats: bool): seq<string> {
    var words := Split(c.text);
    if repeats && |words| >= CHUNK_OVERLAP_TOKENS then words[CHUNK_OVERLAP_TOKENS..] else words
  }

  /** The words of the chunks of one group, without what each later chunk repeats. */
  function Unrepeated(chunks: seq<Chunk>): seq<string> {
    if chunks == [] then []
    else
      Unrepeated(chunks[..|chunks| - 1]) + Added(chunks[|chunks| - 1], |chunks| > 1)
  }

  lemma WordsAreWords(entries: seq<Entry>, i: nat)
    requires i < |Tokens(entries)|
    ensures IsWord(Tokens(entries)[i].word)
  {
    WordsOfEntries(entries);
    assert Words(Tokens(entries))[i] in Split(Join("\n", Texts(entries)));
  }

  lemma WindowText(entries: seq<Entry>, k: nat)
    requires |Tokens(entries)| > MAX_CHUNK_TOKENS && k < WindowCount(|Tokens(entries)|)
    ensures Split(Join(" ", Words(Window(Tokens(entries), k)))) == Words(Window(Tokens(entries), k))
  {
    var words := Words(Window(Tokens(entries), k));
    WindowBounds(|Tokens(entries)|, k);
    forall w | w in words ensures IsWord(w) {
      var i :| 0 <= i < |words| && words[i] == w;
      WordsAreWords(entries, Start(k) + i);
    }
    SplitJoinWords(words);
  }

  /** What the chunk of window k adds to those before it. */
  ghost predicate AddsWindow(c: Chunk, tokens: seq<Token>, k: nat)
    requires |tokens| > MAX_CHUNK_TOKENS && k < WindowCount(|tokens|)
  {
    var words := Words(Window(tokens, k));
    Added(c, k > 0) == if k > 0 && |words| >= CHUNK_OVERLAP_TOKENS then words[CHUNK_OVERLAP_TOKENS..] else words
  }

  lemma WindowAdds(digest: Digest, checksum: string, g: Group, ordinal: nat, k: nat)
    requires |Tokens(g.entries)| > MAX_CHUNK_TOKENS && k < WindowCount(|Tokens(g.entries)|)
    ensures AddsWindow(WindowChunk(digest, checksum, g.path, Tokens(g.entries), ordinal, k), Tokens(g.entries), k)
  {
    WindowText(g.entries, k);
  }

  lemma FirstWindow(tokens: seq<Token>)
    requires |tokens| > MAX_CHUNK_TOKENS
    ensures Words(Window(tokens, 0)) == Words(tokens[..WindowEnd(|tokens|, 0)])
  {
    assert Window(tokens, 0) == tokens[..WindowEnd(|tokens|, 0)];
  }

  lemma {:induction false} WindowsCover(chunks: seq<Chunk>, tokens: seq<Token>)
    requires |tokens| > MAX_CHUNK_TOKENS && 0 < |chunks| <= WindowCount(|tokens|)
    requires forall k :: 0 <= k < |chunks| ==> AddsWindow(chunks[k], tokens, k)
    ensures WindowEnd(|tokens|, |chunks| - 1) <= |tokens|
    ensures Unrepeated(chunks) == Words(tokens[..WindowEnd(|tokens|, |chunks| - 1)])
  {
    var n := |chunks| - 1;
    WindowBounds(|tokens|, n);
    assert AddsWindow(chunks[n], tokens, n);
    if n == 0 {
      FirstWindow(tokens);
      assert Unrepeated(chunks[..0]) == [];
    } else {
      WindowsCover(chunks[..n], tokens);
      NewTokens(tokens, n);
    }
  }

  /** What a later window adds to its predecessor. */
  lemma NewTokens(tokens: seq<Token>, k: nat)
    requires |tokens| > MAX_CHUNK_TOKENS && 0 < k < WindowCount(|tokens|)
    ensures |Window(tokens, k)| > CHUNK_OVERLAP_TOKENS
            && WindowEnd(|tokens|, k - 1) <= WindowEnd(|tokens|, k) <= |tokens|
    ensures Words(tokens[..WindowEnd(|tokens|, k - 1)]) + Words(Window(tokens, k))[CHUNK_OVERLAP_TOKENS..]
      == Words(tokens[..WindowEnd(|tokens|, k)])
  {
    WindowBounds(|tokens|, k);
    WindowBounds(|tokens|, k - 1);
  }

  /** Dropping the overlap and concatenating gives back the words of the group. */
  lemma GroupLossless(digest: Digest, checksum: string, g: Group, ordinal: nat)
    ensures Unrepeated(GroupChunks(digest, checksum, g, ordinal)) == Words(Tokens(g.entries))
  {
    var tokens := Tokens(g.entries);
    var chunks := GroupChunks(digest, checksum, g, ordinal);
    if |tokens| > MAX_CHUNK_TOKENS {
      WindowBounds(|tokens|, |chunks| - 1);
      forall k | 0 <= k < |chunks| ensures AddsWindow(chunks[k], tokens, k) {
        WindowAdds(digest, checksum, g, ordinal, k);
      }
      WindowsCover(chunks, tokens);
      assert tokens[..|tokens|] == tokens;
    } else {
      WordsOfEntries(g.entries);
      assert chunks[..0] == [];
    }
  }

  function GroupWords(groups: seq<Group>): seq<string> {
    if groups == [] then [] else GroupWords(groups[..|groups| - 1]) + Words(Tokens(groups[|groups| - 1].entries))
  }

  function BlockTexts(blocks: seq<Block>): seq<string> {
    seq(|blocks|, i requires 0 <= i < |blocks| => blocks[i].text)
  }

  /** Grouping moves no word: the groups hold the words of all blocks in order. */
  lemma {:induction false} GroupingKeepsWords(blocks: seq<Block>)
    ensures GroupWords(Groups(blocks)) == AllWords(BlockTexts(blocks))
  {
    if blocks != [] {
      var init, b := blocks[..|blocks| - 1], blocks[|blocks| - 1];
      GroupingKeepsWords(init);
      ExtendKeepsWords(Groups(init), b);
      assert BlockTexts(blocks)[..|init|] == BlockTexts(init);
    }
  }

  lemma ExtendKeepsWords(groups: seq<Group>, b: Block)
    ensures GroupWords(Extend(groups, b)) == GroupWords(groups) + Split(b.text)
  {
    SplitStrip(b.text);
    var text := Strip(b.text);
    if text != "" {
      var entry := Entry(b.anchor, text);
      var after := Extend(groups, b);
      assert Words(EntryTokens(entry)) == Split(text);
      if b.kind == Heading || groups == [] {
        assert after[..|after| - 1] == groups;
        assert Tokens([entry]) == Tokens([]) + EntryTokens(entry) by { assert [entry][..0] == []; }
        WordsOfConcat([], EntryTokens(entry));
      } else {
        var last := groups[|groups| - 1].entries;
        assert after[..|after| - 1] == groups[..|groups| - 1];
        assert (last + [entry])[..|last|] == last;
        WordsOfConcat(Tokens(last), EntryTokens(entry));
      }
    }
  }

  /** The words of a chunk list: a chunk with its predecessor's heading path repeats 100 of its words. */
  function Recover(chunks: seq<Chunk>): seq<string> {
    if chunks == [] then []
    else
      var n := |chunks| - 1;
      Recover(chunks[..n]) + Added(chunks[n], n > 0 && chunks[n - 1].path == chunks[n].path)
  }

  lemma RecoverOneMore(before: seq<Chunk>, chunk: Chunk)
    ensures Recover(before + [chunk])
      == Recover(before) + Added(chunk, before != [] && before[|before| - 1].path == chunk.path)
  {
    var all := before + [chunk];
    assert all[..|all| - 1] == before;
  }

  /** A chunk of a group repeats words unless it is the group's first. */
  lemma RepeatsWithinGroup(before: seq<Chunk>, init: seq<Chunk>, last: Chunk, path: seq<string>)
    requires before != [] ==> before[|before| - 1].path != path
    requires (forall k :: 0 <= k < |init| ==> init[k].path == path) && last.path == path
    ensures Recover(before + init + [last]) == Recover(before + init) + Added(last, init != [])
  {
    var all := before + init;
    RecoverOneMore(all, last);
    if init != [] {
      assert all[|all| - 1] == init[|init| - 1];
    } else {
      assert all == before;
    }
  }

  lemma {:induction false} RecoverGroup(before: seq<Chunk>, chunks: seq<Chunk>, path: seq<string>)
    requires before != [] ==> before[|before| - 1].path != path
    requires forall k :: 0 <= k < |chunks| ==> chunks[k].path == path
    ensures Recover(before + chunks) == Recover(before) + Unrepeated(chunks)
  {
    if chunks == [] {
      assert before + chunks == before;
      assert Recover(before) + [] == Recover(before);
    } else {
      var n := |chunks| - 1;
      var init, last := chunks[..n], chunks[n];
      var all := before + init;
      calc {
        Recover(before + chunks);
      ==  { assert all + [last] == before + chunks; }
        Recover(all + [last]);
      ==  { RepeatsWithinGroup(before, init, last, path); }
        Recover(all) + Added(last, n > 0);
      ==  { RecoverGroup(before, init, path); }
        Recover(before) + Unrepeated(init) + Added(last, n > 0);
      ==  { AppendIsAssociative(Recover(before), Unrepeated(init), Added(last, n > 0)); }
        Recover(before) + Unrepeated(chunks);
      }
    }
  }

  /** Heading paths form a chain: each group's path properly extends the one before, so no two agree. */
  lemma {:induction false} PathsFormAChain(blocks: seq<Block>, i: nat, j: nat)
    requires i < j < |Groups(blocks)|
    ensures Groups(blocks)[i].path < Groups(blocks)[j].path
  {
    var n := |blocks| - 1;
    var before := Groups(blocks[..n]);
    if j < |before| {
      PathsFormAChain(blocks[..n], i, j);
    } else if i < |before| - 1 {
      PathsFormAChain(blocks[..n], i, |before| - 1);
    }
  }

  /** The number of windows is the least that reaches the last token. */
  lemma WindowCountIsLeast(n: nat)
    requires n > MAX_CHUNK_TOKENS
    ensures var m := WindowCount(n); m > 1 && Start(m - 2) + MAX_CHUNK_TOKENS < n <= Start(m - 1) + MAX_CHUNK_TOKENS
  {
  }

  lemma WordsOfSlice(tokens: seq<Token>, lo: nat, hi: nat)
    requires lo <= hi <= |tokens|
    ensures Words(tokens[lo..hi]) == Words(tokens)[lo..hi]
  {
  }

  /** `dict.fromkeys`: the kept elements are all that occur, each once, in order of first occurrence. */
  ghost predicate FirstOccurrences(all: seq<string>, kept: seq<string>) {
    && (forall x :: x in kept <==> x in all)
    && (forall i, j :: 0 <= i < j < |kept| ==> kept[i] != kept[j])
    && (forall i, j, q :: 0 <= i < j < |kept| && 0 <= q < |all| && all[q] == kept[j] ==> kept[i] in all[..q])
  }

  lemma {:induction false} DistinctInOrder(all: seq<string>)
    ensures FirstOccurrences(all, Distinct(all))
  {
    if all != [] {
      var init := all[..|all| - 1];
      DistinctInOrder(init);
      forall i, j, q | 0 <= i < j < |Distinct(all)| && 0 <= q < |all| && all[q] == Distinct(all)[j]
        ensures Distinct(all)[i] in all[..q]
      {
        if q < |init| {
          assert init[q] == all[q] && init[..q] == all[..q];
        } else {
          assert Distinct(all)[i] in Distinct(init) && all[..q] == init;
        }
      }
    }
  }

  /** The chunk shows tokens [lo, hi): their words joined by spaces, and their anchors, each once, in order of
      first occurrence. */
  ghost predicate ShowsTokens(c: Chunk, tokens: seq<Token>, lo: nat, hi: nat)
    requires lo <= hi <= |tokens|
  {
    && c.text == Join(" ", seq(hi - lo, i requires 0 <= i < hi - lo => tokens[lo + i].word))
    && FirstOccurrences(seq(hi - lo, i requires 0 <= i < hi - lo => tokens[lo + i].anchor), c.anchors)
  }

  lemma WindowShowsTokens(digest: Digest, checksum: string, path: seq<string>, tokens: seq<Token>, ordinal: nat,
      start: nat, lo: nat, hi: nat)
    requires lo <= hi <= |tokens|
    ensures ShowsTokens(ChunkFromTokens(digest, checksum, path, tokens[lo..hi], ordinal, start), tokens, lo, hi)
  {
    var window := tokens[lo..hi];
    assert Words(window) == seq(hi - lo, i requires 0 <= i < hi - lo => tokens[lo + i].word);
    assert TokenAnchors(window) == seq(hi - lo, i requires 0 <= i < hi - lo => tokens[lo + i].anchor);
    DistinctInOrder(TokenAnchors(window));
  }

  /** The chunk shows a whole group: the texts joined by newlines and the anchors of all entries. */
  ghost predicate ShowsGroup(c: Chunk, g: Group) {
    && |c.anchors| == |g.entries| && (forall i :: 0 <= i < |g.entries| ==> c.anchors[i] == g.entries[i].anchor)
    && c.text == Join("\n", seq(|g.entries|, i requires 0 <= i < |g.entries| => g.entries[i].text))
  }

  lemma FittingChunkIs(digest: Digest, checksum: string, g: Group, ordinal: nat)
    requires |Tokens(g.entries)| <= 1000
    ensures var chunks := GroupChunks(digest, checksum, g, ordinal);
            && |chunks| == 1 && chunks[0].ordinal == ordinal && chunks[0].path == g.path
            && chunks[0].id == digest(Payload(chunks[0].anchors, checksum, 0)) && ShowsGroup(chunks[0], g)
  {
    assert Texts(g.entries) == seq(|g.entries|, i requires 0 <= i < |g.entries| => g.entries[i].text);
  }

  lemma OversizedChunkIs(digest: Digest, checksum: string, g: Group, ordinal: nat, k: nat)
    requires |Tokens(g.entries)| > 1000 && k < |GroupChunks(digest, checksum, g, ordinal)|
    ensures var tokens := Tokens(g.entries);
            var lo, n := 900 * k, |tokens|;
            var hi := if lo + 1000 <= n then lo + 1000 else n;
            var chunks := GroupChunks(digest, checksum, g, ordinal);
            && chunks[k].ordinal == ordinal + k && chunks[k].path == g.path
            && chunks[k].id == digest(Payload(chunks[k].anchors, checksum, lo))
            && lo < hi <= n && (k + 1 == |chunks| <==> hi == n) && ShowsTokens(chunks[k], tokens, lo, hi)
  {
    var tokens := Tokens(g.entries);
    WindowBounds(|tokens|, k);
    WindowShowsTokens(digest, checksum, g.path, tokens, ordinal + k, 900 * k, 900 * k, WindowEnd(|tokens|, k));
  }

  /** Chunk k of an oversized group shows exactly tokens [900k, min(900k + 1000, n)), and the last chunk, and no
      other, reaches the last token; a group that fits is one chunk. Either way the chunk has the group's path,
      the next ordinal, and as its id the digest of its own anchors and its first token's position. */
  lemma ChunkIsItsWindow(digest: Digest, checksum: string, g: Group, ordinal: nat, k: nat)
    requires k < |GroupChunks(digest, checksum, g, ordinal)|
    ensures var tokens := Tokens(g.entries);
            var lo, n := 900 * k, |tokens|;
            var hi := if lo + 1000 <= n then lo + 1000 else n;
            var chunks := GroupChunks(digest, checksum, g, ordinal);
            && chunks[k].ordinal == ordinal + k && chunks[k].path == g.path
            && chunks[k].id == digest(Payload(chunks[k].anchors, checksum, lo))
            && if n <= 1000 then |chunks| == 1 && ShowsGroup(chunks[k], g)
               else lo < hi <= n && (k + 1 == |chunks| <==> hi == n) && ShowsTokens(chunks[k], tokens, lo, hi)
  {
    if |Tokens(g.entries)| <= 1000 {
      FittingChunkIs(digest, checksum, g, ordinal);
    } else {
      OversizedChunkIs(digest, checksum, g, ordinal, k);
    }
  }

  /** The words of such a chunk are the words of its tokens. */
  lemma ChunkWordsAreItsWindow(digest: Digest, checksum: string, g: Group, ordinal: nat, k: nat)
    requires k < |GroupChunks(digest, checksum, g, ordinal)|
    ensures var words := AllWords(Texts(g.entries));
            var chunk := GroupChunks(digest, checksum, g, ordinal)[k];
            var hi := if 900 * k + 1000 <= |words| then 900 * k + 1000 else |words|;
            && Words(Tokens(g.entries)) == words && 900 * k <= hi
            && Split(chunk.text) == if |words| <= 1000 then words else words[900 * k..hi]
  {
    var tokens := Tokens(g.entries);
    TokensAreWords(g.entries);
    if |tokens| > MAX_CHUNK_TOKENS {
      WindowBounds(|tokens|, k);
      WindowText(g.entries, k);
      WordsOfSlice(tokens, Start(k), WindowEnd(|tokens|, k));
    } else {
      WordsOfEntries(g.entries);
    }
  }

  /** The tokens of a group are those of its entries, entry by entry: the words of each under its anchor. */
  lemma {:induction false} TokensAre(before: seq<Entry>, after: seq<Entry>, e: Entry)
    ensures Tokens(before + after) == Tokens(before) + Tokens(after)
    ensures Tokens([]) == [] && |Tokens([e])| == |Split(e.text)|
    ensures forall i :: 0 <= i < |Split(e.text)| ==> Tokens([e])[i] == Token(e.anchor, Split(e.text)[i])
  {
    TokensOfOneMore([], e);
    assert [] + [e] == [e];
    if after == [] {
      assert before + after == before;
    } else {
      var init, last := after[..|after| - 1], after[|after| - 1];
      calc {
        Tokens(before + after);
      ==  { assert before + after == before + init + [last]; }
        Tokens(before + init + [last]);
      ==  { TokensOfOneMore(before + init, last); }
        Tokens(before + init) + EntryTokens(last);
      ==  { TokensAre(before, init, e); }
        Tokens(before) + Tokens(init) + EntryTokens(last);
      ==  { AppendIsAssociative(Tokens(before), Tokens(init), EntryTokens(last)); }
        Tokens(before) + (Tokens(init) + EntryTokens(last));
      ==  { TokensOfOneMore(init, last); assert after == init + [last]; }
        Tokens(before) + Tokens(after);
      }
    }
  }

  lemma TokensOfOneMore(entries: seq<Entry>, e: Entry)
    ensures Tokens(entries + [e]) == Tokens(entries) + EntryTokens(e)
  {
    assert (entries + [e])[..|entries|] == entries;
  }

  lemma {:induction false} ChunksOfPrefix(digest: Digest, checksum: string, groups: seq<Group>, i: nat)
    requires i <= |groups|
    ensures ChunksOf(digest, checksum, groups[..i]) <= ChunksOf(digest, checksum, groups)
  {
    if i < |groups| {
      var init := groups[..|groups| - 1];
      ChunksOfPrefix(digest, checksum, init, i);
      assert init[..i] == groups[..i];
    } else {
      assert groups[..i] == groups;
    }
  }

  /** The chunks of a document are the chunks of its groups, group after group. */
  lemma DocumentChunk(digest: Digest, checksum: string, groups: seq<Group>, j: nat)
    requires j < |groups|
    ensures var before := ChunksOf(digest, checksum, groups[..j]);
            var upTo := before + GroupChunks(digest, checksum, groups[j], |before|);
            && (j == 0 ==> before == []) && upTo == ChunksOf(digest, checksum, groups[..j + 1])
            && upTo <= ChunksOf(digest, checksum, groups)
            && (j + 1 == |groups| ==> upTo == ChunksOf(digest, checksum, groups))
  {
    assert groups[..j + 1][..j] == groups[..j];
    ChunksOfPrefix(digest, checksum, groups, j + 1);
    assert j + 1 == |groups| ==> groups[..j + 1] == groups;
  }

  /** The stripped texts of the headings, in order. */
  function HeadingTexts(blocks: seq<Block>): seq<string> {
    if blocks == [] then []
    else
      var init, b := blocks[..|blocks| - 1], blocks[|blocks| - 1];
      HeadingTexts(init) + if b.kind == Heading && Strip(b.text) != "" then [Strip(b.text)] else []
  }

  lemma {:induction false} PathIsHeadings(blocks: seq<Block>)
    ensures CurrentPath(Groups(blocks)) == HeadingTexts(blocks)
  {
    if blocks != [] {
      PathIsHeadings(blocks[..|blocks| - 1]);
    }
  }

  /** Block i is entry e of group g. */
  ghost predicate Sits(blocks: seq<Block>, i: nat, groups: seq<Group>, g: nat, e: nat)
    requires i < |blocks|
  {
    && g < |groups| && e < |groups[g].entries|
    && groups[g].path == HeadingTexts(blocks[..i + 1])
    && groups[g].entries[e] == Entry(blocks[i].anchor, Strip(blocks[i].text))
    && (e == 0 <==> blocks[i].kind == Heading || forall b :: b in blocks[..i] ==> Strip(b.text) == "")
  }

  /** Where block i ends up: under the path of the headings read so far, itself included, with its anchor
      and stripped text; it opens its group exactly when it is a heading or nothing came before it. */
  lemma {:induction false} GroupOfBlock(blocks: seq<Block>, i: nat) returns (g: nat, e: nat)
    requires i < |blocks| && Strip(blocks[i].text) != ""
    ensures Sits(blocks, i, Groups(blocks), g, e)
  {
    var n := |blocks| - 1;
    if i < n {
      g, e := GroupOfBlock(blocks[..n], i);
      EntryStays(Groups(blocks[..n]), blocks[n], g, e);
      assert blocks[..n][..i + 1] == blocks[..i + 1] && blocks[..n][..i] == blocks[..i];
    } else {
      GroupingKeepsAnchors(blocks[..n]);
      BlankMeansNoGroups(blocks[..n]);
      PathIsHeadings(blocks);
      assert blocks[..i + 1] == blocks;
      g, e := EntryOfExtend(Groups(blocks[..n]), blocks[n]);
    }
  }

  lemma EntryStays(groups: seq<Group>, b: Block, g: nat, e: nat)
    requires g < |groups| && e < |groups[g].entries|
    ensures var after := Extend(groups, b);
            && g < |after| && e < |after[g].entries|
            && after[g].path == groups[g].path && after[g].entries[e] == groups[g].entries[e]
  {
  }

  lemma EntryOfExtend(groups: seq<Group>, b: Block) returns (g: nat, e: nat)
    requires Strip(b.text) != "" && forall i :: 0 <= i < |groups| ==> groups[i].entries != []
    ensures var after := Extend(groups, b);
            && g < |after| && e < |after[g].entries| && after[g].path == CurrentPath(after)
            && after[g].entries[e] == Entry(b.anchor, Strip(b.text))
            && (e == 0 <==> b.kind == Heading || groups == [])
  {
    var after := Extend(groups, b);
    g := |after| - 1;
    e := |after[g].entries| - 1;
    if b.kind != Heading && groups != [] {
      assert groups[g].entries != [];
    }
  }

  lemma {:induction false} BlankMeansNoGroups(blocks: seq<Block>)
    ensures Groups(blocks) == [] <==> forall b :: b in blocks ==> Strip(b.text) == ""
  {
    if blocks != [] {
      var init, last := blocks[..|blocks| - 1], blocks[|blocks| - 1];
      BlankMeansNoGroups(init);
      assert blocks == init + [last];
    }
  }

  // ---- identity

  ghost predicate Injective(digest: Digest) {
    forall p, q :: digest(p) == digest(q) ==> p == q
  }

  /** The anchors of the blocks that reach a chunk. */
  function NonBlankAnchors(blocks: seq<Block>): seq<string> {
    if blocks == [] then []
    else
      var b := blocks[|blocks| - 1];
      NonBlankAnchors(blocks[..|blocks| - 1]) + if Strip(b.text) == "" then [] else [b.anchor]
  }

  function AllAnchors(groups: seq<Group>): seq<string> {
    if groups == [] then [] else AllAnchors(groups[..|groups| - 1]) + Anchors(groups[|groups| - 1].entries)
  }

  lemma ExtendKeepsAnchors(groups: seq<Group>, b: Block)
    ensures AllAnchors(Extend(groups, b)) == AllAnchors(groups) + if Strip(b.text) == "" then [] else [b.anchor]
  {
    var after := Extend(groups, b);
    var entry := Entry(b.anchor, Strip(b.text));
    if Strip(b.text) != "" {
      if b.kind == Heading || groups == [] {
        assert after[..|after| - 1] == groups;
        assert Anchors([entry]) == [b.anchor];
      } else {
        var last := groups[|groups| - 1].entries;
        assert after[..|after| - 1] == groups[..|groups| - 1];
        assert Anchors(last + [entry]) == Anchors(last) + [b.anchor];
      }
    }
  }

  lemma ExtendKeepsEntries(groups: seq<Group>, b: Block)
    requires forall i :: 0 <= i < |groups| ==> groups[i].entries != []
    ensures forall i :: 0 <= i < |Extend(groups, b)| ==> Extend(groups, b)[i].entries != []
  {
  }

  lemma {:induction false} GroupingKeepsAnchors(blocks: seq<Block>)
    ensures AllAnchors(Groups(blocks)) == NonBlankAnchors(blocks)
    ensures forall i :: 0 <= i < |Groups(blocks)| ==> Groups(blocks)[i].entries != []
  {
    if blocks != [] {
      var n := |blocks| - 1;
      GroupingKeepsAnchors(blocks[..n]);
      ExtendKeepsAnchors(Groups(blocks[..n]), blocks[n]);
      ExtendKeepsEntries(Groups(blocks[..n]), blocks[n]);
    }
  }

  /** A chunk's id is the digest of its own anchors and the token it starts at. */
  ghost predicate Identified(digest: Digest, checksum: string, c: Chunk, start: nat, anchors: seq<string>) {
    && c.id == digest(Payload(c.anchors, checksum, start))
    && c.anchors != [] && c.anchors[0] in anchors
  }

  lemma TokenAnchorsBelong(entries: seq<Entry>, t: Token)
    requires t in Tokens(entries)
    ensures t.anchor in Anchors(entries)
  {
    var n := |entries| - 1;
    if t in Tokens(entries[..n]) {
      TokenAnchorsBelong(entries[..n], t);
      var i :| 0 <= i < n && Anchors(entries[..n])[i] == t.anchor;
      assert Anchors(entries)[i] == t.anchor;
    } else {
      assert Anchors(entries)[n] == t.anchor;
    }
  }

  lemma WindowIdentified(digest: Digest, checksum: string, g: Group, ordinal: nat, k: nat)
    requires |Tokens(g.entries)| > MAX_CHUNK_TOKENS && k < WindowCount(|Tokens(g.entries)|)
    ensures Identified(digest, checksum, WindowChunk(digest, checksum, g.path, Tokens(g.entries), ordinal, k), Start(k),
            Anchors(g.entries))
  {
    var tokens := Tokens(g.entries);
    WindowBounds(|tokens|, k);
    var window := Window(tokens, k);
    var anchors := Distinct(TokenAnchors(window));
    assert TokenAnchors(window)[0] in anchors && anchors[0] in anchors;
    var i :| 0 <= i < |window| && TokenAnchors(window)[i] == anchors[0];
    assert window[i] in tokens;
    TokenAnchorsBelong(g.entries, window[i]);
  }

  lemma GroupChunkIdentified(digest: Digest, checksum: string, g: Group, ordinal: nat, k: nat)
    requires g.entries != [] && k < |GroupChunks(digest, checksum, g, ordinal)|
    ensures Identified(digest, checksum, GroupChunks(digest, checksum, g, ordinal)[k], Start(k), Anchors(g.entries))
  {
    var tokens := Tokens(g.entries);
    if |tokens| > MAX_CHUNK_TOKENS {
      WindowIdentified(digest, checksum, g, ordinal, k);
    }
  }

  /** What one group contributes to the chunk list. */
  ghost predicate Part(digest: Digest, checksum: string, g: Group, more: seq<Chunk>, ordinal: nat) {
    && more != []
    && (forall k :: 0 <= k < |more| ==> more[k].path == g.path && more[k].ordinal == ordinal + k)
    && (g.entries != [] ==> forall k :: 0 <= k < |more| ==>
       Identified(digest, checksum, more[k], Start(k), Anchors(g.entries)))
    && Unrepeated(more) == Words(Tokens(g.entries))
  }

  lemma GroupIsPart(digest: Digest, checksum: string, g: Group, ordinal: nat)
    ensures Part(digest, checksum, g, GroupChunks(digest, checksum, g, ordinal), ordinal)
  {
    var more := GroupChunks(digest, checksum, g, ordinal);
    forall k | 0 <= k < |more| ensures more[k].path == g.path && more[k].ordinal == ordinal + k {
    }
    if g.entries != [] {
      forall k | 0 <= k < |more| ensures Identified(digest, checksum, more[k], Start(k), Anchors(g.entries)) {
        GroupChunkIdentified(digest, checksum, g, ordinal, k);
      }
    }
    GroupLossless(digest, checksum, g, ordinal);
  }

  function Concat(parts: seq<seq<Chunk>>): seq<Chunk> {
    if parts == [] then [] else Concat(parts[..|parts| - 1]) + parts[|parts| - 1]
  }

  ghost predicate Parts(digest: Digest, checksum: string, groups: seq<Group>, parts: seq<seq<Chunk>>) {
    && |parts| == |groups|
    && (groups == [] ||
        var n := |groups| - 1;
        Parts(digest, checksum, groups[..n], parts[..n])
          && Part(digest, checksum, groups[n], parts[n], |Concat(parts[..n])|))
  }

  lemma {:induction false} ChunksInParts(digest: Digest, checksum: string, groups: seq<Group>)
    returns (parts: seq<seq<Chunk>>)
    ensures Parts(digest, checksum, groups, parts) && Concat(parts) == ChunksOf(digest, checksum, groups)
  {
    parts := [];
    if groups != [] {
      var n := |groups| - 1;
      var before := ChunksInParts(digest, checksum, groups[..n]);
      var more := GroupChunks(digest, checksum, groups[n], |Concat(before)|);
      GroupIsPart(digest, checksum, groups[n], |Concat(before)|);
      parts := before + [more];
      assert parts[..n] == before;
    }
  }

  lemma {:induction false} PartsAreNumbered(digest: Digest, checksum: string, groups: seq<Group>,
      parts: seq<seq<Chunk>>, i: nat)
    requires Parts(digest, checksum, groups, parts) && i < |Concat(parts)|
    ensures Concat(parts)[i].ordinal == i
  {
    var n := |parts| - 1;
    if i < |Concat(parts[..n])| {
      PartsAreNumbered(digest, checksum, groups[..n], parts[..n], i);
    }
  }

  lemma {:induction false} PartsRecover(digest: Digest, checksum: string, groups: seq<Group>, parts: seq<seq<Chunk>>)
    requires Parts(digest, checksum, groups, parts)
    requires forall i, j :: 0 <= i < j < |groups| ==> groups[i].path != groups[j].path
    ensures Recover(Concat(parts)) == GroupWords(groups)
    ensures groups != [] ==> Concat(parts) != [] && Concat(parts)[|Concat(parts)| - 1].path == groups[|groups| - 1].path
  {
    if groups != [] {
      var n := |groups| - 1;
      PartsRecover(digest, checksum, groups[..n], parts[..n]);
      if n > 0 {
        assert groups[..n][n - 1].path != groups[n].path;
      }
      RecoverGroup(Concat(parts[..n]), parts[n], groups[n].path);
    }
  }

  lemma {:induction false} PartIdentified(digest: Digest, checksum: string, groups: seq<Group>, parts: seq<seq<Chunk>>,
      i: nat)
    returns (start: nat)
    requires Parts(digest, checksum, groups, parts) && i < |Concat(parts)|
    requires forall g :: 0 <= g < |groups| ==> groups[g].entries != []
    ensures Identified(digest, checksum, Concat(parts)[i], start, AllAnchors(groups))
  {
    var n := |parts| - 1;
    if i < |Concat(parts[..n])| {
      start := PartIdentified(digest, checksum, groups[..n], parts[..n], i);
    } else {
      start := Start(i - |Concat(parts[..n])|);
      assert Identified(digest, checksum, parts[n][i - |Concat(parts[..n])|], start, Anchors(groups[n].entries));
    }
  }

  lemma SplitsApart(a: seq<string>, b: seq<string>)
    requires NoRepeats(a + b)
    ensures NoRepeats(a) && forall x :: x in a ==> x !in b
  {
    var s := a + b;
    assert forall i :: 0 <= i < |a| ==> s[i] == a[i];
    assert forall j :: 0 <= j < |b| ==> s[|a| + j] == b[j];
  }

  /** With an injective digest and distinct anchors, no two chunks of the groups share an id. */
  lemma {:induction false} PartsHaveDistinctIds(digest: Digest, checksum: string, groups: seq<Group>,
      parts: seq<seq<Chunk>>, i: nat, j: nat)
    requires Injective(digest) && NoRepeats(AllAnchors(groups)) && Parts(digest, checksum, groups, parts)
    requires forall g :: 0 <= g < |groups| ==> groups[g].entries != []
    requires i < j < |Concat(parts)|
    ensures Concat(parts)[i].id != Concat(parts)[j].id
  {
    var n := |parts| - 1;
    var before := |Concat(parts[..n])|;
    SplitsApart(AllAnchors(groups[..n]), Anchors(groups[n].entries));
    if j < before {
      PartsHaveDistinctIds(digest, checksum, groups[..n], parts[..n], i, j);
    } else {
      assert Identified(digest, checksum, parts[n][j - before], Start(j - before), Anchors(groups[n].entries));
      if i < before {
        var start := PartIdentified(digest, checksum, groups[..n], parts[..n], i);
      } else {
        assert Identified(digest, checksum, parts[n][i - before], Start(i - before), Anchors(groups[n].entries));
      }
    }
  }

  /** Ordinals number the chunks of a document from zero without a gap. */
  lemma OrdinalsCount(digest: Digest, checksum: string, groups: seq<Group>, i: nat)
    requires i < |ChunksOf(digest, checksum, groups)|
    ensures ChunksOf(digest, checksum, groups)[i].ordinal == i
  {
    var parts := ChunksInParts(digest, checksum, groups);
    PartsAreNumbered(digest, checksum, groups, parts, i);
  }

  /** Lossless chunking: from the chunk list of any document alone, exactly the words of all its blocks
      come back, in order. */
  lemma Lossless(digest: Digest, checksum: string, blocks: seq<Block>)
    ensures Recover(ChunksOf(digest, checksum, Groups(blocks))) == AllWords(BlockTexts(blocks))
  {
    var groups := Groups(blocks);
    forall i, j | 0 <= i < j < |groups| ensures groups[i].path != groups[j].path {
      PathsFormAChain(blocks, i, j);
    }
    var parts := ChunksInParts(digest, checksum, groups);
    PartsRecover(digest, checksum, groups, parts);
    GroupingKeepsWords(blocks);
  }

  /** All chunk ids of a document are distinct when its anchors are. */
  lemma ChunkIdsAreDistinct(digest: Digest, checksum: string, blocks: seq<Block>, i: nat, j: nat)
    requires Injective(digest) && NoRepeats(NonBlankAnchors(blocks))
    requires i < j < |ChunksOf(digest, checksum, Groups(blocks))|
    ensures ChunksOf(digest, checksum, Groups(blocks))[i].id != ChunksOf(digest, checksum, Groups(blocks))[j].id
  {
    GroupingKeepsAnchors(blocks);
    var parts := ChunksInParts(digest, checksum, Groups(blocks));
    PartsHaveDistinctIds(digest, checksum, Groups(blocks), parts, i, j);
  }

}
