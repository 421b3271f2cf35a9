/** Pages of an analysed document: text blocks with offsets into the page text, and citation anchors. */
module PageLayout {
  import opened Prelude
  import opened Text
  import Decimal
  import opened Chunking
  import opened ChunkProperties

  const MAX_PDF_OBJECTS: nat := 20000
  const MAX_PDF_PAGES: nat := 250
  const MAX_PDF_BLOCKS: nat := 10_000
  const MAX_EXTRACTED_CHARACTERS: nat := 1_000_000

  datatype Item = Item(kind: Kind, text: string)
  datatype PageBlock = PageBlock(anchor: string, kind: Kind, text: string, start: nat, end: nat)
  datatype Page = Page(number: nat, blocks: seq<PageBlock>)

  /** "citation-" and a truncated SHA-256 of the UTF-8 text. */
  type Hash = string -> string

  ghost predicate HashInjective(hash: Hash) {
    forall a, b :: hash(a) == hash(b) ==> a == b
  }

  function AnchorPayload(checksum: string, page: nat, index: nat, start: nat, end: nat): string {
    checksum + ":" + Decimal.Show(page) + ":" + Decimal.Show(index) + ":" + Decimal.Show(start) + ":"
      + Decimal.Show(end)
  }

  function ItemTexts(items: seq<Item>): seq<string> {
    seq(|items|, i requires 0 <= i < |items| => items[i].text)
  }

  /** Where block i starts: each earlier text and one separator precede it. */
  function Offset(items: seq<Item>, i: nat): nat
    requires i <= |items|
  {
    if i == 0 then 0 else Offset(items, i - 1) + |items[i - 1].text| + 1
  }

  function BlockAt(hash: Hash, checksum: string, page: nat, items: seq<Item>, i: nat): PageBlock
    requires i < |items|
  {
    var start := Offset(items, i);
    var end := start + |items[i].text|;
    PageBlock(hash(AnchorPayload(checksum, page, i, start, end)), items[i].kind, items[i].text, start, end)
  }

  function LayOut(hash: Hash, checksum: string, page: nat, items: seq<Item>): seq<PageBlock> {
    seq(|items|, i requires 0 <= i < |items| => BlockAt(hash, checksum, page, items, i))
  }

  /** Block i starts one separator after its predecessor ends, and its anchor names where it stands. */
  ghost predicate Placed(hash: Hash, checksum: string, page: Page, i: nat)
    requires i < |page.blocks|
  {
    var b, show := page.blocks[i], (n: nat) => ":" + Decimal.Show(n);
    && b.start == (if i == 0 then 0 else page.blocks[i - 1].end + 1) && b.end == b.start + |b.text|
    && b.anchor == hash(checksum + show(page.number) + show(i) + show(b.start) + show(b.end))
  }

  lemma LayOutIsPlaced(hash: Hash, checksum: string, number: nat, items: seq<Item>, i: nat)
    requires i < |items|
    ensures Placed(hash, checksum, Page(number, LayOut(hash, checksum, number, items)), i)
  {
    var b, show := LayOut(hash, checksum, number, items)[i], (n: nat) => ":" + Decimal.Show(n);
    assert AnchorPayload(checksum, number, i, b.start, b.end)
        == checksum + show(number) + show(i) + show(b.start) + show(b.end);
  }

  /** `_page_from_items`. */
  method PageFromItems(hash: Hash, checksum: string, number: nat, items: seq<Item>) returns (page: Page)
    ensures page == Page(number, LayOut(hash, checksum, number, items))
    ensures page.number == number && |page.blocks| == |items|
    ensures forall i :: 0 <= i < |items| ==> Placed(hash, checksum, page, i)
    ensures forall i :: 0 <= i < |items| ==>
              page.blocks[i].kind == items[i].kind && page.blocks[i].text == items[i].text
  {
    var offset := 0;
    var blocks: seq<PageBlock> := [];
    for i := 0 to |items|
      invariant offset == Offset(items, i)
      invariant blocks == LayOut(hash, checksum, number, items)[..i]
    {
      var start := offset;
      var end := start + |items[i].text|;
      blocks := blocks + [PageBlock(hash(AnchorPayload(checksum, number, i, start, end)), items[i].kind, items[i].text,
        start, end)];
      offset := end + 1;
    }
    page := Page(number, blocks);
    forall i | 0 <= i < |items| ensures Placed(hash, checksum, page, i) {
      LayOutIsPlaced(hash, checksum, number, items, i);
    }
  }

  lemma {:induction false} JoinFrom(texts: seq<string>, items: seq<Item>, i: nat)
    requires texts == ItemTexts(items) && i < |items|
    ensures Offset(items, i) <= |Join("\n", texts)| && Join("\n", texts)[Offset(items, i)..] == Join("\n", texts[i..])
  {
    if i == 0 {
      assert texts[0..] == texts;
    } else {
      JoinFrom(texts, items, i - 1);
      assert texts[i - 1..][1..] == texts[i..];
      assert Join("\n", texts[i - 1..]) == texts[i - 1] + "\n" + Join("\n", texts[i..]);
    }
  }

  /** A block's offsets cut exactly its text out of the page's texts joined by newlines. */
  lemma OffsetsCutTheText(hash: Hash, checksum: string, page: nat, items: seq<Item>, i: nat)
    requires i < |items|
    ensures var text := Join("\n", ItemTexts(items));
            var block := LayOut(hash, checksum, page, items)[i];
            block.start <= block.end <= |text| && text[block.start..block.end] == block.text == items[i].text
  {
    var texts := ItemTexts(items);
    JoinFrom(texts, items, i);
    assert texts[i..][0] == items[i].text;
    assert |Join("\n", texts[i..])| >= |texts[i]| && Join("\n", texts[i..])[..|texts[i]|] == texts[i];
  }

  // ---- anchors

  lemma LastColon(a: string, x: string, b: string, y: string)
    requires a + ":" + x == b + ":" + y && ':' !in x
    ensures |b| <= |a|
  {
    var s := a + ":" + x;
    assert s[|b|] == ':';
    assert forall k :: |a| < k < |s| ==> s[k] == x[k - |a| - 1];
  }

  lemma SplitAtLastColon(a: string, x: string, b: string, y: string)
    requires a + ":" + x == b + ":" + y && ':' !in x && ':' !in y
    ensures a == b && x == y
  {
    LastColon(a, x, b, y);
    LastColon(b, y, a, x);
    var s := a + ":" + x;
    assert s[..|a|] == a && s[|a| + 1..] == x;
    assert s[..|b|] == b && s[|b| + 1..] == y;
  }

  lemma ShowSplits(a: string, m: nat, b: string, n: nat)
    requires a + ":" + Decimal.Show(m) == b + ":" + Decimal.Show(n)
    ensures a == b && m == n
  {
    SplitAtLastColon(a, Decimal.Show(m), b, Decimal.Show(n));
    Decimal.ReadShow(m);
    Decimal.ReadShow(n);
  }

  /** The anchor text determines the checksum, the page, the block index and both offsets. */
  lemma AnchorPayloadIsInjective(c: string, p: nat, i: nat, s: nat, e: nat, c': string, p': nat, i': nat, s': nat,
      e': nat)
    requires AnchorPayload(c, p, i, s, e) == AnchorPayload(c', p', i', s', e')
    ensures c == c' && p == p' && i == i' && s == s' && e == e'
  {
    var d := (q: string, n: nat) => q + ":" + Decimal.Show(n);
    ShowSplits(d(d(d(c, p), i), s), e, d(d(d(c', p'), i'), s'), e');
    ShowSplits(d(d(c, p), i), s, d(d(c', p'), i'), s');
    ShowSplits(d(c, p), i, d(c', p'), i');
    ShowSplits(c, p, c', p');
  }

  /** The blocks a document hands to the chunker, pages numbered from one. */
  function DocumentBlocks(hash: Hash, checksum: string, pages: seq<seq<Item>>): seq<Block> {
    if pages == [] then []
    else
      var n := |pages| - 1;
      DocumentBlocks(hash, checksum, pages[..n]) + ToBlocks(LayOut(hash, checksum, n + 1, pages[n]))
  }

  function ToBlocks(blocks: seq<PageBlock>): seq<Block> {
    seq(|blocks|, i requires 0 <= i < |blocks| => Block(blocks[i].kind, blocks[i].text, blocks[i].anchor))
  }

  ghost predicate AnchoredAt(hash: Hash, checksum: string, anchor: string, page: nat, index: nat, start: nat,
      end: nat)
  {
    anchor == hash(AnchorPayload(checksum, page, index, start, end))
  }

  lemma {:induction false} BlockIsAnchored(hash: Hash, checksum: string, pages: seq<seq<Item>>, i: nat)
    returns (page: nat, index: nat, start: nat, end: nat)
    requires i < |DocumentBlocks(hash, checksum, pages)|
    ensures AnchoredAt(hash, checksum, DocumentBlocks(hash, checksum, pages)[i].anchor, page, index, start, end)
    ensures page <= |pages|
    ensures var before := |DocumentBlocks(hash, checksum, pages[..|pages| - 1])|;
            i >= before ==> page == |pages| && index == i - before
  {
    var n := |pages| - 1;
    var before := |DocumentBlocks(hash, checksum, pages[..n])|;
    if i < before {
      page, index, start, end := BlockIsAnchored(hash, checksum, pages[..n], i);
    } else {
      page, index := n + 1, i - before;
      start := Offset(pages[n], index);
      end := start + |pages[n][index].text|;
    }
  }

  /** With an injective hash, no two blocks of a document share an anchor. */
  lemma {:induction false} AnchorsAreDistinct(hash: Hash, checksum: string, pages: seq<seq<Item>>, i: nat, j: nat)
    requires HashInjective(hash) && i < j < |DocumentBlocks(hash, checksum, pages)|
    ensures DocumentBlocks(hash, checksum, pages)[i].anchor != DocumentBlocks(hash, checksum, pages)[j].anchor
  {
    var n := |pages| - 1;
    var before := DocumentBlocks(hash, checksum, pages[..n]);
    if j < |before| {
      AnchorsAreDistinct(hash, checksum, pages[..n], i, j);
    } else {
      var p, k, s, e;
      if i < |before| {
        p, k, s, e := BlockIsAnchored(hash, checksum, pages[..n], i);
      } else {
        p, k, s, e := BlockIsAnchored(hash, checksum, pages, i);
      }
      var p', k', s', e' := BlockIsAnchored(hash, checksum, pages, j);
      if AnchorPayload(checksum, p, k, s, e) == AnchorPayload(checksum, p', k', s', e') {
        AnchorPayloadIsInjective(checksum, p, k, s, e, checksum, p', k', s', e');
      }
    }
  }

  lemma {:induction false} NonBlankAnchorsNoRepeats(blocks: seq<Block>)
    requires forall i, j :: 0 <= i < j < |blocks| ==> blocks[i].anchor != blocks[j].anchor
    ensures NoRepeats(NonBlankAnchors(blocks))
    ensures forall a :: a in NonBlankAnchors(blocks) ==> exists i :: 0 <= i < |blocks| && blocks[i].anchor == a
  {
    if blocks != [] {
      var init := blocks[..|blocks| - 1];
      NonBlankAnchorsNoRepeats(init);
      forall a | a in NonBlankAnchors(init) ensures a != blocks[|blocks| - 1].anchor {
        var i :| 0 <= i < |init| && init[i].anchor == a;
        assert blocks[i].anchor == a;
      }
      assert forall i :: 0 <= i < |NonBlankAnchors(init)| ==> NonBlankAnchors(init)[i] in NonBlankAnchors(init);
      forall a | a in NonBlankAnchors(blocks) ensures exists i :: 0 <= i < |blocks| && blocks[i].anchor == a {
        if a in NonBlankAnchors(init) {
          var i :| 0 <= i < |init| && init[i].anchor == a;
          assert blocks[i].anchor == a;
        }
      }
    }
  }

  /** Identity end to end: with injective hashes, all chunk ids of any laid-out document are distinct. */
  lemma DocumentChunkIdsAreDistinct(hash: Hash, digest: Digest, checksum: string, pages: seq<seq<Item>>, i: nat, j: nat)
    requires HashInjective(hash) && Injective(digest)
    requires i < j < |ChunksOf(digest, checksum, Groups(DocumentBlocks(hash, checksum, pages)))|
    ensures var chunks := ChunksOf(digest, checksum, Groups(DocumentBlocks(hash, checksum, pages)));
            chunks[i].id != chunks[j].id
  {
    var blocks := DocumentBlocks(hash, checksum, pages);
    forall k, l | 0 <= k < l < |blocks| ensures blocks[k].anchor != blocks[l].anchor {
      AnchorsAreDistinct(hash, checksum, pages, k, l);
    }
    NonBlankAnchorsNoRepeats(blocks);
    ChunkIdsAreDistinct(digest, checksum, blocks, i, j);
  }

  // ---- lines of a PDF page

  /** Iterating `StringIO(text)`: lines keep their newline. */
  function Lines(s: string): (lines: seq<string>)
    ensures s != "" ==> lines != [] && lines[0] != "" && lines[0][0] == s[0]
  {
    if s == "" then []
    else
      var rest := Lines(s[1..]);
      if s[0] == '\n' || rest == [] then [[s[0]]] + rest else [[s[0]] + rest[0]] + rest[1..]
  }

  /** Only the last line may lack its newline, no newline stands inside a line, and nothing is lost. */
  lemma {:induction false} LinesAre(s: string)
    ensures Join("", Lines(s)) == s
    ensures forall i :: 0 <= i < |Lines(s)| ==> IsLine(Lines(s)[i], i + 1 == |Lines(s)|)
  {
    if s != "" {
      var lines, rest := Lines(s), Lines(s[1..]);
      LinesAre(s[1..]);
      assert forall i :: 0 <= i < |rest| ==> IsLine(rest[i], i + 1 == |rest|);
      if s[0] == '\n' || rest == [] {
        JoinFirst([s[0]], rest);
      } else {
        JoinFirst([s[0]] + rest[0], rest[1..]);
        JoinFirst(rest[0], rest[1..]);
        assert [rest[0]] + rest[1..] == rest;
        assert ([s[0]] + rest[0])[1..] == rest[0];
        assert IsLine(rest[0], 1 == |rest|);
      }
    }
  }

  lemma JoinFirst(line: string, rest: seq<string>)
    ensures Join("", [line] + rest) == line + Join("", rest)
  {
    if rest != [] {
      JoinIs("", [line], rest);
    }
  }

  ghost predicate IsLine(line: string, last: bool) {
    && line != "" && (forall k :: 0 <= k < |line| - 1 ==> line[k] != '\n')
    && (line[|line| - 1] == '\n' || last)
  }

  /** The lines that hold a word, stripped, in order. */
  lemma {:induction false} NonBlankIs(a: seq<string>, b: seq<string>, line: string)
    ensures NonBlank([]) == [] && NonBlank([line]) == if Split(line) == [] then [] else [Strip(line)]
    ensures NonBlank(a + b) == NonBlank(a) + NonBlank(b)
  {
    NonBlankOfOneMore([], line);
    SplitStrip(line);
    if b == [] {
      assert a + b == a;
    } else {
      var init, last := b[..|b| - 1], b[|b| - 1];
      var kept := if Strip(last) == "" then [] else [Strip(last)];
      calc {
        NonBlank(a + b);
      ==  { assert a + b == a + init + [last]; }
        NonBlank(a + init + [last]);
      ==  { NonBlankOfOneMore(a + init, last); }
        NonBlank(a + init) + kept;
      ==  { NonBlankIs(a, init, line); }
        NonBlank(a) + NonBlank(init) + kept;
      ==  { AppendIsAssociative(NonBlank(a), NonBlank(init), kept); }
        NonBlank(a) + NonBlank(b);
      }
    }
  }

  lemma NonBlankOfOneMore(lines: seq<string>, line: string)
    ensures NonBlank(lines + [line]) == NonBlank(lines) + if Strip(line) == "" then [] else [Strip(line)]
    ensures [] + [line] == [line]
  {
    assert (lines + [line])[..|lines|] == lines;
  }

  function NonBlank(lines: seq<string>): seq<string> {
    if lines == [] then []
    else NonBlank(lines[..|lines| - 1]) + if Strip(lines[|lines| - 1]) == "" then [] else [Strip(lines[|lines| - 1])]
  }

  /** `_bounded_pdf_lines`; None is the DocumentParseError. */
  method BoundedPdfLines(text: string, remaining: nat) returns (r: Option<seq<string>>)
    ensures r == if |NonBlank(Lines(text))| > remaining then None else Some(NonBlank(Lines(text)))
  {
    var raw := Lines(text);
    var lines: seq<string> := [];
    for i := 0 to |raw|
      invariant lines == NonBlank(raw[..i]) && |lines| <= remaining
    {
      var line := Strip(raw[i]);
      assert raw[..i + 1][..i] == raw[..i];
      if line != "" {
        if |lines| >= remaining {
          NonBlankGrows(raw, i + 1);
          return None;
        }
        lines := lines + [line];
      }
    }
    assert raw[..|raw|] == raw;
    r := Some(lines);
  }

  lemma {:induction false} NonBlankGrows(lines: seq<string>, i: nat)
    requires i <= |lines|
    ensures |NonBlank(lines[..i])| <= |NonBlank(lines)|
    decreases |lines| - i
  {
    if i < |lines| {
      NonBlankGrows(lines, i + 1);
      assert lines[..i + 1][..i] == lines[..i];
    } else {
      assert lines[..i] == lines;
    }
  }

  predicate LooksLikeHeading(text: string) {
    |text| <= 120 && (text == "" || text[|text| - 1] !in {'.', ';', ':'})
  }

  /** `_page_from_text`: only the first line of a page can be a heading. */
  function TextItems(lines: seq<string>): seq<Item> {
    seq(|lines|,
        i requires 0 <= i < |lines| =>
          Item(if i == 0 && LooksLikeHeading(lines[i]) then Heading else Paragraph, lines[i]))
  }

  function PdfItems(texts: seq<string>): seq<seq<Item>> {
    seq(|texts|, i requires 0 <= i < |texts| => TextItems(NonBlank(Lines(texts[i]))))
  }

  function Characters(texts: seq<string>): nat {
    if texts == [] then 0 else Characters(texts[..|texts| - 1]) + |texts[|texts| - 1]|
  }

  function LineCount(texts: seq<string>): nat {
    if texts == [] then 0 else LineCount(texts[..|texts| - 1]) + |NonBlank(Lines(texts[|texts| - 1]))|
  }

  /** What the three limits count. */
  lemma {:induction false} SizesAre(texts: seq<string>, more: seq<string>, counts: seq<nat>, rest: seq<nat>)
    ensures Characters(texts) == |Join("", texts)|
    ensures LineCount(texts + more) == LineCount(texts) + LineCount(more)
    ensures texts != [] ==> LineCount(texts[..1]) == |NonBlank(Lines(texts[0]))|
    ensures Sum(counts + rest) == Sum(counts) + Sum(rest)
    ensures counts != [] ==> Sum(counts[..1]) == counts[0]
  {
    CharactersAre(texts);
    LineCountAdds(texts, more);
    SumAdds(counts, rest);
    if texts != [] {
      assert texts[..1][..0] == [];
    }
    if counts != [] {
      assert counts[..1][..0] == [];
    }
  }

  lemma {:induction false} CharactersAre(texts: seq<string>)
    ensures Characters(texts) == |Join("", texts)|
  {
    if |texts| > 1 {
      var init, last := texts[..|texts| - 1], texts[|texts| - 1];
      CharactersAre(init);
      JoinIs("", init, [last]);
      assert texts == init + [last];
    } else if |texts| == 1 {
      assert texts[..0] == [];
    }
  }

  lemma {:induction false} LineCountAdds(texts: seq<string>, more: seq<string>)
    ensures LineCount(texts + more) == LineCount(texts) + LineCount(more)
  {
    if more == [] {
      assert texts + more == texts;
    } else {
      LineCountAdds(texts, more[..|more| - 1]);
      assert (texts + more)[..|texts + more| - 1] == texts + more[..|more| - 1];
    }
  }

  lemma {:induction false} SumAdds(counts: seq<nat>, rest: seq<nat>)
    ensures Sum(counts + rest) == Sum(counts) + Sum(rest)
  {
    if rest == [] {
      assert counts + rest == counts;
    } else {
      SumAdds(counts, rest[..|rest| - 1]);
      assert (counts + rest)[..|counts + rest| - 1] == counts + rest[..|rest| - 1];
    }
  }

  /** Python's `sum`. */
  function Sum(counts: seq<nat>): nat {
    if counts == [] then 0 else Sum(counts[..|counts| - 1]) + counts[|counts| - 1]
  }

  predicate TooLarge(texts: seq<string>) {
    |texts| > MAX_PDF_PAGES || Characters(texts) > MAX_EXTRACTED_CHARACTERS || LineCount(texts) > MAX_PDF_BLOCKS
  }

  lemma {:induction false} CountsGrow(texts: seq<string>, i: nat)
    requires i <= |texts|
    ensures Characters(texts[..i]) <= Characters(texts) && LineCount(texts[..i]) <= LineCount(texts)
    decreases |texts| - i
  {
    if i < |texts| {
      CountsGrow(texts, i + 1);
      assert texts[..i + 1][..i] == texts[..i];
    } else {
      assert texts[..i] == texts;
    }
  }

  function PageOf(hash: Hash, checksum: string, texts: seq<string>, i: nat): Page
    requires i < |texts|
  {
    Page(i + 1, LayOut(hash, checksum, i + 1, TextItems(NonBlank(Lines(texts[i])))))
  }

  /** A page of the analysed PDF: a block for each non-blank line of its text. Only the first one can be a
      heading; it is one when it has at most 120 characters and does not end like a sentence. */
  ghost predicate Shows(hash: Hash, checksum: string, text: string, page: Page) {
    var lines := NonBlank(Lines(text));
    && |page.blocks| == |lines|
    && forall i :: 0 <= i < |lines| ==>
         && Placed(hash, checksum, page, i) && page.blocks[i].text == lines[i]
         && (page.blocks[i].kind == Heading || page.blocks[i].kind == Paragraph)
         && (page.blocks[i].kind == Heading <==>
               i == 0 && |lines[i]| <= 120 && (lines[i] == "" || lines[i][|lines[i]| - 1] !in ['.', ';', ':']))
  }

  lemma PageShows(hash: Hash, checksum: string, texts: seq<string>, i: nat)
    requires i < |texts|
    ensures Shows(hash, checksum, texts[i], PageOf(hash, checksum, texts, i))
  {
    var items := TextItems(NonBlank(Lines(texts[i])));
    forall j | 0 <= j < |items| ensures Placed(hash, checksum, PageOf(hash, checksum, texts, i), j) {
      LayOutIsPlaced(hash, checksum, i + 1, items, j);
    }
  }

  lemma {:induction false} PagesAre(hash: Hash, checksum: string, texts: seq<string>, n: nat, i: nat)
    requires i < n <= |texts|
    ensures ParsedPages(hash, checksum, texts, n)[i] == PageOf(hash, checksum, texts, i)
  {
    if i < n - 1 {
      PagesAre(hash, checksum, texts, n - 1, i);
    }
  }

  lemma PagesShow(hash: Hash, checksum: string, texts: seq<string>)
    ensures forall i :: 0 <= i < |texts| ==>
              var page := ParsedPages(hash, checksum, texts, |texts|)[i];
              page.number == i + 1 && Shows(hash, checksum, texts[i], page)
  {
    forall i | 0 <= i < |texts|
      ensures var page := ParsedPages(hash, checksum, texts, |texts|)[i];
              page.number == i + 1 && Shows(hash, checksum, texts[i], page)
    {
      PagesAre(hash, checksum, texts, |texts|, i);
      PageShows(hash, checksum, texts, i);
    }
  }

  function ParsedPages(hash: Hash, checksum: string, texts: seq<string>, n: nat): (pages: seq<Page>)
    requires n <= |texts|
    ensures |pages| == n
  {
    if n == 0 then [] else ParsedPages(hash, checksum, texts, n - 1) + [PageOf(hash, checksum, texts, n - 1)]
  }

  lemma SizesSoFar(texts: seq<string>, i: nat)
    requires i < |texts|
    ensures Characters(texts[..i + 1]) == Characters(texts[..i]) + |texts[i]| <= Characters(texts)
    ensures LineCount(texts[..i + 1]) == LineCount(texts[..i]) + |NonBlank(Lines(texts[i]))| <= LineCount(texts)
  {
    assert texts[..i + 1][..i] == texts[..i];
    CountsGrow(texts, i + 1);
  }

  /** One page: its lines, unless they are too many, laid out. */
  method PageFromText(hash: Hash, checksum: string, texts: seq<string>, i: nat, remaining: nat)
    returns (page: Option<Page>)
    requires i < |texts|
    ensures page == if |NonBlank(Lines(texts[i]))| > remaining then None else Some(PageOf(hash, checksum, texts, i))
  {
    var lines := BoundedPdfLines(texts[i], remaining);
    if lines.None? {
      return None;
    }
    var made := PageFromItems(hash, checksum, i + 1, TextItems(lines.value));
    page := Some(made);
  }

  /** The page loop of `_parse_pdf`. */
  method ParsePages(hash: Hash, checksum: string, texts: seq<string>) returns (r: Option<seq<Page>>)
    requires |texts| <= MAX_PDF_PAGES
    ensures r == if TooLarge(texts) then None else Some(ParsedPages(hash, checksum, texts, |texts|))
  {
    var pages: seq<Page> := [];
    var extracted, blockCount := 0, 0;
    for i := 0 to |texts|
      invariant extracted == Characters(texts[..i]) <= MAX_EXTRACTED_CHARACTERS
      invariant blockCount == LineCount(texts[..i]) <= MAX_PDF_BLOCKS
      invariant pages == ParsedPages(hash, checksum, texts, i)
    {
      SizesSoFar(texts, i);
      extracted := extracted + |texts[i]|;
      if extracted > MAX_EXTRACTED_CHARACTERS {
        return None;
      }
      var page := PageFromText(hash, checksum, texts, i, MAX_PDF_BLOCKS - blockCount);
      if page.None? {
        return None;
      }
      blockCount := blockCount + |NonBlank(Lines(texts[i]))|;
      pages := pages + [page.value];
    }
    assert texts[..|texts|] == texts;
    r := Some(pages);
  }

  /** `_parse_pdf` over the cross-reference tables and object streams of the file, each with the number
      of its objects, and the extracted page texts: refused exactly when the whole document is too large. */
  method ParsePdf(hash: Hash, checksum: string, tables: seq<nat>, streams: seq<nat>, texts: seq<string>)
    returns (r: Option<seq<Page>>)
    ensures r == if Sum(tables) + Sum(streams) > MAX_PDF_OBJECTS || TooLarge(texts) then None
                 else Some(ParsedPages(hash, checksum, texts, |texts|))
    ensures r.None? <==>
            || Sum(tables) + Sum(streams) > 20_000 || |texts| > 250
            || Characters(texts) > 1_000_000 || LineCount(texts) > 10_000
    ensures r.Some? ==>
              && |r.value| == |texts|
              && forall i :: 0 <= i < |texts| ==>
                   r.value[i].number == i + 1 && Shows(hash, checksum, texts[i], r.value[i])
  {
    PagesShow(hash, checksum, texts);
    var objectCount := Sum(tables) + Sum(streams);
    if objectCount > MAX_PDF_OBJECTS || |texts| > MAX_PDF_PAGES {
      return None;
    }
    r := ParsePages(hash, checksum, texts);
  }

  /** The blocks of the parsed pages, in order, are the blocks the chunker sees. */
  function BlocksOf(pages: seq<Page>): seq<Block> {
    if pages == [] then [] else BlocksOf(pages[..|pages| - 1]) + ToBlocks(pages[|pages| - 1].blocks)
  }

  lemma BlocksOfOneMore(pages: seq<Page>, page: Page)
    ensures BlocksOf(pages + [page]) == BlocksOf(pages) + ToBlocks(page.blocks)
  {
    assert (pages + [page])[..|pages|] == pages;
  }

  lemma DocumentOfOneMore(hash: Hash, checksum: string, pages: seq<seq<Item>>, n: nat)
    requires n < |pages|
    ensures DocumentBlocks(hash, checksum, pages[..n + 1])
      == DocumentBlocks(hash, checksum, pages[..n]) + ToBlocks(LayOut(hash, checksum, n + 1, pages[n]))
  {
    assert pages[..n + 1][..n] == pages[..n];
  }

  lemma {:induction false} ParsedBlocks(hash: Hash, checksum: string, texts: seq<string>, n: nat)
    requires n <= |texts|
    ensures BlocksOf(ParsedPages(hash, checksum, texts, n)) == DocumentBlocks(hash, checksum, PdfItems(texts)[..n])
  {
    if n > 0 {
      ParsedBlocks(hash, checksum, texts, n - 1);
      BlocksOfOneMore(ParsedPages(hash, checksum, texts, n - 1), PageOf(hash, checksum, texts, n - 1));
      DocumentOfOneMore(hash, checksum, PdfItems(texts), n - 1);
    }
  }

  // ---- no word of a PDF is lost

  lemma {:induction false} LinesKeepWords(s: string)
    ensures AllWords(Lines(s)) == Split(s)
  {
    if s != "" {
      var lines, rest := Lines(s), Lines(s[1..]);
      LinesKeepWords(s[1..]);
      AllWordsOfFirst(lines);
      if s[0] == '\n' || rest == [] {
        assert lines[1..] == rest;
      } else {
        AllWordsOfFirst(rest);
        assert lines[1..] == rest[1..];
        FirstLetter(s[0], rest[0], s[1..], AllWords(rest[1..]));
        assert [s[0]] + s[1..] == s;
      }
    }
  }

  /** Putting one character before a text and before its first line has the same effect on the words. */
  lemma LetterFirst(c: char, text: string)
    requires text != ""
    ensures Split([c] + text) ==
      if IsSpace(c) then Split(text)
      else if IsSpace(text[0]) then [[c]] + Split(text)
      else [[c] + Split(text)[0]] + Split(text)[1..]
  {
    assert ([c] + text)[1..] == text;
  }

  lemma FirstLetter(c: char, line: string, text: string, others: seq<string>)
    requires line != "" && text != "" && line[0] == text[0] && Split(text) == Split(line) + others
    ensures Split([c] + text) == Split([c] + line) + others
  {
    LetterFirst(c, text);
    LetterFirst(c, line);
    if !IsSpace(c) {
      if IsSpace(text[0]) {
        PrependThenAppend([c], Split(line), others);
      } else {
        ReplaceFirst(c, Split(line), others);
      }
    }
  }

  lemma PrependThenAppend(first: string, words: seq<string>, others: seq<string>)
    ensures [first] + (words + others) == [first] + words + others
  {
  }

  lemma ReplaceFirst(c: char, words: seq<string>, others: seq<string>)
    requires words != []
    ensures [[c] + (words + others)[0]] + (words + others)[1..] == [[c] + words[0]] + words[1..] + others
  {
  }

  lemma {:induction false} NonBlankKeepsWords(lines: seq<string>)
    ensures AllWords(NonBlank(lines)) == AllWords(lines)
  {
    if lines != [] {
      var init, line := lines[..|lines| - 1], lines[|lines| - 1];
      NonBlankKeepsWords(init);
      SplitStrip(line);
      if Strip(line) == "" {
        assert NonBlank(lines) == NonBlank(init);
      } else {
        AllWordsOfOneMore(NonBlank(init), Strip(line));
      }
    }
  }

  lemma PageKeepsWords(hash: Hash, checksum: string, number: nat, text: string)
    ensures AllWords(BlockTexts(ToBlocks(LayOut(hash, checksum, number, TextItems(NonBlank(Lines(text))))))) ==
            Split(text)
  {
    var lines := NonBlank(Lines(text));
    assert BlockTexts(ToBlocks(LayOut(hash, checksum, number, TextItems(lines)))) == lines;
    NonBlankKeepsWords(Lines(text));
    LinesKeepWords(text);
  }

  lemma BlockTextsOfConcat(a: seq<Block>, b: seq<Block>)
    ensures BlockTexts(a + b) == BlockTexts(a) + BlockTexts(b)
  {
  }

  lemma {:induction false} PagesKeepWords(hash: Hash, checksum: string, texts: seq<string>)
    ensures AllWords(BlockTexts(DocumentBlocks(hash, checksum, PdfItems(texts)))) == AllWords(texts)
  {
    if texts == [] {
      assert PdfItems(texts) == [];
      assert BlockTexts([]) == [];
    } else {
      var n := |texts| - 1;
      var items := PdfItems(texts);
      var before := DocumentBlocks(hash, checksum, items[..n]);
      var last := ToBlocks(LayOut(hash, checksum, n + 1, items[n]));
      calc {
        AllWords(BlockTexts(DocumentBlocks(hash, checksum, items)));
      ==
        AllWords(BlockTexts(before + last));
      ==  { BlockTextsOfConcat(before, last); AllWordsOfConcat(BlockTexts(before), BlockTexts(last)); }
        AllWords(BlockTexts(before)) + AllWords(BlockTexts(last));
      ==  { PageKeepsWords(hash, checksum, n + 1, texts[n]); }
        AllWords(BlockTexts(before)) + Split(texts[n]);
      ==  { assert items[..n] == PdfItems(texts[..n]); PagesKeepWords(hash, checksum, texts[..n]); }
        AllWords(texts);
      }
    }
  }

  /** From the chunk list of an indexed PDF, exactly the words of its extracted page texts come back. */
  lemma PdfWordsSurvive(hash: Hash, digest: Digest, checksum: string, texts: seq<string>)
    ensures var pages := ParsedPages(hash, checksum, texts, |texts|);
            Recover(ChunksOf(digest, checksum, Groups(BlocksOf(pages)))) == AllWords(texts)
  {
    ParsedBlocks(hash, checksum, texts, |texts|);
    assert PdfItems(texts)[..|texts|] == PdfItems(texts);
    Lossless(digest, checksum, DocumentBlocks(hash, checksum, PdfItems(texts)));
    PagesKeepWords(hash, checksum, texts);
  }

}
