/** What the printer writes, the reader finds. */
module PdfRoundTrip {
  import opened Prelude
  import opened Decimal
  import opened PdfWriter
  import opened PdfReader

  // ---- finding pieces

  predicate At(file: string, i: nat, text: string) {
    i + |text| <= |file| && file[i..i + |text|] == text
  }

  lemma AtParts(file: string, i: nat, a: string, b: string)
    requires At(file, i, a + b)
    ensures At(file, i, a) && At(file, i + |a|, b)
  {
    var whole := file[i..i + |a + b|];
    assert whole[..|a|] == a && whole[|a|..] == b;
    assert file[i..i + |a|] == whole[..|a|];
    assert file[i + |a|..i + |a| + |b|] == whole[|a|..];
  }

  lemma AtPrefix(file: string, a: string, b: string, c: string)
    requires file == a + b + c
    ensures At(file, |a|, b)
  {
  }

  lemma AtWithin(file: string, a: string, rest: string, i: nat, text: string)
    requires file == a + rest && At(a, i, text)
    ensures At(file, i, text)
  {
  }

  lemma AtInside(file: string, start: nat, body: string, i: nat, text: string)
    requires At(file, start, body) && At(body, i, text)
    ensures At(file, start + i, text)
  {
    var cut := file[start + i..start + i + |text|];
    forall j | 0 <= j < |text| ensures cut[j] == text[j] {
      assert body[i..i + |text|][j] == body[i + j];
      assert file[start..start + |body|][i + j] == file[start + i + j];
    }
  }

  lemma {:induction false} DigitsEndIs(file: string, i: nat, e: nat)
    requires i <= e < |file| && AllDigits(file[i..e]) && !IsDigit(file[e])
    ensures DigitsEnd(file, i) == e
    decreases e - i
  {
    if i < e {
      assert file[i] == file[i..e][0];
      assert file[i..e] == [file[i]] + file[i + 1..e];
      DigitsEndIs(file, i + 1, e);
    }
  }

  lemma DigitsButLast(file: string, s: nat, e: nat)
    requires s < e <= |file| && AllDigits(file[s..e])
    ensures AllDigits(file[s..e - 1]) && IsDigit(file[e - 1])
  {
    assert file[e - 1] == file[s..e][e - 1 - s];
    assert file[s..e][..e - 1 - s] == file[s..e - 1];
  }

  lemma {:induction false} DigitsStartIs(file: string, s: nat, e: nat)
    requires 0 < s <= e <= |file| && AllDigits(file[s..e]) && !IsDigit(file[s - 1])
    ensures DigitsStart(file, e) == s
    decreases e - s
  {
    if s < e {
      DigitsButLast(file, s, e);
      DigitsStartIs(file, s, e - 1);
    }
  }

  lemma NumberAt(file: string, i: nat, n: nat, after: string)
    requires At(file, i, Show(n)) && At(file, i + |Show(n)|, after) && after != "" && !IsDigit(after[0])
    ensures Number(file, i) == Some((n, i + |Show(n)|))
  {
    assert file[i + |Show(n)|..i + |Show(n)| + |after|][0] == after[0];
    DigitsEndIs(file, i, i + |Show(n)|);
    ReadShow(n);
  }

  // ---- bodies and entries

  lemma {:induction false} ObjectsAreInTheBody(objects: seq<string>, k: nat)
    requires k < |objects|
    ensures At(Body(objects), |Body(objects[..k])|, ObjectText(k + 1, objects[k]))
  {
    var n := |objects| - 1;
    if k < n {
      ObjectsAreInTheBody(objects[..n], k);
      assert objects[..n][..k] == objects[..k];
    } else {
      assert Body(objects) == Body(objects[..n]) + ObjectText(n + 1, objects[n]) + "";
    }
  }

  predicate Short(offsets: seq<nat>) {
    forall k :: 0 <= k < |offsets| ==> |Show(offsets[k])| <= 10
  }

  lemma EntryIsTwentyBytes(offset: nat)
    requires |Show(offset)| <= 10
    ensures |Entry(offset)| == 20 && Entry(offset)[..10] == Padded(offset) && Entry(offset)[10..] == " 00000 n \n"
  {
  }

  function Joined(head: string, parts: seq<string>): string {
    if parts == [] then head else Joined(head, parts[..|parts| - 1]) + parts[|parts| - 1]
  }

  /** Parts of twenty characters after a head of twenty stand at the multiples of twenty. */
  lemma {:induction false} PartsStandInRows(head: string, parts: seq<string>)
    requires |head| == 20 && forall k :: 0 <= k < |parts| ==> |parts[k]| == 20
    ensures |Joined(head, parts)| == 20 * (|parts| + 1)
    ensures forall k :: 0 <= k < |parts| ==> At(Joined(head, parts), 20 * (k + 1), parts[k])
  {
    if parts != [] {
      var n := |parts| - 1;
      var before := Joined(head, parts[..n]);
      PartsStandInRows(head, parts[..n]);
      forall k | 0 <= k < |parts| ensures At(before + parts[n], 20 * (k + 1), parts[k]) {
        if k < n {
          assert At(before, 20 * (k + 1), parts[..n][k]);
          AtWithin(before + parts[n], before, parts[n], 20 * (k + 1), parts[k]);
        } else {
          AtEnd(before, parts[n]);
        }
      }
    }
  }

  lemma AtEnd(a: string, b: string)
    ensures At(a + b, |a|, b)
  {
  }

  function EntryTexts(offsets: seq<nat>): seq<string> {
    seq(|offsets|, k requires 0 <= k < |offsets| => Entry(offsets[k]))
  }

  lemma {:induction false} EntriesAreJoined(offsets: seq<nat>)
    ensures Entries(offsets) == Joined(FREE_ENTRY, EntryTexts(offsets))
  {
    if offsets != [] {
      var n := |offsets| - 1;
      EntriesAreJoined(offsets[..n]);
      assert EntryTexts(offsets)[..n] == EntryTexts(offsets[..n]);
    }
  }

  lemma EntriesAreTwentyBytes(offsets: seq<nat>)
    requires Short(offsets)
    ensures |Entries(offsets)| == 20 * (|offsets| + 1)
    ensures forall k :: 0 <= k < |offsets| ==> At(Entries(offsets), 20 * (k + 1), EntryTexts(offsets)[k])
  {
    forall k | 0 <= k < |offsets| ensures |EntryTexts(offsets)[k]| == 20 {
      EntryIsTwentyBytes(offsets[k]);
    }
    EntriesAreJoined(offsets);
    PartsStandInRows(FREE_ENTRY, EntryTexts(offsets));
  }

  lemma ReadPadded(n: nat)
    ensures AllDigits(Padded(n)) && Read(Padded(n)) == n
  {
    ReadShow(n);
    if |Show(n)| < 10 {
      ReadZeros(seq(10 - |Show(n)|, _ => '0'), Show(n));
    }
  }

  // ---- the cross-reference section and the trailer of any file

  /** Where the entries of the printed table begin. */
  function TableOf(body: string, offsets: seq<nat>): Table {
    Table(|offsets| + 1, |body| + |XrefStart(|offsets|)|)
  }

  lemma FourParts(a: string, b: string, c: string, d: string)
    ensures var file := a + b + c + d;
            At(file, 0, a) && At(file, |a|, b) && At(file, |a| + |b|, c) && At(file, |a| + |b| + |c|, d)
  {
    var file := a + b + c + d;
    AtPrefix(file, a + b + c, d, "");
    assert At(file, 0, a + b + c);
    AtParts(file, 0, a + b, c);
    AtParts(file, 0, a, b);
  }

  /** A cross-reference section of n objects at `xref`, and the trailer that closes the file. */
  ghost predicate Closed(file: string, t: Table, n: nat, xref: nat) {
    && t == Table(n + 1, xref + |XrefStart(n)|) && At(file, xref, XrefStart(n))
    && At(file, t.base + 20 * t.size, Trailer(n, xref)) && |file| == t.base + 20 * t.size + |Trailer(n, xref)|
  }

  /** A file with its body, its entries and its end where they belong. */
  ghost predicate Laid(file: string, t: Table, body: string, offsets: seq<nat>) {
    && Short(offsets) && Closed(file, t, |offsets|, |body|)
    && At(file, 0, body) && At(file, t.base, Entries(offsets))
  }

  lemma FileIsLaid(body: string, offsets: seq<nat>)
    requires Short(offsets)
    ensures Laid(File(body, offsets), TableOf(body, offsets), body, offsets)
  {
    EntriesAreTwentyBytes(offsets);
    FourParts(body, XrefStart(|offsets|), Entries(offsets), Trailer(|offsets|, |body|));
  }

  lemma RootSplits()
    ensures TRAILER_ROOT == ROOT_KEY + "1" + " 0 R" + (" >>\n" + STARTXREF)
    ensures Show(1) == "1" && !IsDigit(TRAILER_ROOT[0])
  {
  }

  lemma RootAt(file: string, k: nat)
    requires At(file, k, TRAILER_ROOT)
    ensures Reference(file, k, ROOT_KEY) == Some(1)
    ensures k + |TRAILER_ROOT| >= |STARTXREF| && At(file, k + |TRAILER_ROOT| - |STARTXREF|, STARTXREF)
  {
    RootSplits();
    ReferenceIsRead(file, k, ROOT_KEY, 1, " >>\n" + STARTXREF);
    AtParts(file, k, ROOT_KEY + "1" + " 0 R", " >>\n" + STARTXREF);
    AtParts(file, k + |ROOT_KEY + "1" + " 0 R"|, " >>\n", STARTXREF);
  }

  /** The pieces of the trailer. */
  lemma TrailerSplits(file: string, i: nat, n: nat, xref: nat) returns (j: nat, k: nat, s: nat)
    requires At(file, i, Trailer(n, xref))
    ensures j == i + |TRAILER| && k == j + |Show(n + 1)| && s == k + |TRAILER_ROOT|
    ensures At(file, i, TRAILER) && At(file, j, Show(n + 1)) && At(file, k, TRAILER_ROOT)
    ensures At(file, s, Show(xref)) && At(file, s + |Show(xref)|, EOF)
    ensures |Trailer(n, xref)| == s - i + |Show(xref)| + |EOF|
  {
    AtParts(file, i, TRAILER + Show(n + 1) + TRAILER_ROOT + Show(xref), EOF);
    AtParts(file, i, TRAILER + Show(n + 1) + TRAILER_ROOT, Show(xref));
    AtParts(file, i, TRAILER + Show(n + 1), TRAILER_ROOT);
    AtParts(file, i, TRAILER, Show(n + 1));
    j := i + |TRAILER|;
    k := j + |Show(n + 1)|;
    s := k + |TRAILER_ROOT|;
  }

  lemma DigitsBefore(file: string, s: nat, xref: nat, before: string, after: string)
    requires s >= |before| > 0 && At(file, s - |before|, before) && At(file, s, Show(xref))
             && At(file, s + |Show(xref)|, after)
    requires !IsDigit(before[|before| - 1])
    ensures DigitsStart(file, s + |Show(xref)|) == s && Read(file[s..s + |Show(xref)|]) == xref
  {
    assert file[s - 1] == file[s - |before|..s][|before| - 1];
    DigitsStartIs(file, s, s + |Show(xref)|);
    ReadShow(xref);
  }

  lemma EndIsSeen(file: string, e: nat)
    requires At(file, e, EOF) && |file| == e + |EOF|
    ensures |file| >= |EOF| && file[|file| - |EOF|..] == EOF
  {
    assert file[e..] == file[e..e + |EOF|];
  }

  lemma StartXrefAt(file: string, s: nat, e: nat)
    requires |STARTXREF| <= s < e <= |file| && e == |file| - |EOF| && file[e..] == EOF
    requires DigitsStart(file, e) == s && file[s - |STARTXREF|..s] == STARTXREF
    ensures StartXref(file) == Some(Read(file[s..e]))
  {
  }

  lemma StartXrefFrom(file: string, s: nat, xref: nat)
    requires s >= |STARTXREF| && At(file, s - |STARTXREF|, STARTXREF) && At(file, s, Show(xref))
             && At(file, s + |Show(xref)|, EOF)
    requires |file| == s + |Show(xref)| + |EOF|
    ensures StartXref(file) == Some(xref)
  {
    DigitsBefore(file, s, xref, STARTXREF, EOF);
    EndIsSeen(file, s + |Show(xref)|);
    StartXrefAt(file, s, s + |Show(xref)|);
  }

  lemma StartXrefOfTrailer(file: string, i: nat, n: nat, xref: nat)
    requires At(file, i, Trailer(n, xref)) && |file| == i + |Trailer(n, xref)|
    ensures StartXref(file) == Some(xref)
  {
    var j, k, s := TrailerSplits(file, i, n, xref);
    RootAt(file, k);
    StartXrefFrom(file, s, xref);
  }

  lemma XrefStartSplits(file: string, i: nat, n: nat)
    requires At(file, i, XrefStart(n))
    ensures At(file, i, XREF) && At(file, i + |XREF|, Show(n + 1)) && At(file, i + |XREF| + |Show(n + 1)|, "\n")
    ensures |XrefStart(n)| == |XREF| + |Show(n + 1)| + 1
  {
    AtParts(file, i, XREF + Show(n + 1), "\n");
    AtParts(file, i, XREF, Show(n + 1));
  }

  lemma SizeIsRead(file: string, xref: nat, n: nat)
    requires At(file, xref, XrefStart(n))
    ensures var i := xref + |XREF|;
            var j := i + |Show(n + 1)|;
            && Literal(file, xref, XREF) == Some(i) && Number(file, i) == Some((n + 1, j))
            && Literal(file, j, "\n") == Some(j + 1) && j + 1 == xref + |XrefStart(n)|
  {
    XrefStartSplits(file, xref, n);
    NumberAt(file, xref + |XREF|, n + 1, "\n");
  }

  lemma TableFrom(file: string, xref: nat, n: nat)
    requires StartXref(file) == Some(xref) && At(file, xref, XrefStart(n))
    ensures XrefTable(file) == Some(Table(n + 1, xref + |XrefStart(n)|))
  {
    SizeIsRead(file, xref, n);
    TableParts(file, xref, xref + |XREF|, n + 1, xref + |XREF| + |Show(n + 1)|);
  }

  lemma TableParts(file: string, xref: nat, i: nat, size: nat, j: nat)
    requires StartXref(file) == Some(xref) && Literal(file, xref, XREF) == Some(i)
    requires Number(file, i) == Some((size, j)) && Literal(file, j, "\n") == Some(j + 1)
    ensures XrefTable(file) == Some(Table(size, j + 1))
  {
  }

  lemma TableIsRead(file: string, t: Table, n: nat, xref: nat)
    requires Closed(file, t, n, xref)
    ensures XrefTable(file) == Some(t)
  {
    StartXrefOfTrailer(file, t.base + 20 * t.size, n, xref);
    TableFrom(file, xref, n);
  }

  lemma EntryFrom(file: string, t: Table, n: nat, offset: nat)
    requires n < t.size && At(file, t.base + 20 * n, Entry(offset)) && |Show(offset)| <= 10
    ensures EntryOffset(file, t, n) == Some(offset)
  {
    EntryIsTwentyBytes(offset);
    ReadPadded(offset);
  }

  lemma EntryIsRead(file: string, t: Table, body: string, offsets: seq<nat>, k: nat)
    requires Laid(file, t, body, offsets) && k < |offsets|
    ensures EntryOffset(file, t, k + 1) == Some(offsets[k])
  {
    EntriesAreTwentyBytes(offsets);
    assert EntryTexts(offsets)[k] == Entry(offsets[k]);
    AtInside(file, t.base, Entries(offsets), 20 * (k + 1), Entry(offsets[k]));
    EntryFrom(file, t, k + 1, offsets[k]);
  }

  lemma ReferenceParts(file: string, i: nat, key: string, j: nat, n: nat, k: nat)
    requires Literal(file, i, key) == Some(j) && Number(file, j) == Some((n, k)) && Literal(file, k, " 0 R").Some?
    ensures Reference(file, i, key) == Some(n)
  {
  }

  lemma ReferenceSplits(file: string, i: nat, key: string, digits: string, end: string, rest: string)
    requires At(file, i, key + digits + end + rest)
    ensures At(file, i, key) && At(file, i + |key|, digits) && At(file, i + |key| + |digits|, end)
  {
    AtParts(file, i, key + digits + end, rest);
    AtParts(file, i, key + digits, end);
    AtParts(file, i, key, digits);
  }

  lemma LiteralAt(file: string, i: nat, text: string)
    requires At(file, i, text)
    ensures Literal(file, i, text) == Some(i + |text|)
  {
  }

  lemma ReferenceFrom(file: string, i: nat, key: string, n: nat, j: nat, k: nat)
    requires At(file, i, key) && j == i + |key| && At(file, j, Show(n)) && k == j + |Show(n)| && At(file, k, " 0 R")
    ensures Reference(file, i, key) == Some(n)
  {
    LiteralAt(file, i, key);
    NumberAt(file, j, n, " 0 R");
    LiteralAt(file, k, " 0 R");
    ReferenceParts(file, i, key, j, n, k);
  }

  lemma ReferenceIsRead(file: string, i: nat, key: string, n: nat, rest: string)
    requires At(file, i, key + Show(n) + " 0 R" + rest)
    ensures Reference(file, i, key) == Some(n)
  {
    ReferenceSplits(file, i, key, Show(n), " 0 R", rest);
    ReferenceFrom(file, i, key, n, i + |key|, i + |key| + |Show(n)|);
  }

  lemma RootParts(file: string, t: Table, i: nat, size: nat, j: nat, root: nat)
    requires Literal(file, t.base + 20 * t.size, TRAILER) == Some(i) && Number(file, i) == Some((size, j))
    requires Reference(file, j, ROOT_KEY) == Some(root)
    ensures Root(file, t) == Some(root)
  {
  }

  lemma RootOfTrailer(file: string, t: Table, n: nat, xref: nat)
    requires At(file, t.base + 20 * t.size, Trailer(n, xref))
    ensures Root(file, t) == Some(1)
  {
    var j, k, s := TrailerSplits(file, t.base + 20 * t.size, n, xref);
    TrailerNumber(file, j, n, k);
    RootAt(file, k);
    RootParts(file, t, j, n + 1, k, 1);
  }

  lemma TrailerNumber(file: string, j: nat, n: nat, k: nat)
    requires At(file, j, Show(n + 1)) && k == j + |Show(n + 1)| && At(file, k, TRAILER_ROOT)
    ensures Number(file, j) == Some((n + 1, k))
  {
    RootSplits();
    NumberAt(file, j, n + 1, TRAILER_ROOT);
  }

  // ---- objects

  lemma ObjectFrom(file: string, t: Table, n: nat, offset: nat, item: string) returns (at: nat)
    requires EntryOffset(file, t, n) == Some(offset) && At(file, offset, ObjectText(n, item))
    ensures ObjectAt(file, t, n) == Some(at) && At(file, at, item)
  {
    at := HeadIsRead(file, offset, n, item);
  }

  lemma OffsetOf(objects: seq<string>, k: nat)
    requires k < |objects|
    ensures Offsets(objects)[k] == |Body(objects[..k])|
  {
  }

  lemma ObjectIsAt(file: string, objects: seq<string>, k: nat, offset: nat)
    requires At(file, 0, Body(objects)) && k < |objects| && offset == |Body(objects[..k])|
    ensures At(file, offset, ObjectText(k + 1, objects[k]))
  {
    ObjectsAreInTheBody(objects, k);
    AtInside(file, 0, Body(objects), offset, ObjectText(k + 1, objects[k]));
  }

  /** For every list of objects with offsets of at most ten digits, the table leads to each object's text. */
  lemma ObjectIsFound(file: string, t: Table, objects: seq<string>, k: nat) returns (at: nat)
    requires Laid(file, t, Body(objects), Offsets(objects)) && k < |objects|
    ensures ObjectAt(file, t, k + 1) == Some(at) && At(file, at, objects[k])
  {
    EntryIsRead(file, t, Body(objects), Offsets(objects), k);
    OffsetOf(objects, k);
    ObjectIsAt(file, objects, k, Offsets(objects)[k]);
    at := ObjectFrom(file, t, k + 1, Offsets(objects)[k], objects[k]);
  }

  lemma HeadIsRead(file: string, i: nat, n: nat, item: string) returns (at: nat)
    requires At(file, i, ObjectText(n, item))
    ensures Number(file, i) == Some((n, i + |Show(n)|)) && Literal(file, i + |Show(n)|, " 0 obj\n") == Some(at)
    ensures At(file, at, item)
  {
    AtParts(file, i, Show(n) + " 0 obj\n" + item, "\nendobj\n");
    AtParts(file, i, Show(n) + " 0 obj\n", item);
    AtParts(file, i, Show(n), " 0 obj\n");
    NumberAt(file, i, n, " 0 obj\n");
    at := i + |Show(n)| + |" 0 obj\n"|;
  }

  lemma StreamSplits(file: string, i: nat, open: string, digits: string, middle: string, stream: string, close: string)
    requires At(file, i, open + digits + middle + stream + close)
    ensures At(file, i, open) && At(file, i + |open|, digits) && At(file, i + |open| + |digits|, middle)
    ensures At(file, i + |open| + |digits| + |middle|, stream)
            && At(file, i + |open| + |digits| + |middle| + |stream|, close)
  {
    AtParts(file, i, open + digits + middle + stream, close);
    AtParts(file, i, open + digits + middle, stream);
    AtParts(file, i, open + digits, middle);
    AtParts(file, i, open, digits);
  }

  lemma StreamParts(file: string, i: nat, j: nat, n: nat, k: nat, l: nat)
    requires Literal(file, i, LENGTH) == Some(j) && Number(file, j) == Some((n, k))
             && Literal(file, k, STREAM) == Some(l)
    requires Literal(file, l + n, "endstream").Some?
    ensures StreamAt(file, i) == Some(file[l..l + n])
  {
  }

  /** Where the reader of a stream dictionary finds its parts. */
  predicate PartsRead(file: string, i: nat, open: string, n: nat, middle: string, stream: string, close: string) {
    var j := i + |open|;
    var k := j + |Show(n)|;
    var l := k + |middle|;
    && Literal(file, i, open) == Some(j) && Number(file, j) == Some((n, k))
    && Literal(file, k, middle) == Some(l) && At(file, l, stream) && Literal(file, l + |stream|, close).Some?
  }

  lemma KeysAreRead(file: string, i: nat, open: string, n: nat, middle: string, stream: string, close: string,
      j: nat, k: nat, l: nat)
    requires middle != "" && !IsDigit(middle[0])
    requires At(file, i, open) && j == i + |open| && At(file, j, Show(n)) && k == j + |Show(n)|
    requires At(file, k, middle) && l == k + |middle| && At(file, l, stream) && At(file, l + |stream|, close)
    ensures PartsRead(file, i, open, n, middle, stream, close)
  {
    LiteralAt(file, i, open);
    NumberAt(file, j, n, middle);
    LiteralAt(file, k, middle);
    LiteralAt(file, l + |stream|, close);
  }

  lemma PartsAreRead(file: string, i: nat, open: string, n: nat, middle: string, stream: string, close: string)
    requires middle != "" && !IsDigit(middle[0]) && At(file, i, open + Show(n) + middle + stream + close)
    ensures PartsRead(file, i, open, n, middle, stream, close)
  {
    StreamSplits(file, i, open, Show(n), middle, stream, close);
    var j := i + |open|;
    var k := j + |Show(n)|;
    KeysAreRead(file, i, open, n, middle, stream, close, j, k, k + |middle|);
  }

  lemma PartsGiveStream(file: string, i: nat, stream: string)
    requires PartsRead(file, i, LENGTH, |stream|, STREAM, stream, "endstream")
    ensures StreamAt(file, i) == Some(stream)
  {
    var j := i + |LENGTH|;
    var k := j + |Show(|stream|)|;
    StreamParts(file, i, j, |stream|, k, k + |STREAM|);
  }

  lemma StreamIsRead(file: string, i: nat, stream: string)
    requires At(file, i, StreamObject(stream))
    ensures StreamAt(file, i) == Some(stream)
  {
    PartsAreRead(file, i, LENGTH, |stream|, STREAM, stream, "endstream");
    PartsGiveStream(file, i, stream);
  }

  lemma {:induction false} ShowLength(n: nat, bound: nat, digits: nat)
    requires 0 < digits && n < bound && bound == Power(digits)
    ensures |Show(n)| <= digits
  {
    if digits > 1 && n >= 10 {
      ShowLength(n / 10, bound / 10, digits - 1);
    }
  }

  function Power(digits: nat): nat {
    if digits == 0 then 1 else 10 * Power(digits - 1)
  }

  lemma BodyGrows(objects: seq<string>, k: nat)
    requires k < |objects|
    ensures |Body(objects[..k + 1])| == |Body(objects[..k])| + |Show(k + 1)| + |objects[k]| + 15
  {
    assert objects[..k + 1][..k] == objects[..k];
  }

  lemma OneDigit(n: nat)
    requires n < 10
    ensures |Show(n)| == 1
  {
  }

  lemma BodyLengths(objects: seq<string>)
    requires |objects| > 4
    ensures |Body(objects[..0])| == 15
    ensures |Body(objects[..1])| == 31 + |objects[0]|
    ensures |Body(objects[..2])| == 47 + |objects[0]| + |objects[1]|
    ensures |Body(objects[..3])| == 63 + |objects[0]| + |objects[1]| + |objects[2]|
    ensures |Body(objects[..4])| == 79 + |objects[0]| + |objects[1]| + |objects[2]| + |objects[3]|
  {
    BodyGrows(objects, 0);
    BodyGrows(objects, 1);
    BodyGrows(objects, 2);
    BodyGrows(objects, 3);
    OneDigit(1);
    OneDigit(2);
    OneDigit(3);
    OneDigit(4);
  }

  lemma ThreeDigits(n: nat)
    requires n < 1000
    ensures |Show(n)| <= 10
  {
    ShowLength(n, 1000, 3);
  }

  /** The stream is the last object, so no offset depends on it. */
  lemma OffsetsAreShort(stream: string)
    ensures Short(Offsets(Objects(stream)))
  {
    var objects := Objects(stream);
    BodyLengths(objects);
    ObjectLengths();
    forall k | 0 <= k < 5 ensures |Show(|Body(objects[..k])|)| <= 10 {
      ThreeDigits(|Body(objects[..k])|);
    }
  }

  lemma ObjectLengths()
    ensures |CATALOG| == 33 && |PAGES| == 41 && |PAGE| == 110 && |FONT| == 54
  {
  }

  lemma ObjectReferences()
    ensures CATALOG == CATALOG_KEYS + Show(2) + " 0 R" + " >>"
    ensures PAGES == PAGES_KEYS + Show(3) + " 0 R" + "] /Count 1 >>"
    ensures PAGE == PAGE_KEYS + Show(5) + " 0 R" + " >>"
  {
  }

  lemma PageParts(file: string, t: Table, catalog: nat, pages: nat, page: nat, at: nat, stream: string)
    requires XrefTable(file) == Some(t) && Root(file, t) == Some(1)
    requires ObjectAt(file, t, 1) == Some(catalog) && Reference(file, catalog, CATALOG_KEYS) == Some(2)
    requires ObjectAt(file, t, 2) == Some(pages) && Reference(file, pages, PAGES_KEYS) == Some(3)
    requires ObjectAt(file, t, 3) == Some(page) && Reference(file, page, PAGE_KEYS) == Some(5)
    requires ObjectAt(file, t, 5) == Some(at) && StreamAt(file, at) == Some(stream)
    ensures PageStream(file) == Some(stream)
  {
  }

  lemma CatalogIsRead(file: string, t: Table, objects: seq<string>) returns (at: nat)
    requires Laid(file, t, Body(objects), Offsets(objects)) && |objects| > 0 && objects[0] == CATALOG
    ensures ObjectAt(file, t, 1) == Some(at) && Reference(file, at, CATALOG_KEYS) == Some(2)
  {
    at := ObjectIsFound(file, t, objects, 0);
    ObjectReferences();
    ReferenceIsRead(file, at, CATALOG_KEYS, 2, " >>");
  }

  lemma PagesAreRead(file: string, t: Table, objects: seq<string>) returns (at: nat)
    requires Laid(file, t, Body(objects), Offsets(objects)) && |objects| > 1 && objects[1] == PAGES
    ensures ObjectAt(file, t, 2) == Some(at) && Reference(file, at, PAGES_KEYS) == Some(3)
  {
    at := ObjectIsFound(file, t, objects, 1);
    ObjectReferences();
    ReferenceIsRead(file, at, PAGES_KEYS, 3, "] /Count 1 >>");
  }

  lemma PageIsRead(file: string, t: Table, objects: seq<string>) returns (at: nat)
    requires Laid(file, t, Body(objects), Offsets(objects)) && |objects| > 2 && objects[2] == PAGE
    ensures ObjectAt(file, t, 3) == Some(at) && Reference(file, at, PAGE_KEYS) == Some(5)
  {
    at := ObjectIsFound(file, t, objects, 2);
    ObjectReferences();
    ReferenceIsRead(file, at, PAGE_KEYS, 5, " >>");
  }

  lemma ContentsAreRead(file: string, t: Table, objects: seq<string>, stream: string) returns (at: nat)
    requires Laid(file, t, Body(objects), Offsets(objects)) && |objects| > 4 && objects[4] == StreamObject(stream)
    ensures ObjectAt(file, t, 5) == Some(at) && StreamAt(file, at) == Some(stream)
  {
    at := ObjectIsFound(file, t, objects, 4);
    StreamIsRead(file, at, stream);
  }

  lemma StreamIsFound(file: string, t: Table, stream: string, objects: seq<string>)
    requires Laid(file, t, Body(objects), Offsets(objects)) && objects == Objects(stream)
    ensures PageStream(file) == Some(stream)
  {
    TableIsRead(file, t, |Offsets(objects)|, |Body(objects)|);
    RootOfTrailer(file, t, |Offsets(objects)|, |Body(objects)|);
    var catalog := CatalogIsRead(file, t, objects);
    var pages := PagesAreRead(file, t, objects);
    var page := PageIsRead(file, t, objects);
    var at := ContentsAreRead(file, t, objects, stream);
    PageParts(file, t, catalog, pages, page, at, stream);
  }

  /** Whatever the stream holds, following the file's own table and references leads back to exactly it. */
  lemma StreamReadsBack(stream: string)
    ensures PageStream(Printed(Objects(stream))) == Some(stream)
  {
    var body, offsets := Body(Objects(stream)), Offsets(Objects(stream));
    OffsetsAreShort(stream);
    FileIsLaid(body, offsets);
    StreamIsFound(File(body, offsets), TableOf(body, offsets), stream, Objects(stream));
  }

  // ---- the shown strings

  /** What a reader makes of a line: a carriage return, with or without a line feed, is one line feed. */
  function Normalized(line: string): string {
    if line == "" then ""
    else if line[0] == '\r' then "\n" + Normalized(if |line| > 1 && line[1] == '\n' then line[2..] else line[1..])
    else [line[0]] + Normalized(line[1..])
  }

  lemma {:induction false} NormalizedIsTheLine(line: string)
    ensures '\r' !in Normalized(line)
    ensures Normalized(line) == line <==> '\r' !in line
  {
    if line != "" {
      assert line == [line[0]] + line[1..];
      if line[0] == '\r' {
        NormalizedIsTheLine(if |line| > 1 && line[1] == '\n' then line[2..] else line[1..]);
      } else {
        NormalizedIsTheLine(line[1..]);
        assert Normalized(line)[1..] == Normalized(line[1..]);
      }
    }
  }

  lemma SpecialCharReadsBack(c: char, tail: string)
    requires c in {'\\', '(', ')'}
    ensures ReadLiteral(EscapeChar(c) + tail, 0) == Before(c, ReadLiteral(tail, 0))
  {
    assert (EscapeChar(c) + tail)[2..] == tail;
  }

  lemma PlainCharReadsBack(c: char, tail: string)
    requires c !in {'\\', '(', ')', '\r'}
    ensures ReadLiteral(EscapeChar(c) + tail, 0) == Before(c, ReadLiteral(tail, 0))
  {
    assert (EscapeChar(c) + tail)[1..] == tail;
  }

  lemma ReturnReadsBack(tail: string)
    ensures ReadLiteral("\r" + tail, 0)
      == Before('\n', ReadLiteral(if tail != "" && tail[0] == '\n' then tail[1..] else tail, 0))
  {
    assert ("\r" + tail)[1..] == tail;
    assert tail != "" ==> ("\r" + tail)[2..] == tail[1..];
  }

  function Escaped(line: string, rest: string): string {
    Escape(line) + ")" + rest
  }

  lemma EscapedStep(line: string, rest: string)
    requires line != ""
    ensures Escaped(line, rest) == EscapeChar(line[0]) + Escaped(line[1..], rest)
  {
  }

  /** Unescaping undoes escaping, up to line ends. */
  lemma {:induction false} LiteralReadsBack(line: string, rest: string)
    ensures ReadLiteral(Escaped(line, rest), 0) == Some(Decoded(Normalized(line), rest))
  {
    if line == "" {
      assert Escaped(line, rest)[1..] == rest;
    } else {
      EscapedStep(line, rest);
      var tail := Escaped(line[1..], rest);
      if line[0] == '\r' {
        ReturnReadsBack(tail);
        if |line| > 1 {
          EscapedStep(line[1..], rest);
        }
        if |line| > 1 && line[1] == '\n' {
          assert line[1..][1..] == line[2..];
          assert tail[1..] == Escaped(line[2..], rest);
          LiteralReadsBack(line[2..], rest);
        } else {
          LiteralReadsBack(line[1..], rest);
        }
      } else {
        LiteralReadsBack(line[1..], rest);
        if line[0] in {'\\', '(', ')'} {
          SpecialCharReadsBack(line[0], tail);
        } else {
          PlainCharReadsBack(line[0], tail);
        }
      }
    }
  }

  lemma {:induction false} ShownSkips(a: string, b: string)
    requires '(' !in a
    ensures Shown(a + b) == Shown(b)
  {
    if a == "" {
      assert a + b == b;
    } else {
      assert (a + b)[1..] == a[1..] + b;
      ShownSkips(a[1..], b);
    }
  }

  lemma ShownLiteral(line: string, after: string)
    requires |after| >= 3 && after[..3] == " Tj"
    ensures Shown("(" + Escaped(line, after)) == [Normalized(line)] + Shown(after)
  {
    LiteralReadsBack(line, after);
    assert ("(" + Escaped(line, after))[1..] == Escaped(line, after);
  }

  lemma ShowLineParts(line: string, tail: string)
    ensures ShowLine(line) + tail == "(" + Escaped(line, " Tj\n" + tail)
  {
  }

  lemma AfterLiteral(tail: string)
    ensures (" Tj\n" + tail)[..3] == " Tj" && Shown(" Tj\n" + tail) == Shown(tail)
  {
    ShownSkips(" Tj\n", tail);
  }

  lemma ShownLine(n: nat, line: string, tail: string)
    ensures Shown(MoreShown(n, line) + tail) == [Normalized(line)] + Shown(tail)
  {
    var move := if n > 0 then NEXT_LINE else "";
    AppendIsAssociative(move, ShowLine(line), tail);
    ShownSkips(move, ShowLine(line) + tail);
    ShowLineParts(line, tail);
    AfterLiteral(tail);
    ShownLiteral(line, " Tj\n" + tail);
  }

  function NormalizedLines(lines: seq<string>): seq<string> {
    seq(|lines|, i requires 0 <= i < |lines| => Normalized(lines[i]))
  }

  lemma NormalizedOneMore(lines: seq<string>)
    requires lines != []
    ensures NormalizedLines(lines) == NormalizedLines(lines[..|lines| - 1]) + [Normalized(lines[|lines| - 1])]
  {
  }

  lemma {:induction false} ShownLines(lines: seq<string>, tail: string)
    ensures Shown(Shows(lines) + tail) == NormalizedLines(lines) + Shown(tail)
  {
    if lines == [] {
      assert "" + tail == tail;
    } else {
      var n := |lines| - 1;
      var init, last := lines[..n], lines[n];
      var more := MoreShown(n, last);
      calc {
        Shown(Shows(lines) + tail);
      ==  { AppendIsAssociative(Shows(init), more, tail); }
        Shown(Shows(init) + (more + tail));
      ==  { ShownLines(init, more + tail); }
        NormalizedLines(init) + Shown(more + tail);
      ==  { ShownLine(n, last, tail); }
        NormalizedLines(init) + ([Normalized(last)] + Shown(tail));
      ==  { AppendIsAssociative(NormalizedLines(init), [Normalized(last)], Shown(tail)); NormalizedOneMore(lines); }
        NormalizedLines(lines) + Shown(tail);
      }
    }
  }

  lemma StreamShowsTheLines(lines: seq<string>)
    ensures Shown(Stream(lines)) == NormalizedLines(lines)
  {
    assert Stream(lines) == PRELUDE + (Shows(lines) + "ET\n");
    ShownSkips(PRELUDE, Shows(lines) + "ET\n");
    ShownLines(lines, "ET\n");
    ShownSkips("ET\n", "");
    assert "ET\n" + "" == "ET\n";
  }

  lemma NormalizedLinesAreTheLines(lines: seq<string>)
    ensures NormalizedLines(lines) == lines <==> forall i :: 0 <= i < |lines| ==> '\r' !in lines[i]
  {
    forall i | 0 <= i < |lines| ensures NormalizedLines(lines)[i] == lines[i] <==> '\r' !in lines[i] {
      NormalizedIsTheLine(lines[i]);
    }
  }

  /** The printed PDF reads back: for every list of lines the reader finds one string per line, in order,
      and they are the original lines exactly when no line holds a carriage return. */
  lemma PdfReadsBack(lines: seq<string>)
    ensures ReadLines(Printed(Objects(Stream(lines)))) == Some(NormalizedLines(lines))
    ensures NormalizedLines(lines) == lines <==> forall i :: 0 <= i < |lines| ==> '\r' !in lines[i]
  {
    StreamReadsBack(Stream(lines));
    StreamShowsTheLines(lines);
    NormalizedLinesAreTheLines(lines);
  }

}
