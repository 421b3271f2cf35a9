/** The sentence splitter of the grounding check. */
module SentenceSplitter {
  import opened Prelude
  import opened Text

  datatype Span = Span(lo: nat, hi: nat)

  /** Punctuation that ends a sentence: the text stops, or white space follows. */
  predicate Boundary(s: string, i: nat)
    requires i < |s|
  {
    s[i] in {'.', '!', '?'} && (i + 1 == |s| || IsSpace(s[i + 1]))
  }

  predicate Ends(s: string, i: nat)
    requires i < |s|
  {
    s[i] in {'\r', '\n'} || Boundary(s, i)
  }

  /** Where a piece ends: after its punctuation, before a line end. */
  function PieceEnd(s: string, i: nat): nat
    requires i < |s|
  {
    if Boundary(s, i) then i + 1 else i
  }

  /** The pieces of a text from `start`, with everything before i known to hold no end. */
  function Pieces(s: string, start: nat, i: nat): seq<Span>
    requires start <= i <= |s|
    decreases |s| - i
  {
    if i == |s| then [Span(start, i)]
    else if Ends(s, i) then [Span(start, PieceEnd(s, i))] + Pieces(s, i + 1, i + 1)
    else Pieces(s, start, i + 1)
  }

  predicate Within(s: string, spans: seq<Span>) {
    forall k :: 0 <= k < |spans| ==> spans[k].lo <= spans[k].hi <= |s|
  }

  /** The trimmed, non-empty pieces. */
  function Trimmed(s: string, spans: seq<Span>): seq<string>
    requires Within(s, spans)
  {
    if spans == [] then []
    else
      var text := Strip(s[spans[0].lo..spans[0].hi]);
      Kept(text) + Trimmed(s, spans[1..])
  }

  lemma {:induction false} PiecesAreWithin(s: string, start: nat, i: nat)
    requires start <= i <= |s|
    ensures Within(s, Pieces(s, start, i))
    decreases |s| - i
  {
    if i < |s| {
      if Ends(s, i) {
        PiecesAreWithin(s, i + 1, i + 1);
      } else {
        PiecesAreWithin(s, start, i + 1);
      }
    }
  }

  /** The sentences still to come when the current piece began at `start`. */
  function Remaining(s: string, start: nat, i: nat): seq<string>
    requires start <= i <= |s|
  {
    PiecesAreWithin(s, start, i);
    Trimmed(s, Pieces(s, start, i))
  }

  function Sentences(s: string): seq<string> {
    Remaining(s, 0, 0)
  }

  function Kept(text: string): seq<string> {
    if text == "" then [] else [text]
  }

  lemma RemainingAtEnd(s: string, start: nat)
    requires start <= |s|
    ensures Remaining(s, start, |s|) == Kept(Strip(s[start..|s|]))
  {
    var pieces := [Span(start, |s|)];
    assert pieces[1..] == [];
    assert Trimmed(s, pieces) == Kept(Strip(s[start..|s|])) + Trimmed(s, pieces[1..]);
  }

  lemma RemainingStep(s: string, start: nat, i: nat)
    requires start <= i <= |s|
    ensures Remaining(s, start, i) ==
      if i == |s| then Kept(Strip(s[start..i]))
      else if Ends(s, i) then Kept(Strip(s[start..PieceEnd(s, i)])) + Remaining(s, i + 1, i + 1)
      else Remaining(s, start, i + 1)
  {
    PiecesAreWithin(s, start, i);
    var pieces := Pieces(s, start, i);
    if i == |s| {
      RemainingAtEnd(s, start);
    } else if Ends(s, i) {
      assert pieces[1..] == Pieces(s, i + 1, i + 1);
    } else {
      assert pieces == Pieces(s, start, i + 1);
    }
  }

  /** `_sentences`. */
  method SplitSentences(value: string) returns (sentences: seq<string>)
    ensures sentences == Sentences(value)
  {
    sentences := [];
    var start := 0;
    for index := 0 to |value|
      invariant 0 <= start <= index
      invariant sentences + Remaining(value, start, index) == Sentences(value)
    {
      RemainingStep(value, start, index);
      var punctuationBoundary := value[index] in {'.', '!', '?'} && (index + 1 == |value| || IsSpace(value[index + 1]));
      if value[index] in {'\r', '\n'} || punctuationBoundary {
        var end := if punctuationBoundary then index + 1 else index;
        var sentence := Strip(value[start..end]);
        KeptThenRest(sentences, sentence, Remaining(value, index + 1, index + 1));
        if sentence != "" {
          sentences := sentences + [sentence];
        }
        start := index + 1;
      }
    }
    RemainingStep(value, start, |value|);
    var sentence := Strip(value[start..]);
    assert value[start..] == value[start..|value|];
    if sentence != "" {
      sentences := sentences + [sentence];
    }
  }

  lemma KeptThenRest(before: seq<string>, sentence: string, rest: seq<string>)
    ensures before + (Kept(sentence) + rest) == (if sentence != "" then before + [sentence] else before) + rest
  {
  }

  // ---- where the text is cut

  /** A line end, or a full stop, exclamation or question mark with nothing or white space after it. */
  ghost predicate CutAt(s: string, i: nat)
    requires i < |s|
  {
    || s[i] == '\r' || s[i] == '\n'
    || ((s[i] == '.' || s[i] == '!' || s[i] == '?') && (i + 1 == |s| || IsSpace(s[i + 1])))
  }

  /** Piece k begins after the previous cut and runs up to the next one, the mark included and the line end
      excluded; the last one runs to the end of the text. */
  ghost predicate CutOut(s: string, pieces: seq<Span>, k: nat)
    requires k < |pieces|
  {
    var lo, hi := pieces[k].lo, pieces[k].hi;
    && lo <= hi <= |s|
    && (k + 1 == |pieces| ==> hi == |s| && forall i :: lo <= i < |s| ==> !CutAt(s, i))
    && (k + 1 < |pieces| ==>
          var end := pieces[k + 1].lo - 1;
          && lo <= end < |s| && CutAt(s, end) && (forall i :: lo <= i < end ==> !CutAt(s, i))
          && hi == if s[end] == '\r' || s[end] == '\n' then end else end + 1)
  }

  /** The pieces are cut at every end of a sentence and nowhere else. */
  lemma {:induction false} PiecesAreCutOut(s: string, start: nat, i: nat)
    requires start <= i <= |s| && forall j :: start <= j < i ==> !CutAt(s, j)
    ensures var pieces := Pieces(s, start, i);
            pieces != [] && pieces[0].lo == start && forall k :: 0 <= k < |pieces| ==> CutOut(s, pieces, k)
    decreases |s| - i
  {
    if i < |s| {
      if Ends(s, i) {
        assert CutAt(s, i);
        PiecesAreCutOut(s, i + 1, i + 1);
        var rest := Pieces(s, i + 1, i + 1);
        var pieces := [Span(start, PieceEnd(s, i))] + rest;
        forall k | 0 <= k < |pieces| ensures CutOut(s, pieces, k) {
          if k > 0 {
            assert CutOut(s, rest, k - 1);
          }
        }
      } else {
        PiecesAreCutOut(s, start, i + 1);
      }
    }
  }

  lemma {:induction false} TrimmedConcat(s: string, a: seq<Span>, b: seq<Span>)
    requires Within(s, a) && Within(s, b)
    ensures Within(s, a + b) && Trimmed(s, a + b) == Trimmed(s, a) + Trimmed(s, b)
  {
    if a == [] {
      assert a + b == b;
    } else {
      var all, kept := a + b, Kept(Strip(s[a[0].lo..a[0].hi]));
      calc {
        Trimmed(s, all);
      ==  { assert all[0] == a[0]; }
        kept + Trimmed(s, all[1..]);
      ==  { assert all[1..] == a[1..] + b; TrimmedConcat(s, a[1..], b); }
        kept + (Trimmed(s, a[1..]) + Trimmed(s, b));
      ==  { AppendIsAssociative(kept, Trimmed(s, a[1..]), Trimmed(s, b)); }
        Trimmed(s, a) + Trimmed(s, b);
      }
    }
  }

  /** Pieces are stripped one by one, and the blank ones dropped. */
  lemma TrimmedIs(s: string, before: seq<Span>, piece: Span)
    requires Within(s, before) && piece.lo <= piece.hi <= |s|
    ensures Trimmed(s, []) == [] && Within(s, before + [piece])
    ensures var text := Strip(s[piece.lo..piece.hi]);
            Trimmed(s, before + [piece]) == Trimmed(s, before) + if text == "" then [] else [text]
  {
    TrimmedConcat(s, before, [piece]);
    assert [piece][1..] == [];
  }

  /** The sentences are the pieces between the cuts, stripped. */
  lemma SentencesAreThePieces(s: string) returns (pieces: seq<Span>)
    ensures pieces != [] && pieces[0].lo == 0 && Within(s, pieces)
    ensures forall k :: 0 <= k < |pieces| ==> CutOut(s, pieces, k)
    ensures Sentences(s) == Trimmed(s, pieces)
  {
    pieces := Pieces(s, 0, 0);
    PiecesAreWithin(s, 0, 0);
    PiecesAreCutOut(s, 0, 0);
  }

  // ---- no word is lost or broken

  /** Words are not broken where a text is cut before white space, or at its end. */
  lemma SplitBeforeSpace(a: string, b: string)
    requires b == "" || IsSpace(b[0])
    ensures Split(a + b) == Split(a) + Split(b)
  {
    if b == "" {
      assert a + b == a;
    } else {
      SplitAtSpace(a, b[0], b[1..]);
      assert a + [b[0]] + b[1..] == a + b;
    }
  }

  lemma {:induction false} PiecesKeepWords(s: string, start: nat, i: nat)
    requires start <= i <= |s|
    ensures AllWords(Remaining(s, start, i)) == Split(s[start..])
    decreases |s| - i
  {
    RemainingStep(s, start, i);
    if i == |s| {
      assert s[start..] == s[start..i];
      KeptWords(s[start..i], []);
      assert Kept(Strip(s[start..i])) + [] == Kept(Strip(s[start..i]));
    } else if Ends(s, i) {
      PiecesKeepWords(s, i + 1, i + 1);
      KeptWords(s[start..PieceEnd(s, i)], Remaining(s, i + 1, i + 1));
      CutKeepsWords(s, start, i);
    } else {
      PiecesKeepWords(s, start, i + 1);
    }
  }

  lemma KeptWords(piece: string, rest: seq<string>)
    ensures AllWords(Kept(Strip(piece)) + rest) == Split(piece) + AllWords(rest)
  {
    SplitStrip(piece);
    if Strip(piece) == "" {
      assert [] + rest == rest;
    } else {
      AllWordsOfFirst([Strip(piece)] + rest);
    }
  }

  lemma CutKeepsWords(s: string, start: nat, i: nat)
    requires start <= i < |s| && Ends(s, i)
    ensures Split(s[start..]) == Split(s[start..PieceEnd(s, i)]) + Split(s[i + 1..])
  {
    if Boundary(s, i) {
      SplitBeforeSpace(s[start..i + 1], s[i + 1..]);
      assert s[start..i + 1] + s[i + 1..] == s[start..];
    } else {
      SplitAtSpace(s[start..i], s[i], s[i + 1..]);
      assert s[start..i] + [s[i]] + s[i + 1..] == s[start..];
    }
  }

  /** The sentences of a text hold exactly its words, in order: nothing but white space is lost, and no word
      is broken between two sentences. */
  lemma SentencesKeepWords(s: string)
    ensures AllWords(Sentences(s)) == Split(s)
  {
    PiecesKeepWords(s, 0, 0);
    assert s[0..] == s;
  }

  // ---- sentences are slices in order

  predicate Trim(t: string) {
    t != "" && !IsSpace(t[0]) && !IsSpace(t[|t| - 1])
  }

  lemma {:induction false} StripLeftIsASlice(s: string) returns (lo: nat)
    ensures lo <= |s| && StripLeft(s) == s[lo..]
  {
    lo := 0;
    if s != "" && IsSpace(s[0]) {
      var k := StripLeftIsASlice(s[1..]);
      lo := k + 1;
    }
  }

  lemma {:induction false} StripRightIsASlice(s: string) returns (hi: nat)
    ensures hi <= |s| && StripRight(s) == s[..hi]
  {
    hi := |s|;
    if s != "" && IsSpace(s[|s| - 1]) {
      hi := StripRightIsASlice(s[..|s| - 1]);
    }
  }

  /** Stripping cuts a slice out, with no white space at either end. */
  lemma StripIsATrimmedSlice(s: string) returns (lo: nat, hi: nat)
    ensures lo <= hi <= |s| && Strip(s) == s[lo..hi] && (Strip(s) == "" || Trim(Strip(s)))
  {
    lo := StripLeftIsASlice(s);
    var k := StripRightIsASlice(StripLeft(s));
    hi := lo + k;
    StripLeftStart(s);
    StripRightStart(StripLeft(s));
    assert s[lo..][..k] == s[lo..hi];
  }

  ghost predicate SlicesInOrder(s: string, spans: seq<Span>, texts: seq<string>) {
    && |spans| == |texts| && Within(s, spans)
    && (forall k :: 0 <= k < |spans| ==> s[spans[k].lo..spans[k].hi] == texts[k] && Trim(texts[k]))
    && (forall j, k :: 0 <= j < k < |spans| ==> spans[j].hi <= spans[k].lo)
  }

  lemma {:induction false} PiecesFollow(s: string, start: nat, i: nat)
    requires start <= i <= |s|
    ensures forall k :: 0 <= k < |Pieces(s, start, i)| ==>
            start <= Pieces(s, start, i)[k].lo <= Pieces(s, start, i)[k].hi <= |s|
    ensures forall j, k :: 0 <= j < k < |Pieces(s, start, i)| ==> Pieces(s, start, i)[j].hi <= Pieces(s, start, i)[k].lo
    decreases |s| - i
  {
    if i < |s| {
      if Ends(s, i) {
        PiecesFollow(s, i + 1, i + 1);
      } else {
        PiecesFollow(s, start, i + 1);
      }
    }
  }

  lemma SliceOfSlice(s: string, a: nat, b: nat, lo: nat, hi: nat)
    requires a <= b <= |s| && lo <= hi <= b - a
    ensures s[a..b][lo..hi] == s[a + lo..a + hi]
  {
    var x, y := s[a..b][lo..hi], s[a + lo..a + hi];
    assert forall k :: 0 <= k < |x| ==> x[k] == y[k];
  }

  lemma OneMoreSlice(s: string, span: Span, text: string, rest: seq<Span>, texts: seq<string>)
    requires SlicesInOrder(s, rest, texts) && span.lo <= span.hi <= |s| && s[span.lo..span.hi] == text && Trim(text)
    requires forall k :: 0 <= k < |rest| ==> span.hi <= rest[k].lo
    ensures SlicesInOrder(s, [span] + rest, [text] + texts)
  {
  }

  lemma {:induction false} TrimmedAreSlices(s: string, pieces: seq<Span>) returns (spans: seq<Span>)
    requires Within(s, pieces) && forall j, k :: 0 <= j < k < |pieces| ==> pieces[j].hi <= pieces[k].lo
    ensures SlicesInOrder(s, spans, Trimmed(s, pieces))
    ensures forall k :: 0 <= k < |spans| ==> pieces != [] && pieces[0].lo <= spans[k].lo
  {
    if pieces == [] {
      spans := [];
    } else {
      var first := pieces[0];
      var lo, hi := StripIsATrimmedSlice(s[first.lo..first.hi]);
      var rest := TrimmedAreSlices(s, pieces[1..]);
      var texts := Trimmed(s, pieces[1..]);
      if Strip(s[first.lo..first.hi]) == "" {
        assert Trimmed(s, pieces) == texts;
        spans := rest;
      } else {
        SliceOfSlice(s, first.lo, first.hi, lo, hi);
        spans := [Span(first.lo + lo, first.lo + hi)] + rest;
        OneMoreSlice(s, Span(first.lo + lo, first.lo + hi), Strip(s[first.lo..first.hi]), rest, texts);
      }
    }
  }

  /** Sentences are trimmed slices of the text, in order and without overlap. */
  lemma SentencesAreSlices(s: string) returns (spans: seq<Span>)
    ensures SlicesInOrder(s, spans, Sentences(s))
  {
    PiecesAreWithin(s, 0, 0);
    PiecesFollow(s, 0, 0);
    spans := TrimmedAreSlices(s, Pieces(s, 0, 0));
  }

}
