/** Fail-closed validation of answers against authorized evidence. */
module Grounding {
  import opened Prelude
  import opened Text
  import opened SentenceSplitter
  import Guardrails

  // ---- normalization

  /** Case folding maps each character by itself: white space to itself, anything else to a word. */
  type Folding = char -> string

  ghost predicate FoldsWords(fold: Folding) {
    forall c :: if IsSpace(c) then fold(c) == [c] else IsWord(fold(c))
  }

  function Fold(fold: Folding, s: string): string {
    if s == "" then "" else fold(s[0]) + Fold(fold, s[1..])
  }

  /** `" ".join(value.casefold().split())`. */
  function Normalized(fold: Folding, s: string): string {
    Join(" ", Split(Fold(fold, s)))
  }

  predicate StandsAt(hay: string, i: nat, needle: string) {
    i + |needle| <= |hay| && hay[i..i + |needle|] == needle
  }

  /** `needle in hay`. */
  predicate Contains(hay: string, needle: string) {
    exists i :: 0 <= i <= |hay| && StandsAt(hay, i, needle)
  }

  lemma {:induction false} FoldConcat(fold: Folding, a: string, b: string)
    ensures Fold(fold, a + b) == Fold(fold, a) + Fold(fold, b)
  {
    if a == "" {
      assert a + b == b;
    } else {
      assert (a + b)[1..] == a[1..] + b;
      FoldConcat(fold, a[1..], b);
    }
  }

  function FoldAll(fold: Folding, words: seq<string>): seq<string> {
    if words == [] then [] else FoldAll(fold, words[..|words| - 1]) + [Fold(fold, words[|words| - 1])]
  }

  lemma {:induction false} FoldAllConcat(fold: Folding, a: seq<string>, b: seq<string>)
    ensures FoldAll(fold, a + b) == FoldAll(fold, a) + FoldAll(fold, b)
  {
    if b == [] {
      assert a + b == a;
    } else {
      assert (a + b)[..|a + b| - 1] == a + b[..|b| - 1];
      FoldAllConcat(fold, a, b[..|b| - 1]);
    }
  }

  lemma {:induction false} FoldOfWord(fold: Folding, w: string)
    requires FoldsWords(fold) && IsWord(w)
    ensures IsWord(Fold(fold, w))
  {
    assert w[0] in w && IsWord(fold(w[0]));
    if |w| > 1 {
      assert w[1] in w && IsWord(w[1..]);
      FoldOfWord(fold, w[1..]);
    } else {
      assert w[1..] == "";
    }
  }

  /** What `casefold` is applied to: each character by itself. */
  lemma FoldIs(fold: Folding, a: string, b: string, c: char)
    ensures Fold(fold, "") == "" && Fold(fold, [c]) == fold(c) && Fold(fold, a + b) == Fold(fold, a) + Fold(fold, b)
  {
    FoldConcat(fold, a, b);
    assert [c][1..] == "" && fold(c) + "" == fold(c);
  }

  /** Normalizing folds each word and puts one space between any two. */
  lemma NormalizedIs(fold: Folding, s: string)
    requires FoldsWords(fold)
    ensures Normalized(fold, s) == Join(" ", FoldAll(fold, Split(s)))
    ensures |FoldAll(fold, Split(s))| == |Split(s)|
    ensures forall i :: 0 <= i < |Split(s)| ==> FoldAll(fold, Split(s))[i] == Fold(fold, Split(s)[i])
  {
    SplitOfFold(fold, s);
    FoldAllEach(fold, Split(s));
  }

  lemma {:induction false} FoldAllEach(fold: Folding, words: seq<string>)
    ensures |FoldAll(fold, words)| == |words|
    ensures forall i :: 0 <= i < |words| ==> FoldAll(fold, words)[i] == Fold(fold, words[i])
  {
    if words != [] {
      FoldAllEach(fold, words[..|words| - 1]);
    }
  }

  /** Python's `in` on strings. */
  lemma ContainsIs(before: string, needle: string, after: string, hay: string) returns (i: nat)
    ensures Contains(before + needle + after, needle)
    ensures Contains(hay, needle) ==> i + |needle| <= |hay| && hay == hay[..i] + needle + hay[i + |needle|..]
  {
    assert StandsAt(before + needle + after, |before|, needle);
    i := 0;
    if Contains(hay, needle) {
      i :| 0 <= i <= |hay| && StandsAt(hay, i, needle);
      assert hay == hay[..i] + hay[i..i + |needle|] + hay[i + |needle|..];
    }
  }

  /** The first white space, and the word before it. */
  lemma {:induction false} WordPrefix(s: string) returns (k: nat)
    ensures k <= |s| && (k == |s| || IsSpace(s[k])) && forall i :: 0 <= i < k ==> !IsSpace(s[i])
  {
    k := 0;
    if s != "" && !IsSpace(s[0]) {
      var rest := WordPrefix(s[1..]);
      k := rest + 1;
    }
  }

  /** Folding commutes with splitting. */
  lemma {:induction false} SplitOfFold(fold: Folding, s: string)
    requires FoldsWords(fold)
    ensures Split(Fold(fold, s)) == FoldAll(fold, Split(s))
    decreases |s|
  {
    if s == "" {
    } else if IsSpace(s[0]) {
      SplitOfFold(fold, s[1..]);
      assert Fold(fold, s) == [s[0]] + Fold(fold, s[1..]);
      assert ([s[0]] + Fold(fold, s[1..]))[1..] == Fold(fold, s[1..]);
    } else {
      var k := WordPrefix(s);
      var word, rest := s[..k], s[k..];
      assert IsWord(word) by { assert word[0] == s[0]; }
      FoldOfWord(fold, word);
      SplitOfFold(fold, rest);
      calc {
        Split(Fold(fold, s));
      ==  { assert s == word + rest; FoldConcat(fold, word, rest); }
        Split(Fold(fold, word) + Fold(fold, rest));
      ==  { FoldStartsWithSpace(fold, rest); SplitBeforeSpace(Fold(fold, word), Fold(fold, rest)); }
        Split(Fold(fold, word)) + Split(Fold(fold, rest));
      ==  { SplitWord(Fold(fold, word)); }
        [Fold(fold, word)] + FoldAll(fold, Split(rest));
      ==  { FoldAllConcat(fold, [word], Split(rest));
            assert FoldAll(fold, [word]) == [Fold(fold, word)] by { assert [word][..0] == []; } }
        FoldAll(fold, [word] + Split(rest));
      ==  { SplitWord(word); SplitBeforeSpace(word, rest); assert s == word + rest; }
        FoldAll(fold, Split(s));
      }
    }
  }

  lemma FoldStartsWithSpace(fold: Folding, s: string)
    requires FoldsWords(fold) && (s == "" || IsSpace(s[0]))
    ensures Fold(fold, s) == "" || IsSpace(Fold(fold, s)[0])
  {
    assert s != "" ==> fold(s[0]) == [s[0]];
  }

  // ---- containment

  lemma {:induction false} JoinConcat(a: seq<string>, b: seq<string>)
    ensures Join(" ", a + b) == if a == [] then Join(" ", b) else if b == [] then Join(" ", a)
            else Join(" ", a) + " " + Join(" ", b)
  {
    if a == [] {
      assert a + b == b;
    } else if b == [] {
      assert a + b == a;
    } else {
      assert (a + b)[1..] == a[1..] + b;
      JoinConcat(a[1..], b);
    }
  }

  lemma JoinStarts(b: seq<string>, c: seq<string>)
    ensures StandsAt(Join(" ", b + c), 0, Join(" ", b))
  {
    JoinConcat(b, c);
  }

  lemma JoinEnds(a: seq<string>, b: seq<string>)
    ensures Contains(Join(" ", a + b), Join(" ", b))
  {
    JoinConcat(a, b);
    var whole := Join(" ", a + b);
    if a == [] {
      assert StandsAt(whole, 0, Join(" ", b));
    } else if b == [] {
      assert StandsAt(whole, 0, "");
    } else {
      assert StandsAt(whole, |Join(" ", a)| + 1, Join(" ", b));
    }
  }

  /** Consecutive words, joined, are part of the joined whole. */
  lemma JoinContains(a: seq<string>, b: seq<string>, c: seq<string>)
    ensures Contains(Join(" ", a + b + c), Join(" ", b))
  {
    JoinStarts(a + b, c);
    JoinEnds(a, b);
    assert Contains(Join(" ", a + b + c), Join(" ", a + b));
    ContainsJoins(Join(" ", a + b + c), Join(" ", a + b), Join(" ", b));
  }

  lemma {:induction false} AllWordsAround(texts: seq<string>, k: nat)
    requires k < |texts|
    ensures AllWords(texts) == AllWords(texts[..k]) + Split(texts[k]) + AllWords(texts[k + 1..])
  {
    assert texts == texts[..k] + texts[k..];
    AllWordsOfConcat(texts[..k], texts[k..]);
    AllWordsOfFirst(texts[k..]);
    assert texts[k..][1..] == texts[k + 1..];
  }

  /** A sentence of a text is, normalized, part of the normalized text. */
  lemma SentenceIsContained(fold: Folding, text: string, k: nat)
    requires FoldsWords(fold) && k < |Sentences(text)|
    ensures Contains(Normalized(fold, text), Normalized(fold, Sentences(text)[k]))
  {
    var sentences := Sentences(text);
    SentencesKeepWords(text);
    AllWordsAround(sentences, k);
    var a, b, c := AllWords(sentences[..k]), Split(sentences[k]), AllWords(sentences[k + 1..]);
    SplitOfFold(fold, text);
    SplitOfFold(fold, sentences[k]);
    FoldAllConcat(fold, a + b, c);
    FoldAllConcat(fold, a, b);
    JoinContains(FoldAll(fold, a), FoldAll(fold, b), FoldAll(fold, c));
  }

  lemma ContainsJoins(a: string, b: string, c: string)
    requires Contains(a, b) && Contains(b, c)
    ensures Contains(a, c)
  {
    var i :| 0 <= i <= |a| && StandsAt(a, i, b);
    var j :| 0 <= j <= |b| && StandsAt(b, j, c);
    SliceOfSlice(a, i, i + |b|, j, j + |c|);
    assert StandsAt(a, i + j, c);
  }

  // ---- claims

  datatype Anchor = Anchor(id: string, checksum: string, page: int, start: int, end: int, conflictsWith: seq<string>)
  datatype Snippet = Snippet(anchor: Anchor, text: string)
  datatype Citation = Citation(anchor: string, quote: string)
  datatype Claim = Claim(text: string, citations: seq<Citation>)

  /** Case folding, and whether a text holds a token of letters or digits. */
  datatype Language = Language(fold: Folding, hasTokens: string -> bool)

  predicate Material(s: string) {
    Strip(s) != ""
  }

  predicate ValidAnchor(a: Anchor) {
    Material(a.id) && Material(a.checksum) && a.page >= 1 && 0 <= a.start <= a.end
  }

  function AnchorIds(evidence: seq<Snippet>, n: nat): (ids: set<string>)
    requires n <= |evidence|
    ensures forall id :: id in ids <==> exists i :: 0 <= i < n && evidence[i].anchor.id == id
  {
    if n == 0 then {} else AnchorIds(evidence, n - 1) + {evidence[n - 1].anchor.id}
  }

  /** A material snippet with a valid anchor that no earlier snippet has. */
  predicate Acceptable(evidence: seq<Snippet>, i: nat)
    requires i < |evidence|
  {
    ValidAnchor(evidence[i].anchor) && Material(evidence[i].text) && evidence[i].anchor.id !in AnchorIds(evidence, i)
  }

  predicate Sound(evidence: seq<Snippet>, n: nat)
    requires n <= |evidence|
  {
    forall i :: 0 <= i < n ==> Acceptable(evidence, i)
  }

  /** Conflicts are declared with other anchors of these only. */
  predicate ConflictsWithin(evidence: seq<Snippet>, ids: set<string>) {
    forall i, c :: 0 <= i < |evidence| && c in evidence[i].anchor.conflictsWith ==>
      c in ids && c != evidence[i].anchor.id
  }

  /** Authorized evidence: sound, and with conflicts among its own anchors only. */
  predicate ValidEvidence(evidence: seq<Snippet>) {
    evidence != [] && Sound(evidence, |evidence|) && ConflictsWithin(evidence, AnchorIds(evidence, |evidence|))
  }

  predicate Known(evidence: seq<Snippet>, id: string) {
    exists i :: 0 <= i < |evidence| && evidence[i].anchor.id == id
  }

  predicate Conflicting(evidence: seq<Snippet>, a: Anchor) {
    || (exists c :: c in a.conflictsWith && Known(evidence, c))
    || (exists i :: 0 <= i < |evidence| && a.id in evidence[i].anchor.conflictsWith)
  }

  ghost predicate DistinctAnchors(evidence: seq<Snippet>) {
    forall i, j :: 0 <= i < j < |evidence| ==> evidence[i].anchor.id != evidence[j].anchor.id
  }

  lemma SoundIs(evidence: seq<Snippet>)
    ensures Sound(evidence, |evidence|) <==>
            && (forall i :: 0 <= i < |evidence| ==>
                  var a := evidence[i].anchor;
                  && Strip(a.id) != "" && Strip(a.checksum) != "" && Strip(evidence[i].text) != ""
                  && a.page >= 1 && 0 <= a.start <= a.end)
            && DistinctAnchors(evidence)
  {
    if Sound(evidence, |evidence|) {
      forall i, j | 0 <= i < j < |evidence| ensures evidence[i].anchor.id != evidence[j].anchor.id {
        assert Acceptable(evidence, j);
      }
      forall i | 0 <= i < |evidence| ensures ValidAnchor(evidence[i].anchor) && Material(evidence[i].text) {
        assert Acceptable(evidence, i);
      }
    }
  }

  lemma ValidEvidenceIs(evidence: seq<Snippet>)
    ensures ValidEvidence(evidence) <==>
            && evidence != []
            && (forall i :: 0 <= i < |evidence| ==>
                  var a := evidence[i].anchor;
                  && Strip(a.id) != "" && Strip(a.checksum) != "" && Strip(evidence[i].text) != ""
                  && a.page >= 1 && 0 <= a.start <= a.end)
            && DistinctAnchors(evidence)
            && (forall i, c :: 0 <= i < |evidence| && c in evidence[i].anchor.conflictsWith ==>
                  c != evidence[i].anchor.id && exists j :: 0 <= j < |evidence| && evidence[j].anchor.id == c)
  {
    SoundIs(evidence);
    ConflictsAreWithin(evidence);
  }

  lemma ConflictsAreWithin(evidence: seq<Snippet>)
    ensures ConflictsWithin(evidence, AnchorIds(evidence, |evidence|)) <==>
            forall i, c :: 0 <= i < |evidence| && c in evidence[i].anchor.conflictsWith ==>
              c != evidence[i].anchor.id && exists j :: 0 <= j < |evidence| && evidence[j].anchor.id == c
  {
    var ids := AnchorIds(evidence, |evidence|);
    if ConflictsWithin(evidence, ids) {
      forall i, c | 0 <= i < |evidence| && c in evidence[i].anchor.conflictsWith
        ensures c != evidence[i].anchor.id && exists j :: 0 <= j < |evidence| && evidence[j].anchor.id == c
      {
        assert c in ids;
      }
    }
  }

  /** `_valid_evidence`. */
  method CheckEvidence(evidence: seq<Snippet>) returns (ok: bool)
    ensures ok <==> ValidEvidence(evidence)
    ensures ok <==>
            && evidence != []
            && (forall i :: 0 <= i < |evidence| ==>
                  var a := evidence[i].anchor;
                  && Strip(a.id) != "" && Strip(a.checksum) != "" && Strip(evidence[i].text) != ""
                  && a.page >= 1 && 0 <= a.start <= a.end)
            && (forall i, j :: 0 <= i < j < |evidence| ==> evidence[i].anchor.id != evidence[j].anchor.id)
            && (forall i, c :: 0 <= i < |evidence| && c in evidence[i].anchor.conflictsWith ==>
                  c != evidence[i].anchor.id && exists j :: 0 <= j < |evidence| && evidence[j].anchor.id == c)
  {
    ValidEvidenceIs(evidence);
    if evidence == [] {
      return false;
    }
    var sound, ids := CheckAnchors(evidence);
    ok := sound && ConflictsWithin(evidence, ids);
  }

  method CheckAnchors(evidence: seq<Snippet>) returns (ok: bool, ids: set<string>)
    ensures ok <==> Sound(evidence, |evidence|)
    ensures ok ==> ids == AnchorIds(evidence, |evidence|)
  {
    ids := {};
    for n := 0 to |evidence|
      invariant Sound(evidence, n) && ids == AnchorIds(evidence, n)
    {
      var anchor := evidence[n].anchor;
      assert Acceptable(evidence, n) <==> ValidAnchor(anchor) && Material(evidence[n].text) && anchor.id !in ids;
      if !Material(anchor.id) || !Material(anchor.checksum) || anchor.id in ids || anchor.page < 1 || anchor.start < 0
         || anchor.end < anchor.start || !Material(evidence[n].text)
      {
        return false, ids;
      }
      ids := ids + {anchor.id};
    }
    ok := true;
  }

  /** `extract_supporting_quote` finds a sentence of the quote that is the claim, normalized. */
  method ExtractSupportingQuote(l: Language, claim: string, evidence: string) returns (r: Option<string>)
    ensures r.Some? <==> Supports(l, claim, evidence)
    ensures r.None? <==> !l.hasTokens(claim) || forall k :: 0 <= k < |Sentences(evidence)| ==>
              Normalized(l.fold, Sentences(evidence)[k]) != Normalized(l.fold, claim)
    ensures r.Some? ==> exists k :: 0 <= k < |Sentences(evidence)| && Sentences(evidence)[k] == r.value
                          && Normalized(l.fold, r.value) == Normalized(l.fold, claim)
                          && forall j :: 0 <= j < k ==>
                             Normalized(l.fold, Sentences(evidence)[j]) != Normalized(l.fold, claim)
  {
    var wanted := Normalized(l.fold, claim);
    if !l.hasTokens(claim) {
      return None;
    }
    var sentences := SplitSentences(evidence);
    for k := 0 to |sentences|
      invariant forall j :: 0 <= j < k ==> Normalized(l.fold, sentences[j]) != wanted
    {
      if Normalized(l.fold, sentences[k]) == wanted {
        return Some(sentences[k]);
      }
    }
    r := None;
  }

  predicate Supports(l: Language, claim: string, quote: string) {
    && l.hasTokens(claim)
    && exists k :: 0 <= k < |Sentences(quote)| && Normalized(l.fold, Sentences(quote)[k]) == Normalized(l.fold, claim)
  }

  datatype Verdict = Valid | Invalid | Conflict

  /** What one citation makes of its claim, given the snippet it names. */
  function Judge(l: Language, evidence: seq<Snippet>, claim: string, c: Citation, snippet: Option<Snippet>): Verdict {
    if snippet.None? || !Material(c.quote) then Invalid
    else if Conflicting(evidence, snippet.value.anchor) then Conflict
    else if Contains(Normalized(l.fold, snippet.value.text), Normalized(l.fold, c.quote))
      && Supports(l, claim, c.quote) then Valid
    else Invalid
  }

  /** The dictionary of snippets by anchor; a later snippet would replace an earlier one. */
  function Lookup(evidence: seq<Snippet>, id: string): (r: Option<Snippet>)
    ensures r.Some? <==> Known(evidence, id)
    ensures r.Some? ==> r.value in evidence && r.value.anchor.id == id
  {
    if evidence == [] then None
    else if evidence[|evidence| - 1].anchor.id == id then Some(evidence[|evidence| - 1])
    else
      var r := Lookup(evidence[..|evidence| - 1], id);
      assert forall i :: 0 <= i < |evidence| - 1 ==> evidence[i] == evidence[..|evidence| - 1][i];
      r
  }

  function JudgeCitation(l: Language, evidence: seq<Snippet>, claim: string, c: Citation): Verdict {
    Judge(l, evidence, claim, c, Lookup(evidence, c.anchor))
  }

  function CitationVerdicts(l: Language, evidence: seq<Snippet>, claim: Claim): seq<Verdict> {
    seq(|claim.citations|,
        i requires 0 <= i < |claim.citations| => JudgeCitation(l, evidence, claim.text, claim.citations[i]))
  }

  /** The first citation that does not hold decides. */
  function Decide(verdicts: seq<Verdict>): Verdict {
    if verdicts == [] then Valid else if verdicts[0] != Valid then verdicts[0] else Decide(verdicts[1..])
  }

  function JudgeClaim(l: Language, evidence: seq<Snippet>, claim: Claim): Verdict {
    if !Material(claim.text) || claim.citations == [] || !l.hasTokens(claim.text) then Invalid
    else Decide(CitationVerdicts(l, evidence, claim))
  }

  /** What a citation must do, said of the evidence itself: it quotes a material part of an authorized snippet
      that no other snippet disputes and that disputes none, and a whole sentence of the quote is the claim. */
  ghost predicate Holds(l: Language, evidence: seq<Snippet>, claim: string, c: Citation) {
    && l.hasTokens(claim) && Strip(c.quote) != ""
    && (exists s :: 0 <= s < |Sentences(c.quote)| &&
          Normalized(l.fold, Sentences(c.quote)[s]) == Normalized(l.fold, claim))
    && exists n :: 0 <= n < |evidence| && evidence[n].anchor.id == c.anchor && !Disputed(evidence, n)
         && Contains(Normalized(l.fold, evidence[n].text), Normalized(l.fold, c.quote))
  }

  /** One of the two snippets declares the conflict. */
  ghost predicate Disputed(evidence: seq<Snippet>, n: nat)
    requires n < |evidence|
  {
    exists m :: 0 <= m < |evidence| &&
      (evidence[m].anchor.id in evidence[n].anchor.conflictsWith
       || evidence[n].anchor.id in evidence[m].anchor.conflictsWith)
  }

  ghost predicate CitesDisputed(evidence: seq<Snippet>, c: Citation) {
    && Strip(c.quote) != ""
    && exists n :: 0 <= n < |evidence| && evidence[n].anchor.id == c.anchor && Disputed(evidence, n)
  }

  /** A claim all of whose citations hold. */
  ghost predicate Supported(l: Language, evidence: seq<Snippet>, claim: Claim) {
    && Strip(claim.text) != "" && l.hasTokens(claim.text) && claim.citations != []
    && forall j :: 0 <= j < |claim.citations| ==> Holds(l, evidence, claim.text, claim.citations[j])
  }

  /** A claim whose first citation that does not hold cites disputed evidence. */
  ghost predicate Disputes(l: Language, evidence: seq<Snippet>, claim: Claim) {
    && Strip(claim.text) != "" && l.hasTokens(claim.text)
    && exists j :: 0 <= j < |claim.citations| && CitesDisputed(evidence, claim.citations[j])
         && forall i :: 0 <= i < j ==> Holds(l, evidence, claim.text, claim.citations[i])
  }

  lemma ConflictingIs(evidence: seq<Snippet>, n: nat)
    requires n < |evidence|
    ensures Conflicting(evidence, evidence[n].anchor) <==> Disputed(evidence, n)
  {
    if c :| c in evidence[n].anchor.conflictsWith && Known(evidence, c) {
      var m :| 0 <= m < |evidence| && evidence[m].anchor.id == c;
    }
    if m :| 0 <= m < |evidence| && evidence[m].anchor.id in evidence[n].anchor.conflictsWith {
      assert Known(evidence, evidence[m].anchor.id);
    }
  }

  /** The verdict on one citation. */
  lemma CitationIsJudged(l: Language, evidence: seq<Snippet>, claim: string, c: Citation)
    requires DistinctAnchors(evidence) && l.hasTokens(claim)
    ensures JudgeCitation(l, evidence, claim, c) == Conflict <==> CitesDisputed(evidence, c)
    ensures JudgeCitation(l, evidence, claim, c) == Valid <==> Holds(l, evidence, claim, c)
  {
    var found := Lookup(evidence, c.anchor);
    if found.Some? {
      var n :| 0 <= n < |evidence| && evidence[n] == found.value;
      ConflictingIs(evidence, n);
      assert forall m :: 0 <= m < |evidence| && evidence[m].anchor.id == c.anchor ==> m == n;
    } else {
      assert forall m :: 0 <= m < |evidence| ==> evidence[m].anchor.id != c.anchor;
    }
  }

  lemma {:induction false} DecidedBy(verdicts: seq<Verdict>) returns (j: nat)
    ensures j <= |verdicts| && (forall i :: 0 <= i < j ==> verdicts[i] == Valid)
    ensures Decide(verdicts) == if j < |verdicts| then verdicts[j] else Valid
    ensures j < |verdicts| ==> verdicts[j] != Valid
  {
    j := 0;
    if verdicts != [] && verdicts[0] == Valid {
      j := DecidedBy(verdicts[1..]);
      j := j + 1;
    }
  }

  /** The verdict on a claim. */
  lemma ClaimIsJudged(l: Language, evidence: seq<Snippet>, claim: Claim)
    requires DistinctAnchors(evidence)
    ensures JudgeClaim(l, evidence, claim) == Valid <==> Supported(l, evidence, claim)
    ensures JudgeClaim(l, evidence, claim) == Conflict <==> Disputes(l, evidence, claim)
  {
    if l.hasTokens(claim.text) {
      var verdicts := CitationVerdicts(l, evidence, claim);
      forall i | 0 <= i < |verdicts|
        ensures verdicts[i] == Conflict <==> CitesDisputed(evidence, claim.citations[i])
        ensures verdicts[i] == Valid <==> Holds(l, evidence, claim.text, claim.citations[i])
      {
        CitationIsJudged(l, evidence, claim.text, claim.citations[i]);
      }
      var j := DecidedBy(verdicts);
    }
  }

  /** `_valid_claim`. */
  method ValidClaim(l: Language, evidence: seq<Snippet>, claim: Claim) returns (v: Verdict)
    ensures v == JudgeClaim(l, evidence, claim)
    ensures DistinctAnchors(evidence) ==> (v == Valid <==> Supported(l, evidence, claim))
    ensures DistinctAnchors(evidence) ==> (v == Conflict <==> Disputes(l, evidence, claim))
  {
    if DistinctAnchors(evidence) { ClaimIsJudged(l, evidence, claim); }
    if !Material(claim.text) || claim.citations == [] || !l.hasTokens(claim.text) {
      return Invalid;
    }
    ghost var verdicts := CitationVerdicts(l, evidence, claim);
    for i := 0 to |claim.citations|
      invariant Decide(verdicts) == Decide(verdicts[i..])
    {
      var c := claim.citations[i];
      assert verdicts[i..][0] == JudgeCitation(l, evidence, claim.text, c) && verdicts[i..][1..] == verdicts[i + 1..];
      v := ValidCitation(l, evidence, claim.text, c);
      if v != Valid {
        return;
      }
    }
    v := Valid;
  }

  method ValidCitation(l: Language, evidence: seq<Snippet>, claim: string, c: Citation) returns (v: Verdict)
    requires l.hasTokens(claim)
    ensures v == JudgeCitation(l, evidence, claim, c)
  {
    var snippet := Lookup(evidence, c.anchor);
    if snippet.None? || !Material(c.quote) {
      return Invalid;
    }
    if Conflicting(evidence, snippet.value.anchor) {
      return Conflict;
    }
    if !Contains(Normalized(l.fold, snippet.value.text), Normalized(l.fold, c.quote)) {
      return Invalid;
    }
    var quote := ExtractSupportingQuote(l, claim, c.quote);
    v := if quote.None? then Invalid else Valid;
  }

  function Verdicts(l: Language, evidence: seq<Snippet>, claims: seq<Claim>): seq<Verdict> {
    seq(|claims|, i requires 0 <= i < |claims| => JudgeClaim(l, evidence, claims[i]))
  }

  /** The claims found valid, in order. */
  function Accepted(claims: seq<Claim>, verdicts: seq<Verdict>): seq<Claim>
    requires |claims| == |verdicts|
  {
    if claims == [] then []
    else
      var n := |claims| - 1;
      Accepted(claims[..n], verdicts[..n]) + if verdicts[n] == Valid then [claims[n]] else []
  }

  /** Accepting keeps the valid claims and their order. */
  lemma AcceptedIs(claims: seq<Claim>, verdicts: seq<Verdict>, claim: Claim, verdict: Verdict)
    requires |claims| == |verdicts|
    ensures Accepted([], []) == []
    ensures Accepted(claims + [claim], verdicts + [verdict])
      == Accepted(claims, verdicts) + if verdict == Valid then [claim] else []
  {
    assert (claims + [claim])[..|claims|] == claims && (verdicts + [verdict])[..|claims|] == verdicts;
  }

  lemma AcceptedStep(claims: seq<Claim>, verdicts: seq<Verdict>, i: nat)
    requires i < |claims| == |verdicts|
    ensures Accepted(claims[..i + 1], verdicts[..i + 1])
      == Accepted(claims[..i], verdicts[..i]) + if verdicts[i] == Valid then [claims[i]] else []
    ensures forall v :: v in verdicts[..i + 1] <==> v in verdicts[..i] || v == verdicts[i]
  {
    AcceptedIs(claims[..i], verdicts[..i], claims[i], verdicts[i]);
    assert claims[..i + 1] == claims[..i] + [claims[i]] && verdicts[..i + 1] == verdicts[..i] + [verdicts[i]];
  }

  /** `_validate_claims`. */
  method ValidateClaims(l: Language, evidence: seq<Snippet>, claims: seq<Claim>)
    returns (accepted: seq<Claim>, rejected: bool, conflict: bool)
    ensures var verdicts := Verdicts(l, evidence, claims);
            && (conflict <==> Conflict in verdicts)
            && (conflict ==> accepted == [] && rejected)
            && (!conflict ==> accepted == Accepted(claims, verdicts) && (rejected <==> Invalid in verdicts))
  {
    ghost var verdicts := Verdicts(l, evidence, claims);
    accepted, rejected := [], false;
    for i := 0 to |claims|
      invariant accepted == Accepted(claims[..i], verdicts[..i])
      invariant (rejected <==> Invalid in verdicts[..i]) && Conflict !in verdicts[..i]
    {
      AcceptedStep(claims, verdicts, i);
      var v := ValidClaim(l, evidence, claims[i]);
      assert v == verdicts[i];
      if v == Conflict {
        return [], true, true;
      }
      if v == Valid {
        accepted := accepted + [claims[i]];
      } else {
        rejected := true;
      }
    }
    assert claims[..|claims|] == claims && verdicts[..|claims|] == verdicts;
    conflict := false;
  }

  // ---- answers

  datatype Status = Answered | InsufficientEvidence | ConflictingEvidence | Partial | ModelUnavailable
  datatype Answer = Answer(status: Status, claims: seq<Claim>)

  /** The guardrail's patterns and decoder. */
  datatype Guard = Guard(patterns: Guardrails.Patterns, decoder: Guardrails.Decoder)

  function Items(evidence: seq<Snippet>): seq<Guardrails.Item> {
    seq(|evidence|, i requires 0 <= i < |evidence| => Guardrails.Item(evidence[i].anchor.id, evidence[i].text))
  }

  /** The guardrail neither blocks the evidence nor asks for a review of it. */
  predicate Safe(g: Guard, evidence: seq<Snippet>) {
    && !Guardrails.AnyBlocks(g.patterns, g.decoder, AnchorIds(evidence, |evidence|), Items(evidence))
    && !Guardrails.AnyReviews(g.patterns, Items(evidence))
  }

  lemma VerdictsAre(l: Language, evidence: seq<Snippet>, claims: seq<Claim>)
    requires ValidEvidence(evidence)
    ensures var verdicts := Verdicts(l, evidence, claims);
            && (Conflict in verdicts <==> exists i :: 0 <= i < |claims| && Disputes(l, evidence, claims[i]))
            && (forall claim :: claim in Accepted(claims, verdicts) ==> Supported(l, evidence, claim))
            && (forall i :: 0 <= i < |claims| ==>
                  (Supported(l, evidence, claims[i]) ==> claims[i] in Accepted(claims, verdicts)))
  {
    var verdicts := Verdicts(l, evidence, claims);
    ValidEvidenceIs(evidence);
    forall i | 0 <= i < |claims|
      ensures verdicts[i] == Valid <==> Supported(l, evidence, claims[i])
      ensures verdicts[i] == Conflict <==> Disputes(l, evidence, claims[i])
      ensures verdicts[i] == Valid ==> claims[i] in Accepted(claims, verdicts)
    {
      ClaimIsJudged(l, evidence, claims[i]);
      if verdicts[i] == Valid { ValidIsAccepted(claims, verdicts, i); }
    }
    forall claim | claim in Accepted(claims, verdicts) ensures Supported(l, evidence, claim) {
      var k :| 0 <= k < |Accepted(claims, verdicts)| && Accepted(claims, verdicts)[k] == claim;
      var i := AcceptedAreValid(claims, verdicts, k);
    }
  }

  lemma {:induction false} ValidIsAccepted(claims: seq<Claim>, verdicts: seq<Verdict>, i: nat)
    requires i < |claims| == |verdicts| && verdicts[i] == Valid
    ensures claims[i] in Accepted(claims, verdicts)
  {
    var n := |claims| - 1;
    if i < n {
      ValidIsAccepted(claims[..n], verdicts[..n], i);
    }
  }

  /** A text that matches no pattern, in the clear or under two levels of encoding, and does not reach the bound
      on decoding. */
  ghost predicate Harmless(g: Guard, text: string) {
    && !g.patterns.exfiltration(text) && !g.patterns.action(text) && !g.patterns.instruction(text)
    && !Guardrails.ReachesProhibited(g.patterns, g.decoder, text)
  }

  /** Evidence is safe exactly when all its texts are harmless; its anchors are authorized by themselves. */
  lemma SafeIs(g: Guard, evidence: seq<Snippet>)
    ensures Safe(g, evidence) <==> forall i :: 0 <= i < |evidence| ==> Harmless(g, evidence[i].text)
  {
    var items, allowed := Items(evidence), AnchorIds(evidence, |evidence|);
    Guardrails.DecisionIs(g.patterns, g.decoder, allowed, items);
    forall i | 0 <= i < |evidence|
      ensures Harmless(g, evidence[i].text) <==>
              !Guardrails.GivesBlock(g.patterns, g.decoder, allowed, items[i])
              && !Guardrails.GivesReview(g.patterns, items[i])
    {
      assert items[i].anchor in allowed && items[i].text == evidence[i].text;
    }
  }

  /** `answer_question`. The candidate is None when the model failed or answered with something else. */
  method AnswerQuestion(l: Language, g: Guard, question: string, evidence: seq<Snippet>, candidate: Option<seq<Claim>>)
    returns (answer: Answer)
    ensures answer.claims != [] ==>
              && ValidEvidence(evidence) && Safe(g, evidence) && candidate.Some?
              && Conflict !in Verdicts(l, evidence, candidate.value)
              && answer.claims == Accepted(candidate.value, Verdicts(l, evidence, candidate.value))
    ensures answer.status.Answered? || answer.status.Partial? <==> answer.claims != []
    ensures answer.status.Answered? ==> answer.claims == candidate.value
    ensures answer.status.ConflictingEvidence? <==>
              Strip(question) != "" && ValidEvidence(evidence) && Safe(g, evidence) && candidate.Some?
              && exists i :: 0 <= i < |candidate.value| && Disputes(l, evidence, candidate.value[i])
    ensures answer.claims != [] ==>
              && (forall claim :: claim in answer.claims ==> Supported(l, evidence, claim))
              && (forall i :: 0 <= i < |candidate.value| ==>
                    (Supported(l, evidence, candidate.value[i]) ==> candidate.value[i] in answer.claims))
    ensures answer.status.ModelUnavailable? <==>
              Strip(question) != "" && ValidEvidence(evidence) && Safe(g, evidence) && candidate.None?
    ensures answer.status.InsufficientEvidence? <==>
              || Strip(question) == "" || !ValidEvidence(evidence) || !Safe(g, evidence)
              || (candidate.Some? && Conflict !in Verdicts(l, evidence, candidate.value)
                  && Accepted(candidate.value, Verdicts(l, evidence, candidate.value)) == [])
    ensures answer.claims != [] ==>
              (answer.status.Partial? <==> Invalid in Verdicts(l, evidence, candidate.value))
  {
    var valid := CheckEvidence(evidence);
    if !Material(question) || !valid {
      return Answer(InsufficientEvidence, []);
    }
    var status, _ := Guardrails.ValidateUntrustedEvidence(g.patterns, g.decoder, AnchorIds(evidence, |evidence|),
                                                          Items(evidence));
    if status != Guardrails.Allow {
      return Answer(InsufficientEvidence, []);
    }
    if candidate.None? {
      return Answer(ModelUnavailable, []);
    }
    VerdictsAre(l, evidence, candidate.value);
    var accepted, rejected, conflict := ValidateClaims(l, evidence, candidate.value);
    if conflict {
      return Answer(ConflictingEvidence, []);
    }
    if accepted == [] {
      return Answer(InsufficientEvidence, []);
    }
    if !rejected {
      AllAccepted(candidate.value, Verdicts(l, evidence, candidate.value));
    }
    answer := Answer(if rejected then Partial else Answered, accepted);
  }

  lemma {:induction false} AllAccepted(claims: seq<Claim>, verdicts: seq<Verdict>)
    requires |claims| == |verdicts| && Invalid !in verdicts && Conflict !in verdicts
    ensures Accepted(claims, verdicts) == claims
  {
    if claims != [] {
      var n := |claims| - 1;
      assert verdicts == verdicts[..n] + [verdicts[n]];
      AllAccepted(claims[..n], verdicts[..n]);
      assert claims == claims[..n] + [claims[n]];
    }
  }

  ghost predicate IsSubsequence(part: seq<Claim>, whole: seq<Claim>) {
    if part == [] then true
    else if whole == [] then false
    else if part[|part| - 1] == whole[|whole| - 1] then IsSubsequence(part[..|part| - 1], whole[..|whole| - 1])
    else IsSubsequence(part, whole[..|whole| - 1])
  }

  lemma {:induction false} AcceptedAreValid(claims: seq<Claim>, verdicts: seq<Verdict>, k: nat) returns (i: nat)
    requires |claims| == |verdicts| && k < |Accepted(claims, verdicts)|
    ensures i < |claims| && claims[i] == Accepted(claims, verdicts)[k] && verdicts[i] == Valid
  {
    var n := |claims| - 1;
    if k < |Accepted(claims[..n], verdicts[..n])| {
      i := AcceptedAreValid(claims[..n], verdicts[..n], k);
    } else {
      i := n;
    }
  }

  /** What it means for a claim to rest on the evidence: it cites, and every citation names an authorized anchor
      that lists no anchor of the evidence as a conflict, that no snippet of the evidence lists, and whose text
      holds the claim, normalized, as a contiguous part. */
  ghost predicate Grounded(l: Language, evidence: seq<Snippet>, claim: Claim) {
    claim.citations != [] && forall j :: 0 <= j < |claim.citations| ==> RestsOn(l, evidence, claim, claim.citations[j])
  }

  ghost predicate RestsOn(l: Language, evidence: seq<Snippet>, claim: Claim, c: Citation) {
    exists n :: 0 <= n < |evidence| && evidence[n].anchor.id == c.anchor
      && (forall m :: 0 <= m < |evidence| ==> evidence[m].anchor.id !in evidence[n].anchor.conflictsWith)
      && (forall m :: 0 <= m < |evidence| ==> evidence[n].anchor.id !in evidence[m].anchor.conflictsWith)
      && Contains(Normalized(l.fold, evidence[n].text), Normalized(l.fold, claim.text))
  }

  lemma HoldingIsGrounded(l: Language, evidence: seq<Snippet>, claim: string, c: Citation) returns (n: nat)
    requires FoldsWords(l.fold) && Holds(l, evidence, claim, c)
    ensures n < |evidence| && evidence[n].anchor.id == c.anchor && !Disputed(evidence, n)
    ensures Contains(Normalized(l.fold, evidence[n].text), Normalized(l.fold, claim))
  {
    n :| 0 <= n < |evidence| && evidence[n].anchor.id == c.anchor && !Disputed(evidence, n)
         && Contains(Normalized(l.fold, evidence[n].text), Normalized(l.fold, c.quote));
    var s :| 0 <= s < |Sentences(c.quote)| && Normalized(l.fold, Sentences(c.quote)[s]) == Normalized(l.fold, claim);
    SentenceIsContained(l.fold, c.quote, s);
    ContainsJoins(Normalized(l.fold, evidence[n].text), Normalized(l.fold, c.quote), Normalized(l.fold, claim));
  }

  /** Grounding: every claim of any answer rests on the evidence. */
  lemma ClaimsAreGrounded(l: Language, evidence: seq<Snippet>, claims: seq<Claim>, k: nat)
    requires FoldsWords(l.fold) && ValidEvidence(evidence)
    requires k < |Accepted(claims, Verdicts(l, evidence, claims))|
    ensures Grounded(l, evidence, Accepted(claims, Verdicts(l, evidence, claims))[k])
  {
    VerdictsAre(l, evidence, claims);
    var claim := Accepted(claims, Verdicts(l, evidence, claims))[k];
    assert Supported(l, evidence, claim);
    forall j | 0 <= j < |claim.citations| ensures RestsOn(l, evidence, claim, claim.citations[j]) {
      var n := HoldingIsGrounded(l, evidence, claim.text, claim.citations[j]);
    }
  }

  predicate Unprompting(g: Guard, text: string) {
    !g.patterns.exfiltration(text) && !g.patterns.action(text) && !g.patterns.instruction(text)
  }

  /** Nothing prohibited, in the clear or under two levels of encoding. */
  predicate CleanText(g: Guard, text: string) {
    Unprompting(g, text) && forall decoded :: decoded in Guardrails.Reached(g.decoder, text) ==> Unprompting(g, decoded)
  }

  /** What safe evidence is: no text of it, and none that two levels of decoding reach in it, is prohibited. */
  lemma SafeIsClean(g: Guard, evidence: seq<Snippet>, i: nat, text: string)
    requires Safe(g, evidence) && i < |evidence|
    requires text == evidence[i].text || text in Guardrails.Reached(g.decoder, evidence[i].text)
    ensures Unprompting(g, text)
  {
    var item := Items(evidence)[i];
    var allowed := AnchorIds(evidence, |evidence|);
    assert !Guardrails.BlockTest(g.patterns, g.decoder, allowed)(item) && !Guardrails.ReviewTest(g.patterns)(item);
    if text in Guardrails.Reached(g.decoder, item.text) {
      Guardrails.AllowedIsClean(g.patterns, g.decoder, allowed, item, text);
    }
  }

  /** An answer that shows claims: each is a contiguous part, normalized, of every snippet it cites, and no
      snippet at all hides a prohibited text, in the clear or encoded. */
  lemma AnswersAreGroundedAndClean(l: Language, g: Guard, evidence: seq<Snippet>, claims: seq<Claim>, answer: Answer,
                                   k: nat)
    requires FoldsWords(l.fold) && answer.claims == Accepted(claims, Verdicts(l, evidence, claims))
    requires answer.claims != [] && ValidEvidence(evidence) && Safe(g, evidence) && k < |answer.claims|
    ensures Grounded(l, evidence, answer.claims[k])
    ensures forall j :: 0 <= j < |answer.claims[k].citations| ==>
              var cited := Lookup(evidence, answer.claims[k].citations[j].anchor);
              cited.Some? && CleanText(g, cited.value.text)
    ensures forall i :: 0 <= i < |evidence| ==> CleanText(g, evidence[i].text)
  {
    ClaimsAreGrounded(l, evidence, claims, k);
    forall i | 0 <= i < |evidence| ensures CleanText(g, evidence[i].text) {
      forall text | text == evidence[i].text || text in Guardrails.Reached(g.decoder, evidence[i].text)
        ensures Unprompting(g, text)
      {
        SafeIsClean(g, evidence, i, text);
      }
    }
    forall j | 0 <= j < |answer.claims[k].citations|
      ensures var cited := Lookup(evidence, answer.claims[k].citations[j].anchor);
              cited.Some? && CleanText(g, cited.value.text)
    {
      assert RestsOn(l, evidence, answer.claims[k], answer.claims[k].citations[j]);
    }
  }

  /** Accepted claims keep the candidate's order: they are a subsequence of its claims. */
  lemma {:induction false} AcceptedAreASubsequence(claims: seq<Claim>, verdicts: seq<Verdict>)
    requires |claims| == |verdicts|
    ensures IsSubsequence(Accepted(claims, verdicts), claims)
  {
    if claims != [] {
      var n := |claims| - 1;
      var before := Accepted(claims[..n], verdicts[..n]);
      AcceptedAreASubsequence(claims[..n], verdicts[..n]);
      if verdicts[n] == Valid {
        assert (before + [claims[n]])[..|before|] == before;
      } else {
        assert Accepted(claims, verdicts) == before;
        DroppingTheLast(before, claims);
      }
    }
  }

  lemma {:induction false} DroppingTheLast(part: seq<Claim>, whole: seq<Claim>)
    requires whole != [] && IsSubsequence(part, whole[..|whole| - 1])
    ensures IsSubsequence(part, whole)
  {
    if part != [] && part[|part| - 1] == whole[|whole| - 1] {
      ShorterPart(part, whole[..|whole| - 1]);
    }
  }

  lemma {:induction false} ShorterPart(part: seq<Claim>, whole: seq<Claim>)
    requires part != [] && IsSubsequence(part, whole)
    ensures IsSubsequence(part[..|part| - 1], whole)
  {
    if part[|part| - 1] == whole[|whole| - 1] {
      DroppingTheLast(part[..|part| - 1], whole);
    } else {
      ShorterPart(part, whole[..|whole| - 1]);
      DroppingTheLast(part[..|part| - 1], whole);
    }
  }

}
