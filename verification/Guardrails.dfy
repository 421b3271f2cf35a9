/** Deterministic boundaries for untrusted evidence: the fragment scanner, the bounded decoder, the decision. */
module Guardrails {
  import opened Prelude

  const MAX_DECODE_CANDIDATES: nat := 8
  const MAX_DECODE_CHARACTERS: nat := 4096
  const CAP_MARKER: string := "__decode_candidate_cap__"

  // ---- the declarative split

  predicate IsData(c: char) {
    'A' <= c <= 'Z' || 'a' <= c <= 'z' || '0' <= c <= '9' || c in {'+', '/', '_', '-'}
  }

  predicate IsGap(c: char) {
    c in {' ', '\t', '\r', '\n'}
  }

  /** Characters that end a sequence of fragments. */
  predicate IsBreaker(c: char) {
    !IsData(c) && c != '=' && !IsGap(c)
  }

  /** The pieces of a text between the characters of a class: one more than there are such characters. */
  function PiecesAt(cut: char -> bool, s: string): (pieces: seq<string>)
    ensures pieces != []
  {
    if s == "" then [""]
    else
      var before := PiecesAt(cut, s[..|s| - 1]);
      var n := |before| - 1;
      if cut(s[|s| - 1]) then before + [""] else before[n := before[n] + [s[|s| - 1]]]
  }

  function NonEmpty(pieces: seq<string>): seq<string> {
    if pieces == [] then []
    else NonEmpty(pieces[..|pieces| - 1]) + if pieces[|pieces| - 1] == "" then [] else [pieces[|pieces| - 1]]
  }

  function Concat(pieces: seq<string>): string {
    if pieces == [] then "" else Concat(pieces[..|pieces| - 1]) + pieces[|pieces| - 1]
  }

  /** `s.rstrip("=")`. */
  function WithoutPadding(s: string): (data: string)
    ensures data <= s
  {
    if s != "" && s[|s| - 1] == '=' then WithoutPadding(s[..|s| - 1]) else s
  }

  predicate IsCandidate(joined: string) {
    var data := WithoutPadding(joined);
    && 8 <= |data| <= MAX_DECODE_CHARACTERS && |data| % 4 != 1
    && joined[|data|..] in {"", "=", "=="} && '=' !in data
  }

  function Fragments(run: string): seq<string> {
    NonEmpty(PiecesAt(IsGap, run))
  }

  /** What one run of alphabet, padding and white space contributes. */
  function Candidates(fragments: seq<string>): seq<string> {
    if |fragments| > 1 && IsCandidate(Concat(fragments)) then [Concat(fragments)] else []
  }

  function AllCandidates(runs: seq<string>): seq<string> {
    if runs == [] then [] else AllCandidates(runs[..|runs| - 1]) + Candidates(Fragments(runs[|runs| - 1]))
  }

  function Truncated(value: string): string {
    if |value| <= MAX_DECODE_CHARACTERS then value else value[..MAX_DECODE_CHARACTERS]
  }

  /** The joined candidates of the maximal runs of the truncated text. */
  function FragmentedTokens(value: string): seq<string> {
    AllCandidates(PiecesAt(IsBreaker, Truncated(value)))
  }

  // ---- the scanner

  function Finished(fragments: seq<string>, current: string): seq<string> {
    if current == "" then fragments else fragments + [current]
  }

  /** The scanner's two buffers for the run read so far. */
  ghost predicate Buffers(run: string, fragments: seq<string>, current: string) {
    var pieces := PiecesAt(IsGap, run);
    current == pieces[|pieces| - 1] && fragments == NonEmpty(pieces[..|pieces| - 1])
  }

  lemma BuffersFinish(run: string, fragments: seq<string>, current: string)
    requires Buffers(run, fragments, current)
    ensures Finished(fragments, current) == Fragments(run)
  {
  }

  lemma BuffersStart()
    ensures Buffers("", [], "")
  {
  }

  lemma BuffersGrow(run: string, fragments: seq<string>, current: string, c: char)
    requires Buffers(run, fragments, current) && !IsGap(c)
    ensures Buffers(run + [c], fragments, current + [c])
  {
    assert (run + [c])[..|run|] == run;
  }

  lemma BuffersGap(run: string, fragments: seq<string>, current: string, c: char)
    requires Buffers(run, fragments, current) && IsGap(c)
    ensures Buffers(run + [c], Finished(fragments, current), "")
  {
    assert (run + [c])[..|run|] == run;
    var pieces := PiecesAt(IsGap, run);
    assert (pieces + [""])[..|pieces|] == pieces;
  }

  function LastRun(s: string): string {
    var runs := PiecesAt(IsBreaker, s);
    runs[|runs| - 1]
  }

  function ClosedRuns(s: string): seq<string> {
    var runs := PiecesAt(IsBreaker, s);
    runs[..|runs| - 1]
  }

  lemma RunGrows(s: string, c: char)
    requires !IsBreaker(c)
    ensures LastRun(s + [c]) == LastRun(s) + [c] && ClosedRuns(s + [c]) == ClosedRuns(s)
  {
    assert (s + [c])[..|s|] == s;
  }

  lemma RunCloses(s: string, c: char)
    requires IsBreaker(c)
    ensures LastRun(s + [c]) == "" && ClosedRuns(s + [c]) == ClosedRuns(s) + [LastRun(s)]
  {
    assert (s + [c])[..|s|] == s;
  }

  lemma CandidatesOfOneMore(runs: seq<string>, run: string)
    ensures AllCandidates(runs + [run]) == AllCandidates(runs) + Candidates(Fragments(run))
  {
    assert (runs + [run])[..|runs|] == runs;
  }

  /** The scanner's state after the text s. */
  ghost predicate Scanned(s: string, tokens: seq<string>, fragments: seq<string>, current: string) {
    tokens == AllCandidates(ClosedRuns(s)) && Buffers(LastRun(s), fragments, current)
  }

  lemma ScanFragment(s: string, tokens: seq<string>, fragments: seq<string>, current: string, c: char)
    requires Scanned(s, tokens, fragments, current) && !IsBreaker(c) && !IsGap(c)
    ensures Scanned(s + [c], tokens, fragments, current + [c])
  {
    RunGrows(s, c);
    BuffersGrow(LastRun(s), fragments, current, c);
  }

  lemma ScanGap(s: string, tokens: seq<string>, fragments: seq<string>, current: string, c: char)
    requires Scanned(s, tokens, fragments, current) && IsGap(c)
    ensures Scanned(s + [c], tokens, Finished(fragments, current), "")
  {
    RunGrows(s, c);
    BuffersGap(LastRun(s), fragments, current, c);
  }

  lemma ScanBreaker(s: string, tokens: seq<string>, fragments: seq<string>, current: string, c: char)
    requires Scanned(s, tokens, fragments, current) && IsBreaker(c)
    ensures Scanned(s + [c], tokens + Candidates(Finished(fragments, current)), [], "")
  {
    RunCloses(s, c);
    BuffersFinish(LastRun(s), fragments, current);
    CandidatesOfOneMore(ClosedRuns(s), LastRun(s));
    BuffersStart();
  }

  lemma ScanEnd(s: string, tokens: seq<string>, fragments: seq<string>, current: string)
    requires Scanned(s, tokens, fragments, current)
    ensures tokens + Candidates(Finished(fragments, current)) == AllCandidates(PiecesAt(IsBreaker, s))
  {
    BuffersFinish(LastRun(s), fragments, current);
    CandidatesOfOneMore(ClosedRuns(s), LastRun(s));
    assert ClosedRuns(s) + [LastRun(s)] == PiecesAt(IsBreaker, s);
  }

  /** `_fragmented_base64_tokens`: the scanner that fills two buffers finds exactly the declarative candidates. */
  method FragmentedBase64Tokens(value: string) returns (tokens: seq<string>)
    ensures tokens == FragmentedTokens(value)
    ensures tokens == AllCandidates(PiecesAt(IsBreaker, if |value| <= 4096 then value else value[..4096]))
  {
    var fragments, current;
    tokens, fragments, current := ScanText(Truncated(value));
    ScanEnd(Truncated(value), tokens, fragments, current);
    tokens := tokens + Candidates(Finished(fragments, current));
  }

  method ScanText(text: string) returns (tokens: seq<string>, fragments: seq<string>, current: string)
    ensures Scanned(text, tokens, fragments, current)
  {
    tokens, fragments, current := [], [], "";
    BuffersStart();
    for i := 0 to |text|
      invariant Scanned(text[..i], tokens, fragments, current)
    {
      var c := text[i];
      assert text[..i + 1] == text[..i] + [c];
      if IsData(c) || c == '=' {
        ScanFragment(text[..i], tokens, fragments, current, c);
        current := current + [c];
      } else if IsGap(c) {
        ScanGap(text[..i], tokens, fragments, current, c);
        fragments, current := Finished(fragments, current), "";
      } else {
        ScanBreaker(text[..i], tokens, fragments, current, c);
        tokens := tokens + Candidates(Finished(fragments, current));
        fragments, current := [], "";
      }
    }
    assert text[..|text|] == text;
  }

  // ---- what the split means

  /** What is left of a text when the characters of a class are dropped. */
  function Without(cut: char -> bool, s: string): string {
    if s == "" then "" else Without(cut, s[..|s| - 1]) + if cut(s[|s| - 1]) then "" else [s[|s| - 1]]
  }

  /** The characters of a class in a text, in order. */
  function Cuts(cut: char -> bool, s: string): string {
    if s == "" then "" else Cuts(cut, s[..|s| - 1]) + if cut(s[|s| - 1]) then [s[|s| - 1]] else ""
  }

  /** Pieces with the cut characters put back between them. */
  function Woven(pieces: seq<string>, cuts: string): string
    requires |pieces| == |cuts| + 1
  {
    var n := |cuts|;
    if n == 0 then pieces[0] else Woven(pieces[..n], cuts[..n - 1]) + [cuts[n - 1]] + pieces[n]
  }

  lemma WovenAfterCut(pieces: seq<string>, cuts: string, c: char)
    requires |pieces| == |cuts| + 1
    ensures Woven(pieces + [""], cuts + [c]) == Woven(pieces, cuts) + [c]
  {
    assert (pieces + [""])[..|pieces|] == pieces && (cuts + [c])[..|cuts|] == cuts;
  }

  lemma WovenGrows(pieces: seq<string>, cuts: string, c: char)
    requires |pieces| == |cuts| + 1
    ensures Woven(pieces[|cuts| := pieces[|cuts|] + [c]], cuts) == Woven(pieces, cuts) + [c]
  {
    assert pieces[|cuts| := pieces[|cuts|] + [c]][..|cuts|] == pieces[..|cuts|];
  }

  predicate HoldsNone(cut: char -> bool, piece: string) {
    forall c :: c in piece ==> !cut(c)
  }

  /** The split of a text at a class: no piece holds a character of it, and with those characters put
      back between them the pieces are the text; so together they hold all the others. */
  predicate IsSplit(cut: char -> bool, s: string, pieces: seq<string>) {
    && |pieces| == |Cuts(cut, s)| + 1 && Woven(pieces, Cuts(cut, s)) == s
    && (forall k :: 0 <= k < |pieces| ==> HoldsNone(cut, pieces[k]))
    && Concat(pieces) == Without(cut, s)
  }

  lemma OneMoreCharacter(cut: char -> bool, s: string, c: char)
    ensures Cuts(cut, s + [c]) == Cuts(cut, s) + if cut(c) then [c] else ""
    ensures Without(cut, s + [c]) == Without(cut, s) + if cut(c) then "" else [c]
  {
    assert (s + [c])[..|s|] == s;
  }

  lemma SplitAfterCut(cut: char -> bool, s: string, pieces: seq<string>, c: char)
    requires IsSplit(cut, s, pieces) && cut(c)
    ensures IsSplit(cut, s + [c], pieces + [""])
  {
    OneMoreCharacter(cut, s, c);
    WovenAfterCut(pieces, Cuts(cut, s), c);
    assert (pieces + [""])[..|pieces|] == pieces;
  }

  lemma SplitGrows(cut: char -> bool, s: string, pieces: seq<string>, c: char)
    requires IsSplit(cut, s, pieces) && !cut(c)
    ensures IsSplit(cut, s + [c], pieces[|pieces| - 1 := pieces[|pieces| - 1] + [c]])
  {
    var n := |pieces| - 1;
    OneMoreCharacter(cut, s, c);
    WovenGrows(pieces, Cuts(cut, s), c);
    assert Cuts(cut, s) + "" == Cuts(cut, s);
    ConcatGrows(pieces, c);
  }

  lemma ConcatGrows(pieces: seq<string>, c: char)
    requires pieces != []
    ensures Concat(pieces[|pieces| - 1 := pieces[|pieces| - 1] + [c]]) == Concat(pieces) + [c]
  {
    var longer := pieces[|pieces| - 1 := pieces[|pieces| - 1] + [c]];
    assert longer[..|pieces| - 1] == pieces[..|pieces| - 1];
  }

  lemma {:induction false} PiecesAreTheSplit(cut: char -> bool, s: string)
    ensures IsSplit(cut, s, PiecesAt(cut, s))
  {
    if s == "" {
      assert [""][..0] == [];
    } else {
      var init, c := s[..|s| - 1], s[|s| - 1];
      PiecesAreTheSplit(cut, init);
      assert s == init + [c];
      if cut(c) {
        SplitAfterCut(cut, init, PiecesAt(cut, init), c);
      } else {
        SplitGrows(cut, init, PiecesAt(cut, init), c);
      }
    }
  }

  lemma {:induction false} ConcatNonEmpty(pieces: seq<string>)
    ensures Concat(NonEmpty(pieces)) == Concat(pieces)
  {
    if pieces != [] {
      var init, last := pieces[..|pieces| - 1], pieces[|pieces| - 1];
      ConcatNonEmpty(init);
      if last != "" {
        assert (NonEmpty(init) + [last])[..|NonEmpty(init)|] == NonEmpty(init);
      } else {
        assert NonEmpty(pieces) == NonEmpty(init);
      }
    }
  }

  /** Every token is a run without its white space, and of a decodable shape. */
  lemma {:induction false} TokensAreJoinedRuns(runs: seq<string>, k: nat) returns (r: nat)
    requires k < |AllCandidates(runs)|
    ensures r < |runs| && AllCandidates(runs)[k] == Without(IsGap, runs[r]) && IsCandidate(AllCandidates(runs)[k])
    ensures |Fragments(runs[r])| > 1
  {
    var n := |runs| - 1;
    if k < |AllCandidates(runs[..n])| {
      r := TokensAreJoinedRuns(runs[..n], k);
    } else {
      r := n;
      ConcatNonEmpty(PiecesAt(IsGap, runs[n]));
      PiecesAreTheSplit(IsGap, runs[n]);
    }
  }

  /** The three classes of characters, by code point: the alphabet of either Base64 variant, the white space
      that may separate fragments, and everything else but the padding. */
  lemma ClassesAre(c: char)
    ensures var x := c as int;
            && (IsData(c) <==>
                  || 48 <= x <= 57 || 65 <= x <= 90 || 97 <= x <= 122 || x == 43 || x == 45 || x == 47 || x == 95)
            && (IsGap(c) <==> x == 9 || x == 10 || x == 13 || x == 32)
            && (IsBreaker(c) <==> !IsData(c) && !IsGap(c) && x != 61)
  {
  }

  /** A candidate is data of 8 to 4096 characters, of a length that some byte count has, and at most two
      padding characters, all at the end. */
  lemma {:induction false} CandidateIs(data: string, padding: string)
    requires (data == "" || data[|data| - 1] != '=') && forall c :: c in padding ==> c == '='
    ensures IsCandidate(data + padding) <==>
            8 <= |data| <= 4096 && |data| % 4 != 1 && |padding| <= 2 && forall c :: c in data ==> c != '='
  {
    PaddingIsCut(data, padding);
    assert (data + padding)[|data|..] == padding;
    if |padding| == 1 {
      assert padding[0] in padding && padding == "=";
    } else if |padding| == 2 {
      assert padding[0] in padding && padding[1] in padding && padding == "==";
    }
  }

  lemma {:induction false} PaddingIsCut(data: string, padding: string)
    requires (data == "" || data[|data| - 1] != '=') && forall c :: c in padding ==> c == '='
    ensures WithoutPadding(data + padding) == data
  {
    if padding == "" {
      assert data + padding == data;
    } else {
      var init := padding[..|padding| - 1];
      assert padding[|padding| - 1] in padding && forall c :: c in init ==> c in padding;
      PaddingIsCut(data, init);
      assert (data + padding)[..|data + padding| - 1] == data + init;
    }
  }

  /** Every run is a token when white space breaks it into fragments that join to a candidate; no other run is. */
  lemma CandidatesAre(runs: seq<string>, run: string, pieces: seq<string>, piece: string)
    ensures AllCandidates([]) == [] && Fragments(run) == NonEmpty(PiecesAt(IsGap, run)) && NonEmpty([]) == []
    ensures NonEmpty(pieces + [piece]) == NonEmpty(pieces) + if piece == "" then [] else [piece]
    ensures AllCandidates(runs + [run]) == AllCandidates(runs) +
              if |Fragments(run)| > 1 && IsCandidate(Without(IsGap, run)) then [Without(IsGap, run)] else []
  {
    CandidatesOfOneMore(runs, run);
    ConcatNonEmpty(PiecesAt(IsGap, run));
    PiecesAreTheSplit(IsGap, run);
    assert (pieces + [piece])[..|pieces|] == pieces;
  }

  // ---- bounded decoding

  /** The regular expressions and the decoder. */
  datatype Decoder = Decoder(base64: string -> seq<string>, hex: string -> seq<string>,
      decode: string -> Option<string>)

  function Tokens(d: Decoder, value: string): seq<string> {
    d.base64(value) + FragmentedTokens(value) + d.hex(value)
  }

  /** The decoded texts a token list adds to those known. */
  function Known(d: Decoder, known: seq<string>, tokens: seq<string>): seq<string> {
    if tokens == [] then known
    else
      var before := Known(d, known, tokens[..|tokens| - 1]);
      var decoded := d.decode(tokens[|tokens| - 1]);
      if decoded.Some? && decoded.value !in before then before + [decoded.value] else before
  }

  function AllTokens(d: Decoder, values: seq<string>): seq<string> {
    if values == [] then [] else AllTokens(d, values[..|values| - 1]) + Tokens(d, values[|values| - 1])
  }

  /** Everything that two levels of decoding reach, without any bound. */
  function Reached(d: Decoder, text: string): seq<string> {
    var first := Known(d, [], Tokens(d, Truncated(text)));
    Known(d, first, AllTokens(d, first))
  }

  function Capped(all: seq<string>): seq<string> {
    if |all| >= MAX_DECODE_CANDIDATES then all[..MAX_DECODE_CANDIDATES] + [CAP_MARKER] else all
  }

  lemma {:induction false} KnownGrows(d: Decoder, known: seq<string>, tokens: seq<string>)
    ensures known <= Known(d, known, tokens)
  {
    if tokens != [] {
      KnownGrows(d, known, tokens[..|tokens| - 1]);
    }
  }

  lemma {:induction false} KnownConcat(d: Decoder, known: seq<string>, a: seq<string>, b: seq<string>)
    ensures Known(d, known, a + b) == Known(d, Known(d, known, a), b)
  {
    if b == [] {
      assert a + b == a;
    } else {
      assert (a + b)[..|a + b| - 1] == a + b[..|b| - 1];
      KnownConcat(d, known, a, b[..|b| - 1]);
    }
  }

  lemma {:induction false} KnownHasNoRepeats(d: Decoder, known: seq<string>, tokens: seq<string>)
    requires NoRepeats(known)
    ensures NoRepeats(Known(d, known, tokens))
  {
    if tokens != [] {
      KnownHasNoRepeats(d, known, tokens[..|tokens| - 1]);
      var before := Known(d, known, tokens[..|tokens| - 1]);
      assert forall i :: 0 <= i < |before| ==> before[i] in before;
    }
  }

  /** Decoding the tokens of one text: stops as soon as the bound is reached. */
  method DecodeTokens(d: Decoder, tokens: seq<string>, known: seq<string>)
    returns (candidates: seq<string>, capped: bool)
    requires |known| < MAX_DECODE_CANDIDATES
    ensures capped <==> |Known(d, known, tokens)| >= MAX_DECODE_CANDIDATES
    ensures !capped ==> candidates == Known(d, known, tokens)
    ensures capped ==> |candidates| == MAX_DECODE_CANDIDATES && candidates <= Known(d, known, tokens)
  {
    candidates := known;
    for i := 0 to |tokens|
      invariant candidates == Known(d, known, tokens[..i]) && |candidates| < MAX_DECODE_CANDIDATES
    {
      assert tokens[..i + 1][..i] == tokens[..i];
      var decoded := d.decode(tokens[i]);
      if decoded.Some? && decoded.value !in candidates {
        candidates := candidates + [decoded.value];
        if |candidates| >= MAX_DECODE_CANDIDATES {
          KnownConcat(d, known, tokens[..i + 1], tokens[i + 1..]);
          KnownGrows(d, candidates, tokens[i + 1..]);
          assert tokens[..i + 1] + tokens[i + 1..] == tokens;
          return candidates, true;
        }
      }
    }
    assert tokens[..|tokens|] == tokens;
    capped := false;
  }

  /** One level: all pending texts, each token list in turn. */
  method DecodeLevel(d: Decoder, pending: seq<string>, known: seq<string>)
    returns (candidates: seq<string>, capped: bool)
    requires |known| < MAX_DECODE_CANDIDATES
    ensures capped <==> |Known(d, known, AllTokens(d, pending))| >= MAX_DECODE_CANDIDATES
    ensures !capped ==> candidates == Known(d, known, AllTokens(d, pending))
    ensures capped ==> |candidates| == MAX_DECODE_CANDIDATES && candidates <= Known(d, known, AllTokens(d, pending))
  {
    candidates, capped := known, false;
    for i := 0 to |pending|
      invariant candidates == Known(d, known, AllTokens(d, pending[..i])) && |candidates| < MAX_DECODE_CANDIDATES
    {
      assert pending[..i + 1][..i] == pending[..i];
      var fragmented := FragmentedBase64Tokens(pending[i]);
      var tokens := d.base64(pending[i]) + fragmented + d.hex(pending[i]);
      KnownConcat(d, known, AllTokens(d, pending[..i]), tokens);
      candidates, capped := DecodeTokens(d, tokens, candidates);
      if capped {
        LaterTokens(d, known, pending, i + 1);
        return;
      }
    }
    assert pending[..|pending|] == pending;
  }

  lemma OneMorePending(d: Decoder, known: seq<string>, pending: seq<string>, i: nat)
    requires i < |pending|
    ensures Known(d, known, AllTokens(d, pending[..i])) <= Known(d, known, AllTokens(d, pending[..i + 1]))
  {
    var before, more := AllTokens(d, pending[..i]), Tokens(d, pending[i]);
    assert pending[..i + 1][..i] == pending[..i];
    assert AllTokens(d, pending[..i + 1]) == before + more;
    KnownConcat(d, known, before, more);
    KnownGrows(d, Known(d, known, before), more);
  }

  lemma {:induction false} LaterTokens(d: Decoder, known: seq<string>, pending: seq<string>, i: nat)
    requires i <= |pending|
    ensures Known(d, known, AllTokens(d, pending[..i])) <= Known(d, known, AllTokens(d, pending))
    decreases |pending| - i
  {
    if i < |pending| {
      LaterTokens(d, known, pending, i + 1);
      OneMorePending(d, known, pending, i);
    } else {
      assert pending[..i] == pending;
    }
  }

  /** `_decoded_text_candidates`: at most eight texts and the marker, and never anything else than the
      unbounded decoding, cut off at the bound. */
  method DecodedTextCandidates(d: Decoder, text: string) returns (candidates: seq<string>)
    ensures candidates == Capped(Reached(d, text))
    ensures var value := if |text| <= 4096 then text else text[..4096];
            var first := Known(d, [], d.base64(value) + FragmentedTokens(value) + d.hex(value));
            var all := Known(d, first, AllTokens(d, first));
            candidates == if |all| < 8 then all else all[..8] + ["__decode_candidate_cap__"]
  {
    ghost var first := Known(d, [], Tokens(d, Truncated(text)));
    OneText(d, Truncated(text));
    KnownGrows(d, first, AllTokens(d, first));
    var capped;
    candidates, capped := DecodeLevel(d, [Truncated(text)], []);
    if capped {
      CutOff(candidates, Reached(d, text));
      return candidates + [CAP_MARKER];
    }
    if candidates == [] {
      return;
    }
    candidates, capped := DecodeLevel(d, candidates, candidates);
    if capped {
      CutOff(candidates, Reached(d, text));
      candidates := candidates + [CAP_MARKER];
    }
  }

  lemma OneText(d: Decoder, value: string)
    ensures AllTokens(d, [value]) == Tokens(d, value)
  {
    assert [value][..0] == [];
  }

  lemma CutOff(candidates: seq<string>, all: seq<string>)
    requires candidates <= all && |candidates| == MAX_DECODE_CANDIDATES
    ensures candidates + [CAP_MARKER] == Capped(all)
  {
  }

  /** What the decoder reaches: a token adds its decoded text unless that is known, and each text in turn offers
      its Base64, its fragmented and its hexadecimal tokens. */
  lemma KnownIs(d: Decoder, known: seq<string>, tokens: seq<string>, token: string, values: seq<string>, value: string)
    ensures Known(d, known, []) == known
    ensures var before, decoded := Known(d, known, tokens), d.decode(token);
            Known(d, known, tokens + [token]) ==
              before + if decoded.Some? && decoded.value !in before then [decoded.value] else []
    ensures AllTokens(d, []) == []
    ensures AllTokens(d, values + [value]) ==
              AllTokens(d, values) + (d.base64(value) + FragmentedTokens(value) + d.hex(value))
  {
    assert (tokens + [token])[..|tokens|] == tokens && (values + [value])[..|values|] == values;
  }

  /** At most eight distinct decoded texts. */
  lemma CandidatesAreBounded(d: Decoder, text: string)
    ensures var all := Reached(d, text);
            NoRepeats(all) && |Capped(all)| <= MAX_DECODE_CANDIDATES + 1
            && (|Capped(all)| == MAX_DECODE_CANDIDATES + 1 <==> |all| >= MAX_DECODE_CANDIDATES)
  {
    KnownHasNoRepeats(d, [], Tokens(d, Truncated(text)));
    var first := Known(d, [], Tokens(d, Truncated(text)));
    KnownHasNoRepeats(d, first, AllTokens(d, first));
  }

  // ---- the decision

  datatype Status = Allow | Review | Block

  /** The three patterns of prohibited text. */
  datatype Patterns = Patterns(exfiltration: string -> bool, action: string -> bool, instruction: string -> bool)

  predicate Prohibited(p: Patterns, text: string) {
    text == CAP_MARKER || p.exfiltration(text) || p.action(text) || p.instruction(text)
  }

  predicate AnyProhibited(p: Patterns, candidates: seq<string>) {
    exists i :: 0 <= i < |candidates| && Prohibited(p, candidates[i])
  }

  datatype Item = Item(anchor: string, text: string)

  predicate Blocks(p: Patterns, d: Decoder, allowed: set<string>, item: Item) {
    item.anchor !in allowed || p.exfiltration(item.text) || p.action(item.text)
      || AnyProhibited(p, Capped(Reached(d, item.text)))
  }

  /** A reason to review that is no reason to block: an instruction marker behind no stronger pattern. */
  predicate Reviews(p: Patterns, item: Item) {
    !p.exfiltration(item.text) && !p.action(item.text) && p.instruction(item.text)
  }

  predicate AnyItem(test: Item -> bool, evidence: seq<Item>) {
    exists i :: 0 <= i < |evidence| && test(evidence[i])
  }

  function BlockTest(p: Patterns, d: Decoder, allowed: set<string>): Item -> bool {
    item => Blocks(p, d, allowed, item)
  }

  function ReviewTest(p: Patterns): Item -> bool {
    item => Reviews(p, item)
  }

  predicate AnyBlocks(p: Patterns, d: Decoder, allowed: set<string>, evidence: seq<Item>) {
    AnyItem(BlockTest(p, d, allowed), evidence)
  }

  predicate AnyReviews(p: Patterns, evidence: seq<Item>) {
    AnyItem(ReviewTest(p), evidence)
  }

  datatype Reason = UnknownAnchor | Exfiltration | Action | Instruction | Encoded

  function AddReason(reasons: seq<Reason>, r: Reason): (s: seq<Reason>)
    ensures forall x :: x in s <==> x in reasons || x == r
    ensures reasons <= s && |s| == if r in reasons then |reasons| else |reasons| + 1
  {
    if r in reasons then reasons else reasons + [r]
  }

  predicate Blocking(r: Reason) {
    r != Instruction
  }

  predicate HasBlocking(reasons: seq<Reason>) {
    exists r :: r in reasons && Blocking(r)
  }

  lemma OneMoreItem(test: Item -> bool, evidence: seq<Item>, i: nat)
    requires i < |evidence|
    ensures AnyItem(test, evidence[..i + 1]) <==> AnyItem(test, evidence[..i]) || test(evidence[i])
  {
    var before, after := evidence[..i], evidence[..i + 1];
    assert after[i] == evidence[i];
    assert forall j :: 0 <= j < i ==> after[j] == before[j];
  }

  /** The reasons an item gives, in the order they are looked for. */
  function ItemReasons(p: Patterns, d: Decoder, allowed: set<string>, item: Item): seq<Reason> {
    (if item.anchor !in allowed then [UnknownAnchor] else [])
    + (if p.exfiltration(item.text) then [Exfiltration]
       else if p.action(item.text) then [Action]
       else if p.instruction(item.text) then [Instruction] else [])
    + (if AnyProhibited(p, Capped(Reached(d, item.text))) then [Encoded] else [])
  }

  function AddAll(reasons: seq<Reason>, more: seq<Reason>): seq<Reason>
    decreases |more|
  {
    if more == [] then reasons else AddAll(AddReason(reasons, more[0]), more[1..])
  }

  /** The reasons of the evidence, each once, in the order they come up. */
  function Reasons(p: Patterns, d: Decoder, allowed: set<string>, evidence: seq<Item>): seq<Reason> {
    if evidence == [] then []
    else
      var n := |evidence| - 1;
      AddAll(Reasons(p, d, allowed, evidence[..n]), ItemReasons(p, d, allowed, evidence[n]))
  }

  /** `validate_untrusted_evidence`. */
  method ValidateUntrustedEvidence(p: Patterns, d: Decoder, allowed: set<string>, evidence: seq<Item>)
    returns (status: Status, reasons: seq<Reason>)
    ensures status == Block <==> AnyBlocks(p, d, allowed, evidence)
    ensures status == Review <==> !AnyBlocks(p, d, allowed, evidence) && AnyReviews(p, evidence)
    ensures reasons == Reasons(p, d, allowed, evidence)
  {
    reasons := [];
    for i := 0 to |evidence|
      invariant HasBlocking(reasons) <==> AnyBlocks(p, d, allowed, evidence[..i])
      invariant Instruction in reasons <==> AnyReviews(p, evidence[..i])
      invariant reasons == Reasons(p, d, allowed, evidence[..i])
    {
      OneMoreItem(BlockTest(p, d, allowed), evidence, i);
      OneMoreItem(ReviewTest(p), evidence, i);
      var item := evidence[i];
      assert evidence[..i + 1][..i] == evidence[..i];
      var candidates := DecodedTextCandidates(d, item.text);
      reasons := AddReasons(p, d, allowed, item, candidates, reasons);
    }
    assert evidence[..|evidence|] == evidence;
    status := if HasBlocking(reasons) then Block else if reasons != [] then Review else Allow;
    if reasons != [] && status != Block {
      assert reasons[0] in reasons;
    }
  }

  method AddReasons(p: Patterns, ghost d: Decoder, allowed: set<string>, item: Item, candidates: seq<string>,
                    before: seq<Reason>)
    returns (reasons: seq<Reason>)
    requires candidates == Capped(Reached(d, item.text))
    ensures reasons == AddAll(before, ItemReasons(p, d, allowed, item))
    ensures HasBlocking(reasons) <==>
              HasBlocking(before)
              || item.anchor !in allowed || p.exfiltration(item.text) || p.action(item.text)
                 || AnyProhibited(p, candidates)
    ensures Instruction in reasons <==> Instruction in before || Reviews(p, item)
  {
    reasons := before;
    if item.anchor !in allowed {
      reasons := AddReason(reasons, UnknownAnchor);
    }
    if p.exfiltration(item.text) {
      reasons := AddReason(reasons, Exfiltration);
    } else if p.action(item.text) {
      reasons := AddReason(reasons, Action);
    } else if p.instruction(item.text) {
      reasons := AddReason(reasons, Instruction);
    }
    if AnyProhibited(p, candidates) {
      reasons := AddReason(reasons, Encoded);
    }
    AddInTurn(p, d, allowed, item, before);
  }

  lemma AddInTurn(p: Patterns, d: Decoder, allowed: set<string>, item: Item, before: seq<Reason>)
    ensures var first := if item.anchor !in allowed then AddReason(before, UnknownAnchor) else before;
            var second := if p.exfiltration(item.text) then AddReason(first, Exfiltration)
              else if p.action(item.text) then AddReason(first, Action)
              else if p.instruction(item.text) then AddReason(first, Instruction) else first;
            AddAll(before, ItemReasons(p, d, allowed, item)) ==
              if AnyProhibited(p, Capped(Reached(d, item.text))) then AddReason(second, Encoded) else second
  {
    var a := if item.anchor !in allowed then [UnknownAnchor] else [];
    var b := if p.exfiltration(item.text) then [Exfiltration]
      else if p.action(item.text) then [Action]
      else if p.instruction(item.text) then [Instruction] else [];
    var c := if AnyProhibited(p, Capped(Reached(d, item.text))) then [Encoded] else [];
    AddAllConcat(before, a + b, c);
    AddAllConcat(before, a, b);
    AddAtMostOne(before, a);
    AddAtMostOne(AddAll(before, a), b);
    AddAtMostOne(AddAll(AddAll(before, a), b), c);
  }

  lemma AddAtMostOne(reasons: seq<Reason>, more: seq<Reason>)
    requires |more| <= 1
    ensures AddAll(reasons, more) == if more == [] then reasons else AddReason(reasons, more[0])
  {
  }

  lemma {:induction false} AddAllConcat(reasons: seq<Reason>, a: seq<Reason>, b: seq<Reason>)
    ensures AddAll(reasons, a + b) == AddAll(AddAll(reasons, a), b)
    decreases |a|
  {
    if a == [] {
      assert a + b == b;
    } else {
      assert (a + b)[1..] == a[1..] + b;
      AddAllConcat(AddReason(reasons, a[0]), a[1..], b);
    }
  }

  /** What each item adds to the reasons of those before it. */
  lemma ReasonsAre(p: Patterns, d: Decoder, allowed: set<string>, evidence: seq<Item>, item: Item)
    ensures Reasons(p, d, allowed, []) == []
    ensures var before := Reasons(p, d, allowed, evidence);
            var one := if item.anchor !in allowed then AddReason(before, UnknownAnchor) else before;
            var two := if p.exfiltration(item.text) then AddReason(one, Exfiltration)
              else if p.action(item.text) then AddReason(one, Action)
              else if p.instruction(item.text) then AddReason(one, Instruction) else one;
            Reasons(p, d, allowed, evidence + [item]) ==
              if ReachesProhibited(p, d, item.text) then AddReason(two, Encoded) else two
  {
    assert (evidence + [item])[..|evidence|] == evidence;
    AddInTurn(p, d, allowed, item, Reasons(p, d, allowed, evidence));
    CappedProhibits(p, Reached(d, item.text));
  }

  /** A text that two levels of decoding reach matches a pattern, or the bound of eight texts is reached. */
  ghost predicate ReachesProhibited(p: Patterns, d: Decoder, text: string) {
    || |Reached(d, text)| >= 8
    || exists s :: s in Reached(d, text) &&
         (s == "__decode_candidate_cap__" || p.exfiltration(s) || p.action(s) || p.instruction(s))
  }

  lemma CappedProhibits(p: Patterns, all: seq<string>)
    ensures AnyProhibited(p, Capped(all)) <==>
            || |all| >= 8
            || exists s :: s in all &&
                 (s == "__decode_candidate_cap__" || p.exfiltration(s) || p.action(s) || p.instruction(s))
  {
    if |all| >= 8 {
      assert Prohibited(p, Capped(all)[8]);
    } else {
      assert Capped(all) == all;
      forall i | 0 <= i < |all| && Prohibited(p, all[i]) ensures all[i] in all {
      }
    }
  }

  /** An unknown anchor, a pattern of exfiltration or action, or anything prohibited behind an encoding. */
  ghost predicate GivesBlock(p: Patterns, d: Decoder, allowed: set<string>, item: Item) {
    || item.anchor !in allowed || p.exfiltration(item.text) || p.action(item.text)
    || ReachesProhibited(p, d, item.text)
  }

  /** An instruction, behind neither of the stronger patterns. */
  ghost predicate GivesReview(p: Patterns, item: Item) {
    !p.exfiltration(item.text) && !p.action(item.text) && p.instruction(item.text)
  }

  /** The decision in full. */
  lemma DecisionIs(p: Patterns, d: Decoder, allowed: set<string>, evidence: seq<Item>)
    ensures AnyBlocks(p, d, allowed, evidence) <==>
            exists i :: 0 <= i < |evidence| && GivesBlock(p, d, allowed, evidence[i])
    ensures AnyReviews(p, evidence) <==> exists i :: 0 <= i < |evidence| && GivesReview(p, evidence[i])
  {
    forall i | 0 <= i < |evidence|
      ensures BlockTest(p, d, allowed)(evidence[i]) <==> GivesBlock(p, d, allowed, evidence[i])
      ensures ReviewTest(p)(evidence[i]) <==> GivesReview(p, evidence[i])
    {
      CappedProhibits(p, Reached(d, evidence[i].text));
    }
  }

  /** Reaching the decode bound always blocks. */
  lemma CapBlocks(p: Patterns, d: Decoder, allowed: set<string>, evidence: seq<Item>, i: nat)
    requires i < |evidence| && |Reached(d, evidence[i].text)| >= MAX_DECODE_CANDIDATES
    ensures AnyBlocks(p, d, allowed, evidence)
  {
    var candidates := Capped(Reached(d, evidence[i].text));
    assert Prohibited(p, candidates[MAX_DECODE_CANDIDATES]);
    assert BlockTest(p, d, allowed)(evidence[i]);
  }

  /** Below the bound nothing decodable escapes the patterns: an item passes only when every text that two
      levels of decoding reach is clean. */
  lemma AllowedIsClean(p: Patterns, d: Decoder, allowed: set<string>, item: Item, text: string)
    requires !Blocks(p, d, allowed, item) && text in Reached(d, item.text)
    ensures !Prohibited(p, text)
  {
    var all := Reached(d, item.text);
    if |all| >= MAX_DECODE_CANDIDATES {
      CapBlocks(p, d, allowed, [item], 0);
    }
    var i :| 0 <= i < |all| && all[i] == text;
    assert Capped(all)[i] == text;
  }

}
