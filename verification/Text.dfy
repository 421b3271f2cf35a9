/** Python's whitespace and the string methods built on it: `isspace`, `strip`, `split`, `join`. */
module Text {

  import opened Prelude

  predicate IsSpace(c: char) {
    var x := c as int;
    || 0x09 <= x <= 0x0D || 0x1C <= x <= 0x20 || x == 0x85 || x == 0xA0 || x == 0x1680
    || 0x2000 <= x <= 0x200A || x == 0x2028 || x == 0x2029 || x == 0x202F || x == 0x205F || x == 0x3000
  }

  /** The characters `str.isspace` accepts, by code point. */
  lemma WhiteSpaceIs(c: char)
    ensures IsSpace(c) <==> c as int in [
              9, 10, 11, 12, 13, 28, 29, 30, 31, 32, 133, 160, 5760, 8192, 8193, 8194, 8195, 8196, 8197, 8198, 8199,
              8200, 8201, 8202, 8232, 8233, 8239, 8287, 12288]
  {
  }

  predicate IsWord(s: string) {
    s != "" && forall c :: c in s ==> !IsSpace(c)
  }

  /** `s.split()`: the maximal runs of non-space characters. */
  function Split(s: string): (words: seq<string>)
    ensures s != "" && !IsSpace(s[0]) ==> |words| > 0
    ensures forall w :: w in words ==> IsWord(w)
  {
    if s == "" then []
    else if IsSpace(s[0]) then Split(s[1..])
    else if |s| == 1 || IsSpace(s[1]) then [[s[0]]] + Split(s[1..])
    else
      var rest := Split(s[1..]);
      assert IsWord(rest[0]) && IsWord([s[0]] + rest[0]);
      [[s[0]] + rest[0]] + rest[1..]
  }

  function Join(separator: string, parts: seq<string>): string {
    if |parts| == 0 then "" else if |parts| == 1 then parts[0] else parts[0] + separator + Join(separator, parts[1..])
  }

  /** The words of several texts, in order. */
  function AllWords(texts: seq<string>): seq<string> {
    if texts == [] then [] else AllWords(texts[..|texts| - 1]) + Split(texts[|texts| - 1])
  }

  function StripLeft(s: string): string {
    if s != "" && IsSpace(s[0]) then StripLeft(s[1..]) else s
  }

  function StripRight(s: string): string {
    if s != "" && IsSpace(s[|s| - 1]) then StripRight(s[..|s| - 1]) else s
  }

  /** `s.strip()`. */
  function Strip(s: string): string {
    StripRight(StripLeft(s))
  }

  /** `separator.join`: the texts with one separator between any two neighbours. */
  lemma {:induction false} JoinIs(separator: string, a: seq<string>, b: seq<string>)
    requires a != [] && b != []
    ensures Join(separator, a + b) == Join(separator, a) + separator + Join(separator, b)
    ensures Join(separator, []) == "" && Join(separator, [a[0]]) == a[0]
  {
    if |a| > 1 {
      JoinIs(separator, a[1..], b);
      assert (a + b)[1..] == a[1..] + b;
    } else {
      assert (a + b)[1..] == b;
    }
  }

  /** `strip` takes white space away at both ends and nothing else, and leaves none there. */
  lemma StripIs(s: string) returns (left: string, right: string)
    ensures s == left + Strip(s) + right
    ensures forall c :: c in left || c in right ==> IsSpace(c)
    ensures Strip(s) == "" || (!IsSpace(Strip(s)[0]) && !IsSpace(Strip(s)[|Strip(s)| - 1]))
  {
    left := StripLeftIs(s);
    right := StripRightIs(StripLeft(s));
    StripLeftStart(s);
    StripRightStart(StripLeft(s));
    AppendIsAssociative(left, Strip(s), right);
  }

  lemma {:induction false} StripLeftIs(s: string) returns (left: string)
    ensures s == left + StripLeft(s)
    ensures forall c :: c in left ==> IsSpace(c)
  {
    left := "";
    if s != "" && IsSpace(s[0]) {
      left := StripLeftIs(s[1..]);
      left := [s[0]] + left;
    }
  }

  lemma {:induction false} StripRightIs(s: string) returns (right: string)
    ensures s == StripRight(s) + right
    ensures forall c :: c in right ==> IsSpace(c)
  {
    right := "";
    if s != "" && IsSpace(s[|s| - 1]) {
      right := StripRightIs(s[..|s| - 1]);
      right := right + [s[|s| - 1]];
    }
  }

  /** The words of a text after a character is put in front of it. */
  function Prefixed(c: char, joins: bool, words: seq<string>): seq<string>
    requires joins ==> words != []
  {
    if IsSpace(c) then words else if joins then [[c] + words[0]] + words[1..] else [[c]] + words
  }

  predicate StartsWord(s: string) {
    s != "" && !IsSpace(s[0])
  }

  lemma SplitOfMore(c: char, s: string)
    ensures Split([c] + s) == Prefixed(c, StartsWord(s), Split(s))
  {
    assert ([c] + s)[1..] == s;
  }

  lemma PrefixedConcat(c: char, joins: bool, a: seq<string>, b: seq<string>)
    requires joins ==> a != []
    ensures Prefixed(c, joins, a + b) == Prefixed(c, joins, a) + b
  {
  }

  lemma FirstApart(a: string, space: char, b: string)
    requires a != ""
    ensures a == [a[0]] + a[1..] && a + [space] + b == [a[0]] + (a[1..] + [space] + b)
  {
    assert a == [a[0]] + a[1..];
    AppendIsAssociative([a[0]], a[1..], [space]);
    AppendIsAssociative([a[0]], a[1..] + [space], b);
  }

  /** A space between two texts keeps their words apart. */
  lemma {:induction false} SplitAtSpace(a: string, space: char, b: string)
    requires IsSpace(space)
    ensures Split(a + [space] + b) == Split(a) + Split(b)
  {
    if a == "" {
      assert "" + [space] + b == [space] + b;
      SplitOfMore(space, b);
    } else {
      SplitAtSpace(a[1..], space, b);
      SplitStep(a[0], a[1..], space, b);
      FirstApart(a, space, b);
    }
  }

  lemma SplitStep(c: char, a: string, space: char, b: string)
    requires IsSpace(space) && Split(a + [space] + b) == Split(a) + Split(b)
    ensures Split([c] + (a + [space] + b)) == Split([c] + a) + Split(b)
  {
    SplitOfMore(c, a);
    SplitOfMore(c, a + [space] + b);
    PrefixedConcat(c, StartsWord(a), Split(a), Split(b));
  }

  lemma {:induction false} SplitWord(w: string)
    requires IsWord(w)
    ensures Split(w) == [w]
  {
    if |w| > 1 {
      assert w[1] in w && IsWord(w[1..]);
      SplitWord(w[1..]);
      assert [w[0]] + w[1..] == w;
    } else {
      assert w == [w[0]];
    }
  }

  /** Joining words with a space and splitting again gives the words back. */
  lemma {:induction false} SplitJoinWords(words: seq<string>)
    requires forall w :: w in words ==> IsWord(w)
    ensures Split(Join(" ", words)) == words
  {
    if |words| == 1 {
      SplitWord(words[0]);
    } else if |words| > 1 {
      SplitJoinWords(words[1..]);
      SplitWord(words[0]);
      SplitAtSpace(words[0], ' ', Join(" ", words[1..]));
    }
  }

  lemma AllWordsOfOneMore(texts: seq<string>, text: string)
    ensures AllWords(texts + [text]) == AllWords(texts) + Split(text)
  {
    assert (texts + [text])[..|texts|] == texts;
  }

  lemma {:induction false} AllWordsOfConcat(a: seq<string>, b: seq<string>)
    ensures AllWords(a + b) == AllWords(a) + AllWords(b)
  {
    if b == [] {
      assert a + b == a;
    } else {
      AllWordsOfConcat(a, b[..|b| - 1]);
      AllWordsOfLonger(a, b[..|b| - 1], b[|b| - 1]);
      assert b == b[..|b| - 1] + [b[|b| - 1]];
    }
  }

  lemma AllWordsOfLonger(a: seq<string>, b: seq<string>, last: string)
    requires AllWords(a + b) == AllWords(a) + AllWords(b)
    ensures AllWords(a + (b + [last])) == AllWords(a) + AllWords(b + [last])
  {
    AppendIsAssociative(a, b, [last]);
    AllWordsOfOneMore(a + b, last);
    AllWordsOfOneMore(b, last);
    AppendIsAssociative(AllWords(a), AllWords(b), Split(last));
  }

  lemma AllWordsOfOne(text: string)
    ensures AllWords([text]) == Split(text) == Split(text) + AllWords([])
  {
    assert [text][..0] == [];
  }

  lemma AllWordsOfFirst(texts: seq<string>)
    requires texts != []
    ensures AllWords(texts) == Split(texts[0]) + AllWords(texts[1..])
  {
    AllWordsOfOne(texts[0]);
    AllWordsOfConcat([texts[0]], texts[1..]);
    assert [texts[0]] + texts[1..] == texts;
  }

  /** Joining texts with newlines keeps exactly the words of all of them, in order. */
  lemma {:induction false} SplitJoinLines(texts: seq<string>)
    ensures Split(Join("\n", texts)) == AllWords(texts)
  {
    if texts != [] {
      AllWordsOfFirst(texts);
      if |texts| > 1 {
        SplitJoinLines(texts[1..]);
        SplitAtSpace(texts[0], '\n', Join("\n", texts[1..]));
      }
    }
  }

  lemma {:induction false} SplitStripLeft(s: string)
    ensures Split(StripLeft(s)) == Split(s)
  {
    if s != "" && IsSpace(s[0]) {
      SplitStripLeft(s[1..]);
    }
  }

  lemma {:induction false} SplitStripRight(s: string)
    ensures Split(StripRight(s)) == Split(s)
  {
    if s != "" && IsSpace(s[|s| - 1]) {
      SplitStripRight(s[..|s| - 1]);
      SplitAtSpace(s[..|s| - 1], s[|s| - 1], "");
      assert s == s[..|s| - 1] + [s[|s| - 1]] + "";
    }
  }

  /** Stripping loses no word, and leaves nothing exactly when there was no word. */
  lemma SplitStrip(s: string)
    ensures Split(Strip(s)) == Split(s)
    ensures Strip(s) == "" <==> Split(s) == []
  {
    SplitStripLeft(s);
    SplitStripRight(StripLeft(s));
    StripLeftStart(s);
    StripRightStart(StripLeft(s));
  }

  lemma {:induction false} StripLeftStart(s: string)
    ensures StripLeft(s) == "" || !IsSpace(StripLeft(s)[0])
  {
    if s != "" && IsSpace(s[0]) {
      StripLeftStart(s[1..]);
    }
  }

  lemma {:induction false} StripRightStart(s: string)
    requires s == "" || !IsSpace(s[0])
    ensures s == "" <==> StripRight(s) == ""
    ensures StripRight(s) != "" ==> StripRight(s)[0] == s[0] && !IsSpace(StripRight(s)[|StripRight(s)| - 1])
  {
    if s != "" && IsSpace(s[|s| - 1]) {
      StripRightStart(s[..|s| - 1]);
    }
  }

}
