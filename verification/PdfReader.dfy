/** A reader for the printed file: it starts at `startxref`, follows the cross-reference entries and
    references (ISO 32000-1 sections 7.5.4 and 7.5.5), takes the stream by its length (section 7.3.8), and
    decodes the literal strings (section 7.3.4.2). */
module PdfReader {
  import opened Prelude
  import opened Decimal

  function Literal(file: string, i: nat, text: string): (r: Option<nat>)
    ensures r.Some? ==> r.value == i + |text| <= |file|
  {
    if i + |text| <= |file| && file[i..i + |text|] == text then Some(i + |text|) else None
  }

  function DigitsEnd(file: string, i: nat): (e: nat)
    requires i <= |file|
    ensures i <= e <= |file| && AllDigits(file[i..e]) && (e < |file| ==> !IsDigit(file[e]))
    decreases |file| - i
  {
    if i < |file| && IsDigit(file[i]) then
      var e := DigitsEnd(file, i + 1);
      assert file[i..e] == [file[i]] + file[i + 1..e];
      e
    else i
  }

  /** A number and where it ends. */
  function Number(file: string, i: nat): (r: Option<(nat, nat)>)
    ensures r.Some? ==> i < r.value.1 <= |file|
  {
    if i > |file| || DigitsEnd(file, i) == i then None
    else Some((Read(file[i..DigitsEnd(file, i)]), DigitsEnd(file, i)))
  }

  function DigitsStart(file: string, e: nat): (s: nat)
    requires e <= |file|
    ensures s <= e && AllDigits(file[s..e]) && (s > 0 ==> !IsDigit(file[s - 1]))
  {
    if e > 0 && IsDigit(file[e - 1]) then
      var s := DigitsStart(file, e - 1);
      assert file[s..e] == file[s..e - 1] + [file[e - 1]];
      s
    else e
  }

  const EOF: string := "\n%%EOF\n"
  const STARTXREF: string := "startxref\n"

  function StartXref(file: string): Option<nat> {
    if |file| < |EOF| || file[|file| - |EOF|..] != EOF then None
    else
      var e := |file| - |EOF|;
      var s := DigitsStart(file, e);
      if s == e || s < |STARTXREF| || file[s - |STARTXREF|..s] != STARTXREF then None else Some(Read(file[s..e]))
  }

  /** A cross-reference section: its number of entries and where they begin. */
  datatype Table = Table(size: nat, base: nat)

  const XREF: string := "xref\n0 "

  function XrefTable(file: string): Option<Table> {
    var xref :- StartXref(file);
    var i :- Literal(file, xref, XREF);
    var size :- Number(file, i);
    var base :- Literal(file, size.1, "\n");
    Some(Table(size.0, base))
  }

  /** Entry n: ten digits, a space, five digits, a space, `n`, and a two-character end of line. */
  function EntryOffset(file: string, t: Table, n: nat): Option<nat> {
    var at := t.base + 20 * n;
    if n >= t.size || at + 20 > |file| then None
    else
      var entry := file[at..at + 20];
      if AllDigits(entry[..10]) && entry[10..] == " 00000 n \n" then Some(Read(entry[..10])) else None
  }

  /** Where the body of object n begins. */
  function ObjectAt(file: string, t: Table, n: nat): Option<nat> {
    var offset :- EntryOffset(file, t, n);
    var number :- Number(file, offset);
    if number.0 != n then None else Literal(file, number.1, " 0 obj\n")
  }

  function Reference(file: string, i: nat, key: string): Option<nat> {
    var j :- Literal(file, i, key);
    var number :- Number(file, j);
    var end :- Literal(file, number.1, " 0 R");
    Some(number.0)
  }

  const TRAILER: string := "trailer\n<< /Size "
  const ROOT_KEY: string := " /Root "

  function Root(file: string, t: Table): Option<nat> {
    var i :- Literal(file, t.base + 20 * t.size, TRAILER);
    var size :- Number(file, i);
    Reference(file, size.1, ROOT_KEY)
  }

  const LENGTH: string := "<< /Length "
  const STREAM: string := " >>\nstream\n"

  function StreamAt(file: string, i: nat): Option<string> {
    var j :- Literal(file, i, LENGTH);
    var length :- Number(file, j);
    var k :- Literal(file, length.1, STREAM);
    var end :- Literal(file, k + length.0, "endstream");
    Some(file[k..k + length.0])
  }

  const CATALOG_KEYS: string := "<< /Type /Catalog /Pages "
  const PAGES_KEYS: string := "<< /Type /Pages /Kids ["
  const PAGE_KEYS: string := "<< /Type /Page /Parent 2 0 R /MediaBox [0 0 612 792] "
    + "/Resources << /Font << /F1 4 0 R >> >> /Contents "

  /** The content stream of the first page, found through the catalog, the page tree and the page. */
  function PageStream(file: string): Option<string> {
    var t :- XrefTable(file);
    var root :- Root(file, t);
    var catalog :- ObjectAt(file, t, root);
    var tree :- Reference(file, catalog, CATALOG_KEYS);
    var pages :- ObjectAt(file, t, tree);
    var kid :- Reference(file, pages, PAGES_KEYS);
    var page :- ObjectAt(file, t, kid);
    var contents :- Reference(file, page, PAGE_KEYS);
    var stream :- ObjectAt(file, t, contents);
    StreamAt(file, stream)
  }

  // ---- literal strings

  predicate IsOctal(c: char) {
    '0' <= c <= '7'
  }

  function OctalLength(s: string): (k: nat)
    requires s != "" && IsOctal(s[0])
    ensures 1 <= k <= 3 && k <= |s| && forall i :: 0 <= i < k ==> IsOctal(s[i])
  {
    if |s| > 1 && IsOctal(s[1]) then if |s| > 2 && IsOctal(s[2]) then 3 else 2 else 1
  }

  function OctalValue(s: string): nat
    requires forall i :: 0 <= i < |s| ==> IsOctal(s[i])
  {
    if s == "" then 0
    else
      assert IsOctal(s[|s| - 1]);
      8 * OctalValue(s[..|s| - 1]) + DigitValue(s[|s| - 1])
  }

  function Control(c: char): Option<char> {
    match c
    case 'n' => Some('\n')
    case 'r' => Some('\r')
    case 't' => Some('\t')
    case 'b' => Some('\U{8}')
    case 'f' => Some('\U{C}')
    case _ => None
  }

  datatype Decoded = Decoded(text: string, rest: string)

  function Before(c: char, r: Option<Decoded>): Option<Decoded> {
    if r.None? then None else Some(r.value.(text := [c] + r.value.text))
  }

  /** From just after an opening parenthesis: the decoded text, and what follows its closing one. */
  function ReadLiteral(s: string, depth: nat): (r: Option<Decoded>)
    ensures r.Some? ==> |r.value.rest| < |s|
    decreases |s|
  {
    if s == "" then None
    else if s[0] == ')' then
      if depth == 0 then Some(Decoded("", s[1..])) else Before(')', ReadLiteral(s[1..], depth - 1))
    else if s[0] == '(' then Before('(', ReadLiteral(s[1..], depth + 1))
    else if s[0] == '\r' then Before('\n', ReadLiteral(if |s| > 1 && s[1] == '\n' then s[2..] else s[1..], depth))
    else if s[0] != '\\' then Before(s[0], ReadLiteral(s[1..], depth))
    else if |s| == 1 then None
    else if Control(s[1]).Some? then Before(Control(s[1]).value, ReadLiteral(s[2..], depth))
    else if IsOctal(s[1]) then
      var k := OctalLength(s[1..]);
      Before((OctalValue(s[1..1 + k]) % 256) as char, ReadLiteral(s[1 + k..], depth))
    else if s[1] == '\n' then ReadLiteral(s[2..], depth)
    else if s[1] == '\r' then ReadLiteral(if |s| > 2 && s[2] == '\n' then s[3..] else s[2..], depth)
    else Before(s[1], ReadLiteral(s[2..], depth))
  }

  /** The strings a content stream shows, in order. */
  function Shown(s: string): seq<string>
    decreases |s|
  {
    if s == "" then []
    else if s[0] != '(' then Shown(s[1..])
    else
      var r := ReadLiteral(s[1..], 0);
      if r.None? then []
      else (if |r.value.rest| >= 3 && r.value.rest[..3] == " Tj" then [r.value.text] else []) + Shown(r.value.rest)
  }

  function ReadLines(file: string): Option<seq<string>> {
    var stream :- PageStream(file);
    Some(Shown(stream))
  }

}
