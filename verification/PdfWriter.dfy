/** The deterministic PDF printer. A byte string is a string of characters below 256. */
module PdfWriter {
  import opened Prelude
  import Text
  import Decimal

  predicate Latin1(s: string) {
    forall c :: c in s ==> c as int < 256
  }

  // ---- literals

  /** `value.replace(c, with)` for a one-character pattern. */
  function Replace(s: string, c: char, with: string): string {
    if s == "" then "" else (if s[0] == c then with else [s[0]]) + Replace(s[1..], c, with)
  }

  /** `_pdf_literal`: three replacements, one after the other. */
  function PdfLiteral(s: string): string {
    Replace(Replace(Replace(s, '\\', "\\\\"), '(', "\\("), ')', "\\)")
  }

  function EscapeChar(c: char): string {
    if c in {'\\', '(', ')'} then ['\\', c] else [c]
  }

  /** The same in a single pass. */
  function Escape(s: string): string {
    if s == "" then "" else EscapeChar(s[0]) + Escape(s[1..])
  }

  lemma {:induction false} ReplaceConcat(a: string, b: string, c: char, with: string)
    ensures Replace(a + b, c, with) == Replace(a, c, with) + Replace(b, c, with)
  {
    if a == "" {
      assert a + b == b;
    } else {
      assert (a + b)[1..] == a[1..] + b;
      ReplaceConcat(a[1..], b, c, with);
    }
  }

  lemma ReplaceChar(x: char, c: char, with: string)
    ensures Replace([x], c, with) == if x == c then with else [x]
  {
    assert [x][1..] == "";
    assert with + "" == with && [x] + "" == [x];
  }

  lemma ReplacePair(x: char, y: char, c: char, with: string)
    requires x != c
    ensures Replace([x, y], c, with) == [x] + if y == c then with else [y]
  {
    assert [x, y] == [x] + [y];
    ReplaceConcat([x], [y], c, with);
    ReplaceChar(x, c, with);
    ReplaceChar(y, c, with);
  }

  lemma EscapeOneChar(c: char)
    ensures PdfLiteral([c]) == EscapeChar(c)
  {
    ReplaceChar(c, '\\', "\\\\");
    ReplaceChar(c, '(', "\\(");
    ReplaceChar(c, ')', "\\)");
    ReplacePair('\\', '\\', '(', "\\(");
    ReplacePair('\\', '\\', ')', "\\)");
    ReplacePair('\\', '(', ')', "\\)");
  }

  /** The order of the replacements is right: together they are one pass. */
  lemma {:induction false} SequentialIsSinglePass(s: string)
    ensures PdfLiteral(s) == Escape(s)
  {
    if s != "" {
      var first, rest := [s[0]], s[1..];
      assert first + rest == s;
      ReplaceConcat(first, rest, '\\', "\\\\");
      var a, b := Replace(first, '\\', "\\\\"), Replace(rest, '\\', "\\\\");
      ReplaceConcat(a, b, '(', "\\(");
      ReplaceConcat(Replace(a, '(', "\\("), Replace(b, '(', "\\("), ')', "\\)");
      EscapeOneChar(s[0]);
      SequentialIsSinglePass(rest);
    }
  }

  // ---- the content stream

  const PRELUDE: string := "BT\n/F1 10 Tf\n72 720 Td\n"
  const NEXT_LINE: string := "0 -14 Td\n"

  function ShowLine(line: string): string {
    "(" + Escape(line) + ") Tj\n"
  }

  function MoreShown(n: nat, line: string): string {
    (if n > 0 then NEXT_LINE else "") + ShowLine(line)
  }

  function Shows(lines: seq<string>): string {
    if lines == [] then "" else Shows(lines[..|lines| - 1]) + MoreShown(|lines| - 1, lines[|lines| - 1])
  }

  /** The stream in closed form. */
  function Stream(lines: seq<string>): string {
    PRELUDE + Shows(lines) + "ET\n"
  }

  // ---- the file

  const HEADER: string := "%PDF-1.4\n%\U{E2}\U{E3}\U{CF}\U{D3}\n"
  const FREE_ENTRY: string := "0000000000 65535 f \n"

  function ObjectText(n: nat, item: string): string {
    Decimal.Show(n) + " 0 obj\n" + item + "\nendobj\n"
  }

  function Body(objects: seq<string>): string {
    if objects == [] then HEADER else Body(objects[..|objects| - 1]) + ObjectText(|objects|, objects[|objects| - 1])
  }

  /** `f"{n:010d}"`. */
  function Padded(n: nat): (s: string)
    ensures |s| >= 10 && (|Decimal.Show(n)| <= 10 ==> |s| == 10)
  {
    var digits := Decimal.Show(n);
    if |digits| < 10 then seq(10 - |digits|, _ => '0') + digits else digits
  }

  function Entry(offset: nat): string {
    Padded(offset) + " 00000 n \n"
  }

  function Entries(offsets: seq<nat>): string {
    if offsets == [] then FREE_ENTRY else Entries(offsets[..|offsets| - 1]) + Entry(offsets[|offsets| - 1])
  }

  /** Where each object starts. */
  function Offsets(objects: seq<string>): seq<nat> {
    seq(|objects|, k requires 0 <= k < |objects| => |Body(objects[..k])|)
  }

  function XrefStart(n: nat): string {
    "xref\n0 " + Decimal.Show(n + 1) + "\n"
  }

  const TRAILER_SIZE: string := "trailer\n<< /Size "
  const TRAILER_ROOT: string := " /Root 1 0 R >>\nstartxref\n"

  function Trailer(n: nat, xref: nat): string {
    TRAILER_SIZE + Decimal.Show(n + 1) + TRAILER_ROOT + Decimal.Show(xref) + "\n%%EOF\n"
  }

  /** A body, its cross-reference section and its trailer. */
  function File(body: string, offsets: seq<nat>): string {
    body + XrefStart(|offsets|) + Entries(offsets) + Trailer(|offsets|, |body|)
  }

  function Printed(objects: seq<string>): string {
    File(Body(objects), Offsets(objects))
  }

  const CATALOG: string := "<< /Type /Catalog /Pages 2 0 R >>"
  const PAGES: string := "<< /Type /Pages /Kids [3 0 R] /Count 1 >>"
  const PAGE: string := "<< /Type /Page /Parent 2 0 R /MediaBox [0 0 612 792] "
    + "/Resources << /Font << /F1 4 0 R >> >> /Contents 5 0 R >>"
  const FONT: string := "<< /Type /Font /Subtype /Type1 /BaseFont /Helvetica >>"

  function StreamObject(stream: string): string {
    "<< /Length " + Decimal.Show(|stream|) + " >>\nstream\n" + stream + "endstream"
  }

  function Objects(stream: string): seq<string> {
    [CATALOG, PAGES, PAGE, FONT, StreamObject(stream)]
  }

  // ---- the printer

  function MoreCommands(n: nat, line: string): seq<string> {
    (if n > 0 then ["0 -14 Td"] else []) + ["(" + PdfLiteral(line) + ") Tj"]
  }

  function Commands(lines: seq<string>): seq<string> {
    if lines == [] then ["BT", "/F1 10 Tf", "72 720 Td"]
    else Commands(lines[..|lines| - 1]) + MoreCommands(|lines| - 1, lines[|lines| - 1])
  }

  function Lines(parts: seq<string>): string {
    if parts == [] then "" else Text.Join("\n", parts) + "\n"
  }

  lemma {:induction false} LinesOfOneMore(parts: seq<string>, part: string)
    ensures Lines(parts + [part]) == Lines(parts) + part + "\n"
  {
    var all := parts + [part];
    if parts == [] {
      assert all == [part];
    } else {
      var first, rest := parts[0], parts[1..];
      calc {
        Lines(all);
      ==  { assert all[1..] == rest + [part]; }
        first + "\n" + Text.Join("\n", rest + [part]) + "\n";
      ==
        first + "\n" + Lines(rest + [part]);
      ==  { LinesOfOneMore(rest, part); }
        first + "\n" + (Lines(rest) + part + "\n");
      ==  { assert parts == [first] + rest; assert rest == [] ==> Lines(parts) == first + "\n" + Lines(rest); }
        Lines(parts) + part + "\n";
      }
    }
  }

  lemma {:induction false} LinesOfConcat(a: seq<string>, b: seq<string>)
    ensures Lines(a + b) == Lines(a) + Lines(b)
  {
    if b == [] {
      assert a + b == a;
    } else {
      var init, last := b[..|b| - 1], b[|b| - 1];
      calc {
        Lines(a + b);
      ==  { assert a + b == (a + init) + [last]; LinesOfOneMore(a + init, last); }
        Lines(a + init) + last + "\n";
      ==  { LinesOfConcat(a, init); }
        Lines(a) + Lines(init) + last + "\n";
      ==  { assert b == init + [last]; LinesOfOneMore(init, last); }
        Lines(a) + Lines(b);
      }
    }
  }

  lemma LinesOfThree(a: string, b: string, c: string)
    ensures Lines([a, b, c]) == a + "\n" + b + "\n" + c + "\n"
  {
    LinesOfOneMore([], a);
    LinesOfOneMore([a], b);
    LinesOfOneMore([a, b], c);
    assert [] + [a] == [a] && [a] + [b] == [a, b] && [a, b] + [c] == [a, b, c];
  }

  lemma FirstCommands()
    ensures Lines(["BT", "/F1 10 Tf", "72 720 Td"]) == PRELUDE
  {
    LinesOfThree("BT", "/F1 10 Tf", "72 720 Td");
  }

  lemma CommandsOfMore(lines: seq<string>)
    requires lines != []
    ensures Commands(lines) == Commands(lines[..|lines| - 1]) + MoreCommands(|lines| - 1, lines[|lines| - 1])
  {
  }

  lemma ShowsOfMore(lines: seq<string>)
    requires lines != []
    ensures PRELUDE + Shows(lines) == PRELUDE + Shows(lines[..|lines| - 1]) + MoreShown(|lines| - 1, lines[|lines| - 1])
  {
    var n := |lines| - 1;
    AppendIsAssociative(PRELUDE, Shows(lines[..n]), MoreShown(n, lines[n]));
  }

  lemma {:induction false} JoinCommands(lines: seq<string>)
    ensures Lines(Commands(lines)) == PRELUDE + Shows(lines)
  {
    if lines == [] {
      FirstCommands();
    } else {
      var n := |lines| - 1;
      var before, more := Commands(lines[..n]), MoreCommands(n, lines[n]);
      calc {
        Lines(Commands(lines));
      ==  { CommandsOfMore(lines); LinesOfConcat(before, more); }
        Lines(before) + Lines(more);
      ==  { JoinCommands(lines[..n]); LinesOfMore(n, lines[n]); }
        PRELUDE + Shows(lines[..n]) + MoreShown(n, lines[n]);
      ==  { ShowsOfMore(lines); }
        PRELUDE + Shows(lines);
      }
    }
  }

  lemma LinesOfMore(n: nat, line: string)
    ensures Lines(MoreCommands(n, line)) == MoreShown(n, line)
  {
    SequentialIsSinglePass(line);
    LinesOfConcat(["0 -14 Td"], ["(" + PdfLiteral(line) + ") Tj"]);
  }

  /** `_deterministic_pdf`; None is the UnicodeEncodeError of a line outside Latin-1. */
  method DeterministicPdf(lines: seq<string>) returns (r: Option<string>)
    ensures r.None? <==> exists line :: line in lines && exists c :: c in line && c as int >= 256
    ensures r.Some? ==> r.value == Printed(Objects(Stream(lines)))
  {
    var commands := ["BT", "/F1 10 Tf", "72 720 Td"];
    for i := 0 to |lines|
      invariant commands == Commands(lines[..i])
    {
      assert lines[..i + 1][..i] == lines[..i];
      if i > 0 {
        commands := commands + ["0 -14 Td"];
      }
      commands := commands + ["(" + PdfLiteral(lines[i]) + ") Tj"];
    }
    assert lines[..|lines|] == lines;
    JoinCommands(lines);
    LinesOfOneMore(commands, "ET");
    commands := commands + ["ET"];
    var stream := Text.Join("\n", commands) + "\n";
    assert stream == Stream(lines);
    StreamLatin1(lines);
    if !Latin1(stream) {
      return None;
    }
    var printed := PrintObjects(Objects(stream));
    r := Some(printed);
  }

  /** The object loop records where each object starts, and the entry loop prints what it recorded. */
  method PrintObjects(objects: seq<string>) returns (content: string)
    ensures content == Printed(objects)
  {
    var offsets;
    content, offsets := PrintBody(objects);
    var xref := |content|;
    content := content + XrefStart(|objects|);
    content := content + FREE_ENTRY;
    ghost var start := Body(objects) + XrefStart(|objects|);
    ghost var starts := Offsets(objects);
    for i := 0 to |objects|
      invariant content == start + Entries(starts[..i])
    {
      content := content + Entry(offsets[i + 1]);
      EntryAppends(starts, i, start);
    }
    assert starts[..|objects|] == starts;
    content := content + Trailer(|objects|, xref);
  }

  method PrintBody(objects: seq<string>) returns (content: string, offsets: seq<nat>)
    ensures content == Body(objects)
    ensures |offsets| == |objects| + 1 && forall j :: 0 <= j < |objects| ==> offsets[j + 1] == |Body(objects[..j])|
  {
    content := HEADER;
    offsets := [0];
    for i := 0 to |objects|
      invariant content == Body(objects[..i])
      invariant |offsets| == i + 1 && forall j :: 0 <= j < i ==> offsets[j + 1] == |Body(objects[..j])|
    {
      assert objects[..i + 1][..i] == objects[..i];
      offsets := offsets + [|content|];
      content := content + (Decimal.Show(i + 1) + " 0 obj\n");
      content := content + objects[i];
      content := content + "\nendobj\n";
      ObjectAppends(objects, i);
    }
    assert objects[..|objects|] == objects;
  }

  lemma ObjectAppends(objects: seq<string>, i: nat)
    requires i < |objects|
    ensures Body(objects[..i]) + (Decimal.Show(i + 1) + " 0 obj\n") + objects[i] + "\nendobj\n" ==
            Body(objects[..i + 1])
  {
    assert objects[..i + 1][..i] == objects[..i];
  }

  lemma EntryAppends(offsets: seq<nat>, i: nat, start: string)
    requires i < |offsets|
    ensures start + Entries(offsets[..i]) + Entry(offsets[i]) == start + Entries(offsets[..i + 1])
  {
    assert offsets[..i + 1][..i] == offsets[..i];
  }

  // ---- the stream is Latin-1 exactly when the lines are

  lemma {:induction false} EscapeLatin1(s: string)
    ensures Latin1(Escape(s)) <==> Latin1(s)
  {
    if s != "" {
      EscapeLatin1(s[1..]);
      Latin1Concat(EscapeChar(s[0]), Escape(s[1..]));
      assert s == [s[0]] + s[1..];
      Latin1Concat([s[0]], s[1..]);
      assert EscapeChar(s[0])[|EscapeChar(s[0])| - 1] == s[0];
    }
  }

  lemma Latin1Concat(a: string, b: string)
    ensures Latin1(a + b) <==> Latin1(a) && Latin1(b)
  {
    assert forall c :: c in a + b <==> c in a || c in b;
  }

  lemma ShowLineLatin1(line: string)
    ensures Latin1(ShowLine(line)) <==> Latin1(line)
  {
    EscapeLatin1(line);
    Latin1Concat("(", Escape(line));
    Latin1Concat("(" + Escape(line), ") Tj\n");
  }

  lemma MoreShownLatin1(n: nat, line: string)
    ensures Latin1(MoreShown(n, line)) <==> Latin1(line)
  {
    ShowLineLatin1(line);
    Latin1Concat(if n > 0 then NEXT_LINE else "", ShowLine(line));
  }

  lemma {:induction false} ShowsLatin1(lines: seq<string>)
    ensures Latin1(Shows(lines)) <==> forall line :: line in lines ==> Latin1(line)
  {
    if lines != [] {
      var n := |lines| - 1;
      ShowsLatin1(lines[..n]);
      MoreShownLatin1(n, lines[n]);
      assert lines == lines[..n] + [lines[n]];
      Latin1Concat(Shows(lines[..n]), MoreShown(n, lines[n]));
    }
  }

  lemma StreamLatin1(lines: seq<string>)
    ensures Latin1(Stream(lines)) <==> forall line :: line in lines ==> Latin1(line)
  {
    ShowsLatin1(lines);
    Latin1Concat(PRELUDE, Shows(lines));
    Latin1Concat(PRELUDE + Shows(lines), "ET\n");
  }

}
