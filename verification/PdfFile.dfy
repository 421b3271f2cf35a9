/** The printed file, byte for byte: every line of it but the content stream, its length and the last offset
    is fixed. */
module PdfFile {
  import opened Prelude
  import opened Decimal
  import opened PdfWriter
  import opened PdfRoundTrip

  /** The content stream: the font and the first position, then each line as an escaped literal string, 14
      units below the one before. */
  lemma StreamIs(lines: seq<string>, line: string)
    ensures Stream([]) == "BT\n/F1 10 Tf\n72 720 Td\nET\n"
    ensures var before := Stream(lines);
            && |before| >= 3
            && Stream(lines + [line]) == before[..|before| - 3] + (if lines == [] then "" else "0 -14 Td\n")
                 + "(" + PdfLiteral(line) + ") Tj\n" + "ET\n"
  {
    var n, more := |lines|, lines + [line];
    assert more[..n] == lines;
    SequentialIsSinglePass(line);
    var before := Stream(lines);
    assert before[..|before| - 3] == PRELUDE + Shows(lines);
    AppendIsAssociative(PRELUDE, Shows(lines), MoreShown(n, line));
    AppendIsAssociative(PRELUDE + Shows(lines), if n > 0 then NEXT_LINE else "", ShowLine(line));
    ShowLineIs(PRELUDE + Shows(lines) + if n > 0 then NEXT_LINE else "", line);
  }

  lemma ShowLineIs(before: string, line: string)
    ensures before + ShowLine(line) == before + "(" + Escape(line) + ") Tj\n"
  {
  }

  /** `_pdf_literal` puts a backslash before each backslash and parenthesis and changes nothing else. */
  lemma LiteralIs(a: string, b: string, c: char)
    ensures PdfLiteral("") == "" && PdfLiteral(a + b) == PdfLiteral(a) + PdfLiteral(b)
    ensures PdfLiteral([c]) == if c == '\\' || c == '(' || c == ')' then ['\\', c] else [c]
  {
    EscapeOneChar(c);
    ReplaceConcat(a, b, '\\', "\\\\");
    ReplaceConcat(Replace(a, '\\', "\\\\"), Replace(b, '\\', "\\\\"), '(', "\\(");
    ReplaceConcat(Replace(Replace(a, '\\', "\\\\"), '(', "\\("), Replace(Replace(b, '\\', "\\\\"), '(', "\\("),
      ')', "\\)");
  }

  lemma BodyOfMore(objects: seq<string>, k: nat)
    requires k < |objects|
    ensures Body(objects[..k + 1]) == Body(objects[..k]) + ObjectText(k + 1, objects[k])
  {
    assert objects[..k + 1][..k] == objects[..k];
  }

  lemma BodyOfFive(objects: seq<string>)
    requires |objects| == 5
    ensures Body(objects) == HEADER + ObjectText(1, objects[0]) + ObjectText(2, objects[1]) + ObjectText(3, objects[2])
                             + ObjectText(4, objects[3]) + ObjectText(5, objects[4])
  {
    calc {
      Body(objects);
    ==  { assert objects[..5] == objects; BodyOfMore(objects, 4); }
      Body(objects[..4]) + ObjectText(5, objects[4]);
    ==  { BodyOfMore(objects, 3); }
      Body(objects[..3]) + ObjectText(4, objects[3]) + ObjectText(5, objects[4]);
    ==  { BodyOfMore(objects, 2); BodyOfMore(objects, 1); BodyOfMore(objects, 0); }
      HEADER + ObjectText(1, objects[0]) + ObjectText(2, objects[1]) + ObjectText(3, objects[2])
      + ObjectText(4, objects[3]) + ObjectText(5, objects[4]);
    }
  }

  lemma BodyIs(stream: string)
    ensures Body(Objects(stream)) == "%PDF-1.4\n%\U{E2}\U{E3}\U{CF}\U{D3}\n"
      + ("1" + " 0 obj\n" + "<< /Type /Catalog /Pages 2 0 R >>" + "\nendobj\n")
      + ("2" + " 0 obj\n" + "<< /Type /Pages /Kids [3 0 R] /Count 1 >>" + "\nendobj\n")
      + ("3" + " 0 obj\n" + ("<< /Type /Page /Parent 2 0 R /MediaBox [0 0 612 792] "
         + "/Resources << /Font << /F1 4 0 R >> >> /Contents 5 0 R >>") + "\nendobj\n")
      + ("4" + " 0 obj\n" + "<< /Type /Font /Subtype /Type1 /BaseFont /Helvetica >>" + "\nendobj\n")
      + ("5" + " 0 obj\n" + ("<< /Length " + Show(|stream|) + " >>\nstream\n" + stream + "endstream") + "\nendobj\n")
  {
    var objects := Objects(stream);
    BodyOfFive(objects);
    FirstNumbers();
  }

  lemma FirstNumbers()
    ensures Show(1) == "1" && Show(2) == "2" && Show(3) == "3" && Show(4) == "4" && Show(5) == "5" && Show(6) == "6"
  {
    ShowIs(0, 1);
    ShowIs(0, 2);
    ShowIs(0, 3);
    ShowIs(0, 4);
    ShowIs(0, 5);
    ShowIs(0, 6);
  }

  lemma StartsOfFive(objects: seq<string>)
    requires |objects| == 5
    ensures |Offsets(objects)| == 5
    ensures Offsets(objects)[0] == 15
    ensures Offsets(objects)[1] == 31 + |objects[0]|
    ensures Offsets(objects)[2] == 47 + |objects[0]| + |objects[1]|
    ensures Offsets(objects)[3] == 63 + |objects[0]| + |objects[1]| + |objects[2]|
    ensures Offsets(objects)[4] == 79 + |objects[0]| + |objects[1]| + |objects[2]| + |objects[3]|
    ensures |Body(objects)| == Offsets(objects)[4] + |objects[4]| + 16
  {
    BodyLengths(objects);
    OneDigit(5);
    BodyGrows(objects, 4);
    assert objects[..5] == objects;
  }

  lemma StartsOfSizes(objects: seq<string>)
    requires |objects| == 5
    requires |objects[0]| == 33 && |objects[1]| == 41 && |objects[2]| == 110 && |objects[3]| == 54
    ensures Offsets(objects) == [15, 64, 121, 247, 317] && |Body(objects)| == 333 + |objects[4]|
  {
    StartsOfFive(objects);
  }

  lemma SizesAre(stream: string)
    ensures var objects := Objects(stream);
            && |objects| == 5
            && |objects[0]| == 33 && |objects[1]| == 41 && |objects[2]| == 110 && |objects[3]| == 54
            && |objects[4]| == 31 + |Show(|stream|)| + |stream|
  {
    ObjectLengths();
    StreamObjectLength(stream);
  }

  lemma StreamObjectLength(stream: string)
    ensures |StreamObject(stream)| == 31 + |Show(|stream|)| + |stream|
  {
  }

  lemma EntriesOfMore(offsets: seq<nat>, offset: nat)
    ensures Entries(offsets + [offset]) == Entries(offsets) + Entry(offset)
  {
    assert (offsets + [offset])[..|offsets|] == offsets;
  }

  lemma EntriesOfFive(a: nat, b: nat, c: nat, d: nat, e: nat)
    ensures Entries([a, b, c, d, e]) ==
            "0000000000 65535 f \n" + Entry(a) + Entry(b) + Entry(c) + Entry(d) + Entry(e)
  {
    calc {
      Entries([a, b, c, d, e]);
    ==  { assert [a, b, c, d] + [e] == [a, b, c, d, e]; EntriesOfMore([a, b, c, d], e); }
      Entries([a, b, c, d]) + Entry(e);
    ==  { assert [a, b, c] + [d] == [a, b, c, d]; EntriesOfMore([a, b, c], d); }
      Entries([a, b, c]) + Entry(d) + Entry(e);
    ==  { assert [a, b] + [c] == [a, b, c]; EntriesOfMore([a, b], c); }
      Entries([a, b]) + Entry(c) + Entry(d) + Entry(e);
    ==  { assert [a] + [b] == [a, b]; EntriesOfMore([a], b); }
      Entries([a]) + Entry(b) + Entry(c) + Entry(d) + Entry(e);
    ==  { assert [] + [a] == [a]; EntriesOfMore([], a); }
      Entries([]) + Entry(a) + Entry(b) + Entry(c) + Entry(d) + Entry(e);
    }
  }

  lemma EntriesAre()
    ensures Entries([15, 64, 121, 247, 317]) ==
            "0000000000 65535 f \n" + ("0000000015" + " 00000 n \n") + ("0000000064" + " 00000 n \n")
            + ("0000000121" + " 00000 n \n") + ("0000000247" + " 00000 n \n") + ("0000000317" + " 00000 n \n")
  {
    EntriesOfFive(15, 64, 121, 247, 317);
    PaddedIs();
  }

  /** What follows the body of the report: its cross-reference section and trailer. */
  function Tail(body: string, xref: nat): string {
    body + ("xref\n0 " + "6" + "\n")
      + ("0000000000 65535 f \n" + ("0000000015" + " 00000 n \n") + ("0000000064" + " 00000 n \n")
         + ("0000000121" + " 00000 n \n") + ("0000000247" + " 00000 n \n") + ("0000000317" + " 00000 n \n"))
      + ("trailer\n<< /Size " + "6" + " /Root 1 0 R >>\nstartxref\n" + Show(xref) + "\n%%EOF\n")
  }

  lemma TailIs(body: string)
    ensures File(body, [15, 64, 121, 247, 317]) == Tail(body, |body|)
  {
    FirstNumbers();
    EntriesAre();
  }

  lemma FileOf(objects: seq<string>, xref: nat)
    requires |objects| == 5
    requires |objects[0]| == 33 && |objects[1]| == 41 && |objects[2]| == 110 && |objects[3]| == 54
    requires xref == 333 + |objects[4]|
    ensures Printed(objects) == Tail(Body(objects), xref)
  {
    StartsOfSizes(objects);
    TailIs(Body(objects));
  }

  /** The report's file, byte for byte. */
  lemma FileIs(stream: string, xref: nat)
    requires xref == 364 + |Show(|stream|)| + |stream|
    ensures Printed(Objects(stream)) == Tail(Body(Objects(stream)), xref)
  {
    SizesAre(stream);
    FileOf(Objects(stream), xref);
  }

  lemma PaddedIs()
    ensures Padded(15) == "0000000015" && Padded(64) == "0000000064" && Padded(121) == "0000000121"
    ensures Padded(247) == "0000000247" && Padded(317) == "0000000317"
  {
    ShowIs(1, 5);
    ShowIs(6, 4);
    ShowIs(12, 1);
    ShowIs(1, 2);
    ShowIs(24, 7);
    ShowIs(2, 4);
    ShowIs(31, 7);
    ShowIs(3, 1);
    ShowIs(0, 1);
    ShowIs(0, 2);
    ShowIs(0, 3);
    ShowIs(0, 6);
  }
}
