/**
 * The bytes of a PDF report: objects, cross-reference table and trailer (pdf_report.py; sections 7.5.4 and 7.5.5
 * of ISO 32000-1). A byte is a char here.
 */
module PdfFile {
  import opened Decimal
  import opened PdfObjects
  import opened PdfSyntax

  const HEADER := "%PDF-1.4\n%\U{E2}\U{E3}\U{CF}\U{D3}\n"

  const ENTRY_LENGTH := 20

  const OFFSET_DIGITS := 10

  // ---- Object text --------------------------------------------------------------------------

  /** An object after its number, piece by piece. */
  function Pieces(o: Obj): seq<Piece> {
    match o
    case Catalog(pages, root) =>
      [Mark("<< /Type /Catalog /Pages "), Num(pages), Mark(" 0 R /Lang (en-US) /StructTreeRoot "), Num(root),
       Mark(" 0 R /MarkInfo << /Marked true >>"), Mark(" /ViewerPreferences << /DisplayDocTitle true >> >>endobj\n")]
    case PageTree(kids) =>
      [Mark("<< /Type /Pages /Kids ["), Refs(kids), Mark("] /Count "), Num(|kids|), Mark(" >>endobj\n")]
    case PageObj(index, parent, contents, regular, bold) =>
      [Mark("<< /Type /Page /Parent "), Num(parent), Mark(" 0 R /StructParents "), Num(index),
       Mark(" /MediaBox [0 0 792 612] /Contents "), Num(contents),
       Mark(" 0 R /Resources << /Font << /F1 "), Num(regular), Mark(" 0 R /F2 "), Num(bold),
       Mark(" 0 R >> >> >>endobj\n")]
    case ContentObj(stream) =>
      [Mark("<< /Length "), Num(|stream|), Mark(" >>stream\n"), Mark(stream), Mark("\nendstream\nendobj\n")]
    case FontObj(name) =>
      [Mark("<< /Type /Font /Subtype /Type1 /BaseFont /"), Word(name), Mark(" /Encoding /WinAnsiEncoding >>endobj\n")]
    case InfoObj(fields) => [Mark("<< "), Mark(fields), Mark(">>endobj\n")]
    case StructRoot(document, parentTree, nextKey) =>
      [Mark("<< /Type /StructTreeRoot /K "), Num(document), Mark(" 0 R /ParentTree "), Num(parentTree),
       Mark(" 0 R /ParentTreeNextKey "), Num(nextKey), Mark(" >>endobj\n")]
    case ParentTree(entries) => [Mark("<< /Nums ["), Tree(Numbered(entries)), Mark("] >>endobj\n")]
    case DocumentObj(root, kids) =>
      [Mark("<< /Type /StructElem /S /Document /P "), Num(root), Mark(" 0 R /K ["), Refs(kids), Mark("] >>endobj\n")]
    case ElemObj(role, document, page, mcid) =>
      [Mark("<< /Type /StructElem /S /"), Word(role), Mark(" /P "), Num(document), Mark(" 0 R /Pg "), Num(page),
       Mark(" 0 R /K "), Num(mcid), Mark(" >>endobj\n")]
  }

  /** Every entry with its page index. */
  function Numbered(entries: seq<seq<nat>>): seq<(nat, seq<nat>)> {
    seq(|entries|, i requires 0 <= i < |entries| => (i, entries[i]))
  }

  function Body(o: Obj): string { Render(Pieces(o)) }

  function Label(n: nat): string { Digits(n) + " 0 obj" }

  function Text(o: Indirect): string { Label(o.number) + Body(o.obj) }

  // ---- The file -----------------------------------------------------------------------------

  function Upto(objects: seq<Indirect>, n: nat): string
    requires n <= |objects|
  {
    if n == 0 then HEADER else Upto(objects, n - 1) + Text(objects[n - 1])
  }

  /** Where object n + 1 of the list starts. */
  function Offset(objects: seq<Indirect>, n: nat): nat
    requires n <= |objects|
  {
    |Upto(objects, n)|
  }

  function Entry(offset: nat): string { Padded(offset, OFFSET_DIGITS) + " 00000 n \n" }

  const FreeEntry := "0000000000 65535 f \n"

  function Entries(objects: seq<Indirect>, n: nat): string
    requires n <= |objects|
  {
    if n == 0 then FreeEntry else Entries(objects, n - 1) + Entry(Offset(objects, n - 1))
  }

  function XrefHead(size: nat): string { "xref\n0 " + Digits(size) + "\n" }

  function TrailerDictionary(size: nat, info: nat): seq<Piece> {
    [Mark("trailer<< /Size "), Num(size), Mark(" /Root "), Num(1), Mark(" 0 R /Info "), Num(info), Mark(" 0 R >>\n")]
  }

  function TrailerEnd(xref: nat): seq<Piece> { [Mark("startxref\n"), Num(xref), Mark("\n%%EOF\n")] }

  function TrailerPieces(size: nat, info: nat, xref: nat): seq<Piece> { TrailerDictionary(size, info) + TrailerEnd(xref) }

  function Trailer(size: nat, info: nat, xref: nat): string { Render(TrailerPieces(size, info, xref)) }

  function File(objects: seq<Indirect>, info: nat): string {
    var n := |objects|;
    Upto(objects, n) + XrefHead(n + 1) + Entries(objects, n) + Trailer(n + 1, info, Offset(objects, n))
  }

  /** Appends object by object and records where each one starts. */
  method WriteFile(objects: seq<Indirect>, info: nat) returns (output: string, offsets: seq<nat>, xref: nat)
    ensures output == File(objects, info)
    ensures xref == Offset(objects, |objects|)
    ensures |offsets| == |objects| + 1
    ensures forall n :: 1 <= n <= |objects| ==> offsets[n] == Offset(objects, n - 1)
  {
    hide Text, Entry, XrefHead, Trailer, HEADER, FreeEntry;
    output := HEADER;
    offsets := [0];
    for i := 0 to |objects|
      invariant output == Upto(objects, i)
      invariant |offsets| == i + 1
      invariant forall n :: 1 <= n <= i ==> offsets[n] == Offset(objects, n - 1)
    {
      offsets := offsets + [|output|];
      output := output + Text(objects[i]);
    }
    xref := |output|;
    output := output + XrefHead(|offsets|);
    var entries := FreeEntry;
    for i := 1 to |offsets|
      invariant entries == Entries(objects, i - 1)
    {
      entries := entries + Entry(offsets[i]);
    }
    output := output + entries + Trailer(|offsets|, info, xref);
  }

  // ---- Where things are ---------------------------------------------------------------------

  lemma {:induction false} OffsetsGrow(objects: seq<Indirect>, m: nat, n: nat)
    requires m <= n <= |objects|
    ensures Offset(objects, m) <= Offset(objects, n)
  {
    hide Text;
    if m < n { OffsetsGrow(objects, m, n - 1); }
  }

  lemma UptoStep(objects: seq<Indirect>, n: nat)
    requires 1 <= n <= |objects|
    ensures Upto(objects, n) == Upto(objects, n - 1) + Text(objects[n - 1])
  {}

  lemma {:induction false} UptoHolds(objects: seq<Indirect>, m: nat, n: nat)
    requires 1 <= m <= n <= |objects|
    ensures At(Upto(objects, n), Offset(objects, m - 1), Text(objects[m - 1]))
  {
    hide Text, Upto, At;
    UptoStep(objects, n);
    if m < n {
      UptoHolds(objects, m, n - 1);
      AtGrows(Upto(objects, n - 1), Offset(objects, m - 1), Text(objects[m - 1]), Text(objects[n - 1]));
    } else {
      AtBack(Upto(objects, n - 1), Text(objects[n - 1]));
    }
  }

  /** The recorded offset of every object is where its text, and so its label, starts. */
  lemma ObjectIsAtOffset(objects: seq<Indirect>, info: nat, n: nat)
    requires 1 <= n <= |objects|
    ensures At(File(objects, info), Offset(objects, n - 1), Text(objects[n - 1]))
    ensures At(File(objects, info), Offset(objects, n - 1), Label(objects[n - 1].number))
  {
    hide Text, Label, Body, Upto, File, AfterObjects, At;
    var o, at := objects[n - 1], Offset(objects, n - 1);
    FileParts(objects, info);
    UptoHolds(objects, n, |objects|);
    AtGrows(Upto(objects, |objects|), at, Text(o), AfterObjects(objects, info));
    TextParts(o);
    AtFront(Label(o.number), Body(o.obj));
    AtInside(File(objects, info), at, Text(o), 0, Label(o.number));
  }

  lemma TextParts(o: Indirect)
    ensures Text(o) == Label(o.number) + Body(o.obj)
  {}

  /** An entry has the 20 bytes the standard asks for exactly while the offset fits ten digits. */
  lemma EntryLengthExactly(offset: nat)
    ensures |Entry(offset)| == ENTRY_LENGTH <==> offset < Pow10(OFFSET_DIGITS)
  {
    PaddedWidth(offset, OFFSET_DIGITS);
  }

  predicate Small(objects: seq<Indirect>) { Offset(objects, |objects|) < Pow10(OFFSET_DIGITS) }

  lemma SmallEntries(objects: seq<Indirect>, n: nat)
    requires n <= |objects| && Small(objects)
    ensures |Entry(Offset(objects, n))| == ENTRY_LENGTH
  {
    OffsetsGrow(objects, n, |objects|);
    EntryLengthExactly(Offset(objects, n));
  }

  lemma EntriesStep(objects: seq<Indirect>, n: nat)
    requires 1 <= n <= |objects|
    ensures Entries(objects, n) == Entries(objects, n - 1) + Entry(Offset(objects, n - 1))
  {}

  lemma EntriesStart(objects: seq<Indirect>)
    ensures |Entries(objects, 0)| == ENTRY_LENGTH
  {}

  lemma {:induction false} EntriesLength(objects: seq<Indirect>, n: nat)
    requires n <= |objects| && Small(objects)
    ensures |Entries(objects, n)| == ENTRY_LENGTH * (n + 1)
  {
    hide Entry, Offset, Entries, Small;
    if n > 0 {
      EntriesStep(objects, n);
      SmallEntries(objects, n - 1);
      EntriesLength(objects, n - 1);
    } else {
      EntriesStart(objects);
    }
  }

  lemma {:induction false} EntriesHold(objects: seq<Indirect>, k: nat, n: nat)
    requires 1 <= k <= n <= |objects| && Small(objects)
    ensures At(Entries(objects, n), ENTRY_LENGTH * k, Entry(Offset(objects, k - 1)))
  {
    hide Entry, Offset, Entries, At, Small;
    EntriesStep(objects, n);
    EntriesLength(objects, n - 1);
    if k < n {
      EntriesHold(objects, k, n - 1);
      AtGrows(Entries(objects, n - 1), ENTRY_LENGTH * k, Entry(Offset(objects, k - 1)), Entry(Offset(objects, n - 1)));
    } else {
      AtBack(Entries(objects, n - 1), Entry(Offset(objects, n - 1)));
    }
  }

  /** Everything after the objects. */
  function AfterObjects(objects: seq<Indirect>, info: nat): string {
    var n := |objects|;
    XrefHead(n + 1) + (Entries(objects, n) + Trailer(n + 1, info, Offset(objects, n)))
  }

  lemma FileParts(objects: seq<Indirect>, info: nat)
    ensures File(objects, info) == Upto(objects, |objects|) + AfterObjects(objects, info)
    ensures At(File(objects, info), Offset(objects, |objects|), XrefHead(|objects| + 1))
    ensures At(File(objects, info), Offset(objects, |objects|) + |XrefHead(|objects| + 1)|, Entries(objects, |objects|))
    ensures At(File(objects, info), Offset(objects, |objects|) + |XrefHead(|objects| + 1)| + |Entries(objects, |objects|)|,
               Trailer(|objects| + 1, info, Offset(objects, |objects|)))
  {
    hide Upto, XrefHead, Entries, Trailer, At;
    var n := |objects|;
    FourParts(Upto(objects, n), XrefHead(n + 1), Entries(objects, n), Trailer(n + 1, info, Offset(objects, n)));
  }

  lemma FourParts(a: string, b: string, c: string, d: string)
    ensures a + b + c + d == a + (b + (c + d))
    ensures At(a + b + c + d, |a|, b) && At(a + b + c + d, |a| + |b|, c) && At(a + b + c + d, |a| + |b| + |c|, d)
  {}

  /** The table starts where startxref says, and its n-th entry gives the offset of the n-th object. */
  lemma EntryIsAt(objects: seq<Indirect>, info: nat, n: nat)
    requires 1 <= n <= |objects| && Small(objects)
    ensures var start := Offset(objects, |objects|) + |XrefHead(|objects| + 1)|;
            At(File(objects, info), start + ENTRY_LENGTH * n, Entry(Offset(objects, n - 1)))
  {
    hide File, Upto, Offset, XrefHead, Entries, Entry, Small, At;
    FileParts(objects, info);
    EntriesHold(objects, n, |objects|);
    var start := Offset(objects, |objects|) + |XrefHead(|objects| + 1)|;
    AtInside(File(objects, info), start, Entries(objects, |objects|), ENTRY_LENGTH * n, Entry(Offset(objects, n - 1)));
  }

  method RenderPdfReport(pages: seq<Page>, info: string) returns (output: string)
    ensures output == File(Objects(pages, info), InfoId(pages))
  {
    var objects := BuildObjects(pages, info);
    var offsets, xref;
    output, offsets, xref := WriteFile(objects, InfoId(pages));
  }
}
