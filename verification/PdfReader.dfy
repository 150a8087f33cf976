/**
 * A reader of PDF reports that knows only the format: it starts from the bytes, finds the cross-reference table
 * through startxref and the objects through the table, and takes sizes, roots and stream lengths from the text.
 */
module PdfReader {
  import opened Prelude
  import opened Decimal
  import opened PdfObjects
  import opened PdfSyntax
  import opened PdfFile

  // ---- From the end of the file to the table ------------------------------------------------

  const Ending := "\n%%EOF\n"

  /** The number on the line before the end-of-file marker. */
  function ReadStartXref(file: string): nat
    requires |file| >= |Ending|
  {
    var end := |file| - |Ending|;
    Value(file[RunStart(file, end)..end])
  }

  /** The entry count in the head of the table at `xref`, and where its entries start. */
  function ReadHead(file: string, xref: nat): (nat, nat)
    requires xref + 7 <= |file|
  {
    var end := RunEnd(file, xref + 7);
    (Value(file[xref + 7..end]), end + 1)
  }

  function ReadEntry(file: string, start: nat, n: nat): nat
    requires start + ENTRY_LENGTH * n <= |file|
  {
    var at := start + ENTRY_LENGTH * n;
    Value(file[at..RunEnd(file, at)])
  }

  lemma NumberIsReadBackwards(before: string, digits: string, after: string)
    requires AllDigits(digits) && before != "" && !IsDigit(before[|before| - 1])
    ensures RunStart(before + digits + after, |before| + |digits|) == |before|
    ensures (before + digits + after)[|before|..|before| + |digits|] == digits
  {}

  function TrailerFront(size: nat, info: nat): string {
    Render(TrailerDictionary(size, info)) + "startxref\n"
  }

  lemma {:induction false} RenderConcat(a: seq<Piece>, b: seq<Piece>)
    ensures Render(a + b) == Render(a) + Render(b)
  {
    if a == [] {
      assert a + b == b;
    } else {
      RenderConcat(a[1..], b);
      assert (a + b)[1..] == a[1..] + b;
    }
  }

  lemma RegroupEnd(front: string, mark: string, n: string, last: string)
    ensures front + (mark + (n + last)) == front + mark + n + last
    ensures mark != "" ==> |front + mark| > 0 && (front + mark)[|front + mark| - 1] == mark[|mark| - 1]
  {}

  lemma TrailerParts(size: nat, info: nat, xref: nat)
    ensures Trailer(size, info, xref) == TrailerFront(size, info) + Digits(xref) + Ending
    ensures |TrailerFront(size, info)| > 0 && TrailerFront(size, info)[|TrailerFront(size, info)| - 1] == '\n'
  {
    hide Digits, Render, TrailerDictionary;
    RenderConcat(TrailerDictionary(size, info), TrailerEnd(xref));
    LastPieces("startxref\n", xref, Ending);
    RegroupEnd(Render(TrailerDictionary(size, info)), "startxref\n", Digits(xref), Ending);
  }

  lemma LastPieces(mark: string, n: nat, last: string)
    ensures Render([Mark(mark), Num(n), Mark(last)]) == mark + (Digits(n) + last)
  {
    assert Render([Mark(last)]) == last;
    assert [Num(n), Mark(last)][1..] == [Mark(last)];
    assert [Mark(mark), Num(n), Mark(last)][1..] == [Num(n), Mark(last)];
  }

  lemma StartXrefIsRead(objects: seq<Indirect>, info: nat)
    ensures |File(objects, info)| >= |Ending|
    ensures ReadStartXref(File(objects, info)) == Offset(objects, |objects|)
  {
    hide Upto, XrefHead, Entries, Trailer, Offset, Digits, Value, RunStart, TrailerFront;
    var n, xref := |objects|, Offset(objects, |objects|);
    var body := Upto(objects, n) + XrefHead(n + 1) + Entries(objects, n);
    TrailerParts(n + 1, info, xref);
    var before := body + TrailerFront(n + 1, info);
    assert body + (TrailerFront(n + 1, info) + Digits(xref) + Ending) == before + Digits(xref) + Ending;
    NumberIsReadBackwards(before, Digits(xref), Ending);
    ValueOfDigits(xref);
  }

  lemma HeadParts(size: nat)
    ensures At(XrefHead(size), 7, Digits(size) + ['\n'])
    ensures At(XrefHead(size), 0, "xref\n")
    ensures |XrefHead(size)| == 8 + |Digits(size)|
  {}

  lemma HeadIsRead(objects: seq<Indirect>, info: nat)
    ensures var xref := Offset(objects, |objects|);
            && At(File(objects, info), xref, "xref\n") && xref + 7 <= |File(objects, info)|
            && ReadHead(File(objects, info), xref) == (|objects| + 1, xref + |XrefHead(|objects| + 1)|)
  {
    hide File, Upto, AfterObjects, XrefHead, Offset, At, Entries, ReadHead;
    FileParts(objects, info);
    HeadIsReadAt(File(objects, info), Offset(objects, |objects|), |objects| + 1);
  }

  lemma HeadIsReadAt(file: string, xref: nat, size: nat)
    requires At(file, xref, XrefHead(size))
    ensures At(file, xref, "xref\n") && xref + 7 <= |file|
    ensures ReadHead(file, xref) == (size, xref + |XrefHead(size)|)
  {
    hide XrefHead, Digits, Value, RunEnd, At;
    AtBound(file, xref, XrefHead(size));
    HeadParts(size);
    AtInside(file, xref, XrefHead(size), 0, "xref\n");
    AtInside(file, xref, XrefHead(size), 7, Digits(size) + ['\n']);
    NumberIsRead(file, xref + 7, Digits(size), '\n');
    ValueOfDigits(size);
  }

  lemma EntryParts(offset: nat)
    ensures Entry(offset) == (Padded(offset, OFFSET_DIGITS) + [' ']) + "00000 n \n"
  {}

  lemma EntryIsRead(objects: seq<Indirect>, info: nat, n: nat)
    requires 1 <= n <= |objects| && Small(objects)
    ensures var start := Offset(objects, |objects|) + |XrefHead(|objects| + 1)|;
            start + ENTRY_LENGTH * n <= |File(objects, info)|
            && ReadEntry(File(objects, info), start, n) == Offset(objects, n - 1)
  {
    hide File, Offset, XrefHead, Entry, Padded, At, RunEnd, Value, Small;
    EntryIsAt(objects, info, n);
    var file, offset := File(objects, info), Offset(objects, n - 1);
    var at := Offset(objects, |objects|) + |XrefHead(|objects| + 1)| + ENTRY_LENGTH * n;
    AtBound(file, at, Entry(offset));
    var digits := Padded(offset, OFFSET_DIGITS);
    EntryParts(offset);
    AtFront(digits + [' '], "00000 n \n");
    AtInside(file, at, Entry(offset), 0, digits + [' ']);
    NumberIsRead(file, at, digits, ' ');
    ValueOfPadded(offset, OFFSET_DIGITS);
  }

  // ---- Streams ------------------------------------------------------------------------------

  const LengthMark := " 0 obj<< /Length "
  const StreamMark := " >>stream\n"
  const StreamEnd := "\nendstream\nendobj\n"

  /** The bytes of the stream object that starts at `at`: as many as its /Length says, if the end follows there. */
  function ReadStream(file: string, at: nat): Option<string> {
    if at > |file| || !At(file, RunEnd(file, at), LengthMark) then None
    else
      var (length, afterLength) := ReadNumber(file, RunEnd(file, at) + |LengthMark|);
      var start := afterLength + |StreamMark|;
      if At(file, afterLength, StreamMark) && At(file, start + length, StreamEnd) then Some(file[start..start + length])
      else None
  }

  lemma PlainMarks()
    ensures Plain(LengthMark) && Plain(StreamMark)
  {}

  lemma RegroupStream(n: string, o: string, h: string, rest: string)
    ensures (n + o) + (h + rest) == n + ((o + h) + rest)
  {}

  lemma FivePieces(a: string, n: nat, b: string, c: string, d: string)
    ensures Render([Mark(a), Num(n), Mark(b), Mark(c), Mark(d)]) == a + (Digits(n) + (b + (c + d)))
  {
    hide Digits, Render;
    RenderFive([Mark(a), Num(n), Mark(b), Mark(c), Mark(d)]);
  }

  lemma StreamPieces(stream: string)
    ensures Pieces(ContentObj(stream)) ==
            [Mark("<< /Length "), Num(|stream|), Mark(StreamMark), Mark(stream), Mark(StreamEnd)]
  {}

  lemma StreamBody(stream: string)
    ensures Body(ContentObj(stream)) == "<< /Length " + (Digits(|stream|) + (StreamMark + (stream + StreamEnd)))
  {
    hide Digits, Render, Pieces, StreamMark, StreamEnd;
    StreamPieces(stream);
    FivePieces("<< /Length ", |stream|, StreamMark, stream, StreamEnd);
  }

  lemma StreamText(number: nat, stream: string)
    ensures Text(Indirect(number, ContentObj(stream))) ==
            Digits(number) + (LengthMark + (Digits(|stream|) + (StreamMark + (stream + StreamEnd))))
  {
    hide Digits, Body;
    StreamBody(stream);
    RegroupStream(Digits(number), " 0 obj", "<< /Length ", Digits(|stream|) + (StreamMark + (stream + StreamEnd)));
    assert " 0 obj" + "<< /Length " == LengthMark;
  }

  lemma RenderFive(pieces: seq<Piece>)
    requires |pieces| == 5
    ensures Render(pieces) == PieceText(pieces[0]) + (PieceText(pieces[1]) + (PieceText(pieces[2])
                              + (PieceText(pieces[3]) + PieceText(pieces[4]))))
  {
    hide PieceText, Render;
    RenderCons(pieces);
    RenderCons(pieces[1..]);
    RenderCons(pieces[2..]);
    RenderCons(pieces[3..]);
    RenderCons(pieces[4..]);
    assert pieces[1..][1..] == pieces[2..] && pieces[2..][1..] == pieces[3..];
    assert pieces[3..][1..] == pieces[4..] && pieces[4..][1..] == [];
    RenderNothing();
    assert PieceText(pieces[4]) + "" == PieceText(pieces[4]);
  }

  lemma RenderNothing()
    ensures Render([]) == ""
  {}

  lemma StreamIsReadAt(file: string, at: nat, number: nat, stream: string)
    requires At(file, at, Text(Indirect(number, ContentObj(stream))))
    ensures ReadStream(file, at) == Some(stream)
  {
    hide ReadNumber, Digits, Text, At, Plain, LengthMark, StreamMark, StreamEnd;
    StreamText(number, stream);
    PlainMarks();
    var body := stream + StreamEnd;
    var second := StreamMark + body;
    var first := LengthMark + (Digits(|stream|) + second);
    PlainFront(StreamMark, body);
    PlainFront(LengthMark, Digits(|stream|) + second);
    PrintedIsRead(file, at, number, first);
    NumberEnds(file, at);
    var p := at + |Digits(number)|;
    MarkedIsRead(file, p, LengthMark, |stream|, second);
    p := p + |LengthMark| + |Digits(|stream|)|;
    AtSplit(file, p, StreamMark, body);
    AtSplit(file, p + |StreamMark|, stream, StreamEnd);
    AtIs(file, p + |StreamMark|, stream);
  }

  lemma NumberEnds(file: string, at: nat)
    requires at <= |file|
    ensures ReadNumber(file, at).1 == RunEnd(file, at)
  {}

  // ---- What objects look like ---------------------------------------------------------------

  const TRAILER := [Fixed("trailer<< /Size "), ANumber, Fixed(" /Root "), ANumber, Fixed(" 0 R /Info "), ANumber,
                    Fixed(" 0 R >>\n"), Fixed("startxref\n"), ANumber, Fixed("\n%%EOF\n")]

  const CATALOG := [
    Fixed("<< /Type /Catalog /Pages "), ANumber, Fixed(" 0 R /Lang (en-US) /StructTreeRoot "), ANumber,
    Fixed(" 0 R /MarkInfo << /Marked true >>"), Fixed(" /ViewerPreferences << /DisplayDocTitle true >> >>endobj\n")]

  const PAGE_TREE := [Fixed("<< /Type /Pages /Kids ["), SomeRefs, Fixed("] /Count "), ANumber, Fixed(" >>endobj\n")]

  const PAGE := [
    Fixed("<< /Type /Page /Parent "), ANumber, Fixed(" 0 R /StructParents "), ANumber,
    Fixed(" /MediaBox [0 0 792 612] /Contents "), ANumber, Fixed(" 0 R /Resources << /Font << /F1 "), ANumber,
    Fixed(" 0 R /F2 "), ANumber, Fixed(" 0 R >> >> >>endobj\n")]

  const FONT := [
    Fixed("<< /Type /Font /Subtype /Type1 /BaseFont /"), AName, Fixed(" /Encoding /WinAnsiEncoding >>endobj\n")]

  const STRUCT_ROOT := [
    Fixed("<< /Type /StructTreeRoot /K "), ANumber, Fixed(" 0 R /ParentTree "), ANumber,
    Fixed(" 0 R /ParentTreeNextKey "), ANumber, Fixed(" >>endobj\n")]

  const PARENT_TREE := [Fixed("<< /Nums ["), ATree, Fixed("] >>endobj\n")]

  const DOCUMENT := [
    Fixed("<< /Type /StructElem /S /Document /P "), ANumber, Fixed(" 0 R /K ["), SomeRefs, Fixed("] >>endobj\n")]

  const ELEMENT := [
    Fixed("<< /Type /StructElem /S /"), AName, Fixed(" /P "), ANumber, Fixed(" 0 R /Pg "), ANumber,
    Fixed(" 0 R /K "), ANumber, Fixed(" >>endobj\n")]

  lemma TrailerIsReadAt(file: string, at: nat, size: nat, info: nat, xref: nat)
    requires At(file, at, Trailer(size, info, xref))
    ensures Parse(file, at, TRAILER) == Some(TrailerPieces(size, info, xref))
  {
    hide At, Parse, Render;
    var pieces := TrailerPieces(size, info, xref);
    assert Slots(pieces) == TRAILER;
    assert Readable(pieces);
    assert Render(pieces) + "" == Render(pieces);
    PiecesAreRead(file, at, pieces, "");
  }

  // ---- Reading a whole report ---------------------------------------------------------------

  /** What a reader that starts from nothing but the bytes gets for object n. */
  predicate Finds(file: string, count: nat, n: nat, mark: string, text: string) {
    && |file| >= |Ending|
    && var xref := ReadStartXref(file);
    && At(file, xref, "xref\n") && xref + 7 <= |file|
    && var (size, start) := ReadHead(file, xref);
    && size == count + 1
    && start + ENTRY_LENGTH * n <= |file|
    && At(file, ReadEntry(file, start, n), mark)
    && At(file, ReadEntry(file, start, n), text)
  }

  /** What it gets from the trailer after the table. */
  predicate Describes(file: string, size: nat, root: nat, info: nat) {
    && |file| >= |Ending| && ReadStartXref(file) + 7 <= |file|
    && var (count, start) := ReadHead(file, ReadStartXref(file));
    && count == size
    && At(file, start, "0000000000 65535 f \n")
    && var trailer := Parse(file, start + ENTRY_LENGTH * count, TRAILER);
    && trailer.Some? && |trailer.value| == |TRAILER|
    && trailer.value[1] == Num(size) && trailer.value[3] == Num(root) && trailer.value[5] == Num(info)
  }

  /** Object n, found through the table and its label, if it looks as expected. */
  function Fetch(file: string, n: nat, slots: seq<Slot>): Option<seq<Piece>> {
    if |file| < |Ending| || ReadStartXref(file) + 7 > |file| then None
    else
      var (_, start) := ReadHead(file, ReadStartXref(file));
      if start + ENTRY_LENGTH * n > |file| || ReadEntry(file, start, n) > |file| then None
      else
        var (number, end) := ReadNumber(file, ReadEntry(file, start, n));
        if number == n && At(file, end, " 0 obj") then Parse(file, end + 6, slots) else None
  }

  /** What it gets for the stream of object n. */
  predicate Streams(file: string, n: nat, stream: string) {
    && |file| >= |Ending| && ReadStartXref(file) + 7 <= |file|
    && var (count, start) := ReadHead(file, ReadStartXref(file));
    && start + ENTRY_LENGTH * n <= |file|
    && ReadStream(file, ReadEntry(file, start, n)) == Some(stream)
  }

  /**
   * The reader finds the table through startxref, reads from its head one more than the number of objects, and
   * through entry n arrives at the label and the text of object n.
   */
  lemma ReaderFindsEveryObject(pages: seq<Page>, info: string, n: nat)
    requires 1 <= n <= |Objects(pages, info)| && Small(Objects(pages, info))
    ensures var objects := Objects(pages, info);
            Finds(File(objects, InfoId(pages)), |objects|, n, Label(n), Text(objects[n - 1]))
  {
    hide Objects, InfoId, File, Offset, Text, Label, At, ReadStartXref, ReadHead, ReadEntry, XrefHead, Small;
    var objects := Objects(pages, info);
    NumbersArePositions(pages, info, n - 1);
    StartXrefIsRead(objects, InfoId(pages));
    HeadIsRead(objects, InfoId(pages));
    EntryIsRead(objects, InfoId(pages), n);
    ObjectIsAtOffset(objects, InfoId(pages), n);
  }

  lemma TrailerFollows(objects: seq<Indirect>, info: nat)
    requires Small(objects)
    ensures var start := Offset(objects, |objects|) + |XrefHead(|objects| + 1)|;
            At(File(objects, info), start + ENTRY_LENGTH * (|objects| + 1), Trailer(|objects| + 1, info, Offset(objects, |objects|)))
  {
    hide File, Upto, XrefHead, Entries, Trailer, Offset, At, Small, AfterObjects;
    FileParts(objects, info);
    EntriesLength(objects, |objects|);
  }

  lemma InfoIsKnown(pages: seq<Page>, info: string)
    ensures |Objects(pages, info)| >= 1 && Known(pages, info, InfoId(pages))
    ensures Target(pages, info, 1).Catalog? && Target(pages, info, InfoId(pages)) == InfoObj(info)
  {
    FixedReferences(pages, info);
  }

  lemma StreamIsKnown(pages: seq<Page>, info: string, i: nat)
    requires i < |pages|
    ensures 1 <= ContentId(i) <= |Objects(pages, info)|
    ensures Objects(pages, info)[ContentId(i) - 1] == Indirect(ContentId(i), ContentObj(pages[i].stream))
  {
    hide Objects;
    PageReferences(pages, info, i);
    NumbersArePositions(pages, info, ContentId(i) - 1);
  }

  lemma FreeEntryFollows(objects: seq<Indirect>, info: nat)
    ensures At(File(objects, info), Offset(objects, |objects|) + |XrefHead(|objects| + 1)|, "0000000000 65535 f \n")
  {
    hide File, Upto, XrefHead, Trailer, Offset, At, AfterObjects;
    FileParts(objects, info);
    EntriesStartFree(objects, |objects|);
    AtInside(File(objects, info), Offset(objects, |objects|) + |XrefHead(|objects| + 1)|, Entries(objects, |objects|), 0, FreeEntry);
  }

  lemma {:induction false} EntriesStartFree(objects: seq<Indirect>, n: nat)
    requires n <= |objects|
    ensures At(Entries(objects, n), 0, FreeEntry)
  {
    hide Entry, Offset, FreeEntry;
    if n > 0 {
      EntriesStartFree(objects, n - 1);
      AtGrows(Entries(objects, n - 1), 0, FreeEntry, Entry(Offset(objects, n - 1)));
    }
  }

  /**
   * The trailer after the last entry says how many objects there are, counting the free one, and names the catalog
   * and the information dictionary.
   */
  lemma ReaderReadsTrailer(pages: seq<Page>, info: string)
    requires Small(Objects(pages, info))
    ensures var size := |Objects(pages, info)| + 1;
            Describes(File(Objects(pages, info), InfoId(pages)), size, 1, InfoId(pages))
    ensures |Objects(pages, info)| >= 1 && Known(pages, info, InfoId(pages))
    ensures Target(pages, info, 1).Catalog? && Target(pages, info, InfoId(pages)) == InfoObj(info)
  {
    hide Objects, InfoId, File, Offset, Trailer, At, ReadStartXref, ReadHead, Parse, XrefHead, Small, Target, Known;
    InfoIsKnown(pages, info);
    var objects := Objects(pages, info);
    StartXrefIsRead(objects, InfoId(pages));
    HeadIsRead(objects, InfoId(pages));
    TrailerFollows(objects, InfoId(pages));
    TrailerIsReadAt(File(objects, InfoId(pages)),
                    Offset(objects, |objects|) + |XrefHead(|objects| + 1)| + ENTRY_LENGTH * (|objects| + 1),
                    |objects| + 1, InfoId(pages), Offset(objects, |objects|));
    FreeEntryFollows(objects, InfoId(pages));
  }

  /** Through the table and its own /Length the reader gets every page's content stream back, byte for byte. */
  lemma ReaderReadsEveryStream(pages: seq<Page>, info: string, i: nat)
    requires i < |pages| && Small(Objects(pages, info))
    ensures Streams(File(Objects(pages, info), InfoId(pages)), ContentId(i), pages[i].stream)
  {
    hide Objects, InfoId, ContentId, File, Offset, Text, At, ReadStartXref, ReadHead, ReadEntry, ReadStream, XrefHead, Small;
    var objects, n := Objects(pages, info), ContentId(i);
    StreamIsKnown(pages, info, i);
    StartXrefIsRead(objects, InfoId(pages));
    HeadIsRead(objects, InfoId(pages));
    EntryIsRead(objects, InfoId(pages), n);
    ObjectIsAtOffset(objects, InfoId(pages), n);
    StreamIsReadAt(File(objects, InfoId(pages)), Offset(objects, n - 1), n, pages[i].stream);
  }

  // ---- Every reference, from the bytes --------------------------------------------------------

  lemma ObjectIsReadAt(file: string, at: nat, n: nat, pieces: seq<Piece>)
    requires At(file, at, Label(n) + Render(pieces)) && Readable(pieces)
    ensures at <= |file| && ReadNumber(file, at).0 == n && At(file, ReadNumber(file, at).1, " 0 obj")
    ensures Parse(file, ReadNumber(file, at).1 + 6, Slots(pieces)) == Some(pieces)
  {
    hide At, Parse, Render, ReadNumber, Digits, Readable;
    assert Label(n) + Render(pieces) == Digits(n) + (" 0 obj" + Render(pieces));
    PlainLabel(Render(pieces));
    PrintedIsRead(file, at, n, " 0 obj" + Render(pieces));
    AtSplit(file, at + |Digits(n)|, " 0 obj", Render(pieces));
    assert Render(pieces) + "" == Render(pieces);
    PiecesAreRead(file, at + |Digits(n)| + 6, pieces, "");
  }

  lemma PlainLabel(rest: string)
    ensures Plain(" 0 obj" + rest)
  {}

  /** The reader gets every object back as it was written. */
  lemma ObjectIsFetched(pages: seq<Page>, info: string, n: nat)
    requires 1 <= n <= |Objects(pages, info)| && Small(Objects(pages, info))
    requires Readable(Pieces(Objects(pages, info)[n - 1].obj))
    ensures var pieces := Pieces(Objects(pages, info)[n - 1].obj);
            Fetch(File(Objects(pages, info), InfoId(pages)), n, Slots(pieces)) == Some(pieces)
  {
    hide Objects, InfoId, File, Offset, Label, At, Parse, ReadStartXref, ReadHead, ReadEntry, XrefHead, Small;
    hide Pieces, Slots, Readable, Render, ReadNumber;
    var objects := Objects(pages, info);
    var file, at := File(objects, InfoId(pages)), Offset(objects, n - 1);
    NumbersArePositions(pages, info, n - 1);
    StartXrefIsRead(objects, InfoId(pages));
    HeadIsRead(objects, InfoId(pages));
    EntryIsRead(objects, InfoId(pages), n);
    ObjectIsAtOffset(objects, InfoId(pages), n);
    TextParts(objects[n - 1]);
    ObjectIsReadAt(file, at, n, Pieces(objects[n - 1].obj));
  }

  /** What the reader gets for object n of a report. */
  function Got(pages: seq<Page>, info: string, n: nat, slots: seq<Slot>): Option<seq<Piece>> {
    Fetch(File(Objects(pages, info), InfoId(pages)), n, slots)
  }

  lemma IsGot(pages: seq<Page>, info: string, n: nat, o: Obj, slots: seq<Slot>)
    requires 1 <= n <= |Objects(pages, info)| && Target(pages, info, n) == o && Small(Objects(pages, info))
    requires Slots(Pieces(o)) == slots && Readable(Pieces(o))
    ensures Got(pages, info, n, slots) == Some(Pieces(o))
  {
    hide Objects, Fetch, File, Small, Pieces, Slots, Readable;
    ObjectIsFetched(pages, info, n);
  }

  lemma CatalogLooks(pages: nat, root: nat)
    ensures var p := Pieces(Catalog(pages, root));
            Slots(p) == CATALOG && Readable(p) && |p| == 6 && p[1] == Num(pages) && p[3] == Num(root)
  {}

  lemma PageTreeLooks(kids: seq<nat>)
    ensures var p := Pieces(PageTree(kids));
            Slots(p) == PAGE_TREE && Readable(p) && |p| == 5 && p[1] == Refs(kids) && p[3] == Num(|kids|)
  {}

  lemma PageLooks(i: nat, parent: nat, contents: nat, regular: nat, bold: nat)
    ensures var p := Pieces(PageObj(i, parent, contents, regular, bold));
            && Slots(p) == PAGE && Readable(p) && |p| == 11 && p[1] == Num(parent) && p[3] == Num(i)
            && p[5] == Num(contents) && p[7] == Num(regular) && p[9] == Num(bold)
  {}

  lemma FontLooks(name: string)
    requires NoBlanks(name)
    ensures var p := Pieces(FontObj(name)); Slots(p) == FONT && Readable(p) && |p| == 3 && p[1] == Word(name)
  {}

  lemma StructRootLooks(document: nat, parentTree: nat, nextKey: nat)
    ensures var p := Pieces(StructRoot(document, parentTree, nextKey));
            && Slots(p) == STRUCT_ROOT && Readable(p) && |p| == 7
            && p[1] == Num(document) && p[3] == Num(parentTree) && p[5] == Num(nextKey)
  {}

  lemma ParentTreeLooks(entries: seq<seq<nat>>)
    ensures var p := Pieces(ParentTree(entries));
            && Slots(p) == PARENT_TREE && Readable(p) && |p| == 3 && p[1].Tree? && |p[1].entries| == |entries|
            && forall i :: 0 <= i < |entries| ==> p[1].entries[i] == (i, entries[i])
  {}

  lemma DocumentLooks(root: nat, kids: seq<nat>)
    ensures var p := Pieces(DocumentObj(root, kids));
            Slots(p) == DOCUMENT && Readable(p) && |p| == 5 && p[1] == Num(root) && p[3] == Refs(kids)
  {}

  lemma ElementLooks(role: string, document: nat, page: nat, mcid: nat)
    requires NoBlanks(role)
    ensures var p := Pieces(ElemObj(role, document, page, mcid));
            && Slots(p) == ELEMENT && Readable(p) && |p| == 9
            && p[1] == Word(role) && p[3] == Num(document) && p[5] == Num(page) && p[7] == Num(mcid)
  {}

  /** The catalog names the page tree and the structure root. */
  lemma ReaderReadsCatalog(pages: seq<Page>, info: string)
    requires Small(Objects(pages, info))
    ensures Got(pages, info, 1, CATALOG).Some?
    ensures var catalog := Got(pages, info, 1, CATALOG).value;
            |catalog| == 6 && catalog[1] == Num(2) && catalog[3] == Num(StructRootId(pages))
  {
    hide Objects, Got, Small, Pieces, Slots, Readable, CATALOG;
    FixedReferences(pages, info);
    CatalogLooks(2, StructRootId(pages));
    IsGot(pages, info, 1, Catalog(2, StructRootId(pages)), CATALOG);
  }

  /** The page tree lists every page, in order, and counts them. */
  lemma ReaderReadsPageTree(pages: seq<Page>, info: string)
    requires Small(Objects(pages, info))
    ensures Got(pages, info, 2, PAGE_TREE).Some?
    ensures var tree := Got(pages, info, 2, PAGE_TREE).value;
            |tree| == 5 && tree[1] == Refs(seq(|pages|, i => 3 + 2 * i)) && tree[3] == Num(|pages|)
  {
    hide Objects, Got, Small, Pieces, Slots, Readable, PAGE_TREE;
    PageTreeIsKnown(pages, info);
    var kids := seq(|pages|, i => 3 + 2 * i);
    PageTreeLooks(kids);
    IsGot(pages, info, 2, PageTree(kids), PAGE_TREE);
  }

  lemma PageTreeIsKnown(pages: seq<Page>, info: string)
    ensures |Objects(pages, info)| >= 2 && Objects(pages, info)[1].obj == PageTree(seq(|pages|, i => 3 + 2 * i))
  {
    assert PageKids(|pages|) == seq(|pages|, i => 3 + 2 * i);
  }

  /** Every page names the page tree, its own index, its content stream and the two fonts. */
  lemma ReaderReadsEveryPage(pages: seq<Page>, info: string, i: nat)
    requires i < |pages| && Small(Objects(pages, info))
    ensures Got(pages, info, 3 + 2 * i, PAGE).Some?
    ensures var page := Got(pages, info, 3 + 2 * i, PAGE).value;
            && |page| == 11 && page[1] == Num(2) && page[3] == Num(i) && page[5] == Num(4 + 2 * i)
            && page[7] == Num(RegularFontId(pages)) && page[9] == Num(BoldFontId(pages))
  {
    hide Objects, Got, Small, Pieces, Slots, Readable, PAGE;
    PageReferences(pages, info, i);
    PageLooks(i, 2, 4 + 2 * i, RegularFontId(pages), BoldFontId(pages));
    IsGot(pages, info, 3 + 2 * i, PageObj(i, 2, 4 + 2 * i, RegularFontId(pages), BoldFontId(pages)), PAGE);
  }

  /** The two fonts are Helvetica and Helvetica-Bold. */
  lemma ReaderReadsFonts(pages: seq<Page>, info: string)
    requires Small(Objects(pages, info))
    ensures var regular, bold := Got(pages, info, RegularFontId(pages), FONT), Got(pages, info, BoldFontId(pages), FONT);
            && regular.Some? && |regular.value| == 3 && regular.value[1] == Word("Helvetica")
            && bold.Some? && |bold.value| == 3 && bold.value[1] == Word("Helvetica-Bold")
  {
    hide Objects, Got, Small, Pieces, Slots, Readable, FONT;
    FixedReferences(pages, info);
    FontLooks("Helvetica");
    FontLooks("Helvetica-Bold");
    IsGot(pages, info, RegularFontId(pages), FontObj("Helvetica"), FONT);
    IsGot(pages, info, BoldFontId(pages), FontObj("Helvetica-Bold"), FONT);
  }

  /** The structure root, the parent tree with one entry per page, and the document with all elements in order. */
  lemma ReaderReadsStructure(pages: seq<Page>, info: string)
    requires Small(Objects(pages, info))
    ensures Got(pages, info, StructRootId(pages), STRUCT_ROOT).Some?
    ensures Got(pages, info, ParentTreeId(pages), PARENT_TREE).Some? && Got(pages, info, DocumentId(pages), DOCUMENT).Some?
    ensures var root := Got(pages, info, StructRootId(pages), STRUCT_ROOT).value;
            |root| == 7 && root[1] == Num(DocumentId(pages)) && root[3] == Num(ParentTreeId(pages)) && root[5] == Num(|pages|)
    ensures var tree := Got(pages, info, ParentTreeId(pages), PARENT_TREE).value;
            && |tree| == 3 && tree[1].Tree? && |tree[1].entries| == |pages|
            && forall i :: 0 <= i < |pages| ==> tree[1].entries[i] == (i, ElemIds(pages, i))
    ensures var document := Got(pages, info, DocumentId(pages), DOCUMENT).value;
            |document| == 5 && document[1] == Num(StructRootId(pages)) && document[3] == Refs(Concat(IdsByPage(pages)))
  {
    hide Objects, Got, Small, Pieces, Slots, Readable, STRUCT_ROOT, PARENT_TREE, DOCUMENT, Concat, ElemIds;
    FixedReferences(pages, info);
    StructureIsKnown(pages, info);
    var ids := IdsByPage(pages);
    StructRootLooks(DocumentId(pages), ParentTreeId(pages), |pages|);
    ParentTreeLooks(ids);
    DocumentLooks(StructRootId(pages), Concat(ids));
    IsGot(pages, info, StructRootId(pages), StructRoot(DocumentId(pages), ParentTreeId(pages), |pages|), STRUCT_ROOT);
    IsGot(pages, info, ParentTreeId(pages), ParentTree(ids), PARENT_TREE);
    IsGot(pages, info, DocumentId(pages), DocumentObj(StructRootId(pages), Concat(ids)), DOCUMENT);
  }

  lemma StructureIsKnown(pages: seq<Page>, info: string)
    ensures Known(pages, info, DocumentId(pages))
    ensures Target(pages, info, ParentTreeId(pages)) == ParentTree(IdsByPage(pages))
    ensures Target(pages, info, DocumentId(pages)) == DocumentObj(StructRootId(pages), Concat(IdsByPage(pages)))
  {
    ObjectCount(pages, info);
    PagePartNumbers(pages, |pages|);
    var p := |pages|;
    forall k | 0 <= k < 6 ensures Objects(pages, info)[2 + 2 * p + k] == Middle(pages, info)[k] {}
  }

  /** Every element names its role, the document, its page and its marked content; roles are names without blanks. */
  lemma ReaderReadsEveryElement(pages: seq<Page>, info: string, i: nat, m: nat)
    requires i < |pages| && m < |pages[i].roles| && Small(Objects(pages, info)) && NoBlanks(pages[i].roles[m])
    ensures Got(pages, info, ElemId(pages, i, m), ELEMENT).Some?
    ensures var element := Got(pages, info, ElemId(pages, i, m), ELEMENT).value;
            && |element| == 9 && element[1] == Word(pages[i].roles[m]) && element[3] == Num(DocumentId(pages))
            && element[5] == Num(3 + 2 * i) && element[7] == Num(m)
  {
    hide Objects, Got, Small, Pieces, Slots, Readable, ELEMENT, NoBlanks;
    StructureReferences(pages, info, i, m);
    var role := pages[i].roles[m];
    ElementLooks(role, DocumentId(pages), 3 + 2 * i, m);
    IsGot(pages, info, ElemId(pages, i, m), ElemObj(role, DocumentId(pages), 3 + 2 * i, m), ELEMENT);
  }

  lemma InfoText(n: nat, fields: string)
    ensures Text(Indirect(n, InfoObj(fields))) == Digits(n) + " 0 obj" + ("<< " + (fields + ">>endobj\n"))
  {
    hide Render;
    var pieces := Pieces(InfoObj(fields));
    RenderCons(pieces);
    RenderCons(pieces[1..]);
    RenderCons(pieces[2..]);
    assert pieces[1..][1..] == pieces[2..] && pieces[2..][1..] == [];
    RenderNothing();
    assert ">>endobj\n" + "" == ">>endobj\n";
  }

  /** Where the table's entry for /Info leads, the dictionary stands with all of its text. */
  lemma ReaderFindsInfo(pages: seq<Page>, info: string)
    requires Small(Objects(pages, info))
    ensures Finds(File(Objects(pages, info), InfoId(pages)), |Objects(pages, info)|, InfoId(pages), Label(InfoId(pages)),
                  Digits(InfoId(pages)) + " 0 obj" + ("<< " + (info + ">>endobj\n")))
  {
    hide Objects, Finds, File, Small, Text, Label, Digits;
    FixedReferences(pages, info);
    var n := InfoId(pages);
    NumbersArePositions(pages, info, n - 1);
    assert Objects(pages, info)[n - 1] == Indirect(n, InfoObj(info));
    InfoText(n, info);
    ReaderFindsEveryObject(pages, info, n);
  }

  /** The file starts as a PDF 1.4 file with a comment of four bytes above 127. */
  lemma StartsAsPdf(objects: seq<Indirect>, info: nat)
    ensures At(File(objects, info), 0, "%PDF-1.4\n%\U{E2}\U{E3}\U{CF}\U{D3}\n")
  {
    hide Text, Trailer, Entries, XrefHead, At;
    UptoStarts(objects, |objects|);
    AtGrows(Upto(objects, |objects|), 0, HEADER, AfterObjects(objects, info));
    FileParts(objects, info);
  }

  lemma {:induction false} UptoStarts(objects: seq<Indirect>, n: nat)
    requires n <= |objects|
    ensures At(Upto(objects, n), 0, HEADER)
  {
    hide Text, HEADER;
    if n > 0 {
      UptoStarts(objects, n - 1);
      AtGrows(Upto(objects, n - 1), 0, HEADER, Text(objects[n - 1]));
    }
  }
}
