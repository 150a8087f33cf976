/**
 * The text of PDF objects as marks and fields, and a parser of it: numbers, names, lists of indirect references
 * (section 7.3.10 of ISO 32000-1) and number trees (section 7.9.7). Whatever is written is read back.
 */
module PdfSyntax {
  import opened Prelude
  import opened Decimal

  // ---- Places in a file ---------------------------------------------------------------------

  predicate At(file: string, at: nat, text: string) { at + |text| <= |file| && file[at..at + |text|] == text }

  lemma AtInside(file: string, at: nat, outer: string, offset: nat, inner: string)
    requires At(file, at, outer) && At(outer, offset, inner)
    ensures At(file, at + offset, inner)
  {
    forall k | 0 <= k < |inner| ensures file[at + offset + k] == inner[k] {
      assert file[at..at + |outer|][offset + k] == outer[offset + k];
      assert outer[offset..offset + |inner|][k] == inner[k];
    }
  }

  lemma AtFront(text: string, after: string)
    ensures At(text + after, 0, text)
  {}

  lemma AtBack(before: string, text: string)
    ensures At(before + text, |before|, text)
  {}

  lemma AtGrows(file: string, at: nat, text: string, after: string)
    requires At(file, at, text)
    ensures At(file + after, at, text)
  {}

  lemma AtBound(file: string, at: nat, text: string)
    requires At(file, at, text)
    ensures at + |text| <= |file|
  {}

  lemma AtSplit(file: string, at: nat, front: string, back: string)
    requires At(file, at, front + back)
    ensures At(file, at, front) && At(file, at + |front|, back)
  {
    var all := front + back;
    assert file[at..at + |front|] == file[at..at + |all|][..|front|];
    assert file[at + |front|..at + |front| + |back|] == file[at..at + |all|][|front|..];
  }

  lemma AtIs(file: string, at: nat, text: string)
    requires At(file, at, text)
    ensures at + |text| <= |file| && file[at..at + |text|] == text
  {}

  // ---- Numbers ------------------------------------------------------------------------------

  /** The number at a position, and where the text after it starts. */
  function ReadNumber(file: string, at: nat): (nat, nat)
    requires at <= |file|
  {
    (Value(file[at..RunEnd(file, at)]), RunEnd(file, at))
  }

  /** Digits followed by something else are read back as the number they spell. */
  lemma NumberIsRead(file: string, at: nat, digits: string, after: char)
    requires AllDigits(digits) && !IsDigit(after) && At(file, at, digits + [after])
    ensures RunEnd(file, at) == at + |digits| && file[at..at + |digits|] == digits
  {
    var text := digits + [after];
    assert file[at..at + |digits|] == file[at..at + |text|][..|digits|] == digits;
    assert file[at + |digits|] == file[at..at + |text|][|digits|] == after;
    RunEndIs(file, at, at + |digits|);
  }

  /** A text that cannot be taken for more digits. */
  predicate Plain(mark: string) { mark != "" && !IsDigit(mark[0]) }

  /** A printed number is read back, and the text after it follows. */
  lemma PrintedIsRead(file: string, at: nat, n: nat, after: string)
    requires At(file, at, Digits(n) + after) && Plain(after)
    ensures at <= |file| && ReadNumber(file, at) == (n, at + |Digits(n)|)
    ensures At(file, at + |Digits(n)|, after)
  {
    AtSplit(file, at, Digits(n), after);
    assert Digits(n) + after == (Digits(n) + [after[0]]) + after[1..];
    AtSplit(file, at, Digits(n) + [after[0]], after[1..]);
    NumberIsRead(file, at, Digits(n), after[0]);
    ValueOfDigits(n);
  }

  lemma PlainFront(mark: string, rest: string)
    requires Plain(mark)
    ensures Plain(mark + rest)
  {}

  /** A mark and the number after it. */
  lemma MarkedIsRead(file: string, at: nat, mark: string, n: nat, after: string)
    requires At(file, at, mark + (Digits(n) + after)) && Plain(after)
    ensures At(file, at, mark) && at + |mark| <= |file|
    ensures ReadNumber(file, at + |mark|) == (n, at + |mark| + |Digits(n)|)
    ensures At(file, at + |mark| + |Digits(n)|, after)
  {
    hide ReadNumber, Digits, At;
    AtSplit(file, at, mark, Digits(n) + after);
    PrintedIsRead(file, at + |mark|, n, after);
  }

  // ---- Lists of references ------------------------------------------------------------------

  function Ref(n: nat): string { Digits(n) + " 0 R" }

  function RefsText(ids: seq<nat>): string {
    if ids == [] then ""
    else if |ids| == 1 then Ref(ids[0])
    else Ref(ids[0]) + " " + RefsText(ids[1..])
  }

  /** The references from `at` on, as long as one follows another after a blank, and where they end. */
  function ReadRefs(file: string, at: nat): (r: (seq<nat>, nat))
    requires at <= |file|
    ensures at <= r.1 <= |file|
    decreases |file| - at
  {
    if at == |file| || !IsDigit(file[at]) then ([], at)
    else
      var (n, end) := ReadNumber(file, at);
      if !At(file, end, " 0 R") then ([], at)
      else if At(file, end + 4, " ") then
        var (rest, last) := ReadRefs(file, end + 5);
        ([n] + rest, last)
      else ([n], end + 4)
  }

  /** What may follow a list: neither a digit nor a blank. */
  predicate Closes(after: string) { after != "" && !IsDigit(after[0]) && after[0] != ' ' }

  lemma OneRefIsRead(file: string, at: nat, n: nat, after: string)
    requires At(file, at, Ref(n) + after) && after != ""
    ensures at < |file| && IsDigit(file[at]) && ReadNumber(file, at) == (n, at + |Digits(n)|)
    ensures At(file, at + |Digits(n)|, " 0 R") && At(file, at + |Digits(n)| + 4, after)
  {
    assert Ref(n) + after == Digits(n) + (" 0 R" + after);
    PrintedIsRead(file, at, n, " 0 R" + after);
    AtSplit(file, at + |Digits(n)|, " 0 R", after);
    FirstDigit(file, at, n, " 0 R" + after);
  }

  lemma FirstDigit(file: string, at: nat, n: nat, after: string)
    requires At(file, at, Digits(n) + after)
    ensures at < |file| && IsDigit(file[at])
  {
    assert file[at] == file[at..at + |Digits(n) + after|][0] == Digits(n)[0];
  }

  lemma Starts(file: string, at: nat, text: string)
    requires At(file, at, text) && text != ""
    ensures at < |file| && file[at] == text[0]
  {
    assert file[at] == file[at..at + |text|][0];
  }

  /** A list is read back as it was written. */
  lemma {:induction false} RefsAreRead(file: string, at: nat, ids: seq<nat>, after: string)
    requires At(file, at, RefsText(ids) + after) && Closes(after)
    ensures at <= |file| && ReadRefs(file, at) == (ids, at + |RefsText(ids)|)
    ensures At(file, at + |RefsText(ids)|, after)
    decreases |ids|
  {
    hide At, ReadNumber, Digits, IsDigit, Ref;
    if ids == [] {
      assert RefsText(ids) + after == after;
      Starts(file, at, after);
    } else if |ids| == 1 {
      OneRefIsRead(file, at, ids[0], after);
      RefLength(ids[0]);
      NoBlank(file, at + |Digits(ids[0])| + 4, after);
      assert ids == [ids[0]];
    } else {
      var rest := RefsText(ids[1..]) + after;
      assert RefsText(ids) + after == Ref(ids[0]) + (" " + rest);
      OneRefIsRead(file, at, ids[0], " " + rest);
      RefLength(ids[0]);
      AtSplit(file, at + |Digits(ids[0])| + 4, " ", rest);
      RefsAreRead(file, at + |Digits(ids[0])| + 5, ids[1..], after);
      assert ids == [ids[0]] + ids[1..];
    }
  }

  lemma RefLength(n: nat)
    ensures |Ref(n)| == |Digits(n)| + 4
  {}

  lemma NoBlank(file: string, at: nat, after: string)
    requires At(file, at, after) && Closes(after)
    ensures !At(file, at, " ")
  {
    Starts(file, at, after);
  }

  // ---- Number trees -------------------------------------------------------------------------

  function EntryText(entry: (nat, seq<nat>)): string { Digits(entry.0) + " [" + RefsText(entry.1) + "]" }

  function TreeText(entries: seq<(nat, seq<nat>)>): string {
    if entries == [] then ""
    else if |entries| == 1 then EntryText(entries[0])
    else EntryText(entries[0]) + " " + TreeText(entries[1..])
  }

  /** The entries of a number tree: each is a key and a bracketed list. */
  function ReadTree(file: string, at: nat): (r: (seq<(nat, seq<nat>)>, nat))
    requires at <= |file|
    ensures at <= r.1 <= |file|
    decreases |file| - at
  {
    if at == |file| || !IsDigit(file[at]) then ([], at)
    else
      var (key, end) := ReadNumber(file, at);
      if !At(file, end, " [") then ([], at)
      else
        var (ids, close) := ReadRefs(file, end + 2);
        if !At(file, close, "]") then ([], at)
        else if At(file, close + 1, " ") then
          var (rest, last) := ReadTree(file, close + 2);
          ([(key, ids)] + rest, last)
        else ([(key, ids)], close + 1)
  }

  lemma OneEntryIsRead(file: string, at: nat, entry: (nat, seq<nat>), after: string)
    requires At(file, at, EntryText(entry) + after)
    ensures at < |file| && IsDigit(file[at])
    ensures var (key, end) := ReadNumber(file, at);
            && key == entry.0 && At(file, end, " [") && ReadRefs(file, end + 2).0 == entry.1
            && At(file, ReadRefs(file, end + 2).1, "]") && ReadRefs(file, end + 2).1 + 1 == at + |EntryText(entry)|
    ensures At(file, at + |EntryText(entry)|, after)
  {
    hide At, ReadNumber, Digits, IsDigit, RefsText, ReadRefs, Closes, Plain;
    var digits, list := Digits(entry.0), RefsText(entry.1);
    RegroupEntry(digits, list, after);
    FirstDigit(file, at, entry.0, " [" + (list + ("]" + after)));
    PlainBracket(list + ("]" + after));
    PrintedIsRead(file, at, entry.0, " [" + (list + ("]" + after)));
    AtSplit(file, at + |digits|, " [", list + ("]" + after));
    ClosingBracket(after);
    RefsAreRead(file, at + |digits| + 2, entry.1, "]" + after);
    AtSplit(file, at + |digits| + 2 + |list|, "]", after);
  }

  lemma RegroupEntry(digits: string, list: string, after: string)
    ensures digits + " [" + list + "]" + after == digits + (" [" + (list + ("]" + after)))
  {}

  lemma PlainBracket(rest: string)
    ensures Plain(" [" + rest)
  {}

  lemma ClosingBracket(after: string)
    ensures Closes("]" + after)
  {}

  lemma {:induction false} TreeIsRead(file: string, at: nat, entries: seq<(nat, seq<nat>)>, after: string)
    requires At(file, at, TreeText(entries) + after) && Closes(after)
    ensures at <= |file| && ReadTree(file, at) == (entries, at + |TreeText(entries)|)
    ensures At(file, at + |TreeText(entries)|, after)
    decreases |entries|
  {
    hide At, ReadNumber, IsDigit, EntryText, ReadRefs;
    if entries == [] {
      assert TreeText(entries) + after == after;
      Starts(file, at, after);
    } else if |entries| == 1 {
      OneEntryIsRead(file, at, entries[0], after);
      NoBlank(file, at + |EntryText(entries[0])|, after);
      assert entries == [entries[0]];
    } else {
      var rest := TreeText(entries[1..]) + after;
      assert TreeText(entries) + after == EntryText(entries[0]) + (" " + rest);
      OneEntryIsRead(file, at, entries[0], " " + rest);
      AtSplit(file, at + |EntryText(entries[0])|, " ", rest);
      TreeIsRead(file, at + |EntryText(entries[0])| + 1, entries[1..], after);
      assert entries == [entries[0]] + entries[1..];
    }
  }

  // ---- Names --------------------------------------------------------------------------------

  predicate NoBlanks(name: string) { ' ' !in name }

  /** Where the name that starts at i ends: at the next blank. */
  function WordEnd(file: string, i: nat): (j: nat)
    requires i <= |file|
    ensures i <= j <= |file|
    decreases |file| - i
  {
    if i < |file| && file[i] != ' ' then WordEnd(file, i + 1) else i
  }

  lemma {:induction false} WordIsRead(file: string, at: nat, name: string, after: string)
    requires At(file, at, name + after) && NoBlanks(name) && after != "" && after[0] == ' '
    ensures at <= |file| && WordEnd(file, at) == at + |name| && file[at..at + |name|] == name
    ensures At(file, at + |name|, after)
    decreases |name|
  {
    AtSplit(file, at, name, after);
    Starts(file, at + |name|, after);
    AtIs(file, at, name);
    if name != "" {
      assert file[at] == name[0] != ' ';
      assert name + after == [name[0]] + (name[1..] + after);
      AtSplit(file, at, [name[0]], name[1..] + after);
      WordIsRead(file, at + 1, name[1..], after);
    }
  }

  // ---- Patterns -----------------------------------------------------------------------------

  /** What an object is written from. */
  datatype Piece = Mark(text: string) | Num(n: nat) | Word(name: string) | Refs(ids: seq<nat>) | Tree(entries: seq<(nat, seq<nat>)>)

  function PieceText(p: Piece): string {
    match p
    case Mark(text) => text
    case Num(n) => Digits(n)
    case Word(name) => name
    case Refs(ids) => RefsText(ids)
    case Tree(entries) => TreeText(entries)
  }

  function Render(pieces: seq<Piece>): string {
    if pieces == [] then "" else PieceText(pieces[0]) + Render(pieces[1..])
  }

  lemma RenderCons(pieces: seq<Piece>)
    requires pieces != []
    ensures Render(pieces) == PieceText(pieces[0]) + Render(pieces[1..])
  {}

  /** What a reader expects: a fixed text, or a field of some kind. */
  datatype Slot = Fixed(text: string) | ANumber | AName | SomeRefs | ATree

  /** The fixed texts and fields at `at`, if the text has the expected shape. */
  function Parse(file: string, at: nat, slots: seq<Slot>): Option<seq<Piece>>
    decreases |slots|
  {
    if slots == [] then Some([])
    else if at > |file| then None
    else
      match slots[0]
      case Fixed(text) => if At(file, at, text) then Then(Mark(text), Parse(file, at + |text|, slots[1..])) else None
      case ANumber => var (n, end) := ReadNumber(file, at); Then(Num(n), Parse(file, end, slots[1..]))
      case AName => var end := WordEnd(file, at); Then(Word(file[at..end]), Parse(file, end, slots[1..]))
      case SomeRefs => var (ids, end) := ReadRefs(file, at); Then(Refs(ids), Parse(file, end, slots[1..]))
      case ATree => var (entries, end) := ReadTree(file, at); Then(Tree(entries), Parse(file, end, slots[1..]))
  }

  function Then(p: Piece, rest: Option<seq<Piece>>): Option<seq<Piece>> {
    if rest.Some? then Some([p] + rest.value) else None
  }

  function SlotOf(p: Piece): Slot {
    match p
    case Mark(text) => Fixed(text)
    case Num(_) => ANumber
    case Word(_) => AName
    case Refs(_) => SomeRefs
    case Tree(_) => ATree
  }

  function Slots(pieces: seq<Piece>): seq<Slot> {
    seq(|pieces|, i requires 0 <= i < |pieces| => SlotOf(pieces[i]))
  }

  predicate Ends(p: Piece, mark: string) {
    match p
    case Mark(_) => true
    case Num(_) => Plain(mark)
    case Word(name) => NoBlanks(name) && mark != "" && mark[0] == ' '
    case Refs(_) => Closes(mark)
    case Tree(_) => Closes(mark)
  }

  /** Every field is followed by a fixed text that ends it. */
  predicate Readable(pieces: seq<Piece>) {
    forall i :: 0 <= i < |pieces| && !pieces[i].Mark? ==>
      i + 1 < |pieces| && pieces[i + 1].Mark? && Ends(pieces[i], pieces[i + 1].text)
  }

  lemma EndsFurther(p: Piece, mark: string, more: string)
    requires Ends(p, mark)
    ensures Ends(p, mark + more)
  {}

  lemma ReadableRest(pieces: seq<Piece>)
    requires Readable(pieces) && pieces != []
    ensures Readable(pieces[1..])
  {
    forall i | 0 <= i < |pieces| - 1 && !pieces[1..][i].Mark?
      ensures i + 1 < |pieces| - 1 && pieces[1..][i + 1].Mark? && Ends(pieces[1..][i], pieces[1..][i + 1].text)
    {
      assert pieces[1..][i] == pieces[i + 1];
    }
  }

  /** One field is read, and what follows it is next. */
  lemma FieldIsRead(file: string, at: nat, p: Piece, rest: string, slots: seq<Slot>)
    requires At(file, at, PieceText(p) + rest) && Ends(p, rest)
    ensures At(file, at + |PieceText(p)|, rest)
    ensures Parse(file, at, [SlotOf(p)] + slots) == Then(p, Parse(file, at + |PieceText(p)|, slots))
  {
    hide At, ReadNumber, ReadRefs, ReadTree, WordEnd, Digits, RefsText, TreeText, Plain, Closes;
    assert ([SlotOf(p)] + slots)[1..] == slots;
    AtBound(file, at, PieceText(p) + rest);
    match p
    case Mark(text) => AtSplit(file, at, text, rest);
    case Num(n) => PrintedIsRead(file, at, n, rest);
    case Word(name) => WordIsRead(file, at, name, rest);
    case Refs(ids) => RefsAreRead(file, at, ids, rest);
    case Tree(entries) => TreeIsRead(file, at, entries, rest);
  }

  lemma Regroup(a: string, b: string, c: string)
    ensures a + b + c == a + (b + c)
  {}

  lemma SlotsCons(pieces: seq<Piece>)
    requires pieces != []
    ensures Slots(pieces) == [SlotOf(pieces[0])] + Slots(pieces[1..])
  {}

  lemma ParseNothing(file: string, at: nat)
    ensures Parse(file, at, Slots([])) == Some([])
  {}

  /** Whatever is written from readable pieces is read back, piece by piece. */
  lemma {:induction false} PiecesAreRead(file: string, at: nat, pieces: seq<Piece>, after: string)
    requires At(file, at, Render(pieces) + after) && Readable(pieces)
    ensures Parse(file, at, Slots(pieces)) == Some(pieces)
    decreases |pieces|
  {
    hide At, Readable, Ends, PieceText, SlotOf, Parse, Render, Slots;
    if pieces == [] {
      ParseNothing(file, at);
    } else {
      RenderCons(pieces);
      SlotsCons(pieces);
      Regroup(PieceText(pieces[0]), Render(pieces[1..]), after);
      EndsHere(pieces, after);
      FieldIsRead(file, at, pieces[0], Render(pieces[1..]) + after, Slots(pieces[1..]));
      ReadableRest(pieces);
      PiecesAreRead(file, at + |PieceText(pieces[0])|, pieces[1..], after);
      assert pieces == [pieces[0]] + pieces[1..];
    }
  }

  lemma EndsHere(pieces: seq<Piece>, after: string)
    requires Readable(pieces) && pieces != []
    ensures Ends(pieces[0], Render(pieces[1..]) + after)
  {
    if !pieces[0].Mark? {
      var next := pieces[1..];
      assert Render(next) + after == next[0].text + (Render(next[1..]) + after);
      EndsFurther(pieces[0], next[0].text, Render(next[1..]) + after);
    }
  }
}
