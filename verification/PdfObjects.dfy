/** The numbered objects of a PDF report and the references between them (pdf_report.py). */
module PdfObjects {
  import opened Decimal

  /** A page's content stream and the structure roles its marked content uses, in order. */
  datatype Page = Page(stream: string, roles: seq<string>)

  /** The objects of the report; every nat field that names another object is an indirect reference. */
  datatype Obj =
    | Catalog(pages: nat, structRoot: nat)
    | PageTree(kids: seq<nat>)
    | PageObj(index: nat, parent: nat, contents: nat, regular: nat, bold: nat)
    | ContentObj(stream: string)
    | FontObj(name: string)
    | InfoObj(fields: string)
    | StructRoot(document: nat, parentTree: nat, nextKey: nat)
    | ParentTree(entries: seq<seq<nat>>)
    | DocumentObj(root: nat, kids: seq<nat>)
    | ElemObj(role: string, document: nat, page: nat, mcid: nat)

  datatype Indirect = Indirect(number: nat, obj: Obj)

  // ---- The numbering scheme -----------------------------------------------------------------

  function PageId(i: nat): nat { 3 + 2 * i }

  function ContentId(i: nat): nat { PageId(i) + 1 }

  function RegularFontId(pages: seq<Page>): nat { 3 + 2 * |pages| }

  function BoldFontId(pages: seq<Page>): nat { RegularFontId(pages) + 1 }

  function InfoId(pages: seq<Page>): nat { BoldFontId(pages) + 1 }

  function StructRootId(pages: seq<Page>): nat { InfoId(pages) + 1 }

  function ParentTreeId(pages: seq<Page>): nat { StructRootId(pages) + 1 }

  function DocumentId(pages: seq<Page>): nat { ParentTreeId(pages) + 1 }

  /** Structure roles on the first n pages. */
  function RolesBefore(pages: seq<Page>, n: nat): nat
    requires n <= |pages|
  {
    if n == 0 then 0 else RolesBefore(pages, n - 1) + |pages[n - 1].roles|
  }

  /** The element for marked content m of page i. */
  function ElemId(pages: seq<Page>, i: nat, m: nat): nat
    requires i <= |pages|
  {
    DocumentId(pages) + 1 + RolesBefore(pages, i) + m
  }

  function ElemIds(pages: seq<Page>, i: nat): seq<nat>
    requires i < |pages|
  {
    seq(|pages[i].roles|, m requires 0 <= m => ElemId(pages, i, m))
  }

  function IdsByPage(pages: seq<Page>): seq<seq<nat>> {
    seq(|pages|, i requires 0 <= i < |pages| => ElemIds(pages, i))
  }

  function Concat(xss: seq<seq<nat>>): seq<nat> {
    if xss == [] then [] else Concat(xss[..|xss| - 1]) + xss[|xss| - 1]
  }

  // ---- The object list ----------------------------------------------------------------------

  function PageKids(n: nat): seq<nat> { seq(n, i requires 0 <= i => PageId(i)) }

  function Front(pages: seq<Page>): seq<Indirect> {
    [Indirect(1, Catalog(2, StructRootId(pages))), Indirect(2, PageTree(PageKids(|pages|)))]
  }

  function PagePair(pages: seq<Page>, i: nat): seq<Indirect>
    requires i < |pages|
  {
    [Indirect(PageId(i), PageObj(i, 2, ContentId(i), RegularFontId(pages), BoldFontId(pages))),
     Indirect(ContentId(i), ContentObj(pages[i].stream))]
  }

  function PagePart(pages: seq<Page>, n: nat): seq<Indirect>
    requires n <= |pages|
  {
    if n == 0 then [] else PagePart(pages, n - 1) + PagePair(pages, n - 1)
  }

  function Middle(pages: seq<Page>, info: string): seq<Indirect> {
    [Indirect(RegularFontId(pages), FontObj("Helvetica")),
     Indirect(BoldFontId(pages), FontObj("Helvetica-Bold")),
     Indirect(InfoId(pages), InfoObj(info)),
     Indirect(StructRootId(pages), StructRoot(DocumentId(pages), ParentTreeId(pages), |pages|)),
     Indirect(ParentTreeId(pages), ParentTree(IdsByPage(pages))),
     Indirect(DocumentId(pages), DocumentObj(StructRootId(pages), Concat(IdsByPage(pages))))]
  }

  function Elem(pages: seq<Page>, i: nat, m: nat): Indirect
    requires i < |pages| && m < |pages[i].roles|
  {
    Indirect(ElemId(pages, i, m), ElemObj(pages[i].roles[m], DocumentId(pages), PageId(i), m))
  }

  function PageElems(pages: seq<Page>, i: nat): seq<Indirect>
    requires i < |pages|
  {
    seq(|pages[i].roles|, m requires 0 <= m < |pages[i].roles| => Elem(pages, i, m))
  }

  function ElemPart(pages: seq<Page>, n: nat): seq<Indirect>
    requires n <= |pages|
  {
    if n == 0 then [] else ElemPart(pages, n - 1) + PageElems(pages, n - 1)
  }

  function Objects(pages: seq<Page>, info: string): seq<Indirect> {
    Front(pages) + PagePart(pages, |pages|) + Middle(pages, info) + ElemPart(pages, |pages|)
  }

  // ---- Building it in one pass --------------------------------------------------------------

  method NumberStructure(pages: seq<Page>) returns (idsByPage: seq<seq<nat>>, next: nat)
    ensures idsByPage == IdsByPage(pages)
    ensures next == ElemId(pages, |pages|, 0)
  {
    idsByPage := [];
    next := DocumentId(pages) + 1;
    for i := 0 to |pages|
      invariant idsByPage == IdsByPage(pages)[..i]
      invariant next == ElemId(pages, i, 0)
    {
      var ids := seq(|pages[i].roles|, m requires 0 <= m => next + m);
      assert ids == ElemIds(pages, i);
      idsByPage := idsByPage + [ids];
      next := next + |ids|;
    }
    assert IdsByPage(pages)[..|pages|] == IdsByPage(pages);
  }

  method BuildObjects(pages: seq<Page>, info: string) returns (objects: seq<Indirect>)
    ensures objects == Objects(pages, info)
  {
    var idsByPage, next := NumberStructure(pages);
    objects := Front(pages);
    for i := 0 to |pages|
      invariant objects == Front(pages) + PagePart(pages, i)
    {
      var pageId := 3 + i * 2;
      objects := objects + [Indirect(pageId, PageObj(i, 2, pageId + 1, RegularFontId(pages), BoldFontId(pages)))];
      objects := objects + [Indirect(pageId + 1, ContentObj(pages[i].stream))];
    }
    var allIds: seq<nat> := [];
    for i := 0 to |idsByPage|
      invariant allIds == Concat(idsByPage[..i])
    {
      assert idsByPage[..i + 1][..i] == idsByPage[..i];
      allIds := allIds + idsByPage[i];
    }
    assert idsByPage[..|idsByPage|] == idsByPage;
    objects := objects + [
      Indirect(RegularFontId(pages), FontObj("Helvetica")),
      Indirect(BoldFontId(pages), FontObj("Helvetica-Bold")),
      Indirect(InfoId(pages), InfoObj(info)),
      Indirect(StructRootId(pages), StructRoot(DocumentId(pages), ParentTreeId(pages), |pages|)),
      Indirect(ParentTreeId(pages), ParentTree(idsByPage)),
      Indirect(DocumentId(pages), DocumentObj(StructRootId(pages), allIds))];
    ghost var before := objects;
    for i := 0 to |pages|
      invariant objects == before + ElemPart(pages, i)
    {
      ghost var start := objects;
      for m := 0 to |pages[i].roles|
        invariant objects == start + PageElems(pages, i)[..m]
      {
        var id := idsByPage[i][m];
        objects := objects + [Indirect(id, ElemObj(pages[i].roles[m], DocumentId(pages), PageId(i), m))];
      }
    }
  }

  // ---- Numbers are positions ----------------------------------------------------------------

  lemma {:induction false} PagePartNumbers(pages: seq<Page>, n: nat)
    requires n <= |pages|
    ensures |PagePart(pages, n)| == 2 * n
    ensures forall k :: 0 <= k < 2 * n ==> PagePart(pages, n)[k].number == 3 + k
    ensures forall i :: 0 <= i < n ==>
              PagePart(pages, n)[2 * i] == PagePair(pages, i)[0] && PagePart(pages, n)[2 * i + 1] == PagePair(pages, i)[1]
  {
    if n > 0 { PagePartNumbers(pages, n - 1); }
  }

  lemma {:induction false} ElemPartNumbers(pages: seq<Page>, n: nat)
    requires n <= |pages|
    ensures |ElemPart(pages, n)| == RolesBefore(pages, n)
    ensures forall k :: 0 <= k < |ElemPart(pages, n)| ==> ElemPart(pages, n)[k].number == ElemId(pages, 0, k)
  {
    if n > 0 { ElemPartNumbers(pages, n - 1); }
  }

  lemma {:induction false} ElemPartAt(pages: seq<Page>, n: nat, i: nat, m: nat)
    requires i < n <= |pages| && m < |pages[i].roles|
    ensures RolesBefore(pages, i) + m < |ElemPart(pages, n)|
    ensures ElemPart(pages, n)[RolesBefore(pages, i) + m] == Elem(pages, i, m)
  {
    ElemPartNumbers(pages, n);
    ElemPartNumbers(pages, n - 1);
    if i < n - 1 { ElemPartAt(pages, n - 1, i, m); }
  }

  /** Object number n is the n-th object written, for any number of pages and roles. */
  lemma NumbersArePositions(pages: seq<Page>, info: string, k: nat)
    requires k < |Objects(pages, info)|
    ensures Objects(pages, info)[k].number == k + 1
  {
    PagePartNumbers(pages, |pages|);
    ElemPartNumbers(pages, |pages|);
    var p, m := |pages|, k - 2 - 2 * |pages|;
    if 2 <= k < 2 + 2 * p {
      assert Objects(pages, info)[k] == PagePart(pages, p)[k - 2];
    } else if 2 + 2 * p <= k < 8 + 2 * p {
      assert Objects(pages, info)[k] == Middle(pages, info)[m];
    } else if 8 + 2 * p <= k {
      assert Objects(pages, info)[k] == ElemPart(pages, p)[m - 6];
    }
  }

  lemma ObjectCount(pages: seq<Page>, info: string)
    ensures |Objects(pages, info)| == 8 + 2 * |pages| + RolesBefore(pages, |pages|)
  {
    PagePartNumbers(pages, |pages|);
    ElemPartNumbers(pages, |pages|);
  }

  /** The object a reference leads to. */
  function Target(pages: seq<Page>, info: string, number: nat): Obj
    requires 1 <= number <= |Objects(pages, info)|
  {
    Objects(pages, info)[number - 1].obj
  }

  predicate Known(pages: seq<Page>, info: string, number: nat) { 1 <= number <= |Objects(pages, info)| }

  // ---- References lead where they should ----------------------------------------------------

  /** The fixed objects: catalog, page tree, fonts, structure root, parent tree and document. */
  lemma FixedReferences(pages: seq<Page>, info: string)
    ensures Known(pages, info, DocumentId(pages))
    ensures Target(pages, info, 1) == Catalog(2, StructRootId(pages)) && Target(pages, info, 2).PageTree?
    ensures Target(pages, info, RegularFontId(pages)) == FontObj("Helvetica")
    ensures Target(pages, info, BoldFontId(pages)) == FontObj("Helvetica-Bold")
    ensures Target(pages, info, InfoId(pages)) == InfoObj(info)
    ensures Target(pages, info, StructRootId(pages)) == StructRoot(DocumentId(pages), ParentTreeId(pages), |pages|)
    ensures Target(pages, info, ParentTreeId(pages)).ParentTree?
    ensures Target(pages, info, DocumentId(pages)).DocumentObj? && Target(pages, info, DocumentId(pages)).root == StructRootId(pages)
  {
    ObjectCount(pages, info);
    PagePartNumbers(pages, |pages|);
    var p := |pages|;
    forall k | 0 <= k < 6 ensures Objects(pages, info)[2 + 2 * p + k] == Middle(pages, info)[k] {}
  }

  /** Page i of the page tree is page object i, its contents are page i's stream, and its fonts are fonts. */
  lemma PageReferences(pages: seq<Page>, info: string, i: nat)
    requires i < |pages|
    ensures Known(pages, info, DocumentId(pages))
    ensures var tree := Target(pages, info, 2);
            tree.PageTree? && |tree.kids| == |pages| && tree.kids[i] == PageId(i)
    ensures Known(pages, info, ContentId(i))
    ensures Target(pages, info, PageId(i)) == PageObj(i, 2, ContentId(i), RegularFontId(pages), BoldFontId(pages))
    ensures Target(pages, info, ContentId(i)) == ContentObj(pages[i].stream)
    ensures Target(pages, info, RegularFontId(pages)).FontObj? && Target(pages, info, BoldFontId(pages)).FontObj?
  {
    FixedReferences(pages, info);
    PagePartNumbers(pages, |pages|);
    assert Objects(pages, info)[2 + 2 * i] == PagePart(pages, |pages|)[2 * i];
    assert Objects(pages, info)[3 + 2 * i] == PagePart(pages, |pages|)[2 * i + 1];
  }

  lemma {:induction false} ConcatAt(pages: seq<Page>, n: nat, i: nat, m: nat)
    requires i < n <= |pages| && m < |pages[i].roles|
    ensures |Concat(IdsByPage(pages)[..n])| == RolesBefore(pages, n)
    ensures RolesBefore(pages, i) + m < RolesBefore(pages, n)
    ensures Concat(IdsByPage(pages)[..n])[RolesBefore(pages, i) + m] == ElemId(pages, i, m)
    decreases n
  {
    assert IdsByPage(pages)[..n][..n - 1] == IdsByPage(pages)[..n - 1];
    ConcatSize(pages, n);
    ConcatSize(pages, n - 1);
    if i < n - 1 { ConcatAt(pages, n - 1, i, m); }
  }

  lemma {:induction false} ConcatSize(pages: seq<Page>, n: nat)
    requires n <= |pages|
    ensures |Concat(IdsByPage(pages)[..n])| == RolesBefore(pages, n)
  {
    if n > 0 {
      ConcatSize(pages, n - 1);
      assert IdsByPage(pages)[..n][..n - 1] == IdsByPage(pages)[..n - 1];
    }
  }

  /**
   * The tagged structure closes up: the parent tree's entry for marked content m of page i, and the matching kid of
   * the document, are the element object that names that page, that marked content and its role.
   */
  lemma StructureReferences(pages: seq<Page>, info: string, i: nat, m: nat)
    requires i < |pages| && m < |pages[i].roles|
    ensures Known(pages, info, ElemId(pages, i, m)) && Known(pages, info, DocumentId(pages))
    ensures Target(pages, info, ElemId(pages, i, m)) == ElemObj(pages[i].roles[m], DocumentId(pages), PageId(i), m)
    ensures var tree := Target(pages, info, ParentTreeId(pages));
            tree.ParentTree? && |tree.entries| == |pages| && |tree.entries[i]| == |pages[i].roles|
            && tree.entries[i][m] == ElemId(pages, i, m)
    ensures var document := Target(pages, info, DocumentId(pages));
            document.DocumentObj? && |document.kids| == RolesBefore(pages, |pages|)
            && RolesBefore(pages, i) + m < |document.kids|
            && document.kids[RolesBefore(pages, i) + m] == ElemId(pages, i, m)
    ensures Target(pages, info, PageId(i)).PageObj? && Target(pages, info, PageId(i)).index == i
  {
    FixedReferences(pages, info);
    PageReferences(pages, info, i);
    ElemPartAt(pages, |pages|, i, m);
    ConcatAt(pages, |pages|, i, m);
    PagePartNumbers(pages, |pages|);
    assert IdsByPage(pages)[..|pages|] == IdsByPage(pages);
    var p := |pages|;
    assert Objects(pages, info)[8 + 2 * p + RolesBefore(pages, i) + m] == ElemPart(pages, p)[RolesBefore(pages, i) + m];
    assert Objects(pages, info)[6 + 2 * p] == Middle(pages, info)[4];
    assert Objects(pages, info)[7 + 2 * p] == Middle(pages, info)[5];
  }
}
