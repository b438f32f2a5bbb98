/** The documents of the unit tests in test_no_refs.py, as the XML reader
    reports them, and what one `process_stream` call on a fresh `Finder`
    makes of each. The whitespace between elements is kept: it reaches the
    scanner as character data, and the scanner must not be confused by it.
    Two more documents exercise the reference and redirect rules. */
module Scenarios {
  import opened Results
  import opened Strings
  import opened Events
  import opened Finder
  import opened Dump
  import IntParse

  /** A line break followed by `indent` spaces: the layout of the test
      documents. */
  function Ws(indent: nat): (w: string)
    ensures |w| == indent + 1
    ensures forall c :: c in w ==> c == '\n' || c == ' '
  {
    "\n" + seq(indent, _ => ' ')
  }

  /** The text the test documents put between elements: before and after a
      page (`outer`), between the children of a page (`page`) and between
      the children of a revision (`revision`). */
  datatype Layout = Layout(outer: string, page: string, revision: string)

  /** The indentation of test_no_refs.py: eight spaces, two more per level. */
  function TestLayout(): Layout {
    Layout(Ws(10), Ws(12), Ws(14))
  }

  /** A `<mediawiki>` root holding `body` and ending in `closing`; the text
      before and after the root element is not reported. */
  function Root(closing: string, body: seq<Event>): seq<Event> {
    [StartDocument, StartElement("mediawiki")]
      + (body + ([Characters(closing)] + [EndElement("mediawiki"), EndDocument]))
  }

  /** A page with nothing but `<ns>0</ns>`. */
  function NsOnlyPage(l: Layout): seq<Event> {
    [Characters(l.outer), StartElement("page"), Characters(l.page)] + Leaf("ns", "0")
    + [Characters(l.outer), EndElement("page")]
  }

  /** A leaf element preceded by the indentation in front of it. */
  function PaddedLeaf(pad: string, tag: string, text: string): seq<Event> {
    [Characters(pad)] + Leaf(tag, text)
  }

  /** The opening of an article page: its title, namespace `0` and page id `1`. */
  function ArticleHead(l: Layout, title: string): seq<Event> {
    [Characters(l.outer), StartElement("page")]
    + (PaddedLeaf(l.page, "title", title)
       + (PaddedLeaf(l.page, "ns", "0") + (PaddedLeaf(l.page, "id", "1") + [Characters(l.page)])))
  }

  /** Revision `2` up to its end tag: its id and its text, with no
      contributor. */
  function RevisionFields(l: Layout, text: string): seq<Event> {
    [StartElement("revision"), Characters(l.revision)] + Leaf("id", "2") + [Characters(l.revision)]
    + Leaf("text", text)
  }

  function SingleRevision(l: Layout, text: string): seq<Event> {
    RevisionFields(l, text) + [Characters(l.page), EndElement("revision")]
  }

  function ArticlePage(l: Layout, title: string, text: string): seq<Event> {
    ArticleHead(l, title) + (SingleRevision(l, text) + [Characters(l.outer), EndElement("page")])
  }

  /** The documents of the tests. */
  function NoPageDocument(): seq<Event> {
    Root(Ws(8), [])
  }

  function NsOnlyDocument(): seq<Event> {
    Root(Ws(8), NsOnlyPage(TestLayout()))
  }

  function ArticleDocument(title: string, text: string): seq<Event> {
    Root(Ws(8), ArticlePage(TestLayout(), title, text))
  }

  // ---------------------------------------------------------------------
  // The texts

  /** The text of the empty `<text>` element. */
  function BlankText(): string {
    Ws(14)
  }

  function CategoryText(): string {
    Ws(16) + "living people" + Ws(14)
  }

  function ReferencedText(): string {
    Ws(16) + "Living people" + "<ref/>" + Ws(14)
  }

  function RedirectText(): string {
    Ws(16) + "#REDIRECT" + " " + "Living people" + Ws(14)
  }

  // ---------------------------------------------------------------------
  // Running the pieces

  /** Character data only grows the accumulator. */
  lemma PadRun(s: Scanner, d: string, rest: seq<Event>)
    ensures Run(s, [Characters(d)] + rest) == Run(s.(cdata := s.cdata + [d]), rest)
  {
    RunCons(s, Characters(d), rest);
  }

  /** Entering a page from the root. */
  lemma PageOpen(s: Scanner, outer: string, rest: seq<Event>)
    requires s.stack == RootStack && s.page.None?
    ensures Run(s, [Characters(outer), StartElement("page")] + rest)
         == Run(s.(stack := PageStack, cdata := [], page := Some(NewPage)), rest)
  {
    assert [Characters(outer), StartElement("page")] + rest == [Characters(outer)] + ([StartElement("page")] + rest);
    PadRun(s, outer, [StartElement("page")] + rest);
    var s0 := s.(cdata := s.cdata + [outer]);
    assert RootStack + [Page] == PageStack;
    assert Step(s0, StartElement("page")) == Ok(s.(stack := PageStack, cdata := [], page := Some(NewPage)));
    RunCons(s0, StartElement("page"), rest);
  }

  /** Leaving a page whose namespace is known, whatever text precedes the
      end tag. */
  lemma PageCloseText(s: Scanner, outer: string)
    requires s.stack == PageStack && s.page.Some? && s.page.value.ns.Some?
    requires !(IsFinding(s.page.value) && s.page.value.title.None?)
    ensures var s1 := s.(cdata := s.cdata + [outer]);
      && DoPage(s1).Ok?
      && Run(s, [Characters(outer), EndElement("page")])
         == Ok(DoPage(s1).value.(stack := RootStack, page := None))
  {
    assert [Characters(outer), EndElement("page")] == [Characters(outer)] + [EndElement("page")];
    PadRun(s, outer, [EndElement("page")]);
    var s1 := s.(cdata := s.cdata + [outer]);
    StepPageClose(s1);
    RunCons(s1, EndElement("page"), []);
    assert PageStack[..3] == RootStack;
  }

  /** Text in front of a run is only accumulated. */
  lemma PadThen(s: Scanner, pad: string, a: seq<Event>, t: Scanner)
    requires Run(s.(cdata := s.cdata + [pad]), a) == Ok(t)
    ensures Run(s, [Characters(pad)] + a) == Ok(t)
  {
    PadRun(s, pad, a);
  }

  lemma PaddedTitle(s: Scanner, pad: string, title: string)
    requires s.stack == PageStack && s.page.Some?
    ensures Run(s, PaddedLeaf(pad, "title", title)) ==
      Ok(s.(cdata := [title], page := Some(s.page.value.(title := Some(title)))))
  {
    TitleLeaf(s.(cdata := s.cdata + [pad]), title);
    PadThen(s, pad, Leaf("title", title), s.(cdata := [title], page := Some(s.page.value.(title := Some(title)))));
  }

  lemma PaddedNs(s: Scanner, pad: string, ns: string)
    requires s.stack == PageStack && s.page.Some?
    ensures Run(s, PaddedLeaf(pad, "ns", ns)) ==
      Ok(s.(cdata := [ns], page := Some(s.page.value.(ns := Some(ns)))))
  {
    NsLeaf(s.(cdata := s.cdata + [pad]), ns);
    PadThen(s, pad, Leaf("ns", ns), s.(cdata := [ns], page := Some(s.page.value.(ns := Some(ns)))));
  }

  lemma PaddedPageId(s: Scanner, pad: string, id: string)
    requires s.stack == PageStack
    ensures Run(s, PaddedLeaf(pad, "id", id) + [Characters(pad)]) == Ok(s.(cdata := [id, pad]))
  {
    IgnoredLeaf(s.(cdata := s.cdata + [pad]), "id", id);
    PadThen(s, pad, Leaf("id", id), s.(cdata := [id]));
    PadRun(s.(cdata := [id]), pad, []);
    assert [id] + [pad] == [id, pad];
    RunCompose(s, PaddedLeaf(pad, "id", id), [Characters(pad)], s.(cdata := [id]), s.(cdata := [id, pad]));
  }

  lemma ArticleHeadRun(s: Scanner, l: Layout, title: string)
    requires s.stack == RootStack && s.page.None?
    ensures Run(s, ArticleHead(l, title)) ==
      Ok(s.(stack := PageStack, cdata := ["1", l.page], page := Some(PageData(Some(title), Some("0"), []))))
  {
    var tl := PaddedLeaf(l.page, "title", title);
    var nl := PaddedLeaf(l.page, "ns", "0");
    var il := PaddedLeaf(l.page, "id", "1") + [Characters(l.page)];
    PageOpen(s, l.outer, tl + (nl + il));
    var s1 := s.(stack := PageStack, cdata := [], page := Some(NewPage));
    PaddedTitle(s1, l.page, title);
    var s2 := s1.(cdata := [title], page := Some(NewPage.(title := Some(title))));
    PaddedNs(s2, l.page, "0");
    var s3 := s2.(cdata := ["0"], page := Some(PageData(Some(title), Some("0"), [])));
    PaddedPageId(s3, l.page, "1");
    var s4 := s3.(cdata := ["1", l.page]);
    RunCompose(s2, nl, il, s3, s4);
    RunCompose(s1, tl, nl + il, s2, s4);
  }

  /** The records a single revision leaves behind: one exactly when its text
      is relevant. This is `Dump.Recorded` for one revision, stated on the id
      and the text alone: the test revisions have no contributor, so they are
      not `RevisionEntry` values. */
  ghost function Kept(id: int, text: string): seq<RevisionRecord> {
    if Relevant(Lower(text)) then [RevisionRecord(id, IsSubstring(ReferenceMarker, Lower(text)))] else []
  }

  /** The revision's id and text, before its end tag. */
  lemma RevisionFieldsRun(s: Scanner, l: Layout, text: string)
    requires s.stack == PageStack
    ensures Run(s, RevisionFields(l, text)) ==
      Ok(s.(stack := RevisionStack, cdata := [text], content := Some(Lower(text)), revisionId := Some(2)))
  {
    var w := [Characters(l.revision)];
    var il := Leaf("id", "2");
    var tl := Leaf("text", text);
    assert [StartElement("revision"), Characters(l.revision)] + il + w + tl
        == [StartElement("revision")] + (w + (il + (w + tl)));
    var s1 := s.(stack := RevisionStack, cdata := []);
    assert PageStack + [Revision] == RevisionStack;
    assert Step(s, StartElement("revision")) == Ok(s1);
    RunCons(s, StartElement("revision"), w + (il + (w + tl)));
    PadRun(s1, l.revision, il + (w + tl));
    var s2 := s1.(cdata := [l.revision]);
    assert IntParse.Show(2) == "2";
    RevisionIdLeaf(s2, 2);
    var s3 := s2.(cdata := ["2"], revisionId := Some(2));
    RunThrough(s2, il, w + tl, s3);
    PadRun(s3, l.revision, tl);
    var s4 := s3.(cdata := ["2", l.revision]);
    TextLeaf(s4, text);
  }

  /** Closing the revision: its record is kept exactly when its text is
      relevant. Unlike `Dump.RevisionClose`, the end tag follows a whitespace
      chunk, which lands in the accumulator. */
  lemma RevisionCloseText(s: Scanner, l: Layout, text: string)
    requires s.stack == RevisionStack && s.page.Some?
    requires s.content == Some(Lower(text)) && s.revisionId == Some(2) && s.cdata == [text]
    ensures Run(s, [Characters(l.page), EndElement("revision")]) ==
      Ok(s.(stack := PageStack, cdata := [text, l.page],
            page := Some(s.page.value.(revisions := s.page.value.revisions + Kept(2, text))),
            counters := s.counters.(blps := s.counters.blps + |Kept(2, text)|)))
  {
    assert [Characters(l.page), EndElement("revision")] == [Characters(l.page)] + [EndElement("revision")];
    PadRun(s, l.page, [EndElement("revision")]);
    var s1 := s.(cdata := [text, l.page]);
    assert s.cdata + [l.page] == [text, l.page];
    assert DoRevision(s1).Ok?;
    StepRevisionClose(s1);
    RunCons(s1, EndElement("revision"), []);
    assert RevisionStack[..4] == PageStack;
    if !Relevant(Lower(text)) {
      assert s.page.value.revisions + Kept(2, text) == s.page.value.revisions;
    }
  }

  lemma SingleRevisionRun(s: Scanner, l: Layout, text: string)
    requires s.stack == PageStack && s.page.Some?
    ensures Run(s, SingleRevision(l, text)) ==
      Ok(s.(cdata := [text, l.page], content := Some(Lower(text)), revisionId := Some(2),
            page := Some(s.page.value.(revisions := s.page.value.revisions + Kept(2, text))),
            counters := s.counters.(blps := s.counters.blps + |Kept(2, text)|)))
  {
    RevisionFieldsRun(s, l, text);
    var s1 := s.(stack := RevisionStack, cdata := [text], content := Some(Lower(text)), revisionId := Some(2));
    RevisionCloseText(s1, l, text);
    var u := s1.(stack := PageStack, cdata := [text, l.page],
                 page := Some(s1.page.value.(revisions := s1.page.value.revisions + Kept(2, text))),
                 counters := s1.counters.(blps := s1.counters.blps + |Kept(2, text)|));
    var close := [Characters(l.page), EndElement("revision")];
    RunCompose(s, RevisionFields(l, text), close, s1, u);
    assert SingleRevision(l, text) == RevisionFields(l, text) + close;
    assert u == s.(cdata := [text, l.page], content := Some(Lower(text)), revisionId := Some(2),
            page := Some(s.page.value.(revisions := s.page.value.revisions + Kept(2, text))),
            counters := s.counters.(blps := s.counters.blps + |Kept(2, text)|));
  }

  /** A page is reported exactly when its namespace is `0` and some kept
      record exists, none of them with a reference marker; for a single
      revision that is: the text is relevant and carries no marker. */
  lemma KeptFinding(title: string, text: string)
    ensures IsFinding(PageData(Some(title), Some("0"), [] + Kept(2, text))) <==>
      Relevant(Lower(text)) && !IsSubstring(ReferenceMarker, Lower(text))
  {
    var recs := [] + Kept(2, text);
    assert recs == Kept(2, text);
    if Relevant(Lower(text)) {
      assert recs == [RevisionRecord(2, IsSubstring(ReferenceMarker, Lower(text)))];
      assert (forall i :: 0 <= i < |recs| ==> !recs[i].hasRef) <==> !recs[0].hasRef;
    } else {
      assert recs == [];
    }
  }

  /** The effect of a one-revision article: it is counted as a page and an
      article, its revision is counted when relevant, and its title is
      reported exactly when that revision is relevant and has no marker. */
  lemma ArticlePageRun(s: Scanner, l: Layout, title: string, text: string)
    requires s.stack == RootStack && s.page.None?
    ensures Run(s, ArticlePage(l, title, text)).Ok?
    ensures var t := Run(s, ArticlePage(l, title, text)).value;
      var c := s.counters;
      var kept := Relevant(Lower(text));
      var found := kept && !IsSubstring(ReferenceMarker, Lower(text));
      && t.stack == RootStack && t.page.None? && t.path == s.path
      && t.counters == c.(pages := c.pages + 1, articles := c.articles + 1,
                          blps := c.blps + (if kept then 1 else 0), found := c.found + (if found then 1 else 0))
      && t.findings == s.findings + (if found then [title] else [])
      && t.diagnostics == s.diagnostics
           + (if (c.pages + 1) % ProgressInterval == 0
              then [Progress(c.(pages := c.pages + 1, blps := c.blps + (if kept then 1 else 0)))] else [])
           + (if found then [FoundIn(title, s.path)] else [])
  {
    var head := ArticleHead(l, title);
    var rev := SingleRevision(l, text);
    var close := [Characters(l.outer), EndElement("page")];
    ArticleHeadRun(s, l, title);
    var s1 := s.(stack := PageStack, cdata := ["1", l.page], page := Some(PageData(Some(title), Some("0"), [])));
    RunThrough(s, head, rev + close, s1);
    SingleRevisionRun(s1, l, text);
    var s2 := s1.(cdata := [text, l.page], content := Some(Lower(text)), revisionId := Some(2),
                  page := Some(PageData(Some(title), Some("0"), [] + Kept(2, text))),
                  counters := s.counters.(blps := s.counters.blps + |Kept(2, text)|));
    RunThrough(s1, rev, close, s2);
    KeptFinding(title, text);
    PageCloseText(s2, l.outer);
  }

  lemma NsOnlyPageRun(s: Scanner, l: Layout)
    requires s.stack == RootStack && s.page.None?
    ensures Run(s, NsOnlyPage(l)).Ok?
    ensures var t := Run(s, NsOnlyPage(l)).value;
      var c := s.counters;
      && t.stack == RootStack && t.page.None? && t.path == s.path
      && t.findings == s.findings
      && t.counters == c.(pages := c.pages + 1, articles := c.articles + 1)
      && t.diagnostics == s.diagnostics
           + (if (c.pages + 1) % ProgressInterval == 0 then [Progress(c.(pages := c.pages + 1))] else [])
  {
    var nl := Leaf("ns", "0");
    var close := [Characters(l.outer), EndElement("page")];
    assert NsOnlyPage(l) == [Characters(l.outer), StartElement("page")] + ([Characters(l.page)] + (nl + close));
    PageOpen(s, l.outer, [Characters(l.page)] + (nl + close));
    var s1 := s.(stack := PageStack, cdata := [], page := Some(NewPage));
    PadRun(s1, l.page, nl + close);
    var s2 := s1.(cdata := [l.page]);
    NsLeaf(s2, "0");
    var s3 := s2.(cdata := ["0"], page := Some(NewPage.(ns := Some("0"))));
    RunThrough(s2, nl, close, s3);
    PageCloseText(s3, l.outer);
  }

  /** Opening the document and the root, running `body`, closing both; the
      whitespace chunk before `</mediawiki>` is the only difference from
      `Dump.DumpOpen` followed by `Dump.DumpClose`. */
  lemma RootRun(s: Scanner, closing: string, body: seq<Event>, t: Scanner)
    requires s.stack == [Start]
    requires Run(s.(stack := RootStack, cdata := []), body) == Ok(t) && t.stack == RootStack
    ensures Run(s, Root(closing, body)) == Ok(t.(stack := DocumentStack, cdata := t.cdata + [closing]))
  {
    var close := [EndElement("mediawiki"), EndDocument];
    DumpOpen(s, body + ([Characters(closing)] + close));
    RunThrough(s.(stack := RootStack, cdata := []), body, [Characters(closing)] + close, t);
    PadRun(t, closing, close);
    DumpClose(t.(cdata := t.cdata + [closing]));
  }

  // ---------------------------------------------------------------------
  // The texts, classified

  lemma BlankTextIgnored()
    ensures !Relevant(Lower(BlankText()))
  {
    LowerKeeps(BlankText());
    AbsentFirst(CategoryMarker, BlankText());
  }

  lemma CategoryTextLower()
    ensures Lower(CategoryText()) == Ws(16) + CategoryMarker + Ws(14)
  {
    LowerAppend(Ws(16) + "living people", Ws(14));
    LowerAppend(Ws(16), "living people");
    LowerKeeps(Ws(16));
    LowerKeeps(Ws(14));
    LowerKeeps("living people");
  }

  lemma CategoryTextKept()
    ensures Relevant(Lower(CategoryText())) && !IsSubstring(ReferenceMarker, Lower(CategoryText()))
  {
    CategoryTextLower();
    var t := Ws(16) + CategoryMarker + Ws(14);
    OccursInMiddle(Ws(16), CategoryMarker, Ws(14));
    assert '#' !in CategoryMarker && 'r' !in CategoryMarker;
    AbsentFirst(RedirectMarker, t);
    AbsentFirst(ReferenceMarker, t);
  }

  lemma ReferencedTextLower()
    ensures Lower(ReferencedText()) == Ws(16) + CategoryMarker + ("<ref/>" + Ws(14))
  {
    LowerAppend(Ws(16) + "Living people" + "<ref/>", Ws(14));
    LowerAppend(Ws(16) + "Living people", "<ref/>");
    LowerAppend(Ws(16), "Living people");
    LowerKeeps(Ws(16));
    LowerKeeps(Ws(14));
    LowerKeeps("<ref/>");
    assert Lower("Living people") == "living people";
  }

  lemma ReferencedTextMarked()
    ensures Relevant(Lower(ReferencedText())) && IsSubstring(ReferenceMarker, Lower(ReferencedText()))
  {
    ReferencedTextLower();
    var t := Ws(16) + CategoryMarker + ("<ref/>" + Ws(14));
    OccursInMiddle(Ws(16), CategoryMarker, "<ref/>" + Ws(14));
    assert t == Ws(16) + "living people<" + ReferenceMarker + ("/>" + Ws(14));
    OccursInMiddle(Ws(16) + "living people<", ReferenceMarker, "/>" + Ws(14));
    assert '#' !in CategoryMarker + "<ref/>";
    AbsentFirst(RedirectMarker, t);
  }

  lemma RedirectTextSkipped()
    ensures !Relevant(Lower(RedirectText()))
  {
    LowerAppend(Ws(16) + "#REDIRECT" + " " + "Living people", Ws(14));
    LowerAppend(Ws(16) + "#REDIRECT" + " ", "Living people");
    LowerAppend(Ws(16) + "#REDIRECT", " ");
    LowerAppend(Ws(16), "#REDIRECT");
    LowerKeeps(Ws(16));
    assert Lower("#REDIRECT") == "#redirect";
    var t := Lower(RedirectText());
    assert t == Ws(16) + RedirectMarker + (" " + Lower("Living people") + Ws(14));
    OccursInMiddle(Ws(16), RedirectMarker, " " + Lower("Living people") + Ws(14));
  }

  // ---------------------------------------------------------------------
  // The test cases, each stated for any file path (the tests pass "path")

  /** test_empty_input_produces_no_output: nothing is reported, and the file
      is still counted. */
  lemma EmptyInput(path: string)
    ensures ProcessStream(Fresh(), path, []) ==
      Ok(Fresh().(path := Some(path), counters := Counters(1, 0, 0, 0, 0)))
  {
  }

  /** test_no_page_node_produces_no_output. */
  lemma NoPageNode(path: string)
    ensures ProcessStream(Fresh(), path, NoPageDocument()).Ok?
    ensures var t := ProcessStream(Fresh(), path, NoPageDocument()).value;
      t.findings == [] && t.diagnostics == [] && t.counters == Counters(1, 0, 0, 0, 0)
      && t.stack == DocumentStack
  {
    var s := Fresh().(path := Some(path));
    var s1 := s.(stack := RootStack, cdata := []);
    assert Run(s1, []) == Ok(s1);
    RootRun(s, Ws(8), [], s1);
  }

  /** test_no_revision_node_produces_no_output: the article is counted, but
      a page without kept revisions is never reported. */
  lemma NoRevisionNode(path: string)
    ensures ProcessStream(Fresh(), path, NsOnlyDocument()).Ok?
    ensures var t := ProcessStream(Fresh(), path, NsOnlyDocument()).value;
      t.findings == [] && t.diagnostics == [] && t.counters == Counters(1, 1, 1, 0, 0)
  {
    var s := Fresh().(path := Some(path));
    var s1 := s.(stack := RootStack, cdata := []);
    var page := NsOnlyPage(TestLayout());
    NsOnlyPageRun(s1, TestLayout());
    RootRun(s, Ws(8), page, Run(s1, page).value);
  }

  /** One `process_stream` call on a fresh scanner, over a document holding a
      single one-revision article. */
  lemma ArticleOutcome(path: string, title: string, text: string)
    ensures ProcessStream(Fresh(), path, ArticleDocument(title, text)).Ok?
    ensures var t := ProcessStream(Fresh(), path, ArticleDocument(title, text)).value;
      var kept := Relevant(Lower(text));
      var found := kept && !IsSubstring(ReferenceMarker, Lower(text));
      && t.findings == (if found then [title] else [])
      && t.diagnostics == (if found then [FoundIn(title, Some(path))] else [])
      && t.counters == Counters(1, 1, 1, if kept then 1 else 0, if found then 1 else 0)
  {
    var s := Fresh().(path := Some(path));
    var s1 := s.(stack := RootStack, cdata := []);
    var page := ArticlePage(TestLayout(), title, text);
    ArticlePageRun(s1, TestLayout(), title, text);
    RootRun(s, Ws(8), page, Run(s1, page).value);
  }

  /** test_empty_text_produces_no_output. */
  lemma EmptyText(path: string)
    ensures ProcessStream(Fresh(), path, ArticleDocument("Title", BlankText())).Ok?
    ensures var t := ProcessStream(Fresh(), path, ArticleDocument("Title", BlankText())).value;
      t.findings == [] && t.counters == Counters(1, 1, 1, 0, 0)
  {
    ArticleOutcome(path, "Title", BlankText());
    BlankTextIgnored();
  }

  /** test_one_revision_with_matching_text_finds_page. */
  lemma MatchingText(path: string)
    ensures ProcessStream(Fresh(), path, ArticleDocument("Title 1", CategoryText())).Ok?
    ensures var t := ProcessStream(Fresh(), path, ArticleDocument("Title 1", CategoryText())).value;
      t.findings == ["Title 1"] && t.diagnostics == [FoundIn("Title 1", Some(path))]
      && t.counters == Counters(1, 1, 1, 1, 1)
  {
    ArticleOutcome(path, "Title 1", CategoryText());
    CategoryTextKept();
  }

  /** A relevant revision with a reference marker: counted, not reported. */
  lemma ReferencedRevision(path: string)
    ensures ProcessStream(Fresh(), path, ArticleDocument("Title 2", ReferencedText())).Ok?
    ensures var t := ProcessStream(Fresh(), path, ArticleDocument("Title 2", ReferencedText())).value;
      t.findings == [] && t.counters == Counters(1, 1, 1, 1, 0)
  {
    ArticleOutcome(path, "Title 2", ReferencedText());
    ReferencedTextMarked();
  }

  /** A redirect into the category: neither counted nor reported. */
  lemma RedirectRevision(path: string)
    ensures ProcessStream(Fresh(), path, ArticleDocument("Title 3", RedirectText())).Ok?
    ensures var t := ProcessStream(Fresh(), path, ArticleDocument("Title 3", RedirectText())).value;
      t.findings == [] && t.counters == Counters(1, 1, 1, 0, 0)
  {
    ArticleOutcome(path, "Title 3", RedirectText());
    RedirectTextSkipped();
  }
}
