/** A dump as a tree of pages and revisions, the events the XML reader
    produces for it, and the outcome the classification rule prescribes for
    it, stated directly on the tree. The main theorem says the event-driven
    scanner reaches exactly that outcome. */
module Dump {
  import opened Results
  import opened Strings
  import opened Events
  import opened Finder
  import opened FinderProps
  import IntParse

  datatype ContributorEntry = ContributorEntry(username: string, id: nat)
  datatype RevisionEntry = RevisionEntry(id: nat, contributor: ContributorEntry, text: string)
  /** A page also carries its own `<id>`, which sits next to the revisions. */
  datatype PageEntry = PageEntry(title: string, ns: string, id: nat, revisions: seq<RevisionEntry>)

  // ---------------------------------------------------------------------
  // Serialisation to pull events

  function Leaf(tag: string, text: string): seq<Event> {
    [StartElement(tag), Characters(text), EndElement(tag)]
  }

  function ContributorEvents(c: ContributorEntry): seq<Event> {
    [StartElement("contributor")]
      + (Leaf("username", c.username) + (Leaf("id", IntParse.Show(c.id)) + [EndElement("contributor")]))
  }

  function RevisionEvents(r: RevisionEntry): seq<Event> {
    [StartElement("revision")]
      + (Leaf("id", IntParse.Show(r.id))
         + (ContributorEvents(r.contributor) + (Leaf("text", r.text) + [EndElement("revision")])))
  }

  function RevisionsEvents(rs: seq<RevisionEntry>): seq<Event>
    decreases |rs|
  {
    if |rs| == 0 then [] else RevisionEvents(rs[0]) + RevisionsEvents(rs[1..])
  }

  function PageEvents(p: PageEntry): seq<Event> {
    [StartElement("page")] + Leaf("title", p.title) + Leaf("ns", p.ns) + Leaf("id", IntParse.Show(p.id))
    + RevisionsEvents(p.revisions) + [EndElement("page")]
  }

  function PagesEvents(ps: seq<PageEntry>): seq<Event>
    decreases |ps|
  {
    if |ps| == 0 then [] else PageEvents(ps[0]) + PagesEvents(ps[1..])
  }

  /** The whole document as events: what `xml.dom.pulldom` reports, with the
      whitespace between elements left out, plus an end-of-document event the
      handlers ignore. */
  function DumpEvents(ps: seq<PageEntry>): seq<Event> {
    [StartDocument, StartElement("mediawiki")] + (PagesEvents(ps) + [EndElement("mediawiki"), EndDocument])
  }

  // ---------------------------------------------------------------------
  // The classification rule, stated on the tree

  ghost predicate RevisionRelevant(r: RevisionEntry) {
    Relevant(Lower(r.text))
  }

  ghost predicate RevisionHasRef(r: RevisionEntry) {
    IsSubstring(ReferenceMarker, Lower(r.text))
  }

  /** The records a page keeps: one per relevant revision, in order. */
  ghost function Recorded(rs: seq<RevisionEntry>): seq<RevisionRecord>
    decreases |rs|
  {
    if |rs| == 0 then []
    else (if RevisionRelevant(rs[0]) then [RevisionRecord(rs[0].id, RevisionHasRef(rs[0]))] else [])
         + Recorded(rs[1..])
  }

  /** An article with at least one relevant revision and no relevant revision
      carrying a reference marker. */
  ghost predicate PageIsFinding(p: PageEntry) {
    && p.ns == ArticleNamespace
    && (exists i :: 0 <= i < |p.revisions| && RevisionRelevant(p.revisions[i]))
    && (forall i :: 0 <= i < |p.revisions| && RevisionRelevant(p.revisions[i]) ==> !RevisionHasRef(p.revisions[i]))
  }

  ghost function ExpectedFindings(ps: seq<PageEntry>): seq<string>
    decreases |ps|
  {
    if |ps| == 0 then []
    else (if PageIsFinding(ps[0]) then [ps[0].title] else []) + ExpectedFindings(ps[1..])
  }

  ghost function CountArticles(ps: seq<PageEntry>): nat
    decreases |ps|
  {
    if |ps| == 0 then 0
    else (if ps[0].ns == ArticleNamespace then 1 else 0) + CountArticles(ps[1..])
  }

  ghost function CountRelevant(ps: seq<PageEntry>): nat
    decreases |ps|
  {
    if |ps| == 0 then 0 else |Recorded(ps[0].revisions)| + CountRelevant(ps[1..])
  }

  /** The records of a page are empty exactly when no revision is relevant. */
  lemma {:induction false} RecordedNonEmpty(rs: seq<RevisionEntry>)
    ensures |Recorded(rs)| > 0 <==> exists i :: 0 <= i < |rs| && RevisionRelevant(rs[i])
    decreases |rs|
  {
    if |rs| > 0 {
      RecordedNonEmpty(rs[1..]);
      if exists i :: 0 <= i < |rs[1..]| && RevisionRelevant(rs[1..][i]) {
        var i :| 0 <= i < |rs[1..]| && RevisionRelevant(rs[1..][i]);
        assert RevisionRelevant(rs[i + 1]);
      }
      if exists i :: 1 <= i < |rs| && RevisionRelevant(rs[i]) {
        var i :| 1 <= i < |rs| && RevisionRelevant(rs[i]);
        assert RevisionRelevant(rs[1..][i - 1]);
      }
    }
  }

  /** No record carries a reference marker exactly when no relevant revision
      does. */
  lemma {:induction false} RecordedNoRef(rs: seq<RevisionEntry>)
    ensures (forall i :: 0 <= i < |Recorded(rs)| ==> !Recorded(rs)[i].hasRef)
        <==> (forall i :: 0 <= i < |rs| && RevisionRelevant(rs[i]) ==> !RevisionHasRef(rs[i]))
    decreases |rs|
  {
    if |rs| > 0 {
      RecordedNoRef(rs[1..]);
      var head := if RevisionRelevant(rs[0]) then [RevisionRecord(rs[0].id, RevisionHasRef(rs[0]))] else [];
      var rec := Recorded(rs);
      assert rec == head + Recorded(rs[1..]);
      if forall i :: 0 <= i < |rec| ==> !rec[i].hasRef {
        forall i | 0 <= i < |rs| && RevisionRelevant(rs[i]) ensures !RevisionHasRef(rs[i]) {
          if i == 0 {
            assert rec[0] == head[0];
          } else {
            assert rs[1..][i - 1] == rs[i];
            forall j | 0 <= j < |Recorded(rs[1..])| ensures !Recorded(rs[1..])[j].hasRef {
              assert rec[|head| + j] == Recorded(rs[1..])[j];
            }
          }
        }
      }
      if forall i :: 0 <= i < |rs| && RevisionRelevant(rs[i]) ==> !RevisionHasRef(rs[i]) {
        forall j | 0 <= j < |rs[1..]| && RevisionRelevant(rs[1..][j]) ensures !RevisionHasRef(rs[1..][j]) {
          assert rs[1..][j] == rs[j + 1];
        }
        forall i | 0 <= i < |rec| ensures !rec[i].hasRef {
          if i >= |head| {
            assert rec[i] == Recorded(rs[1..])[i - |head|];
          }
        }
      }
    }
  }

  /** The scanner's page-level test, applied to the records the page keeps,
      agrees with the rule stated on the tree. */
  lemma FindingAgrees(p: PageEntry)
    ensures IsFinding(PageData(Some(p.title), Some(p.ns), Recorded(p.revisions))) <==> PageIsFinding(p)
  {
    RecordedNonEmpty(p.revisions);
    RecordedNoRef(p.revisions);
  }

  // ---------------------------------------------------------------------
  // Running the pieces

  const DocumentStack: seq<Handler> := [Start, Document]
  const RootStack: seq<Handler> := [Start, Document, Mediawiki]
  const PageStack: seq<Handler> := [Start, Document, Mediawiki, Page]
  const RevisionStack: seq<Handler> := [Start, Document, Mediawiki, Page, Revision]

  lemma RunCons(s: Scanner, e: Event, rest: seq<Event>)
    ensures Run(s, [e] + rest) == if Step(s, e).Err? then Err(Step(s, e).error) else Run(Step(s, e).value, rest)
  {
    assert ([e] + rest)[0] == e;
    assert ([e] + rest)[1..] == rest;
  }

  /** A three-event leaf element: start, one chunk, end. */
  lemma LeafSteps(s: Scanner, tag: string, text: string)
    ensures Run(s, Leaf(tag, text)) ==
      var first := Step(s, StartElement(tag));
      if first.Err? then Err(first.error)
      else Step(first.value.(cdata := first.value.cdata + [text]), EndElement(tag))
  {
    assert Leaf(tag, text) == [StartElement(tag)] + ([Characters(text)] + [EndElement(tag)]);
    RunCons(s, StartElement(tag), [Characters(text)] + [EndElement(tag)]);
    match Step(s, StartElement(tag))
    case Err(_) =>
    case Ok(s1) =>
      RunCons(s1, Characters(text), [EndElement(tag)]);
      RunCons(s1.(cdata := s1.cdata + [text]), EndElement(tag), []);
  }

  lemma JoinOne(text: string)
    ensures Join([text]) == text
  {
    assert [text][1..] == [];
  }

  /** A leaf the top handler has no use for only leaves its text behind in
      the accumulator. */
  lemma IgnoredLeaf(s: Scanner, tag: string, text: string)
    requires |s.stack| > 0
    requires || (Top(s) == Page && tag !in {"title", "ns", "revision", "page"})
             || (Top(s) == Contributor && tag != "contributor")
    ensures Run(s, Leaf(tag, text)) == Ok(s.(cdata := [text]))
  {
    LeafSteps(s, tag, text);
    var s1 := s.(cdata := []);
    assert Step(s, StartElement(tag)) == Ok(s1);
    assert s1.cdata + [text] == [text];
    var s2 := s.(cdata := [text]);
    assert Step(s2, EndElement(tag)) == Ok(s2);
  }

  lemma TitleLeaf(s: Scanner, text: string)
    requires s.stack == PageStack && s.page.Some?
    ensures Run(s, Leaf("title", text)) == Ok(s.(cdata := [text], page := Some(s.page.value.(title := Some(text)))))
  {
    LeafSteps(s, "title", text);
    JoinOne(text);
    var s1 := Push(s.(cdata := []), Title);
    assert Step(s, StartElement("title")) == Ok(s1);
    assert s1.cdata + [text] == [text];
    var s2 := s1.(cdata := [text]);
    assert Step(s2, EndElement("title")) == Ok(Pop(s2.(page := Some(s.page.value.(title := Some(text))))));
  }

  lemma NsLeaf(s: Scanner, text: string)
    requires s.stack == PageStack && s.page.Some?
    ensures Run(s, Leaf("ns", text)) == Ok(s.(cdata := [text], page := Some(s.page.value.(ns := Some(text)))))
  {
    LeafSteps(s, "ns", text);
    JoinOne(text);
    var s1 := Push(s.(cdata := []), Ns);
    assert Step(s, StartElement("ns")) == Ok(s1);
    assert s1.cdata + [text] == [text];
    var s2 := s1.(cdata := [text]);
    assert Step(s2, EndElement("ns")) == Ok(Pop(s2.(page := Some(s.page.value.(ns := Some(text))))));
  }

  lemma RevisionIdLeaf(s: Scanner, n: nat)
    requires s.stack == RevisionStack
    ensures Run(s, Leaf("id", IntParse.Show(n))) == Ok(s.(cdata := [IntParse.Show(n)], revisionId := Some(n)))
  {
    var text := IntParse.Show(n);
    LeafSteps(s, "id", text);
    JoinOne(text);
    IntParse.ParseShow(n);
    var s1 := Push(s.(cdata := []), Id);
    assert Step(s, StartElement("id")) == Ok(s1);
    assert s1.cdata + [text] == [text];
    var s2 := s1.(cdata := [text]);
    assert Step(s2, EndElement("id")) == Ok(Pop(s2.(revisionId := Some(n))));
  }

  lemma TextLeaf(s: Scanner, text: string)
    requires s.stack == RevisionStack
    ensures Run(s, Leaf("text", text)) == Ok(s.(cdata := [text], content := Some(Lower(text))))
  {
    LeafSteps(s, "text", text);
    JoinOne(text);
    var s1 := Push(s.(cdata := []), Text);
    assert Step(s, StartElement("text")) == Ok(s1);
    assert s1.cdata + [text] == [text];
    var s2 := s1.(cdata := [text]);
    assert Step(s2, EndElement("text")) == Ok(Pop(s2.(content := Some(Lower(text)))));
  }

  /** A contributor, its nested `<id>` included, changes nothing but the
      accumulator. */
  lemma ContributorRun(s: Scanner, c: ContributorEntry)
    requires s.stack == RevisionStack
    ensures Run(s, ContributorEvents(c)) == Ok(s.(cdata := [IntParse.Show(c.id)]))
  {
    var s1 := Push(s.(cdata := []), Contributor);
    var un := Leaf("username", c.username);
    var id := Leaf("id", IntParse.Show(c.id));
    var close := [EndElement("contributor")];
    RunCons(s, StartElement("contributor"), un + (id + close));
    IgnoredLeaf(s1, "username", c.username);
    var s2 := s1.(cdata := [c.username]);
    RunThrough(s1, un, id + close, s2);
    IgnoredLeaf(s2, "id", IntParse.Show(c.id));
    var s3 := s2.(cdata := [IntParse.Show(c.id)]);
    RunThrough(s2, id, close, s3);
    RunCons(s3, EndElement("contributor"), []);
  }

  /** A run that reaches `t` on `a` continues from `t` on `b`. */
  lemma RunThrough(s: Scanner, a: seq<Event>, b: seq<Event>, t: Scanner)
    requires Run(s, a) == Ok(t)
    ensures Run(s, a + b) == Run(t, b)
  {
    RunAppend(s, a, b);
  }

  /** Two runs in a row are one run over both event sequences. */
  lemma RunCompose(s: Scanner, a: seq<Event>, b: seq<Event>, t: Scanner, u: Scanner)
    requires Run(s, a) == Ok(t) && Run(t, b) == Ok(u)
    ensures Run(s, a + b) == Ok(u)
  {
    RunAppend(s, a, b);
  }

  lemma RecordedOne(r: RevisionEntry)
    ensures Recorded([r]) == if RevisionRelevant(r) then [RevisionRecord(r.id, RevisionHasRef(r))] else []
  {
    assert [r][1..] == [];
  }

  lemma StepRevisionClose(s: Scanner)
    requires |s.stack| > 0 && Top(s) == Revision && DoRevision(s).Ok?
    ensures Step(s, EndElement("revision")) == Ok(Pop(DoRevision(s).value))
  {
  }

  /** Closing a revision whose text has been captured. */
  lemma RevisionClose(s: Scanner, r: RevisionEntry)
    requires s.stack == RevisionStack && s.page.Some?
    requires s.content == Some(Lower(r.text)) && s.revisionId == Some(r.id)
    ensures Run(s, [EndElement("revision")]) ==
      Ok(s.(stack := PageStack,
            page := Some(s.page.value.(revisions := s.page.value.revisions + Recorded([r]))),
            counters := s.counters.(blps := s.counters.blps + |Recorded([r])|)))
  {
    RunCons(s, EndElement("revision"), []);
    RecordedOne(r);
    var p := s.page.value;
    assert DoRevision(s).Ok?;
    StepRevisionClose(s);
    assert RevisionStack[..4] == PageStack;
    if RevisionRelevant(r) {
      assert DoRevision(s).value == s.(page := Some(p.(revisions := p.revisions + Recorded([r]))),
                                       counters := s.counters.(blps := s.counters.blps + 1));
    } else {
      assert p.revisions + [] == p.revisions;
    }
  }

  /** The effect of one revision on a page: its id and text are captured, and
      it is recorded and counted exactly when it is relevant. */
  lemma RevisionRun(s: Scanner, r: RevisionEntry)
    requires s.stack == PageStack && s.page.Some?
    ensures Run(s, RevisionEvents(r)).Ok?
    ensures var t := Run(s, RevisionEvents(r)).value;
      var p := s.page.value;
      t == s.(cdata := [r.text], content := Some(Lower(r.text)), revisionId := Some(r.id),
              page := Some(p.(revisions := p.revisions + Recorded([r]))),
              counters := s.counters.(blps := s.counters.blps + |Recorded([r])|))
  {
    var idl := Leaf("id", IntParse.Show(r.id));
    var con := ContributorEvents(r.contributor);
    var txt := Leaf("text", r.text);
    var close := [EndElement("revision")];
    var s1 := Push(s.(cdata := []), Revision);
    RunCons(s, StartElement("revision"), idl + (con + (txt + close)));
    assert Step(s, StartElement("revision")) == Ok(s1);
    RevisionIdLeaf(s1, r.id);
    var s2 := s1.(cdata := [IntParse.Show(r.id)], revisionId := Some(r.id));
    RunThrough(s1, idl, con + (txt + close), s2);
    ContributorRun(s2, r.contributor);
    var s3 := s2.(cdata := [IntParse.Show(r.contributor.id)]);
    RunThrough(s2, con, txt + close, s3);
    TextLeaf(s3, r.text);
    var s4 := s3.(cdata := [r.text], content := Some(Lower(r.text)));
    RunThrough(s3, txt, close, s4);
    RevisionClose(s4, r);
  }

  /** What scanning the revisions `rs` of the open page leaves in `t`. */
  ghost predicate RevisionsOutcome(s: Scanner, rs: seq<RevisionEntry>, t: Scanner)
    requires s.page.Some?
  {
    var p := s.page.value;
    && t.stack == s.stack && t.path == s.path
    && t.page == Some(p.(revisions := p.revisions + Recorded(rs)))
    && t.counters == s.counters.(blps := s.counters.blps + |Recorded(rs)|)
    && t.findings == s.findings && t.diagnostics == s.diagnostics
  }

  lemma RevisionsOutcomeCons(s: Scanner, rs: seq<RevisionEntry>, t1: Scanner, t: Scanner)
    requires s.page.Some? && t1.page.Some? && |rs| > 0
    requires RevisionsOutcome(s, [rs[0]], t1) && RevisionsOutcome(t1, rs[1..], t)
    ensures RevisionsOutcome(s, rs, t)
  {
    RecordedCons(rs);
    var p := s.page.value;
    assert p.revisions + Recorded([rs[0]]) + Recorded(rs[1..]) == p.revisions + Recorded(rs);
  }

  /** `RevisionRun`, stated as an outcome. */
  lemma RevisionOutcome(s: Scanner, r: RevisionEntry)
    requires s.stack == PageStack && s.page.Some?
    ensures Run(s, RevisionEvents(r)).Ok?
    ensures var t := Run(s, RevisionEvents(r)).value;
      t.stack == PageStack && t.page.Some? && RevisionsOutcome(s, [r], t)
  {
    RevisionRun(s, r);
  }

  /** The effect of a page's revisions: the page keeps exactly the records of
      its relevant revisions, and `blp_count` counts them. */
  lemma {:induction false} RevisionsRun(s: Scanner, rs: seq<RevisionEntry>)
    requires s.stack == PageStack && s.page.Some?
    ensures Run(s, RevisionsEvents(rs)).Ok?
    ensures RevisionsOutcome(s, rs, Run(s, RevisionsEvents(rs)).value)
    decreases |rs|
  {
    if |rs| > 0 {
      RunAppend(s, RevisionEvents(rs[0]), RevisionsEvents(rs[1..]));
      RevisionOutcome(s, rs[0]);
      var t1 := Run(s, RevisionEvents(rs[0])).value;
      RevisionsRun(t1, rs[1..]);
      RevisionsOutcomeCons(s, rs, t1, Run(t1, RevisionsEvents(rs[1..])).value);
    } else {
      assert s.page.value.revisions + Recorded(rs) == s.page.value.revisions;
    }
  }

  lemma RecordedCons(rs: seq<RevisionEntry>)
    requires |rs| > 0
    ensures Recorded(rs) == Recorded([rs[0]]) + Recorded(rs[1..])
  {
    RecordedOne(rs[0]);
  }

  lemma StepPageClose(s: Scanner)
    requires |s.stack| > 0 && Top(s) == Page && DoPage(s).Ok?
    ensures Step(s, EndElement("page")) == Ok(Pop(DoPage(s).value.(page := None)))
  {
  }

  /** Closing a page whose title, namespace and records have been captured. */
  lemma PageCloseRun(s: Scanner, p: PageEntry)
    requires s.stack == PageStack
    requires s.page == Some(PageData(Some(p.title), Some(p.ns), Recorded(p.revisions)))
    ensures Run(s, [EndElement("page")]).Ok?
    ensures var t := Run(s, [EndElement("page")]).value;
      var c := s.counters;
      && t.stack == RootStack && t.page.None? && t.path == s.path
      && t.counters == c.(pages := c.pages + 1,
                          articles := c.articles + (if p.ns == ArticleNamespace then 1 else 0),
                          found := c.found + (if PageIsFinding(p) then 1 else 0))
      && t.findings == s.findings + (if PageIsFinding(p) then [p.title] else [])
  {
    RunCons(s, EndElement("page"), []);
    FindingAgrees(p);
    assert DoPage(s).Ok?;
    StepPageClose(s);
    assert PageStack[..3] == RootStack;
  }

  /** The events of a page before its revisions. */
  function PageHead(p: PageEntry): seq<Event> {
    [StartElement("page")] + (Leaf("title", p.title) + (Leaf("ns", p.ns) + Leaf("id", IntParse.Show(p.id))))
  }

  /** Opening a page and reading its title, namespace and page-level id. */
  lemma PageHeadRun(s: Scanner, p: PageEntry)
    requires s.stack == RootStack && s.page.None?
    ensures Run(s, PageHead(p)) ==
      Ok(s.(stack := PageStack, cdata := [IntParse.Show(p.id)], page := Some(PageData(Some(p.title), Some(p.ns), []))))
  {
    var tl := Leaf("title", p.title);
    var nl := Leaf("ns", p.ns);
    var il := Leaf("id", IntParse.Show(p.id));
    var s1 := Push(s.(cdata := [], page := Some(NewPage)), Page);
    RunCons(s, StartElement("page"), tl + (nl + il));
    assert Step(s, StartElement("page")) == Ok(s1);
    TitleLeaf(s1, p.title);
    var s2 := s1.(cdata := [p.title], page := Some(NewPage.(title := Some(p.title))));
    RunThrough(s1, tl, nl + il, s2);
    NsLeaf(s2, p.ns);
    var s3 := s2.(cdata := [p.ns], page := Some(PageData(Some(p.title), Some(p.ns), [])));
    RunThrough(s2, nl, il, s3);
    IgnoredLeaf(s3, "id", IntParse.Show(p.id));
  }

  /** The effect of one page: it is counted, an article is counted as such,
      its relevant revisions are counted, and its title is reported exactly
      when the rule on the tree calls it a finding. */
  lemma PageRun(s: Scanner, p: PageEntry)
    requires s.stack == RootStack && s.page.None?
    ensures Run(s, PageEvents(p)).Ok?
    ensures var t := Run(s, PageEvents(p)).value;
      var c := s.counters;
      && t.stack == s.stack && t.page.None? && t.path == s.path
      && t.counters == c.(pages := c.pages + 1,
                          articles := c.articles + (if p.ns == ArticleNamespace then 1 else 0),
                          blps := c.blps + |Recorded(p.revisions)|,
                          found := c.found + (if PageIsFinding(p) then 1 else 0))
      && t.findings == s.findings + (if PageIsFinding(p) then [p.title] else [])
  {
    var revs := RevisionsEvents(p.revisions);
    var close := [EndElement("page")];
    assert PageEvents(p) == PageHead(p) + (revs + close);
    PageHeadRun(s, p);
    var s4 := s.(stack := PageStack, cdata := [IntParse.Show(p.id)], page := Some(PageData(Some(p.title), Some(p.ns), [])));
    RunThrough(s, PageHead(p), revs + close, s4);
    RevisionsRun(s4, p.revisions);
    var s5 := Run(s4, revs).value;
    assert [] + Recorded(p.revisions) == Recorded(p.revisions);
    RunThrough(s4, revs, close, s5);
    PageCloseRun(s5, p);
  }

  /** What scanning the pages `ps` from `s` leaves in `t`. */
  ghost predicate PagesOutcome(s: Scanner, ps: seq<PageEntry>, t: Scanner) {
    var c := s.counters;
    && t.stack == s.stack && t.page.None? && t.path == s.path
    && t.counters == c.(pages := c.pages + |ps|,
                        articles := c.articles + CountArticles(ps),
                        blps := c.blps + CountRelevant(ps),
                        found := c.found + |ExpectedFindings(ps)|)
    && t.findings == s.findings + ExpectedFindings(ps)
  }

  /** The outcome of the first page followed by that of the others is the
      outcome of all of them. */
  lemma PagesOutcomeCons(s: Scanner, ps: seq<PageEntry>, t1: Scanner, t: Scanner)
    requires |ps| > 0
    requires PagesOutcome(s, [ps[0]], t1) && PagesOutcome(t1, ps[1..], t)
    ensures PagesOutcome(s, ps, t)
  {
    var p := ps[0];
    assert [p][1..] == [];
    assert CountArticles(ps) == CountArticles([p]) + CountArticles(ps[1..]);
    assert CountRelevant(ps) == CountRelevant([p]) + CountRelevant(ps[1..]);
    assert ExpectedFindings([p]) + ExpectedFindings(ps[1..]) == ExpectedFindings(ps);
  }

  /** The effect `PageRun` states for one page is its outcome as a list of
      one. */
  lemma SingletonOutcome(s: Scanner, p: PageEntry, t: Scanner)
    requires
      var c := s.counters;
      && t.stack == s.stack && t.page.None? && t.path == s.path
      && t.counters == c.(pages := c.pages + 1,
                          articles := c.articles + (if p.ns == ArticleNamespace then 1 else 0),
                          blps := c.blps + |Recorded(p.revisions)|,
                          found := c.found + (if PageIsFinding(p) then 1 else 0))
      && t.findings == s.findings + (if PageIsFinding(p) then [p.title] else [])
    ensures PagesOutcome(s, [p], t)
  {
    assert [p][1..] == [];
    assert CountArticles([p]) == if p.ns == ArticleNamespace then 1 else 0;
    assert CountRelevant([p]) == |Recorded(p.revisions)|;
    assert ExpectedFindings([p]) == if PageIsFinding(p) then [p.title] else [];
  }

  lemma PageOutcome(s: Scanner, p: PageEntry)
    requires s.stack == RootStack && s.page.None?
    ensures Run(s, PageEvents(p)).Ok? && PagesOutcome(s, [p], Run(s, PageEvents(p)).value)
  {
    PageRun(s, p);
    SingletonOutcome(s, p, Run(s, PageEvents(p)).value);
  }

  lemma {:induction false} PagesRun(s: Scanner, ps: seq<PageEntry>)
    requires s.stack == RootStack && s.page.None?
    ensures Run(s, PagesEvents(ps)).Ok?
    ensures PagesOutcome(s, ps, Run(s, PagesEvents(ps)).value)
    decreases |ps|
  {
    if |ps| > 0 {
      RunAppend(s, PageEvents(ps[0]), PagesEvents(ps[1..]));
      PageOutcome(s, ps[0]);
      var t1 := Run(s, PageEvents(ps[0])).value;
      PagesRun(t1, ps[1..]);
      PagesOutcomeCons(s, ps, t1, Run(t1, PagesEvents(ps[1..])).value);
    }
  }

  /** Main theorem. Scanning a whole dump, from a fresh scanner or from one
      that has already scanned earlier files, counts every page, every
      article and every relevant revision, and reports, in document order,
      exactly the titles of the pages the classification rule selects. The
      stack ends as `[start, document]`: the bottom handlers are never
      popped. */
  lemma DumpRun(s: Scanner, ps: seq<PageEntry>)
    requires (s.stack == [Start] || s.stack == DocumentStack) && s.page.None?
    ensures Run(s, DumpEvents(ps)).Ok?
    ensures var t := Run(s, DumpEvents(ps)).value;
      var c := s.counters;
      && t.stack == DocumentStack && t.page.None? && t.path == s.path
      && t.counters == c.(pages := c.pages + |ps|,
                          articles := c.articles + CountArticles(ps),
                          blps := c.blps + CountRelevant(ps),
                          found := c.found + |ExpectedFindings(ps)|)
      && t.findings == s.findings + ExpectedFindings(ps)
  {
    var s2 := s.(stack := RootStack, cdata := []);
    DumpOpen(s, PagesEvents(ps) + [EndElement("mediawiki"), EndDocument]);
    DumpBodyRun(s2, ps);
  }

  /** The pages and the closing of the root and the document. */
  lemma DumpBodyRun(s: Scanner, ps: seq<PageEntry>)
    requires s.stack == RootStack && s.page.None?
    ensures Run(s, PagesEvents(ps) + [EndElement("mediawiki"), EndDocument]).Ok?
    ensures var t := Run(s, PagesEvents(ps) + [EndElement("mediawiki"), EndDocument]).value;
      t.stack == DocumentStack && PagesOutcome(s, ps, t.(stack := RootStack))
  {
    var body := PagesEvents(ps);
    var tail := [EndElement("mediawiki"), EndDocument];
    PagesRun(s, ps);
    var s3 := Run(s, body).value;
    RunThrough(s, body, tail, s3);
    DumpClose(s3);
    assert s3.(stack := DocumentStack).(stack := RootStack) == s3;
  }

  /** Entering the document and the root, from a fresh scanner or from one
      left by an earlier document. */
  lemma DumpOpen(s: Scanner, rest: seq<Event>)
    requires s.stack == [Start] || s.stack == DocumentStack
    ensures Run(s, [StartDocument, StartElement("mediawiki")] + rest) == Run(s.(stack := RootStack, cdata := []), rest)
  {
    assert [StartDocument, StartElement("mediawiki")] + rest == [StartDocument] + ([StartElement("mediawiki")] + rest);
    var s1 := s.(stack := DocumentStack);
    assert [Start] + [Document] == DocumentStack;
    assert Step(s, StartDocument) == Ok(s1);
    RunCons(s, StartDocument, [StartElement("mediawiki")] + rest);
    assert DocumentStack + [Mediawiki] == RootStack;
    assert Step(s1, StartElement("mediawiki")) == Ok(s.(stack := RootStack, cdata := []));
    RunCons(s1, StartElement("mediawiki"), rest);
  }

  /** Closing the root element and the document. */
  lemma DumpClose(s: Scanner)
    requires s.stack == RootStack
    ensures Run(s, [EndElement("mediawiki"), EndDocument]) == Ok(s.(stack := DocumentStack))
  {
    assert [EndElement("mediawiki"), EndDocument] == [EndElement("mediawiki")] + [EndDocument];
    assert RootStack[..2] == DocumentStack;
    var s1 := s.(stack := DocumentStack);
    assert Step(s, EndElement("mediawiki")) == Ok(s1);
    RunCons(s, EndElement("mediawiki"), [EndDocument]);
    RunCons(s1, EndDocument, []);
  }

  /** `process_stream` over a dump: the same outcome, and one more file. */
  lemma ProcessDump(s: Scanner, path: string, ps: seq<PageEntry>)
    requires (s.stack == [Start] || s.stack == DocumentStack) && s.page.None?
    ensures ProcessStream(s, path, DumpEvents(ps)).Ok?
    ensures var t := ProcessStream(s, path, DumpEvents(ps)).value;
      var c := s.counters;
      && t.stack == DocumentStack && t.page.None? && t.path == Some(path)
      && t.counters == Counters(c.files + 1, c.pages + |ps|, c.articles + CountArticles(ps),
                                c.blps + CountRelevant(ps), c.found + |ExpectedFindings(ps)|)
      && t.findings == s.findings + ExpectedFindings(ps)
  {
    DumpRun(s.(path := Some(path), cdata := []), ps);
  }
}
