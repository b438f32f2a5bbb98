/** The `Finder` scanner of no_refs.py: a pushdown state machine over pull
    events that recognises `mediawiki > page > {title, ns, revision > {id,
    contributor, text}}`, classifies each revision and each page, and counts.

    The Python object is mutable; here a `Scanner` is an immutable value and
    every handler returns the next one. A Python exception raised inside a
    handler (an attribute read before it was ever set, a failing `int()`)
    becomes an `Err(Fault)` that ends the run. */
module Finder {
  import opened Results
  import opened Strings
  import opened Events
  import IntParse

  /** Namespace code of an encyclopedia article. */
  const ArticleNamespace: string := "0"
  /** Lower-case markers the classification looks for in a revision's text. */
  const RedirectMarker: string := "#redirect"
  const CategoryMarker: string := "living people"
  const ReferenceMarker: string := "ref"
  /** A progress record is logged every this many pages. */
  const ProgressInterval: nat := 1000

  /** The bound methods that can sit on `Finder.state`. */
  datatype Handler =
    | Start | Document | Mediawiki | Page | Title | Ns
    | Revision | Id | Contributor | Text

  /** The schema, stated independently of the handlers: the handler that
      pushes `h`, if any. */
  function Parent(h: Handler): Option<Handler> {
    match h
    case Start => None
    case Document => Some(Start)
    case Mediawiki => Some(Document)
    case Page => Some(Mediawiki)
    case Title => Some(Page)
    case Ns => Some(Page)
    case Revision => Some(Page)
    case Id => Some(Revision)
    case Contributor => Some(Revision)
    case Text => Some(Revision)
  }

  /** The element a handler stands for; its end tag pops the handler. The
      bottom two handlers stand for no element and are entered on the
      document start and the root start respectively. */
  function Tag(h: Handler): Option<string> {
    match h
    case Start => None
    case Document => None
    case Mediawiki => Some("mediawiki")
    case Page => Some("page")
    case Title => Some("title")
    case Ns => Some("ns")
    case Revision => Some("revision")
    case Id => Some("id")
    case Contributor => Some("contributor")
    case Text => Some("text")
  }

  /** Handler `parent`, on the start tag `tag`, enters `child`. */
  predicate Opens(parent: Handler, tag: string, child: Handler) {
    Parent(child) == Some(parent) && Tag(child) == Some(tag)
  }

  /** `Revision(id, has_ref)`, the finalised record of a relevant revision. */
  datatype RevisionRecord = RevisionRecord(id: int, hasRef: bool)

  /** `Page`: `title` and `ns` are attributes that exist only once their
      element has closed. */
  datatype PageData = PageData(title: Option<string>, ns: Option<string>, revisions: seq<RevisionRecord>)

  const NewPage: PageData := PageData(None, None, [])

  datatype Counters = Counters(files: nat, pages: nat, articles: nat, blps: nat, found: nat)

  /** No counter decreases from `a` to `b`. */
  predicate NoDecrease(a: Counters, b: Counters) {
    a.files <= b.files && a.pages <= b.pages && a.articles <= b.articles
    && a.blps <= b.blps && a.found <= b.found
  }

  /** Records sent to the progress log: the periodic counter snapshot (its
      wall-clock part is not modelled) and the detail line of a finding. */
  datatype Diagnostic = Progress(snapshot: Counters) | FoundIn(title: string, path: Option<string>)

  /** The fields of a `Finder` that the scan reads or writes. `findings` is the
      console output, one title per line. */
  datatype Scanner = Scanner(
    path: Option<string>,
    stack: seq<Handler>,
    cdata: seq<string>,
    page: Option<PageData>,
    content: Option<string>,
    revisionId: Option<int>,
    counters: Counters,
    findings: seq<string>,
    diagnostics: seq<Diagnostic>)

  /** Why a handler raised. */
  datatype Fault =
    | EmptyStack          // `self.state[-1]` on an empty list
    | NoPage              // `self.page_data` is None
    | NsUnset             // `page_data.ns` read before any `<ns>` closed
    | TitleUnset          // `page_data.title` read before any `<title>` closed
    | ContentUnset        // `self.content` read before any `<text>` closed
    | RevisionIdUnset     // `self.revision_id` read before any revision `<id>` closed
    | BadRevisionId(text: string)  // `int()` rejected the id text

  /** `Finder()`: one `start` handler on the stack, all counters zero. */
  function Fresh(): (s: Scanner)
    ensures s.stack == [Start] && s.page.None? && s.findings == []
  {
    Scanner(None, [Start], [], None, None, None, Counters(0, 0, 0, 0, 0), [], [])
  }

  function Top(s: Scanner): Handler
    requires |s.stack| > 0
  {
    s.stack[|s.stack| - 1]
  }

  function Push(s: Scanner, h: Handler): Scanner {
    s.(stack := s.stack + [h])
  }

  function Pop(s: Scanner): Scanner
    requires |s.stack| > 0
  {
    s.(stack := s.stack[..|s.stack| - 1])
  }

  // ---------------------------------------------------------------------
  // Classification

  /** A revision text (already lower-cased) that is kept: not a redirect, and
      in the living-people category. */
  ghost predicate Relevant(content: string) {
    !IsSubstring(RedirectMarker, content) && IsSubstring(CategoryMarker, content)
  }

  /** A closed page that is reported: an article whose recorded revisions are
      not empty and carry no reference marker. */
  ghost predicate IsFinding(p: PageData) {
    && p.ns == Some(ArticleNamespace)
    && |p.revisions| > 0
    && forall i :: 0 <= i < |p.revisions| ==> !p.revisions[i].hasRef
  }

  /** `any(rev.has_ref for rev in revisions)`. */
  function AnyHasRef(revs: seq<RevisionRecord>): (b: bool)
    ensures b <==> exists i :: 0 <= i < |revs| && revs[i].hasRef
  {
    if |revs| == 0 then false
    else if revs[0].hasRef then true
    else
      assert forall i :: 1 <= i < |revs| ==> revs[i] == revs[1..][i - 1];
      AnyHasRef(revs[1..])
  }

  /** `do_revision`: keep a relevant revision as a record, counting it. */
  function DoRevision(s: Scanner): (r: Result<Scanner, Fault>)
    ensures s.content.None? ==> r == Err(ContentUnset)
    ensures s.content.Some? && !Relevant(s.content.value) ==> r == Ok(s)
    ensures s.content.Some? && Relevant(s.content.value) && s.revisionId.None? ==> r == Err(RevisionIdUnset)
    ensures s.content.Some? && Relevant(s.content.value) && s.revisionId.Some? && s.page.None? ==> r == Err(NoPage)
    ensures s.content.Some? && Relevant(s.content.value) && s.revisionId.Some? && s.page.Some? ==>
      var p := s.page.value;
      var rec := RevisionRecord(s.revisionId.value, IsSubstring(ReferenceMarker, s.content.value));
      r == Ok(s.(counters := s.counters.(blps := s.counters.blps + 1),
                 page := Some(p.(revisions := p.revisions + [rec]))))
  {
    match s.content
    case None => Err(ContentUnset)
    case Some(content) =>
      if Contains(content, RedirectMarker) then Ok(s)
      else if !Contains(content, CategoryMarker) then Ok(s)
      else
        var s1 := s.(counters := s.counters.(blps := s.counters.blps + 1));
        match s1.revisionId
        case None => Err(RevisionIdUnset)
        case Some(id) =>
          var rec := RevisionRecord(id, Contains(content, ReferenceMarker));
          match s1.page
          case None => Err(NoPage)
          case Some(p) => Ok(s1.(page := Some(p.(revisions := p.revisions + [rec]))))
  }

  /** `do_page`: count the page, log progress at every checkpoint, and report
      an article that is a finding. */
  function DoPage(s: Scanner): (r: Result<Scanner, Fault>)
    ensures s.page.None? ==> r == Err(NoPage)
    ensures s.page.Some? && s.page.value.ns.None? ==> r == Err(NsUnset)
    ensures s.page.Some? && IsFinding(s.page.value) && s.page.value.title.None? ==> r == Err(TitleUnset)
    ensures s.page.Some? && s.page.value.ns.Some? && !(IsFinding(s.page.value) && s.page.value.title.None?) ==> r.Ok?
    ensures r.Ok? ==>
      var p := s.page.value;
      var c := s.counters;
      var counted := c.(pages := c.pages + 1);
      var article := p.ns == Some(ArticleNamespace);
      var found := IsFinding(p);
      && r.value == s.(counters := r.value.counters, findings := r.value.findings, diagnostics := r.value.diagnostics)
      && r.value.counters == counted.(articles := c.articles + (if article then 1 else 0),
                                      found := c.found + (if found then 1 else 0))
      && r.value.findings == s.findings + (if found then [p.title.value] else [])
      && r.value.diagnostics == s.diagnostics
           + (if counted.pages % ProgressInterval == 0 then [Progress(counted)] else [])
           + (if found then [FoundIn(p.title.value, s.path)] else [])
  {
    var c := s.counters.(pages := s.counters.pages + 1);
    var s1 := s.(counters := c);
    var s2 := if c.pages % ProgressInterval == 0 then s1.(diagnostics := s1.diagnostics + [Progress(c)]) else s1;
    match s2.page
    case None => Err(NoPage)
    case Some(p) =>
      match p.ns
      case None => Err(NsUnset)
      case Some(ns) =>
        if ns != ArticleNamespace then Ok(s2)
        else
          var s3 := s2.(counters := s2.counters.(articles := s2.counters.articles + 1));
          if p.revisions == [] || AnyHasRef(p.revisions) then Ok(s3)
          else
            var s4 := s3.(counters := s3.counters.(found := s3.counters.found + 1));
            match p.title
            case None => Err(TitleUnset)
            case Some(title) =>
              Ok(s4.(findings := s4.findings + [title],
                     diagnostics := s4.diagnostics + [FoundIn(title, s4.path)]))
  }

  // ---------------------------------------------------------------------
  // Handlers, one per method of `Finder`

  function OnStart(s: Scanner, e: Event): Result<Scanner, Fault> {
    if e.StartDocument? then Ok(Push(s, Document)) else Ok(s)
  }

  function OnDocument(s: Scanner, e: Event): Result<Scanner, Fault> {
    if e == StartElement("mediawiki") then Ok(Push(s, Mediawiki)) else Ok(s)
  }

  function OnMediawiki(s: Scanner, e: Event): Result<Scanner, Fault>
    requires |s.stack| > 0
  {
    if e == EndElement("mediawiki") then Ok(Pop(s))
    else if e == StartElement("page") then Ok(Push(s.(page := Some(NewPage)), Page))
    else Ok(s)
  }

  function OnPage(s: Scanner, e: Event): Result<Scanner, Fault>
    requires |s.stack| > 0
  {
    if e == EndElement("page") then
      var s1 :- DoPage(s);
      Ok(Pop(s1.(page := None)))
    else if e == StartElement("title") then Ok(Push(s, Title))
    else if e == StartElement("ns") then Ok(Push(s, Ns))
    else if e == StartElement("revision") then Ok(Push(s, Revision))
    else Ok(s)
  }

  function OnTitle(s: Scanner, e: Event): Result<Scanner, Fault>
    requires |s.stack| > 0
  {
    if e == EndElement("title") then
      match s.page
      case None => Err(NoPage)
      case Some(p) => Ok(Pop(s.(page := Some(p.(title := Some(Join(s.cdata)))))))
    else Ok(s)
  }

  function OnNs(s: Scanner, e: Event): Result<Scanner, Fault>
    requires |s.stack| > 0
  {
    if e == EndElement("ns") then
      match s.page
      case None => Err(NoPage)
      case Some(p) => Ok(Pop(s.(page := Some(p.(ns := Some(Join(s.cdata)))))))
    else Ok(s)
  }

  function OnRevision(s: Scanner, e: Event): Result<Scanner, Fault>
    requires |s.stack| > 0
  {
    if e == EndElement("revision") then
      var s1 :- DoRevision(s);
      Ok(Pop(s1))
    else if e == StartElement("id") then Ok(Push(s, Id))
    else if e == StartElement("contributor") then Ok(Push(s, Contributor))
    else if e == StartElement("text") then Ok(Push(s, Text))
    else Ok(s)
  }

  function OnText(s: Scanner, e: Event): Result<Scanner, Fault>
    requires |s.stack| > 0
  {
    if e == EndElement("text") then Ok(Pop(s.(content := Some(Lower(Join(s.cdata))))))
    else Ok(s)
  }

  function OnContributor(s: Scanner, e: Event): Result<Scanner, Fault>
    requires |s.stack| > 0
  {
    if e == EndElement("contributor") then Ok(Pop(s)) else Ok(s)
  }

  function OnId(s: Scanner, e: Event): Result<Scanner, Fault>
    requires |s.stack| > 0
  {
    if e == EndElement("id") then
      var text := Join(s.cdata);
      match IntParse.ParseInt(text)
      case None => Err(BadRevisionId(text))
      case Some(id) => Ok(Pop(s.(revisionId := Some(id))))
    else Ok(s)
  }

  /** `self.state[-1](event, node)`. */
  function Dispatch(s: Scanner, e: Event): Result<Scanner, Fault> {
    if |s.stack| == 0 then Err(EmptyStack)
    else
      match Top(s)
      case Start => OnStart(s, e)
      case Document => OnDocument(s, e)
      case Mediawiki => OnMediawiki(s, e)
      case Page => OnPage(s, e)
      case Title => OnTitle(s, e)
      case Ns => OnNs(s, e)
      case Revision => OnRevision(s, e)
      case Id => OnId(s, e)
      case Contributor => OnContributor(s, e)
      case Text => OnText(s, e)
  }

  /** One iteration of the event loop of `process_stream`: character data is
      only accumulated; an element start clears the accumulator and every
      other event goes to the handler on top of the stack. */
  function Step(s: Scanner, e: Event): Result<Scanner, Fault> {
    match e
    case Characters(d) => Ok(s.(cdata := s.cdata + [d]))
    case StartElement(_) => Dispatch(s.(cdata := []), e)
    case _ => Dispatch(s, e)
  }

  /** The event loop of `process_stream`, stopping at the first fault. */
  function Run(s: Scanner, evs: seq<Event>): Result<Scanner, Fault>
    decreases |evs|
  {
    if |evs| == 0 then Ok(s)
    else
      match Step(s, evs[0])
      case Err(f) => Err(f)
      case Ok(s1) => Run(s1, evs[1..])
  }

  /** `process_stream(stream, path)`, with the stream already turned into
      events: record the path, start a fresh accumulator, run the loop and
      count the file. The stack, the page, the persistent revision fields and
      the counters carry over from earlier streams. */
  function ProcessStream(s: Scanner, path: string, evs: seq<Event>): Result<Scanner, Fault> {
    var s1 :- Run(s.(path := Some(path), cdata := []), evs);
    Ok(s1.(counters := s1.counters.(files := s1.counters.files + 1)))
  }

  /** `process_file` on each file in turn, each already turned into events. */
  function ProcessStreams(s: Scanner, files: seq<(string, seq<Event>)>): Result<Scanner, Fault>
    decreases |files|
  {
    if |files| == 0 then Ok(s)
    else
      var s1 :- ProcessStream(s, files[0].0, files[0].1);
      ProcessStreams(s1, files[1..])
  }
}
