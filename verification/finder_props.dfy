/** Properties of the `Finder` scanner: the stack follows the schema, the
    accumulator holds exactly the character data since the last element
    start, counters never go down, and each page close is counted once. */
module FinderProps {
  import opened Results
  import opened Strings
  import opened Events
  import opened Finder
  import IntParse

  // ---------------------------------------------------------------------
  // Stack discipline

  /** A handler pushes a child only for that child's own start tag, pops only
      on its own end tag, and ignores every other tag; character data never
      reaches a handler. */
  lemma StackDiscipline(s: Scanner, e: Event)
    requires |s.stack| > 0 && Step(s, e).Ok?
    ensures var t := Step(s, e).value;
      match e
      case StartDocument =>
        t.stack == (if Top(s) == Start then s.stack + [Document] else s.stack)
      case StartElement(tag) =>
        && (forall c :: Opens(Top(s), tag, c) ==> t.stack == s.stack + [c])
        && (|| t.stack == s.stack
            || (|t.stack| == |s.stack| + 1 && t.stack[..|s.stack|] == s.stack
                && Opens(Top(s), tag, t.stack[|s.stack|])))
      case EndElement(tag) =>
        t.stack == (if Tag(Top(s)) == Some(tag) then s.stack[..|s.stack| - 1] else s.stack)
      case _ =>
        t.stack == s.stack
  {
    match e
    case StartElement(tag) => StartTagStack(s, tag);
    case EndElement(tag) => EndTagStack(s, tag);
    case _ =>
  }

  lemma StartTagStack(s: Scanner, tag: string)
    requires |s.stack| > 0 && Step(s, StartElement(tag)).Ok?
    ensures var t := Step(s, StartElement(tag)).value;
      && (forall c :: Opens(Top(s), tag, c) ==> t.stack == s.stack + [c])
      && (|| t.stack == s.stack
          || (|t.stack| == |s.stack| + 1 && t.stack[..|s.stack|] == s.stack
              && Opens(Top(s), tag, t.stack[|s.stack|])))
  {
    forall c | Opens(Top(s), tag, c)
      ensures Step(s, StartElement(tag)).value.stack == s.stack + [c]
    {
      OpensPushes(s, tag, c);
    }
    StartTagPushes(s, tag);
  }

  /** The start tag of a child of the handler on top pushes that child. */
  lemma OpensPushes(s: Scanner, tag: string, c: Handler)
    requires |s.stack| > 0 && Opens(Top(s), tag, c)
    ensures Step(s, StartElement(tag)) == Ok(Push(s.(cdata := [], page := if c == Page then Some(NewPage) else s.page), c))
  {
  }

  /** A start tag either leaves the stack alone or pushes a child of the
      handler on top, whose tag it is. */
  lemma StartTagPushes(s: Scanner, tag: string)
    requires |s.stack| > 0
    ensures Step(s, StartElement(tag)).Ok?
    ensures var t := Step(s, StartElement(tag)).value;
      || t.stack == s.stack
      || (|t.stack| == |s.stack| + 1 && t.stack == s.stack + [t.stack[|s.stack|]]
          && Opens(Top(s), tag, t.stack[|s.stack|]))
  {
  }

  lemma EndTagStack(s: Scanner, tag: string)
    requires |s.stack| > 0 && Step(s, EndElement(tag)).Ok?
    ensures var t := Step(s, EndElement(tag)).value;
      t.stack == (if Tag(Top(s)) == Some(tag) then s.stack[..|s.stack| - 1] else s.stack)
  {
  }

  // ---------------------------------------------------------------------
  // Well-formed states

  /** The stack is a root-first path of the schema. */
  predicate WellFormed(st: seq<Handler>) {
    && |st| > 0
    && st[0] == Start
    && forall i :: 0 < i < |st| ==> Parent(st[i]) == Some(st[i - 1])
  }

  /** Every state the scanner reaches from `Fresh()`: the stack is a schema
      path and a `Page` exists exactly while a `page` element is open. */
  predicate Inv(s: Scanner) {
    WellFormed(s.stack) && (s.page.Some? <==> Page in s.stack)
  }

  /** Nesting depth of a handler in the schema, root at 1. */
  function Depth(h: Handler): nat {
    match h
    case Start => 1
    case Document => 2
    case Mediawiki => 3
    case Page => 4
    case Title | Ns | Revision => 5
    case Id | Contributor | Text => 6
  }

  /** On a well-formed stack each handler sits at the position of its depth. */
  lemma {:induction false} DepthIsPosition(st: seq<Handler>, i: nat)
    requires WellFormed(st) && i < |st|
    ensures Depth(st[i]) == i + 1
  {
    if i > 0 {
      DepthIsPosition(st, i - 1);
      assert Parent(st[i]) == Some(st[i - 1]);
    }
  }

  /** The stack never holds more handlers than the schema is deep, whatever
      the size of the document. */
  lemma StackBounded(s: Scanner)
    requires Inv(s)
    ensures |s.stack| <= 6
  {
    DepthIsPosition(s.stack, |s.stack| - 1);
  }

  /** On a well-formed stack, a page is open exactly when the stack is at
      least four deep. */
  lemma PageInStack(st: seq<Handler>)
    requires WellFormed(st)
    ensures Page in st <==> |st| >= 4
  {
    if Page in st {
      var i :| 0 <= i < |st| && st[i] == Page;
      DepthIsPosition(st, i);
    }
    if |st| >= 4 {
      DepthIsPosition(st, 3);
    }
  }

  lemma PopWellFormed(st: seq<Handler>)
    requires WellFormed(st) && |st| > 1
    ensures WellFormed(st[..|st| - 1])
  {
  }

  lemma PushWellFormed(st: seq<Handler>, c: Handler)
    requires WellFormed(st) && Parent(c) == Some(st[|st| - 1])
    ensures WellFormed(st + [c])
  {
  }

  /** `Fresh()` is well formed. */
  lemma FreshInv()
    ensures Inv(Fresh())
  {
  }

  /** Every step from a well-formed state that does not raise leads to a
      well-formed state. */
  lemma StepPreservesInv(s: Scanner, e: Event)
    requires Inv(s) && Step(s, e).Ok?
    ensures Inv(Step(s, e).value)
  {
    match e
    case StartElement(tag) => StartPreservesInv(s, tag);
    case EndElement(tag) => EndPreservesInv(s, tag);
    case StartDocument =>
      if Top(s) == Start {
        PageInStack(s.stack);
        PushWellFormed(s.stack, Document);
        PageInStack(s.stack + [Document]);
      }
    case _ =>
  }

  lemma StartPreservesInv(s: Scanner, tag: string)
    requires Inv(s) && Step(s, StartElement(tag)).Ok?
    ensures Inv(Step(s, StartElement(tag)).value)
  {
    var t := Step(s, StartElement(tag)).value;
    PageInStack(s.stack);
    DepthIsPosition(s.stack, |s.stack| - 1);
    StartTagPushes(s, tag);
    if t.stack != s.stack {
      PushWellFormed(s.stack, t.stack[|s.stack|]);
    }
    PageInStack(t.stack);
  }

  lemma EndPreservesInv(s: Scanner, tag: string)
    requires Inv(s) && Step(s, EndElement(tag)).Ok?
    ensures Inv(Step(s, EndElement(tag)).value)
  {
    var t := Step(s, EndElement(tag)).value;
    PageInStack(s.stack);
    DepthIsPosition(s.stack, |s.stack| - 1);
    EndTagStack(s, tag);
    if Tag(Top(s)) == Some(tag) {
      PopWellFormed(s.stack);
    }
    PageInStack(t.stack);
  }

  /** On a well-formed state the scanner never finds an empty stack and never
      reads a `Page` that does not exist: the only faults left are the ones a
      document with missing or malformed fields causes. */
  lemma NoStructuralFault(s: Scanner, e: Event)
    requires Inv(s)
    ensures Step(s, e) != Err(EmptyStack) && Step(s, e) != Err(NoPage)
  {
    PageInStack(s.stack);
    DepthIsPosition(s.stack, |s.stack| - 1);
  }

  // ---------------------------------------------------------------------
  // Runs

  /** Running two event lists in turn equals running their concatenation. */
  lemma {:induction false} RunAppend(s: Scanner, a: seq<Event>, b: seq<Event>)
    ensures Run(s, a + b) == (match Run(s, a) case Err(f) => Err(f) case Ok(t) => Run(t, b))
    decreases |a|
  {
    if |a| == 0 {
      assert a + b == b;
    } else {
      assert (a + b)[0] == a[0];
      assert (a + b)[1..] == a[1..] + b;
      match Step(s, a[0])
      case Err(_) =>
      case Ok(s1) => RunAppend(s1, a[1..], b);
    }
  }

  /** Every state a run reaches from a well-formed state is well formed. */
  lemma {:induction false} RunPreservesInv(s: Scanner, evs: seq<Event>)
    requires Inv(s) && Run(s, evs).Ok?
    ensures Inv(Run(s, evs).value)
    decreases |evs|
  {
    if |evs| > 0 {
      StepPreservesInv(s, evs[0]);
      RunPreservesInv(Step(s, evs[0]).value, evs[1..]);
    }
  }

  // ---------------------------------------------------------------------
  // The character accumulator

  /** Some event of `evs` is an element start. */
  predicate HasStart(evs: seq<Event>) {
    exists i :: 0 <= i < |evs| && evs[i].StartElement?
  }

  /** The character chunks that follow the last element start of `evs` (all
      of them if there is none), in order. */
  function CharsSinceStart(evs: seq<Event>): seq<string>
    decreases |evs|
  {
    if |evs| == 0 then []
    else
      match evs[|evs| - 1]
      case StartElement(_) => []
      case Characters(d) => CharsSinceStart(evs[..|evs| - 1]) + [d]
      case _ => CharsSinceStart(evs[..|evs| - 1])
  }

  /** A step changes the accumulator only by appending a character chunk or
      by clearing it on an element start. */
  lemma StepCdata(s: Scanner, e: Event)
    requires Step(s, e).Ok?
    ensures Step(s, e).value.cdata ==
      match e
      case Characters(d) => s.cdata + [d]
      case StartElement(_) => []
      case _ => s.cdata
  {
  }

  /** After any run, the accumulator holds exactly the character chunks seen
      since the most recent element start (preceded by what it held before,
      if no element started). */
  lemma {:induction false} CdataTracksChunks(s: Scanner, evs: seq<Event>)
    requires Run(s, evs).Ok?
    ensures Run(s, evs).value.cdata == (if HasStart(evs) then [] else s.cdata) + CharsSinceStart(evs)
    decreases |evs|
  {
    if |evs| > 0 {
      var pre := evs[..|evs| - 1];
      var e := evs[|evs| - 1];
      assert evs == pre + [e];
      RunAppend(s, pre, [e]);
      assert Run(s, pre).Ok?;
      var t := Run(s, pre).value;
      CdataTracksChunks(s, pre);
      StepCdata(t, e);
      HasStartSnoc(pre, e);
    }
  }

  lemma HasStartSnoc(pre: seq<Event>, e: Event)
    ensures HasStart(pre + [e]) <==> HasStart(pre) || e.StartElement?
  {
    var evs := pre + [e];
    if e.StartElement? {
      assert evs[|pre|] == e;
    }
    if HasStart(evs) && !e.StartElement? {
      var i :| 0 <= i < |evs| && evs[i].StartElement?;
      assert pre[i] == evs[i];
    }
    if HasStart(pre) {
      var i :| 0 <= i < |pre| && pre[i].StartElement?;
      assert evs[i] == pre[i];
    }
  }

  /** Character data is never dispatched to a handler: from any state, even
      one a handler could not accept, a run of character chunks only appends
      them to the accumulator. */
  lemma {:induction false} RunChars(s: Scanner, cs: seq<string>)
    ensures Run(s, Chars(cs)) == Ok(s.(cdata := s.cdata + cs))
    decreases |cs|
  {
    if |cs| == 0 {
      assert s.cdata + cs == s.cdata;
    } else {
      assert Chars(cs)[1..] == Chars(cs[1..]);
      RunChars(s.(cdata := s.cdata + [cs[0]]), cs[1..]);
      assert s.cdata + [cs[0]] + cs[1..] == s.cdata + cs;
    }
  }

  /** Character data just before an element start never leaks into what
      follows: the start clears the accumulator, so the run is the same as
      without it. */
  lemma CharsBeforeStartInvisible(s: Scanner, cs: seq<string>, tag: string, rest: seq<Event>)
    ensures Run(s, Chars(cs) + ([StartElement(tag)] + rest)) == Run(s, [StartElement(tag)] + rest)
  {
    RunAppend(s, Chars(cs), [StartElement(tag)] + rest);
    RunChars(s, cs);
    var s1 := s.(cdata := s.cdata + cs);
    assert ([StartElement(tag)] + rest)[0] == StartElement(tag);
    assert ([StartElement(tag)] + rest)[1..] == rest;
    assert s1.(cdata := []) == s.(cdata := []);
  }

  /** What the end tag of each leaf element stores: the concatenated
      accumulator, lower-cased for the text and through `int()` for the id. */
  lemma TitleCapture(t: Scanner)
    requires |t.stack| > 0 && Top(t) == Title && t.page.Some?
    ensures Step(t, EndElement("title")) == Ok(Pop(t.(page := Some(t.page.value.(title := Some(Join(t.cdata)))))))
  {
  }

  lemma NsCapture(t: Scanner)
    requires |t.stack| > 0 && Top(t) == Ns && t.page.Some?
    ensures Step(t, EndElement("ns")) == Ok(Pop(t.(page := Some(t.page.value.(ns := Some(Join(t.cdata)))))))
  {
  }

  lemma TextCapture(t: Scanner)
    requires |t.stack| > 0 && Top(t) == Text
    ensures Step(t, EndElement("text")) == Ok(Pop(t.(content := Some(Lower(Join(t.cdata))))))
  {
  }

  lemma IdCapture(t: Scanner)
    requires |t.stack| > 0 && Top(t) == Id
    ensures var r := IntParse.ParseInt(Join(t.cdata));
      Step(t, EndElement("id")) == if r.None? then Err(BadRevisionId(Join(t.cdata))) else Ok(Pop(t.(revisionId := r)))
  {
  }

  /** A captured field equals the concatenation of the character chunks since
      the most recent element start: the title and namespace as they are, the
      text lower-cased, the revision id through `int()`. */
  lemma LeafCapture(s: Scanner, evs: seq<Event>)
    requires Run(s, evs).Ok? && HasStart(evs)
    requires |Run(s, evs).value.stack| > 0
    ensures var t := Run(s, evs).value;
      var text := Join(CharsSinceStart(evs));
      && (Top(t) == Title && t.page.Some? ==>
            Step(t, EndElement("title")) == Ok(Pop(t.(page := Some(t.page.value.(title := Some(text)))))))
      && (Top(t) == Ns && t.page.Some? ==>
            Step(t, EndElement("ns")) == Ok(Pop(t.(page := Some(t.page.value.(ns := Some(text)))))))
      && (Top(t) == Text ==>
            Step(t, EndElement("text")) == Ok(Pop(t.(content := Some(Lower(text))))))
      && (Top(t) == Id ==>
            Step(t, EndElement("id")) ==
              if IntParse.ParseInt(text).None? then Err(BadRevisionId(text))
              else Ok(Pop(t.(revisionId := IntParse.ParseInt(text)))))
  {
    CdataTracksChunks(s, evs);
    var t := Run(s, evs).value;
    assert t.cdata == CharsSinceStart(evs);
    if Top(t) == Title && t.page.Some? { TitleCapture(t); }
    if Top(t) == Ns && t.page.Some? { NsCapture(t); }
    if Top(t) == Text { TextCapture(t); }
    if Top(t) == Id { IdCapture(t); }
  }

  // ---------------------------------------------------------------------
  // Persistent revision fields

  /** `revision_id` changes only when an `id` element closes directly inside a
      `revision`: an `id` under `page` or inside `contributor` never sets it. */
  lemma RevisionIdOnlyFromRevision(s: Scanner, e: Event)
    requires Inv(s) && Step(s, e).Ok?
    requires Step(s, e).value.revisionId != s.revisionId
    ensures Top(s) == Id && e == EndElement("id")
    ensures |s.stack| >= 2 && s.stack[|s.stack| - 2] == Revision
  {
    assert Parent(s.stack[|s.stack| - 1]) == Some(s.stack[|s.stack| - 2]);
  }

  /** `content` changes only when a `text` element closes directly inside a
      `revision`. */
  lemma ContentOnlyFromText(s: Scanner, e: Event)
    requires Inv(s) && Step(s, e).Ok?
    requires Step(s, e).value.content != s.content
    ensures Top(s) == Text && e == EndElement("text")
    ensures |s.stack| >= 2 && s.stack[|s.stack| - 2] == Revision
  {
    assert Parent(s.stack[|s.stack| - 1]) == Some(s.stack[|s.stack| - 2]);
  }

  // ---------------------------------------------------------------------
  // Pages and counters

  /** `page_count` goes up by exactly one on every page close, whatever its
      namespace or outcome, and on no other event. The close clears the page
      and pops the `page` handler. */
  lemma PageCount(s: Scanner, e: Event)
    requires |s.stack| > 0 && Step(s, e).Ok?
    ensures var t := Step(s, e).value;
      var close := Top(s) == Page && e == EndElement("page");
      && t.counters.pages == s.counters.pages + (if close then 1 else 0)
      && (close ==> t.page.None? && t.stack == s.stack[..|s.stack| - 1])
  {
  }

  /** Closing a page: a non-article leaves the article count, the found count
      and the findings alone; an article is counted once; the title is
      reported, once, exactly when the page is a finding. */
  lemma PageClose(s: Scanner)
    requires |s.stack| > 0 && Top(s) == Page && Step(s, EndElement("page")).Ok?
    ensures s.page.Some?
    ensures var t := Step(s, EndElement("page")).value;
      var p := s.page.value;
      && (p.ns != Some(ArticleNamespace) ==>
            t.counters.articles == s.counters.articles && t.counters.found == s.counters.found
            && t.findings == s.findings)
      && (p.ns == Some(ArticleNamespace) ==> t.counters.articles == s.counters.articles + 1)
      && (IsFinding(p) ==> t.counters.found == s.counters.found + 1 && p.title.Some?
                           && t.findings == s.findings + [p.title.value])
      && (!IsFinding(p) ==> t.counters.found == s.counters.found && t.findings == s.findings)
  {
  }

  /** A redirect revision is never recorded and never counted, even when it
      mentions the category. */
  lemma RedirectIgnored(s: Scanner)
    requires |s.stack| > 0 && Top(s) == Revision
    requires s.content.Some? && IsSubstring(RedirectMarker, s.content.value)
    ensures Step(s, EndElement("revision")) == Ok(Pop(s))
  {
  }

  /** What one step does to the counters and the output: no counter goes
      down, `file_count` is untouched, findings are only appended, each
      appended title comes with one increment of `found`, and the path of the
      stream being scanned is kept. */
  predicate Grows(s: Scanner, t: Scanner) {
    && t.path == s.path
    && NoDecrease(s.counters, t.counters)
    && t.counters.files == s.counters.files
    && s.findings <= t.findings
    && t.counters.found - s.counters.found == |t.findings| - |s.findings|
  }

  lemma StepGrows(s: Scanner, e: Event)
    requires Step(s, e).Ok?
    ensures Grows(s, Step(s, e).value)
  {
    match e
    case EndElement(tag) => EndGrows(s, tag);
    case StartElement(tag) => StartGrows(s, tag);
    case _ =>
  }

  lemma StartGrows(s: Scanner, tag: string)
    requires Step(s, StartElement(tag)).Ok?
    ensures Grows(s, Step(s, StartElement(tag)).value)
  {
  }

  lemma EndGrows(s: Scanner, tag: string)
    requires Step(s, EndElement(tag)).Ok?
    ensures Grows(s, Step(s, EndElement(tag)).value)
  {
    if Top(s) == Page && tag == "page" {
      DoPageGrows(s);
    } else if Top(s) == Revision && tag == "revision" {
      DoRevisionGrows(s);
    }
  }

  lemma DoPageGrows(s: Scanner)
    requires DoPage(s).Ok?
    ensures Grows(s, DoPage(s).value)
  {
  }

  lemma DoRevisionGrows(s: Scanner)
    requires DoRevision(s).Ok?
    ensures Grows(s, DoRevision(s).value)
    ensures var t := DoRevision(s).value;
      t.findings == s.findings && t.diagnostics == s.diagnostics
      && t.counters.found == s.counters.found && t.counters.pages == s.counters.pages
  {
  }

  /** Counters are monotone over any run, and `found` counts exactly the
      titles the run reported. */
  lemma {:induction false} RunGrows(s: Scanner, evs: seq<Event>)
    requires Run(s, evs).Ok?
    ensures Grows(s, Run(s, evs).value)
    decreases |evs|
  {
    if |evs| > 0 {
      var s1 := Step(s, evs[0]).value;
      StepGrows(s, evs[0]);
      RunGrows(s1, evs[1..]);
    }
  }

  /** `process_stream` counts exactly one file and otherwise only grows the
      counters and the findings. */
  lemma ProcessStreamCountsFile(s: Scanner, path: string, evs: seq<Event>)
    requires ProcessStream(s, path, evs).Ok?
    ensures var t := ProcessStream(s, path, evs).value;
      && t.counters.files == s.counters.files + 1
      && NoDecrease(s.counters, t.counters)
      && s.findings <= t.findings
      && t.counters.found - s.counters.found == |t.findings| - |s.findings|
      && t.path == Some(path)
  {
    RunGrows(s.(path := Some(path), cdata := []), evs);
  }

  /** Processing `n` streams counts `n` files. */
  lemma {:induction false} ProcessStreamsCountsFiles(s: Scanner, files: seq<(string, seq<Event>)>)
    requires ProcessStreams(s, files).Ok?
    ensures var t := ProcessStreams(s, files).value;
      && t.counters.files == s.counters.files + |files|
      && NoDecrease(s.counters, t.counters)
      && s.findings <= t.findings
    decreases |files|
  {
    if |files| > 0 {
      ProcessStreamCountsFile(s, files[0].0, files[0].1);
      ProcessStreamsCountsFiles(ProcessStream(s, files[0].0, files[0].1).value, files[1..]);
    }
  }
}
