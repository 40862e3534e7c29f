/** The element API's documented behaviour, stated as concrete rewrites:
    each scenario gives the tokens of an input document, a handler, and
    what the rewriter produces.

    A scenario's tokens are written as a chain of suffixes (`KeepTokens`,
    `KeepTail1`, ...), its states between tokens as constants (`Keep1`,
    ...), each state's output as the previous one's plus what the token
    adds.  For token `i`, `KeepStep<i>` says what the rewriter's step does
    to the state before it; where a handler runs or an element closes,
    `KeepNext<i>` says that this is the next constant state.  `KeepMove<i>`
    moves the rewrite one token on, and the scenario lemma strings the moves
    together. */
module ElementScenarios {
  import opened Base
  import opened HtmlText
  import opened ElementApi
  import opened Rewrite

  // ---------------------------------------------------------------------
  // Facts the steps share

  /** The element names of the scenarios, and the one void element among them. */
  lemma ScenarioNames()
    ensures !IsVoidElement("div") && !IsVoidElement("span") && !IsVoidElement("h1") && !IsVoidElement("h2")
    ensures !IsVoidElement("script") && !IsVoidElement("svg")
    ensures IsVoidElement("br")
  {
  }

  /** What the selector `div` matches among the scenarios' names. */
  lemma DivSelector()
    ensures Matches(LocalName("div"), "div")
    ensures !Matches(LocalName("div"), "span") && !Matches(LocalName("div"), "h1") && !Matches(LocalName("div"), "h2")
  {
  }

  /** What the selectors `h1` and `h2` match among the scenarios' names. */
  lemma HeadingSelectors()
    ensures Matches(LocalName("h1"), "h1")
    ensures !Matches(LocalName("h1"), "div") && !Matches(LocalName("h1"), "span") && !Matches(LocalName("h1"), "h2")
    ensures Matches(LocalName("h2"), "h2")
    ensures !Matches(LocalName("h2"), "div") && !Matches(LocalName("h2"), "span") && !Matches(LocalName("h2"), "h1")
  {
    LowercaseChars("h1"); LowercaseChars("h2"); LowercaseChars("div"); LowercaseChars("span");
  }

  lemma ScriptSelector()
    ensures Matches(LocalName("script"), "script") && !Matches(LocalName("script"), "svg")
  {
  }

  /** The text-mode rendering of text around one `&`. */
  lemma EscapeAroundAmpersand(a: string, b: string)
    ensures EscapeText(a + "&" + b) == EscapeText(a) + "&amp;" + EscapeText(b)
  {
    EscapeAppend(a + "&", b);
    EscapeAppend(a, "&");
  }

  /** Escaping text that starts with `&`. */
  lemma EscapeLeadingAmpersand(b: string)
    ensures EscapeText("&" + b) == "&amp;" + EscapeText(b)
  {
    EscapeAppend("&", b);
  }

  /** A start tag the selector does not match: its element is opened with
      an untouched handle and its source text is copied. */
  lemma UnmatchedStartTag(s: State, h: Handler, name: string, attributes: seq<Attribute>, selfClosing: bool, raw: string)
    requires !Matches(h.selector, name)
    ensures var ns := ElementNamespace(ParentNamespace(s.stack), name);
            var given := NewElement(name, ns, attributes, selfClosing, raw);
            OnStartTag(s, h, name, attributes, selfClosing, raw)
            == s.(stack := if given.canHaveContent then s.stack + [Frame(name, given, ContentNamespace(ns, name, attributes), InsideSuppressed(s.stack))] else s.stack,
                  out := s.out + (if InsideSuppressed(s.stack) then "" else raw))
  {
    UntouchedIsVerbatimHere(NewElement(name, ElementNamespace(ParentNamespace(s.stack), name), attributes, selfClosing, raw), "");
  }

  /** The state after a start tag the handler ran on: `given` is the handle
      it received, `run` what it left. */
  function AfterHandler(s: State, name: string, given: Element, run: HandlerRun): State
  {
    var suppressed := InsideSuppressed(s.stack);
    State(if given.canHaveContent then s.stack + [Frame(name, run.element, ContentNamespace(given.ns, name, given.attributes), suppressed)] else s.stack,
          s.invocations + 1, s.seen + [given], s.runs + [run],
          s.out + (if suppressed then "" else StartOutput(run.element)))
  }

  /** A start tag the selector matches, with what the handler's run leaves. */
  lemma MatchedStartTag(s: State, h: Handler, name: string, attributes: seq<Attribute>, selfClosing: bool, raw: string, given: Element, run: HandlerRun)
    requires Matches(h.selector, name)
    requires given == NewElement(name, ElementNamespace(ParentNamespace(s.stack), name), attributes, selfClosing, raw)
    requires RunHandler(given, h.script(s.invocations)) == run
    ensures OnStartTag(s, h, name, attributes, selfClosing, raw) == AfterHandler(s, name, given, run)
  {
  }

  /** The state after an end tag closes the open element at `i`: the
      element and everything opened after it are closed, and the element's
      end renders unless it sits inside removed content. */
  function ClosedAt(s: State, i: nat, raw: string): State
    requires i < |s.stack|
  {
    var f := s.stack[i];
    var t := RunEndTagHandlers(EndTagFor(f.element, raw), f.element.endTagHandlers);
    s.(stack := s.stack[..i], out := s.out + (if f.suppressed then "" else EndOutput(f.element, t)))
  }

  /** An end tag closes the innermost element opened under its name. */
  lemma CloseAt(s: State, name: string, raw: string, i: nat)
    requires FindOpen(s.stack, name) == i
    ensures i < |s.stack| && OnEndTag(s, name, raw) == ClosedAt(s, i, raw)
  {
  }

  const PlainDiv := Frame("div", NewElement("div", HtmlNamespace, [], false, "<div>"), HtmlNamespace, false)
  const PlainSpan := Frame("span", NewElement("span", HtmlNamespace, [], false, "<span>"), HtmlNamespace, false)
  const PlainH1 := Frame("h1", NewElement("h1", HtmlNamespace, [], false, "<h1>"), HtmlNamespace, false)
  const PlainH2 := Frame("h2", NewElement("h2", HtmlNamespace, [], false, "<h2>"), HtmlNamespace, false)
  const SuppressedSpan := Frame("span", NewElement("span", HtmlNamespace, [], false, "<span>"), HtmlNamespace, true)

  /** A re-serialised start tag with one plain attribute. */
  lemma StartTagOneAttribute(e: Element, a: Attribute)
    requires e.startTagModified && e.attributes == [a] && !e.selfClosing && a.raw == None
    ensures StartTagText(e) == "<" + e.name + " " + a.name + "=\"" + a.value + "\"" + ">"
  {
    assert [a][1..] == [];
    assert AttributesText([a]) == " " + AttributeText(a) + AttributesText([]);
  }

  /** A kept, renamed end tag with one chunk queued on each side of it. */
  lemma EndOutputAroundRenamed(e: Element, t: EndTag)
    requires InteriorKept(e) && !e.tagsRemoved && !t.removed && t.modified
    requires e.append == [] && e.after == [] && |t.before| == 1 && |t.after| == 1
    ensures EndOutput(e, t) == t.before[0] + "</" + t.name + ">" + t.after[0]
  {
    assert Concat(e.append) == [] && Concat(e.after) == [];
  }

  /** The source text of a token followed by more tokens. */
  lemma SourceCons(t: Token, rest: seq<Token>)
    ensures Source([t] + rest) == t.raw + Source(rest)
  {
    assert ([t] + rest)[1..] == rest;
  }

  // ---------------------------------------------------------------------
  // Renaming: handler on `*`, input `Hi <div>`

  const RenameTail2: seq<Token> := []
  const RenameTail1 := [StartTagToken("div", [], false, "<div>")] + RenameTail2
  const RenameTokens := [TextToken("Hi ")] + RenameTail1

  /** Tries the empty name, then renames to `span`. */
  function RenameScript(k: nat): seq<ElementCommand>
  {
    [TagNameSet(""), TagNameSet("span")]
  }

  const RenameHandler := Handler(AnyElement, RenameScript)
  const RenameGiven := NewElement("div", HtmlNamespace, [], false, "<div>")
  const Renamed := RenameGiven.(name := "span", renamed := true, startTagModified := true)
  const RenameRun := HandlerRun(Renamed, [EmptyTagName])

  lemma RenameRuns()
    ensures RunHandler(RenameGiven, RenameScript(0)) == RenameRun
  {
    var cmds := RenameScript(0);
    RunHandlerFails(RenameGiven, cmds, 0, EmptyTagName);
    RunHandlerSucceeds(RenameGiven, cmds, 1, Renamed);
    assert cmds[0..] == cmds && cmds[2..] == [];
  }

  const Rename1 := State([], 0, [], [], "Hi ")
  const Rename2 := State([Frame("div", Renamed, HtmlNamespace, false)], 1, [RenameGiven], [RenameRun], Rename1.out + "<span>")

  lemma RenameStep0()
    ensures OnText(Initial, "Hi ") == Rename1
  {
  }

  lemma RenameStep1()
    ensures OnStartTag(Rename1, RenameHandler, "div", [], false, "<div>") == AfterHandler(Rename1, "div", RenameGiven, RenameRun)
  {
    ScenarioNames();
    RenameRuns();
    MatchedStartTag(Rename1, RenameHandler, "div", [], false, "<div>", RenameGiven, RenameRun);
  }

  lemma RenameNext1()
    ensures AfterHandler(Rename1, "div", RenameGiven, RenameRun) == Rename2
  {
    ScenarioNames();
    StartOutputIsStartTag(Renamed);
    assert StartOutput(Renamed) == "<span>";
  }

  lemma RenameMove0()
    ensures RewriteFrom(Initial, RenameHandler, RenameTokens) == RewriteFrom(Rename1, RenameHandler, RenameTail1)
  {
    RewriteText(Initial, RenameHandler, "Hi ", RenameTail1);
    RenameStep0();
  }

  lemma RenameMove1()
    ensures RewriteFrom(Rename1, RenameHandler, RenameTail1) == Rename2
  {
    RewriteStartTag(Rename1, RenameHandler, "div", [], false, "<div>", RenameTail2);
    RenameStep1();
    RenameNext1();
  }

  /** The tokens are those of the input `Hi <div>`. */
  lemma RenameSource()
    ensures Source(RenameTokens) == "Hi " + "<div>"
  {
    SourceCons(TextToken("Hi "), RenameTail1);
    SourceCons(StartTagToken("div", [], false, "<div>"), RenameTail2);
    AppendAssociates("Hi ", "<div>", Source(RenameTail2));
    assert Source(RenameTail2) == [];
  }

  /** The getter sees `div`; the empty name is refused with its message and
      leaves the handle as it was; `Hi <div>` becomes `Hi <span>`. */
  lemma RenameScenario()
    ensures Source(RenameTokens) == "Hi " + "<div>"
    ensures var r := RewriteDocument(RenameHandler, RenameTokens);
            |r.seen| == 1 && TagName(r.seen[0]) == "div"
            && |r.runs| == 1 && r.runs[0].errors == [EmptyTagName]
            && Message(r.runs[0].errors[0]) == "Tag name can't be empty."
            && r.out == "Hi " + "<span>"
  {
    RenameMove0(); RenameMove1();
    RenameSource();
  }

  // ---------------------------------------------------------------------
  // Attributes: handler on `*`, input `<span foo=42>`

  const AttributesTail1: seq<Token> := []
  const AttributesTokens := [StartTagToken("span", [Foo], false, "<span foo=42>")] + AttributesTail1

  const Foo := Attribute("foo", "42", Some("foo=42"))
  const Bar := Attribute("bar", "hey", None)

  /** Sets `Bar`, then removes `foo`. */
  function AttributesScript(k: nat): seq<ElementCommand>
  {
    [AttributeSet("Bar", "hey"), AttributeRemove("foo")]
  }

  const AttributesHandler := Handler(AnyElement, AttributesScript)
  const AttributesGiven := NewElement("span", HtmlNamespace, [Foo], false, "<span foo=42>")
  const AttributesEdited := AttributesGiven.(attributes := [Bar], startTagModified := true)
  const AttributesRun := HandlerRun(AttributesEdited, [])

  lemma FooIsNotBar()
    ensures ToAsciiLowercase("Bar") == "bar"
    ensures !EqualsIgnoreAsciiCase("foo", "Bar")
    ensures EqualsIgnoreAsciiCase("foo", "foo")
  {
    LowercaseChars("Bar");
    LowercaseChars("foo");
  }

  /** What the getters report on the handle as the handler receives it. */
  lemma AttributesGetters()
    ensures HasAttribute(AttributesGiven, "foo") && !HasAttribute(AttributesGiven, "Bar")
    ensures GetAttribute(AttributesGiven, "foo") == Some("42") && GetAttribute(AttributesGiven, "Bar") == None
  {
    FooIsNotBar();
    assert [Foo][1..] == [];
  }

  /** `set_attribute("Bar", "hey")` appends `bar`. */
  lemma SetBar()
    ensures ApplyCommand(AttributesGiven, AttributeSet("Bar", "hey"))
            == Success(AttributesGiven.(attributes := [Foo, Bar], startTagModified := true))
  {
    FooIsNotBar();
    assert FindAttribute([Foo], "Bar") == 1 by {
      assert [Foo][1..] == [];
    }
    assert [Foo] + [Attribute(ToAsciiLowercase("Bar"), "hey", None)] == [Foo, Bar];
  }

  /** `remove_attribute("foo")` then leaves only `bar`. */
  lemma RemoveFoo()
    ensures ApplyCommand(AttributesGiven.(attributes := [Foo, Bar], startTagModified := true), AttributeRemove("foo"))
            == Success(AttributesEdited)
  {
    FooIsNotBar();
    var attributes := [Foo, Bar];
    assert FindAttribute(attributes, "foo") == 0;
    assert attributes[..0] + attributes[1..] == [Bar];
  }

  lemma AttributesRuns()
    ensures RunHandler(AttributesGiven, AttributesScript(0)) == AttributesRun
  {
    var cmds := AttributesScript(0);
    var e1 := AttributesGiven.(attributes := [Foo, Bar], startTagModified := true);
    SetBar();
    RemoveFoo();
    RunHandlerSucceeds(AttributesGiven, cmds, 0, e1);
    RunHandlerSucceeds(e1, cmds, 1, AttributesEdited);
    assert cmds[0..] == cmds && cmds[2..] == [];
  }

  /** The re-serialised start tag, spelled out. */
  lemma SpanBarHeyText()
    ensures "<" + "span" + " " + "bar" + "=\"" + "hey" + "\"" + ">" == "<span bar=\"hey\">"
  {
  }

  lemma EditedSpanOutput()
    ensures StartOutput(AttributesEdited) == "<span bar=\"hey\">"
  {
    var e := AttributesEdited;
    assert e.before == [] && !e.tagsRemoved && e.prepend == [] && e.canHaveContent;
    assert e.startTagModified && e.name == "span" && e.attributes == [Bar] && !e.selfClosing;
    StartOutputIsStartTag(e);
    StartTagOneAttribute(e, Bar);
    SpanBarHeyText();
  }

  const Attributes1 := State([Frame("span", AttributesEdited, HtmlNamespace, false)], 1, [AttributesGiven], [AttributesRun],
          "<span bar=\"hey\">")

  lemma AttributesStep0()
    ensures OnStartTag(Initial, AttributesHandler, "span", [Foo], false, "<span foo=42>") == AfterHandler(Initial, "span", AttributesGiven, AttributesRun)
  {
    ScenarioNames();
    AttributesRuns();
    MatchedStartTag(Initial, AttributesHandler, "span", [Foo], false, "<span foo=42>", AttributesGiven, AttributesRun);
  }

  lemma AttributesNext0()
    ensures AfterHandler(Initial, "span", AttributesGiven, AttributesRun) == Attributes1
  {
    ScenarioNames();
    EditedSpanOutput();
  }

  lemma AttributesMove0()
    ensures RewriteFrom(Initial, AttributesHandler, AttributesTokens) == Attributes1
  {
    RewriteStartTag(Initial, AttributesHandler, "span", [Foo], false, "<span foo=42>", AttributesTail1);
    AttributesStep0();
    AttributesNext0();
  }

  /** `foo` is present with value `42`; `Bar` is absent and reads as no
      value at all; setting `Bar` and removing `foo` gives `<span bar="hey">`. */
  lemma AttributesScenario()
    ensures Source(AttributesTokens) == "<span foo=42>"
    ensures var r := RewriteDocument(AttributesHandler, AttributesTokens);
            |r.seen| == 1
            && HasAttribute(r.seen[0], "foo") && !HasAttribute(r.seen[0], "Bar")
            && GetAttribute(r.seen[0], "foo") == Some("42") && GetAttribute(r.seen[0], "Bar") == None
            && |r.runs| == 1 && r.runs[0].errors == []
            && r.out == "<span bar=\"hey\">"
  {
    AttributesMove0();
    AttributesGetters();
    SourceCons(StartTagToken("span", [Foo], false, "<span foo=42>"), AttributesTail1);
  }

  // ---------------------------------------------------------------------
  // Attribute iteration: handler on `*`, input `<div foo=42 bar='1337'>`

  const IterateTail1: seq<Token> := []
  const IterateTokens := [StartTagToken("div", IterateAttributes, false, "<div foo=42 bar='1337'>")] + IterateTail1

  const IterateAttributes := [Attribute("foo", "42", Some("foo=42")), Attribute("bar", "1337", Some("bar='1337'"))]

  /** A handler that only reads. */
  function ReadOnlyScript(k: nat): seq<ElementCommand>
  {
    []
  }

  const IterateHandler := Handler(AnyElement, ReadOnlyScript)
  const IterateGiven := NewElement("div", HtmlNamespace, IterateAttributes, false, "<div foo=42 bar='1337'>")
  const IterateRun := HandlerRun(IterateGiven, [])

  const Iterate1 := State([Frame("div", IterateGiven, HtmlNamespace, false)], 1, [IterateGiven], [HandlerRun(IterateGiven, [])],
          "<div foo=42 bar='1337'>")

  lemma IterateStep0()
    ensures OnStartTag(Initial, IterateHandler, "div", IterateAttributes, false, "<div foo=42 bar='1337'>") == AfterHandler(Initial, "div", IterateGiven, IterateRun)
  {
    ScenarioNames();
    assert RunHandler(IterateGiven, ReadOnlyScript(0)) == HandlerRun(IterateGiven, []);
    MatchedStartTag(Initial, IterateHandler, "div", IterateAttributes, false, "<div foo=42 bar='1337'>", IterateGiven, IterateRun);
  }

  lemma IterateNext0()
    ensures AfterHandler(Initial, "div", IterateGiven, IterateRun) == Iterate1
  {
    ScenarioNames();
    UntouchedIsVerbatimHere(IterateGiven, "");
  }

  lemma IterateMove0()
    ensures RewriteFrom(Initial, IterateHandler, IterateTokens) == Iterate1
  {
    RewriteStartTag(Initial, IterateHandler, "div", IterateAttributes, false, "<div foo=42 bar='1337'>", IterateTail1);
    IterateStep0();
    IterateNext0();
  }

  /** Iteration yields `(foo, 42)` then `(bar, 1337)`, whatever quotes the
      source used, and a handler that only reads leaves the document as it was. */
  lemma IterateAttributesScenario()
    ensures var r := RewriteDocument(IterateHandler, IterateTokens);
            |r.seen| == 1 && AttributePairs(r.seen[0].attributes) == [("foo", "42"), ("bar", "1337")]
            && r.out == Source(IterateTokens) == "<div foo=42 bar='1337'>"
  {
    IterateMove0();
    SourceCons(StartTagToken("div", IterateAttributes, false, "<div foo=42 bar='1337'>"), IterateTail1);
    assert IterateAttributes[1..][1..] == [];
  }

  // ---------------------------------------------------------------------
  // Insertion around an element: handler on `*`, input `<div>Hi</div>`

  const InsertTail3: seq<Token> := []
  const InsertTail2 := [EndTagToken("div", "</div>")] + InsertTail3
  const InsertTail1 := [TextToken("Hi")] + InsertTail2
  const InsertTokens := [StartTagToken("div", [], false, "<div>")] + InsertTail1

  function InsertScript(k: nat): seq<ElementCommand>
  {
    [InsertBefore("&before", Text), InsertPrepend("<!--prepend-->", Html),
     InsertAppend("<!--append-->", Html), InsertAfter("&after", Text)]
  }

  const InsertHandler := Handler(AnyElement, InsertScript)
  const InsertGiven := NewElement("div", HtmlNamespace, [], false, "<div>")
  const Inserted := InsertGiven.(before := ["&amp;before"], prepend := ["<!--prepend-->"],
                                 append := ["<!--append-->"], after := ["&amp;after"])
  const InsertRun := HandlerRun(Inserted, [])
  const InsertedDiv := Frame("div", Inserted, HtmlNamespace, false)

  /** The two text-mode insertions, escaped. */
  lemma BeforeText()
    ensures RenderContent("&before", Text) == "&amp;before"
  {
    BeforeSplit();
    EscapeLeadingAmpersand("before");
    EscapePlainText("before");
    BeforeJoined();
  }

  lemma AfterText()
    ensures RenderContent("&after", Text) == "&amp;after"
  {
    AfterSplit();
    EscapeLeadingAmpersand("after");
    EscapePlainText("after");
    AfterJoined();
  }

  lemma BeforeSplit()
    ensures "&before" == "&" + "before"
  {
  }

  lemma BeforeJoined()
    ensures "&amp;" + "before" == "&amp;before"
  {
  }

  lemma AfterSplit()
    ensures "&after" == "&" + "after"
  {
  }

  lemma AfterJoined()
    ensures "&amp;" + "after" == "&amp;after"
  {
  }

  /** The handle after each of the handler's four edits. */
  const InsertEdit1 := InsertGiven.(before := ["&amp;before"])
  const InsertEdit2 := InsertEdit1.(prepend := ["<!--prepend-->"])
  const InsertEdit3 := InsertEdit2.(append := ["<!--append-->"])

  lemma InsertBeforeEdit()
    ensures ApplyCommand(InsertGiven, InsertBefore("&before", Text)) == Success(InsertEdit1)
  {
    BeforeText();
    assert [] + ["&amp;before"] == ["&amp;before"];
  }

  lemma InsertEdits()
    ensures ApplyCommand(InsertEdit1, InsertPrepend("<!--prepend-->", Html)) == Success(InsertEdit2)
    ensures ApplyCommand(InsertEdit2, InsertAppend("<!--append-->", Html)) == Success(InsertEdit3)
  {
    assert [] + ["<!--prepend-->"] == ["<!--prepend-->"];
    assert [] + ["<!--append-->"] == ["<!--append-->"];
  }

  lemma InsertAfterEdit()
    ensures ApplyCommand(InsertEdit3, InsertAfter("&after", Text)) == Success(Inserted)
  {
    AfterText();
    assert [] + ["&amp;after"] == ["&amp;after"];
  }

  lemma InsertRuns()
    ensures RunHandler(InsertGiven, InsertScript(0)) == InsertRun
  {
    var cmds := InsertScript(0);
    InsertBeforeEdit();
    InsertEdits();
    InsertAfterEdit();
    RunHandlerSucceeds(InsertGiven, cmds, 0, InsertEdit1);
    RunHandlerSucceeds(InsertEdit1, cmds, 1, InsertEdit2);
    RunHandlerSucceeds(InsertEdit2, cmds, 2, InsertEdit3);
    RunHandlerSucceeds(InsertEdit3, cmds, 3, Inserted);
    assert cmds[0..] == cmds && cmds[4..] == [];
  }

  /** What the edited `div` renders at its start tag ... */
  lemma InsertedStart()
    ensures StartOutput(Inserted) == "&amp;before<div><!--prepend-->"
  {
    ScenarioNames();
    var e := Inserted;
    assert e.canHaveContent && InteriorKept(e) && !e.tagsRemoved && !e.startTagModified && e.raw == "<div>";
    assert Concat(e.before) == "&amp;before" && Concat(e.prepend) == "<!--prepend-->";
    assert StartOutput(e) == "&amp;before" + "<div>" + "<!--prepend-->";
  }

  /** ... and at its end tag. */
  lemma InsertedEnd()
    ensures EndOutput(Inserted, RunEndTagHandlers(EndTagFor(Inserted, "</div>"), Inserted.endTagHandlers))
            == "<!--append--></div>&amp;after"
  {
    var e := Inserted;
    assert InteriorKept(e) && !e.tagsRemoved;
    assert Concat(e.append) == "<!--append-->" && Concat(e.after) == "&amp;after";
    var t := EndTagFor(e, "</div>");
    assert RunEndTagHandlers(t, []) == t;
    assert Concat(t.before) == "" && Concat(t.after) == "" && EndTagText(t) == "</div>";
    assert EndOutput(e, t) == "<!--append-->" + "" + "</div>" + "&amp;after" + "";
  }

  const Insert1 := State([InsertedDiv], 1, [InsertGiven], [InsertRun], "&amp;before<div><!--prepend-->")
  const Insert2 := State([InsertedDiv], 1, [InsertGiven], [InsertRun], Insert1.out + "Hi")
  const Insert3 := State([], 1, [InsertGiven], [InsertRun], Insert2.out + "<!--append--></div>&amp;after")

  lemma InsertStep0()
    ensures OnStartTag(Initial, InsertHandler, "div", [], false, "<div>") == AfterHandler(Initial, "div", InsertGiven, InsertRun)
  {
    ScenarioNames();
    InsertRuns();
    MatchedStartTag(Initial, InsertHandler, "div", [], false, "<div>", InsertGiven, InsertRun);
  }

  lemma InsertNext0()
    ensures AfterHandler(Initial, "div", InsertGiven, InsertRun) == Insert1
  {
    ScenarioNames();
    InsertedStart();
  }

  lemma InsertStep1()
    ensures OnText(Insert1, "Hi") == Insert2
  {
  }

  lemma InsertStep2()
    ensures OnEndTag(Insert2, "div", "</div>") == ClosedAt(Insert2, 0, "</div>")
  {
    CloseAt(Insert2, "div", "</div>", 0);
  }

  lemma InsertNext2()
    ensures ClosedAt(Insert2, 0, "</div>") == Insert3
  {
    assert Insert2.stack[..0] == [];
    InsertedEnd();
  }

  lemma InsertMove0()
    ensures RewriteFrom(Initial, InsertHandler, InsertTokens) == RewriteFrom(Insert1, InsertHandler, InsertTail1)
  {
    RewriteStartTag(Initial, InsertHandler, "div", [], false, "<div>", InsertTail1);
    InsertStep0();
    InsertNext0();
  }

  lemma InsertMove1()
    ensures RewriteFrom(Insert1, InsertHandler, InsertTail1) == RewriteFrom(Insert2, InsertHandler, InsertTail2)
  {
    RewriteText(Insert1, InsertHandler, "Hi", InsertTail2);
    InsertStep1();
  }

  lemma InsertMove2()
    ensures RewriteFrom(Insert2, InsertHandler, InsertTail2) == Insert3
  {
    RewriteEndTag(Insert2, InsertHandler, "div", "</div>", InsertTail3);
    InsertStep2();
    InsertNext2();
  }

  /** The tokens are those of the input `<div>Hi</div>`. */
  lemma InsertSource()
    ensures Source(InsertTokens) == "<div>" + "Hi" + "</div>"
  {
    SourceCons(StartTagToken("div", [], false, "<div>"), InsertTail1);
    SourceCons(TextToken("Hi"), InsertTail2);
    AppendAssociates("<div>", "Hi", Source(InsertTail2));
    SourceCons(EndTagToken("div", "</div>"), InsertTail3);
    AppendAssociates("<div>" + "Hi", "</div>", Source(InsertTail3));
    assert Source(InsertTail3) == [];
  }

  /** `before` goes ahead of the start tag, `prepend` after it, `append`
      ahead of the end tag and `after` behind it; text is escaped, HTML is
      copied as given. */
  lemma InsertAroundScenario()
    ensures Source(InsertTokens) == "<div>" + "Hi" + "</div>"
    ensures var r := RewriteDocument(InsertHandler, InsertTokens);
            |r.runs| == 1 && r.runs[0].errors == []
            && r.out == "&amp;before<div><!--prepend-->" + "Hi" + "<!--append--></div>&amp;after"
  {
    InsertMove0(); InsertMove1(); InsertMove2();
    InsertSource();
  }

  // ---------------------------------------------------------------------
  // Setting the inner content: handler on `div`, input `<div><span>42</span></div>`

  const InnerTail5: seq<Token> := []
  const InnerTail4 := [EndTagToken("div", "</div>")] + InnerTail5
  const InnerTail3 := [EndTagToken("span", "</span>")] + InnerTail4
  const InnerTail2 := [TextToken("42")] + InnerTail3
  const InnerTail1 := [StartTagToken("span", [], false, "<span>")] + InnerTail2
  const InnerTokens := [StartTagToken("div", [], false, "<div>")] + InnerTail1

  function InnerScript(k: nat): seq<ElementCommand>
  {
    [InnerContentSet("hey & ya", Text)]
  }

  const InnerHandler := Handler(LocalName("div"), InnerScript)
  const InnerGiven := NewElement("div", HtmlNamespace, [], false, "<div>")
  const InnerSet := InnerGiven.(contentRemoved := true, prepend := ["hey &amp; ya"])
  const InnerRun := HandlerRun(InnerSet, [])
  const InnerDiv := Frame("div", InnerSet, HtmlNamespace, false)

  /** The new inner content, escaped. */
  lemma InnerText()
    ensures RenderContent("hey & ya", Text) == "hey &amp; ya"
  {
    InnerTextParts();
    EscapeAroundAmpersand("hey ", " ya");
  }

  lemma InnerTextParts()
    ensures "hey & ya" == "hey " + "&" + " ya" && "hey " + "&amp;" + " ya" == "hey &amp; ya"
    ensures EscapeText("hey ") == "hey " && EscapeText(" ya") == " ya"
  {
    EscapePlainText("hey ");
    EscapePlainText(" ya");
  }

  lemma InnerSetEdit()
    ensures ApplyCommand(InnerGiven, InnerContentSet("hey & ya", Text)) == Success(InnerSet)
  {
    InnerText();
    assert [] + ["hey &amp; ya"] == ["hey &amp; ya"];
  }

  lemma InnerRuns()
    ensures RunHandler(InnerGiven, InnerScript(0)) == InnerRun
  {
    InnerSetEdit();
    var cmds := InnerScript(0);
    RunHandlerSucceeds(InnerGiven, cmds, 0, InnerSet);
    assert cmds[0..] == cmds && cmds[1..] == [];
  }

  /** The `div` renders its start tag followed by the new content, and its end tag. */
  lemma InnerSetOutputs()
    ensures StartOutput(InnerSet) == "<div>hey &amp; ya"
    ensures EndOutput(InnerSet, RunEndTagHandlers(EndTagFor(InnerSet, "</div>"), InnerSet.endTagHandlers)) == "</div>"
  {
    ScenarioNames();
    var e := InnerSet;
    assert e.canHaveContent && InteriorKept(e) && !e.tagsRemoved && !e.startTagModified && e.raw == "<div>";
    assert Concat(e.before) == "" && Concat(e.prepend) == "hey &amp; ya";
    assert StartOutput(e) == "" + "<div>" + "hey &amp; ya";
    var t := EndTagFor(e, "</div>");
    assert RunEndTagHandlers(t, []) == t;
    assert EndOutput(e, t) == "" + "" + "</div>" + "" + "";
  }

  const Inner1 := State([InnerDiv], 1, [InnerGiven], [InnerRun], "<div>hey &amp; ya")
  const Inner2 := State([InnerDiv, SuppressedSpan], 1, [InnerGiven], [InnerRun], Inner1.out)
  const Inner3 := State([InnerDiv, SuppressedSpan], 1, [InnerGiven], [InnerRun], Inner2.out)
  const Inner4 := State([InnerDiv], 1, [InnerGiven], [InnerRun], Inner3.out)
  const Inner5 := State([], 1, [InnerGiven], [InnerRun], Inner4.out + "</div>")

  lemma InnerStep0()
    ensures OnStartTag(Initial, InnerHandler, "div", [], false, "<div>") == AfterHandler(Initial, "div", InnerGiven, InnerRun)
  {
    ScenarioNames();
    DivSelector();
    InnerRuns();
    MatchedStartTag(Initial, InnerHandler, "div", [], false, "<div>", InnerGiven, InnerRun);
  }

  lemma InnerNext0()
    ensures AfterHandler(Initial, "div", InnerGiven, InnerRun) == Inner1
  {
    ScenarioNames();
    InnerSetOutputs();
  }

  lemma InnerStep1()
    ensures OnStartTag(Inner1, InnerHandler, "span", [], false, "<span>") == Inner2
  {
    ScenarioNames();
    DivSelector();
    assert InsideSuppressed(Inner1.stack);
    UnmatchedStartTag(Inner1, InnerHandler, "span", [], false, "<span>");
  }

  lemma InnerStep2()
    ensures OnText(Inner2, "42") == Inner3
  {
    assert InsideSuppressed(Inner2.stack);
  }

  lemma InnerStep3()
    ensures OnEndTag(Inner3, "span", "</span>") == ClosedAt(Inner3, 1, "</span>")
  {
    CloseAt(Inner3, "span", "</span>", 1);
  }

  lemma InnerNext3()
    ensures ClosedAt(Inner3, 1, "</span>") == Inner4
  {
    assert Inner3.stack[..1] == [InnerDiv];
  }

  lemma InnerStep4()
    ensures OnEndTag(Inner4, "div", "</div>") == ClosedAt(Inner4, 0, "</div>")
  {
    CloseAt(Inner4, "div", "</div>", 0);
  }

  lemma InnerNext4()
    ensures ClosedAt(Inner4, 0, "</div>") == Inner5
  {
    assert Inner4.stack[..0] == [];
    InnerSetOutputs();
  }

  lemma InnerMove0()
    ensures RewriteFrom(Initial, InnerHandler, InnerTokens) == RewriteFrom(Inner1, InnerHandler, InnerTail1)
  {
    RewriteStartTag(Initial, InnerHandler, "div", [], false, "<div>", InnerTail1);
    InnerStep0();
    InnerNext0();
  }

  lemma InnerMove1()
    ensures RewriteFrom(Inner1, InnerHandler, InnerTail1) == RewriteFrom(Inner2, InnerHandler, InnerTail2)
  {
    RewriteStartTag(Inner1, InnerHandler, "span", [], false, "<span>", InnerTail2);
    InnerStep1();
  }

  lemma InnerMove2()
    ensures RewriteFrom(Inner2, InnerHandler, InnerTail2) == RewriteFrom(Inner3, InnerHandler, InnerTail3)
  {
    RewriteText(Inner2, InnerHandler, "42", InnerTail3);
    InnerStep2();
  }

  lemma InnerMove3()
    ensures RewriteFrom(Inner3, InnerHandler, InnerTail3) == RewriteFrom(Inner4, InnerHandler, InnerTail4)
  {
    RewriteEndTag(Inner3, InnerHandler, "span", "</span>", InnerTail4);
    InnerStep3();
    InnerNext3();
  }

  lemma InnerMove4()
    ensures RewriteFrom(Inner4, InnerHandler, InnerTail4) == Inner5
  {
    RewriteEndTag(Inner4, InnerHandler, "div", "</div>", InnerTail5);
    InnerStep4();
    InnerNext4();
  }

  /** The tokens are those of the input `<div><span>42</span></div>`. */
  lemma InnerSource()
    ensures Source(InnerTokens) == "<div>" + "<span>" + "42" + "</span>" + "</div>"
  {
    SourceCons(StartTagToken("div", [], false, "<div>"), InnerTail1);
    SourceCons(StartTagToken("span", [], false, "<span>"), InnerTail2);
    AppendAssociates("<div>", "<span>", Source(InnerTail2));
    SourceCons(TextToken("42"), InnerTail3);
    AppendAssociates("<div>" + "<span>", "42", Source(InnerTail3));
    SourceCons(EndTagToken("span", "</span>"), InnerTail4);
    AppendAssociates("<div>" + "<span>" + "42", "</span>", Source(InnerTail4));
    SourceCons(EndTagToken("div", "</div>"), InnerTail5);
    AppendAssociates("<div>" + "<span>" + "42" + "</span>", "</div>", Source(InnerTail5));
    assert Source(InnerTail5) == [];
  }

  /** `set_inner_content` in text mode drops the children and escapes the
      new content: `<div><span>42</span></div>` becomes `<div>hey &amp; ya</div>`. */
  lemma SetInnerContentScenario()
    ensures Source(InnerTokens) == "<div>" + "<span>" + "42" + "</span>" + "</div>"
    ensures var r := RewriteDocument(InnerHandler, InnerTokens);
            |r.runs| == 1 && r.runs[0].errors == []
            && r.out == "<div>hey &amp; ya" + "</div>"
  {
    InnerMove0(); InnerMove1(); InnerMove2(); InnerMove3(); InnerMove4();
    InnerSource();
  }

  // ---------------------------------------------------------------------
  // Replacing: handler on `div`,
  // input `<div><span>42</span></div><h1>Hello<div>good bye</div></h1><h2>Hello2</h2>`

  const ReplaceTail14: seq<Token> := []
  const ReplaceTail13 := [EndTagToken("h2", "</h2>")] + ReplaceTail14
  const ReplaceTail12 := [TextToken("Hello2")] + ReplaceTail13
  const ReplaceTail11 := [StartTagToken("h2", [], false, "<h2>")] + ReplaceTail12
  const ReplaceTail10 := [EndTagToken("h1", "</h1>")] + ReplaceTail11
  const ReplaceTail9 := [EndTagToken("div", "</div>")] + ReplaceTail10
  const ReplaceTail8 := [TextToken("good bye")] + ReplaceTail9
  const ReplaceTail7 := [StartTagToken("div", [], false, "<div>")] + ReplaceTail8
  const ReplaceTail6 := [TextToken("Hello")] + ReplaceTail7
  const ReplaceTail5 := [StartTagToken("h1", [], false, "<h1>")] + ReplaceTail6
  const ReplaceTail4 := [EndTagToken("div", "</div>")] + ReplaceTail5
  const ReplaceTail3 := [EndTagToken("span", "</span>")] + ReplaceTail4
  const ReplaceTail2 := [TextToken("42")] + ReplaceTail3
  const ReplaceTail1 := [StartTagToken("span", [], false, "<span>")] + ReplaceTail2
  const ReplaceTokens := [StartTagToken("div", [], false, "<div>")] + ReplaceTail1

  function ReplaceScript(k: nat): seq<ElementCommand>
  {
    [ReplaceWith("hey & ya", Html)]
  }

  const ReplaceHandler := Handler(LocalName("div"), ReplaceScript)
  const ReplaceGiven := NewElement("div", HtmlNamespace, [], false, "<div>")
  const Replaced := ReplaceGiven.(tagsRemoved := true, contentRemoved := true, interiorRemoved := true, replacement := Some("hey & ya"))
  const ReplaceRun := HandlerRun(Replaced, [])
  const ReplacedDiv := Frame("div", Replaced, HtmlNamespace, false)

  /** Every run replaces the `div` it was given. */
  lemma ReplaceRuns(k: nat)
    ensures RunHandler(ReplaceGiven, ReplaceScript(k)) == ReplaceRun
  {
    var cmds := ReplaceScript(k);
    RunHandlerSucceeds(ReplaceGiven, cmds, 0, Replaced);
    assert cmds[0..] == cmds && cmds[1..] == [];
  }

  /** A replaced `div` renders as its replacement, and its end tag as nothing. */
  lemma ReplacedRendersReplacement()
    ensures StartOutput(Replaced) == "hey & ya"
    ensures EndOutput(Replaced, RunEndTagHandlers(EndTagFor(Replaced, "</div>"), Replaced.endTagHandlers)) == ""
  {
    var t := EndTagFor(Replaced, "</div>");
    assert RunEndTagHandlers(t, []) == t;
  }

  const Replace1 := State([ReplacedDiv], 1, [ReplaceGiven], [ReplaceRun], "hey & ya")
  const Replace2 := State([ReplacedDiv, SuppressedSpan], 1, [ReplaceGiven], [ReplaceRun], Replace1.out)
  const Replace3 := State([ReplacedDiv, SuppressedSpan], 1, [ReplaceGiven], [ReplaceRun], Replace2.out)
  const Replace4 := State([ReplacedDiv], 1, [ReplaceGiven], [ReplaceRun], Replace3.out)
  const Replace5 := State([], 1, [ReplaceGiven], [ReplaceRun], Replace4.out)
  const Replace6 := State([PlainH1], 1, [ReplaceGiven], [ReplaceRun], Replace5.out + "<h1>")
  const Replace7 := State([PlainH1], 1, [ReplaceGiven], [ReplaceRun], Replace6.out + "Hello")
  const Replace8 := State([PlainH1, ReplacedDiv], 2, [ReplaceGiven, ReplaceGiven], [ReplaceRun, ReplaceRun], Replace7.out + "hey & ya")
  const Replace9 := State([PlainH1, ReplacedDiv], 2, [ReplaceGiven, ReplaceGiven], [ReplaceRun, ReplaceRun], Replace8.out)
  const Replace10 := State([PlainH1], 2, [ReplaceGiven, ReplaceGiven], [ReplaceRun, ReplaceRun], Replace9.out)
  const Replace11 := State([], 2, [ReplaceGiven, ReplaceGiven], [ReplaceRun, ReplaceRun], Replace10.out + "</h1>")
  const Replace12 := State([PlainH2], 2, [ReplaceGiven, ReplaceGiven], [ReplaceRun, ReplaceRun], Replace11.out + "<h2>")
  const Replace13 := State([PlainH2], 2, [ReplaceGiven, ReplaceGiven], [ReplaceRun, ReplaceRun], Replace12.out + "Hello2")
  const Replace14 := State([], 2, [ReplaceGiven, ReplaceGiven], [ReplaceRun, ReplaceRun], Replace13.out + "</h2>")

  lemma ReplaceStep0()
    ensures OnStartTag(Initial, ReplaceHandler, "div", [], false, "<div>") == AfterHandler(Initial, "div", ReplaceGiven, ReplaceRun)
  {
    ScenarioNames();
    DivSelector();
    ReplaceRuns(0);
    MatchedStartTag(Initial, ReplaceHandler, "div", [], false, "<div>", ReplaceGiven, ReplaceRun);
  }

  lemma ReplaceNext0()
    ensures AfterHandler(Initial, "div", ReplaceGiven, ReplaceRun) == Replace1
  {
    ScenarioNames();
    ReplacedRendersReplacement();
  }

  lemma ReplaceStep1()
    ensures OnStartTag(Replace1, ReplaceHandler, "span", [], false, "<span>") == Replace2
  {
    ScenarioNames();
    DivSelector();
    assert InsideSuppressed(Replace1.stack);
    UnmatchedStartTag(Replace1, ReplaceHandler, "span", [], false, "<span>");
  }

  lemma ReplaceStep2()
    ensures OnText(Replace2, "42") == Replace3
  {
    assert InsideSuppressed(Replace2.stack);
  }

  lemma ReplaceStep3()
    ensures OnEndTag(Replace3, "span", "</span>") == ClosedAt(Replace3, 1, "</span>")
  {
    CloseAt(Replace3, "span", "</span>", 1);
  }

  lemma ReplaceNext3()
    ensures ClosedAt(Replace3, 1, "</span>") == Replace4
  {
    assert Replace3.stack[..1] == [ReplacedDiv];
  }

  lemma ReplaceStep4()
    ensures OnEndTag(Replace4, "div", "</div>") == ClosedAt(Replace4, 0, "</div>")
  {
    CloseAt(Replace4, "div", "</div>", 0);
  }

  lemma ReplaceNext4()
    ensures ClosedAt(Replace4, 0, "</div>") == Replace5
  {
    assert Replace4.stack[..0] == [];
    ReplacedRendersReplacement();
  }

  lemma ReplaceStep5()
    ensures OnStartTag(Replace5, ReplaceHandler, "h1", [], false, "<h1>") == Replace6
  {
    ScenarioNames();
    DivSelector();
    UnmatchedStartTag(Replace5, ReplaceHandler, "h1", [], false, "<h1>");
  }

  lemma ReplaceStep6()
    ensures OnText(Replace6, "Hello") == Replace7
  {
  }

  lemma ReplaceStep7()
    ensures OnStartTag(Replace7, ReplaceHandler, "div", [], false, "<div>") == AfterHandler(Replace7, "div", ReplaceGiven, ReplaceRun)
  {
    ScenarioNames();
    DivSelector();
    ReplaceRuns(1);
    MatchedStartTag(Replace7, ReplaceHandler, "div", [], false, "<div>", ReplaceGiven, ReplaceRun);
  }

  lemma ReplaceNext7()
    ensures AfterHandler(Replace7, "div", ReplaceGiven, ReplaceRun) == Replace8
  {
    ScenarioNames();
    ReplacedRendersReplacement();
  }

  lemma ReplaceStep8()
    ensures OnText(Replace8, "good bye") == Replace9
  {
    assert InsideSuppressed(Replace8.stack);
  }

  lemma ReplaceStep9()
    ensures OnEndTag(Replace9, "div", "</div>") == ClosedAt(Replace9, 1, "</div>")
  {
    CloseAt(Replace9, "div", "</div>", 1);
  }

  lemma ReplaceNext9()
    ensures ClosedAt(Replace9, 1, "</div>") == Replace10
  {
    assert Replace9.stack[..1] == [PlainH1];
    ReplacedRendersReplacement();
  }

  lemma ReplaceStep10()
    ensures OnEndTag(Replace10, "h1", "</h1>") == ClosedAt(Replace10, 0, "</h1>")
  {
    CloseAt(Replace10, "h1", "</h1>", 0);
  }

  lemma ReplaceNext10()
    ensures ClosedAt(Replace10, 0, "</h1>") == Replace11
  {
    assert Replace10.stack[..0] == [];
    UntouchedIsVerbatimHere(Replace10.stack[0].element, "</h1>");
  }

  lemma ReplaceStep11()
    ensures OnStartTag(Replace11, ReplaceHandler, "h2", [], false, "<h2>") == Replace12
  {
    ScenarioNames();
    DivSelector();
    UnmatchedStartTag(Replace11, ReplaceHandler, "h2", [], false, "<h2>");
  }

  lemma ReplaceStep12()
    ensures OnText(Replace12, "Hello2") == Replace13
  {
  }

  lemma ReplaceStep13()
    ensures OnEndTag(Replace13, "h2", "</h2>") == ClosedAt(Replace13, 0, "</h2>")
  {
    CloseAt(Replace13, "h2", "</h2>", 0);
  }

  lemma ReplaceNext13()
    ensures ClosedAt(Replace13, 0, "</h2>") == Replace14
  {
    assert Replace13.stack[..0] == [];
    UntouchedIsVerbatimHere(Replace13.stack[0].element, "</h2>");
  }

  lemma ReplaceMove0()
    ensures RewriteFrom(Initial, ReplaceHandler, ReplaceTokens) == RewriteFrom(Replace1, ReplaceHandler, ReplaceTail1)
  {
    RewriteStartTag(Initial, ReplaceHandler, "div", [], false, "<div>", ReplaceTail1);
    ReplaceStep0();
    ReplaceNext0();
  }

  lemma ReplaceMove1()
    ensures RewriteFrom(Replace1, ReplaceHandler, ReplaceTail1) == RewriteFrom(Replace2, ReplaceHandler, ReplaceTail2)
  {
    RewriteStartTag(Replace1, ReplaceHandler, "span", [], false, "<span>", ReplaceTail2);
    ReplaceStep1();
  }

  lemma ReplaceMove2()
    ensures RewriteFrom(Replace2, ReplaceHandler, ReplaceTail2) == RewriteFrom(Replace3, ReplaceHandler, ReplaceTail3)
  {
    RewriteText(Replace2, ReplaceHandler, "42", ReplaceTail3);
    ReplaceStep2();
  }

  lemma ReplaceMove3()
    ensures RewriteFrom(Replace3, ReplaceHandler, ReplaceTail3) == RewriteFrom(Replace4, ReplaceHandler, ReplaceTail4)
  {
    RewriteEndTag(Replace3, ReplaceHandler, "span", "</span>", ReplaceTail4);
    ReplaceStep3();
    ReplaceNext3();
  }

  lemma ReplaceMove4()
    ensures RewriteFrom(Replace4, ReplaceHandler, ReplaceTail4) == RewriteFrom(Replace5, ReplaceHandler, ReplaceTail5)
  {
    RewriteEndTag(Replace4, ReplaceHandler, "div", "</div>", ReplaceTail5);
    ReplaceStep4();
    ReplaceNext4();
  }

  lemma ReplaceMove5()
    ensures RewriteFrom(Replace5, ReplaceHandler, ReplaceTail5) == RewriteFrom(Replace6, ReplaceHandler, ReplaceTail6)
  {
    RewriteStartTag(Replace5, ReplaceHandler, "h1", [], false, "<h1>", ReplaceTail6);
    ReplaceStep5();
  }

  lemma ReplaceMove6()
    ensures RewriteFrom(Replace6, ReplaceHandler, ReplaceTail6) == RewriteFrom(Replace7, ReplaceHandler, ReplaceTail7)
  {
    RewriteText(Replace6, ReplaceHandler, "Hello", ReplaceTail7);
    ReplaceStep6();
  }

  lemma ReplaceMove7()
    ensures RewriteFrom(Replace7, ReplaceHandler, ReplaceTail7) == RewriteFrom(Replace8, ReplaceHandler, ReplaceTail8)
  {
    RewriteStartTag(Replace7, ReplaceHandler, "div", [], false, "<div>", ReplaceTail8);
    ReplaceStep7();
    ReplaceNext7();
  }

  lemma ReplaceMove8()
    ensures RewriteFrom(Replace8, ReplaceHandler, ReplaceTail8) == RewriteFrom(Replace9, ReplaceHandler, ReplaceTail9)
  {
    RewriteText(Replace8, ReplaceHandler, "good bye", ReplaceTail9);
    ReplaceStep8();
  }

  lemma ReplaceMove9()
    ensures RewriteFrom(Replace9, ReplaceHandler, ReplaceTail9) == RewriteFrom(Replace10, ReplaceHandler, ReplaceTail10)
  {
    RewriteEndTag(Replace9, ReplaceHandler, "div", "</div>", ReplaceTail10);
    ReplaceStep9();
    ReplaceNext9();
  }

  lemma ReplaceMove10()
    ensures RewriteFrom(Replace10, ReplaceHandler, ReplaceTail10) == RewriteFrom(Replace11, ReplaceHandler, ReplaceTail11)
  {
    RewriteEndTag(Replace10, ReplaceHandler, "h1", "</h1>", ReplaceTail11);
    ReplaceStep10();
    ReplaceNext10();
  }

  lemma ReplaceMove11()
    ensures RewriteFrom(Replace11, ReplaceHandler, ReplaceTail11) == RewriteFrom(Replace12, ReplaceHandler, ReplaceTail12)
  {
    RewriteStartTag(Replace11, ReplaceHandler, "h2", [], false, "<h2>", ReplaceTail12);
    ReplaceStep11();
  }

  lemma ReplaceMove12()
    ensures RewriteFrom(Replace12, ReplaceHandler, ReplaceTail12) == RewriteFrom(Replace13, ReplaceHandler, ReplaceTail13)
  {
    RewriteText(Replace12, ReplaceHandler, "Hello2", ReplaceTail13);
    ReplaceStep12();
  }

  lemma ReplaceMove13()
    ensures RewriteFrom(Replace13, ReplaceHandler, ReplaceTail13) == Replace14
  {
    RewriteEndTag(Replace13, ReplaceHandler, "h2", "</h2>", ReplaceTail14);
    ReplaceStep13();
    ReplaceNext13();
  }

  /** The tokens are those of the input `<div><span>42</span></div><h1>Hello<div>good bye</div></h1><h2>Hello2</h2>`. */
  lemma ReplaceSource()
    ensures Source(ReplaceTokens) == "<div>" + "<span>" + "42" + "</span>" + "</div>" + "<h1>" + "Hello" + "<div>"
            + "good bye" + "</div>" + "</h1>" + "<h2>" + "Hello2" + "</h2>"
  {
    SourceCons(StartTagToken("div", [], false, "<div>"), ReplaceTail1);
    SourceCons(StartTagToken("span", [], false, "<span>"), ReplaceTail2);
    AppendAssociates("<div>", "<span>", Source(ReplaceTail2));
    SourceCons(TextToken("42"), ReplaceTail3);
    AppendAssociates("<div>" + "<span>", "42", Source(ReplaceTail3));
    SourceCons(EndTagToken("span", "</span>"), ReplaceTail4);
    AppendAssociates("<div>" + "<span>" + "42", "</span>", Source(ReplaceTail4));
    SourceCons(EndTagToken("div", "</div>"), ReplaceTail5);
    AppendAssociates("<div>" + "<span>" + "42" + "</span>", "</div>", Source(ReplaceTail5));
    SourceCons(StartTagToken("h1", [], false, "<h1>"), ReplaceTail6);
    AppendAssociates("<div>" + "<span>" + "42" + "</span>" + "</div>", "<h1>", Source(ReplaceTail6));
    SourceCons(TextToken("Hello"), ReplaceTail7);
    AppendAssociates("<div>" + "<span>" + "42" + "</span>" + "</div>" + "<h1>", "Hello", Source(ReplaceTail7));
    SourceCons(StartTagToken("div", [], false, "<div>"), ReplaceTail8);
    AppendAssociates("<div>" + "<span>" + "42" + "</span>" + "</div>" + "<h1>" + "Hello", "<div>", Source(ReplaceTail8));
    SourceCons(TextToken("good bye"), ReplaceTail9);
    AppendAssociates("<div>" + "<span>" + "42" + "</span>" + "</div>" + "<h1>" + "Hello" + "<div>", "good bye", Source(ReplaceTail9));
    SourceCons(EndTagToken("div", "</div>"), ReplaceTail10);
    AppendAssociates("<div>" + "<span>" + "42" + "</span>" + "</div>" + "<h1>" + "Hello" + "<div>" + "good bye", "</div>", Source(ReplaceTail10));
    SourceCons(EndTagToken("h1", "</h1>"), ReplaceTail11);
    AppendAssociates("<div>" + "<span>" + "42" + "</span>" + "</div>" + "<h1>" + "Hello" + "<div>" + "good bye" + "</div>", "</h1>", Source(ReplaceTail11));
    SourceCons(StartTagToken("h2", [], false, "<h2>"), ReplaceTail12);
    AppendAssociates("<div>" + "<span>" + "42" + "</span>" + "</div>" + "<h1>" + "Hello" + "<div>" + "good bye" + "</div>" + "</h1>", "<h2>", Source(ReplaceTail12));
    SourceCons(TextToken("Hello2"), ReplaceTail13);
    AppendAssociates("<div>" + "<span>" + "42" + "</span>" + "</div>" + "<h1>" + "Hello" + "<div>" + "good bye" + "</div>" + "</h1>" + "<h2>", "Hello2", Source(ReplaceTail13));
    SourceCons(EndTagToken("h2", "</h2>"), ReplaceTail14);
    AppendAssociates("<div>" + "<span>" + "42" + "</span>" + "</div>" + "<h1>" + "Hello" + "<div>" + "good bye" + "</div>" + "</h1>" + "<h2>" + "Hello2", "</h2>", Source(ReplaceTail14));
    assert Source(ReplaceTail14) == [];
  }

  /** `replace` in HTML mode substitutes the whole element, children
      included, for every `div`, the one nested in `h1` too. */
  lemma ReplaceScenario()
    ensures Source(ReplaceTokens) == "<div>" + "<span>" + "42" + "</span>" + "</div>" + "<h1>" + "Hello" + "<div>"
            + "good bye" + "</div>" + "</h1>" + "<h2>" + "Hello2" + "</h2>"
    ensures var r := RewriteDocument(ReplaceHandler, ReplaceTokens);
            |r.runs| == 2 && r.runs[0].errors == [] && r.runs[1].errors == []
            && r.out == "hey & ya" + "<h1>" + "Hello" + "hey & ya" + "</h1>" + "<h2>" + "Hello2" + "</h2>"
  {
    ReplaceMove0(); ReplaceMove1(); ReplaceMove2(); ReplaceMove3(); ReplaceMove4(); ReplaceMove5();
    ReplaceMove6(); ReplaceMove7(); ReplaceMove8(); ReplaceMove9(); ReplaceMove10();
    ReplaceMove11(); ReplaceMove12(); ReplaceMove13();
    ReplaceSource();
  }

  // ---------------------------------------------------------------------
  // Removing: handler on `h1`, input `<div><span>42</span></div><h1>Hello</h1><h2>Hello2</h2>`

  const RemoveTail11: seq<Token> := []
  const RemoveTail10 := [EndTagToken("h2", "</h2>")] + RemoveTail11
  const RemoveTail9 := [TextToken("Hello2")] + RemoveTail10
  const RemoveTail8 := [StartTagToken("h2", [], false, "<h2>")] + RemoveTail9
  const RemoveTail7 := [EndTagToken("h1", "</h1>")] + RemoveTail8
  const RemoveTail6 := [TextToken("Hello")] + RemoveTail7
  const RemoveTail5 := [StartTagToken("h1", [], false, "<h1>")] + RemoveTail6
  const RemoveTail4 := [EndTagToken("div", "</div>")] + RemoveTail5
  const RemoveTail3 := [EndTagToken("span", "</span>")] + RemoveTail4
  const RemoveTail2 := [TextToken("42")] + RemoveTail3
  const RemoveTail1 := [StartTagToken("span", [], false, "<span>")] + RemoveTail2
  const RemoveTokens := [StartTagToken("div", [], false, "<div>")] + RemoveTail1

  function RemoveScript(k: nat): seq<ElementCommand>
  {
    [RemoveElement]
  }

  const RemoveHandler := Handler(LocalName("h1"), RemoveScript)
  const RemoveGiven := NewElement("h1", HtmlNamespace, [], false, "<h1>")
  const Removed := RemoveGiven.(tagsRemoved := true, contentRemoved := true, interiorRemoved := true)
  const RemoveRun := HandlerRun(Removed, [])
  const RemovedH1 := Frame("h1", Removed, HtmlNamespace, false)

  lemma RemoveRuns()
    ensures RunHandler(RemoveGiven, RemoveScript(0)) == RemoveRun
  {
    var cmds := RemoveScript(0);
    RunHandlerSucceeds(RemoveGiven, cmds, 0, Removed);
    assert cmds[0..] == cmds && cmds[1..] == [];
  }

  /** A removed `h1` renders as nothing at either end. */
  lemma RemovedRendersNothing()
    ensures StartOutput(Removed) == ""
    ensures EndOutput(Removed, RunEndTagHandlers(EndTagFor(Removed, "</h1>"), Removed.endTagHandlers)) == ""
  {
    var t := EndTagFor(Removed, "</h1>");
    assert RunEndTagHandlers(t, []) == t;
  }

  const Remove1 := State([PlainDiv], 0, [], [], "<div>")
  const Remove2 := State([PlainDiv, PlainSpan], 0, [], [], Remove1.out + "<span>")
  const Remove3 := State([PlainDiv, PlainSpan], 0, [], [], Remove2.out + "42")
  const Remove4 := State([PlainDiv], 0, [], [], Remove3.out + "</span>")
  const Remove5 := State([], 0, [], [], Remove4.out + "</div>")
  const Remove6 := State([RemovedH1], 1, [RemoveGiven], [RemoveRun], Remove5.out)
  const Remove7 := State([RemovedH1], 1, [RemoveGiven], [RemoveRun], Remove6.out)
  const Remove8 := State([], 1, [RemoveGiven], [RemoveRun], Remove7.out)
  const Remove9 := State([PlainH2], 1, [RemoveGiven], [RemoveRun], Remove8.out + "<h2>")
  const Remove10 := State([PlainH2], 1, [RemoveGiven], [RemoveRun], Remove9.out + "Hello2")
  const Remove11 := State([], 1, [RemoveGiven], [RemoveRun], Remove10.out + "</h2>")

  lemma RemoveStep0()
    ensures OnStartTag(Initial, RemoveHandler, "div", [], false, "<div>") == Remove1
  {
    ScenarioNames();
    HeadingSelectors();
    UnmatchedStartTag(Initial, RemoveHandler, "div", [], false, "<div>");
  }

  lemma RemoveStep1()
    ensures OnStartTag(Remove1, RemoveHandler, "span", [], false, "<span>") == Remove2
  {
    ScenarioNames();
    HeadingSelectors();
    UnmatchedStartTag(Remove1, RemoveHandler, "span", [], false, "<span>");
  }

  lemma RemoveStep2()
    ensures OnText(Remove2, "42") == Remove3
  {
  }

  lemma RemoveStep3()
    ensures OnEndTag(Remove3, "span", "</span>") == ClosedAt(Remove3, 1, "</span>")
  {
    CloseAt(Remove3, "span", "</span>", 1);
  }

  lemma RemoveNext3()
    ensures ClosedAt(Remove3, 1, "</span>") == Remove4
  {
    assert Remove3.stack[..1] == [PlainDiv];
    UntouchedIsVerbatimHere(Remove3.stack[1].element, "</span>");
  }

  lemma RemoveStep4()
    ensures OnEndTag(Remove4, "div", "</div>") == ClosedAt(Remove4, 0, "</div>")
  {
    CloseAt(Remove4, "div", "</div>", 0);
  }

  lemma RemoveNext4()
    ensures ClosedAt(Remove4, 0, "</div>") == Remove5
  {
    assert Remove4.stack[..0] == [];
    UntouchedIsVerbatimHere(Remove4.stack[0].element, "</div>");
  }

  lemma RemoveStep5()
    ensures OnStartTag(Remove5, RemoveHandler, "h1", [], false, "<h1>") == AfterHandler(Remove5, "h1", RemoveGiven, RemoveRun)
  {
    ScenarioNames();
    HeadingSelectors();
    RemoveRuns();
    MatchedStartTag(Remove5, RemoveHandler, "h1", [], false, "<h1>", RemoveGiven, RemoveRun);
  }

  lemma RemoveNext5()
    ensures AfterHandler(Remove5, "h1", RemoveGiven, RemoveRun) == Remove6
  {
    ScenarioNames();
    RemovedRendersNothing();
  }

  lemma RemoveStep6()
    ensures OnText(Remove6, "Hello") == Remove7
  {
    assert InsideSuppressed(Remove6.stack);
  }

  lemma RemoveStep7()
    ensures OnEndTag(Remove7, "h1", "</h1>") == ClosedAt(Remove7, 0, "</h1>")
  {
    CloseAt(Remove7, "h1", "</h1>", 0);
  }

  lemma RemoveNext7()
    ensures ClosedAt(Remove7, 0, "</h1>") == Remove8
  {
    assert Remove7.stack[..0] == [];
    RemovedRendersNothing();
  }

  lemma RemoveStep8()
    ensures OnStartTag(Remove8, RemoveHandler, "h2", [], false, "<h2>") == Remove9
  {
    ScenarioNames();
    HeadingSelectors();
    UnmatchedStartTag(Remove8, RemoveHandler, "h2", [], false, "<h2>");
  }

  lemma RemoveStep9()
    ensures OnText(Remove9, "Hello2") == Remove10
  {
  }

  lemma RemoveStep10()
    ensures OnEndTag(Remove10, "h2", "</h2>") == ClosedAt(Remove10, 0, "</h2>")
  {
    CloseAt(Remove10, "h2", "</h2>", 0);
  }

  lemma RemoveNext10()
    ensures ClosedAt(Remove10, 0, "</h2>") == Remove11
  {
    assert Remove10.stack[..0] == [];
    UntouchedIsVerbatimHere(Remove10.stack[0].element, "</h2>");
  }

  lemma RemoveMove0()
    ensures RewriteFrom(Initial, RemoveHandler, RemoveTokens) == RewriteFrom(Remove1, RemoveHandler, RemoveTail1)
  {
    RewriteStartTag(Initial, RemoveHandler, "div", [], false, "<div>", RemoveTail1);
    RemoveStep0();
  }

  lemma RemoveMove1()
    ensures RewriteFrom(Remove1, RemoveHandler, RemoveTail1) == RewriteFrom(Remove2, RemoveHandler, RemoveTail2)
  {
    RewriteStartTag(Remove1, RemoveHandler, "span", [], false, "<span>", RemoveTail2);
    RemoveStep1();
  }

  lemma RemoveMove2()
    ensures RewriteFrom(Remove2, RemoveHandler, RemoveTail2) == RewriteFrom(Remove3, RemoveHandler, RemoveTail3)
  {
    RewriteText(Remove2, RemoveHandler, "42", RemoveTail3);
    RemoveStep2();
  }

  lemma RemoveMove3()
    ensures RewriteFrom(Remove3, RemoveHandler, RemoveTail3) == RewriteFrom(Remove4, RemoveHandler, RemoveTail4)
  {
    RewriteEndTag(Remove3, RemoveHandler, "span", "</span>", RemoveTail4);
    RemoveStep3();
    RemoveNext3();
  }

  lemma RemoveMove4()
    ensures RewriteFrom(Remove4, RemoveHandler, RemoveTail4) == RewriteFrom(Remove5, RemoveHandler, RemoveTail5)
  {
    RewriteEndTag(Remove4, RemoveHandler, "div", "</div>", RemoveTail5);
    RemoveStep4();
    RemoveNext4();
  }

  lemma RemoveMove5()
    ensures RewriteFrom(Remove5, RemoveHandler, RemoveTail5) == RewriteFrom(Remove6, RemoveHandler, RemoveTail6)
  {
    RewriteStartTag(Remove5, RemoveHandler, "h1", [], false, "<h1>", RemoveTail6);
    RemoveStep5();
    RemoveNext5();
  }

  lemma RemoveMove6()
    ensures RewriteFrom(Remove6, RemoveHandler, RemoveTail6) == RewriteFrom(Remove7, RemoveHandler, RemoveTail7)
  {
    RewriteText(Remove6, RemoveHandler, "Hello", RemoveTail7);
    RemoveStep6();
  }

  lemma RemoveMove7()
    ensures RewriteFrom(Remove7, RemoveHandler, RemoveTail7) == RewriteFrom(Remove8, RemoveHandler, RemoveTail8)
  {
    RewriteEndTag(Remove7, RemoveHandler, "h1", "</h1>", RemoveTail8);
    RemoveStep7();
    RemoveNext7();
  }

  lemma RemoveMove8()
    ensures RewriteFrom(Remove8, RemoveHandler, RemoveTail8) == RewriteFrom(Remove9, RemoveHandler, RemoveTail9)
  {
    RewriteStartTag(Remove8, RemoveHandler, "h2", [], false, "<h2>", RemoveTail9);
    RemoveStep8();
  }

  lemma RemoveMove9()
    ensures RewriteFrom(Remove9, RemoveHandler, RemoveTail9) == RewriteFrom(Remove10, RemoveHandler, RemoveTail10)
  {
    RewriteText(Remove9, RemoveHandler, "Hello2", RemoveTail10);
    RemoveStep9();
  }

  lemma RemoveMove10()
    ensures RewriteFrom(Remove10, RemoveHandler, RemoveTail10) == Remove11
  {
    RewriteEndTag(Remove10, RemoveHandler, "h2", "</h2>", RemoveTail11);
    RemoveStep10();
    RemoveNext10();
  }

  /** The tokens are those of the input `<div><span>42</span></div><h1>Hello</h1><h2>Hello2</h2>`. */
  lemma RemoveSource()
    ensures Source(RemoveTokens) == "<div>" + "<span>" + "42" + "</span>" + "</div>" + "<h1>" + "Hello" + "</h1>"
            + "<h2>" + "Hello2" + "</h2>"
  {
    SourceCons(StartTagToken("div", [], false, "<div>"), RemoveTail1);
    SourceCons(StartTagToken("span", [], false, "<span>"), RemoveTail2);
    AppendAssociates("<div>", "<span>", Source(RemoveTail2));
    SourceCons(TextToken("42"), RemoveTail3);
    AppendAssociates("<div>" + "<span>", "42", Source(RemoveTail3));
    SourceCons(EndTagToken("span", "</span>"), RemoveTail4);
    AppendAssociates("<div>" + "<span>" + "42", "</span>", Source(RemoveTail4));
    SourceCons(EndTagToken("div", "</div>"), RemoveTail5);
    AppendAssociates("<div>" + "<span>" + "42" + "</span>", "</div>", Source(RemoveTail5));
    SourceCons(StartTagToken("h1", [], false, "<h1>"), RemoveTail6);
    AppendAssociates("<div>" + "<span>" + "42" + "</span>" + "</div>", "<h1>", Source(RemoveTail6));
    SourceCons(TextToken("Hello"), RemoveTail7);
    AppendAssociates("<div>" + "<span>" + "42" + "</span>" + "</div>" + "<h1>", "Hello", Source(RemoveTail7));
    SourceCons(EndTagToken("h1", "</h1>"), RemoveTail8);
    AppendAssociates("<div>" + "<span>" + "42" + "</span>" + "</div>" + "<h1>" + "Hello", "</h1>", Source(RemoveTail8));
    SourceCons(StartTagToken("h2", [], false, "<h2>"), RemoveTail9);
    AppendAssociates("<div>" + "<span>" + "42" + "</span>" + "</div>" + "<h1>" + "Hello" + "</h1>", "<h2>", Source(RemoveTail9));
    SourceCons(TextToken("Hello2"), RemoveTail10);
    AppendAssociates("<div>" + "<span>" + "42" + "</span>" + "</div>" + "<h1>" + "Hello" + "</h1>" + "<h2>", "Hello2", Source(RemoveTail10));
    SourceCons(EndTagToken("h2", "</h2>"), RemoveTail11);
    AppendAssociates("<div>" + "<span>" + "42" + "</span>" + "</div>" + "<h1>" + "Hello" + "</h1>" + "<h2>" + "Hello2", "</h2>", Source(RemoveTail11));
    assert Source(RemoveTail11) == [];
  }

  /** `is_removed` is false before `remove` and true after; the `h1` goes
      with its text, everything else stays. */
  lemma RemoveScenario()
    ensures Source(RemoveTokens) == "<div>" + "<span>" + "42" + "</span>" + "</div>" + "<h1>" + "Hello" + "</h1>"
            + "<h2>" + "Hello2" + "</h2>"
    ensures var r := RewriteDocument(RemoveHandler, RemoveTokens);
            |r.seen| == 1 && !IsRemoved(r.seen[0])
            && |r.runs| == 1 && IsRemoved(r.runs[0].element)
            && r.out == "<div>" + "<span>" + "42" + "</span>" + "</div>" + "<h2>" + "Hello2" + "</h2>"
  {
    RemoveMove0(); RemoveMove1(); RemoveMove2(); RemoveMove3(); RemoveMove4(); RemoveMove5();
    RemoveMove6(); RemoveMove7(); RemoveMove8(); RemoveMove9(); RemoveMove10();
    RemoveSource();
  }

  // ---------------------------------------------------------------------
  // Removing and keeping the content: handler on `h2`,
  // input `<div><span>42<h2>Hello1</h2></span></div><h1>Hello</h1><h2>Hello2</h2>`

  const KeepTail14: seq<Token> := []
  const KeepTail13 := [EndTagToken("h2", "</h2>")] + KeepTail14
  const KeepTail12 := [TextToken("Hello2")] + KeepTail13
  const KeepTail11 := [StartTagToken("h2", [], false, "<h2>")] + KeepTail12
  const KeepTail10 := [EndTagToken("h1", "</h1>")] + KeepTail11
  const KeepTail9 := [TextToken("Hello")] + KeepTail10
  const KeepTail8 := [StartTagToken("h1", [], false, "<h1>")] + KeepTail9
  const KeepTail7 := [EndTagToken("div", "</div>")] + KeepTail8
  const KeepTail6 := [EndTagToken("span", "</span>")] + KeepTail7
  const KeepTail5 := [EndTagToken("h2", "</h2>")] + KeepTail6
  const KeepTail4 := [TextToken("Hello1")] + KeepTail5
  const KeepTail3 := [StartTagToken("h2", [], false, "<h2>")] + KeepTail4
  const KeepTail2 := [TextToken("42")] + KeepTail3
  const KeepTail1 := [StartTagToken("span", [], false, "<span>")] + KeepTail2
  const KeepTokens := [StartTagToken("div", [], false, "<div>")] + KeepTail1

  function KeepScript(k: nat): seq<ElementCommand>
  {
    [RemoveElementKeepContent]
  }

  const KeepHandler := Handler(LocalName("h2"), KeepScript)
  const KeepGiven := NewElement("h2", HtmlNamespace, [], false, "<h2>")
  const Kept := KeepGiven.(tagsRemoved := true)
  const KeepRun := HandlerRun(Kept, [])
  const KeptH2 := Frame("h2", Kept, HtmlNamespace, false)

  lemma KeepRuns(k: nat)
    ensures RunHandler(KeepGiven, KeepScript(k)) == KeepRun
  {
    var cmds := KeepScript(k);
    RunHandlerSucceeds(KeepGiven, cmds, 0, Kept);
    assert cmds[0..] == cmds && cmds[1..] == [];
  }

  /** With its tags removed and its content kept, an `h2` renders as nothing at either end. */
  lemma KeptRendersNothing()
    ensures StartOutput(Kept) == ""
    ensures EndOutput(Kept, RunEndTagHandlers(EndTagFor(Kept, "</h2>"), Kept.endTagHandlers)) == ""
  {
    var t := EndTagFor(Kept, "</h2>");
    assert RunEndTagHandlers(t, []) == t;
  }

  const Keep1 := State([PlainDiv], 0, [], [], "<div>")
  const Keep2 := State([PlainDiv, PlainSpan], 0, [], [], Keep1.out + "<span>")
  const Keep3 := State([PlainDiv, PlainSpan], 0, [], [], Keep2.out + "42")
  const Keep4 := State([PlainDiv, PlainSpan, KeptH2], 1, [KeepGiven], [KeepRun], Keep3.out)
  const Keep5 := State([PlainDiv, PlainSpan, KeptH2], 1, [KeepGiven], [KeepRun], Keep4.out + "Hello1")
  const Keep6 := State([PlainDiv, PlainSpan], 1, [KeepGiven], [KeepRun], Keep5.out)
  const Keep7 := State([PlainDiv], 1, [KeepGiven], [KeepRun], Keep6.out + "</span>")
  const Keep8 := State([], 1, [KeepGiven], [KeepRun], Keep7.out + "</div>")
  const Keep9 := State([PlainH1], 1, [KeepGiven], [KeepRun], Keep8.out + "<h1>")
  const Keep10 := State([PlainH1], 1, [KeepGiven], [KeepRun], Keep9.out + "Hello")
  const Keep11 := State([], 1, [KeepGiven], [KeepRun], Keep10.out + "</h1>")
  const Keep12 := State([KeptH2], 2, [KeepGiven, KeepGiven], [KeepRun, KeepRun], Keep11.out)
  const Keep13 := State([KeptH2], 2, [KeepGiven, KeepGiven], [KeepRun, KeepRun], Keep12.out + "Hello2")
  const Keep14 := State([], 2, [KeepGiven, KeepGiven], [KeepRun, KeepRun], Keep13.out)

  lemma KeepStep0()
    ensures OnStartTag(Initial, KeepHandler, "div", [], false, "<div>") == Keep1
  {
    ScenarioNames();
    HeadingSelectors();
    UnmatchedStartTag(Initial, KeepHandler, "div", [], false, "<div>");
  }

  lemma KeepStep1()
    ensures OnStartTag(Keep1, KeepHandler, "span", [], false, "<span>") == Keep2
  {
    ScenarioNames();
    HeadingSelectors();
    UnmatchedStartTag(Keep1, KeepHandler, "span", [], false, "<span>");
  }

  lemma KeepStep2()
    ensures OnText(Keep2, "42") == Keep3
  {
  }

  lemma KeepStep3()
    ensures OnStartTag(Keep3, KeepHandler, "h2", [], false, "<h2>") == AfterHandler(Keep3, "h2", KeepGiven, KeepRun)
  {
    ScenarioNames();
    HeadingSelectors();
    KeepRuns(0);
    MatchedStartTag(Keep3, KeepHandler, "h2", [], false, "<h2>", KeepGiven, KeepRun);
  }

  lemma KeepNext3()
    ensures AfterHandler(Keep3, "h2", KeepGiven, KeepRun) == Keep4
  {
    ScenarioNames();
    KeptRendersNothing();
  }

  lemma KeepStep4()
    ensures OnText(Keep4, "Hello1") == Keep5
  {
  }

  lemma KeepStep5()
    ensures OnEndTag(Keep5, "h2", "</h2>") == ClosedAt(Keep5, 2, "</h2>")
  {
    CloseAt(Keep5, "h2", "</h2>", 2);
  }

  lemma KeepNext5()
    ensures ClosedAt(Keep5, 2, "</h2>") == Keep6
  {
    assert Keep5.stack[..2] == [PlainDiv, PlainSpan];
    KeptRendersNothing();
  }

  lemma KeepStep6()
    ensures OnEndTag(Keep6, "span", "</span>") == ClosedAt(Keep6, 1, "</span>")
  {
    CloseAt(Keep6, "span", "</span>", 1);
  }

  lemma KeepNext6()
    ensures ClosedAt(Keep6, 1, "</span>") == Keep7
  {
    assert Keep6.stack[..1] == [PlainDiv];
    UntouchedIsVerbatimHere(Keep6.stack[1].element, "</span>");
  }

  lemma KeepStep7()
    ensures OnEndTag(Keep7, "div", "</div>") == ClosedAt(Keep7, 0, "</div>")
  {
    CloseAt(Keep7, "div", "</div>", 0);
  }

  lemma KeepNext7()
    ensures ClosedAt(Keep7, 0, "</div>") == Keep8
  {
    assert Keep7.stack[..0] == [];
    UntouchedIsVerbatimHere(Keep7.stack[0].element, "</div>");
  }

  lemma KeepStep8()
    ensures OnStartTag(Keep8, KeepHandler, "h1", [], false, "<h1>") == Keep9
  {
    ScenarioNames();
    HeadingSelectors();
    UnmatchedStartTag(Keep8, KeepHandler, "h1", [], false, "<h1>");
  }

  lemma KeepStep9()
    ensures OnText(Keep9, "Hello") == Keep10
  {
  }

  lemma KeepStep10()
    ensures OnEndTag(Keep10, "h1", "</h1>") == ClosedAt(Keep10, 0, "</h1>")
  {
    CloseAt(Keep10, "h1", "</h1>", 0);
  }

  lemma KeepNext10()
    ensures ClosedAt(Keep10, 0, "</h1>") == Keep11
  {
    assert Keep10.stack[..0] == [];
    UntouchedIsVerbatimHere(Keep10.stack[0].element, "</h1>");
  }

  lemma KeepStep11()
    ensures OnStartTag(Keep11, KeepHandler, "h2", [], false, "<h2>") == AfterHandler(Keep11, "h2", KeepGiven, KeepRun)
  {
    ScenarioNames();
    HeadingSelectors();
    KeepRuns(1);
    MatchedStartTag(Keep11, KeepHandler, "h2", [], false, "<h2>", KeepGiven, KeepRun);
  }

  lemma KeepNext11()
    ensures AfterHandler(Keep11, "h2", KeepGiven, KeepRun) == Keep12
  {
    ScenarioNames();
    KeptRendersNothing();
  }

  lemma KeepStep12()
    ensures OnText(Keep12, "Hello2") == Keep13
  {
  }

  lemma KeepStep13()
    ensures OnEndTag(Keep13, "h2", "</h2>") == ClosedAt(Keep13, 0, "</h2>")
  {
    CloseAt(Keep13, "h2", "</h2>", 0);
  }

  lemma KeepNext13()
    ensures ClosedAt(Keep13, 0, "</h2>") == Keep14
  {
    assert Keep13.stack[..0] == [];
    KeptRendersNothing();
  }

  lemma KeepMove0()
    ensures RewriteFrom(Initial, KeepHandler, KeepTokens) == RewriteFrom(Keep1, KeepHandler, KeepTail1)
  {
    RewriteStartTag(Initial, KeepHandler, "div", [], false, "<div>", KeepTail1);
    KeepStep0();
  }

  lemma KeepMove1()
    ensures RewriteFrom(Keep1, KeepHandler, KeepTail1) == RewriteFrom(Keep2, KeepHandler, KeepTail2)
  {
    RewriteStartTag(Keep1, KeepHandler, "span", [], false, "<span>", KeepTail2);
    KeepStep1();
  }

  lemma KeepMove2()
    ensures RewriteFrom(Keep2, KeepHandler, KeepTail2) == RewriteFrom(Keep3, KeepHandler, KeepTail3)
  {
    RewriteText(Keep2, KeepHandler, "42", KeepTail3);
    KeepStep2();
  }

  lemma KeepMove3()
    ensures RewriteFrom(Keep3, KeepHandler, KeepTail3) == RewriteFrom(Keep4, KeepHandler, KeepTail4)
  {
    RewriteStartTag(Keep3, KeepHandler, "h2", [], false, "<h2>", KeepTail4);
    KeepStep3();
    KeepNext3();
  }

  lemma KeepMove4()
    ensures RewriteFrom(Keep4, KeepHandler, KeepTail4) == RewriteFrom(Keep5, KeepHandler, KeepTail5)
  {
    RewriteText(Keep4, KeepHandler, "Hello1", KeepTail5);
    KeepStep4();
  }

  lemma KeepMove5()
    ensures RewriteFrom(Keep5, KeepHandler, KeepTail5) == RewriteFrom(Keep6, KeepHandler, KeepTail6)
  {
    RewriteEndTag(Keep5, KeepHandler, "h2", "</h2>", KeepTail6);
    KeepStep5();
    KeepNext5();
  }

  lemma KeepMove6()
    ensures RewriteFrom(Keep6, KeepHandler, KeepTail6) == RewriteFrom(Keep7, KeepHandler, KeepTail7)
  {
    RewriteEndTag(Keep6, KeepHandler, "span", "</span>", KeepTail7);
    KeepStep6();
    KeepNext6();
  }

  lemma KeepMove7()
    ensures RewriteFrom(Keep7, KeepHandler, KeepTail7) == RewriteFrom(Keep8, KeepHandler, KeepTail8)
  {
    RewriteEndTag(Keep7, KeepHandler, "div", "</div>", KeepTail8);
    KeepStep7();
    KeepNext7();
  }

  lemma KeepMove8()
    ensures RewriteFrom(Keep8, KeepHandler, KeepTail8) == RewriteFrom(Keep9, KeepHandler, KeepTail9)
  {
    RewriteStartTag(Keep8, KeepHandler, "h1", [], false, "<h1>", KeepTail9);
    KeepStep8();
  }

  lemma KeepMove9()
    ensures RewriteFrom(Keep9, KeepHandler, KeepTail9) == RewriteFrom(Keep10, KeepHandler, KeepTail10)
  {
    RewriteText(Keep9, KeepHandler, "Hello", KeepTail10);
    KeepStep9();
  }

  lemma KeepMove10()
    ensures RewriteFrom(Keep10, KeepHandler, KeepTail10) == RewriteFrom(Keep11, KeepHandler, KeepTail11)
  {
    RewriteEndTag(Keep10, KeepHandler, "h1", "</h1>", KeepTail11);
    KeepStep10();
    KeepNext10();
  }

  lemma KeepMove11()
    ensures RewriteFrom(Keep11, KeepHandler, KeepTail11) == RewriteFrom(Keep12, KeepHandler, KeepTail12)
  {
    RewriteStartTag(Keep11, KeepHandler, "h2", [], false, "<h2>", KeepTail12);
    KeepStep11();
    KeepNext11();
  }

  lemma KeepMove12()
    ensures RewriteFrom(Keep12, KeepHandler, KeepTail12) == RewriteFrom(Keep13, KeepHandler, KeepTail13)
  {
    RewriteText(Keep12, KeepHandler, "Hello2", KeepTail13);
    KeepStep12();
  }

  lemma KeepMove13()
    ensures RewriteFrom(Keep13, KeepHandler, KeepTail13) == Keep14
  {
    RewriteEndTag(Keep13, KeepHandler, "h2", "</h2>", KeepTail14);
    KeepStep13();
    KeepNext13();
  }

  /** The tokens are those of the input `<div><span>42<h2>Hello1</h2></span></div><h1>Hello</h1><h2>Hello2</h2>`. */
  lemma KeepSource()
    ensures Source(KeepTokens) == "<div>" + "<span>" + "42" + "<h2>" + "Hello1" + "</h2>" + "</span>" + "</div>"
            + "<h1>" + "Hello" + "</h1>" + "<h2>" + "Hello2" + "</h2>"
  {
    SourceCons(StartTagToken("div", [], false, "<div>"), KeepTail1);
    SourceCons(StartTagToken("span", [], false, "<span>"), KeepTail2);
    AppendAssociates("<div>", "<span>", Source(KeepTail2));
    SourceCons(TextToken("42"), KeepTail3);
    AppendAssociates("<div>" + "<span>", "42", Source(KeepTail3));
    SourceCons(StartTagToken("h2", [], false, "<h2>"), KeepTail4);
    AppendAssociates("<div>" + "<span>" + "42", "<h2>", Source(KeepTail4));
    SourceCons(TextToken("Hello1"), KeepTail5);
    AppendAssociates("<div>" + "<span>" + "42" + "<h2>", "Hello1", Source(KeepTail5));
    SourceCons(EndTagToken("h2", "</h2>"), KeepTail6);
    AppendAssociates("<div>" + "<span>" + "42" + "<h2>" + "Hello1", "</h2>", Source(KeepTail6));
    SourceCons(EndTagToken("span", "</span>"), KeepTail7);
    AppendAssociates("<div>" + "<span>" + "42" + "<h2>" + "Hello1" + "</h2>", "</span>", Source(KeepTail7));
    SourceCons(EndTagToken("div", "</div>"), KeepTail8);
    AppendAssociates("<div>" + "<span>" + "42" + "<h2>" + "Hello1" + "</h2>" + "</span>", "</div>", Source(KeepTail8));
    SourceCons(StartTagToken("h1", [], false, "<h1>"), KeepTail9);
    AppendAssociates("<div>" + "<span>" + "42" + "<h2>" + "Hello1" + "</h2>" + "</span>" + "</div>", "<h1>", Source(KeepTail9));
    SourceCons(TextToken("Hello"), KeepTail10);
    AppendAssociates("<div>" + "<span>" + "42" + "<h2>" + "Hello1" + "</h2>" + "</span>" + "</div>" + "<h1>", "Hello", Source(KeepTail10));
    SourceCons(EndTagToken("h1", "</h1>"), KeepTail11);
    AppendAssociates("<div>" + "<span>" + "42" + "<h2>" + "Hello1" + "</h2>" + "</span>" + "</div>" + "<h1>" + "Hello", "</h1>", Source(KeepTail11));
    SourceCons(StartTagToken("h2", [], false, "<h2>"), KeepTail12);
    AppendAssociates("<div>" + "<span>" + "42" + "<h2>" + "Hello1" + "</h2>" + "</span>" + "</div>" + "<h1>" + "Hello" + "</h1>", "<h2>", Source(KeepTail12));
    SourceCons(TextToken("Hello2"), KeepTail13);
    AppendAssociates("<div>" + "<span>" + "42" + "<h2>" + "Hello1" + "</h2>" + "</span>" + "</div>" + "<h1>" + "Hello" + "</h1>" + "<h2>", "Hello2", Source(KeepTail13));
    SourceCons(EndTagToken("h2", "</h2>"), KeepTail14);
    AppendAssociates("<div>" + "<span>" + "42" + "<h2>" + "Hello1" + "</h2>" + "</span>" + "</div>" + "<h1>" + "Hello" + "</h1>" + "<h2>" + "Hello2", "</h2>", Source(KeepTail14));
    assert Source(KeepTail14) == [];
  }

  /** `remove_and_keep_content` drops the `h2` tags, nested or not, and
      keeps their text. */
  lemma RemoveAndKeepContentScenario()
    ensures Source(KeepTokens) == "<div>" + "<span>" + "42" + "<h2>" + "Hello1" + "</h2>" + "</span>" + "</div>"
            + "<h1>" + "Hello" + "</h1>" + "<h2>" + "Hello2" + "</h2>"
    ensures var r := RewriteDocument(KeepHandler, KeepTokens);
            |r.seen| == 2 && !IsRemoved(r.seen[0])
            && |r.runs| == 2 && IsRemoved(r.runs[0].element)
            && r.out == "<div>" + "<span>" + "42" + "Hello1" + "</span>" + "</div>" + "<h1>" + "Hello" + "</h1>" + "Hello2"
  {
    KeepMove0(); KeepMove1(); KeepMove2(); KeepMove3(); KeepMove4(); KeepMove5(); KeepMove6();
    KeepMove7(); KeepMove8(); KeepMove9(); KeepMove10(); KeepMove11(); KeepMove12(); KeepMove13();
    KeepSource();
  }

  // ---------------------------------------------------------------------
  // Namespaces: handler on `script`, inputs `<script></script>` and
  // `<svg><script></script></svg>`

  const ScriptHandler := Handler(LocalName("script"), ReadOnlyScript)
  const HtmlScript := NewElement("script", HtmlNamespace, [], false, "<script>")
  const HtmlScriptRun := HandlerRun(HtmlScript, [])
  const SvgRoot := Frame("svg", NewElement("svg", SvgNamespace, [], false, "<svg>"), SvgNamespace, false)
  const SvgScript := NewElement("script", SvgNamespace, [], false, "<script>")
  const SvgScriptRun := HandlerRun(SvgScript, [])

  /** `script` and `svg` are no HTML integration points inside SVG. */
  lemma SvgContentNames()
    ensures ContentNamespace(SvgNamespace, "svg", []) == SvgNamespace
    ensures ContentNamespace(SvgNamespace, "script", []) == SvgNamespace
  {
  }

  const ScriptDocTail2: seq<Token> := []
  const ScriptDocTail1 := [EndTagToken("script", "</script>")] + ScriptDocTail2
  const ScriptDocTokens := [StartTagToken("script", [], false, "<script>")] + ScriptDocTail1

  const ScriptDoc1 := State([Frame("script", HtmlScript, HtmlNamespace, false)], 1, [HtmlScript], [HtmlScriptRun], "<script>")
  const ScriptDoc2 := State([], 1, [HtmlScript], [HtmlScriptRun], ScriptDoc1.out + "</script>")

  lemma ScriptDocStep0()
    ensures OnStartTag(Initial, ScriptHandler, "script", [], false, "<script>") == AfterHandler(Initial, "script", HtmlScript, HtmlScriptRun)
  {
    ScenarioNames();
    ScriptSelector();
    assert RunHandler(HtmlScript, ReadOnlyScript(0)) == HtmlScriptRun;
    MatchedStartTag(Initial, ScriptHandler, "script", [], false, "<script>", HtmlScript, HtmlScriptRun);
  }

  lemma ScriptDocNext0()
    ensures AfterHandler(Initial, "script", HtmlScript, HtmlScriptRun) == ScriptDoc1
  {
    ScenarioNames();
    UntouchedIsVerbatimHere(HtmlScript, "");
  }

  lemma ScriptDocStep1()
    ensures OnEndTag(ScriptDoc1, "script", "</script>") == ClosedAt(ScriptDoc1, 0, "</script>")
  {
    CloseAt(ScriptDoc1, "script", "</script>", 0);
  }

  lemma ScriptDocNext1()
    ensures ClosedAt(ScriptDoc1, 0, "</script>") == ScriptDoc2
  {
    assert ScriptDoc1.stack[..0] == [];
    UntouchedIsVerbatimHere(ScriptDoc1.stack[0].element, "</script>");
  }

  lemma ScriptDocMove0()
    ensures RewriteFrom(Initial, ScriptHandler, ScriptDocTokens) == RewriteFrom(ScriptDoc1, ScriptHandler, ScriptDocTail1)
  {
    RewriteStartTag(Initial, ScriptHandler, "script", [], false, "<script>", ScriptDocTail1);
    ScriptDocStep0();
    ScriptDocNext0();
  }

  lemma ScriptDocMove1()
    ensures RewriteFrom(ScriptDoc1, ScriptHandler, ScriptDocTail1) == ScriptDoc2
  {
    RewriteEndTag(ScriptDoc1, ScriptHandler, "script", "</script>", ScriptDocTail2);
    ScriptDocStep1();
    ScriptDocNext1();
  }

  /** The tokens are those of the input `<script></script>`. */
  lemma ScriptDocSource()
    ensures Source(ScriptDocTokens) == "<script>" + "</script>"
  {
    SourceCons(StartTagToken("script", [], false, "<script>"), ScriptDocTail1);
    SourceCons(EndTagToken("script", "</script>"), ScriptDocTail2);
    AppendAssociates("<script>", "</script>", Source(ScriptDocTail2));
    assert Source(ScriptDocTail2) == [];
  }

  /** A top-level `script` is in the HTML namespace. */
  lemma HtmlNamespaceScenario()
    ensures Source(ScriptDocTokens) == "<script>" + "</script>"
    ensures var r := RewriteDocument(ScriptHandler, ScriptDocTokens);
            |r.seen| == 1 && ElementNamespaceUri(r.seen[0]) == "http://www.w3.org/1999/xhtml"
  {
    ScriptDocMove0(); ScriptDocMove1();
    ScriptDocSource();
  }

  const SvgDocTail4: seq<Token> := []
  const SvgDocTail3 := [EndTagToken("svg", "</svg>")] + SvgDocTail4
  const SvgDocTail2 := [EndTagToken("script", "</script>")] + SvgDocTail3
  const SvgDocTail1 := [StartTagToken("script", [], false, "<script>")] + SvgDocTail2
  const SvgDocTokens := [StartTagToken("svg", [], false, "<svg>")] + SvgDocTail1

  const SvgDoc1 := State([SvgRoot], 0, [], [], "<svg>")
  const SvgDoc2 := State([SvgRoot, Frame("script", SvgScript, SvgNamespace, false)], 1, [SvgScript], [SvgScriptRun], SvgDoc1.out + "<script>")
  const SvgDoc3 := State([SvgRoot], 1, [SvgScript], [SvgScriptRun], SvgDoc2.out + "</script>")
  const SvgDoc4 := State([], 1, [SvgScript], [SvgScriptRun], SvgDoc3.out + "</svg>")

  lemma SvgDocStep0()
    ensures OnStartTag(Initial, ScriptHandler, "svg", [], false, "<svg>") == SvgDoc1
  {
    ScenarioNames();
    ScriptSelector();
    SvgContentNames();
    UnmatchedStartTag(Initial, ScriptHandler, "svg", [], false, "<svg>");
  }

  lemma SvgDocStep1()
    ensures OnStartTag(SvgDoc1, ScriptHandler, "script", [], false, "<script>") == AfterHandler(SvgDoc1, "script", SvgScript, SvgScriptRun)
  {
    ScenarioNames();
    ScriptSelector();
    SvgContentNames();
    assert ParentNamespace(SvgDoc1.stack) == SvgNamespace;
    assert ElementNamespace(SvgNamespace, "script") == SvgNamespace;
    assert RunHandler(SvgScript, ReadOnlyScript(1)) == SvgScriptRun;
    MatchedStartTag(SvgDoc1, ScriptHandler, "script", [], false, "<script>", SvgScript, SvgScriptRun);
  }

  lemma SvgDocNext1()
    ensures AfterHandler(SvgDoc1, "script", SvgScript, SvgScriptRun) == SvgDoc2
  {
    assert SvgScript.canHaveContent by { ScenarioNames(); }
    assert ContentNamespace(SvgScript.ns, "script", SvgScript.attributes) == SvgNamespace by { SvgContentNames(); }
    assert StartOutput(SvgScriptRun.element) == "<script>" by { UntouchedIsVerbatimHere(SvgScript, ""); }
  }

  lemma SvgDocStep2()
    ensures OnEndTag(SvgDoc2, "script", "</script>") == ClosedAt(SvgDoc2, 1, "</script>")
  {
    CloseAt(SvgDoc2, "script", "</script>", 1);
  }

  lemma SvgDocNext2()
    ensures ClosedAt(SvgDoc2, 1, "</script>") == SvgDoc3
  {
    assert SvgDoc2.stack[..1] == [SvgRoot];
    UntouchedIsVerbatimHere(SvgDoc2.stack[1].element, "</script>");
  }

  lemma SvgDocStep3()
    ensures OnEndTag(SvgDoc3, "svg", "</svg>") == ClosedAt(SvgDoc3, 0, "</svg>")
  {
    CloseAt(SvgDoc3, "svg", "</svg>", 0);
  }

  lemma SvgDocNext3()
    ensures ClosedAt(SvgDoc3, 0, "</svg>") == SvgDoc4
  {
    assert SvgDoc3.stack[..0] == [];
    UntouchedIsVerbatimHere(SvgDoc3.stack[0].element, "</svg>");
  }

  lemma SvgDocMove0()
    ensures RewriteFrom(Initial, ScriptHandler, SvgDocTokens) == RewriteFrom(SvgDoc1, ScriptHandler, SvgDocTail1)
  {
    RewriteStartTag(Initial, ScriptHandler, "svg", [], false, "<svg>", SvgDocTail1);
    SvgDocStep0();
  }

  lemma SvgDocMove1()
    ensures RewriteFrom(SvgDoc1, ScriptHandler, SvgDocTail1) == RewriteFrom(SvgDoc2, ScriptHandler, SvgDocTail2)
  {
    RewriteStartTag(SvgDoc1, ScriptHandler, "script", [], false, "<script>", SvgDocTail2);
    SvgDocStep1();
    SvgDocNext1();
  }

  lemma SvgDocMove2()
    ensures RewriteFrom(SvgDoc2, ScriptHandler, SvgDocTail2) == RewriteFrom(SvgDoc3, ScriptHandler, SvgDocTail3)
  {
    RewriteEndTag(SvgDoc2, ScriptHandler, "script", "</script>", SvgDocTail3);
    SvgDocStep2();
    SvgDocNext2();
  }

  lemma SvgDocMove3()
    ensures RewriteFrom(SvgDoc3, ScriptHandler, SvgDocTail3) == SvgDoc4
  {
    RewriteEndTag(SvgDoc3, ScriptHandler, "svg", "</svg>", SvgDocTail4);
    SvgDocStep3();
    SvgDocNext3();
  }

  /** The tokens are those of the input `<svg><script></script></svg>`. */
  lemma SvgDocSource()
    ensures Source(SvgDocTokens) == "<svg>" + "<script>" + "</script>" + "</svg>"
  {
    SourceCons(StartTagToken("svg", [], false, "<svg>"), SvgDocTail1);
    SourceCons(StartTagToken("script", [], false, "<script>"), SvgDocTail2);
    AppendAssociates("<svg>", "<script>", Source(SvgDocTail2));
    SourceCons(EndTagToken("script", "</script>"), SvgDocTail3);
    AppendAssociates("<svg>" + "<script>", "</script>", Source(SvgDocTail3));
    SourceCons(EndTagToken("svg", "</svg>"), SvgDocTail4);
    AppendAssociates("<svg>" + "<script>" + "</script>", "</svg>", Source(SvgDocTail4));
    assert Source(SvgDocTail4) == [];
  }

  /** A `script` inside `svg` is in the SVG namespace. */
  lemma SvgNamespaceScenario()
    ensures Source(SvgDocTokens) == "<svg>" + "<script>" + "</script>" + "</svg>"
    ensures var r := RewriteDocument(ScriptHandler, SvgDocTokens);
            |r.seen| == 1 && ElementNamespaceUri(r.seen[0]) == "http://www.w3.org/2000/svg"
  {
    SvgDocMove0(); SvgDocMove1(); SvgDocMove2(); SvgDocMove3();
    SvgDocSource();
  }

  // ---------------------------------------------------------------------
  // End-tag handlers: handler on `div`, input `<div>42</div><div>some data</div>`

  const ClosingTail6: seq<Token> := []
  const ClosingTail5 := [EndTagToken("div", "</div>")] + ClosingTail6
  const ClosingTail4 := [TextToken("some data")] + ClosingTail5
  const ClosingTail3 := [StartTagToken("div", [], false, "<div>")] + ClosingTail4
  const ClosingTail2 := [EndTagToken("div", "</div>")] + ClosingTail3
  const ClosingTail1 := [TextToken("42")] + ClosingTail2
  const ClosingTokens := [StartTagToken("div", [], false, "<div>")] + ClosingTail1

  /** The end-tag handler of the first `div`: text before, HTML after, and a rename. */
  const FirstEndTagHandler: EndTagHandler :=
    [EndInsertBefore("!", Text), EndInsertAfter("<span>extra data</span>", Html), EndNameSet("div1")]

  /** Every handler run clears the end-tag handlers and registers one; it
      edits the first end tag and removes the later ones. */
  function EndTagScript(k: nat): seq<ElementCommand>
  {
    [EndTagHandlersClear, EndTagHandlerAdd(if k == 0 then FirstEndTagHandler else [EndRemove])]
  }

  const EndTagHandlerOfDiv := Handler(LocalName("div"), EndTagScript)
  const EndTagGiven := NewElement("div", HtmlNamespace, [], false, "<div>")
  const FirstDiv := EndTagGiven.(endTagHandlers := [FirstEndTagHandler])
  const SecondDiv := EndTagGiven.(endTagHandlers := [[EndRemove]])
  const FirstDivRun := HandlerRun(FirstDiv, [])
  const SecondDivRun := HandlerRun(SecondDiv, [])

  lemma FirstDivRuns()
    ensures RunHandler(EndTagGiven, EndTagScript(0)) == FirstDivRun
  {
    ScenarioNames();
    var cmds := EndTagScript(0);
    assert EndTagGiven.endTagHandlers == [] && EndTagGiven.canHaveContent;
    assert ClearEndTagHandlers(EndTagGiven) == EndTagGiven;
    assert AddEndTagHandler(EndTagGiven, FirstEndTagHandler) == Success(FirstDiv) by {
      assert [] + [FirstEndTagHandler] == [FirstEndTagHandler];
    }
    assert cmds[1] == EndTagHandlerAdd(FirstEndTagHandler);
    RunHandlerSucceeds(EndTagGiven, cmds, 0, EndTagGiven);
    RunHandlerSucceeds(EndTagGiven, cmds, 1, FirstDiv);
    assert cmds[0..] == cmds && cmds[2..] == [];
  }

  lemma SecondDivRuns()
    ensures RunHandler(EndTagGiven, EndTagScript(1)) == SecondDivRun
  {
    ScenarioNames();
    var cmds := EndTagScript(1);
    assert EndTagGiven.endTagHandlers == [] && EndTagGiven.canHaveContent;
    assert ClearEndTagHandlers(EndTagGiven) == EndTagGiven;
    assert AddEndTagHandler(EndTagGiven, [EndRemove]) == Success(SecondDiv) by {
      assert [] + [[EndRemove]] == [[EndRemove]];
    }
    assert cmds[1] == EndTagHandlerAdd([EndRemove]);
    RunHandlerSucceeds(EndTagGiven, cmds, 0, EndTagGiven);
    RunHandlerSucceeds(EndTagGiven, cmds, 1, SecondDiv);
    assert cmds[0..] == cmds && cmds[2..] == [];
  }

  /** `before("!", text)` on an end tag with nothing queued before it. */
  lemma BangBefore(t: EndTag)
    requires t.before == []
    ensures ApplyEndTagCommand(t, EndInsertBefore("!", Text)) == Success(t.(before := ["!"]))
  {
    assert EscapeText("!") == "!";
    assert t.before + ["!"] == ["!"];
  }

  /** `after(..., html)` on an end tag with nothing queued after it. */
  lemma ExtraDataAfter(t: EndTag)
    requires t.after == []
    ensures ApplyEndTagCommand(t, EndInsertAfter("<span>extra data</span>", Html))
            == Success(t.(after := ["<span>extra data</span>"]))
  {
    assert t.after + ["<span>extra data</span>"] == ["<span>extra data</span>"];
  }

  /** `set_name("div1")` is accepted. */
  lemma RenameToDiv1(t: EndTag)
    ensures ApplyEndTagCommand(t, EndNameSet("div1")) == Success(t.(name := "div1", modified := true))
  {
  }

  /** The first end tag's handler sees the name `div`, and leaves the tag
      renamed to `div1` with `!` before it and the HTML after it. */
  lemma FirstEndTagRun()
    ensures EndTagFor(FirstDiv, "</div>").name == "div"
    ensures RunEndTagHandlers(EndTagFor(FirstDiv, "</div>"), FirstDiv.endTagHandlers)
            == EndTag("div1", "</div>", true, ["!"], ["<span>extra data</span>"], false)
  {
    var t := EndTagFor(FirstDiv, "</div>");
    var before := EndInsertBefore("!", Text);
    var after := EndInsertAfter("<span>extra data</span>", Html);
    var rename := EndNameSet("div1");
    var t1 := t.(before := ["!"]);
    var t2 := t1.(after := ["<span>extra data</span>"]);
    var t3 := t2.(name := "div1", modified := true);
    assert FirstDiv.endTagHandlers == [FirstEndTagHandler];
    assert [before] + [after, rename] == FirstEndTagHandler;
    assert [[before] + [after, rename]] + [] == [FirstEndTagHandler];
    BangBefore(t);
    EndTagEditSucceeds(t, before, [after, rename], [], t1);
    assert [after, rename] == [after] + [rename];
    ExtraDataAfter(t1);
    EndTagEditSucceeds(t1, after, [rename], [], t2);
    assert [rename] == [rename] + [];
    RenameToDiv1(t2);
    EndTagEditSucceeds(t2, rename, [], [], t3);
    EndTagHandlerDone(t3, []);
  }

  /** The second end tag's handler removes it, so it renders as nothing. */
  lemma SecondEndTagRun()
    ensures EndOutput(SecondDiv, RunEndTagHandlers(EndTagFor(SecondDiv, "</div>"), SecondDiv.endTagHandlers)) == ""
  {
    var t := EndTagFor(SecondDiv, "</div>");
    assert SecondDiv.endTagHandlers == [[EndRemove]];
    assert [EndRemove] + [] == [EndRemove];
    assert [[EndRemove] + []] + [] == [[EndRemove]];
    EndTagEditSucceeds(t, EndRemove, [], [], t.(removed := true));
    EndTagHandlerDone(t.(removed := true), []);
  }

  /** Both `div`s keep their start tags. */
  lemma ClosingStartOutputs()
    ensures StartOutput(FirstDiv) == "<div>" && StartOutput(SecondDiv) == "<div>"
  {
    ScenarioNames();
    StartOutputIsStartTag(FirstDiv);
    StartOutputIsStartTag(SecondDiv);
  }

  /** The first `div` ends in the edited end tag. */
  lemma FirstDivEnd()
    ensures EndOutput(FirstDiv, RunEndTagHandlers(EndTagFor(FirstDiv, "</div>"), FirstDiv.endTagHandlers))
            == "!" + "</" + "div1" + ">" + "<span>extra data</span>"
  {
    FirstEndTagRun();
    FirstDivEndText();
  }

  lemma FirstDivEndText()
    ensures EndOutput(FirstDiv, EndTag("div1", "</div>", true, ["!"], ["<span>extra data</span>"], false))
            == "!" + "</" + "div1" + ">" + "<span>extra data</span>"
  {
    var t := EndTag("div1", "</div>", true, ["!"], ["<span>extra data</span>"], false);
    assert InteriorKept(FirstDiv) && !FirstDiv.tagsRemoved;
    assert FirstDiv.append == [] && FirstDiv.after == [];
    EndOutputAroundRenamed(FirstDiv, t);
  }

  const Closing1 := State([Frame("div", FirstDiv, HtmlNamespace, false)], 1, [EndTagGiven], [FirstDivRun], "<div>")
  const Closing2 := State([Frame("div", FirstDiv, HtmlNamespace, false)], 1, [EndTagGiven], [FirstDivRun], Closing1.out + "42")
  const Closing3 := State([], 1, [EndTagGiven], [FirstDivRun], Closing2.out + "!" + "</" + "div1" + ">" + "<span>extra data</span>")
  const Closing4 := State([Frame("div", SecondDiv, HtmlNamespace, false)], 2, [EndTagGiven, EndTagGiven], [FirstDivRun, SecondDivRun],
          Closing3.out + "<div>")
  const Closing5 := State([Frame("div", SecondDiv, HtmlNamespace, false)], 2, [EndTagGiven, EndTagGiven], [FirstDivRun, SecondDivRun],
          Closing4.out + "some data")
  const Closing6 := State([], 2, [EndTagGiven, EndTagGiven], [FirstDivRun, SecondDivRun], Closing5.out)

  lemma ClosingStep0()
    ensures OnStartTag(Initial, EndTagHandlerOfDiv, "div", [], false, "<div>") == AfterHandler(Initial, "div", EndTagGiven, FirstDivRun)
  {
    ScenarioNames();
    DivSelector();
    FirstDivRuns();
    MatchedStartTag(Initial, EndTagHandlerOfDiv, "div", [], false, "<div>", EndTagGiven, FirstDivRun);
  }

  lemma ClosingNext0()
    ensures AfterHandler(Initial, "div", EndTagGiven, FirstDivRun) == Closing1
  {
    ScenarioNames();
    ClosingStartOutputs();
  }

  lemma ClosingStep1()
    ensures OnText(Closing1, "42") == Closing2
  {
  }

  lemma ClosingStep2()
    ensures OnEndTag(Closing2, "div", "</div>") == ClosedAt(Closing2, 0, "</div>")
  {
    CloseAt(Closing2, "div", "</div>", 0);
  }

  lemma ClosingNext2()
    ensures ClosedAt(Closing2, 0, "</div>") == Closing3
  {
    assert Closing2.stack[..0] == [];
    FirstDivEnd();
  }

  lemma ClosingStep3()
    ensures OnStartTag(Closing3, EndTagHandlerOfDiv, "div", [], false, "<div>") == AfterHandler(Closing3, "div", EndTagGiven, SecondDivRun)
  {
    ScenarioNames();
    DivSelector();
    SecondDivRuns();
    MatchedStartTag(Closing3, EndTagHandlerOfDiv, "div", [], false, "<div>", EndTagGiven, SecondDivRun);
  }

  lemma ClosingNext3()
    ensures AfterHandler(Closing3, "div", EndTagGiven, SecondDivRun) == Closing4
  {
    ScenarioNames();
    ClosingStartOutputs();
  }

  lemma ClosingStep4()
    ensures OnText(Closing4, "some data") == Closing5
  {
  }

  lemma ClosingStep5()
    ensures OnEndTag(Closing5, "div", "</div>") == ClosedAt(Closing5, 0, "</div>")
  {
    CloseAt(Closing5, "div", "</div>", 0);
  }

  lemma ClosingNext5()
    ensures ClosedAt(Closing5, 0, "</div>") == Closing6
  {
    assert Closing5.stack[..0] == [];
    SecondEndTagRun();
  }

  lemma ClosingMove0()
    ensures RewriteFrom(Initial, EndTagHandlerOfDiv, ClosingTokens) == RewriteFrom(Closing1, EndTagHandlerOfDiv, ClosingTail1)
  {
    RewriteStartTag(Initial, EndTagHandlerOfDiv, "div", [], false, "<div>", ClosingTail1);
    ClosingStep0();
    ClosingNext0();
  }

  lemma ClosingMove1()
    ensures RewriteFrom(Closing1, EndTagHandlerOfDiv, ClosingTail1) == RewriteFrom(Closing2, EndTagHandlerOfDiv, ClosingTail2)
  {
    RewriteText(Closing1, EndTagHandlerOfDiv, "42", ClosingTail2);
    ClosingStep1();
  }

  lemma ClosingMove2()
    ensures RewriteFrom(Closing2, EndTagHandlerOfDiv, ClosingTail2) == RewriteFrom(Closing3, EndTagHandlerOfDiv, ClosingTail3)
  {
    RewriteEndTag(Closing2, EndTagHandlerOfDiv, "div", "</div>", ClosingTail3);
    ClosingStep2();
    ClosingNext2();
  }

  lemma ClosingMove3()
    ensures RewriteFrom(Closing3, EndTagHandlerOfDiv, ClosingTail3) == RewriteFrom(Closing4, EndTagHandlerOfDiv, ClosingTail4)
  {
    RewriteStartTag(Closing3, EndTagHandlerOfDiv, "div", [], false, "<div>", ClosingTail4);
    ClosingStep3();
    ClosingNext3();
  }

  lemma ClosingMove4()
    ensures RewriteFrom(Closing4, EndTagHandlerOfDiv, ClosingTail4) == RewriteFrom(Closing5, EndTagHandlerOfDiv, ClosingTail5)
  {
    RewriteText(Closing4, EndTagHandlerOfDiv, "some data", ClosingTail5);
    ClosingStep4();
  }

  lemma ClosingMove5()
    ensures RewriteFrom(Closing5, EndTagHandlerOfDiv, ClosingTail5) == Closing6
  {
    RewriteEndTag(Closing5, EndTagHandlerOfDiv, "div", "</div>", ClosingTail6);
    ClosingStep5();
    ClosingNext5();
  }

  /** The tokens are those of the input `<div>42</div><div>some data</div>`. */
  lemma ClosingSource()
    ensures Source(ClosingTokens) == "<div>" + "42" + "</div>" + "<div>" + "some data" + "</div>"
  {
    SourceCons(StartTagToken("div", [], false, "<div>"), ClosingTail1);
    SourceCons(TextToken("42"), ClosingTail2);
    AppendAssociates("<div>", "42", Source(ClosingTail2));
    SourceCons(EndTagToken("div", "</div>"), ClosingTail3);
    AppendAssociates("<div>" + "42", "</div>", Source(ClosingTail3));
    SourceCons(StartTagToken("div", [], false, "<div>"), ClosingTail4);
    AppendAssociates("<div>" + "42" + "</div>", "<div>", Source(ClosingTail4));
    SourceCons(TextToken("some data"), ClosingTail5);
    AppendAssociates("<div>" + "42" + "</div>" + "<div>", "some data", Source(ClosingTail5));
    SourceCons(EndTagToken("div", "</div>"), ClosingTail6);
    AppendAssociates("<div>" + "42" + "</div>" + "<div>" + "some data", "</div>", Source(ClosingTail6));
    assert Source(ClosingTail6) == [];
  }

  /** The first end tag gets `!` before it, is renamed to `div1` and gets
      HTML after it; the second is removed. */
  lemma EndTagScenario()
    ensures Source(ClosingTokens) == "<div>" + "42" + "</div>" + "<div>" + "some data" + "</div>"
    ensures var r := RewriteDocument(EndTagHandlerOfDiv, ClosingTokens);
            |r.runs| == 2 && r.runs[0].errors == [] && r.runs[1].errors == []
            && EndTagFor(r.runs[0].element, "</div>").name == "div"
            && RunEndTagHandlers(EndTagFor(r.runs[0].element, "</div>"), r.runs[0].element.endTagHandlers).name == "div1"
            && r.out == "<div>" + "42" + "!" + "</" + "div1" + ">" + "<span>extra data</span>" + "<div>" + "some data"
  {
    ClosingMove0(); ClosingMove1(); ClosingMove2(); ClosingMove3(); ClosingMove4(); ClosingMove5();
    FirstEndTagRun();
    ClosingSource();
  }

  // ---------------------------------------------------------------------
  // Void elements: handler on `br`, input `<br>`

  const BrTail1: seq<Token> := []
  const BrTokens := [StartTagToken("br", [], false, "<br>")] + BrTail1

  function NoEndTagScript(k: nat): seq<ElementCommand>
  {
    [EndTagHandlerAdd([])]
  }

  const BrHandler := Handler(LocalName("br"), NoEndTagScript)
  const BrGiven := NewElement("br", HtmlNamespace, [], false, "<br>")
  const BrRun := HandlerRun(BrGiven, [NoEndTag])

  lemma BrRuns()
    ensures RunHandler(BrGiven, NoEndTagScript(0)) == BrRun
  {
    ScenarioNames();
    var cmds := NoEndTagScript(0);
    RunHandlerFails(BrGiven, cmds, 0, NoEndTag);
    assert cmds[0..] == cmds && cmds[1..] == [];
  }

  const Br1 := State([], 1, [BrGiven], [BrRun], "<br>")

  lemma BrStep0()
    ensures OnStartTag(Initial, BrHandler, "br", [], false, "<br>") == AfterHandler(Initial, "br", BrGiven, BrRun)
  {
    ScenarioNames();
    BrRuns();
    MatchedStartTag(Initial, BrHandler, "br", [], false, "<br>", BrGiven, BrRun);
  }

  lemma BrNext0()
    ensures AfterHandler(Initial, "br", BrGiven, BrRun) == Br1
  {
    ScenarioNames();
    UntouchedIsVerbatimHere(BrGiven, "");
  }

  lemma BrMove0()
    ensures RewriteFrom(Initial, BrHandler, BrTokens) == Br1
  {
    RewriteStartTag(Initial, BrHandler, "br", [], false, "<br>", BrTail1);
    BrStep0();
    BrNext0();
  }

  /** Registering an end-tag handler on `br` fails with "No end tag." and
      the output stays `<br>`. */
  lemma NoEndTagScenario()
    ensures Source(BrTokens) == "<br>"
    ensures var r := RewriteDocument(BrHandler, BrTokens);
            |r.runs| == 1 && r.runs[0].errors == [NoEndTag]
            && Message(r.runs[0].errors[0]) == "No end tag."
            && r.out == "<br>"
  {
    BrMove0();
    SourceCons(StartTagToken("br", [], false, "<br>"), BrTail1);
  }
}
