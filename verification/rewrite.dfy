/** Rendering of a flat token list through one element content handler.

    The tokens are the tokenizer's output, each carrying its source text.
    A start tag matched by the handler's selector gets an element handle,
    the handler's edits are applied to it, and its start and end tags are
    replaced by `StartOutput` and `EndOutput`; everything else is copied
    verbatim, unless it lies inside an element whose content was removed. */
module Rewrite {
  import opened Base
  import opened ElementApi
  import opened HtmlText

  /** `name` is the tag name as the tokenizer reports it (lowercase);
      `raw` is the token's source text. */
  datatype Token =
    | StartTagToken(name: string, attributes: seq<Attribute>, selfClosing: bool, raw: string)
    | EndTagToken(name: string, raw: string)
    | TextToken(raw: string)

  /** The input the tokens were read from. */
  function Source(tokens: seq<Token>): string
  {
    if |tokens| == 0 then "" else tokens[0].raw + Source(tokens[1..])
  }

  datatype Selector = AnyElement | LocalName(localName: string)

  predicate Matches(s: Selector, name: string)
  {
    s.AnyElement? || EqualsIgnoreAsciiCase(s.localName, name)
  }

  /** An element content handler: `script(k)` is the edits it makes on its
      k-th invocation (counting from 0). */
  datatype Handler = Handler(selector: Selector, script: nat -> seq<ElementCommand>)

  /** An open element: the name it was opened with, its handle after the
      handler ran, the namespace its children start in, and whether its own
      tags are suppressed because an ancestor's content was removed. */
  datatype Frame = Frame(openName: string, element: Element, contentNs: Namespace, suppressed: bool)

  predicate ChildrenSuppressed(f: Frame)
  {
    f.suppressed || f.element.contentRemoved
  }

  /** The rewriter between tokens: the open elements (innermost last), how
      often the handler ran, the handles it was given, what each run left
      behind, and the output so far. */
  datatype State = State(stack: seq<Frame>, invocations: nat, seen: seq<Element>, runs: seq<HandlerRun>, out: string)

  const Initial: State := State([], 0, [], [], "")

  function ParentNamespace(stack: seq<Frame>): Namespace
  {
    if |stack| == 0 then HtmlNamespace else stack[|stack| - 1].contentNs
  }

  predicate InsideSuppressed(stack: seq<Frame>)
  {
    |stack| > 0 && ChildrenSuppressed(stack[|stack| - 1])
  }

  /** The innermost open element opened as `name`, or -1 if there is none. */
  function FindOpen(stack: seq<Frame>, name: string): (i: int)
    ensures -1 <= i < |stack|
  {
    if |stack| == 0 then -1
    else if stack[|stack| - 1].openName == name then |stack| - 1
    else FindOpen(stack[..|stack| - 1], name)
  }

  /** `FindOpen` finds the innermost element opened under the name. */
  lemma {:induction false} FindOpenIsInnermost(stack: seq<Frame>, name: string)
    ensures var i := FindOpen(stack, name);
            (i >= 0 ==> stack[i].openName == name)
            && forall j :: i < j < |stack| ==> stack[j].openName != name
    decreases |stack|
  {
    if |stack| > 0 && stack[|stack| - 1].openName != name {
      var init := stack[..|stack| - 1];
      FindOpenIsInnermost(init, name);
      var i := FindOpen(stack, name);
      forall j | i < j < |stack|
        ensures stack[j].openName != name
      {
        if j < |stack| - 1 {
          assert stack[j] == init[j];
        }
      }
    }
  }

  function OnText(s: State, text: string): State
  {
    s.(out := s.out + (if InsideSuppressed(s.stack) then "" else text))
  }

  /** Text changes nothing but the output, and is dropped inside removed content. */
  lemma TextFacts(s: State, text: string)
    ensures var r := OnText(s, text);
            r == s.(out := r.out)
            && (InsideSuppressed(s.stack) ==> r.out == s.out)
            && (!InsideSuppressed(s.stack) ==> r.out == s.out + text)
  {
  }

  function OnStartTag(s: State, h: Handler, name: string, attributes: seq<Attribute>, selfClosing: bool, raw: string): State
  {
    var ns := ElementNamespace(ParentNamespace(s.stack), name);
    var given := NewElement(name, ns, attributes, selfClosing, raw);
    var matched := Matches(h.selector, name);
    var run := if matched then RunHandler(given, h.script(s.invocations)) else HandlerRun(given, []);
    var e := run.element;
    var suppressed := InsideSuppressed(s.stack);
    State(
      if given.canHaveContent then s.stack + [Frame(name, e, ContentNamespace(ns, name, attributes), suppressed)] else s.stack,
      if matched then s.invocations + 1 else s.invocations,
      if matched then s.seen + [given] else s.seen,
      if matched then s.runs + [run] else s.runs,
      s.out + (if suppressed then "" else StartOutput(e)))
  }

  /** A start tag gives the handler one more run exactly when the selector
      matches it, with a handle for this very tag; a non-void element is
      pushed, and the output only grows. */
  lemma StartTagFacts(s: State, h: Handler, name: string, attributes: seq<Attribute>, selfClosing: bool, raw: string)
    ensures var r := OnStartTag(s, h, name, attributes, selfClosing, raw);
            (Matches(h.selector, name) ==> r.invocations == s.invocations + 1 && |r.seen| == |s.seen| + 1
                                           && r.seen[..|s.seen|] == s.seen
                                           && r.seen[|s.seen|].name == name && r.seen[|s.seen|].attributes == attributes)
            && (!Matches(h.selector, name) ==> r.invocations == s.invocations && r.seen == s.seen && r.runs == s.runs)
            && |r.out| >= |s.out| && r.out[..|s.out|] == s.out
            && (InsideSuppressed(s.stack) ==> r.out == s.out)
            && (IsVoidElement(name) ==> r.stack == s.stack)
            && (!IsVoidElement(name) ==> |r.stack| == |s.stack| + 1 && r.stack[..|s.stack|] == s.stack
                                         && r.stack[|s.stack|].openName == name)
  {
    var r := OnStartTag(s, h, name, attributes, selfClosing, raw);
    assert r.out[..|s.out|] == s.out;
  }

  /** An end tag closes the innermost element opened under its name (and
      with it any element opened later); an end tag nothing was opened for
      is copied like text. */
  function OnEndTag(s: State, name: string, raw: string): State
  {
    var i := FindOpen(s.stack, name);
    if i < 0 then s.(out := s.out + (if InsideSuppressed(s.stack) then "" else raw))
    else
      var f := s.stack[i];
      var t := RunEndTagHandlers(EndTagFor(f.element, raw), f.element.endTagHandlers);
      s.(stack := s.stack[..i], out := s.out + (if f.suppressed then "" else EndOutput(f.element, t)))
  }

  /** Inside an element whose children are suppressed (by `remove`,
      `replace` or `set_inner_content`, or by an ancestor's), text and start
      tags add nothing to the output. */
  lemma SuppressedChildrenDropped(s: State, h: Handler, t: Token)
    requires InsideSuppressed(s.stack)
    requires !t.EndTagToken?
    ensures Step(s, h, t).out == s.out
    ensures t.StartTagToken? && !IsVoidElement(t.name) ==> InsideSuppressed(Step(s, h, t).stack)
  {
  }

  /** An end tag never runs the handler; it pops back to before the element
      it closes, and the output only grows. */
  lemma EndTagFacts(s: State, name: string, raw: string)
    ensures var r := OnEndTag(s, name, raw);
            r.invocations == s.invocations && r.seen == s.seen && r.runs == s.runs
            && |r.out| >= |s.out| && r.out[..|s.out|] == s.out
            && (FindOpen(s.stack, name) < 0 ==> r.stack == s.stack)
            && (FindOpen(s.stack, name) >= 0 ==> r.stack == s.stack[..FindOpen(s.stack, name)])
  {
    var r := OnEndTag(s, name, raw);
    assert r.out[..|s.out|] == s.out;
  }

  function Step(s: State, h: Handler, t: Token): State
  {
    match t
    case TextToken(text) => OnText(s, text)
    case StartTagToken(name, attributes, selfClosing, raw) => OnStartTag(s, h, name, attributes, selfClosing, raw)
    case EndTagToken(name, raw) => OnEndTag(s, name, raw)
  }

  /** One token: the handler runs once more exactly for a matching start
      tag, earlier handles are kept, and the output only grows. */
  lemma StepFacts(s: State, h: Handler, t: Token)
    ensures var r := Step(s, h, t);
            r.invocations == s.invocations + (if t.StartTagToken? && Matches(h.selector, t.name) then 1 else 0)
            && |r.seen| == |s.seen| + (if t.StartTagToken? && Matches(h.selector, t.name) then 1 else 0)
            && r.seen[..|s.seen|] == s.seen
            && |r.out| >= |s.out| && r.out[..|s.out|] == s.out
  {
    match t {
      case TextToken(text) => TextFacts(s, text);
      case StartTagToken(name, attributes, selfClosing, raw) => StartTagFacts(s, h, name, attributes, selfClosing, raw);
      case EndTagToken(name, raw) => EndTagFacts(s, name, raw);
    }
  }

  function RewriteFrom(s: State, h: Handler, tokens: seq<Token>): State
    decreases |tokens|
  {
    if |tokens| == 0 then s else RewriteFrom(Step(s, h, tokens[0]), h, tokens[1..])
  }

  /** Rewriting a document that starts with text. */
  lemma RewriteText(s: State, h: Handler, text: string, rest: seq<Token>)
    ensures RewriteFrom(s, h, [TextToken(text)] + rest) == RewriteFrom(OnText(s, text), h, rest)
  {
    assert ([TextToken(text)] + rest)[1..] == rest;
  }

  /** Rewriting a document that starts with a start tag. */
  lemma RewriteStartTag(s: State, h: Handler, name: string, attributes: seq<Attribute>, selfClosing: bool, raw: string, rest: seq<Token>)
    ensures RewriteFrom(s, h, [StartTagToken(name, attributes, selfClosing, raw)] + rest)
            == RewriteFrom(OnStartTag(s, h, name, attributes, selfClosing, raw), h, rest)
  {
    assert ([StartTagToken(name, attributes, selfClosing, raw)] + rest)[1..] == rest;
  }

  /** Rewriting a document that starts with an end tag. */
  lemma RewriteEndTag(s: State, h: Handler, name: string, raw: string, rest: seq<Token>)
    ensures RewriteFrom(s, h, [EndTagToken(name, raw)] + rest) == RewriteFrom(OnEndTag(s, name, raw), h, rest)
  {
    assert ([EndTagToken(name, raw)] + rest)[1..] == rest;
  }

  /** The rewriter's output for a whole document. */
  function RewriteDocument(h: Handler, tokens: seq<Token>): State
  {
    RewriteFrom(Initial, h, tokens)
  }

  /** The number of start tags among `tokens` that `selector` matches. */
  function MatchingStartTags(selector: Selector, tokens: seq<Token>): nat
  {
    if |tokens| == 0 then 0
    else (if tokens[0].StartTagToken? && Matches(selector, tokens[0].name) then 1 else 0)
         + MatchingStartTags(selector, tokens[1..])
  }

  /** The handler runs exactly once per matching start tag, in document
      order, and the output only ever grows. */
  lemma {:induction false} HandlerRunsOncePerMatch(s: State, h: Handler, tokens: seq<Token>)
    ensures RewriteFrom(s, h, tokens).invocations == s.invocations + MatchingStartTags(h.selector, tokens)
    ensures |RewriteFrom(s, h, tokens).seen| == |s.seen| + MatchingStartTags(h.selector, tokens)
    ensures RewriteFrom(s, h, tokens).seen[..|s.seen|] == s.seen
    ensures |RewriteFrom(s, h, tokens).out| >= |s.out| && RewriteFrom(s, h, tokens).out[..|s.out|] == s.out
    decreases |tokens|
  {
    if |tokens| > 0 {
      var s' := Step(s, h, tokens[0]);
      StepFacts(s, h, tokens[0]);
      HandlerRunsOncePerMatch(s', h, tokens[1..]);
      var r := RewriteFrom(s', h, tokens[1..]);
      assert r.seen[..|s.seen|] == r.seen[..|s'.seen|][..|s.seen|];
      assert r.out[..|s.out|] == r.out[..|s'.out|][..|s.out|];
    }
  }

  /** A handle nobody has edited. */
  predicate Untouched(e: Element)
  {
    !e.startTagModified && !e.renamed && e.before == [] && e.prepend == [] && e.append == [] && e.after == []
    && !e.tagsRemoved && !e.contentRemoved && !e.interiorRemoved && e.replacement == None && e.endTagHandlers == []
  }

  predicate PristineStack(stack: seq<Frame>)
  {
    forall i :: 0 <= i < |stack| ==> !stack[i].suppressed && Untouched(stack[i].element)
  }

  /** An untouched handle puts back exactly the source text of its tags. */
  lemma UntouchedIsVerbatimHere(e: Element, endRaw: string)
    requires Untouched(e)
    ensures StartOutput(e) == e.raw
    ensures EndOutput(e, RunEndTagHandlers(EndTagFor(e, endRaw), e.endTagHandlers)) == endRaw
  {
  }

  /** One token through a passive handler: its source text is appended and
      the open elements stay untouched. */
  lemma PassiveStep(s: State, h: Handler, t: Token)
    requires forall k: nat :: h.script(k) == []
    requires PristineStack(s.stack)
    ensures PristineStack(Step(s, h, t).stack)
    ensures Step(s, h, t).out == s.out + t.raw
  {
    match t
    case TextToken(text) =>
    case StartTagToken(name, attributes, selfClosing, raw) =>
      var ns := ElementNamespace(ParentNamespace(s.stack), name);
      var given := NewElement(name, ns, attributes, selfClosing, raw);
      assert h.script(s.invocations) == [];
      assert RunHandler(given, []).element == given;
      UntouchedIsVerbatimHere(given, "");
    case EndTagToken(name, raw) =>
      var i := FindOpen(s.stack, name);
      if i >= 0 {
        UntouchedIsVerbatimHere(s.stack[i].element, raw);
        assert Step(s, h, t).stack == s.stack[..i];
      }
  }

  /** A handler that never edits anything leaves the document as it was:
      the output is the source text, token for token. */
  lemma {:induction false} PassiveHandlerIsIdentity(s: State, h: Handler, tokens: seq<Token>)
    requires forall k: nat :: h.script(k) == []
    requires PristineStack(s.stack)
    ensures RewriteFrom(s, h, tokens).out == s.out + Source(tokens)
    decreases |tokens|
  {
    if |tokens| > 0 {
      var t, rest := tokens[0], tokens[1..];
      var s' := Step(s, h, t);
      PassiveStep(s, h, t);
      PassiveHandlerIsIdentity(s', h, rest);
      assert RewriteFrom(s, h, tokens) == RewriteFrom(s', h, rest);
      assert Source(tokens) == t.raw + Source(rest);
      AppendAssociates(s.out, t.raw, Source(rest));
    }
  }

  /** The whole-document form: with a passive handler the rewriter is the identity. */
  lemma PassiveRewriteIsIdentity(h: Handler, tokens: seq<Token>)
    requires forall k: nat :: h.script(k) == []
    ensures RewriteDocument(h, tokens).out == Source(tokens)
  {
    PassiveHandlerIsIdentity(Initial, h, tokens);
  }
}
