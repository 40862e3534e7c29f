/** The element and end-tag handles a content handler receives, and the edits
    it can make through them.  Edits are queued on the handle and turned into
    output by `StartOutput` and `EndOutput`, at the element's start-tag and
    end-tag splice points.

    Inserted content is stored already rendered: escaped in text mode, as
    given in HTML mode. */
module ElementApi {
  import opened Base
  import opened HtmlText

  datatype ContentType = Text | Html

  /** Inserted content as it will appear in the output. */
  function RenderContent(content: string, contentType: ContentType): string
  {
    match contentType
    case Html => content
    case Text => EscapeText(content)
  }

  datatype Namespace = HtmlNamespace | SvgNamespace | MathMLNamespace

  function NamespaceUri(ns: Namespace): string
  {
    match ns
    case HtmlNamespace => "http://www.w3.org/1999/xhtml"
    case SvgNamespace => "http://www.w3.org/2000/svg"
    case MathMLNamespace => "http://www.w3.org/1998/Math/MathML"
  }

  /** The namespace of an element named `name` whose parent's content is in
      `parent`: `svg` and `math` switch to their namespace, everything else
      inherits. */
  function ElementNamespace(parent: Namespace, name: string): (ns: Namespace)
    ensures name == "svg" ==> ns == SvgNamespace
    ensures name == "math" ==> ns == MathMLNamespace
    ensures name != "svg" && name != "math" ==> ns == parent
  {
    if name == "svg" then SvgNamespace
    else if name == "math" then MathMLNamespace
    else parent
  }

  /** An `annotation-xml` element holds HTML when its `encoding` attribute is
      `text/html` or `application/xhtml+xml`, ASCII case ignored. */
  predicate HtmlEncoded(attributes: seq<Attribute>)
  {
    var k := FindAttribute(attributes, "encoding");
    k < |attributes|
    && (EqualsIgnoreAsciiCase(attributes[k].value, "text/html")
        || EqualsIgnoreAsciiCase(attributes[k].value, "application/xhtml+xml"))
  }

  /** The HTML integration points of foreign content: `foreignObject`,
      `desc` and `title` in SVG, and an HTML-encoded `annotation-xml` in
      MathML. */
  predicate IsHtmlIntegrationPoint(ns: Namespace, name: string, attributes: seq<Attribute>)
  {
    (ns == SvgNamespace && (name == "foreignobject" || name == "desc" || name == "title"))
    || (ns == MathMLNamespace && name == "annotation-xml" && HtmlEncoded(attributes))
  }

  /** The namespace an element's children start in: HTML inside an HTML
      integration point, otherwise the element's own. */
  function ContentNamespace(ns: Namespace, name: string, attributes: seq<Attribute>): (r: Namespace)
    ensures r == ns || r == HtmlNamespace
    ensures r != ns <==> IsHtmlIntegrationPoint(ns, name, attributes)
  {
    if IsHtmlIntegrationPoint(ns, name, attributes) then HtmlNamespace else ns
  }

  /** Nesting: below HTML content an element's children stay in HTML unless
      it is `svg` or `math`, whose children are foreign; the integration
      points lead back to HTML. */
  lemma ChildNamespace(parent: Namespace, name: string, attributes: seq<Attribute>)
    ensures parent == HtmlNamespace && name != "svg" && name != "math" ==>
              ContentNamespace(ElementNamespace(parent, name), name, attributes) == HtmlNamespace
    ensures name == "svg" ==> ContentNamespace(ElementNamespace(parent, name), name, attributes) == SvgNamespace
    ensures name == "math" ==> ContentNamespace(ElementNamespace(parent, name), name, attributes) == MathMLNamespace
    ensures parent == SvgNamespace && name == "foreignobject" ==>
              ContentNamespace(ElementNamespace(parent, name), name, attributes) == HtmlNamespace
    ensures parent == MathMLNamespace && name == "annotation-xml" ==>
              (ContentNamespace(ElementNamespace(parent, name), name, attributes) == HtmlNamespace <==> HtmlEncoded(attributes))
  {
  }

  datatype RewriteError =
    | EmptyTagName
    | InvalidTagNameStart
    | ForbiddenTagNameChar(ch: char)
    | EmptyAttributeName
    | ForbiddenAttributeNameChar(ch: char)
    | NoEndTag

  /** The message `take_last_error` returns for an error. */
  function Message(e: RewriteError): string
  {
    match e
    case EmptyTagName => "Tag name can't be empty."
    case InvalidTagNameStart => "First character of the tag name should be an ASCII alphabetical character."
    case ForbiddenTagNameChar(ch) => "'" + [ch] + "' character is forbidden in the tag name."
    case EmptyAttributeName => "Attribute name can't be empty."
    case ForbiddenAttributeNameChar(ch) => "'" + [ch] + "' character is forbidden in the attribute name."
    case NoEndTag => "No end tag."
  }

  // ---------------------------------------------------------------------
  // Names

  predicate IsAsciiAlpha(c: char)
  {
    'a' <= c <= 'z' || 'A' <= c <= 'Z'
  }

  /** Whitespace, `/` and `>` end a tag name in HTML, so no tag name holds them. */
  predicate ForbiddenInTagName(c: char)
  {
    c == ' ' || c == '\t' || c == '\n' || c == '\r' || c == '\U{000C}' || c == '/' || c == '>'
  }

  /** An attribute name also ends at `=`. */
  predicate ForbiddenInAttributeName(c: char)
  {
    ForbiddenInTagName(c) || c == '='
  }

  /** A name a tag can be given: an ASCII letter first and no forbidden character. */
  predicate ValidTagName(name: string)
  {
    |name| > 0 && IsAsciiAlpha(name[0]) && forall i :: 0 <= i < |name| ==> !ForbiddenInTagName(name[i])
  }

  predicate ValidAttributeName(name: string)
  {
    |name| > 0 && forall i :: 0 <= i < |name| ==> !ForbiddenInAttributeName(name[i])
  }

  /** The index of the first character `forbidden` rejects, or `|s|`. */
  function FirstForbidden(s: string, forbidden: char -> bool): (k: nat)
    ensures k <= |s|
    ensures forall j :: 0 <= j < k ==> !forbidden(s[j])
    ensures k < |s| ==> forbidden(s[k])
  {
    if |s| == 0 then 0
    else if forbidden(s[0]) then 0
    else 1 + FirstForbidden(s[1..], forbidden)
  }

  /** Why `name` cannot be a tag name: emptiness first, then the first
      character, then the first forbidden character. */
  function TagNameError(name: string): (r: Option<RewriteError>)
    ensures r.None? <==> ValidTagName(name)
    ensures name == "" ==> r == Some(EmptyTagName)
    ensures name != "" && !IsAsciiAlpha(name[0]) ==> r == Some(InvalidTagNameStart)
    ensures r.Some? && r.value.ForbiddenTagNameChar? ==> r.value.ch in name && ForbiddenInTagName(r.value.ch)
  {
    if |name| == 0 then Some(EmptyTagName)
    else if !IsAsciiAlpha(name[0]) then Some(InvalidTagNameStart)
    else
      var k := FirstForbidden(name, ForbiddenInTagName);
      if k < |name| then Some(ForbiddenTagNameChar(name[k])) else None
  }

  /** Why `name` cannot be an attribute name. */
  function AttributeNameError(name: string): (r: Option<RewriteError>)
    ensures r.None? <==> ValidAttributeName(name)
    ensures name == "" ==> r == Some(EmptyAttributeName)
    ensures r.Some? && name != "" ==> r.value.ForbiddenAttributeNameChar?
                                      && r.value.ch in name && ForbiddenInAttributeName(r.value.ch)
  {
    if |name| == 0 then Some(EmptyAttributeName)
    else
      var k := FirstForbidden(name, ForbiddenInAttributeName);
      if k < |name| then Some(ForbiddenAttributeNameChar(name[k])) else None
  }

  /** A name that would smuggle markup into the tag is refused at its first
      space, one with `=` as an attribute name at the `=`, and a digit
      cannot start a tag name. */
  lemma MarkupInNameRejected()
    ensures TagNameError("a b><script") == Some(ForbiddenTagNameChar(' '))
    ensures AttributeNameError("a=b") == Some(ForbiddenAttributeNameChar('='))
    ensures TagNameError("1a") == Some(InvalidTagNameStart)
  {
    assert FirstForbidden("a b><script", ForbiddenInTagName) == 1 by {
      assert ForbiddenInTagName("a b><script"[1]);
    }
    assert FirstForbidden("a=b", ForbiddenInAttributeName) == 1 by {
      assert ForbiddenInAttributeName("a=b"[1]);
    }
  }

  /** An attribute: `raw` is its source text while it is untouched. */
  datatype Attribute = Attribute(name: string, value: string, raw: Option<string>)

  /** No two attributes share a name, up to ASCII case. */
  ghost predicate UniqueNames(attributes: seq<Attribute>)
  {
    forall i, j :: 0 <= i < j < |attributes| ==> !EqualsIgnoreAsciiCase(attributes[i].name, attributes[j].name)
  }

  // ---------------------------------------------------------------------
  // End tags

  datatype EndTagCommand =
    | EndNameSet(name: string)
    | EndInsertBefore(content: string, contentType: ContentType)
    | EndInsertAfter(content: string, contentType: ContentType)
    | EndRemove

  /** An end-tag handler, as the edits it makes. */
  type EndTagHandler = seq<EndTagCommand>

  /** The end-tag handle: `raw` is the tag's source text, `modified` whether
      it must be re-serialised. */
  datatype EndTag = EndTag(name: string, raw: string, modified: bool,
                           before: seq<string>, after: seq<string>, removed: bool)

  /** Renaming an end tag follows the element's tag-name rule. */
  function SetEndTagName(t: EndTag, name: string): (r: Result<EndTag, RewriteError>)
    ensures r.Success? <==> ValidTagName(name)
    ensures name == "" ==> r == Failure(EmptyTagName)
    ensures r.Failure? ==> Some(r.error) == TagNameError(name)
    ensures r.Success? ==> r.value.name == name && r.value.modified
                           && r.value == t.(name := name, modified := true)
  {
    match TagNameError(name)
    case Some(err) => Failure(err)
    case None => Success(t.(name := name, modified := true))
  }

  function ApplyEndTagCommand(t: EndTag, c: EndTagCommand): Result<EndTag, RewriteError>
  {
    match c
    case EndNameSet(name) => SetEndTagName(t, name)
    case EndInsertBefore(content, ct) => Success(t.(before := t.before + [RenderContent(content, ct)]))
    case EndInsertAfter(content, ct) => Success(t.(after := t.after + [RenderContent(content, ct)]))
    case EndRemove => Success(t.(removed := true))
  }

  /** Run end-tag handlers in registration order, each edit in call order; a
      failing edit leaves the handle as it was. */
  function RunEndTagHandlers(t: EndTag, handlers: seq<EndTagHandler>): EndTag
    decreases |handlers|, if |handlers| == 0 then 0 else |handlers[0]|
  {
    if |handlers| == 0 then t
    else if |handlers[0]| == 0 then RunEndTagHandlers(t, handlers[1..])
    else
      RunEndTagHandlers(EndTagAfter(t, handlers[0][0]), [handlers[0][1..]] + handlers[1..])
  }

  /** The end tag after one edit; a failing edit leaves it as it was. */
  function EndTagAfter(t: EndTag, c: EndTagCommand): EndTag
  {
    match ApplyEndTagCommand(t, c) case Success(v) => v case Failure(_) => t
  }

  /** One end-tag edit only adds. */
  lemma EndTagEditOnlyAdds(t: EndTag, c: EndTagCommand)
    ensures t.removed ==> EndTagAfter(t, c).removed
    ensures |EndTagAfter(t, c).before| >= |t.before| && EndTagAfter(t, c).before[..|t.before|] == t.before
    ensures |EndTagAfter(t, c).after| >= |t.after| && EndTagAfter(t, c).after[..|t.after|] == t.after
  {
    match c
    case EndNameSet(name) =>
    case EndInsertBefore(content, ct) =>
      assert EndTagAfter(t, c).before == t.before + [RenderContent(content, ct)];
    case EndInsertAfter(content, ct) =>
      assert EndTagAfter(t, c).after == t.after + [RenderContent(content, ct)];
    case EndRemove =>
  }

  /** End-tag handlers only add: a removal stays, and the `before` and
      `after` queues keep what they held, in front. */
  lemma {:induction false} EndTagHandlersOnlyAdd(t: EndTag, handlers: seq<EndTagHandler>)
    ensures t.removed ==> RunEndTagHandlers(t, handlers).removed
    ensures var r := RunEndTagHandlers(t, handlers);
            |r.before| >= |t.before| && r.before[..|t.before|] == t.before
    ensures var r := RunEndTagHandlers(t, handlers);
            |r.after| >= |t.after| && r.after[..|t.after|] == t.after
    decreases |handlers|, if |handlers| == 0 then 0 else |handlers[0]|
  {
    if |handlers| > 0 {
      if |handlers[0]| == 0 {
        EndTagHandlersOnlyAdd(t, handlers[1..]);
      } else {
        var t' := EndTagAfter(t, handlers[0][0]);
        EndTagEditOnlyAdds(t, handlers[0][0]);
        EndTagHandlersOnlyAdd(t', [handlers[0][1..]] + handlers[1..]);
        var r := RunEndTagHandlers(t, handlers);
        assert r.before[..|t.before|] == r.before[..|t'.before|][..|t.before|];
        assert r.after[..|t.after|] == r.after[..|t'.after|][..|t.after|];
      }
    }
  }

  /** Running end-tag handlers: the first pending edit of the first handler
      succeeds and the rest follow. */
  lemma EndTagEditSucceeds(t: EndTag, c: EndTagCommand, cmds: EndTagHandler, rest: seq<EndTagHandler>, t': EndTag)
    requires ApplyEndTagCommand(t, c) == Success(t')
    ensures RunEndTagHandlers(t, [[c] + cmds] + rest) == RunEndTagHandlers(t', [cmds] + rest)
  {
    var hs := [[c] + cmds] + rest;
    assert hs[0] == [c] + cmds && hs[0][1..] == cmds && hs[1..] == rest;
  }

  /** A handler with no edits left hands over to the next one. */
  lemma EndTagHandlerDone(t: EndTag, rest: seq<EndTagHandler>)
    ensures RunEndTagHandlers(t, [[]] + rest) == RunEndTagHandlers(t, rest)
  {
    assert ([[]] + rest)[1..] == rest;
  }

  function EndTagText(t: EndTag): string
  {
    if t.modified then "</" + t.name + ">" else t.raw
  }

  // ---------------------------------------------------------------------
  // Elements

  /** The element handle.  `startTagModified` says the start tag must be
      re-serialised; `renamed` that the end tag must be too.  Removal has
      three parts: `tagsRemoved` drops the two tags, `contentRemoved`
      suppresses the children, and `interiorRemoved` (`remove` and
      `replace` only) also drops the queued `prepend` and `append` content. */
  datatype Element = Element(
    name: string,
    ns: Namespace,
    attributes: seq<Attribute>,
    selfClosing: bool,
    raw: string,
    canHaveContent: bool,
    startTagModified: bool,
    renamed: bool,
    before: seq<string>,
    prepend: seq<string>,
    append: seq<string>,
    after: seq<string>,
    tagsRemoved: bool,
    contentRemoved: bool,
    interiorRemoved: bool,
    replacement: Option<string>,
    endTagHandlers: seq<EndTagHandler>)

  /** A replacement is only recorded together with the removal it implies,
      and the interior only goes together with the tags and the children. */
  predicate WellFormed(e: Element)
  {
    (e.replacement.Some? ==> e.interiorRemoved)
    && (e.interiorRemoved ==> e.tagsRemoved && e.contentRemoved)
  }

  /** The handle for a freshly parsed start tag. */
  function NewElement(name: string, ns: Namespace, attributes: seq<Attribute>, selfClosing: bool, raw: string): (e: Element)
    ensures WellFormed(e) && !IsRemoved(e)
    ensures e.canHaveContent <==> !IsVoidElement(name)
  {
    Element(name, ns, attributes, selfClosing, raw, !IsVoidElement(name), false, false,
            [], [], [], [], false, false, false, None, [])
  }

  function TagName(e: Element): string
  {
    e.name
  }

  function ElementNamespaceUri(e: Element): string
  {
    NamespaceUri(e.ns)
  }

  predicate IsRemoved(e: Element)
  {
    e.tagsRemoved
  }

  /** Renaming succeeds exactly for a valid tag name; a refused name reports
      why and leaves the handle as it was. */
  function SetTagName(e: Element, name: string): (r: Result<Element, RewriteError>)
    ensures r.Success? <==> ValidTagName(name)
    ensures name == "" ==> r == Failure(EmptyTagName)
    ensures r.Failure? ==> Some(r.error) == TagNameError(name)
    ensures r.Success? ==> TagName(r.value) == name && r.value.renamed
                           && r.value == e.(name := name, renamed := true, startTagModified := true)
  {
    match TagNameError(name)
    case Some(err) => Failure(err)
    case None => Success(e.(name := name, renamed := true, startTagModified := true))
  }

  /** The index of the first attribute named `name` (ASCII case ignored), or
      the number of attributes if there is none. */
  function FindAttribute(attributes: seq<Attribute>, name: string): (k: nat)
    ensures k <= |attributes|
  {
    if |attributes| == 0 then 0
    else if EqualsIgnoreAsciiCase(attributes[0].name, name) then 0
    else 1 + FindAttribute(attributes[1..], name)
  }

  /** `FindAttribute` stops at the first attribute with the name. */
  lemma {:induction false} FindAttributeIsFirst(attributes: seq<Attribute>, name: string)
    ensures var k := FindAttribute(attributes, name);
            (k < |attributes| ==> EqualsIgnoreAsciiCase(attributes[k].name, name))
            && forall j :: 0 <= j < k ==> !EqualsIgnoreAsciiCase(attributes[j].name, name)
  {
    if |attributes| > 0 && !EqualsIgnoreAsciiCase(attributes[0].name, name) {
      FindAttributeIsFirst(attributes[1..], name);
      var k := FindAttribute(attributes, name);
      forall j | 0 <= j < k
        ensures !EqualsIgnoreAsciiCase(attributes[j].name, name)
      {
        if j > 0 {
          assert attributes[j] == attributes[1..][j - 1];
        }
      }
    }
  }

  predicate HasAttribute(e: Element, name: string)
  {
    FindAttribute(e.attributes, name) < |e.attributes|
  }

  /** An element has an attribute exactly when one of its attributes has
      that name, up to ASCII case. */
  lemma HasAttributeIffNamed(e: Element, name: string)
    ensures HasAttribute(e, name) <==> exists i :: 0 <= i < |e.attributes| && EqualsIgnoreAsciiCase(e.attributes[i].name, name)
  {
    FindAttributeIsFirst(e.attributes, name);
  }

  /** The value of the first attribute named `name`; `None` (the C API's
      NULL string) when there is none, which is not the empty value. */
  function GetAttribute(e: Element, name: string): (r: Option<string>)
    ensures r.Some? <==> HasAttribute(e, name)
  {
    var k := FindAttribute(e.attributes, name);
    if k < |e.attributes| then Some(e.attributes[k].value) else None
  }

  /** A value is only reported for an attribute of that name. */
  lemma GetAttributeIsNamed(e: Element, name: string)
    ensures GetAttribute(e, name).Some? ==>
              exists i :: 0 <= i < |e.attributes| && EqualsIgnoreAsciiCase(e.attributes[i].name, name)
                          && e.attributes[i].value == GetAttribute(e, name).value
  {
    FindAttributeIsFirst(e.attributes, name);
  }

  /** The attributes iterator: `(name, value)` pairs in source order. */
  function AttributePairs(attributes: seq<Attribute>): (r: seq<(string, string)>)
    ensures |r| == |attributes|
    ensures forall i :: 0 <= i < |r| ==> r[i] == (attributes[i].name, attributes[i].value)
  {
    if |attributes| == 0 then [] else [(attributes[0].name, attributes[0].value)] + AttributePairs(attributes[1..])
  }

  /** Replace the value of the first attribute named `name` in place, or add
      a new attribute (name lowercased) at the end. */
  function PutAttribute(e: Element, name: string, value: string): (r: Element)
    ensures r == e.(attributes := r.attributes, startTagModified := true)
  {
    var k := FindAttribute(e.attributes, name);
    if k < |e.attributes| then e.(attributes := e.attributes[k := Attribute(e.attributes[k].name, value, None)], startTagModified := true)
    else e.(attributes := e.attributes + [Attribute(ToAsciiLowercase(name), value, None)], startTagModified := true)
  }

  /** `set_attribute`: an invalid name is refused, with the reason. */
  function SetAttribute(e: Element, name: string, value: string): (r: Result<Element, RewriteError>)
    ensures r.Success? <==> ValidAttributeName(name)
    ensures r.Failure? ==> Some(r.error) == AttributeNameError(name)
    ensures name == "" ==> r == Failure(EmptyAttributeName)
    ensures r.Success? ==> r.value == PutAttribute(e, name, value)
  {
    match AttributeNameError(name)
    case Some(err) => Failure(err)
    case None => Success(PutAttribute(e, name, value))
  }

  /** After a successful `SetAttribute` the name reads back as the value; an
      existing attribute keeps its place, a new one is appended, and no
      other attribute changes. */
  lemma SetAttributeSets(e: Element, name: string, value: string)
    ensures SetAttribute(e, name, value).Success? <==> ValidAttributeName(name)
    ensures SetAttribute(e, name, value).Success? ==>
            var r := SetAttribute(e, name, value).value;
            GetAttribute(r, name) == Some(value)
            && (HasAttribute(e, name) ==> |r.attributes| == |e.attributes|)
            && (!HasAttribute(e, name) ==> r.attributes == e.attributes + [Attribute(ToAsciiLowercase(name), value, None)])
            && (forall i :: 0 <= i < |e.attributes| && i != FindAttribute(e.attributes, name) ==>
                  r.attributes[i] == e.attributes[i])
            && r == e.(attributes := r.attributes, startTagModified := true)
  {
    var k := FindAttribute(e.attributes, name);
    var r := PutAttribute(e, name, value).attributes;
    FindAttributeIsFirst(e.attributes, name);
    if k == |e.attributes| {
      LowercaseIdempotent(name);
      LowercaseChars(name);
    }
    FindAttributeUnchangedPrefix(e.attributes, r, name, k);
  }

  /** Lookup only looks at the attributes up to the first match. */
  lemma {:induction false} FindAttributeUnchangedPrefix(a: seq<Attribute>, b: seq<Attribute>, name: string, k: nat)
    requires k <= |a| && k < |b|
    requires a[..k] == b[..k]
    requires forall j :: 0 <= j < k ==> !EqualsIgnoreAsciiCase(a[j].name, name)
    requires EqualsIgnoreAsciiCase(b[k].name, name)
    ensures FindAttribute(b, name) == k
  {
    if k > 0 {
      assert b[0] == a[0];
      assert a[1..][..k - 1] == b[1..][..k - 1];
      FindAttributeUnchangedPrefix(a[1..], b[1..], name, k - 1);
    }
  }

  /** Drop the first attribute named `name`; nothing changes if there is none. */
  function RemoveAttribute(e: Element, name: string): (r: Element)
    ensures r == e.(attributes := r.attributes, startTagModified := r.startTagModified)
  {
    var k := FindAttribute(e.attributes, name);
    if k < |e.attributes| then e.(attributes := e.attributes[..k] + e.attributes[k + 1..], startTagModified := true)
    else e
  }

  /** The attributes not named `name` (ASCII case ignored), in order. */
  function WithoutAttribute(attributes: seq<Attribute>, name: string): (r: seq<Attribute>)
    ensures |r| <= |attributes|
  {
    if |attributes| == 0 then []
    else (if EqualsIgnoreAsciiCase(attributes[0].name, name) then [] else [attributes[0]])
         + WithoutAttribute(attributes[1..], name)
  }

  /** Without a match, nothing is filtered out. */
  lemma {:induction false} WithoutAbsent(attributes: seq<Attribute>, name: string)
    requires forall j :: 0 <= j < |attributes| ==> !EqualsIgnoreAsciiCase(attributes[j].name, name)
    ensures WithoutAttribute(attributes, name) == attributes
  {
    if |attributes| > 0 {
      WithoutAbsent(attributes[1..], name);
    }
  }

  /** With unique names, dropping the first match is filtering the name out. */
  lemma {:induction false} DropFirstIsWithout(attributes: seq<Attribute>, name: string)
    requires UniqueNames(attributes)
    ensures var k := FindAttribute(attributes, name);
            k < |attributes| ==> attributes[..k] + attributes[k + 1..] == WithoutAttribute(attributes, name)
  {
    var k := FindAttribute(attributes, name);
    if k < |attributes| {
      var tail := attributes[1..];
      if k == 0 {
        forall j | 0 <= j < |tail|
          ensures !EqualsIgnoreAsciiCase(tail[j].name, name)
        {
          assert tail[j] == attributes[j + 1];
        }
        WithoutAbsent(tail, name);
        assert attributes[..0] + attributes[1..] == tail;
      } else {
        assert UniqueNames(tail) by {
          forall i, j | 0 <= i < j < |tail|
            ensures !EqualsIgnoreAsciiCase(tail[i].name, tail[j].name)
          {
            assert tail[i] == attributes[i + 1] && tail[j] == attributes[j + 1];
          }
        }
        DropFirstIsWithout(tail, name);
        assert FindAttribute(tail, name) == k - 1;
        assert attributes[..k] + attributes[k + 1..] == [attributes[0]] + (tail[..k - 1] + tail[k..]);
      }
    }
  }

  /** With unique names, `remove_attribute` filters the name out: the other
      attributes stay, in their order; removing a name that is not there
      changes nothing. */
  lemma RemoveAttributeRemoves(e: Element, name: string)
    requires UniqueNames(e.attributes)
    ensures RemoveAttribute(e, name).attributes == WithoutAttribute(e.attributes, name)
    ensures RemoveAttribute(e, name) == e.(attributes := RemoveAttribute(e, name).attributes,
                                           startTagModified := e.startTagModified || HasAttribute(e, name))
    ensures !HasAttribute(e, name) ==> RemoveAttribute(e, name) == e
    ensures !HasAttribute(RemoveAttribute(e, name), name)
    ensures UniqueNames(RemoveAttribute(e, name).attributes)
  {
    var k := FindAttribute(e.attributes, name);
    HasAttributeIffNamed(RemoveAttribute(e, name), name);
    if k < |e.attributes| {
      DropFirstIsWithout(e.attributes, name);
      DropFirstLeavesNoMatch(e.attributes, name);
    } else {
      WithoutAbsent(e.attributes, name);
    }
  }

  /** Dropping the first match of a unique name leaves no match, and the
      names stay unique. */
  lemma DropFirstLeavesNoMatch(a: seq<Attribute>, name: string)
    requires UniqueNames(a)
    requires FindAttribute(a, name) < |a|
    ensures var k := FindAttribute(a, name);
            var b := a[..k] + a[k + 1..];
            UniqueNames(b) && forall i :: 0 <= i < |b| ==> !EqualsIgnoreAsciiCase(b[i].name, name)
  {
    var k := FindAttribute(a, name);
    FindAttributeIsFirst(a, name);
    var b := a[..k] + a[k + 1..];
    forall i | 0 <= i < |b|
      ensures !EqualsIgnoreAsciiCase(b[i].name, name)
    {
      DropAtIndex(a, k, i);
    }
    forall i, j | 0 <= i < j < |b|
      ensures !EqualsIgnoreAsciiCase(b[i].name, b[j].name)
    {
      DropAtIndex(a, k, i);
      DropAtIndex(a, k, j);
    }
  }

  /** Where an element of a sequence with one element dropped came from. */
  lemma DropAtIndex<T>(a: seq<T>, k: nat, i: nat)
    requires k < |a| && i < |a| - 1
    ensures (a[..k] + a[k + 1..])[i] == if i < k then a[i] else a[i + 1]
  {
  }

  /** Setting an attribute keeps names unique. */
  lemma SetAttributeKeepsUnique(e: Element, name: string, value: string)
    requires UniqueNames(e.attributes)
    ensures SetAttribute(e, name, value).Success? ==> UniqueNames(SetAttribute(e, name, value).value.attributes)
  {
    var k := FindAttribute(e.attributes, name);
    var r := PutAttribute(e, name, value).attributes;
    FindAttributeIsFirst(e.attributes, name);
    if k == |e.attributes| {
      LowercaseIdempotent(name);
      forall i, j | 0 <= i < j < |r|
        ensures !EqualsIgnoreAsciiCase(r[i].name, r[j].name)
      {
        if j == |e.attributes| {
          assert EqualsIgnoreAsciiCase(r[j].name, name);
        }
      }
    } else {
      forall i, j | 0 <= i < j < |r|
        ensures !EqualsIgnoreAsciiCase(r[i].name, r[j].name)
      {
        assert r[i].name == e.attributes[i].name && r[j].name == e.attributes[j].name;
      }
    }
  }

  /** Content insertions are dropped once the element has been removed. */
  function Before(e: Element, content: string, ct: ContentType): (r: Element)
    ensures IsRemoved(e) ==> r == e
    ensures !IsRemoved(e) ==> (r.before == e.before + [RenderContent(content, ct)]
                               && r == e.(before := r.before))
  {
    if IsRemoved(e) then e else e.(before := e.before + [RenderContent(content, ct)])
  }

  function Prepend(e: Element, content: string, ct: ContentType): (r: Element)
    ensures IsRemoved(e) ==> r == e
    ensures !IsRemoved(e) ==> (r.prepend == e.prepend + [RenderContent(content, ct)]
                               && r == e.(prepend := r.prepend))
  {
    if IsRemoved(e) then e else e.(prepend := e.prepend + [RenderContent(content, ct)])
  }

  function Append(e: Element, content: string, ct: ContentType): (r: Element)
    ensures IsRemoved(e) ==> r == e
    ensures !IsRemoved(e) ==> (r.append == e.append + [RenderContent(content, ct)]
                               && r == e.(append := r.append))
  {
    if IsRemoved(e) then e else e.(append := e.append + [RenderContent(content, ct)])
  }

  function After(e: Element, content: string, ct: ContentType): (r: Element)
    ensures IsRemoved(e) ==> r == e
    ensures !IsRemoved(e) ==> (r.after == e.after + [RenderContent(content, ct)]
                               && r == e.(after := r.after))
  {
    if IsRemoved(e) then e else e.(after := e.after + [RenderContent(content, ct)])
  }

  /** Suppress the children and put `content` at the start of the element's content. */
  function SetInnerContent(e: Element, content: string, ct: ContentType): (r: Element)
    ensures IsRemoved(e) ==> r == e
    ensures !IsRemoved(e) ==> (r.contentRemoved && !IsRemoved(r) && r.interiorRemoved == e.interiorRemoved
                               && r.prepend == e.prepend + [RenderContent(content, ct)])
  {
    if IsRemoved(e) then e else e.(contentRemoved := true, prepend := e.prepend + [RenderContent(content, ct)])
  }

  /** Suppress the element with everything in it and put `content` in its place. */
  function Replace(e: Element, content: string, ct: ContentType): (r: Element)
    ensures IsRemoved(r) && r.contentRemoved && r.interiorRemoved
    ensures !IsRemoved(e) ==> r.replacement == Some(RenderContent(content, ct))
    ensures IsRemoved(e) ==> r == e.(contentRemoved := true, interiorRemoved := true)
  {
    if IsRemoved(e) then e.(contentRemoved := true, interiorRemoved := true)
    else e.(tagsRemoved := true, contentRemoved := true, interiorRemoved := true, replacement := Some(RenderContent(content, ct)))
  }

  /** Drop the element: its tags, its children and what was queued inside it. */
  function Remove(e: Element): (r: Element)
    ensures IsRemoved(r) && r.contentRemoved && r.interiorRemoved
    ensures r.replacement == e.replacement
  {
    e.(tagsRemoved := true, contentRemoved := true, interiorRemoved := true)
  }

  /** Drop the two tags only; the inside stays as it was. */
  function RemoveAndKeepContent(e: Element): (r: Element)
    ensures IsRemoved(r)
    ensures r.contentRemoved == e.contentRemoved && r.interiorRemoved == e.interiorRemoved
  {
    e.(tagsRemoved := true)
  }

  function AddEndTagHandler(e: Element, handler: EndTagHandler): (r: Result<Element, RewriteError>)
    ensures r.Failure? <==> !e.canHaveContent
    ensures r.Failure? ==> r.error == NoEndTag
    ensures r.Success? ==> r.value.endTagHandlers == e.endTagHandlers + [handler]
  {
    if !e.canHaveContent then Failure(NoEndTag) else Success(e.(endTagHandlers := e.endTagHandlers + [handler]))
  }

  /** Dropping the registered end-tag handlers: nothing else on the handle
      changes, and the end tag is then handed over exactly as it was parsed. */
  function ClearEndTagHandlers(e: Element): (r: Element)
    ensures r.endTagHandlers == []
    ensures r == e.(endTagHandlers := [])
    ensures forall raw :: RunEndTagHandlers(EndTagFor(r, raw), r.endTagHandlers) == EndTagFor(e, raw)
  {
    e.(endTagHandlers := [])
  }

  // ---------------------------------------------------------------------
  // A handler, as the edits it makes

  datatype ElementCommand =
    | TagNameSet(name: string)
    | AttributeSet(name: string, value: string)
    | AttributeRemove(name: string)
    | InsertBefore(content: string, contentType: ContentType)
    | InsertPrepend(content: string, contentType: ContentType)
    | InsertAppend(content: string, contentType: ContentType)
    | InsertAfter(content: string, contentType: ContentType)
    | InnerContentSet(content: string, contentType: ContentType)
    | ReplaceWith(content: string, contentType: ContentType)
    | RemoveElement
    | RemoveElementKeepContent
    | EndTagHandlerAdd(handler: EndTagHandler)
    | EndTagHandlersClear

  function ApplyCommand(e: Element, c: ElementCommand): (r: Result<Element, RewriteError>)
    ensures WellFormed(e) && r.Success? ==> WellFormed(r.value)
    ensures IsRemoved(e) && r.Success? ==> IsRemoved(r.value)
  {
    match c
    case TagNameSet(name) => SetTagName(e, name)
    case AttributeSet(name, value) => SetAttribute(e, name, value)
    case AttributeRemove(name) => Success(RemoveAttribute(e, name))
    case InsertBefore(content, ct) => Success(Before(e, content, ct))
    case InsertPrepend(content, ct) => Success(Prepend(e, content, ct))
    case InsertAppend(content, ct) => Success(Append(e, content, ct))
    case InsertAfter(content, ct) => Success(After(e, content, ct))
    case InnerContentSet(content, ct) => Success(SetInnerContent(e, content, ct))
    case ReplaceWith(content, ct) => Success(Replace(e, content, ct))
    case RemoveElement => Success(Remove(e))
    case RemoveElementKeepContent => Success(RemoveAndKeepContent(e))
    case EndTagHandlerAdd(handler) => AddEndTagHandler(e, handler)
    case EndTagHandlersClear => Success(ClearEndTagHandlers(e))
  }

  /** The handle after a handler ran, and the errors its failing calls left. */
  datatype HandlerRun = HandlerRun(element: Element, errors: seq<RewriteError>)

  /** Run a handler's edits in call order; a failing edit reports its error
      and leaves the handle as it was, and the handler carries on. */
  function RunHandler(e: Element, cmds: seq<ElementCommand>): (r: HandlerRun)
    decreases |cmds|
  {
    if |cmds| == 0 then HandlerRun(e, [])
    else
      match ApplyCommand(e, cmds[0])
      case Success(e') => RunHandler(e', cmds[1..])
      case Failure(err) =>
        var rest := RunHandler(e, cmds[1..]);
        HandlerRun(rest.element, [err] + rest.errors)
  }

  /** The handle after the first edit: a failing edit leaves it as it was. */
  lemma RunHandlerStep(e: Element, cmds: seq<ElementCommand>)
    requires |cmds| > 0
    ensures var next := if ApplyCommand(e, cmds[0]).Success? then ApplyCommand(e, cmds[0]).value else e;
            RunHandler(e, cmds).element == RunHandler(next, cmds[1..]).element
  {
  }

  /** Running the edits from the i-th on, when that edit succeeds. */
  lemma RunHandlerSucceeds(e: Element, cmds: seq<ElementCommand>, i: nat, e': Element)
    requires i < |cmds| && ApplyCommand(e, cmds[i]) == Success(e')
    ensures RunHandler(e, cmds[i..]) == RunHandler(e', cmds[i + 1..])
  {
    assert cmds[i..][0] == cmds[i] && cmds[i..][1..] == cmds[i + 1..];
  }

  /** Running the edits from the i-th on, when that edit fails. */
  lemma RunHandlerFails(e: Element, cmds: seq<ElementCommand>, i: nat, err: RewriteError)
    requires i < |cmds| && ApplyCommand(e, cmds[i]) == Failure(err)
    ensures RunHandler(e, cmds[i..]).element == RunHandler(e, cmds[i + 1..]).element
    ensures RunHandler(e, cmds[i..]).errors == [err] + RunHandler(e, cmds[i + 1..]).errors
  {
    assert cmds[i..][0] == cmds[i] && cmds[i..][1..] == cmds[i + 1..];
  }

  /** Edits keep the handle well formed. */
  lemma {:induction false} RunHandlerKeepsWellFormed(e: Element, cmds: seq<ElementCommand>)
    requires WellFormed(e)
    ensures WellFormed(RunHandler(e, cmds).element)
    decreases |cmds|
  {
    if |cmds| > 0 {
      match ApplyCommand(e, cmds[0])
      case Success(e') => RunHandlerKeepsWellFormed(e', cmds[1..]);
      case Failure(_) => RunHandlerKeepsWellFormed(e, cmds[1..]);
    }
  }

  /** Removal is final: whatever a handler does next, the element stays removed. */
  lemma {:induction false} RemovalIsMonotonic(e: Element, cmds: seq<ElementCommand>)
    requires IsRemoved(e)
    ensures IsRemoved(RunHandler(e, cmds).element)
    decreases |cmds|
  {
    if |cmds| > 0 {
      match ApplyCommand(e, cmds[0])
      case Success(e') => RemovalIsMonotonic(e', cmds[1..]);
      case Failure(_) => RemovalIsMonotonic(e, cmds[1..]);
    }
  }

  predicate IsRemoval(c: ElementCommand)
  {
    c.ReplaceWith? || c.RemoveElement? || c.RemoveElementKeepContent?
  }

  /** The four places content can be inserted at. */
  datatype Position = BeforeElement | ContentStart | ContentEnd | AfterElement

  /** The handle's queue for a position. */
  function Queue(e: Element, pos: Position): seq<string>
  {
    match pos
    case BeforeElement => e.before
    case ContentStart => e.prepend
    case ContentEnd => e.append
    case AfterElement => e.after
  }

  /** The rendered content one edit queues at `pos`; `set_inner_content`
      queues like `prepend`. */
  function Inserted(c: ElementCommand, pos: Position): seq<string>
  {
    match c
    case InsertBefore(content, ct) => if pos == BeforeElement then [RenderContent(content, ct)] else []
    case InsertPrepend(content, ct) => if pos == ContentStart then [RenderContent(content, ct)] else []
    case InnerContentSet(content, ct) => if pos == ContentStart then [RenderContent(content, ct)] else []
    case InsertAppend(content, ct) => if pos == ContentEnd then [RenderContent(content, ct)] else []
    case InsertAfter(content, ct) => if pos == AfterElement then [RenderContent(content, ct)] else []
    case _ => []
  }

  /** The rendered content `cmds` queue at `pos`, in call order. */
  function Insertions(cmds: seq<ElementCommand>, pos: Position): seq<string>
  {
    if |cmds| == 0 then [] else Inserted(cmds[0], pos) + Insertions(cmds[1..], pos)
  }

  predicate IsInsertion(c: ElementCommand)
  {
    c.InsertBefore? || c.InsertPrepend? || c.InsertAppend? || c.InsertAfter? || c.InnerContentSet?
  }

  /** An insertion on a live element queues its content at its position. */
  lemma InsertionQueues(e: Element, c: ElementCommand, pos: Position)
    requires !IsRemoved(e) && IsInsertion(c)
    ensures ApplyCommand(e, c).Success?
    ensures !IsRemoved(ApplyCommand(e, c).value)
    ensures Queue(ApplyCommand(e, c).value, pos) == Queue(e, pos) + Inserted(c, pos)
  {
    match c
    case InsertBefore(content, ct) =>
    case InsertPrepend(content, ct) =>
    case InsertAppend(content, ct) =>
    case InsertAfter(content, ct) =>
    case InnerContentSet(content, ct) =>
  }

  /** Two handles with the same queues and the same removal of their tags. */
  predicate SameQueues(a: Element, b: Element)
  {
    a.before == b.before && a.prepend == b.prepend && a.append == b.append && a.after == b.after
    && a.tagsRemoved == b.tagsRemoved
  }

  /** Renaming, attribute and end-tag-handler edits leave the queues and
      the removal alone. */
  lemma OtherEditQueuesNothing(e: Element, c: ElementCommand)
    requires !IsRemoval(c) && !IsInsertion(c)
    ensures ApplyCommand(e, c).Success? ==> SameQueues(ApplyCommand(e, c).value, e)
  {
    match c {
      case TagNameSet(name) => RenameQueuesNothing(e, name);
      case AttributeSet(name, value) => PutAttributeQueuesNothing(e, name, value);
      case AttributeRemove(name) =>
      case EndTagHandlerAdd(handler) =>
      case EndTagHandlersClear =>
    }
  }

  lemma RenameQueuesNothing(e: Element, name: string)
    ensures SetTagName(e, name).Success? ==> SameQueues(SetTagName(e, name).value, e)
  {
  }

  lemma PutAttributeQueuesNothing(e: Element, name: string, value: string)
    ensures SameQueues(PutAttribute(e, name, value), e)
  {
  }


  /** One edit that is not a removal queues at most its own content, at its
      own position. */
  lemma InsertionStep(e: Element, c: ElementCommand, pos: Position)
    requires !IsRemoved(e) && !IsRemoval(c)
    ensures ApplyCommand(e, c).Success? ==>
              !IsRemoved(ApplyCommand(e, c).value)
              && Queue(ApplyCommand(e, c).value, pos) == Queue(e, pos) + Inserted(c, pos)
    ensures ApplyCommand(e, c).Failure? ==> Inserted(c, pos) == []
  {
    if IsInsertion(c) {
      InsertionQueues(e, c, pos);
    } else {
      OtherEditQueuesNothing(e, c);
    }
  }

  /** Mutation order: on an element that is not removed, repeated `before`,
      `prepend`, `append` and `after` calls are queued in call order, after
      what was queued already. */
  lemma {:induction false} InsertionsInCallOrder(e: Element, cmds: seq<ElementCommand>, pos: Position)
    requires !IsRemoved(e)
    requires forall i :: 0 <= i < |cmds| ==> !IsRemoval(cmds[i])
    ensures Queue(RunHandler(e, cmds).element, pos) == Queue(e, pos) + Insertions(cmds, pos)
    ensures !IsRemoved(RunHandler(e, cmds).element)
    decreases |cmds|
  {
    if |cmds| > 0 {
      var c, rest := cmds[0], cmds[1..];
      var next := if ApplyCommand(e, c).Success? then ApplyCommand(e, c).value else e;
      assert !IsRemoved(next) && Queue(next, pos) == Queue(e, pos) + Inserted(c, pos) by {
        InsertionStep(e, c, pos);
      }
      assert RunHandler(e, cmds).element == RunHandler(next, rest).element by {
        RunHandlerStep(e, cmds);
      }
      assert forall i :: 0 <= i < |rest| ==> !IsRemoval(rest[i]) by {
        forall i | 0 <= i < |rest|
          ensures !IsRemoval(rest[i])
        {
          assert rest[i] == cmds[i + 1];
        }
      }
      InsertionsInCallOrder(next, rest, pos);
      assert Insertions(cmds, pos) == Inserted(c, pos) + Insertions(rest, pos);
      AppendAssociates(Queue(e, pos), Inserted(c, pos), Insertions(rest, pos));
    }
  }


  // ---------------------------------------------------------------------
  // Serialisation at the splice points

  function AttributeText(a: Attribute): string
  {
    match a.raw
    case Some(raw) => raw
    case None => a.name + "=\"" + a.value + "\""
  }

  function AttributesText(attributes: seq<Attribute>): string
  {
    if |attributes| == 0 then "" else " " + AttributeText(attributes[0]) + AttributesText(attributes[1..])
  }

  /** The start tag: its source text while untouched, else re-serialised. */
  function StartTagText(e: Element): string
  {
    if !e.startTagModified then e.raw
    else "<" + e.name + AttributesText(e.attributes) + (if e.selfClosing then " /" else "") + ">"
  }

  /** Whether the queued `prepend`/`append` content is still wanted. */
  predicate InteriorKept(e: Element)
  {
    !e.interiorRemoved
  }

  /** What replaces the start tag in the output: the `before` queue, the tag
      (or the replacement, or nothing once removed), then the `prepend` queue;
      a void element has no end tag, so its `after` queue follows at once. */
  function StartOutput(e: Element): string
  {
    Concat(e.before)
    + (if e.tagsRemoved then (match e.replacement case Some(s) => s case None => "") else StartTagText(e))
    + (if !e.canHaveContent then Concat(e.after) else if InteriorKept(e) then Concat(e.prepend) else "")
  }

  /** A handle with nothing queued or removed renders as its start tag alone. */
  lemma StartOutputIsStartTag(e: Element)
    requires e.before == [] && !e.tagsRemoved
    requires e.canHaveContent ==> e.prepend == []
    requires !e.canHaveContent ==> e.after == []
    ensures StartOutput(e) == StartTagText(e)
  {
  }

  /** The end-tag handle the element's end tag gets. */
  function EndTagFor(e: Element, raw: string): EndTag
  {
    EndTag(e.name, raw, e.renamed, [], [], false)
  }

  /** What replaces the end tag in the output: the `append` queue and the
      end-tag handlers' `before`, the tag unless removed, then the `after`
      queues. */
  function EndOutput(e: Element, t: EndTag): string
  {
    (if InteriorKept(e) then Concat(e.append) + Concat(t.before) else "")
    + (if e.tagsRemoved || t.removed then "" else EndTagText(t))
    + Concat(e.after) + Concat(t.after)
  }

  /** An untouched element is copied verbatim at both splice points. */
  lemma UntouchedIsVerbatim(name: string, ns: Namespace, attributes: seq<Attribute>, selfClosing: bool, raw: string, endRaw: string)
    ensures var e := NewElement(name, ns, attributes, selfClosing, raw);
            StartOutput(e) == raw && EndOutput(e, RunEndTagHandlers(EndTagFor(e, endRaw), e.endTagHandlers)) == endRaw
  {
  }

  /** The end tag as it is put back: nothing once removed. */
  function EndTagPart(t: EndTag): string
  {
    if t.removed then "" else EndTagText(t)
  }

  /** A live element with content renders as its `before` queue, its start
      tag and its `prepend` queue at the start-tag splice point, and as its
      `append` queue, the end-tag handlers' `before`, the end tag, its
      `after` queue and the handlers' `after` at the end-tag splice point. */
  lemma LiveOutputs(e: Element, t: EndTag)
    requires !IsRemoved(e) && WellFormed(e) && e.canHaveContent
    ensures StartOutput(e) == Concat(e.before) + StartTagText(e) + Concat(e.prepend)
    ensures EndOutput(e, t) == Concat(e.append) + Concat(t.before) + EndTagPart(t) + Concat(e.after) + Concat(t.after)
  {
  }

  /** `before` lands right in front of the start tag, behind earlier `before`
      content; the end-tag splice point is unchanged. */
  lemma BeforePlacement(e: Element, t: EndTag, content: string, ct: ContentType)
    requires !IsRemoved(e) && WellFormed(e) && e.canHaveContent
    ensures StartOutput(Before(e, content, ct))
            == Concat(e.before) + RenderContent(content, ct) + StartTagText(e) + Concat(e.prepend)
    ensures EndOutput(Before(e, content, ct), t) == EndOutput(e, t)
  {
    ConcatSnoc(e.before, RenderContent(content, ct));
  }

  /** `prepend` lands right after the start tag and the earlier prepended
      content; the end-tag splice point is unchanged. */
  lemma PrependPlacement(e: Element, t: EndTag, content: string, ct: ContentType)
    requires !IsRemoved(e) && WellFormed(e) && e.canHaveContent
    ensures StartOutput(Prepend(e, content, ct))
            == Concat(e.before) + StartTagText(e) + Concat(e.prepend) + RenderContent(content, ct)
    ensures StartOutput(Prepend(e, content, ct)) == StartOutput(e) + RenderContent(content, ct)
    ensures EndOutput(Prepend(e, content, ct), t) == EndOutput(e, t)
  {
    var c := RenderContent(content, ct);
    ConcatSnoc(e.prepend, c);
    var y := Concat(e.before) + StartTagText(e);
    assert StartOutput(Prepend(e, content, ct)) == y + (Concat(e.prepend) + c);
    AppendAssociates(y, Concat(e.prepend), c);
  }

  /** `append` lands behind the earlier appended content and in front of the
      end tag (and of what its handlers put before it); the start-tag splice
      point is unchanged. */
  lemma AppendPlacement(e: Element, t: EndTag, content: string, ct: ContentType)
    requires !IsRemoved(e) && WellFormed(e) && e.canHaveContent
    ensures EndOutput(Append(e, content, ct), t)
            == Concat(e.append) + RenderContent(content, ct) + Concat(t.before) + EndTagPart(t)
               + Concat(e.after) + Concat(t.after)
    ensures StartOutput(Append(e, content, ct)) == StartOutput(e)
  {
    ConcatSnoc(e.append, RenderContent(content, ct));
  }

  /** `after` lands behind the end tag and the earlier `after` content, in
      front of what the end-tag handlers put after it; a void element has no
      end tag, so there it follows the start tag at once. */
  lemma AfterPlacement(e: Element, t: EndTag, content: string, ct: ContentType)
    requires !IsRemoved(e) && WellFormed(e)
    ensures e.canHaveContent ==>
              EndOutput(After(e, content, ct), t)
              == Concat(e.append) + Concat(t.before) + EndTagPart(t)
                 + Concat(e.after) + RenderContent(content, ct) + Concat(t.after)
              && StartOutput(After(e, content, ct)) == StartOutput(e)
    ensures !e.canHaveContent ==>
              StartOutput(After(e, content, ct)) == StartOutput(e) + RenderContent(content, ct)
  {
    var c := RenderContent(content, ct);
    var e' := After(e, content, ct);
    ConcatSnoc(e.after, c);
    if e.canHaveContent {
      var y := Concat(e.append) + Concat(t.before) + EndTagPart(t);
      assert EndOutput(e', t) == y + (Concat(e.after) + c) + Concat(t.after);
      AppendAssociates(y, Concat(e.after), c);
    } else {
      var y := Concat(e.before) + StartTagText(e);
      assert StartOutput(e') == y + (Concat(e.after) + c);
      AppendAssociates(y, Concat(e.after), c);
    }
  }

  /** `set_inner_content` on a live element: its content follows the start
      tag like a prepend, the end-tag splice point is unchanged, and the
      children are suppressed. */
  lemma SetInnerContentOutput(e: Element, t: EndTag, content: string, ct: ContentType)
    requires !IsRemoved(e) && WellFormed(e) && e.canHaveContent
    ensures StartOutput(SetInnerContent(e, content, ct)) == StartOutput(e) + RenderContent(content, ct)
    ensures EndOutput(SetInnerContent(e, content, ct), t) == EndOutput(e, t)
    ensures SetInnerContent(e, content, ct).contentRemoved && WellFormed(SetInnerContent(e, content, ct))
  {
    var c := RenderContent(content, ct);
    ConcatSnoc(e.prepend, c);
    var y := Concat(e.before) + StartTagText(e);
    assert StartOutput(SetInnerContent(e, content, ct)) == y + (Concat(e.prepend) + c);
    AppendAssociates(y, Concat(e.prepend), c);
  }

  /** `set_inner_content` then `remove_and_keep_content`: the tags go, the new
      content stays. */
  lemma InnerContentSurvivesUnwrap(e: Element, t: EndTag, content: string, ct: ContentType)
    requires !IsRemoved(e) && WellFormed(e) && e.canHaveContent
    ensures StartOutput(RemoveAndKeepContent(SetInnerContent(e, content, ct)))
            == Concat(e.before) + Concat(e.prepend) + RenderContent(content, ct)
    ensures EndOutput(RemoveAndKeepContent(SetInnerContent(e, content, ct)), t)
            == Concat(e.append) + Concat(t.before) + Concat(e.after) + Concat(t.after)
  {
    var inner := SetInnerContent(e, content, ct);
    RemoveAndKeepContentDropsTags(inner, t);
    ConcatSnoc(e.prepend, RenderContent(content, ct));
  }

  /** `remove` leaves only what was queued outside the element: no tags, no
      `prepend` or `append` content. */
  lemma RemoveLeavesOnlyOutside(e: Element, t: EndTag)
    requires !IsRemoved(e) && WellFormed(e)
    ensures StartOutput(Remove(e)) == Concat(e.before) + (if e.canHaveContent then "" else Concat(e.after))
    ensures EndOutput(Remove(e), t) == Concat(e.after) + Concat(t.after)
  {
  }

  /** `remove_and_keep_content` drops just the two tags. */
  lemma RemoveAndKeepContentDropsTags(e: Element, t: EndTag)
    requires !IsRemoved(e) && WellFormed(e) && e.canHaveContent
    ensures StartOutput(RemoveAndKeepContent(e)) == Concat(e.before) + Concat(e.prepend)
    ensures EndOutput(RemoveAndKeepContent(e), t) == Concat(e.append) + Concat(t.before) + Concat(e.after) + Concat(t.after)
  {
  }

  /** `replace` puts the replacement between the outside queues and nothing else. */
  lemma ReplaceEmitsReplacement(e: Element, t: EndTag, content: string, ct: ContentType)
    requires !IsRemoved(e) && e.canHaveContent
    ensures StartOutput(Replace(e, content, ct)) == Concat(e.before) + RenderContent(content, ct)
    ensures EndOutput(Replace(e, content, ct), t) == Concat(e.after) + Concat(t.after)
  {
  }

  /** Insertions made after removal change nothing in the output. */
  lemma InsertionsAfterRemovalDropped(e: Element, c: ElementCommand, t: EndTag)
    requires IsRemoved(e)
    requires c.InsertBefore? || c.InsertPrepend? || c.InsertAppend? || c.InsertAfter? || c.InnerContentSet?
    ensures ApplyCommand(e, c) == Success(e)
    ensures StartOutput(ApplyCommand(e, c).value) == StartOutput(e)
    ensures EndOutput(ApplyCommand(e, c).value, t) == EndOutput(e, t)
  {
  }
}
