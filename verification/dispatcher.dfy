/** The transform-stream dispatcher: it sits between the parser and the output
    sink, keeps a cursor to the end of the last lexeme the token capturer
    consumed, copies the untouched input between consumed lexemes verbatim,
    and decides (through a few flags) whether the parser must lex the next tag
    or may merely scan for tags.

    The transform controller and the token capturer are not part of this
    model; they appear as the oracle functions of `Env`. */
module Dispatcher {
  import opened Base

  /** A half-open range `[start, end)` of the current input chunk. */
  datatype Range = Range(start: nat, end: nat)

  /** A range that lies inside a chunk of `len` bytes. */
  predicate InChunk(r: Range, len: nat)
  {
    r.start <= r.end <= len
  }

  /** Kinds of tokens the capturer can be asked to produce. */
  datatype CaptureFlag = Text | Comments | Doctypes | NextStartTag | NextEndTag

  type CaptureFlags = set<CaptureFlag>

  /** The flags that ask for the tag currently being handled. */
  const TagCaptureFlags: CaptureFlags := {NextStartTag, NextEndTag}

  datatype ParserDirective = Lex | ScanForTags

  /** A hash of a tag name; only compared for equality here. */
  type NameHash = nat

  /** Identifies a boxed element-modifiers-info handler of the controller. */
  type HandlerId = nat

  datatype TagNameInfo = TagNameInfo(name: Range, nameHash: NameHash)

  datatype AttributeOutline = AttributeOutline(name: Range, value: Range)

  datatype TagTokenOutline =
    | StartTag(name: Range, nameHash: NameHash, attributes: seq<AttributeOutline>, selfClosing: bool)
    | EndTag(name: Range, nameHash: NameHash)

  datatype NonTagContentOutline = TextContent | CommentContent | DoctypeContent | EofContent

  /** A lexeme: its raw range in the current chunk and its outline. */
  datatype Lexeme<T> = Lexeme(raw: Range, outline: T)

  type TagLexeme = Lexeme<TagTokenOutline>

  type NonTagContentLexeme = Lexeme<NonTagContentOutline>

  datatype TagHint = StartTagHint(info: TagNameInfo) | EndTagHint(info: TagNameInfo)

  /** Attributes and self-closing flag handed to a modifiers-info handler. */
  datatype ElementModifiersInfo = ElementModifiersInfo(attributes: seq<AttributeOutline>, selfClosing: bool)

  datatype ElementStartResponse =
    | ContentSettings(flags: CaptureFlags)
    | RequestElementModifiersInfo(handler: HandlerId)

  /** What the token capturer reports while it is fed one lexeme.  A produced
      token is given as the chunks its serialisation hands to the output sink,
      after the transform controller's handlers have mutated it. */
  datatype TokenCapturerEvent = LexemeConsumed | TokenProduced(serialized: seq<Bytes>)

  /** The collaborators the dispatcher calls, as oracles. */
  datatype Env = Env(
    documentLevelContentSettings: CaptureFlags,
    handleElementStart: TagNameInfo -> ElementStartResponse,
    handleElementEnd: TagNameInfo -> CaptureFlags,
    runModifiersInfoHandler: (HandlerId, ElementModifiersInfo) -> CaptureFlags,
    feedTag: (CaptureFlags, TagLexeme) -> seq<TokenCapturerEvent>,
    feedNonTagContent: (CaptureFlags, NonTagContentLexeme) -> seq<TokenCapturerEvent>)

  /** The dispatcher's own state; `captureFlags` stands for the token capturer's flags. */
  datatype Dispatcher = Dispatcher(
    lastConsumedLexemeEnd: nat,
    captureFlags: CaptureFlags,
    gotCaptureFlagsFromTagHint: bool,
    pendingElementModifiersInfoHandler: Option<HandlerId>)

  /** A new state together with the chunks handed to the output sink. */
  datatype Emitted = Emitted(state: Dispatcher, chunks: seq<Bytes>)

  /** As `Emitted`, plus the directive returned to the parser. */
  datatype Directed = Directed(state: Dispatcher, chunks: seq<Bytes>, directive: ParserDirective)

  /** A pending modifiers-info handler is only ever waiting for a tag whose
      flags have not been decided by a hint. */
  predicate Inv(d: Dispatcher)
  {
    !(d.gotCaptureFlagsFromTagHint && d.pendingElementModifiersInfoHandler.Some?)
  }

  function New(env: Env): (d: Dispatcher)
    ensures d.lastConsumedLexemeEnd == 0
    ensures d.pendingElementModifiersInfoHandler == None
    ensures !d.gotCaptureFlagsFromTagHint
    ensures d.captureFlags == env.documentLevelContentSettings
    ensures Inv(d)
  {
    Dispatcher(0, env.documentLevelContentSettings, false, None)
  }

  /** End of a chunk: hand over everything after the cursor except the
      blocked tail, and reset the cursor for the next chunk. */
  function FlushRemainingInput(d: Dispatcher, input: Bytes, blockedByteCount: nat): (r: Emitted)
    requires blockedByteCount <= |input|
    requires d.lastConsumedLexemeEnd <= |input| - blockedByteCount
    ensures Concat(r.chunks) == input[d.lastConsumedLexemeEnd .. |input| - blockedByteCount]
    ensures forall i :: 0 <= i < |r.chunks| ==> r.chunks[i] != []
    ensures |r.chunks| <= 1
    ensures r.state == d.(lastConsumedLexemeEnd := 0)
  {
    var output := input[d.lastConsumedLexemeEnd .. |input| - blockedByteCount];
    Emitted(d.(lastConsumedLexemeEnd := 0), if output != [] then [output] else [])
  }

  predicate Consumes(events: seq<TokenCapturerEvent>)
  {
    LexemeConsumed in events
  }

  /** The bytes of the tokens among `events`, in order. */
  function TokenBytes(events: seq<TokenCapturerEvent>): Bytes
  {
    if |events| == 0 then []
    else (if events[0].TokenProduced? then Concat(events[0].serialized) else [])
         + TokenBytes(events[1..])
  }

  /** The chunks the capturer's callback hands to the sink for `events`: the
      gap `input[gapStart..gapEnd]` on every consumption, a token's chunks on
      every produced token. */
  function EventChunks(input: Bytes, gapStart: nat, gapEnd: nat, events: seq<TokenCapturerEvent>): (r: seq<Bytes>)
    requires gapStart <= gapEnd <= |input|
    ensures !Consumes(events) ==> Concat(r) == TokenBytes(events)
    ensures |events| > 0 && events[0] == LexemeConsumed ==> |r| > 0 && r[0] == input[gapStart..gapEnd]
  {
    if |events| == 0 then []
    else
      var head := match events[0]
        case LexemeConsumed => [input[gapStart..gapEnd]]
        case TokenProduced(s) => s;
      var rest := EventChunks(input, gapStart, gapEnd, events[1..]);
      ConcatAppend(head, rest);
      head + rest
  }

  /** Feed one lexeme's capturer events through the dispatcher. */
  function TryProduceTokenFromLexeme(d: Dispatcher, input: Bytes, raw: Range, events: seq<TokenCapturerEvent>): (r: Emitted)
    requires InChunk(raw, |input|)
    requires d.lastConsumedLexemeEnd <= raw.start
    ensures r.state.lastConsumedLexemeEnd == (if Consumes(events) then raw.end else d.lastConsumedLexemeEnd)
    ensures r.state == d.(lastConsumedLexemeEnd := r.state.lastConsumedLexemeEnd)
    ensures !Consumes(events) ==> Concat(r.chunks) == TokenBytes(events)
    ensures |events| > 0 && events[0] == LexemeConsumed ==>
              |r.chunks| > 0 && r.chunks[0] == input[d.lastConsumedLexemeEnd .. raw.start]
  {
    var chunks := EventChunks(input, d.lastConsumedLexemeEnd, raw.start, events);
    if Consumes(events) then Emitted(d.(lastConsumedLexemeEnd := raw.end), chunks)
    else Emitted(d, chunks)
  }

  /** The usual shape of a consumption: the lexeme is consumed and then its
      tokens are produced.  The sink then receives the untouched gap followed by
      the tokens' bytes, and nothing else. */
  lemma {:induction false} ConsumedLexemeOutput(d: Dispatcher, input: Bytes, raw: Range, tokens: seq<TokenCapturerEvent>)
    requires InChunk(raw, |input|)
    requires d.lastConsumedLexemeEnd <= raw.start
    requires !Consumes(tokens)
    ensures var r := TryProduceTokenFromLexeme(d, input, raw, [LexemeConsumed] + tokens);
            Concat(r.chunks) == input[d.lastConsumedLexemeEnd .. raw.start] + TokenBytes(tokens)
            && r.state.lastConsumedLexemeEnd == raw.end
  {
    var events := [LexemeConsumed] + tokens;
    assert events[1..] == tokens;
    var rest := EventChunks(input, d.lastConsumedLexemeEnd, raw.start, tokens);
    assert EventChunks(input, d.lastConsumedLexemeEnd, raw.start, events)
        == [input[d.lastConsumedLexemeEnd .. raw.start]] + rest;
    ConcatAppend([input[d.lastConsumedLexemeEnd .. raw.start]], rest);
  }

  function NextParserDirective(d: Dispatcher): (r: ParserDirective)
    ensures r == Lex <==> d.captureFlags != {}
  {
    if d.captureFlags != {} then Lex else ScanForTags
  }

  function NameInfo(outline: TagTokenOutline): TagNameInfo
  {
    TagNameInfo(outline.name, outline.nameHash)
  }

  function ModifiersInfo(outline: TagTokenOutline): ElementModifiersInfo
    requires outline.StartTag?
  {
    ElementModifiersInfo(outline.attributes, outline.selfClosing)
  }

  /** Ask the controller (or the pending modifiers-info handler) for the flags
      of a tag that was lexed without a hint. */
  function AdjustCaptureFlagsForTagLexeme(env: Env, d: Dispatcher, lexeme: TagLexeme): (r: Dispatcher)
    requires d.pendingElementModifiersInfoHandler.Some? ==> lexeme.outline.StartTag?
    ensures r.pendingElementModifiersInfoHandler == None
    ensures r == d.(captureFlags := r.captureFlags, pendingElementModifiersInfoHandler := None)
    ensures d.pendingElementModifiersInfoHandler.Some? ==>
              r.captureFlags == env.runModifiersInfoHandler(d.pendingElementModifiersInfoHandler.value, ModifiersInfo(lexeme.outline))
    ensures d.pendingElementModifiersInfoHandler.None? && lexeme.outline.EndTag? ==>
              r.captureFlags == env.handleElementEnd(NameInfo(lexeme.outline))
    ensures d.pendingElementModifiersInfoHandler.None? && lexeme.outline.StartTag? ==>
              match env.handleElementStart(NameInfo(lexeme.outline))
              case ContentSettings(flags) => r.captureFlags == flags
              case RequestElementModifiersInfo(h) => r.captureFlags == env.runModifiersInfoHandler(h, ModifiersInfo(lexeme.outline))
  {
    var flags :=
      match d.pendingElementModifiersInfoHandler
      case Some(handler) => env.runModifiersInfoHandler(handler, ModifiersInfo(lexeme.outline))
      case None =>
        match lexeme.outline
        case StartTag(_, _, _, _) =>
          (match env.handleElementStart(NameInfo(lexeme.outline))
           case ContentSettings(settings) => settings
           case RequestElementModifiersInfo(handler) =>
             env.runModifiersInfoHandler(handler, ModifiersInfo(lexeme.outline)))
        case EndTag(_, _) => env.handleElementEnd(NameInfo(lexeme.outline));
    d.(captureFlags := flags, pendingElementModifiersInfoHandler := None)
  }

  /** The parser hands over a lexed tag. */
  function HandleTag(env: Env, d: Dispatcher, input: Bytes, lexeme: TagLexeme): (r: Directed)
    requires InChunk(lexeme.raw, |input|)
    requires d.lastConsumedLexemeEnd <= lexeme.raw.start
    requires !d.gotCaptureFlagsFromTagHint && d.pendingElementModifiersInfoHandler.Some? ==> lexeme.outline.StartTag?
    ensures !r.state.gotCaptureFlagsFromTagHint
    ensures d.gotCaptureFlagsFromTagHint ==>
              r.state.captureFlags == d.captureFlags - TagCaptureFlags
              && r.state.pendingElementModifiersInfoHandler == d.pendingElementModifiersInfoHandler
    ensures !d.gotCaptureFlagsFromTagHint ==> r.state.pendingElementModifiersInfoHandler == None
    ensures Inv(d) ==> r.state.pendingElementModifiersInfoHandler == None
    ensures r.state.captureFlags * TagCaptureFlags == {}
    ensures r.directive == Lex <==> r.state.captureFlags != {}
    ensures !d.gotCaptureFlagsFromTagHint ==>
              r.state.captureFlags == AdjustCaptureFlagsForTagLexeme(env, d, lexeme).captureFlags - TagCaptureFlags
    ensures var fed := if d.gotCaptureFlagsFromTagHint then d.captureFlags
                       else AdjustCaptureFlagsForTagLexeme(env, d, lexeme).captureFlags;
            var events := env.feedTag(fed, lexeme);
            r.chunks == EventChunks(input, d.lastConsumedLexemeEnd, lexeme.raw.start, events)
            && r.state.lastConsumedLexemeEnd == (if Consumes(events) then lexeme.raw.end else d.lastConsumedLexemeEnd)
    ensures r.state.lastConsumedLexemeEnd == d.lastConsumedLexemeEnd || r.state.lastConsumedLexemeEnd == lexeme.raw.end
  {
    var adjusted :=
      if d.gotCaptureFlagsFromTagHint then d.(gotCaptureFlagsFromTagHint := false)
      else AdjustCaptureFlagsForTagLexeme(env, d, lexeme);
    var produced := TryProduceTokenFromLexeme(adjusted, input, lexeme.raw, env.feedTag(adjusted.captureFlags, lexeme));
    var stopped := produced.state.(captureFlags := produced.state.captureFlags - TagCaptureFlags);
    Directed(stopped, produced.chunks, NextParserDirective(stopped))
  }

  /** The parser hands over text, a comment, a doctype or the end of input. */
  function HandleNonTagContent(env: Env, d: Dispatcher, input: Bytes, lexeme: NonTagContentLexeme): (r: Emitted)
    requires InChunk(lexeme.raw, |input|)
    requires d.lastConsumedLexemeEnd <= lexeme.raw.start
    ensures r.state == d.(lastConsumedLexemeEnd := r.state.lastConsumedLexemeEnd)
    ensures var events := env.feedNonTagContent(d.captureFlags, lexeme);
            r.chunks == EventChunks(input, d.lastConsumedLexemeEnd, lexeme.raw.start, events)
            && r.state.lastConsumedLexemeEnd == (if Consumes(events) then lexeme.raw.end else d.lastConsumedLexemeEnd)
  {
    TryProduceTokenFromLexeme(d, input, lexeme.raw, env.feedNonTagContent(d.captureFlags, lexeme))
  }

  /** The tag scanner's hint, as written in the source: a request for
      modifiers info leaves `gotCaptureFlagsFromTagHint` as it was. */
  function HandleTagHintAsWritten(env: Env, d: Dispatcher, hint: TagHint): (r: Directed)
    ensures r.chunks == []
    ensures r.state.lastConsumedLexemeEnd == d.lastConsumedLexemeEnd
    ensures hint.StartTagHint? && env.handleElementStart(hint.info).RequestElementModifiersInfo? ==>
              r.directive == Lex
              && r.state == d.(pendingElementModifiersInfoHandler := Some(env.handleElementStart(hint.info).handler))
    ensures hint.StartTagHint? && env.handleElementStart(hint.info).ContentSettings? ==>
              r.state.captureFlags == env.handleElementStart(hint.info).flags
    ensures hint.EndTagHint? ==> r.state.captureFlags == env.handleElementEnd(hint.info)
    ensures !(hint.StartTagHint? && env.handleElementStart(hint.info).RequestElementModifiersInfo?) ==>
              r.state.gotCaptureFlagsFromTagHint
              && r.state.pendingElementModifiersInfoHandler == d.pendingElementModifiersInfoHandler
              && (r.directive == Lex <==> r.state.captureFlags != {})
  {
    match hint
    case StartTagHint(info) =>
      (match env.handleElementStart(info)
       case RequestElementModifiersInfo(handler) =>
         Directed(d.(pendingElementModifiersInfoHandler := Some(handler)), [], Lex)
       case ContentSettings(settings) =>
         var s := d.(captureFlags := settings, gotCaptureFlagsFromTagHint := true);
         Directed(s, [], NextParserDirective(s)))
    case EndTagHint(info) =>
      var s := d.(captureFlags := env.handleElementEnd(info), gotCaptureFlagsFromTagHint := true);
      Directed(s, [], NextParserDirective(s))
  }

  /** The tag scanner's hint, corrected: a request for modifiers info also
      clears `gotCaptureFlagsFromTagHint`, so that the tag lexed next runs the
      pending handler.  The rest of the model uses this definition. */
  function HandleTagHint(env: Env, d: Dispatcher, hint: TagHint): (r: Directed)
    ensures r.chunks == []
    ensures r.state.lastConsumedLexemeEnd == d.lastConsumedLexemeEnd
    ensures hint.StartTagHint? && env.handleElementStart(hint.info).RequestElementModifiersInfo? ==>
              r.directive == Lex
              && r.state.pendingElementModifiersInfoHandler == Some(env.handleElementStart(hint.info).handler)
              && !r.state.gotCaptureFlagsFromTagHint
              && r.state.captureFlags == d.captureFlags
    ensures hint.StartTagHint? && env.handleElementStart(hint.info).ContentSettings? ==>
              r.state.captureFlags == env.handleElementStart(hint.info).flags
    ensures hint.EndTagHint? ==> r.state.captureFlags == env.handleElementEnd(hint.info)
    ensures !(hint.StartTagHint? && env.handleElementStart(hint.info).RequestElementModifiersInfo?) ==>
              r.state.gotCaptureFlagsFromTagHint
              && r.state.pendingElementModifiersInfoHandler == d.pendingElementModifiersInfoHandler
              && (r.directive == Lex <==> r.state.captureFlags != {})
  {
    match hint
    case StartTagHint(info) =>
      (match env.handleElementStart(info)
       case RequestElementModifiersInfo(handler) =>
         Directed(d.(pendingElementModifiersInfoHandler := Some(handler), gotCaptureFlagsFromTagHint := false), [], Lex)
       case ContentSettings(settings) =>
         var s := d.(captureFlags := settings, gotCaptureFlagsFromTagHint := true);
         Directed(s, [], NextParserDirective(s)))
    case EndTagHint(info) =>
      var s := d.(captureFlags := env.handleElementEnd(info), gotCaptureFlagsFromTagHint := true);
      Directed(s, [], NextParserDirective(s))
  }

  /** A hint arrives only while no modifiers-info request is outstanding (a
      `Lex` directive makes the parser lex that tag first).  Under that
      protocol the corrected hint handler keeps the invariant. */
  lemma HintPreservesInv(env: Env, d: Dispatcher, hint: TagHint)
    requires Inv(d)
    requires d.pendingElementModifiersInfoHandler.None?
    ensures Inv(HandleTagHint(env, d, hint).state)
  {
  }

  lemma TagPreservesInv(env: Env, d: Dispatcher, input: Bytes, lexeme: TagLexeme)
    requires InChunk(lexeme.raw, |input|)
    requires d.lastConsumedLexemeEnd <= lexeme.raw.start
    requires !d.gotCaptureFlagsFromTagHint && d.pendingElementModifiersInfoHandler.Some? ==> lexeme.outline.StartTag?
    ensures Inv(HandleTag(env, d, input, lexeme).state)
  {
  }

  /** The discrepancy of the source's hint handler: after a hint whose flags
      asked for nothing (so no tag was lexed and the flag stayed set), a hint
      that requests modifiers info is followed by a lexed tag for which the
      handler is never run: it is still pending afterwards. */
  lemma AsWrittenHintLosesModifiersHandler()
    ensures var env := Env({}, (i: TagNameInfo) => if i.nameHash == 1 then ContentSettings({})
                                                   else RequestElementModifiersInfo(7),
                           (i: TagNameInfo) => {}, (h: HandlerId, m: ElementModifiersInfo) => {Text},
                           (f: CaptureFlags, l: TagLexeme) => [], (f: CaptureFlags, l: NonTagContentLexeme) => []);
            var d0 := New(env);
            var d1 := HandleTagHintAsWritten(env, d0, StartTagHint(TagNameInfo(Range(1, 2), 1))).state;
            var d2 := HandleTagHintAsWritten(env, d1, StartTagHint(TagNameInfo(Range(4, 7), 2))).state;
            var lexeme := Lexeme(Range(3, 12), StartTag(Range(4, 7), 2, [], false));
            var r := HandleTag(env, d2, seq(12, i => 0 as byte), lexeme);
            !Inv(d2)
            && r.state.pendingElementModifiersInfoHandler == Some(7)
            && r.state.captureFlags == {}
  {
  }

  /** With the corrected hint handler the same calls run the handler: its
      flags are in force when the tag is fed to the capturer. */
  lemma CorrectedHintRunsModifiersHandler()
    ensures var env := Env({}, (i: TagNameInfo) => if i.nameHash == 1 then ContentSettings({})
                                                   else RequestElementModifiersInfo(7),
                           (i: TagNameInfo) => {}, (h: HandlerId, m: ElementModifiersInfo) => {Text},
                           (f: CaptureFlags, l: TagLexeme) => [], (f: CaptureFlags, l: NonTagContentLexeme) => []);
            var d0 := New(env);
            var d1 := HandleTagHint(env, d0, StartTagHint(TagNameInfo(Range(1, 2), 1))).state;
            var d2 := HandleTagHint(env, d1, StartTagHint(TagNameInfo(Range(4, 7), 2))).state;
            var lexeme := Lexeme(Range(3, 12), StartTag(Range(4, 7), 2, [], false));
            var r := HandleTag(env, d2, seq(12, i => 0 as byte), lexeme);
            Inv(d2)
            && r.state.pendingElementModifiersInfoHandler == None
            && r.state.captureFlags == {Text}
            && r.directive == Lex
  {
  }

  // ---------------------------------------------------------------------
  // A chunk: the consumptions of its lexemes, then the flush.

  /** One lexeme of a chunk and what the capturer reported for it. */
  datatype Consumption = Consumption(raw: Range, events: seq<TokenCapturerEvent>)

  /** Lexemes arrive in input order, none before `from`, all inside `limit`. */
  predicate Ordered(from: nat, steps: seq<Consumption>, limit: nat)
    decreases |steps|
  {
    from <= limit
    && (|steps| == 0 || (from <= steps[0].raw.start <= steps[0].raw.end <= limit && Ordered(steps[0].raw.end, steps[1..], limit)))
  }

  lemma {:induction false} OrderedWeaken(from: nat, from': nat, steps: seq<Consumption>, limit: nat)
    requires from' <= from
    requires Ordered(from, steps, limit)
    ensures Ordered(from', steps, limit)
  {
  }

  /** Feed a chunk's lexemes one after the other. */
  function Splice(d: Dispatcher, input: Bytes, steps: seq<Consumption>): (r: Emitted)
    requires Ordered(d.lastConsumedLexemeEnd, steps, |input|)
    ensures d.lastConsumedLexemeEnd <= r.state.lastConsumedLexemeEnd <= |input|
    ensures r.state == d.(lastConsumedLexemeEnd := r.state.lastConsumedLexemeEnd)
    decreases |steps|
  {
    if |steps| == 0 then Emitted(d, [])
    else
      var first := TryProduceTokenFromLexeme(d, input, steps[0].raw, steps[0].events);
      OrderedWeaken(steps[0].raw.end, first.state.lastConsumedLexemeEnd, steps[1..], |input|);
      var rest := Splice(first.state, input, steps[1..]);
      Emitted(rest.state, first.chunks + rest.chunks)
  }

  /** The capturer reports nothing, or consumes the lexeme and produces tokens
      that serialise to exactly the lexeme's own bytes. */
  predicate Verbatim(input: Bytes, step: Consumption)
    requires InChunk(step.raw, |input|)
  {
    || step.events == []
    || (&& |step.events| > 0
        && step.events[0] == LexemeConsumed
        && !Consumes(step.events[1..])
        && TokenBytes(step.events[1..]) == input[step.raw.start .. step.raw.end])
  }

  predicate AllVerbatim(input: Bytes, steps: seq<Consumption>)
  {
    forall i :: 0 <= i < |steps| ==> InChunk(steps[i].raw, |input|) && Verbatim(input, steps[i])
  }

  /** One untouched lexeme emits the input from the cursor to its new position. */
  lemma VerbatimStep(d: Dispatcher, input: Bytes, step: Consumption)
    requires InChunk(step.raw, |input|)
    requires d.lastConsumedLexemeEnd <= step.raw.start
    requires Verbatim(input, step)
    ensures var first := TryProduceTokenFromLexeme(d, input, step.raw, step.events);
            Concat(first.chunks) == input[d.lastConsumedLexemeEnd .. first.state.lastConsumedLexemeEnd]
  {
    var c := d.lastConsumedLexemeEnd;
    if step.events != [] {
      ConsumedLexemeOutput(d, input, step.raw, step.events[1..]);
      assert [LexemeConsumed] + step.events[1..] == step.events;
      SliceJoin(input, c, step.raw.start, step.raw.end);
    }
  }

  lemma AllVerbatimTail(input: Bytes, steps: seq<Consumption>)
    requires |steps| > 0
    requires AllVerbatim(input, steps)
    ensures AllVerbatim(input, steps[1..])
  {
    forall i | 0 <= i < |steps[1..]|
      ensures InChunk(steps[1..][i].raw, |input|) && Verbatim(input, steps[1..][i])
    {
      assert steps[1..][i] == steps[i + 1];
    }
  }

  /** Two emissions of adjacent slices of the input emit the joined slice. */
  lemma AdjacentSlices(input: Bytes, a: seq<Bytes>, b: seq<Bytes>, c: nat, m: nat, e: nat)
    requires c <= m <= e <= |input|
    requires Concat(a) == input[c .. m] && Concat(b) == input[m .. e]
    ensures Concat(a + b) == input[c .. e]
  {
    ConcatAppend(a, b);
    SliceJoin(input, c, m, e);
  }

  /** With untouched tokens, the lexemes of a chunk emit exactly the input
      from the cursor up to the end of the last consumed lexeme. */
  lemma {:induction false} SpliceVerbatim(d: Dispatcher, input: Bytes, steps: seq<Consumption>)
    requires Ordered(d.lastConsumedLexemeEnd, steps, |input|)
    requires AllVerbatim(input, steps)
    ensures var r := Splice(d, input, steps);
            Concat(r.chunks) == input[d.lastConsumedLexemeEnd .. r.state.lastConsumedLexemeEnd]
    decreases |steps|
  {
    if |steps| > 0 {
      var c := d.lastConsumedLexemeEnd;
      var first := TryProduceTokenFromLexeme(d, input, steps[0].raw, steps[0].events);
      var m := first.state.lastConsumedLexemeEnd;
      assert Concat(first.chunks) == input[c .. m] by {
        VerbatimStep(d, input, steps[0]);
      }
      OrderedWeaken(steps[0].raw.end, m, steps[1..], |input|);
      var rest := Splice(first.state, input, steps[1..]);
      assert Concat(rest.chunks) == input[m .. rest.state.lastConsumedLexemeEnd] by {
        AllVerbatimTail(input, steps);
        SpliceVerbatim(first.state, input, steps[1..]);
      }
      assert Splice(d, input, steps) == Emitted(rest.state, first.chunks + rest.chunks);
      AdjacentSlices(input, first.chunks, rest.chunks, c, m, rest.state.lastConsumedLexemeEnd);
    }
  }

  /** Verbatim preservation for a whole chunk: when no handler touches any
      token, what reaches the sink for the chunk is the chunk without its
      blocked tail, byte for byte, and the cursor is back at 0. */
  lemma ChunkIdentity(env: Env, input: Bytes, steps: seq<Consumption>, blockedByteCount: nat)
    requires blockedByteCount <= |input|
    requires Ordered(0, steps, |input| - blockedByteCount)
    requires AllVerbatim(input, steps)
    ensures Ordered(0, steps, |input|)
    ensures Splice(New(env), input, steps).state.lastConsumedLexemeEnd <= |input| - blockedByteCount
    ensures var s := Splice(New(env), input, steps);
            var f := FlushRemainingInput(s.state, input, blockedByteCount);
            Concat(s.chunks + f.chunks) == input[.. |input| - blockedByteCount]
            && f.state.lastConsumedLexemeEnd == 0
  {
    SpliceBound(New(env), input, steps, |input| - blockedByteCount);
    var s := Splice(New(env), input, steps);
    SpliceVerbatim(New(env), input, steps);
    var f := FlushRemainingInput(s.state, input, blockedByteCount);
    AdjacentSlices(input, s.chunks, f.chunks, 0, s.state.lastConsumedLexemeEnd, |input| - blockedByteCount);
  }

  lemma {:induction false} OrderedWithin(from: nat, steps: seq<Consumption>, limit: nat, limit': nat)
    requires limit <= limit'
    requires Ordered(from, steps, limit)
    ensures Ordered(from, steps, limit')
    decreases |steps|
  {
    if |steps| > 0 {
      OrderedWithin(steps[0].raw.end, steps[1..], limit, limit');
    }
  }

  /** The cursor never passes the last lexeme's end, so the flush slice exists. */
  lemma {:induction false} SpliceBound(d: Dispatcher, input: Bytes, steps: seq<Consumption>, limit: nat)
    requires limit <= |input|
    requires Ordered(d.lastConsumedLexemeEnd, steps, limit)
    ensures Ordered(d.lastConsumedLexemeEnd, steps, |input|)
    ensures Splice(d, input, steps).state.lastConsumedLexemeEnd <= limit
    decreases |steps|
  {
    OrderedWithin(d.lastConsumedLexemeEnd, steps, limit, |input|);
    if |steps| > 0 {
      var first := TryProduceTokenFromLexeme(d, input, steps[0].raw, steps[0].events);
      OrderedWeaken(steps[0].raw.end, first.state.lastConsumedLexemeEnd, steps[1..], limit);
      SpliceBound(first.state, input, steps[1..], limit);
    }
  }

  /** When the capturer consumes no lexeme of a chunk, the cursor never moves
      and the chunk reaches the sink only through the flush, verbatim. */
  lemma {:induction false} NothingConsumed(d: Dispatcher, input: Bytes, steps: seq<Consumption>)
    requires Ordered(d.lastConsumedLexemeEnd, steps, |input|)
    requires forall i :: 0 <= i < |steps| ==> steps[i].events == []
    ensures Splice(d, input, steps) == Emitted(d, [])
    decreases |steps|
  {
    if |steps| > 0 {
      OrderedWeaken(steps[0].raw.end, d.lastConsumedLexemeEnd, steps[1..], |input|);
      NothingConsumed(d, input, steps[1..]);
    }
  }

  /** A chunk none of whose lexemes the capturer reports on reaches the sink
      as one flush of the chunk without its blocked tail (or not at all when
      that is empty). */
  lemma UnconsumedChunkIsFlushOnly(env: Env, input: Bytes, steps: seq<Consumption>, blockedByteCount: nat)
    requires blockedByteCount <= |input|
    requires Ordered(0, steps, |input| - blockedByteCount)
    requires forall i :: 0 <= i < |steps| ==> steps[i].events == []
    ensures Ordered(0, steps, |input|)
    ensures Splice(New(env), input, steps).state.lastConsumedLexemeEnd == 0
    ensures var s := Splice(New(env), input, steps);
            var f := FlushRemainingInput(s.state, input, blockedByteCount);
            s.chunks + f.chunks == (if |input| - blockedByteCount > 0 then [input[.. |input| - blockedByteCount]] else [])
  {
    OrderedWithin(0, steps, |input| - blockedByteCount, |input|);
    NothingConsumed(New(env), input, steps);
  }
}
