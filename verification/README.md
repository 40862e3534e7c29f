# lol-html rewriter core in Dafny

This project models three parts of lol-html, a streaming HTML rewriter.

- **The transform-stream dispatcher** (`src/transform_stream/dispatcher.rs`). It sits between the parser and the output sink.
  - It keeps a cursor, `lastConsumedLexemeEnd`, into the current input chunk.
  - It copies the input between consumed lexemes verbatim.
  - It hands the serialised tokens to the sink.
  - At the end of a chunk it flushes the rest of the chunk, less a blocked tail.
  - It decides, through a flag and a pending modifiers-info handler, whether the parser must lex the next tag or may only scan for it.
  - The transform controller and the token capturer are not part of this model. They appear as the oracle functions of `Dispatcher.Env`.
  - A sink call is one element of a `seq<Bytes>`, so "no call for an empty slice" can be stated.
- **The element and end-tag handles** (module `ElementApi`). The C API test file `c-api/c-tests/src/test_element_api.c` fixes what they do:
  - tag name get/set, with the empty-name error;
  - attribute lookup, set, remove and iteration;
  - `before`/`prepend`/`append`/`after` in text or HTML mode;
  - `set_inner_content`, `replace`, `remove`, `remove_and_keep_content`;
  - end-tag handlers, and the "No end tag." error on void elements.

  Module `Rewrite` renders a flat token list through one element content handler. The element is pushed on an open-element stack; its start tag becomes `StartOutput` and its end tag `EndOutput`. Everything else is copied, unless it lies inside removed content. Module `ElementScenarios` states each C test as a lemma: the test's input, its handler's calls and its expected output, proved by unfolding the rewrite.
- **Two tokenizer fragments.**
  - `TokenizerCondition` is the `appropriate_end_tag` condition, section 13.2.5 of the WHATWG HTML Living Standard. It compares tag-name hashes.
  - `DataState` is the Data state, section 13.2.5.1 of the same standard, as this tokenizer has it. Only `<`, end of chunk and end of file are told apart.

Files: `base.dfy` (bytes, `Option`, `Result`, `Concat`), `html_text.dfy` (text escaping, ASCII case folding, void elements), `element.dfy`, `rewrite.dfy`, `element_scenarios.dfy`, `dispatcher.dfy`, `tokenizer_condition.dfy`, `data_state.dfy`.

Choices the model makes where the C tests leave room:

- **New attribute names are lowercased.** `set_attribute("Bar", "hey")` renders as `bar="hey"` (test_element_api.c:115, 127, 152), so a new name is stored lowercased. An existing attribute keeps its own name.
- **Re-serialised values always get double quotes.** Untouched attributes keep their source text. The only test that changes an attribute adds a new one (test_element_api.c:115).
- **Only `&`, `<` and `>` are escaped in text mode.** The tests pin `&` (test_element_api.c:190, 355). Quotes are harmless in element content.
- **Names are checked against HTML's tag-name syntax.** A tag name must be non-empty, start with an ASCII letter and hold no whitespace, `/` or `>`. An attribute name must be non-empty and hold none of these nor `=`. The tests pin only the empty tag name and its message (test_element_api.c:31-35).
- **Children of an HTML integration point are HTML.** These are `foreignObject`, `desc` and `title` in SVG, and an `annotation-xml` in MathML whose `encoding` is `text/html` or `application/xhtml+xml`. The tests pin `svg` and a `script` inside it (test_element_api.c:667-697).

## Model

| member | source | states |
|---|---|---|
| Dispatcher.New | src/transform_stream/dispatcher.rs:41-54 | A fresh dispatcher has cursor 0, no pending modifiers-info handler and the hint flag unset. Its capture flags are the controller's document-level settings, and it satisfies the dispatcher invariant. |
| Dispatcher.FlushRemainingInput | src/transform_stream/dispatcher.rs:56-67 | The sink receives exactly `input[cursor .. len - blocked]`, in at most one call and never as an empty chunk. The cursor is reset to 0 and nothing else changes. |
| Dispatcher.EventChunks | src/transform_stream/dispatcher.rs:79-95 | A `LexemeConsumed` event first hands over the input gap before the lexeme. Without one, the sink receives exactly the produced tokens' bytes. |
| Dispatcher.TryProduceTokenFromLexeme | src/transform_stream/dispatcher.rs:69-100 | The cursor moves to the lexeme's end if and only if the capturer consumed the lexeme; otherwise it stays. A consumption first emits `input[cursor .. lexeme.start]`. Nothing but the cursor changes. |
| Dispatcher.ConsumedLexemeOutput | src/transform_stream/dispatcher.rs:79-99 | A consumption followed by tokens emits the gap and then the tokens' bytes, and nothing else. The cursor ends at the lexeme's end. |
| Dispatcher.NextParserDirective | src/transform_stream/dispatcher.rs:102-109 | The directive is `Lex` exactly when some capture flag is set, and `ScanForTags` otherwise. |
| Dispatcher.AdjustCaptureFlagsForTagLexeme | src/transform_stream/dispatcher.rs:111-166 | A pending handler is always taken (leaving `None`) and run on the start tag's attributes. Without one, a start tag asks the controller, running a requested handler, and an end tag asks `handle_element_end`. Only the flags change. |
| Dispatcher.HandleTag | src/transform_stream/dispatcher.rs:174-189 | With the hint flag set, the flag is consumed and the hint's flags are fed to the capturer; otherwise the flags are those `adjust_capture_flags_for_tag_lexeme` leaves and the pending handler is cleared. The sink receives exactly the event chunks of the capturer fed those flags, and the cursor moves to the lexeme's end iff it consumed the lexeme. Tag capturing is off afterwards, and the directive is `Lex` iff flags remain. |
| Dispatcher.HandleNonTagContent | src/transform_stream/dispatcher.rs:191-194 | The sink receives the chunks `EventChunks` gives for the capturer's events on the text, comment, doctype or end of input; only the cursor changes in the state, and it moves to the lexeme's end iff the capturer consumed the lexeme. |
| Dispatcher.HandleTagHintAsWritten | src/transform_stream/dispatcher.rs:202-223 | The hint handler as written. A modifiers-info request stores the handler, returns `Lex` and leaves the rest of the state, the hint flag included, untouched. Any other hint makes the flags the controller's answer for that tag, sets the hint flag, keeps the pending handler and returns `Lex` iff flags are set. Nothing is emitted and the cursor stays. |
| Dispatcher.HandleTagHint | src/transform_stream/dispatcher.rs:202-223 | The corrected hint handler (see Findings). A modifiers-info request stores the handler, clears the hint flag and returns `Lex`. Otherwise the flags are the controller's answer, the hint flag is set, and the directive is `Lex` iff flags are set. |
| Dispatcher.HintPreservesInv | src/transform_stream/dispatcher.rs:202-211 | With no request outstanding, the corrected hint handler keeps the invariant: a pending handler is never left behind a set hint flag. |
| Dispatcher.TagPreservesInv | src/transform_stream/dispatcher.rs:174-189 | Handling a tag always re-establishes the invariant. |
| Dispatcher.AsWrittenHintLosesModifiersHandler | src/transform_stream/dispatcher.rs:174-179 | The as-written discrepancy. A hint whose flags ask for nothing, then a hint requesting modifiers info, then the lexed tag: the handler is still pending afterwards and the tag got no flags. |
| Dispatcher.CorrectedHintRunsModifiersHandler | src/transform_stream/dispatcher.rs:202-211 | With the corrected hint handler the same calls run the pending handler on the tag, and its flags take effect. |
| Dispatcher.Splice | src/transform_stream/dispatcher.rs:97-99 | Feeding a chunk's lexemes in order only moves the cursor forward and never past the chunk. |
| Dispatcher.SpliceVerbatim | src/transform_stream/dispatcher.rs:79-99 | When every token is handed back as its own source bytes, the lexemes of a chunk emit exactly the input from the cursor to the new cursor. |
| Dispatcher.ChunkIdentity | src/transform_stream/dispatcher.rs:56-99 | Verbatim preservation: when no handler touches a token, lexemes plus flush emit the chunk without its blocked tail, byte for byte. The cursor is back at 0. |
| Dispatcher.SpliceBound | src/transform_stream/dispatcher.rs:56-60 | The cursor never passes the last lexeme's end, so the flush slice always exists. |
| Dispatcher.NothingConsumed | src/transform_stream/dispatcher.rs:97-99 | If the capturer reports nothing for a chunk's lexemes, the dispatcher emits nothing and its state is unchanged. |
| Dispatcher.UnconsumedChunkIsFlushOnly | src/transform_stream/dispatcher.rs:56-66 | If the capturer reports nothing for any lexeme, the only output is one flush of `input[0 .. len - blocked]`, or nothing when that is empty. |
| TokenizerCondition.AppropriateEndTag | src/tokenizer/state_machine_dsl/condition.rs:1-10 | Defined only while an end tag is being built. It holds exactly when the end tag's name hash equals the last start tag's name hash. |
| TokenizerCondition.OnlyNameHashMatters | src/tokenizer/state_machine_dsl/condition.rs:4 | The end tag's name range plays no part in the condition. |
| TokenizerCondition.MatchesStandard | src/tokenizer/state_machine_dsl/condition.rs:3-5 | With a hash that tells names apart, the condition is the standard's: the end tag's name is the last start tag's name. |
| DataState.DataStateStep | src/tokenizer/state_machine/syntax/text/data.rs:1-10 | The exact action list of each case. Entering runs `enter_initial_text_parsing_mode` first. `<` then emits chars once and moves to tag open, the only way to leave. End of chunk emits chars once. End of file emits chars, then EOF, and only it emits EOF. Any other byte does nothing. |
| DataState.FirstLessThan | src/tokenizer/state_machine/syntax/text/data.rs:4-7 | The first `<` at or after a position: no `<` before it, and it is a `<` unless it is the end. |
| DataState.RunDataState | src/tokenizer/state_machine/syntax/text/data.rs:1-10 | Over a chunk, the Data state stops at the first `<` and leaves for tag open. The actions are enter, then emit chars. At the end of the chunk it stays; at the end of input it also emits EOF. |
| HtmlText.EscapeRoundTrip | c-api/c-tests/src/test_element_api.c:188-212 | Text-mode escaping loses nothing: decoding the three references gives back the inserted text. |
| HtmlText.EscapeAppend | c-api/c-tests/src/test_element_api.c:353-369 | Escaping works character by character, so it distributes over concatenation. |
| HtmlText.EscapedHasNoAngleBrackets | c-api/c-tests/src/test_element_api.c:353-369 | Text inserted in text mode can never contain a tag delimiter. |
| HtmlText.EscapePlainText | c-api/c-tests/src/test_element_api.c:201-212 | Text without `&`, `<` and `>` is inserted unchanged. |
| HtmlText.LowercaseChars | c-api/c-tests/src/test_element_api.c:126-132 | ASCII lowercasing maps each character on its own, so that lookup ignores ASCII case. |
| HtmlText.LowercaseIdempotent | c-api/c-tests/src/test_element_api.c:126-132 | Lowercasing twice is lowercasing once. |
| ElementApi.ElementNamespace | c-api/c-tests/src/test_element_api.c:633-697 | `svg` and `math` enter their namespace; any other element inherits its parent's content namespace. |
| ElementApi.ContentNamespace | c-api/c-tests/src/test_element_api.c:667-697 | An element's children start in its own namespace, or in HTML exactly when it is an HTML integration point. |
| ElementApi.ChildNamespace | c-api/c-tests/src/test_element_api.c:633-697 | Below HTML, children stay HTML unless the element is `svg` or `math`, whose children are foreign. `foreignObject` in SVG leads back to HTML, and `annotation-xml` in MathML does so exactly when its encoding is HTML. |
| ElementApi.SetEndTagName | c-api/c-tests/src/test_element_api.c:739-744 | Renaming an end tag succeeds exactly for a valid tag name. The empty name fails with the empty-name error, and any failure reports what `TagNameError` finds. On success the name reads back and the tag is re-serialised; nothing else changes. |
| ElementApi.EndTagHandlersOnlyAdd | c-api/c-tests/src/test_element_api.c:731-750 | End-tag handlers only add: a removal stays, and the `before`/`after` queues only grow, in call order. |
| ElementApi.EndTagEditSucceeds | c-api/c-tests/src/test_element_api.c:734-747 | Running end-tag handlers applies each handler's edits in call order, carrying the edited tag on. |
| ElementApi.EndTagHandlerDone | c-api/c-tests/src/test_element_api.c:752-765 | A handler with no edits left hands over to the next registered handler. |
| ElementApi.NewElement | c-api/c-tests/src/test_element_api.c:780-802 | A fresh handle is well formed and not removed. It can have content, and an end tag, exactly when it is not a void element. |
| ElementApi.SetTagName | c-api/c-tests/src/test_element_api.c:24-41 | Renaming succeeds exactly for a valid tag name. `""` fails with `EmptyTagName` (`Tag name can't be empty.`), and any failure reports what `TagNameError` finds. On success the getter returns the new name, the tags are re-serialised and nothing else changes. |
| ElementApi.TagNameError | c-api/c-tests/src/test_element_api.c:31-37 | There is no error exactly for a valid tag name. Emptiness is reported first, then a first character that is not an ASCII letter, then a forbidden character that occurs in the name. |
| ElementApi.AttributeNameError | c-api/c-tests/src/test_element_api.c:151-163 | There is no error exactly for a valid attribute name. The empty name has its own error; any other error names a forbidden character that occurs in the name. |
| ElementApi.MarkupInNameRejected | c-api/c-tests/src/test_element_api.c:31-37 | `a b><script` is refused as a tag name at its space, `a=b` as an attribute name at its `=`, and `1a` for its first character. |
| ElementApi.FindAttributeIsFirst | c-api/c-tests/src/test_element_api.c:134-149 | Lookup finds the first attribute whose name matches up to ASCII case; none before it matches. |
| ElementApi.HasAttributeIffNamed | c-api/c-tests/src/test_element_api.c:130-132 | `has_attribute` holds exactly when some attribute has the name, ignoring ASCII case. |
| ElementApi.GetAttribute | c-api/c-tests/src/test_element_api.c:134-149 | A value is returned exactly when the attribute is present. An absent one gives the no-value result, not an empty string. |
| ElementApi.GetAttributeIsNamed | c-api/c-tests/src/test_element_api.c:134-149 | The value returned belongs to an attribute of that name. |
| ElementApi.AttributePairs | c-api/c-tests/src/test_element_api.c:576-607 | The iterator yields one `(name, value)` pair per attribute, in source order, then ends. |
| ElementApi.SetAttributeSets | c-api/c-tests/src/test_element_api.c:151-160 | Setting succeeds exactly for a valid attribute name. Afterwards the name reads back as the value. An existing attribute keeps its place; a new one is appended with its name lowercased. No other attribute and nothing else on the handle changes. |
| ElementApi.SetAttribute | c-api/c-tests/src/test_element_api.c:151-160 | An invalid name is refused with the error `AttributeNameError` gives, `""` with `EmptyAttributeName`. A valid one is put in place or appended. |
| ElementApi.RemoveAttributeRemoves | c-api/c-tests/src/test_element_api.c:162-163 | With unique names, the attributes afterwards are exactly those not of that name, in their order. Nothing else on the handle changes, and the start tag counts as modified only if something was removed. Removing an absent name changes nothing, and names stay unique. |
| ElementApi.SetAttributeKeepsUnique | c-api/c-tests/src/test_element_api.c:151-160 | Setting an attribute keeps attribute names unique up to ASCII case. |
| ElementApi.LiveOutputs | c-api/c-tests/src/test_element_api.c:188-239 | A live element renders as `before` queue, start tag, `prepend` queue at its start, and as `append` queue, the end-tag handlers' `before`, the end tag, `after` queue and the handlers' `after` at its end. |
| ElementApi.BeforePlacement | c-api/c-tests/src/test_element_api.c:201-207 | `before` content lands right in front of the start tag, behind earlier `before` content. The end of the element renders as before. |
| ElementApi.PrependPlacement | c-api/c-tests/src/test_element_api.c:202-208 | `prepend` content lands right after the start tag and earlier prepended content. The end of the element renders as before. |
| ElementApi.AppendPlacement | c-api/c-tests/src/test_element_api.c:203-211 | `append` content lands behind earlier appended content and in front of the end tag and what its handlers put before it. The start renders as before. |
| ElementApi.AfterPlacement | c-api/c-tests/src/test_element_api.c:204-212 | `after` content lands behind the end tag and earlier `after` content, in front of what end-tag handlers put after it. A void element has no end tag, so there it follows the start tag at once. |
| ElementApi.SetInnerContent | c-api/c-tests/src/test_element_api.c:366-369 | On a live element the children are suppressed, the element stays live and keeps its removal state, and the rendered content is queued at the start of its content. On a removed element nothing happens. |
| ElementApi.SetInnerContentOutput | c-api/c-tests/src/test_element_api.c:353-396 | On a live element with content, the new content directly follows what the start splice point rendered before, the end splice point is unchanged, and the children are marked suppressed. |
| ElementApi.InnerContentSurvivesUnwrap | c-api/c-tests/src/test_element_api.c:353-396 | `set_inner_content` then `remove_and_keep_content`: both tags go, the new content stays, and every queue is still rendered. |
| ElementApi.Replace | c-api/c-tests/src/test_element_api.c:412-415 | The element, its children and what was queued inside it are removed, and on a live element the rendered content takes the element's place. |
| ElementApi.Remove | c-api/c-tests/src/test_element_api.c:458-461 | Afterwards `is_removed` holds and the children and what was queued inside go too. |
| ElementApi.RemoveAndKeepContent | c-api/c-tests/src/test_element_api.c:504-507 | Afterwards `is_removed` holds; the children and what was queued inside are kept or suppressed as they were. |
| ElementApi.AddEndTagHandler | c-api/c-tests/src/test_element_api.c:786-790 | Adding fails with `No end tag.` exactly for an element without content. Otherwise the handler is registered after the earlier ones. |
| ElementApi.ClearEndTagHandlers | c-api/c-tests/src/test_element_api.c:760 | Afterwards no end-tag handler is registered and nothing else on the handle changes. The end tag is then handed over exactly as parsed, whatever was registered before. |
| ElementApi.ApplyCommand | c-api/c-tests/src/test_element_api.c:452-463 | Every edit keeps the handle well formed, and an edit of a removed element leaves it removed. |
| ElementApi.RunHandlerSucceeds | c-api/c-tests/src/test_element_api.c:40-41 | A handler's edits apply in call order: a successful edit carries the edited handle on. |
| ElementApi.RunHandlerFails | c-api/c-tests/src/test_element_api.c:31-41 | A failing edit records its error and leaves the handle as it was; the following edits still apply. |
| ElementApi.RunHandlerKeepsWellFormed | c-api/c-tests/src/test_element_api.c:406-418 | However many edits a handler makes, a replacement is only ever recorded together with a removal. |
| ElementApi.RemovalIsMonotonic | c-api/c-tests/src/test_element_api.c:458-461 | Once removed, an element stays removed, whatever the handler does next. |
| ElementApi.InsertionStep | c-api/c-tests/src/test_element_api.c:201-212 | One edit other than a removal queues at most its own insertion, at the end of its queue (`set_inner_content` in the `prepend` queue), and leaves the element live. A failing edit queues nothing. |
| ElementApi.InsertionsInCallOrder | c-api/c-tests/src/test_element_api.c:201-212 | On a live element, the `before`, `prepend`, `append` and `after` calls of a handler each fill their queue with their rendered content in call order, and the element stays live. |
| ElementApi.StartOutputIsStartTag | c-api/c-tests/src/test_element_api.c:9-41 | A handle with nothing queued and nothing removed renders as its start tag alone. |
| ElementApi.UntouchedIsVerbatim | c-api/c-tests/src/test_element_api.c:68-110 | An element no handler edits is copied verbatim at both splice points. |
| ElementApi.RemoveLeavesOnlyOutside | c-api/c-tests/src/test_element_api.c:445-487 | After `remove` only what was queued outside the element remains: no tags, no `prepend` or `append` content. |
| ElementApi.RemoveAndKeepContentDropsTags | c-api/c-tests/src/test_element_api.c:491-536 | After `remove_and_keep_content` only the two tags are gone; every queue is still rendered, whatever edits came before. |
| ElementApi.ReplaceEmitsReplacement | c-api/c-tests/src/test_element_api.c:399-441 | After `replace` the replacement stands between the outside queues, with nothing else of the element. |
| ElementApi.InsertionsAfterRemovalDropped | c-api/c-tests/src/test_element_api.c:458-461 | Content insertions after a removal are accepted but change nothing in the output. |
| Rewrite.FindOpenIsInnermost | c-api/c-tests/src/test_element_api.c:436-441 | An end tag finds the innermost open element opened under its name; no later element has that name. |
| Rewrite.TextFacts | c-api/c-tests/src/test_element_api.c:445-487 | Text changes only the output. It is copied, or dropped inside removed content. |
| Rewrite.SuppressedChildrenDropped | c-api/c-tests/src/test_element_api.c:353-396 | Inside an element whose children are suppressed, text and start tags add nothing to the output, and a nested element stays suppressed. |
| Rewrite.StartTagFacts | c-api/c-tests/src/test_element_api.c:817-818 | The handler gets one more run, with a handle for this tag's name and attributes, exactly when the selector matches. A non-void element is pushed. The output only grows, and not at all inside removed content. |
| Rewrite.EndTagFacts | c-api/c-tests/src/test_element_api.c:929-930 | An end tag never runs the handler. It pops back to before the element it closes, or changes no stack when nothing is open under its name, and the output only grows. |
| Rewrite.StepFacts | c-api/c-tests/src/test_element_api.c:436-441 | One token adds a handler run exactly for a matching start tag. Earlier handles are kept and the output only grows. |
| Rewrite.HandlerRunsOncePerMatch | c-api/c-tests/src/test_element_api.c:436-441 | Over a document the handler runs once per matching start tag, nested ones included. The earlier output is a prefix of the final one. |
| Rewrite.UntouchedIsVerbatimHere | c-api/c-tests/src/test_element_api.c:68-110 | An element the handler did not edit renders as its source start and end tags. |
| Rewrite.PassiveStep | c-api/c-tests/src/test_element_api.c:614-631 | With a handler that makes no edits, each token appends its own source text. |
| Rewrite.PassiveHandlerIsIdentity | c-api/c-tests/src/test_element_api.c:614-631 | With a handler that makes no edits, rewriting appends exactly the tokens' source text. |
| Rewrite.PassiveRewriteIsIdentity | c-api/c-tests/src/test_element_api.c:614-631 | With a handler that makes no edits, the output is the input document. |
| ElementScenarios.RenameScenario | c-api/c-tests/src/test_element_api.c:9-65 | On `Hi <div>` the handler sees `div`. The empty name fails with `Tag name can't be empty.`, and the output is `Hi <span>`. |
| ElementScenarios.AttributesScenario | c-api/c-tests/src/test_element_api.c:113-185 | On `<span foo=42>`: `foo` is present with value `42`, and `Bar` is absent with no value. Set then remove gives `<span bar="hey">`. |
| ElementScenarios.IterateAttributesScenario | c-api/c-tests/src/test_element_api.c:570-631 | On `<div foo=42 bar='1337'>` the iterator yields `(foo, 42)` then `(bar, 1337)` and ends. The document is unchanged. |
| ElementScenarios.InsertAroundScenario | c-api/c-tests/src/test_element_api.c:188-239 | On `<div>Hi</div>` the four insertions give `&amp;before<div><!--prepend-->Hi<!--append--></div>&amp;after`. |
| ElementScenarios.SetInnerContentScenario | c-api/c-tests/src/test_element_api.c:353-396 | On `<div><span>42</span></div>` setting the text `hey & ya` gives `<div>hey &amp; ya</div>`. |
| ElementScenarios.ReplaceScenario | c-api/c-tests/src/test_element_api.c:399-442 | Both `div`s, the nested one too, are replaced by raw `hey & ya`: `hey & ya<h1>Hellohey & ya</h1><h2>Hello2</h2>`. |
| ElementScenarios.RemoveScenario | c-api/c-tests/src/test_element_api.c:445-488 | `is_removed` is false before and true after `remove`. The `h1` disappears with its text: `<div><span>42</span></div><h2>Hello2</h2>`. |
| ElementScenarios.RemoveAndKeepContentScenario | c-api/c-tests/src/test_element_api.c:491-537 | `is_removed` flips. Both `h2` lose only their tags: `<div><span>42Hello1</span></div><h1>Hello</h1>Hello2`. |
| ElementScenarios.HtmlNamespaceScenario | c-api/c-tests/src/test_element_api.c:634-664 | A top-level `script` reports the namespace URI `http://www.w3.org/1999/xhtml`. |
| ElementScenarios.SvgNamespaceScenario | c-api/c-tests/src/test_element_api.c:667-697 | A `script` inside `svg` reports `http://www.w3.org/2000/svg`. |
| ElementScenarios.EndTagScenario | c-api/c-tests/src/test_element_api.c:731-772 | On `<div>42</div><div>some data</div>` the end-tag handlers give `<div>42!</div1><span>extra data</span><div>some data`. The first handler sees `div` and leaves the name `div1`; the second removes its tag. |
| ElementScenarios.NoEndTagScenario | c-api/c-tests/src/test_element_api.c:780-802 | On `<br>` adding an end-tag handler fails with `No end tag.`, and the output stays `<br>`. |

## Left out

- The token capturer, the transform controller, selector matching and `encoding_rs` decoding are not part of this model. The dispatcher sees them as the oracle functions of `Dispatcher.Env`, and the rewrite sees a selector as `*` or one local name.
- The output sink is a callback (I/O). It is modelled as the sequence of chunks it is handed.
- Slicing panics in the dispatcher become preconditions: the lexeme lies in the chunk and starts at or after the cursor, and the blocked tail fits in the chunk.
- The `unreachable!` in `adjust_capture_flags_for_tag_lexeme` (a pending handler met by an end tag) is a precondition.
- `Dispatcher.TryProduceTokenFromLexeme`: `handle_token` followed by `to_bytes` is collapsed into one token event that carries its serialised chunks.
- `TokenizerCondition.AppropriateEndTag`: the hash function is a parameter. The name-hash computation, and names too long to hash, are not part of this model.
- `DataState.RunDataState`: only the actions are modelled. The text range that `emit_chars` emits and the tag-open state's handling of the `<` are not.
- Streaming handlers, their writers and their drop counts (test_element_api.c:241-349) need foreign function pointers and user data, so they are left out.
- Element user data (test_element_api.c:68-110) is pointer identity, so it is left out. Only the output of that test is modelled, by `ElementApi.UntouchedIsVerbatim`.
- The empty attribute test (test_element_api.c:539-567) and stop-directive propagation (test_element_api.c:699-729) depend on helpers that are not shown, so they are left out.
- The thread-local last-error slot is modelled as the error list of a handler run. `Message` gives the text that `take_last_error` returns.
- Comments, doctypes, CDATA and self-closing syntax inside `svg` are not among the rewrite's tokens.
- The rewrite does not reconstruct the HTML tree beyond the open-element stack. In particular, implied end tags are left out.
- Selectors match by local name alone.
- `ElementApi.SetAttribute` re-serialises a changed value with double quotes; the source's quote-style preservation is left out.
- `HtmlText.EscapeText` escapes `&`, `<` and `>` only, not quotes.
- `ElementApi.Message`: only `Tag name can't be empty.` and `No end tag.` are lol-html's wording, as the tests pin them. The messages for the other name errors are the model's own.
- `ElementApi.RemoveAttribute` never fails. In the C API its only failure is a name that is not valid UTF-8, and the model's names are sequences of characters.
- `ElementApi.TagNameError`: a name the document's output encoding cannot represent is not rejected, because the model has no encodings.
- `ElementApi.ContentNamespace`: the MathML text integration points (`mi`, `mo`, `mn`, `ms`, `mtext`) are not modelled; their children stay MathML.
- `ElementApi.Replace` on an element that is already removed records no replacement; it only suppresses what is inside. This follows the rule that content added after removal is dropped.
- `js-api/src/html_rewriter.rs`, `js-api/test.js` and `benches/cases/rewriting.rs` are a binding layer, a JS smoke script and a benchmark, so they are left out.

## Findings

| source | as written | input that shows it | evidently intended | confidence | as-written member | corrected member |
|---|---|---|---|---|---|---|
| src/transform_stream/dispatcher.rs:202-211 | A start-tag hint that requests modifiers info stores the handler and returns `Lex`. It does not reset `got_capture_flags_from_tag_hint`, which an earlier hint may have left `true` while the parser kept scanning. The next `handle_tag` (lines 175-176) then only clears the flag. `adjust_capture_flags_for_tag_lexeme` is skipped, so the pending handler never runs and the tag gets no capture flags. | A hint for a tag whose settings ask for nothing, so the flag stays set and nothing is lexed. Then a hint for a tag whose selector needs attributes. Then that tag lexed. | The request branch also sets `got_capture_flags_from_tag_hint = false`, so that the lexed tag runs the pending handler. | medium; not executed | Dispatcher.AsWrittenHintLosesModifiersHandler | Dispatcher.CorrectedHintRunsModifiersHandler |
