/** The tokenizer's `appropriate_end_tag` condition (section 13.2.5 of the
    WHATWG HTML Living Standard: an end tag token is appropriate when its tag
    name matches that of the last start tag emitted).  The tokenizer keeps
    only name hashes, so the condition compares hashes. */
module TokenizerCondition {
  import opened Base

  datatype Range = Range(start: nat, end: nat)

  /** A hash of a tag name; only compared for equality here. */
  type NameHash = nat

  /** The token under construction, as the tokenizer keeps it (ranges only). */
  datatype ShallowToken =
    | Character
    | Comment
    | StartTag(name: Range, nameHash: NameHash, selfClosing: bool)
    | EndTag(name: Range, nameHash: NameHash)
    | Doctype
    | Eof

  /** The part of the tokenizer's state the condition reads. */
  datatype TokenizerState = TokenizerState(currentToken: Option<ShallowToken>, lastStartTagNameHash: NameHash)

  /** Only reachable while an end tag is being built. */
  function AppropriateEndTag(s: TokenizerState): (r: bool)
    requires s.currentToken.Some? && s.currentToken.value.EndTag?
    ensures r <==> s.currentToken.value.nameHash == s.lastStartTagNameHash
  {
    match s.currentToken
    case Some(EndTag(_, nameHash)) => s.lastStartTagNameHash == nameHash
  }

  /** The end tag's name range plays no part: two states that differ only in
      it agree on the condition. */
  lemma OnlyNameHashMatters(s: TokenizerState, name': Range)
    requires s.currentToken.Some? && s.currentToken.value.EndTag?
    ensures var t := s.(currentToken := Some(EndTag(name', s.currentToken.value.nameHash)));
            AppropriateEndTag(t) == AppropriateEndTag(s)
  {
  }

  ghost predicate Injective<N(!new)>(hash: N -> NameHash)
  {
    forall a, b :: hash(a) == hash(b) ==> a == b
  }

  /** Against the standard's definition: with a hash that tells names apart,
      the condition holds exactly when the end tag's name is the last start
      tag's name. */
  lemma MatchesStandard<N(!new)>(hash: N -> NameHash, endName: N, lastStartName: N, range: Range)
    requires Injective(hash)
    ensures AppropriateEndTag(TokenizerState(Some(EndTag(range, hash(endName))), hash(lastStartName)))
            <==> endName == lastStartName
  {
  }
}
