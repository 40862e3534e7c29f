/** The tokenizer's Data state (section 13.2.5.1 of the WHATWG HTML Living
    Standard) as this tokenizer has it: only `<`, the end of a chunk and the
    end of input are distinguished; every other byte, `&` and NUL included,
    just stays in the pending text. */
module DataState {
  import opened Base

  const LessThanSign: byte := 0x3C

  datatype State = Data | TagOpen

  /** What the state machine sees next. */
  datatype InputSymbol = Byte(b: byte) | EndOfChunk | EndOfFile

  datatype Action = EnterInitialTextParsingMode | EmitChars | EmitEof

  datatype Transition = Transition(actions: seq<Action>, next: State)

  /** One step of the Data state.  `entering` is true on the first step after
      the state was switched to, when the state's enter actions run. */
  function DataStateStep(entering: bool, c: InputSymbol): (t: Transition)
    ensures entering <==> |t.actions| > 0 && t.actions[0] == EnterInitialTextParsingMode
    ensures t.next == TagOpen <==> c == Byte(LessThanSign)
    ensures c.Byte? && c.b != LessThanSign ==> t.actions == (if entering then [EnterInitialTextParsingMode] else [])
    ensures c.Byte? && c.b == LessThanSign ==> t.actions == (if entering then [EnterInitialTextParsingMode] else []) + [EmitChars]
    ensures c == EndOfChunk ==> t.actions == (if entering then [EnterInitialTextParsingMode] else []) + [EmitChars]
    ensures c == EndOfFile ==> t.actions == (if entering then [EnterInitialTextParsingMode] else []) + [EmitChars, EmitEof]
    ensures EmitEof in t.actions <==> c == EndOfFile
  {
    var enter := if entering then [EnterInitialTextParsingMode] else [];
    match c
    case Byte(b) =>
      if b == LessThanSign then Transition(enter + [EmitChars], TagOpen)
      else Transition(enter, Data)
    case EndOfChunk => Transition(enter + [EmitChars], Data)
    case EndOfFile => Transition(enter + [EmitChars, EmitEof], Data)
  }

  /** The index of the first `<` at or after `from`, or `|input|` if none. */
  function FirstLessThan(input: Bytes, from: nat): (k: nat)
    requires from <= |input|
    ensures from <= k <= |input|
    ensures forall j :: from <= j < k ==> input[j] != LessThanSign
    ensures k < |input| ==> input[k] == LessThanSign
    decreases |input| - from
  {
    if from == |input| || input[from] == LessThanSign then from else FirstLessThan(input, from + 1)
  }

  /** Run the Data state over a chunk, from the step that enters it, until it
      leaves for the tag open state or the chunk (or input) ends. */
  method RunDataState(input: Bytes, isLastChunk: bool) returns (pos: nat, actions: seq<Action>, state: State)
    ensures pos == FirstLessThan(input, 0)
    ensures state == TagOpen <==> pos < |input|
    ensures |actions| > 0 && actions[0] == EnterInitialTextParsingMode
    ensures pos < |input| ==> actions == [EnterInitialTextParsingMode, EmitChars]
    ensures pos == |input| && !isLastChunk ==> actions == [EnterInitialTextParsingMode, EmitChars]
    ensures pos == |input| && isLastChunk ==> actions == [EnterInitialTextParsingMode, EmitChars, EmitEof]
  {
    pos := 0;
    actions := [];
    state := Data;
    var entering := true;
    while pos < |input| && state == Data
      invariant 0 <= pos <= |input|
      invariant state == Data ==> forall j :: 0 <= j < pos ==> input[j] != LessThanSign
      invariant state == TagOpen ==> forall j :: 0 <= j < pos - 1 ==> input[j] != LessThanSign
      invariant state == Data ==> actions == (if entering then [] else [EnterInitialTextParsingMode])
      invariant state == Data ==> (entering <==> pos == 0)
      invariant state == TagOpen ==> 0 < pos && input[pos - 1] == LessThanSign
                                     && actions == [EnterInitialTextParsingMode, EmitChars]
      decreases |input| - pos
    {
      var t := DataStateStep(entering, Byte(input[pos]));
      if input[pos] == LessThanSign {
        assert t == Transition((if entering then [EnterInitialTextParsingMode] else []) + [EmitChars], TagOpen);
      } else {
        assert t == Transition(if entering then [EnterInitialTextParsingMode] else [], Data);
      }
      actions := actions + t.actions;
      state := t.next;
      entering := false;
      pos := pos + 1;
    }
    if state == TagOpen {
      pos := pos - 1;
    } else {
      var t := DataStateStep(entering, if isLastChunk then EndOfFile else EndOfChunk);
      actions := actions + t.actions;
    }
  }
}
