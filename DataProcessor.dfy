/**
 * The state of the data processor screen: the chat transcript with its input box,
 * and the step side panel's selected step, expanded step and open adjustment panel.
 * The processing steps and result tables are fixed data on this screen; a result
 * table is carried only as the name of the fixed table it shows.
 */
module DataProcessor {
  import opened Wrappers
  import opened JsString

  datatype Role = User | Assistant

  /** The hardcoded result tables an assistant message can attach. */
  datatype ResultTable =
    | InitialSummary     // the 15-row per-student summary of the second message
    | DuplicateCheck     // the 5-row table of the fourth message
    | UpdatingSummary    // the 4-row table attached to every reply to a sent message

  /** A chat message; its timestamp is not modelled. */
  datatype Message = Message(id: int, role: Role, content: string, data: Option<ResultTable>)

  const UpdatingReply := "データを更新しています..."

  /** The transcript the screen opens with. */
  const InitialMessages: seq<Message> := [
    Message(1, User, "生徒ID毎に初回イベント日、入学日、学校名を出して。", None),
    Message(2, Assistant, "データを処理しました。以下が結果です：", Some(InitialSummary)),
    Message(3, User, "重複データはありますか？", None),
    Message(4, Assistant, "重複データをチェックしました。生徒ID S004 が2回出現していることを確認しました。重複を削除して再処理します。", Some(DuplicateCheck))
  ]

  /** The step selected when the screen opens. */
  const InitialSelectedStep := 4

  /** The message at position `i` has id `i + 1`. */
  predicate IdsArePositions(ms: seq<Message>)
  {
    forall i :: 0 <= i < |ms| ==> ms[i].id == i + 1
  }

  /** No two messages share an id, so the ids are usable as list keys. */
  predicate IdsUnique(ms: seq<Message>)
  {
    forall i, j :: 0 <= i < |ms| && 0 <= j < |ms| && i != j ==> ms[i].id != ms[j].id
  }

  /** The user message and the fixed assistant reply appended to transcript `ms`, numbered after it. */
  function Exchange(ms: seq<Message>, input: string): (r: seq<Message>)
    ensures |r| == 2 && r[0].role == User && r[0].content == input && r[1].role == Assistant
    ensures IdsArePositions(ms) ==> IdsArePositions(ms + r)
  {
    [Message(|ms| + 1, User, input, None), Message(|ms| + 2, Assistant, UpdatingReply, Some(UpdatingSummary))]
  }

  /** `handleSendMessage` on transcript `ms` and input box `input`: the new transcript and input. */
  function AfterSend(ms: seq<Message>, input: string): (r: (seq<Message>, string))
    ensures IsBlank(input) ==> r == (ms, input)
    ensures !IsBlank(input) ==> |r.0| == |ms| + 2 && r.0[..|ms|] == ms && r.1 == ""
    ensures !IsBlank(input) ==> r.0[|ms|].role == User && r.0[|ms|].content == input
    ensures !IsBlank(input) ==> r.0[|ms| + 1].role == Assistant && r.0[|ms| + 1].content == UpdatingReply
    ensures !IsBlank(input) ==> r.0[|ms|].id == |ms| + 1 && r.0[|ms| + 1].id == |ms| + 2
    ensures !IsBlank(input) ==> r.0[|ms|].data == None && r.0[|ms| + 1].data == Some(UpdatingSummary)
    ensures IdsArePositions(ms) ==> IdsArePositions(r.0)
  {
    if IsBlank(input) then (ms, input) else (ms + Exchange(ms, input), "")
  }

  /** How many of `inputs` are not blank. */
  function CountNonBlank(inputs: seq<string>): nat
  {
    if inputs == [] then 0 else (if IsBlank(inputs[0]) then 0 else 1) + CountNonBlank(inputs[1..])
  }

  /**
   * The transcript after typing and sending each of `inputs` in turn: the earlier
   * transcript stays as a prefix and every non-blank input adds two messages.
   */
  function Session(ms: seq<Message>, inputs: seq<string>): (r: seq<Message>)
    ensures |r| == |ms| + 2 * CountNonBlank(inputs)
    ensures r[..|ms|] == ms
    decreases |inputs|
  {
    if inputs == [] then ms
    else
      var next := AfterSend(ms, inputs[0]).0;
      var r := Session(next, inputs[1..]);
      assert r[..|ms|] == r[..|next|][..|ms|];
      r
  }

  /** `x === step ? null : step`, the rule of the chevron and of the adjustment button. */
  function Toggle(current: Option<int>, step: int): (r: Option<int>)
    ensures r == Some(step) <==> current != Some(step)
    ensures r == None || r == Some(step)
  {
    if current == Some(step) then None else Some(step)
  }

  /** The screen's state. */
  class DataProcessorScreen {
    var messages: seq<Message>
    var inputMessage: string
    var selectedStep: int
    var expandedStep: Option<int>
    var showAdjustment: Option<int>

    ghost predicate Valid()
      reads this
    {
      IdsArePositions(messages)
    }

    constructor ()
      ensures Valid()
      ensures messages == InitialMessages && inputMessage == ""
      ensures selectedStep == InitialSelectedStep && expandedStep == None && showAdjustment == None
    {
      messages := InitialMessages;
      inputMessage := "";
      selectedStep := InitialSelectedStep;
      expandedStep := None;
      showAdjustment := None;
    }

    /** `disabled={!inputMessage.trim()}`: the send button is enabled exactly when sending would change the transcript. */
    predicate SendEnabled()
      reads this
      ensures SendEnabled() <==> AfterSend(messages, inputMessage).0 != messages
    {
      TrimEmptyIffBlank(inputMessage);
      assert !IsBlank(inputMessage) ==> |AfterSend(messages, inputMessage).0| != |messages|;
      Trim(inputMessage) != ""
    }

    /** The text area's `onChange`. */
    method SetInput(text: string)
      requires Valid()
      modifies this
      ensures Valid() && inputMessage == text && messages == old(messages)
      ensures selectedStep == old(selectedStep)
      ensures expandedStep == old(expandedStep) && showAdjustment == old(showAdjustment)
    {
      inputMessage := text;
    }

    /** `handleSendMessage`. */
    method SendMessage()
      requires Valid()
      modifies this
      ensures Valid()
      ensures (messages, inputMessage) == AfterSend(old(messages), old(inputMessage))
      ensures selectedStep == old(selectedStep)
      ensures expandedStep == old(expandedStep) && showAdjustment == old(showAdjustment)
    {
      TrimEmptyIffBlank(inputMessage);
      if Trim(inputMessage) == "" {
        return;
      }
      var n := |messages|;
      var newUserMessage := Message(n + 1, User, inputMessage, None);
      var newAssistantMessage := Message(n + 2, Assistant, UpdatingReply, Some(UpdatingSummary));
      ghost var sent := AfterSend(messages, inputMessage);
      assert [newUserMessage, newAssistantMessage] == Exchange(messages, inputMessage);
      messages := messages + [newUserMessage, newAssistantMessage];
      inputMessage := "";
      assert (messages, inputMessage) == sent;
    }

    /** `handleKeyPress`: Enter sends, Shift+Enter and every other key do not. */
    method KeyPress(key: string, shiftKey: bool)
      requires Valid()
      modifies this
      ensures Valid()
      ensures key == "Enter" && !shiftKey ==>
        (messages, inputMessage) == AfterSend(old(messages), old(inputMessage))
      ensures !(key == "Enter" && !shiftKey) ==>
        messages == old(messages) && inputMessage == old(inputMessage)
      ensures selectedStep == old(selectedStep)
      ensures expandedStep == old(expandedStep) && showAdjustment == old(showAdjustment)
    {
      if key == "Enter" && !shiftKey {
        SendMessage();
      }
    }

    /** A click on a step's header selects it. */
    method SelectStep(step: int)
      requires Valid()
      modifies this
      ensures Valid() && selectedStep == step
      ensures messages == old(messages) && inputMessage == old(inputMessage)
      ensures expandedStep == old(expandedStep) && showAdjustment == old(showAdjustment)
    {
      selectedStep := step;
    }

    /** A click on a step's chevron; it stops propagation, so the selection stays. */
    method ToggleExpanded(step: int)
      requires Valid()
      modifies this
      ensures Valid() && expandedStep == Toggle(old(expandedStep), step)
      ensures messages == old(messages) && inputMessage == old(inputMessage)
      ensures selectedStep == old(selectedStep) && showAdjustment == old(showAdjustment)
    {
      expandedStep := Toggle(expandedStep, step);
    }

    /** The adjustment button, rendered only inside the expanded step's details. */
    method ToggleAdjustment(step: int)
      requires Valid()
      requires expandedStep == Some(step)
      modifies this
      ensures Valid() && showAdjustment == Toggle(old(showAdjustment), step)
      ensures messages == old(messages) && inputMessage == old(inputMessage)
      ensures selectedStep == old(selectedStep) && expandedStep == old(expandedStep)
    {
      showAdjustment := Toggle(showAdjustment, step);
    }

    /** The cancel button, rendered only inside the open adjustment panel of the expanded step. */
    method CancelAdjustment()
      requires Valid()
      requires expandedStep != None && showAdjustment == expandedStep
      modifies this
      ensures Valid() && showAdjustment == None
      ensures messages == old(messages) && inputMessage == old(inputMessage)
      ensures selectedStep == old(selectedStep) && expandedStep == old(expandedStep)
    {
      showAdjustment := None;
    }

    /** A step's adjustment panel is rendered only inside that step's expanded details. */
    predicate AdjustmentVisible(step: int)
      reads this
    {
      expandedStep == Some(step) && showAdjustment == Some(step)
    }
  }

  // ---------------------------------------------------------------------------
  // Properties of the specification functions

  /** The opening transcript is numbered 1 to 4. */
  lemma InitialIdsArePositions()
    ensures IdsArePositions(InitialMessages) && |InitialMessages| == 4
  {
  }

  /** Numbering by position makes ids unique. */
  lemma PositionIdsAreUnique(ms: seq<Message>)
    requires IdsArePositions(ms)
    ensures IdsUnique(ms)
  {
  }

  /** A blank or whitespace-only input changes nothing; any other input is sent. */
  lemma SendIsNoOpIffBlank(ms: seq<Message>, input: string)
    ensures AfterSend(ms, input) == (ms, input) <==> Trim(input) == ""
  {
    TrimEmptyIffBlank(input);
    if !IsBlank(input) {
      assert |AfterSend(ms, input).0| == |ms| + 2;
    }
  }

  /** Over a whole session the transcript stays numbered by position. */
  lemma {:induction false} SessionKeepsNumbering(ms: seq<Message>, inputs: seq<string>)
    requires IdsArePositions(ms)
    ensures IdsArePositions(Session(ms, inputs))
    decreases |inputs|
  {
    if inputs != [] {
      SessionKeepsNumbering(AfterSend(ms, inputs[0]).0, inputs[1..]);
    }
  }

  /** From the opening transcript, every session keeps message ids unique. */
  lemma {:induction false} SessionIdsUnique(inputs: seq<string>)
    ensures IdsUnique(Session(InitialMessages, inputs))
  {
    SessionKeepsNumbering(InitialMessages, inputs);
    PositionIdsAreUnique(Session(InitialMessages, inputs));
  }

  /**
   * From nothing expanded, or from that step expanded, clicking the same step twice restores
   * the state; clicking another step while one is expanded moves the single expansion to it.
   */
  lemma ToggleProperties(current: Option<int>, step: int, other: int)
    ensures current == None || current == Some(step) ==> Toggle(Toggle(current, step), step) == current
    ensures current == Some(other) && other != step ==> Toggle(current, step) == Some(step)
  {
  }

  /**
   * Collapsing a step hides its open adjustment panel without closing it: the chevron
   * leaves `showAdjustment` alone, so expanding the step again shows the panel again.
   */
  method CollapseAndReexpandKeepsAdjustment(screen: DataProcessorScreen, step: int)
    requires screen.Valid() && screen.AdjustmentVisible(step)
    modifies screen
    ensures screen.Valid() && screen.AdjustmentVisible(step)
    ensures screen.messages == old(screen.messages) && screen.inputMessage == old(screen.inputMessage)
    ensures screen.selectedStep == old(screen.selectedStep)
  {
    screen.ToggleExpanded(step);
    assert !screen.AdjustmentVisible(step) && screen.showAdjustment == Some(step);
    screen.ToggleExpanded(step);
  }
}
