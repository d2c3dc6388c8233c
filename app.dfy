/** The top-level app (cli/src/app.tsx): the submit guard, the placeholder
    reply that is typed out one code unit at a time, and the Ctrl+C rule.
    `handleSendMessage` is not awaited by `handleSubmit`, so its synchronous
    part (up to the first timer) runs before the input is cleared; the model
    splits the turn there. */
module App {
  import opened Common
  import opened ChatTypes
  import opened InputStore
  import opened ChatStore
  import InputKeyboard

  /** The reply the placeholder backend types out. */
  function PlaceholderReply(content: string): (r: string)
    ensures "Received: \"" + content + "\"" <= r
    ensures |r| > |content|
  {
    var quoted := "Received: \"" + content + "\"";
    var reply := quoted + "\n\nThis is a placeholder. Connect to your AI backend!";
    assert reply[..|quoted|] == quoted;
    reply
  }

  /** "Error: " and the error's message, or "Unknown" for a thrown non-Error. */
  function ErrorContent(message: Option<string>): string
  {
    "Error: " + (match message case Some(m) => m case None => "Unknown")
  }

  /** An exception raised while the reply is typed out: before step `step`
      updates the message, with the given message (None for a non-Error). */
  datatype Failure = Failure(step: nat, message: Option<string>)

  function UserMessage(id: MessageId, content: string): ChatMessage
  {
    ChatMessage(id, User, content, true, false, false, None)
  }

  function Placeholder(id: MessageId): ChatMessage
  {
    ChatMessage(id, Ai, "", false, true, false, None)
  }

  /** The input box is given `focused` only when the store's input is focused
      and no reply is streaming; an unfocused box ignores every key
      (`InputKeyboard.IgnoredWhenUnfocusedOrIntercepted`). The turn methods
      below state when it is locked. */
  function InputEditable(inputFocused: bool, isStreaming: bool): (r: bool)
    ensures isStreaming ==> !r
  {
    inputFocused && !isStreaming
  }

  /** While a reply streams the input box is unfocused, so no key edits the
      input, submits, or is consumed by the box. */
  lemma StreamingInputIgnoresKeys(inputFocused: bool, intercepted: bool, key: InputKeyboard.KeyEvent, value: string, cursor: int)
    ensures InputKeyboard.HandleKey(InputEditable(inputFocused, true), intercepted, key, value, cursor) == InputKeyboard.Ignore
  {
    InputKeyboard.IgnoredWhenUnfocusedOrIntercepted(InputEditable(inputFocused, true), intercepted, key, value, cursor);
  }

  /** The synchronous start of `handleSendMessage`: a complete user message,
      then an empty streaming reply that becomes the streaming message. */
  method StartTurn(store: ChatStore, content: string, userId: MessageId, aiId: MessageId)
    modifies store
    ensures store.messages == old(store.messages) + [UserMessage(userId, content), Placeholder(aiId)]
    ensures store.isStreaming && store.streamingMessageId == Some(aiId)
    ensures store.Input() == old(store.Input()) && store.inputFocused == old(store.inputFocused)
    ensures store.isFocusSupported == old(store.isFocusSupported)
    ensures !InputEditable(store.inputFocused, store.isStreaming)
  {
    store.AddMessage(UserMessage(userId, content));
    store.AddMessage(Placeholder(aiId));
    store.SetIsStreaming(true);
    store.SetStreamingMessageId(Some(aiId));
  }

  /** The typing loop: the reply grows by one code unit per step until it is
      complete or step `failure.step` throws; `trace` records the content
      after each step. */
  method TypeOut(store: ChatStore, ghost base: seq<ChatMessage>, aiId: MessageId, response: string, failure: Option<Failure>)
    returns (failed: bool, ghost trace: seq<string>)
    requires Fresh(base, aiId) && store.messages == base + [Placeholder(aiId)]
    modifies store
    ensures var steps := match failure case Some(f) => f.step case None => |response|;
      && (failed <==> steps < |response|)
      && store.messages == base + [Placeholder(aiId).(content := response[..if failed then steps else |response|])]
      && |trace| == (if failed then steps else |response|)
      && forall i :: 0 <= i < |trace| ==> trace[i] == response[..i + 1]
    ensures store.Input() == old(store.Input()) && store.inputFocused == old(store.inputFocused)
    ensures store.isStreaming == old(store.isStreaming) && store.streamingMessageId == old(store.streamingMessageId)
    ensures InputEditable(store.inputFocused, store.isStreaming) == old(InputEditable(store.inputFocused, store.isStreaming))
  {
    trace := [];
    var i := 0;
    failed := false;
    while i < |response|
      invariant 0 <= i <= |response|
      invariant store.messages == base + [Placeholder(aiId).(content := response[..i])]
      invariant failure.None? || failure.value.step >= i
      invariant |trace| == i && forall j :: 0 <= j < i ==> trace[j] == response[..j + 1]
      invariant store.Input() == old(store.Input()) && store.inputFocused == old(store.inputFocused)
      invariant store.isStreaming == old(store.isStreaming) && store.streamingMessageId == old(store.streamingMessageId)
    {
      if failure.Some? && failure.value.step == i {
        failed := true;
        break;
      }
      FindAppended(base, Placeholder(aiId).(content := response[..i]));
      store.UpdateMessage(aiId, MessagePatch(Some(response[..i + 1]), None, None, None, None));
      trace := trace + [response[..i + 1]];
      i := i + 1;
    }
  }

  /** The rest of the turn: the reply is typed out; it ends complete, or as
      an error message if a step throws; streaming then stops. */
  method FinishTurn(store: ChatStore, content: string, userId: MessageId, aiId: MessageId, failure: Option<Failure>)
    returns (ghost trace: seq<string>)
    requires userId != aiId
    requires |store.messages| >= 2
    requires store.messages[|store.messages| - 2..] == [UserMessage(userId, content), Placeholder(aiId)]
    requires Fresh(store.messages[..|store.messages| - 1], aiId)
    modifies store
    ensures var base := old(store.messages)[..|old(store.messages)| - 1];
      var response := PlaceholderReply(content);
      var steps := match failure case Some(f) => f.step case None => |response|;
      && (steps >= |response| ==> store.messages == base + [ChatMessage(aiId, Ai, response, true, false, false, None)])
      && (steps < |response| ==> store.messages == base + [ChatMessage(aiId, Error, ErrorContent(failure.value.message), true, false, false, None)])
      && |trace| == (if steps < |response| then steps else |response|)
      && forall i :: 0 <= i < |trace| ==> trace[i] == response[..i + 1]
    ensures !store.isStreaming && store.streamingMessageId == None
    ensures store.Input() == old(store.Input()) && store.inputFocused == old(store.inputFocused)
    ensures InputEditable(store.inputFocused, store.isStreaming) == store.inputFocused
  {
    ghost var base := store.messages[..|store.messages| - 1];
    assert store.messages == base + [Placeholder(aiId)];
    var response := PlaceholderReply(content);
    var failed;
    failed, trace := TypeOut(store, base, aiId, response, failure);
    ghost var typed := store.messages[|base|];
    FindAppended(base, typed);
    if failed {
      store.UpdateMessage(aiId, MessagePatch(Some(ErrorContent(failure.value.message)), Some(Error), Some(true), Some(false), None));
    } else {
      assert response[..|response|] == response;
      store.UpdateMessage(aiId, Finalise);
    }
    store.SetIsStreaming(false);
    store.SetStreamingMessageId(None);
  }

  /** `handleSubmit`: nothing for blank input or while a reply streams;
      otherwise the trimmed text starts a turn and the input is cleared. */
  method HandleSubmit(store: ChatStore, userId: MessageId, aiId: MessageId) returns (sent: Option<string>)
    requires store.Valid()
    modifies store
    ensures Trim(old(store.inputValue)) == "" || old(store.isStreaming) ==>
      sent == None && store.messages == old(store.messages) && store.Input() == old(store.Input())
      && store.isStreaming == old(store.isStreaming)
    ensures Trim(old(store.inputValue)) != "" && !old(store.isStreaming) ==>
      && sent == Some(Trim(old(store.inputValue)))
      && store.messages == old(store.messages) + [UserMessage(userId, sent.value), Placeholder(aiId)]
      && store.isStreaming && store.streamingMessageId == Some(aiId)
      && store.Input() == EmptyInput
      && !InputEditable(store.inputFocused, store.isStreaming)
    ensures store.Valid() && store.inputFocused == old(store.inputFocused)
  {
    var trimmed := Trim(store.inputValue);
    if trimmed == "" || store.isStreaming {
      return None;
    }
    StartTurn(store, trimmed, userId, aiId);
    store.SetInputValue(NewValue(EmptyInput));
    sent := Some(trimmed);
  }

  /** A whole submitted turn: the submit, then the typed-out reply. */
  method SubmitAndReply(store: ChatStore, userId: MessageId, aiId: MessageId)
    requires store.Valid() && userId != aiId && Fresh(store.messages, aiId)
    modifies store
    ensures Trim(old(store.inputValue)) != "" && !old(store.isStreaming) ==>
      var content := Trim(old(store.inputValue));
      && store.messages == old(store.messages) + [UserMessage(userId, content),
           ChatMessage(aiId, Ai, PlaceholderReply(content), true, false, false, None)]
      && !store.isStreaming && store.Input() == EmptyInput
      && InputEditable(store.inputFocused, store.isStreaming) == old(store.inputFocused)
  {
    ghost var before := store.messages;
    var sent := HandleSubmit(store, userId, aiId);
    if sent.Some? {
      StartedShape(before, UserMessage(userId, sent.value), Placeholder(aiId));
      ghost var trace := FinishTurn(store, sent.value, userId, aiId, None);
    }
  }

  /** The list right after a turn starts: the user message is the second to
      last, the placeholder the last, and the placeholder's id is fresh before it. */
  lemma StartedShape(before: seq<ChatMessage>, user: ChatMessage, placeholder: ChatMessage)
    requires Fresh(before, placeholder.id) && user.id != placeholder.id
    ensures var started := before + [user, placeholder];
      && started[..|started| - 1] == before + [user]
      && started[|started| - 2..] == [user, placeholder]
      && Fresh(started[..|started| - 1], placeholder.id)
  {
    var started := before + [user, placeholder];
    assert started[..|started| - 1] == before + [user];
    assert forall j :: 0 <= j < |before| ==> (before + [user])[j] == before[j];
  }

  /** The app's own Ctrl+C: clear non-empty input, or ask to exit on empty input. */
  method HandleCtrlC(store: ChatStore, ctrl: bool, name: string) returns (exit: bool)
    modifies store
    ensures exit <==> ctrl && name == "c" && old(store.inputValue) == ""
    ensures ctrl && name == "c" && old(store.inputValue) != "" ==> store.Input() == EmptyInput
    ensures !(ctrl && name == "c" && old(store.inputValue) != "") ==> store.Input() == old(store.Input())
    ensures store.messages == old(store.messages) && store.isStreaming == old(store.isStreaming)
  {
    exit := false;
    if ctrl && name == "c" {
      if |store.inputValue| == 0 {
        exit := true;
      } else {
        store.SetInputValue(NewValue(EmptyInput));
      }
    }
  }
}
