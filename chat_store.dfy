/** The chat store (cli/src/state/chat-store.ts): the message list, a copy of
    the input state, and which message is streaming. Messages are values here;
    patching "the first message with this id" replaces that element. */
module ChatStore {
  import opened Common
  import opened ChatTypes
  import opened InputStore

  /** The argument of `setMessages`: a list, or an updater of the current list. */
  datatype MessagesUpdate = NewMessages(messages: seq<ChatMessage>) | MessagesUpdater(f: seq<ChatMessage> -> seq<ChatMessage>)

  /** `messages.find(m => m.id === id)`, as the index it finds. */
  function FindMessage(ms: seq<ChatMessage>, id: MessageId): (r: Option<nat>)
    ensures r.Some? ==> r.value < |ms| && ms[r.value].id == id && forall j :: 0 <= j < r.value ==> ms[j].id != id
    ensures r.None? ==> forall j :: 0 <= j < |ms| ==> ms[j].id != id
  {
    if ms == [] then None
    else if ms[0].id == id then Some(0)
    else match FindMessage(ms[1..], id)
      case None => None
      case Some(k) => Some(k + 1)
  }

  /** Lists with the same ids, position by position, find the same index. */
  lemma {:induction false} FindMessageSameIds(ms: seq<ChatMessage>, ns: seq<ChatMessage>, id: MessageId)
    requires |ms| == |ns| && forall i :: 0 <= i < |ms| ==> ms[i].id == ns[i].id
    ensures FindMessage(ms, id) == FindMessage(ns, id)
  {
    if ms != [] {
      FindMessageSameIds(ms[1..], ns[1..], id);
    }
  }

  /** No message in the list has this id: what a fresh-id generator promises. */
  predicate Fresh(ms: seq<ChatMessage>, id: MessageId)
  {
    forall i :: 0 <= i < |ms| ==> ms[i].id != id
  }

  /** A message appended after messages with other ids is the one found by its id. */
  lemma FindAppended(ms: seq<ChatMessage>, m: ChatMessage)
    requires Fresh(ms, m.id)
    ensures FindMessage(ms + [m], m.id) == Some(|ms|)
  {
    assert forall j :: 0 <= j < |ms| ==> (ms + [m])[j] == ms[j];
    assert (ms + [m])[|ms|] == m;
  }

  /** Patching a message appended after messages with other ids patches that
      message and leaves the others as they are. */
  lemma PatchLast(ms: seq<ChatMessage>, m: ChatMessage, p: MessagePatch)
    requires Fresh(ms, m.id)
    ensures PatchFirst(ms + [m], m.id, p) == ms + [ApplyPatch(m, p)]
  {
    FindAppended(ms, m);
    var r := PatchFirst(ms + [m], m.id, p);
    assert forall i :: 0 <= i < |ms| + 1 ==> r[i] == (ms + [ApplyPatch(m, p)])[i];
  }

  /** Appending to a message appended after messages with other ids extends
      that message's content only. */
  lemma AppendLast(ms: seq<ChatMessage>, m: ChatMessage, text: string)
    requires Fresh(ms, m.id)
    ensures AppendFirst(ms + [m], m.id, text) == ms + [m.(content := m.content + text)]
  {
    FindAppended(ms, m);
    var r := AppendFirst(ms + [m], m.id, text);
    assert forall i :: 0 <= i < |ms| + 1 ==> r[i] == (ms + [m.(content := m.content + text)])[i];
  }

  /** Both lists agree everywhere except possibly at index k. */
  predicate SameExcept(ms: seq<ChatMessage>, ns: seq<ChatMessage>, k: int)
  {
    |ms| == |ns| && forall i :: 0 <= i < |ms| && i != k ==> ms[i] == ns[i]
  }

  /** `updateMessage`: the patch is merged into the first message with that id;
      no message has the id, nothing changes. */
  function PatchFirst(ms: seq<ChatMessage>, id: MessageId, p: MessagePatch): (r: seq<ChatMessage>)
    ensures FindMessage(ms, id).None? ==> r == ms
    ensures FindMessage(ms, id).Some? ==> var k := FindMessage(ms, id).value;
      SameExcept(ms, r, k) && r[k] == ApplyPatch(ms[k], p)
    ensures |r| == |ms| && forall i :: 0 <= i < |ms| ==> r[i].id == ms[i].id
  {
    match FindMessage(ms, id)
    case None => ms
    case Some(k) => ms[k := ApplyPatch(ms[k], p)]
  }

  /** `appendToStreamingMessage`: text appended to the content of the first
      message with that id. */
  function AppendFirst(ms: seq<ChatMessage>, id: MessageId, text: string): (r: seq<ChatMessage>)
    ensures FindMessage(ms, id).None? ==> r == ms
    ensures FindMessage(ms, id).Some? ==> var k := FindMessage(ms, id).value;
      SameExcept(ms, r, k) && r[k] == ms[k].(content := ms[k].content + text)
    ensures |r| == |ms| && forall i :: 0 <= i < |ms| ==> r[i].id == ms[i].id
  {
    match FindMessage(ms, id)
    case None => ms
    case Some(k) => ms[k := ms[k].(content := ms[k].content + text)]
  }

  /** Streaming two chunks into a message is streaming their concatenation. */
  lemma AppendFirstTwice(ms: seq<ChatMessage>, id: MessageId, a: string, b: string)
    ensures AppendFirst(AppendFirst(ms, id, a), id, b) == AppendFirst(ms, id, a + b)
  {
    var once := AppendFirst(ms, id, a);
    FindMessageSameIds(ms, once, id);
    if FindMessage(ms, id).Some? {
      var k := FindMessage(ms, id).value;
      assert once[k].content + b == ms[k].content + (a + b);
    }
  }

  /** Appending the chunks of a stream one after another. */
  function AppendAll(ms: seq<ChatMessage>, id: MessageId, chunks: seq<string>): seq<ChatMessage>
    decreases |chunks|
  {
    if chunks == [] then ms else AppendAll(AppendFirst(ms, id, chunks[0]), id, chunks[1..])
  }

  function Concat(chunks: seq<string>): string
  {
    if chunks == [] then "" else chunks[0] + Concat(chunks[1..])
  }

  /** A whole stream of chunks lands in the message as their concatenation. */
  lemma {:induction false} AppendAllIsAppendConcat(ms: seq<ChatMessage>, id: MessageId, chunks: seq<string>)
    ensures AppendAll(ms, id, chunks) == AppendFirst(ms, id, Concat(chunks))
    decreases |chunks|
  {
    if chunks == [] {
      var k := FindMessage(ms, id);
      if k.Some? {
        assert ms[k.value].content + "" == ms[k.value].content;
        assert ms[k.value := ms[k.value]] == ms;
      }
    } else {
      AppendAllIsAppendConcat(AppendFirst(ms, id, chunks[0]), id, chunks[1..]);
      AppendFirstTwice(ms, id, chunks[0], Concat(chunks[1..]));
    }
  }

  class ChatStore {
    var messages: seq<ChatMessage>
    var inputValue: string
    var cursorPosition: int
    var lastEditDueToNav: bool
    var inputFocused: bool
    var isFocusSupported: bool
    var isStreaming: bool
    var streamingMessageId: Option<MessageId>

    predicate Valid()
      reads this
    {
      0 <= cursorPosition <= |inputValue|
    }

    function Input(): InputValue
      reads this
    {
      InputValue(inputValue, cursorPosition, lastEditDueToNav)
    }

    constructor ()
      ensures Valid()
      ensures messages == [] && Input() == EmptyInput && inputFocused && !isFocusSupported
      ensures !isStreaming && streamingMessageId == None
    {
      messages := [];
      inputValue := "";
      cursorPosition := 0;
      lastEditDueToNav := false;
      inputFocused := true;
      isFocusSupported := false;
      isStreaming := false;
      streamingMessageId := None;
    }

    method SetMessages(u: MessagesUpdate)
      modifies this
      ensures messages == (match u case NewMessages(ms) => ms case MessagesUpdater(f) => f(old(messages)))
      ensures Input() == old(Input()) && inputFocused == old(inputFocused) && isFocusSupported == old(isFocusSupported)
      ensures isStreaming == old(isStreaming) && streamingMessageId == old(streamingMessageId)
    {
      match u
      case NewMessages(ms) => messages := ms;
      case MessagesUpdater(f) => messages := f(messages);
    }

    method AddMessage(m: ChatMessage)
      modifies this
      ensures messages == old(messages) + [m]
      ensures Input() == old(Input()) && inputFocused == old(inputFocused) && isFocusSupported == old(isFocusSupported)
      ensures isStreaming == old(isStreaming) && streamingMessageId == old(streamingMessageId)
    {
      messages := messages + [m];
    }

    /** Looks the message up, then merges the patch into it. */
    method UpdateMessage(id: MessageId, updates: MessagePatch)
      modifies this
      ensures messages == PatchFirst(old(messages), id, updates)
      ensures Input() == old(Input()) && inputFocused == old(inputFocused) && isFocusSupported == old(isFocusSupported)
      ensures isStreaming == old(isStreaming) && streamingMessageId == old(streamingMessageId)
    {
      var i := 0;
      while i < |messages| && messages[i].id != id
        invariant 0 <= i <= |messages|
        invariant forall j :: 0 <= j < i ==> messages[j].id != id
      {
        i := i + 1;
      }
      if i < |messages| {
        assert FindMessage(messages, id) == Some(i);
        messages := messages[i := ApplyPatch(messages[i], updates)];
      }
    }

    method SetInputValue(u: InputUpdate)
      modifies this
      ensures Valid()
      ensures Input() == ClampInput(Resolve(u, old(Input())))
      ensures messages == old(messages) && inputFocused == old(inputFocused) && isFocusSupported == old(isFocusSupported)
      ensures isStreaming == old(isStreaming) && streamingMessageId == old(streamingMessageId)
    {
      var v := Resolve(u, Input());
      inputValue := v.text;
      cursorPosition := Clamp(v.cursorPosition, 0, |v.text|);
      lastEditDueToNav := v.lastEditDueToNav;
    }

    method SetInputFocused(focused: bool)
      modifies this
      ensures inputFocused == focused
      ensures messages == old(messages) && Input() == old(Input()) && isFocusSupported == old(isFocusSupported)
      ensures isStreaming == old(isStreaming) && streamingMessageId == old(streamingMessageId)
    {
      inputFocused := focused;
    }

    method SetIsFocusSupported(supported: bool)
      modifies this
      ensures isFocusSupported == supported
      ensures messages == old(messages) && Input() == old(Input()) && inputFocused == old(inputFocused)
      ensures isStreaming == old(isStreaming) && streamingMessageId == old(streamingMessageId)
    {
      isFocusSupported := supported;
    }

    method SetIsStreaming(streaming: bool)
      modifies this
      ensures isStreaming == streaming
      ensures messages == old(messages) && Input() == old(Input()) && inputFocused == old(inputFocused)
      ensures isFocusSupported == old(isFocusSupported) && streamingMessageId == old(streamingMessageId)
    {
      isStreaming := streaming;
    }

    method SetStreamingMessageId(id: Option<MessageId>)
      modifies this
      ensures streamingMessageId == id
      ensures messages == old(messages) && Input() == old(Input()) && inputFocused == old(inputFocused)
      ensures isFocusSupported == old(isFocusSupported) && isStreaming == old(isStreaming)
    {
      streamingMessageId := id;
    }

    /** Appends to the streaming message; no streaming id (or the empty id),
        or no message with it, changes nothing. */
    method AppendToStreamingMessage(content: string)
      modifies this
      ensures streamingMessageId.Some? && streamingMessageId.value != "" ==>
        messages == AppendFirst(old(messages), streamingMessageId.value, content)
      ensures streamingMessageId.None? || streamingMessageId.value == "" ==> messages == old(messages)
      ensures Input() == old(Input()) && inputFocused == old(inputFocused) && isFocusSupported == old(isFocusSupported)
      ensures isStreaming == old(isStreaming) && streamingMessageId == old(streamingMessageId)
    {
      if streamingMessageId.Some? && streamingMessageId.value != "" {
        var id := streamingMessageId.value;
        var i := 0;
        while i < |messages| && messages[i].id != id
          invariant 0 <= i <= |messages|
          invariant forall j :: 0 <= j < i ==> messages[j].id != id
        {
          i := i + 1;
        }
        if i < |messages| {
          assert FindMessage(messages, id) == Some(i);
          messages := messages[i := messages[i].(content := messages[i].content + content)];
        }
      }
    }

    /** Back to the initial state, keeping focus support. */
    method Reset()
      modifies this
      ensures Valid()
      ensures messages == [] && Input() == EmptyInput && inputFocused
      ensures !isStreaming && streamingMessageId == None
      ensures isFocusSupported == old(isFocusSupported)
    {
      messages := [];
      inputValue := "";
      cursorPosition := 0;
      lastEditDueToNav := false;
      inputFocused := true;
      isStreaming := false;
      streamingMessageId := None;
    }
  }
}
