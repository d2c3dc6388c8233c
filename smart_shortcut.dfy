/** Smart shortcuts (cli/src/hooks/use-smart-shortcut.ts): on every third
    user message, a summary of the recent conversation is sent off to get a
    suggested next prompt, one request at a time. The request itself is not
    modelled: `CheckAndGenerateShortcut` returns the summary it would send, and
    `Settle` is the request's completion. */
module SmartShortcut {
  import opened Common
  import opened ChatTypes

  /** How many recent messages the summary covers. */
  const RECENT: nat := 10

  /** How much of each message's content the summary keeps. */
  const LINE_CONTENT: nat := 200

  function VariantName(v: ChatVariant): string
  {
    match v
    case User => "user"
    case Ai => "ai"
    case System => "system"
    case Error => "error"
  }

  /** One summary line: the variant, then the first 200 code units. */
  function SummaryLine(v: ChatVariant, content: string): (r: string)
    ensures |r| <= |VariantName(v)| + 2 + LINE_CONTENT
    ensures |VariantName(v)| + 2 <= |r| && r[..|VariantName(v)| + 2] == VariantName(v) + ": "
    ensures r[|VariantName(v)| + 2..] <= content
    ensures |content| <= LINE_CONTENT ==> r[|VariantName(v)| + 2..] == content
  {
    VariantName(v) + ": " + Take(content, LINE_CONTENT)
  }

  /** `messages.slice(-10)` */
  function Recent(ms: seq<ChatMessage>): (r: seq<ChatMessage>)
    ensures |r| == if |ms| < RECENT then |ms| else RECENT
    ensures r == ms[|ms| - |r|..]
  {
    if |ms| <= RECENT then ms else ms[|ms| - RECENT..]
  }

  function Lines(ms: seq<ChatMessage>): (r: seq<string>)
    ensures |r| == |ms| && forall i :: 0 <= i < |ms| ==> r[i] == SummaryLine(ms[i].variant, ms[i].content)
  {
    seq(|ms|, i requires 0 <= i < |ms| => SummaryLine(ms[i].variant, ms[i].content))
  }

  /** The summary: the recent messages and the new user message, a line each. */
  function Summary(messages: seq<ChatMessage>, userContent: string): string
  {
    Join(Lines(Recent(messages)) + [SummaryLine(User, userContent)], "\n")
  }

  /** The summary ends with the new message's line, after the lines of the
      recent messages. */
  lemma SummaryEndsWithContent(messages: seq<ChatMessage>, userContent: string)
    ensures var last := SummaryLine(User, userContent);
      Summary(messages, userContent) ==
        if Recent(messages) == [] then last else Join(Lines(Recent(messages)), "\n") + "\n" + last
  {
    var lines := Lines(Recent(messages));
    if lines != [] {
      JoinSnoc(lines, SummaryLine(User, userContent), "\n");
    }
  }

  /** The gate: a positive multiple of three, with no request pending. */
  predicate ShouldRequest(messageCount: int, pending: bool)
  {
    messageCount > 0 && messageCount % 3 == 0 && !pending
  }

  class SmartShortcut {
    /** `pendingRef.current` */
    var pending: bool

    constructor ()
      ensures !pending
    {
      pending := false;
    }

    /** `checkAndGenerateShortcut`: issues a request (returned as the summary
        it carries) only when the gate is open, and marks it pending. */
    method CheckAndGenerateShortcut(userContent: string, messageCount: int, messages: seq<ChatMessage>)
      returns (request: Option<string>)
      modifies this
      ensures ShouldRequest(messageCount, old(pending)) ==> request == Some(Summary(messages, userContent)) && pending
      ensures !ShouldRequest(messageCount, old(pending)) ==> request == None && pending == old(pending)
    {
      if messageCount <= 0 || messageCount % 3 != 0 || pending {
        return None;
      }
      pending := true;
      request := Some(Summary(messages, userContent));
    }

    /** The request settled: a truthy shortcut is handed to `setSmartShortcut`
        (returned here), and nothing is pending any more, whatever the outcome. */
    method Settle(shortcut: Option<string>) returns (toSet: Option<string>)
      modifies this
      ensures !pending
      ensures toSet.Some? <==> Given(shortcut)
      ensures toSet.Some? ==> toSet == shortcut
    {
      pending := false;
      toSet := if Given(shortcut) then shortcut else None;
    }
  }
}
