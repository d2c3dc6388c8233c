/** The thumbs widget under an assistant message
    (cli/src/components/chat/FeedbackIndicator.tsx): idle, expanded to show
    the three ratings, or submitted. The `onFeedback` callback is recorded as
    the list of calls it received. */
module FeedbackIndicator {
  import opened Common
  import opened ChatTypes
  import InputKeyboard

  datatype FeedbackState = Idle | Expanded | Submitted

  /** What the widget shows: "[thanks]", the three options, or the arrows. */
  datatype View = Thanks | Options | Arrows

  /** The state derived from the `feedback` prop: a message already rated
      starts out submitted. */
  function InitialState(feedback: Option<FeedbackValue>): (r: FeedbackState)
    ensures r != Expanded
    ensures r == Submitted <==> feedback.Some?
  {
    if feedback.Some? then Submitted else Idle
  }

  /** The rating each digit key gives. */
  function Rating(sequence: string): Option<FeedbackValue>
  {
    if sequence == "1" then Some(Bad)
    else if sequence == "2" then Some(Good)
    else if sequence == "3" then Some(Great)
    else None
  }

  /** One key press: the next state and the rating passed to `onFeedback`,
      if any. */
  function OnKey(state: FeedbackState, isLastMessage: bool, key: InputKeyboard.KeyEvent): (r: (FeedbackState, Option<FeedbackValue>))
    ensures r.1.Some? <==> isLastMessage && state == Expanded && Rating(key.sequence).Some?
    ensures r.1.Some? ==> r.0 == Submitted && r.1 == Rating(key.sequence)
    ensures r.0 == Submitted ==> state == Submitted || r.1.Some?
  {
    if !isLastMessage || state == Submitted then (state, None)
    else if key.sequence == "f" && state == Idle then (Expanded, None)
    else if state != Expanded then (state, None)
    else if Rating(key.sequence).Some? then (Submitted, Rating(key.sequence))
    else if key.name == "escape" then (Idle, None)
    else (state, None)
  }

  /** The widget's rendering choice. */
  function ViewOf(state: FeedbackState, feedback: Option<FeedbackValue>): View
  {
    if state == Submitted || feedback.Some? then Thanks
    else if state == Expanded then Options
    else Arrows
  }

  class Indicator {
    var messageId: string
    var feedback: Option<FeedbackValue>
    var isLastMessage: bool
    var state: FeedbackState
    /** The calls `onFeedback` received, oldest first. */
    var sent: seq<(string, FeedbackValue)>

    constructor(messageId: string, feedback: Option<FeedbackValue>, isLastMessage: bool)
      ensures this.messageId == messageId && this.feedback == feedback && this.isLastMessage == isLastMessage
      ensures state == InitialState(feedback) && sent == []
    {
      this.messageId := messageId;
      this.feedback := feedback;
      this.isLastMessage := isLastMessage;
      state := if feedback.Some? then Submitted else Idle;
      sent := [];
    }

    /** New props. The effect keyed on `feedback` and `messageId` re-derives
        the state when either of them changed. */
    method SetProps(messageId: string, feedback: Option<FeedbackValue>, isLastMessage: bool)
      modifies this
      ensures this.messageId == messageId && this.feedback == feedback && this.isLastMessage == isLastMessage
      ensures state == if messageId != old(this.messageId) || feedback != old(this.feedback) then InitialState(feedback) else old(state)
      ensures sent == old(sent)
    {
      var changed := messageId != this.messageId || feedback != this.feedback;
      this.messageId := messageId;
      this.feedback := feedback;
      this.isLastMessage := isLastMessage;
      if changed {
        state := if feedback.Some? then Submitted else Idle;
      }
    }

    /** The keyboard handler. */
    method HandleKey(key: InputKeyboard.KeyEvent)
      modifies this
      ensures state == OnKey(old(state), isLastMessage, key).0
      ensures sent == old(sent) + match OnKey(old(state), isLastMessage, key).1
        case None => []
        case Some(v) => [(messageId, v)]
      ensures messageId == old(messageId) && feedback == old(feedback) && isLastMessage == old(isLastMessage)
    {
      if !isLastMessage || state == Submitted {
        return;
      }
      if key.sequence == "f" && state == Idle {
        state := Expanded;
        return;
      }
      if state != Expanded {
        return;
      }
      if key.sequence == "1" {
        sent := sent + [(messageId, Bad)];
        state := Submitted;
      } else if key.sequence == "2" {
        sent := sent + [(messageId, Good)];
        state := Submitted;
      } else if key.sequence == "3" {
        sent := sent + [(messageId, Great)];
        state := Submitted;
      } else if key.name == "escape" {
        state := Idle;
      }
    }

    function View(): View
      reads this
    {
      ViewOf(state, feedback)
    }
  }

  /** Keys pressed one after another, the props unchanged: the final state
      and the ratings sent, in order. */
  function OnKeys(state: FeedbackState, isLastMessage: bool, keys: seq<InputKeyboard.KeyEvent>): (FeedbackState, seq<FeedbackValue>)
    decreases |keys|
  {
    if keys == [] then (state, [])
    else
      var (next, sent) := OnKey(state, isLastMessage, keys[0]);
      var (final, rest) := OnKeys(next, isLastMessage, keys[1..]);
      (final, (if sent.Some? then [sent.value] else []) + rest)
  }

  /** Neither a message that is not the last one nor a submitted widget
      reacts to keys. */
  lemma Inactive(state: FeedbackState, isLastMessage: bool, key: InputKeyboard.KeyEvent)
    requires !isLastMessage || state == Submitted
    ensures OnKey(state, isLastMessage, key) == (state, None)
  {
  }

  /** In the idle state 'f' expands the widget and every other key is
      ignored. */
  lemma IdleKeys(key: InputKeyboard.KeyEvent)
    ensures OnKey(Idle, true, key) == if key.sequence == "f" then (Expanded, None) else (Idle, None)
  {
  }

  /** In the expanded state '1', '2' and '3' submit bad, good and great,
      Escape collapses, and every other key is ignored. */
  lemma ExpandedKeys(key: InputKeyboard.KeyEvent)
    ensures key.sequence == "1" ==> OnKey(Expanded, true, key) == (Submitted, Some(Bad))
    ensures key.sequence == "2" ==> OnKey(Expanded, true, key) == (Submitted, Some(Good))
    ensures key.sequence == "3" ==> OnKey(Expanded, true, key) == (Submitted, Some(Great))
    ensures Rating(key.sequence).None? && key.name == "escape" ==> OnKey(Expanded, true, key) == (Idle, None)
    ensures Rating(key.sequence).None? && key.name != "escape" ==> OnKey(Expanded, true, key) == (Expanded, None)
  {
  }

  /** Over any run of keys a rating is sent at most once, the widget is then
      submitted, and a widget that starts submitted sends nothing. */
  lemma {:induction false} AtMostOnce(state: FeedbackState, isLastMessage: bool, keys: seq<InputKeyboard.KeyEvent>)
    ensures |OnKeys(state, isLastMessage, keys).1| <= 1
    ensures |OnKeys(state, isLastMessage, keys).1| == 1 ==> OnKeys(state, isLastMessage, keys).0 == Submitted
    ensures state == Submitted ==> OnKeys(state, isLastMessage, keys) == (Submitted, [])
    decreases |keys|
  {
    if keys != [] {
      var (next, sent) := OnKey(state, isLastMessage, keys[0]);
      AtMostOnce(next, isLastMessage, keys[1..]);
    }
  }

  /** A message that already carries feedback always shows "[thanks]". */
  lemma RatedShowsThanks(state: FeedbackState, v: FeedbackValue)
    ensures ViewOf(state, Some(v)) == Thanks
  {
  }
}
