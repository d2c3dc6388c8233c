/** Streaming bookkeeping (cli/src/hooks/use-streaming.ts): the abort
    controller of the running reply, its start time and token count, and a
    local streaming flag. The clock reading is a parameter. */
module Streaming {
  import opened Common

  /** An `AbortController` and its signal. */
  class AbortController {
    var aborted: bool

    constructor ()
      ensures !aborted
    {
      aborted := false;
    }

    /** `abort()`: the signal reads aborted from then on. */
    method Abort()
      modifies this
      ensures aborted
    {
      aborted := true;
    }
  }

  class Streaming {
    var isStreamingLocal: bool
    var streamStartTime: int
    var tokenCount: int
    /** `abortControllerRef.current` */
    var controller: Option<AbortController>

    constructor ()
      ensures !isStreamingLocal && streamStartTime == 0 && tokenCount == 0 && controller == None
    {
      isStreamingLocal := false;
      streamStartTime := 0;
      tokenCount := 0;
      controller := None;
    }

    /** `startStreaming`: a new controller becomes the current one and is
        returned; the count restarts at 0. */
    method StartStreaming(now: int) returns (c: AbortController)
      modifies this
      ensures fresh(c) && !c.aborted
      ensures controller == Some(c) && isStreamingLocal && streamStartTime == now && tokenCount == 0
    {
      c := new AbortController();
      controller := Some(c);
      isStreamingLocal := true;
      streamStartTime := now;
      tokenCount := 0;
    }

    /** `updateTokenCount`: the count becomes exactly the given value. */
    method UpdateTokenCount(count: int)
      modifies this
      ensures tokenCount == count
      ensures isStreamingLocal == old(isStreamingLocal) && streamStartTime == old(streamStartTime)
      ensures controller == old(controller)
    {
      tokenCount := count;
    }

    /** `endStreaming`: no current controller, so a later cancel does nothing. */
    method EndStreaming()
      modifies this
      ensures !isStreamingLocal && controller == None
      ensures streamStartTime == old(streamStartTime) && tokenCount == old(tokenCount)
    {
      isStreamingLocal := false;
      controller := None;
    }

    /** `cancelStream`: aborts the current controller, if there is one. */
    method CancelStream()
      modifies if controller.Some? then {controller.value} else {}
      ensures controller.Some? ==> controller.value.aborted
    {
      if controller.Some? {
        controller.value.Abort();
      }
    }
  }
}
