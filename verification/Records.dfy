/** The records the hooks of a Claude Code process write, as the channel reads them. */
module Records {

  datatype Option<T> = None | Some(value: T) {
    function GetOr(default: T): T {
      if Some? then value else default
    }

    /** JavaScript's `a ?? b` on two optional values. */
    function OrElse(other: Option<T>): Option<T> {
      if Some? then this else other
    }
  }

  datatype PromptId = PromptId(text: string)
  datatype RequestId = RequestId(text: string)

  /** A channel submit at most this much later than the one before it can be of the same batch. */
  const CHANNEL_BATCH_MS: nat := 30_000

  /** What the Stop hook writes. `background` and `finalText` are as given to the hook, when they were. */
  datatype StopRecord = StopRecord(
    sessionId: Option<string>,
    promptId: Option<PromptId>,
    background: Option<bool>,
    finalText: Option<string>,
    atMs: nat)

  /** What the submit hook writes; only a message of this channel has a `requestId`. */
  datatype SubmitRecord = SubmitRecord(
    sessionId: Option<string>,
    promptId: Option<PromptId>,
    requestId: Option<RequestId>,
    atMs: nat)

  /** What the hook for API errors writes. */
  datatype FailureRecord = FailureRecord(
    sessionId: Option<string>,
    promptId: Option<PromptId>,
    error: Option<string>,
    errorDetails: Option<string>,
    atMs: nat)

  /** The latest tool call, and when its turn's first one was made. */
  datatype TurnActivity = TurnActivity(promptId: Option<PromptId>, firstMs: nat, atMs: nat)

  /** A parsed line. */
  datatype SessionEvent =
    | Submit(submit: SubmitRecord)
    | Stop(stop: StopRecord)
    | Failure(failure: FailureRecord)
}
