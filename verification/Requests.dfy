/** Requests and the per-sequence state that the scheduler and the cache share. */
module Requests {
  import opened BlockPool

  type Id = nat

  datatype SamplingParams = SamplingParams(
    maxTokens: int, temperature: real, topP: real, seed: nat, stopIds: seq<Token>, ignoreEos: bool)

  datatype Status = Waiting | Running | Finished

  datatype Finish = NoFinish | Stop | Length | Abort | Timeout

  datatype Sequence = Sequence(
    tokens: seq<Token>,      // prompt followed by generated tokens
    promptLen: nat,
    computed: nat,           // tokens whose K/V are in the cache
    table: Table,
    params: SamplingParams,
    status: Status,
    finish: Finish,
    preemptions: nat,
    waitSteps: nat)

  function NumGenerated(s: Sequence): int {
    |s.tokens| - s.promptLen
  }

  predicate PrefillDone(s: Sequence) {
    |s.tokens| - s.computed <= 1
  }

  predicate IsFinished(s: Sequence) {
    s.status == Finished
  }

  predicate IsStop(params: SamplingParams, t: Token) {
    !params.ignoreEos && t in params.stopIds
  }

  /** One slice of a step: tokens[start .. start + len) of a sequence. */
  datatype Slice = Slice(id: Id, start: nat, len: nat, needsLogits: bool, isPrefill: bool)
}
