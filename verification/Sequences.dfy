/** The sequence object that schedulers and runners share. */
module Sequences {

  class SequenceState {
    const sequenceId: int
    const prompt: seq<nat>
    const maxNewTokens: nat
    var tokens: seq<nat>
    var stoppedEarly: bool
    var promptTokens: nat
    /** Every token the model chose, an end marker included. */
    ghost var sampled: seq<nat>

    constructor (sequenceId: int, prompt: seq<nat>, maxNewTokens: nat)
      requires maxNewTokens > 0
      ensures this.sequenceId == sequenceId && this.prompt == prompt && this.maxNewTokens == maxNewTokens
      ensures tokens == [] && !stoppedEarly && promptTokens == 0 && sampled == []
    {
      this.sequenceId, this.prompt, this.maxNewTokens := sequenceId, prompt, maxNewTokens;
      tokens, stoppedEarly, promptTokens, sampled := [], false, 0, [];
    }

    predicate Finished()
      reads this
    {
      stoppedEarly || |tokens| >= maxNewTokens
    }
  }
}
