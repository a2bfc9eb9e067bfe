/** The facts that drive token generation. Structural equality of facts is what
    the fact store uses to drop a fact it has already seen. */
module Facts {
  import opened Prelude

  /** An f32; only equality is used by the fabric. */
  type F32(!new, ==)

  datatype HaltReason = EosToken | MaxTokensReached | ExtraStopToken | ControlHalt

  datatype KernelKind = Qkv | AttnOut | FfnDown | FfnProj | FullLayer

  datatype YieldReason = TdrBudgetExceeded | LayerBoundary

  /** The facts that the fabric's rules consume or derive. */
  datatype Fact =
    | PromptToken(position: nat, tokenId: u32)
    | EmbeddingRequest(tokenId: u32)
    | EmbeddingReady(position: nat, tokenId: u32)
    | PrefillBatchReady(tokenCount: u32)
    | PrefillComplete(position: nat)
    | DecodeStep(step: nat, tokenId: u32, position: nat)
    | KvAdvance(position: nat)
    | KvWritten
    | LayerOutput(layerIdx: nat, position: nat, rmsBits: u32, checksum: int)
    | FinalLogits(position: nat, rmsBits: u32, checksum: int)
    | DispatchCompleted(layer: nat, kernel: KernelKind, elapsedMs: u32)
    | TdrRiskHigh(layer: nat)
    | YieldNow(layer: nat, reason: YieldReason)
    | GenerationHalt(halt: HaltReason)
    | TensorFact(quantType: u32, shape: seq<u32>, offset: u64, archParams: string)
    | DispatchFact(quantType: u32, formulaIndex: u32, offset: u64)

  /** The facts of which at most one is ever waiting: they carry the thread of
      control from prefill through the decode steps. */
  predicate IsControl(f: Fact) {
    f.PrefillBatchReady? || f.PrefillComplete? || f.DecodeStep?
  }
}
