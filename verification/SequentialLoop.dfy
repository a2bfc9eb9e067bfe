/** The ordinary generate loop that the fabric replaces: embed the prompt, prefill,
    then mask, sample and gate one token at a time, with a forward pass between
    two tokens. It is written without facts, rules or scheduling, and treats the
    first token like any other. */
module SequentialLoop {
  import opened Prelude
  import opened Facts
  import opened FabricRules

  datatype Request = Request(prompt: seq<u32>, maxTokens: u32, eosToken: u32, stopIds: seq<u32>)

  /** What the loop carries from token to token. */
  datatype Gen<E> = Gen(env: E, ids: seq<u32>, text: string, pieces: seq<string>, traced: seq<(nat, seq<F32>)>)

  /** What a caller can observe when generation stops. */
  datatype Outcome<E> = Outcome(env: E, ids: seq<u32>, text: string, pieces: seq<string>,
                                traced: seq<(nat, seq<F32>)>, halt: HaltReason, blockReason: Option<string>)

  function Stop<E>(g: Gen<E>, halt: HaltReason, blockReason: Option<string>): Outcome<E> {
    Outcome(g.env, g.ids, g.text, g.pieces, g.traced, halt, blockReason)
  }

  /** How many generated tokens the repetition penalty looks back on. */
  const PENALTY_WINDOW: nat := 64

  /** The last tokens generated after a prompt of `promptLen`: what the sampler is given. */
  function Window(ids: seq<u32>, promptLen: nat): seq<u32> {
    if |ids| <= promptLen then []
    else ids[if |ids| - promptLen > PENALTY_WINDOW then |ids| - PENALTY_WINDOW else promptLen..]
  }

  /** The prompt embeddings in prompt order. */
  function Embed<E>(h: Hooks<E>, prompt: seq<u32>): seq<F32> {
    if prompt == [] then [] else h.dequant(prompt[0], h.dim) + Embed(h, prompt[1..])
  }

  /** They are one row for each token, joined. */
  lemma {:induction false} EmbedIsRows<E>(h: Hooks<E>, prompt: seq<u32>)
    ensures Embed(h, prompt) == Flatten(seq(|prompt|, (i: nat) requires i < |prompt| => h.dequant(prompt[i], h.dim)))
  {
    var rows := seq(|prompt|, (i: nat) requires i < |prompt| => h.dequant(prompt[i], h.dim));
    if prompt != [] {
      var rest := prompt[1..];
      EmbedIsRows(h, rest);
      assert rows[1..] == seq(|rest|, (i: nat) requires i < |rest| => h.dequant(rest[i], h.dim));
    }
  }

  /** Generate for a request; the prompt is nonempty. */
  function Generate<E>(h: Hooks<E>, r: Request, env: E): Outcome<E>
    requires |r.prompt| < TWO_TO_THE_32
  {
    var (env', _, logits) := h.prefill(env, Embed(h, r.prompt), |r.prompt|);
    NextToken(h, r, Gen(env', r.prompt, "", [], []), logits, 0)
  }

  /** Choose token number `k` from `logits`, then go on or stop. */
  function NextToken<E>(h: Hooks<E>, r: Request, g: Gen<E>, logits: seq<F32>, k: nat): Outcome<E>
    decreases r.maxTokens - k, 2
  {
    if k > 0 && logits == [] then Stop(g, ControlHalt, Some(EMPTY_LOGITS))
    else
      var (env1, masked) := h.mask(g.env, logits);
      var traced := if k > 0 then g.traced + [(k, masked)] else g.traced;
      var (env2, _, candidate) := h.sample(env1, masked, Window(g.ids, |r.prompt|));
      var (env3, decision) := h.control(env2, candidate, g.text, k, g.ids, |r.prompt| + k);
      var gated := g.(env := env3, traced := traced);
      match decision
      case Allow => Accept(h, r, gated, candidate, k)
      case ForceToken(t) => Accept(h, r, gated, t % TWO_TO_THE_32, k)
      case EarlyExit => Stop(gated, ControlHalt, None)
      case Block(reason) => Stop(gated, ControlHalt, Some(reason))
  }

  /** Record token number `k`, and run the next forward pass if more are wanted. */
  function Accept<E>(h: Hooks<E>, r: Request, g: Gen<E>, token: u32, k: nat): Outcome<E>
    decreases r.maxTokens - k, 1
  {
    var recorded := g.(ids := g.ids + [token]);
    if token == r.eosToken then Stop(recorded, EosToken, None)
    else if token in r.stopIds then Stop(recorded, ExtraStopToken, None)
    else
      var piece := h.decode(token);
      Continue(h, r, recorded.(text := g.text + piece, pieces := g.pieces + [piece], env := h.onToken(g.env, piece)),
               token, k)
  }

  /** After `k + 1` tokens, the last of them `token`. */
  function Continue<E>(h: Hooks<E>, r: Request, g: Gen<E>, token: u32, k: nat): Outcome<E>
    decreases r.maxTokens - k, 0
  {
    if k + 1 >= r.maxTokens then Stop(g, MaxTokensReached, None)
    else
      var (env, _, logits) := h.forward(g.env, [h.tokenValue(token)], |r.prompt| + k);
      NextToken(h, r, g.(env := env), logits, k + 1)
  }
}
