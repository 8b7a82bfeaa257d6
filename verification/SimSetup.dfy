/** From a deployment's settings to the simulator's configuration. */
module SimSetup {
  import opened Common
  import opened Cost
  import ItlControl
  import Policy
  import PrefillState
  import DecodeState
  import opened SimState
  import opened SimInvariant

  /** The settings the simulator reads. `draft` holds the draft tokens when speculation is on. */
  datatype Setup = Setup(
    clients: nat, isl: nat, osl: nat, ttft: real, itl: real, itlSafety: real,
    prefillWorkers: nat, decodeWorkers: nat, prefillCurve: PrefillCurve, decodeCurve: DecodeCurve,
    chunkTokens: nat, maxSeqs: nat, policy: Policy.PrefillPolicy, demoteHopeless: bool,
    initialCap: real, maxDecodeSeqs: nat, draft: Option<nat>,
    blockSize: nat, blocks: nat, admissionWatermark: real, xferConcurrency: nat,
    layers: nat, kvHeads: nat, headDim: nat, gibPerS: real, horizon: real)

  /** The blocks that admission leaves alone: a share of all, rounded up. */
  function Reserved(blocks: nat, share: real): nat {
    var n := Ceiling(blocks as real * share);
    if n >= 0 then n else 0
  }

  /** The fabric must have some bandwidth, and the controller's floor may not exceed its ceiling. */
  function Configure(r: Setup): Config
    requires r.gibPerS > 0.0 && r.maxDecodeSeqs >= 8
  {
    var control := ItlControl.New(r.itl * r.itlSafety, r.initialCap, 8.0, r.maxDecodeSeqs as real);
    var tokens := match r.draft case Some(d) => 1 + d case None => 1;
    Config(
      r.clients, r.isl, r.osl, r.ttft, r.prefillWorkers, r.decodeWorkers,
      PrefillState.Tuning(
        r.chunkTokens, r.maxSeqs, r.policy, r.demoteHopeless, r.prefillCurve.tokensPerMs, 0.2),
      DecodeState.DecodeSched(map[], control, r.itl, tokens, 0, 0, {}, 0, 0),
      r.prefillCurve, r.decodeCurve, r.blockSize, r.blocks,
      Reserved(r.blocks, r.admissionWatermark), r.xferConcurrency,
      TransferMs(r.layers, r.kvHeads, r.headDim, r.isl, r.gibPerS), r.horizon)
  }

  /** Blocks are reserved for every token and no more: they hold all, and one less would not. */
  lemma BlocksForIsLeast(tokens: nat, blockSize: nat)
    ensures var n, size := BlocksFor(tokens, blockSize), if blockSize == 0 then 1 else blockSize;
      && n * size >= tokens
      && (n > 0 ==> (n - 1) * size < tokens)
  {
    var size := if blockSize == 0 then 1 else blockSize;
    var q, r := tokens / size, tokens % size;
    assert tokens == q * size + r;
    assert (q + 1) * size == q * size + size;
    if r == 0 && q > 0 {
      assert (q - 1) * size == q * size - size;
    }
  }

  /** What a request needs holds its prompt and every token it asks for. */
  lemma NeedHoldsAll(c: Config, r: Request)
    ensures Need(c, r) * (if c.blockSize == 0 then 1 else c.blockSize) >= r.promptLen + r.osl
    ensures Need(c, r) > 0 ==>
      (Need(c, r) - 1) * (if c.blockSize == 0 then 1 else c.blockSize) < r.promptLen + r.osl
  {
    BlocksForIsLeast(r.promptLen + r.osl, c.blockSize);
  }

  /** The watermark is the least whole number of blocks that covers its share. */
  lemma ReservedIsLeast(blocks: nat, share: real)
    requires share >= 0.0
    ensures var n := Reserved(blocks, share) as real;
      blocks as real * share <= n < blocks as real * share + 1.0
  {
    assert blocks as real * share >= 0.0;
  }

  lemma ReservedFitsIff(blocks: nat, share: real)
    ensures Reserved(blocks, share) <= blocks <==> blocks == 0 || share <= 1.0
  {
    var n := blocks as real;
    var x := n * share;
    if share <= 1.0 {
      assert n * (1.0 - share) >= 0.0 && x == n - n * (1.0 - share);
    } else if blocks > 0 {
      assert n * (share - 1.0) > 0.0 && x == n + n * (share - 1.0);
    }
  }

  /** Which settings the simulator's laws hold for: workers on both sides, positive budgets and
      durations, no more reserve than blocks, and given-up requests either served or not singled out. */
  lemma ConfigureOkIff(r: Setup)
    requires r.gibPerS > 0.0 && r.maxDecodeSeqs >= 8
    ensures ConfigOk(Configure(r)) <==>
      && r.prefillCurve.Valid() && r.decodeCurve.Valid()
      && r.prefillWorkers >= 1 && r.decodeWorkers >= 1
      && r.maxSeqs >= 1 && r.chunkTokens >= 1 && (r.demoteHopeless || !r.policy.MooreHodgson?)
      && (r.blocks == 0 || r.admissionWatermark <= 1.0)
    ensures ItlControl.InBounds(Configure(r).decode.controller)
  {
    ReservedFitsIff(r.blocks, r.admissionWatermark);
  }
}
