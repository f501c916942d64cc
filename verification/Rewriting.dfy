/** DoVCDOptimize's own step function, and why its runs end. */
module Rewriting {
  import opened StartCodes
  import opened VlcCodes
  import opened Parser
  import opened Runs

  function StepOf(c: Config): Stepper
    requires Usable(c)
  {
    (s, u) => if Saved(s) then Next(c, s, u) else Stall(s)
  }

  lemma HeaderAdvances(c: Config, s: Parse, u: seq<bool>)
    requires Usable(c) && Saved(s)
    ensures s.state.SliceStart? ==> Advances(s, SliceStartMove(s, u))
    ensures s.state.MacroblockStart? ==> Advances(s, AddressMove(s, u))
    ensures s.state.MacroblockType? ==> Advances(s, TypeMove(c, s, u))
    ensures s.state.MacroblockQuant? ==> Advances(s, MacroblockQuantMove(c, s, u))
  {
    if s.state.SliceStart? { assert Scan(u[|u| % 8..]).Found? ==> NextStart(u).Len() >= 32; }
  }

  lemma BlockAdvances(c: Config, s: Parse, u: seq<bool>)
    requires Saved(s)
    ensures s.state.RlpOkStage1? ==> Advances(s, OkStage1Move(s, u))
    ensures s.state.RlpOkStage2? ==> Advances(s, OkStage2Move(s, u))
    ensures s.state.RlpCheckStage1? ==> Advances(s, CheckStage1Move(c, s, u))
    ensures s.state.RlpCheckStage2? ==> Advances(s, CheckStage2Move(c, s, u))
    ensures s.state.DcSize? ==> Advances(s, DcSizeMove(s, u))
  {
  }

  /** Every step that does not end the run consumes bits or falls in rank, so DoVCDOptimize halts
      on every buffer from every saved state. */
  lemma Progress(c: Config, s: Parse, u: seq<bool>)
    requires Usable(c) && Saved(s)
    ensures Advances(s, Next(c, s, u))
  {
    match s.state
    case SliceStart | MacroblockStart | MacroblockType | MacroblockQuant => HeaderAdvances(c, s, u);
    case DcSize | RlpOkStage1 | RlpOkStage2 | RlpCheckStage1 | RlpCheckStage2 => BlockAdvances(c, s, u);
    case _ =>
  }

  lemma StepOfLawful(c: Config)
    requires Usable(c)
    ensures Lawful(StepOf(c))
  {
    forall s, u | Saved(s)
      ensures Proper(StepOf(c)(s, u), u) && Advances(s, StepOf(c)(s, u))
    {
      Progress(c, s, u);
    }
  }
}
