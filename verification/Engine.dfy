/** Engine.Resume as it runs: the loop over a live context and its progress
    record (internal/dag/engine.go). */
module Engines {
  import opened Seeds
  import opened Frontiers
  import opened Contexts
  import opened Waves
  import opened Scheduling

  class RunProgress {
    var initialized: bool
    var wave: int
    var phase: Phase

    constructor ()
      ensures !initialized && wave == 0 && phase == Unset
    {
      initialized, wave, phase := false, 0, Unset;
    }
  }

  ghost predicate Matches(p: PipelineContext, progress: RunProgress, r: Run)
    reads p, progress
  {
    p.State() == r.f && progress.initialized == r.initialized && progress.wave == r.wave && progress.phase == r.phase
  }

  /** A stage: its operations reach the context one at a time. */
  method RunNodes(p: PipelineContext, ops: seq<Op>)
    modifies p
    ensures p.State() == ApplyAll(old(p.State()), ops).0
  {
    for i := 0 to |ops|
      invariant p.State() == ApplyAll(old(p.State()), ops[..i]).0
    {
      assert ops[..i + 1][..i] == ops[..i];
      match ops[i] {
        case Enqueue(seed) =>
          var _ := p.EnqueueSeed(seed);
        case Promote(seed, evidence, reply) =>
          var _ := p.PromoteSeedCandidate(seed, evidence, reply);
      }
    }
    assert ops[..|ops|] == ops;
  }

  class Engine {
    const reconsiderers: nat

    constructor (n: nat)
      ensures reconsiderers == n
    {
      reconsiderers := n;
    }

    /** Resume makes the passes of the phase machine, in order, until one of
        them stops it, and leaves context and progress in the state that many
        passes lead to. It always stops, within fourteen passes. */
    method Resume(p: PipelineContext, progress: RunProgress, turns: nat -> Turn, ghost r0: Run, ghost first: seq<string>)
      returns (outcome: Outcome, ghost passes: nat)
      requires Matches(p, progress, r0)
      requires if r0.initialized then Good(r0, reconsiderers, first)
               else AllCommaFree(r0.f.seeds) && first == FirstSeen(NormalizedKeys(r0.f.seeds))
      requires forall i: nat :: SafeOps(turns(i).ops)
      modifies p, progress
      ensures var r := Passes(Begin(r0), turns, passes, reconsiderers);
              Matches(p, progress, r) && outcome == r.outcome && Good(r, reconsiderers, first)
      ensures outcome == Paused || outcome == Failed || outcome == Done
      ensures 0 < passes <= 14
    {
      Start(p, progress, r0);
      if !r0.initialized {
        BeginGood(r0, reconsiderers);
      }
      ghost var trace := Trace(Begin(r0), turns, reconsiderers, first);
      outcome, passes := Loop(p, progress, turns, trace);
      PassesShrink(Begin(r0), turns, passes, reconsiderers, first);
    }

    method Loop(p: PipelineContext, progress: RunProgress, turns: nat -> Turn, ghost trace: seq<Run>)
      returns (outcome: Outcome, ghost passes: nat)
      requires IsTrace(trace, turns, reconsiderers)
      requires Matches(p, progress, trace[0]) && trace[0].outcome == Running
      modifies p, progress
      ensures 0 < passes < |trace| <= 15
      ensures Matches(p, progress, trace[passes]) && outcome == trace[passes].outcome
      ensures outcome == Paused || outcome == Failed || outcome == Done
    {
      outcome, passes := Running, 0;
      var i: nat := 0;
      while outcome == Running
        invariant passes == i < |trace| && (i == 0 ==> outcome == Running)
        invariant Matches(p, progress, trace[i]) && outcome == trace[i].outcome && outcome != Idle
        decreases |trace| - i
      {
        assert Follows(trace, turns, i, reconsiderers);
        outcome := TakeTurn(p, progress, turns(i), trace[i], trace[i + 1]);
        i, passes := i + 1, i + 1;
      }
    }

    method TakeTurn(p: PipelineContext, progress: RunProgress, t: Turn, ghost r: Run, ghost s: Run)
      returns (outcome: Outcome)
      requires Matches(p, progress, r) && r.outcome == Running
      requires s == Pass(r, t, reconsiderers)
      modifies p, progress
      ensures Matches(p, progress, s) && outcome == s.outcome
    {
      match progress.phase {
        case CollectionWave =>
          outcome := PassWave(p, progress, t, AdvanceFrontier, r);
        case AdvanceFrontier =>
          outcome := PassAdvance(p, progress, CollectionWave, Reconsideration, r);
        case Reconsideration =>
          outcome := PassReconsideration(p, progress, t, reconsiderers, r);
        case AdvanceExtraWave =>
          outcome := PassAdvance(p, progress, ExtraWave, Filtering, r);
        case ExtraWave =>
          outcome := PassWave(p, progress, t, Filtering, r);
        case Filtering =>
          outcome := PassFinal(p, progress, t, Exporting, r);
        case Exporting =>
          outcome := PassFinal(p, progress, t, Completed, r);
        case Completed =>
          outcome := Done;
        case Unset =>
          progress.phase := Completed;
          outcome := Done;
      }
    }
  }

  method Start(p: PipelineContext, progress: RunProgress, ghost r0: Run)
    requires Matches(p, progress, r0)
    modifies p, progress
    ensures Matches(p, progress, Begin(r0))
  {
    if !progress.initialized {
      p.InitializeSeedFrontier(MAX_SEED_EXPANSION_DEPTH);
      progress.initialized := true;
      progress.wave := 0;
      progress.phase := CollectionWave;
    }
  }

  ghost predicate Follows(trace: seq<Run>, turns: nat -> Turn, k: nat, reconsiderers: nat)
    requires k + 1 < |trace|
  {
    trace[k].outcome == Running ==> trace[k + 1] == Pass(trace[k], turns(k), reconsiderers) && trace[k + 1].outcome != Idle
  }

  /** The runs a Resume call goes through, up to one that has stopped. */
  ghost predicate IsTrace(trace: seq<Run>, turns: nat -> Turn, reconsiderers: nat) {
    && |trace| == 15 && trace[14].outcome != Running
    && forall k: nat :: k < 14 ==> Follows(trace, turns, k, reconsiderers)
  }

  lemma Trace(start: Run, turns: nat -> Turn, reconsiderers: nat, first: seq<string>) returns (trace: seq<Run>)
    requires Good(start, reconsiderers, first) && forall k: nat :: SafeOps(turns(k).ops)
    ensures IsTrace(trace, turns, reconsiderers)
    ensures forall k: nat :: k < 15 ==> trace[k] == Passes(start, turns, k, reconsiderers)
  {
    trace := seq(15, k requires 0 <= k < 15 => Passes(start, turns, k, reconsiderers));
    ResumeTerminates(start, turns, reconsiderers, first);
    forall k: nat | k < 14 ensures Follows(trace, turns, k, reconsiderers) {
      NextPass(start, turns, k, reconsiderers, first);
    }
  }

  lemma NextPass(start: Run, turns: nat -> Turn, k: nat, reconsiderers: nat, first: seq<string>)
    requires Good(start, reconsiderers, first) && forall i: nat :: SafeOps(turns(i).ops)
    ensures var (r, s) := (Passes(start, turns, k, reconsiderers), Passes(start, turns, k + 1, reconsiderers));
            r.outcome == Running ==> s == Pass(r, turns(k), reconsiderers) && s.outcome != Idle
  {
    PassesShrink(start, turns, k + 1, reconsiderers, first);
  }

  method PassWave(p: PipelineContext, progress: RunProgress, t: Turn, next: Phase, ghost r: Run)
    returns (outcome: Outcome)
    requires Matches(p, progress, r) && r.outcome == Running
    modifies p, progress
    ensures Matches(p, progress, WavePass(r, t, next)) && outcome == WavePass(r, t, next).outcome
  {
    var failed := RunWave(p, t);
    if failed {
      return Failed;
    }
    progress.phase := next;
    outcome := OutcomeOf(t.checkpoint);
  }

  lemma AdvanceFields(r: Run, ifMoved: Phase, otherwise: Phase)
    ensures var (s, moved) := (AdvancePass(r, ifMoved, otherwise), Advanced(r.f).1);
            && s.f == Advanced(r.f).0 && s.initialized == r.initialized && s.outcome == r.outcome
            && s.wave == (if moved then r.wave + 1 else r.wave) && s.phase == (if moved then ifMoved else otherwise)
  {
  }

  method PassAdvance(p: PipelineContext, progress: RunProgress, ifMoved: Phase, otherwise: Phase, ghost r: Run)
    returns (outcome: Outcome)
    requires Matches(p, progress, r) && r.outcome == Running
    modifies p, progress
    ensures Matches(p, progress, AdvancePass(r, ifMoved, otherwise)) && outcome == Running
  {
    AdvanceFields(r, ifMoved, otherwise);
    var moved := p.AdvanceSeedFrontier();
    if moved {
      progress.wave := progress.wave + 1;
      progress.phase := ifMoved;
      return Running;
    }
    progress.phase := otherwise;
    return Running;
  }

  method PassReconsideration(p: PipelineContext, progress: RunProgress, t: Turn, reconsiderers: nat, ghost r: Run)
    returns (outcome: Outcome)
    requires Matches(p, progress, r) && r.outcome == Running
    modifies p, progress
    ensures Matches(p, progress, ReconsiderPass(r, t, reconsiderers))
    ensures outcome == ReconsiderPass(r, t, reconsiderers).outcome
  {
    if reconsiderers > 0 {
      var _ := p.ReserveExtraCollectionWave();
      RunNodes(p, t.ops);
      if t.failed {
        return Failed;
      }
    }
    progress.phase := AdvanceExtraWave;
    outcome := OutcomeOf(t.checkpoint);
  }

  method PassFinal(p: PipelineContext, progress: RunProgress, t: Turn, next: Phase, ghost r: Run)
    returns (outcome: Outcome)
    requires Matches(p, progress, r) && r.outcome == Running
    modifies p, progress
    ensures Matches(p, progress, FinalPass(r, t, next)) && outcome == FinalPass(r, t, next).outcome
  {
    RunNodes(p, t.ops);
    if t.failed {
      return Failed;
    }
    progress.phase := next;
    outcome := Running;
  }

  /** A wave on a non-empty frontier; only enrichers and expanders can fail it. */
  method RunWave(p: PipelineContext, t: Turn) returns (failed: bool)
    modifies p
    ensures failed == (old(p.State()).active != [] && t.failed)
    ensures p.State() == if old(p.State()).active != [] then ApplyAll(old(p.State()), t.ops).0 else old(p.State())
  {
    var frontier := p.CollectionSeeds();
    if |frontier| > 0 {
      RunNodes(p, t.ops);
      return t.failed;
    }
    return false;
  }
}
