/** Pausing at checkpoints is invisible to the scheduler. */
module Pausing {
  import opened Options
  import opened Text
  import opened Seeds
  import opened Frontiers
  import opened Waves

  /** Deterministic nodes: what a phase does depends on the phase, the wave
      and the frontier it finds. */
  type Nodes = (Phase, int, Frontier) -> seq<Op>

  predicate ReasonedOp(op: Op) {
    op.Promote? ==> op.evidence.reasoned
  }

  ghost predicate ReasonedOps(ops: seq<Op>) {
    forall i :: 0 <= i < |ops| ==> ReasonedOp(ops[i])
  }

  ghost predicate WellBehaved(nodes: Nodes) {
    forall phase, wave, f :: SafeOps(nodes(phase, wave, f)) && ReasonedOps(nodes(phase, wave, f))
  }

  function TurnOf(nodes: Nodes, r: Run, pause: bool): Turn {
    Turn(nodes(r.phase, r.wave, r.f), false, if pause then Pause else Proceed)
  }

  /** One pass; when the callback pauses, the run is saved, reloaded from its
      checkpoint and resumed. */
  function SplitPass(nodes: Nodes, r: Run, pause: bool, reconsiderers: nat): Run {
    var s := Next(r, Take(TurnOf(nodes, r, pause)), reconsiderers);
    if s.outcome == Paused then Next(Next(s, Reload, reconsiderers), Resume, reconsiderers) else s
  }

  /** k steps, the i-th of which may pause. */
  function Steps(step: (Run, bool) -> Run, r: Run, pauses: nat -> bool, k: nat): Run {
    if k == 0 then r else step(Steps(step, r, pauses, k - 1), pauses(k - 1))
  }

  function Split(nodes: Nodes, r: Run, pauses: nat -> bool, k: nat, reconsiderers: nat): Run {
    Steps((s, pause) => SplitPass(nodes, s, pause, reconsiderers), r, pauses, k)
  }

  function Unsplit(nodes: Nodes, r: Run, k: nat, reconsiderers: nat): Run {
    Split(nodes, r, i => false, k, reconsiderers)
  }

  lemma {:induction false} StepsSame(step: (Run, bool) -> Run, steady: Run -> bool, r: Run,
                                     pauses: nat -> bool, never: nat -> bool, k: nat)
    requires steady(r) && forall i :: !never(i)
    requires forall s, pause :: steady(s) ==> step(s, pause) == step(s, false) && steady(step(s, false))
    ensures Steps(step, r, pauses, k) == Steps(step, r, never, k)
    ensures steady(Steps(step, r, never, k))
  {
    if k > 0 {
      StepsSame(step, steady, r, pauses, never, k - 1);
    }
  }

  lemma JudgedLeavesNone(f: Frontier, key: string, c: Candidate, reply: Reply)
    requires f.candidates == map[] && ShouldPromote(c)
    ensures Judged(f, key, c, reply).0.candidates == map[]
  {
    assert f.candidates[key := c] - {key} == map[];
  }

  /** A reasoned promotion is decided on the spot: it leaves no candidate. */
  lemma ReasonedLeavesNone(f: Frontier, op: Op)
    requires f.candidates == map[] && ReasonedOp(op)
    ensures Apply(f, op).0.candidates == map[]
  {
    match op
    case Enqueue(seed) =>
    case Promote(raw, rawEvidence, reply) =>
      PromotedLeavesNone(f, raw, rawEvidence, reply);
  }

  lemma PromotedLeavesNone(f: Frontier, raw: Seed, rawEvidence: Evidence, reply: Reply)
    requires f.candidates == map[] && rawEvidence.reasoned
    ensures Promoted(f, raw, rawEvidence, reply).0.candidates == map[]
  {
    var seed, e := NormalizeSeed(raw), NormalizeEvidence(rawEvidence);
    var c := Accumulate(None, seed, e);
    assert c.reasoned;
    JudgedLeavesNone(f, SeedKey(seed), c, reply);
    if SchedulingMode(f) != Reject && SeedKey(seed) !in f.known {
      assert Promoted(f, raw, rawEvidence, reply) == Judged(f, SeedKey(seed), c, reply);
    }
  }

  lemma {:induction false} StageLeavesNone(f: Frontier, ops: seq<Op>)
    requires f.candidates == map[] && ReasonedOps(ops)
    ensures ApplyAll(f, ops).0.candidates == map[]
  {
    if ops != [] {
      StageLeavesNone(f, ops[..|ops| - 1]);
      ReasonedLeavesNone(ApplyAll(f, ops[..|ops| - 1]).0, ops[|ops| - 1]);
    }
  }

  lemma WorkLeavesNone(r: Run, ops: seq<Op>)
    requires r.f.candidates == map[] && ReasonedOps(ops)
    ensures Work(r, ops).f.candidates == map[]
  {
    StageLeavesNone(r.f, ops);
  }

  lemma PassLeavesNone(r: Run, t: Turn, reconsiderers: nat)
    requires r.f.candidates == map[] && ReasonedOps(t.ops)
    ensures Pass(r, t, reconsiderers).f.candidates == map[]
  {
    match r.phase
    case AdvanceFrontier =>
    case AdvanceExtraWave =>
    case Completed =>
    case Unset =>
    case Reconsideration => WorkLeavesNone(r.(f := Reserved(r.f).0), t.ops);
    case _ => WorkLeavesNone(r, t.ops);
  }

  ghost predicate Steady(r: Run, reconsiderers: nat, first: seq<string>) {
    Good(r, reconsiderers, first) && r.f.candidates == map[] && r.outcome != Paused
  }

  lemma PauseOnlyStops(r: Run, ops: seq<Op>, reconsiderers: nat)
    ensures var paused := Pass(r, Turn(ops, false, Pause), reconsiderers);
            var straight := Pass(r, Turn(ops, false, Proceed), reconsiderers);
            paused == straight || (paused == straight.(outcome := Paused) && straight.outcome == Running)
  {
  }

  lemma SplitPassSame(nodes: Nodes, r: Run, pause: bool, reconsiderers: nat, first: seq<string>)
    requires WellBehaved(nodes) && Steady(r, reconsiderers, first)
    ensures SplitPass(nodes, r, pause, reconsiderers) == SplitPass(nodes, r, false, reconsiderers)
    ensures Steady(SplitPass(nodes, r, false, reconsiderers), reconsiderers, first)
  {
    if r.outcome == Running {
      var ops := nodes(r.phase, r.wave, r.f);
      assert SafeOps(ops) && ReasonedOps(ops);
      PauseOnlyStops(r, ops, reconsiderers);
      var s := Pass(r, Turn(ops, false, Pause), reconsiderers);
      PassGood(r, Turn(ops, false, Pause), reconsiderers, first);
      PassGood(r, Turn(ops, false, Proceed), reconsiderers, first);
      PassLeavesNone(r, Turn(ops, false, Pause), reconsiderers);
      PassLeavesNone(r, Turn(ops, false, Proceed), reconsiderers);
      NeverPauses(r, ops, reconsiderers);
      ReloadGood(s, reconsiderers, first);
    }
  }

  lemma NeverPauses(r: Run, ops: seq<Op>, reconsiderers: nat)
    requires r.outcome == Running
    ensures Pass(r, Turn(ops, false, Proceed), reconsiderers).outcome != Paused
  {
  }

  /** A run of deterministic nodes split at any of its checkpoints passes
      through the same states as the run that never pauses. */
  lemma PausingIsInvisible(submitted: seq<Seed>, nodes: Nodes, pauses: nat -> bool, k: nat, reconsiderers: nat)
    requires AllCommaFree(submitted) && WellBehaved(nodes)
    ensures var start := Begin(Created(submitted));
            Split(nodes, start, pauses, k, reconsiderers) == Unsplit(nodes, start, k, reconsiderers)
  {
    BeginGood(Created(submitted), reconsiderers);
    var first := FirstSeen(NormalizedKeys(submitted));
    var step := (s, pause) => SplitPass(nodes, s, pause, reconsiderers);
    ghost var steady := (s: Run) => Steady(s, reconsiderers, first);
    forall s, pause | steady(s) ensures step(s, pause) == step(s, false) && steady(step(s, false)) {
      SplitPassSame(nodes, s, pause, reconsiderers, first);
    }
    StepsSame(step, steady, Begin(Created(submitted)), pauses, i => false, k);
  }

  /** A promotion that stays below the gate is what a pause forgets: then
      the reload does change the frontier. */
  lemma WeakEvidenceIsForgotten(f: Frontier, raw: Seed, weak: Evidence)
    requires Inv(f) && CommaFree(raw.domains) && SchedulingMode(f) == NextWave
    requires SeedKey(NormalizeSeed(raw)) !in f.known
    requires !ShouldPromote(Accumulate(CandidateAt(f, SeedKey(NormalizeSeed(raw))), NormalizeSeed(raw), NormalizeEvidence(weak)))
    ensures var g := Promoted(f, raw, weak, NoHandler).0;
            Inv(g) && Restored(g.seeds, Snapshot(g)) != g
  {
    PromotedInv(f, raw, weak, NoHandler);
    var g := Promoted(f, raw, weak, NoHandler).0;
    RestoreForgetsCandidates(g);
    assert SeedKey(NormalizeSeed(raw)) in g.candidates;
  }
}
