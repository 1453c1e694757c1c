/** The phase machine of Engine.Resume on values: nodes, the checkpoint
    callback and a user's decisions are arbitrary inputs
    (internal/dag/engine.go). */
module Waves {
  import opened Text
  import opened Seeds
  import opened Frontiers
  import opened Folds

  const MAX_SEED_EXPANSION_DEPTH := 3

  /** One frontier operation of a node; concurrent collectors take the lock
      once per operation, so a stage is some sequence of these. */
  datatype Op = Enqueue(seed: Seed) | Promote(seed: Seed, evidence: Evidence, reply: Reply)

  datatype Phase = Unset | CollectionWave | AdvanceFrontier | Reconsideration | AdvanceExtraWave | ExtraWave
                 | Filtering | Exporting | Completed

  datatype CheckpointReply = Proceed | Pause | CallbackFails

  /** Everything the engine cannot decide about one pass of its loop: what the
      nodes of the phase do, whether one returns an error, and what the
      checkpoint callback answers. */
  datatype Turn = Turn(ops: seq<Op>, failed: bool, checkpoint: CheckpointReply)

  datatype Outcome = Idle | Running | Paused | Failed | Done

  /** What history remembers of a wave: the keys placed in its frontier and
      the keys reported as scheduled while it was current. */
  datatype Wave = Wave(frontier: seq<string>, scheduled: seq<string>)

  datatype Run = Run(
    f: Frontier,
    initialized: bool,
    wave: int,
    phase: Phase,
    outcome: Outcome,
    history: seq<Wave>,
    sealed: bool)

  // ----- operations -----

  function Apply(f: Frontier, op: Op): (Frontier, bool) {
    match op
    case Enqueue(seed) => Enqueued(f, seed)
    case Promote(seed, e, reply) => var (g, result) := Promoted(f, seed, e, reply); (g, result.scheduled)
  }

  function OpKey(op: Op): string {
    SeedKey(NormalizeSeed(op.seed))
  }

  /** The frontier after the operations, and the keys they scheduled. */
  function ApplyAll(f: Frontier, ops: seq<Op>): (Frontier, seq<string>) {
    if ops == [] then (f, [])
    else
      var (g, log) := ApplyAll(f, ops[..|ops| - 1]);
      var (h, scheduled) := Apply(g, ops[|ops| - 1]);
      (h, log + if scheduled then [OpKey(ops[|ops| - 1])] else [])
  }

  function Record(history: seq<Wave>, log: seq<string>): (h: seq<Wave>)
    ensures |h| == |history|
  {
    if history == [] then [] else
      var last := history[|history| - 1];
      history[|history| - 1 := last.(scheduled := last.scheduled + log)]
  }

  function Work(r: Run, ops: seq<Op>): Run {
    var (g, log) := ApplyAll(r.f, ops);
    r.(f := g, history := Record(r.history, log))
  }

  // ----- one pass of the loop -----

  function OutcomeOf(reply: CheckpointReply): Outcome {
    match reply
    case Proceed => Running
    case Pause => Paused
    case CallbackFails => Failed
  }

  function AtCheckpoint(r: Run, reply: CheckpointReply): Run {
    r.(outcome := OutcomeOf(reply))
  }

  /** A wave phase: the nodes run only on a non-empty frontier, and an error
      leaves the phase where it is. */
  function WavePass(r: Run, t: Turn, next: Phase): Run {
    if r.f.active != [] && t.failed then Work(r, t.ops).(outcome := Failed)
    else AtCheckpoint((if r.f.active != [] then Work(r, t.ops) else r).(phase := next), t.checkpoint)
  }

  function AdvancePass(r: Run, ifMoved: Phase, otherwise: Phase): Run {
    var (g, moved) := Advanced(r.f);
    if moved
    then r.(f := g, wave := r.wave + 1, phase := ifMoved, history := r.history + [Wave(Keys(g.active), [])])
    else r.(f := g, phase := otherwise)
  }

  function ReconsiderPass(r: Run, t: Turn, reconsiderers: nat): Run {
    if reconsiderers == 0 then AtCheckpoint(r.(phase := AdvanceExtraWave), t.checkpoint)
    else
      var worked := Work(r.(f := Reserved(r.f).0), t.ops);
      if t.failed then worked.(outcome := Failed)
      else AtCheckpoint(worked.(phase := AdvanceExtraWave), t.checkpoint)
  }

  /** Filters and exporters may touch the frontier too; sealed marks that
      filtering has started. */
  function FinalPass(r: Run, t: Turn, next: Phase): Run {
    var worked := Work(r, t.ops).(sealed := true);
    if t.failed then worked.(outcome := Failed) else worked.(phase := next)
  }

  function Pass(r: Run, t: Turn, reconsiderers: nat): Run {
    match r.phase
    case CollectionWave => WavePass(r, t, AdvanceFrontier)
    case AdvanceFrontier => AdvancePass(r, CollectionWave, Reconsideration)
    case Reconsideration => ReconsiderPass(r, t, reconsiderers)
    case AdvanceExtraWave => AdvancePass(r, ExtraWave, Filtering)
    case ExtraWave => WavePass(r, t, Filtering)
    case Filtering => FinalPass(r, t, Exporting)
    case Exporting => FinalPass(r, t, Completed)
    case Completed => r.(outcome := Done)
    case Unset => r.(phase := Completed, outcome := Done)
  }

  /** The start of a Resume call. */
  function Begin(r: Run): Run {
    if r.initialized then r.(outcome := Running)
    else
      var f := Initialized(r.f.seeds, MAX_SEED_EXPANSION_DEPTH);
      Run(f, true, 0, CollectionWave, Running, [Wave(Keys(f.active), [])], false)
  }

  // ----- whole runs -----

  /** Reload is the checkpoint round trip of loadSnapshot; Accept is a
      user's accepted pivot, which restores and enqueues. */
  datatype Action = Resume | Take(turn: Turn) | Reload | Accept(seed: Seed)

  function Next(r: Run, a: Action, reconsiderers: nat): Run {
    match a
    case Resume => if r.outcome == Running then r else Begin(r)
    case Take(t) => if r.outcome == Running then Pass(r, t, reconsiderers) else r
    case Reload => if r.outcome == Running then r else r.(f := Restored(r.f.seeds, Snapshot(r.f)))
    case Accept(seed) =>
      if r.outcome == Running || !r.initialized then r
      else Work(r.(f := Restored(r.f.seeds, Snapshot(r.f))), [Enqueue(seed)])
  }

  function Created(submitted: seq<Seed>): Run {
    Run(Frontier(submitted, [], [], {}, map[], 0, 0, false, false), false, 0, Unset, Idle, [], false)
  }

  function RunAll(submitted: seq<Seed>, actions: seq<Action>, reconsiderers: nat): Run {
    Fold((r: Run, a: Action) => Next(r, a, reconsiderers), Created(submitted), actions)
  }

  ghost predicate SafeOps(ops: seq<Op>) {
    forall i :: 0 <= i < |ops| ==> CommaFree(ops[i].seed.domains)
  }

  ghost predicate SafeAction(a: Action) {
    match a
    case Take(t) => SafeOps(t.ops)
    case Accept(seed) => CommaFree(seed.domains)
    case _ => true
  }

  ghost predicate SafeActions(actions: seq<Action>) {
    forall i :: 0 <= i < |actions| ==> SafeAction(actions[i])
  }

  // ----- the history invariant -----

  function Flat(history: seq<Wave>): seq<string> {
    if history == [] then [] else Flat(history[..|history| - 1]) + history[|history| - 1].frontier
  }

  /** Each wave's frontier is, in order, what the wave before scheduled. */
  ghost predicate Chain(h: seq<Wave>) {
    forall w :: 0 <= w < |h| - 1 ==> h[w + 1].frontier == h[w].scheduled
  }

  ghost predicate Logged(f: Frontier, h: seq<Wave>) {
    && h != [] && Chain(h)
    && h[|h| - 1].scheduled == Keys(f.pending)
    && Distinct(Flat(h) + Keys(f.pending))
    && forall k :: k in Flat(h) + Keys(f.pending) ==> k in f.known
  }

  ghost predicate PhaseInv(r: Run, reconsiderers: nat) {
    match r.phase
    case Unset => false
    case CollectionWave => !r.f.reserved && !r.f.inProgress
    case AdvanceFrontier => !r.f.reserved && !r.f.inProgress
    case Reconsideration =>
      !r.f.inProgress && (r.f.reserved || (r.f.pending == [] && r.outcome == Running))
    case AdvanceExtraWave => !r.f.inProgress && (r.f.reserved <==> reconsiderers > 0)
    case ExtraWave => reconsiderers > 0 ==> r.f.inProgress
    case _ =>
      reconsiderers > 0 && !r.sealed ==> r.f.inProgress || (r.f.pending == [] && r.outcome == Running)
  }

  ghost predicate Good(r: Run, reconsiderers: nat, first: seq<string>) {
    && r.initialized
    && Inv(r.f) && r.f.maxDepth == MAX_SEED_EXPANSION_DEPTH
    && Logged(r.f, r.history)
    && r.history[0].frontier == first
    && |r.history| == r.wave + 1
    && r.wave == r.f.depth + (if r.f.inProgress then 1 else 0)
    && PhaseInv(r, reconsiderers)
    && (reconsiderers == 0 ==> !r.f.reserved && !r.f.inProgress)
    && (r.phase == CollectionWave || r.phase == ExtraWave ==> Keys(r.f.active) == r.history[r.wave].frontier)
    && (r.phase == Exporting || r.phase == Completed ==> r.sealed)
    && (r.sealed ==> r.phase == Filtering || r.phase == Exporting || r.phase == Completed)
    && r.outcome != Idle
  }

  // ----- operations keep it -----

  lemma ApplyEffect(f: Frontier, op: Op)
    requires Inv(f) && CommaFree(op.seed.domains)
    ensures var (g, scheduled) := Apply(f, op);
            Inv(g) && KeyEffect(f, g, OpKey(op), scheduled)
  {
    match op
    case Enqueue(seed) => EnqueuedInv(f, seed);
    case Promote(seed, e, reply) => PromotedInv(f, seed, e, reply);
  }

  /** What a stage leaves alone, and how its log meets the pending seeds. */
  ghost predicate StageEffect(f: Frontier, g: Frontier, log: seq<string>) {
    && Inv(g)
    && g.depth == f.depth && g.maxDepth == f.maxDepth && g.reserved == f.reserved && g.inProgress == f.inProgress
    && Keys(g.active) == Keys(f.active)
    && Keys(g.pending) == Keys(f.pending) + log
    && f.known <= g.known
    && Distinct(log)
    && (forall k :: k in log ==> k !in f.known && k in g.known)
    && (SchedulingMode(f) != NextWave ==> log == [])
  }

  lemma StageEffectNext(f: Frontier, g: Frontier, log: seq<string>, h: Frontier, key: string, scheduled: bool)
    requires StageEffect(f, g, log) && Inv(h) && KeyEffect(g, h, key, scheduled)
    ensures StageEffect(f, h, log + if scheduled then [key] else [])
  {
    var more := if scheduled then [key] else [];
    assert Keys(f.pending) + log + more == Keys(f.pending) + (log + more);
    assert key in log ==> key in g.known;
    forall i | 0 <= i < |log| ensures log[i] in log {}
  }

  lemma {:induction false} ApplyAllEffect(f: Frontier, ops: seq<Op>)
    requires Inv(f) && SafeOps(ops)
    ensures var (g, log) := ApplyAll(f, ops); StageEffect(f, g, log)
  {
    if ops != [] {
      var front, op := ops[..|ops| - 1], ops[|ops| - 1];
      ApplyAllEffect(f, front);
      var (g, log) := ApplyAll(f, front);
      ApplyEffect(g, op);
      StageEffectNext(f, g, log, Apply(g, op).0, OpKey(op), Apply(g, op).1);
    } else {
      assert Keys(f.pending) + [] == Keys(f.pending);
    }
  }

  lemma {:induction false} ApplyAllAppend(f: Frontier, xs: seq<Op>, ys: seq<Op>)
    ensures ApplyAll(f, xs + ys).0 == ApplyAll(ApplyAll(f, xs).0, ys).0
  {
    if ys == [] {
      assert xs + ys == xs;
    } else {
      ApplyAllAppend(f, xs, ys[..|ys| - 1]);
      assert (xs + ys)[..|xs + ys| - 1] == xs + ys[..|ys| - 1] && (xs + ys)[|xs + ys| - 1] == ys[|ys| - 1];
    }
  }

  lemma RecordFlat(h: seq<Wave>, log: seq<string>)
    requires h != []
    ensures Flat(Record(h, log)) == Flat(h)
    ensures Chain(h) ==> Chain(Record(h, log))
    ensures Record(h, log)[0].frontier == h[0].frontier
    ensures Record(h, log)[|h| - 1].frontier == h[|h| - 1].frontier
  {
    assert Record(h, log)[..|h| - 1] == h[..|h| - 1];
  }

  lemma LoggedGrows(f: Frontier, h: seq<Wave>, g: Frontier, log: seq<string>)
    requires Logged(f, h) && StageEffect(f, g, log)
    ensures Logged(g, Record(h, log))
  {
    RecordFlat(h, log);
    var before := Flat(h) + Keys(f.pending);
    assert Flat(h) + Keys(g.pending) == before + log;
    forall i, j | 0 <= i < |before| && 0 <= j < |log| ensures before[i] != log[j] {
      assert before[i] in before && log[j] in log;
    }
  }

  lemma WorkIsLogged(r: Run, ops: seq<Op>)
    requires Inv(r.f) && SafeOps(ops) && Logged(r.f, r.history)
    ensures var s := Work(r, ops);
            && StageEffect(r.f, s.f, ApplyAll(r.f, ops).1)
            && Logged(s.f, s.history) && |s.history| == |r.history|
            && s.history[0].frontier == r.history[0].frontier
            && s.history[|s.history| - 1].frontier == r.history[|r.history| - 1].frontier
            && s == r.(f := s.f, history := s.history)
  {
    ApplyAllEffect(r.f, ops);
    LoggedGrows(r.f, r.history, Work(r, ops).f, ApplyAll(r.f, ops).1);
    RecordFlat(r.history, ApplyAll(r.f, ops).1);
  }

  lemma AdvanceIsLogged(f: Frontier, h: seq<Wave>)
    requires Inv(f) && Logged(f, h)
    ensures var (g, moved) := Advanced(f);
            Logged(g, if moved then h + [Wave(Keys(g.active), [])] else h)
  {
    AdvancedInv(f);
    var (g, moved) := Advanced(f);
    if moved {
      var h' := h + [Wave(Keys(g.active), [])];
      assert h'[..|h'| - 1] == h;
      assert Flat(h') + Keys(g.pending) == Flat(h) + Keys(f.pending);
    } else {
      assert Keys(g.pending) == Keys(f.pending);
    }
  }

  // ----- every pass keeps it -----

  lemma WavePassGood(r: Run, t: Turn, reconsiderers: nat, first: seq<string>)
    requires Good(r, reconsiderers, first) && r.outcome == Running && SafeOps(t.ops)
    requires r.phase == CollectionWave || r.phase == ExtraWave
    ensures Good(Pass(r, t, reconsiderers), reconsiderers, first)
  {
    WorkIsLogged(r, t.ops);
  }

  lemma AdvancePassGood(r: Run, t: Turn, reconsiderers: nat, first: seq<string>)
    requires Good(r, reconsiderers, first) && r.outcome == Running
    requires r.phase == AdvanceFrontier || r.phase == AdvanceExtraWave
    ensures Good(Pass(r, t, reconsiderers), reconsiderers, first)
  {
    AdvancedInv(r.f);
    AdvanceIsLogged(r.f, r.history);
  }

  lemma ReconsiderPassGood(r: Run, t: Turn, reconsiderers: nat, first: seq<string>)
    requires Good(r, reconsiderers, first) && r.outcome == Running && SafeOps(t.ops)
    requires r.phase == Reconsideration
    ensures Good(Pass(r, t, reconsiderers), reconsiderers, first)
  {
    ReservedInv(r.f);
    WorkIsLogged(r.(f := Reserved(r.f).0), t.ops);
  }

  lemma FinalPassGood(r: Run, t: Turn, next: Phase, reconsiderers: nat, first: seq<string>)
    requires Good(r, reconsiderers, first) && r.outcome == Running && SafeOps(t.ops)
    requires (r.phase == Filtering && next == Exporting) || (r.phase == Exporting && next == Completed)
    ensures Good(FinalPass(r, t, next), reconsiderers, first)
  {
    WorkIsLogged(r, t.ops);
    var worked := Work(r, t.ops).(sealed := true);
    assert worked.f.maxDepth == r.f.maxDepth && worked.wave == r.wave && worked.phase == r.phase;
    assert Good(worked, reconsiderers, first);
  }

  lemma PassGood(r: Run, t: Turn, reconsiderers: nat, first: seq<string>)
    requires Good(r, reconsiderers, first) && r.outcome == Running && SafeOps(t.ops)
    ensures Good(Pass(r, t, reconsiderers), reconsiderers, first)
  {
    match r.phase
    case CollectionWave => WavePassGood(r, t, reconsiderers, first);
    case ExtraWave => WavePassGood(r, t, reconsiderers, first);
    case AdvanceFrontier => AdvancePassGood(r, t, reconsiderers, first);
    case AdvanceExtraWave => AdvancePassGood(r, t, reconsiderers, first);
    case Reconsideration => ReconsiderPassGood(r, t, reconsiderers, first);
    case Filtering => FinalPassGood(r, t, Exporting, reconsiderers, first);
    case Exporting => FinalPassGood(r, t, Completed, reconsiderers, first);
    case Completed =>
  }

  lemma BeginGood(r: Run, reconsiderers: nat)
    requires !r.initialized && AllCommaFree(r.f.seeds)
    ensures Good(Begin(r), reconsiderers, FirstSeen(NormalizedKeys(r.f.seeds)))
  {
    InitializedInv(r.f.seeds, MAX_SEED_EXPANSION_DEPTH);
    var s := Begin(r);
    assert s.history[..0] == [];
    assert Flat(s.history) == Keys(s.f.active);
    assert Flat(s.history) + Keys(s.f.pending) == Keys(s.f.active) + Keys(s.f.pending);
  }

  lemma ReloadGood(r: Run, reconsiderers: nat, first: seq<string>)
    requires Good(r, reconsiderers, first)
    ensures Good(r.(f := Restored(r.f.seeds, Snapshot(r.f))), reconsiderers, first)
    ensures Restored(r.f.seeds, Snapshot(r.f)) == r.f.(candidates := map[])
  {
    RestoreForgetsCandidates(r.f);
  }

  lemma AcceptGood(r: Run, seed: Seed, reconsiderers: nat, first: seq<string>)
    requires Good(r, reconsiderers, first) && r.outcome != Running && CommaFree(seed.domains)
    ensures Good(Next(r, Accept(seed), reconsiderers), reconsiderers, first)
  {
    ReloadGood(r, reconsiderers, first);
    WorkIsLogged(r.(f := Restored(r.f.seeds, Snapshot(r.f))), [Enqueue(seed)]);
  }

  lemma NextGood(r: Run, a: Action, reconsiderers: nat, first: seq<string>)
    requires Good(r, reconsiderers, first) && SafeAction(a)
    ensures Good(Next(r, a, reconsiderers), reconsiderers, first)
  {
    if r.outcome == Running {
      if a.Take? {
        PassGood(r, a.turn, reconsiderers, first);
      }
    } else {
      match a
      case Accept(seed) => AcceptGood(r, seed, reconsiderers, first);
      case Reload => ReloadGood(r, reconsiderers, first);
      case _ =>
    }
  }

  /** Either the run was never started, and still holds the submitted seeds,
      or it satisfies the invariant. */
  ghost predicate GoodOrNew(r: Run, submitted: seq<Seed>, reconsiderers: nat) {
    if r.initialized then Good(r, reconsiderers, FirstSeen(NormalizedKeys(submitted)))
    else r.f.seeds == submitted && r.outcome == Idle && r.phase == Unset
  }

  lemma GoodOrNewNext(r: Run, a: Action, submitted: seq<Seed>, reconsiderers: nat)
    requires AllCommaFree(submitted) && SafeAction(a) && GoodOrNew(r, submitted, reconsiderers)
    ensures GoodOrNew(Next(r, a, reconsiderers), submitted, reconsiderers)
  {
    if r.initialized {
      NextGood(r, a, reconsiderers, FirstSeen(NormalizedKeys(submitted)));
    } else {
      BeginGood(r, reconsiderers);
    }
  }

  /** So it is over every history of turns, pauses, errors, reloads and
      accepted pivots. */
  lemma EveryRunGood(submitted: seq<Seed>, actions: seq<Action>, reconsiderers: nat)
    requires AllCommaFree(submitted) && SafeActions(actions)
    ensures GoodOrNew(RunAll(submitted, actions, reconsiderers), submitted, reconsiderers)
  {
    var step := (r: Run, a: Action) => Next(r, a, reconsiderers);
    forall i: nat, r | i < |actions| && GoodOrNew(r, submitted, reconsiderers)
      ensures GoodOrNew(step(r, actions[i]), submitted, reconsiderers)
    {
      GoodOrNewNext(r, actions[i], submitted, reconsiderers);
    }
    FoldInvariant(step, Created(submitted), actions, (i, r) => GoodOrNew(r, submitted, reconsiderers));
  }
}
