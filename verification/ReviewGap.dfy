/** The one way past the gate: a checkpoint callback that fails after
    hydration found something to review. */
module ReviewGap {
  import opened Options
  import opened Text
  import opened Seeds
  import opened Folds
  import opened Frontiers
  import opened Waves
  import opened Scheduling
  import opened Review
  import opened ReviewSafety
  import opened ReviewHarm

  function GapEnv(): Env {
    Env((domain: string) => domain, Manual, 1)
  }

  function GapVerdict(): Verdict {
    Verdict("c", false, 0.5, "")
  }

  function GapEvidence(): Evidence {
    Evidence("judge", "ownership", "b", 0.5, true)
  }

  /** Reconsideration promotes "b" and records a weak discard of "c"; then the
      checkpoint fails. */
  function GapTurn(): Event {
    Turns([NodePromote(Plain("b"), GapEvidence()), NodeJudge(GapVerdict())], false, true, false)
  }

  function GapEvents(): seq<Event> {
    [Start, IDLE, IDLE, GapTurn(), Decide("b", false), Start, IDLE, IDLE, IDLE, IDLE]
  }

  function GapFrontier(): Frontier {
    LosingFrontier([Plain("a")], {"a"})
  }

  /** Created, started, one idle wave, no second frontier: reconsideration. */
  lemma GapStart()
    ensures var env := GapEnv();
            var s := Step(env, Step(env, Step(env, CreatedRun([Plain("a")]), Start), IDLE), IDLE);
            && s.tickets == 0
            && s.process == Some(Process(Run(GapFrontier(), true, 0, Reconsideration, Running, [Wave(["a"], [])], false), map[], []))
  {
    var f := GapFrontier().(active := [Plain("a")]);
    var r := Run(f, true, 0, CollectionWave, Running, [Wave(["a"], [])], false);
    PlainBegin();
    assert Hydrated(GapEnv(), map[], []) == map[];
    var s1 := Step(GapEnv(), CreatedRun([Plain("a")]), Start);
    assert s1.process == Some(Process(r, map[], []));
    GapWave(s1);
    GapAdvance(Step(GapEnv(), s1, IDLE));
  }

  lemma GapWave(s: Service)
    requires s.tickets == 0
    requires s.process == Some(Process(Run(GapFrontier().(active := [Plain("a")]), true, 0, CollectionWave, Running,
                                           [Wave(["a"], [])], false), map[], []))
    ensures var t := Step(GapEnv(), s, IDLE);
            t.tickets == 0 && t.process == Some(s.process.value.(run := s.process.value.run.(phase := AdvanceFrontier)))
  {
    IdleWork(s.process.value.run);
    assert Hydrated(GapEnv(), map[], []) == map[];
  }

  lemma GapAdvance(s: Service)
    requires s.tickets == 0
    requires s.process == Some(Process(Run(GapFrontier().(active := [Plain("a")]), true, 0, AdvanceFrontier, Running,
                                           [Wave(["a"], [])], false), map[], []))
    ensures var t := Step(GapEnv(), s, IDLE);
            && t.tickets == 0
            && t.process == Some(Process(Run(GapFrontier(), true, 0, Reconsideration, Running, [Wave(["a"], [])], false), map[], []))
  {
  }

  function GapOp(): Op {
    Promote(Plain("b"), GapEvidence(), Says(PendingReview))
  }

  lemma GapPromotion(f: Frontier)
    requires f == GapFrontier().(reserved := true)
    ensures Consulted(f, Plain("b"), GapEvidence()).Some?
    ensures PromotionRoot(GapEnv().registrable, Consulted(f, Plain("b"), GapEvidence()).value) == "b"
  {
    PlainKey("b");
    var c := Accumulate(None, Plain("b"), NormalizeEvidence(GapEvidence()));
    assert ShouldPromote(c) && CandidateAt(f, "b") == None;
  }

  /** A promotion the handler sends to review schedules nothing. */
  lemma ReviewSchedulesNothing(f: Frontier, raw: Seed, e: Evidence)
    requires Consulted(f, raw, e).Some?
    ensures Promoted(f, raw, e, Says(PendingReview)).0.pending == f.pending
  {
    var seed := NormalizeSeed(raw);
    var c := Accumulate(CandidateAt(f, SeedKey(seed)), seed, NormalizeEvidence(e));
    assert Promoted(f, raw, e, Says(PendingReview)) == Judged(f, SeedKey(seed), c, Says(PendingReview));
  }

  lemma GapOperation(f: Frontier)
    requires f == GapFrontier().(reserved := true)
    ensures ApplyAll(f, [GapOp()]).0.pending == []
  {
    GapPromotion(f);
    ReviewSchedulesNothing(f, Plain("b"), GapEvidence());
    OneOp(f, GapOp());
  }

  /** The first node opens "b" for review... */
  lemma GapPromotes(f: Frontier)
    requires f == GapFrontier().(reserved := true)
    ensures EngineOps(GapEnv(), f, map[], NodePromote(Plain("b"), GapEvidence())) == [GapOp()]
    ensures var pivots := PivotsAfter(GapEnv(), f, map[], NodePromote(Plain("b"), GapEvidence()));
            pivots.Keys == {"b"} && pivots["b"].status == NeedsReview
  {
    GapPromotion(f);
  }

  /** ...and the second only judges: what the reconsideration stage amounts to. */
  lemma GapStage(f: Frontier)
    requires f == GapFrontier().(reserved := true)
    ensures var stage := StageRun(GapEnv(), f, map[], [], GapTurn().nodes);
            stage.ops == [GapOp()] && stage.judged == [GapVerdict()]
            && stage.pivots.Keys == {"b"} && stage.pivots["b"].status == NeedsReview
  {
    var promote, judge := NodePromote(Plain("b"), GapEvidence()), NodeJudge(GapVerdict());
    GapPromotes(f);
    OneNode(GapEnv(), f, map[], [], promote);
    StageSnoc(GapEnv(), f, map[], [], [promote], judge);
    assert [promote] + [judge] == GapTurn().nodes;
  }

  lemma OneNode(env: Env, f: Frontier, pivots: Pivots, judged: seq<Verdict>, op: NodeOp)
    requires !op.NodeJudge?
    ensures StageRun(env, f, pivots, judged, [op]) == Stage(EngineOps(env, f, pivots, op), PivotsAfter(env, f, pivots, op), judged)
  {
    StageSnoc(env, f, pivots, judged, [], op);
    assert [] + [op] == [op] && judged + [] == judged && [] + EngineOps(env, f, pivots, op) == EngineOps(env, f, pivots, op);
  }

  lemma StageSnoc(env: Env, f: Frontier, pivots: Pivots, judged: seq<Verdict>, nodes: seq<NodeOp>, op: NodeOp)
    ensures var s := StageRun(env, f, pivots, judged, nodes);
            var g := ApplyAll(f, s.ops).0;
            StageRun(env, f, pivots, judged, nodes + [op])
            == Stage(s.ops + EngineOps(env, g, s.pivots, op), PivotsAfter(env, g, s.pivots, op),
                     s.judged + if op.NodeJudge? then [op.outcome] else [])
  {
    assert (nodes + [op])[..|nodes|] == nodes;
  }

  /** The failing checkpoint: saved with "b" pending, "c" forgotten. */
  lemma GapFails(s: Service)
    requires s.tickets == 0
    requires s.process
             == Some(Process(Run(GapFrontier(), true, 0, Reconsideration, Running, [Wave(["a"], [])], false), map[], []))
    ensures var t := Step(GapEnv(), s, GapTurn());
            && t.process.None? && t.tickets == 0 && t.saved.judged == [GapVerdict()]
            && t.saved.pivots.Keys == {"b"} && t.saved.pivots["b"].status == NeedsReview
            && t.saved.run.phase == AdvanceExtraWave && t.saved.run.initialized && t.saved.run.outcome == Failed
            && t.saved.run.f.pending == []
  {
    var f := Reserved(GapFrontier()).0;
    GapStage(f);
    GapOperation(f);
    var stage := StageRun(GapEnv(), f, map[], [], GapTurn().nodes);
    FailingCheckpoint(GapEnv(), s, GapTurn(), f, stage);
  }

  lemma FailingReconsideration(r: Run, t: Turn, n: nat)
    requires r.phase == Reconsideration && r.outcome == Running && n > 0 && !t.failed && t.checkpoint == CallbackFails
    ensures Pass(r, t, n) == Work(r.(f := Reserved(r.f).0), t.ops).(phase := AdvanceExtraWave, outcome := Failed)
  {
  }

  lemma FailingCheckpoint(env: Env, s: Service, e: Event, f: Frontier, stage: Stage)
    requires s.process.Some? && e.Turns? && !e.failed && e.checkpointFails && env.reconsiderers > 0
    requires s.process.value.run.phase == Reconsideration && s.process.value.run.outcome == Running
    requires f == Reserved(s.process.value.run.f).0
    requires stage == StageRun(env, f, s.process.value.broker, s.process.value.judged, e.nodes)
    ensures var t := Step(env, s, e);
            && t.process.None? && t.tickets == s.tickets
            && t.saved.pivots == stage.pivots && t.saved.judged == stage.judged
            && t.saved.run.phase == AdvanceExtraWave && t.saved.run.outcome == Failed
            && t.saved.run.initialized == s.process.value.run.initialized
            && t.saved.run.f == ApplyAll(f, stage.ops).0
  {
    var r := s.process.value.run;
    FailingReconsideration(r, Turn(stage.ops, e.failed, CallbackFails), env.reconsiderers);
    assert StageOf(env, s.process.value, e.nodes) == stage;
  }

  /** The process after one idle pass. */
  ghost predicate Working(s: Service, phase: Phase, pivots: Pivots, judged: seq<Verdict>) {
    && s.process.Some? && s.process.value.run.outcome == Running && s.process.value.run.phase == phase
    && s.process.value.broker == pivots && s.process.value.judged == judged
  }

  lemma IdleAdvance(env: Env, s: Service, pivots: Pivots, judged: seq<Verdict>)
    requires Working(s, AdvanceExtraWave, pivots, judged) && s.process.value.run.f.pending == []
    ensures Working(Step(env, s, IDLE), Filtering, pivots, judged)
  {
  }

  lemma IdleFilter(env: Env, s: Service, pivots: Pivots, judged: seq<Verdict>)
    requires Working(s, Filtering, pivots, judged)
    ensures Working(Step(env, s, IDLE), Exporting, pivots, judged)
  {
  }

  lemma IdleExport(env: Env, s: Service, pivots: Pivots, judged: seq<Verdict>)
    requires Working(s, Exporting, pivots, judged)
    ensures Working(Step(env, s, IDLE), Completed, pivots, judged)
  {
  }

  lemma IdleComplete(env: Env, s: Service, pivots: Pivots, judged: seq<Verdict>)
    requires Working(s, Completed, pivots, judged)
    ensures Step(env, s, IDLE).saved.status == RunCompleted
    ensures Step(env, s, IDLE).saved.pivots == Hydrated(env, pivots, judged)
  {
  }

  /** A run resumed behind its last checkpoint with no pending seed goes to
      completion unreviewed, and is saved with whatever hydration then opens. */
  lemma ResumedRunCompletes(env: Env, s: Service)
    requires s.process.None? && s.tickets == 1
    requires s.saved.run.phase == AdvanceExtraWave && s.saved.run.initialized && s.saved.run.outcome == Failed
    requires s.saved.run.f.pending == []
    ensures var t := Step(env, Step(env, Step(env, Step(env, Step(env, s, Start), IDLE), IDLE), IDLE), IDLE);
            t.saved.status == RunCompleted && t.saved.pivots == Hydrated(env, s.saved.pivots, s.saved.judged)
  {
    var s1 := Step(env, s, Start);
    assert Working(s1, AdvanceExtraWave, s.saved.pivots, s.saved.judged);
    IdleAdvance(env, s1, s.saved.pivots, s.saved.judged);
    var s2 := Step(env, s1, IDLE);
    IdleFilter(env, s2, s.saved.pivots, s.saved.judged);
    var s3 := Step(env, s2, IDLE);
    IdleExport(env, s3, s.saved.pivots, s.saved.judged);
    IdleComplete(env, Step(env, s3, IDLE), s.saved.pivots, s.saved.judged);
  }

  /** The user rejects "b", the one pivot there is, and so dispatches the
      run again, behind the checkpoint that failed. */
  lemma GapDecides(s: Service)
    requires s.process.None? && s.tickets == 0 && s.saved.judged == [GapVerdict()]
    requires s.saved.pivots.Keys == {"b"} && s.saved.pivots["b"].status == NeedsReview
    requires s.saved.run.phase == AdvanceExtraWave && s.saved.run.initialized && s.saved.run.outcome == Failed
    requires s.saved.run.f.pending == []
    ensures var t := Step(GapEnv(), s, Decide("b", false));
            && t.process.None? && t.tickets == 1 && t.saved.judged == [GapVerdict()]
            && t.saved.pivots.Keys == {"b"}
            && t.saved.run.phase == AdvanceExtraWave && t.saved.run.initialized && t.saved.run.outcome == Failed
            && t.saved.run.f.pending == []
  {
    var t := Step(GapEnv(), s, Decide("b", false));
    assert !HasPendingReview(t.saved.pivots);
    DecisionPhase(GapEnv(), s.saved.run, Reload);
  }

  /** Hydration at the end then opens "c" after all. */
  lemma GapHydrates(pivots: Pivots)
    requires "c" !in pivots
    ensures HasPendingReview(Hydrated(GapEnv(), pivots, [GapVerdict()]))
  {
    assert [GapVerdict()][..0] == [];
    assert Hydrated(GapEnv(), pivots, [GapVerdict()])["c"].status == NeedsReview;
  }

  lemma GapTrace(env: Env, s: Service)
    ensures var s3 := Step(env, Step(env, Step(env, s, Start), IDLE), IDLE);
            var s5 := Step(env, Step(env, s3, GapTurn()), Decide("b", false));
            RunEvents(env, s, GapEvents())
            == Step(env, Step(env, Step(env, Step(env, Step(env, s5, Start), IDLE), IDLE), IDLE), IDLE)
  {
    var step := (t: Service, e: Event) => Step(env, t, e);
    TenSteps(step, s, GapEvents());
  }

  /** So review safety does need its condition on failing checkpoints: here a
      manual run is saved as completed with "c" still pending review. */
  lemma FailedCheckpointSkipsReview()
    ensures var s := RunEvents(GapEnv(), CreatedRun([Plain("a")]), GapEvents());
            s.saved.status == RunCompleted && HasPendingReview(s.saved.pivots)
  {
    var env, s0 := GapEnv(), CreatedRun([Plain("a")]);
    var s3 := Step(env, Step(env, Step(env, s0, Start), IDLE), IDLE);
    GapStart();
    GapFails(s3);
    var s4 := Step(env, s3, GapTurn());
    GapDecides(s4);
    var s5 := Step(env, s4, Decide("b", false));
    ResumedRunCompletes(env, s5);
    GapHydrates(s5.saved.pivots);
    GapTrace(env, s0);
  }
}
