/** The run service at work: a stored snapshot, and a processor that loads it
    into a live context with a live broker as its promotion handler. What it
    does is proved to be what Review says of values
    (internal/runservice/service_process_run.go, internal/runservice/service_pivots.go). */
module ReviewServices {
  import opened Options
  import opened Text
  import opened Seeds
  import opened Frontiers
  import opened Contexts
  import opened Waves
  import opened Engines
  import opened Review
  import ReviewSafety

  /** What a checkpoint keeps of a run: less than the run itself, whose known
      keys, candidates and history are not stored. */
  datatype Stored = Stored(
    seeds: seq<Seed>,
    scheduler: SchedulerState,
    initialized: bool,
    wave: int,
    phase: Phase,
    pivots: Pivots,
    judged: seq<Verdict>,
    status: RunStatus)

  ghost predicate Stores(d: Stored, s: Snap) {
    && d.seeds == s.run.f.seeds && d.scheduler == Snapshot(s.run.f)
    && d.initialized == s.run.initialized && d.wave == s.run.wave && d.phase == s.run.phase
    && d.pivots == s.pivots && d.judged == s.judged && d.status == s.status
  }

  lemma ApplyNone(f: Frontier)
    ensures ApplyAll(f, []).0 == f
  {
  }

  lemma ApplyOne(f: Frontier, op: Op)
    ensures ApplyAll(f, [op]).0 == Apply(f, op).0
  {
    assert [op][..0] == [];
  }

  /** The run a stored record restores to, and where it resumes. */
  lemma Reloaded(d: Stored, saved: Snap, n: nat) returns (run: Run)
    requires Stores(d, saved) && saved.run.outcome != Running
    ensures run == Next(saved.run, Reload, n) && Begin(run) == Next(run, Resume, n)
    ensures run.f == Restored(d.seeds, d.scheduler)
    ensures run.initialized == d.initialized && run.wave == d.wave && run.phase == d.phase
    ensures Begin(run).initialized && Begin(run).outcome == Running
  {
    run := Next(saved.run, Reload, n);
  }

  /** Restoring the scheduler state and the progress, and starting Resume. */
  method Restore(context: PipelineContext, progress: RunProgress, stored: Stored, ghost reloaded: Run)
    requires context.seeds == stored.seeds && reloaded.f == Restored(stored.seeds, stored.scheduler)
    requires reloaded.initialized == stored.initialized && reloaded.wave == stored.wave && reloaded.phase == stored.phase
    modifies context, progress
    ensures Matches(context, progress, Begin(reloaded))
  {
    context.RestoreSchedulerState(stored.scheduler);
    progress.initialized, progress.wave, progress.phase := stored.initialized, stored.wave, stored.phase;
    Engines.Start(context, progress, reloaded);
  }

  /** runProcessor: the objects of one process. */
  class RunProcessor {
    const env: Env
    const context: PipelineContext
    const progress: RunProgress
    const broker: PivotBroker
    var judged: seq<Verdict>
    ghost var run: Run

    ghost predicate Valid()
      reads this, context, progress, broker
    {
      Matches(context, progress, run) && broker.env == env && run.outcome == Running && run.initialized
    }

    ghost function Value(): Process
      reads this, broker
    {
      Process(run, broker.pivots, judged)
    }

    ghost function Footprint(): set<object> {
      {this, context, progress, broker}
    }

    /** loadSnapshot: from the stored record alone, the context, the progress
        and the broker of the run Review restores and resumes. */
    constructor Load(env: Env, stored: Stored, ghost saved: Snap)
      requires Stores(stored, saved) && saved.run.outcome != Running
      ensures Valid() && fresh(Footprint()) && this.env == env
      ensures Value() == Process(Next(Next(saved.run, Reload, env.reconsiderers), Resume, env.reconsiderers),
                                 saved.pivots, saved.judged)
    {
      this.env := env;
      context := new PipelineContext(stored.seeds);
      progress := new RunProgress();
      broker := new PivotBroker(env, stored.pivots);
      judged := stored.judged;
      new;
      ghost var reloaded := Reloaded(stored, saved, env.reconsiderers);
      Restore(context, progress, stored, reloaded);
      run := Begin(reloaded);
    }

    /** One operation of a node; a promotion that passes the gate asks the
        broker, between its two halves. */
    method RunNode(op: NodeOp)
      modifies `judged, context, broker
      requires broker.env == env
      ensures context.State() == ApplyAll(old(context.State()), EngineOps(env, old(context.State()), old(broker.pivots), op)).0
      ensures broker.pivots == PivotsAfter(env, old(context.State()), old(broker.pivots), op)
      ensures judged == old(judged) + if op.NodeJudge? then [op.outcome] else []
    {
      ghost var f, pivots := context.State(), broker.pivots;
      match op {
        case NodeEnqueue(seed) =>
          ApplyOne(f, Enqueue(seed));
          var _ := context.EnqueueSeed(seed);
        case NodePromote(seed, evidence) =>
          PromoteCandidate(seed, evidence);
          ApplyOne(f, Promote(seed, evidence, Answer(env, f, pivots, seed, evidence)));
        case NodeJudge(outcome) =>
          judged := judged + [outcome];
          ApplyNone(f);
      }
    }

    method PromoteCandidate(seed: Seed, evidence: Evidence)
      modifies context, broker
      requires broker.env == env
      ensures context.State() == Promoted(old(context.State()), seed, evidence,
                                          Answer(env, old(context.State()), old(broker.pivots), seed, evidence)).0
      ensures broker.pivots == PivotsAfter(env, old(context.State()), old(broker.pivots), NodePromote(seed, evidence))
    {
      ghost var f, pivots := context.State(), broker.pivots;
      ConsideredThenConcluded(f, seed, evidence, Answer(env, f, pivots, seed, evidence));
      var request := context.ConsiderCandidate(seed, evidence);
      if request.Some? {
        var decision := broker.HandleCandidatePromotion(request.value);
        var _ := context.ConcludePromotion(request.value.key, Says(decision));
      }
    }

    /** The operations of a stage reach the live context and broker one by
        one, and leave them as StageRun says. */
    method RunStage(nodes: seq<NodeOp>)
      modifies `judged, context, broker
      requires broker.env == env
      ensures var stage := StageRun(env, old(context.State()), old(broker.pivots), old(judged), nodes);
              && context.State() == ApplyAll(old(context.State()), stage.ops).0
              && broker.pivots == stage.pivots && judged == stage.judged
    {
      ghost var f, pivots, verdicts := context.State(), broker.pivots, judged;
      for i := 0 to |nodes|
        invariant Staged(f, StageRun(env, f, pivots, verdicts, nodes[..i]))
      {
        StageRunNext(env, f, pivots, verdicts, nodes, i);
        RunNode(nodes[i]);
      }
      assert nodes[..|nodes|] == nodes;
    }

    ghost predicate Staged(f: Frontier, stage: Stage)
      reads this, context, broker
    {
      context.State() == ApplyAll(f, stage.ops).0 && broker.pivots == stage.pivots && judged == stage.judged
    }

    /** afterCheckpoint's answer: hydrate, and pause when anything is pending. */
    method AfterCheckpoint(callbackFails: bool) returns (hydrated: Pivots, answer: CheckpointReply)
      ensures hydrated == Hydrated(env, broker.pivots, judged)
      ensures answer == if callbackFails then CallbackFails else if HasPendingReview(hydrated) then Pause else Proceed
    {
      hydrated := HydratePivotsFromJudges(env, broker.pivots, judged);
      answer := if callbackFails then CallbackFails else if HasPendingReview(hydrated) then Pause else Proceed;
    }

    /** One pass of the engine over the live objects. */
    method TakeTurn(e: Event) returns (outcome: Outcome, hydrated: Pivots)
      requires Valid() && e.Turns?
      modifies Footprint()
      ensures var stage := StageOf(env, old(Value()), e.nodes);
              && run == PassRun(env, old(Value()), e) && outcome == run.outcome
              && Matches(context, progress, run)
              && broker.pivots == stage.pivots && judged == stage.judged
              && hydrated == Hydrated(env, stage.pivots, stage.judged)
    {
      match progress.phase {
        case CollectionWave => outcome, hydrated := TakeWave(e, AdvanceFrontier);
        case ExtraWave => outcome, hydrated := TakeWave(e, Filtering);
        case Reconsideration => outcome, hydrated := TakeReconsideration(e);
        case Filtering => outcome, hydrated := TakeFinal(e, Exporting);
        case Exporting => outcome, hydrated := TakeFinal(e, Completed);
        case _ => outcome, hydrated := TakeQuiet(e);
      }
    }

    /** The nodes of a wave, on a non-empty frontier. */
    method RunWaveStage(nodes: seq<NodeOp>) returns (ran: bool)
      requires Valid() && (run.phase == CollectionWave || run.phase == ExtraWave)
      modifies `judged, context, broker
      ensures ran == (run.f.active != [])
      ensures var stage := StageOf(env, old(Value()), nodes);
              && context.State() == (if ran then ApplyAll(run.f, stage.ops).0 else run.f)
              && broker.pivots == stage.pivots && judged == stage.judged
    {
      var frontier := context.CollectionSeeds();
      ran := |frontier| > 0;
      if ran {
        RunStage(nodes);
      }
    }

    method TakeWave(e: Event, next: Phase) returns (outcome: Outcome, hydrated: Pivots)
      requires Valid() && e.Turns?
      requires (run.phase == CollectionWave && next == AdvanceFrontier) || (run.phase == ExtraWave && next == Filtering)
      modifies Footprint()
      ensures Took(old(Value()), e, outcome, hydrated)
    {
      ghost var p := Value();
      WaveFields(env, p, e, next);
      var ran := RunWaveStage(e.nodes);
      var answer;
      hydrated, answer := AfterCheckpoint(e.checkpointFails);
      run := PassRun(env, p, e);
      if ran && e.failed {
        return Failed, hydrated;
      }
      progress.phase := next;
      outcome := OutcomeOf(answer);
    }

    method TakeReconsideration(e: Event) returns (outcome: Outcome, hydrated: Pivots)
      requires Valid() && e.Turns? && run.phase == Reconsideration
      modifies Footprint()
      ensures Took(old(Value()), e, outcome, hydrated)
    {
      ghost var p := Value();
      if env.reconsiderers > 0 {
        var _ := context.ReserveExtraCollectionWave();
        RunStage(e.nodes);
      }
      ghost var stage := StageOf(env, p, e.nodes);
      assert broker.pivots == stage.pivots && judged == stage.judged;
      WorkFrontier(p.run.(f := Reserved(p.run.f).0), stage.ops);
      var answer;
      hydrated, answer := AfterCheckpoint(e.checkpointFails);
      run := PassRun(env, p, e);
      if env.reconsiderers > 0 && e.failed {
        return Failed, hydrated;
      }
      progress.phase := AdvanceExtraWave;
      outcome := OutcomeOf(answer);
    }

    method TakeFinal(e: Event, next: Phase) returns (outcome: Outcome, hydrated: Pivots)
      requires Valid() && e.Turns?
      requires (run.phase == Filtering && next == Exporting) || (run.phase == Exporting && next == Completed)
      modifies Footprint()
      ensures Took(old(Value()), e, outcome, hydrated)
    {
      ghost var p := Value();
      RunStage(e.nodes);
      ghost var stage := StageOf(env, p, e.nodes);
      assert broker.pivots == stage.pivots && judged == stage.judged;
      WorkFrontier(p.run, stage.ops);
      hydrated := HydratePivotsFromJudges(env, broker.pivots, judged);
      run := PassRun(env, p, e);
      if e.failed {
        return Failed, hydrated;
      }
      progress.phase := next;
      outcome := Running;
    }

    /** The phases without nodes. */
    method TakeQuiet(e: Event) returns (outcome: Outcome, hydrated: Pivots)
      requires Valid() && e.Turns?
      requires run.phase == AdvanceFrontier || run.phase == AdvanceExtraWave || run.phase == Completed || run.phase == Unset
      modifies Footprint()
      ensures Took(old(Value()), e, outcome, hydrated)
    {
      ghost var p := Value();
      if progress.phase == AdvanceFrontier {
        outcome := PassAdvance(context, progress, CollectionWave, Reconsideration, run);
      } else if progress.phase == AdvanceExtraWave {
        outcome := PassAdvance(context, progress, ExtraWave, Filtering, run);
      } else {
        progress.phase := Completed;
        outcome := Done;
      }
      run := PassRun(env, p, e);
      hydrated := HydratePivotsFromJudges(env, broker.pivots, judged);
    }

    ghost predicate Took(p: Process, e: Event, outcome: Outcome, hydrated: Pivots)
      requires e.Turns?
      reads this, context, progress, broker
    {
      var stage := StageOf(env, p, e.nodes);
      && run == PassRun(env, p, e) && outcome == run.outcome
      && Matches(context, progress, run)
      && broker.pivots == stage.pivots && judged == stage.judged
      && hydrated == Hydrated(env, stage.pivots, stage.judged)
    }

    /** What is saved of the process. */
    method Save(pivots: Pivots, status: RunStatus, ghost s: Snap) returns (stored: Stored)
      requires Matches(context, progress, s.run)
      requires s.pivots == pivots && s.judged == judged && s.status == status
      ensures Stores(stored, s)
    {
      var scheduler := context.SnapshotSchedulerState();
      stored := Stored(context.seeds, scheduler, progress.initialized, progress.wave, progress.phase, pivots, judged, status);
    }
  }

  lemma StageRunNext(env: Env, f: Frontier, pivots: Pivots, judged: seq<Verdict>, nodes: seq<NodeOp>, i: int)
    requires 0 <= i < |nodes|
    ensures var s := StageRun(env, f, pivots, judged, nodes[..i]);
            var t := StageRun(env, f, pivots, judged, nodes[..i + 1]);
            var g := ApplyAll(f, s.ops).0;
            && ApplyAll(f, t.ops).0 == ApplyAll(g, EngineOps(env, g, s.pivots, nodes[i])).0
            && t.pivots == PivotsAfter(env, g, s.pivots, nodes[i])
            && t.judged == s.judged + if nodes[i].NodeJudge? then [nodes[i].outcome] else []
  {
    assert nodes[..i + 1][..i] == nodes[..i];
    var s := StageRun(env, f, pivots, judged, nodes[..i]);
    ApplyAllAppend(f, s.ops, EngineOps(env, ApplyAll(f, s.ops).0, s.pivots, nodes[i]));
  }

  lemma WorkFrontier(r: Run, ops: seq<Op>)
    ensures Work(r, ops).f == ApplyAll(r.f, ops).0
    ensures var s := Work(r, ops); s.initialized == r.initialized && s.wave == r.wave && s.phase == r.phase
  {
  }

  lemma WaveFields(env: Env, p: Process, e: Event, next: Phase)
    requires e.Turns? && p.run.outcome == Running
    requires (p.run.phase == CollectionWave && next == AdvanceFrontier) || (p.run.phase == ExtraWave && next == Filtering)
    ensures var (s, stage, ran) := (PassRun(env, p, e), StageOf(env, p, e.nodes), p.run.f.active != []);
            && s.f == (if ran then ApplyAll(p.run.f, stage.ops).0 else p.run.f)
            && s.initialized == p.run.initialized && s.wave == p.run.wave
            && s.phase == (if ran && e.failed then p.run.phase else next)
            && s.outcome == if ran && e.failed then Failed
                            else OutcomeOf(CheckpointAnswer(env, stage, e.checkpointFails))
  {
    WorkFrontier(p.run, StageOf(env, p, e.nodes).ops);
  }

  class RunService {
    const env: Env
    var stored: Stored
    var process: RunProcessor?
    var tickets: nat
    ghost var saved: Snap

    ghost function Live(): set<object>
      reads this
    {
      if process == null then {} else process.Footprint()
    }

    ghost predicate Valid()
      reads this, Live()
    {
      && Stores(stored, saved) && saved.run.outcome != Running && (stored.pivots != map[] ==> stored.initialized)
      && this !in Live()
      && (process != null ==> process.Valid() && process.env == env)
    }

    ghost function State(): Service
      reads this, Live()
    {
      Service(saved, if process == null then None else Some(process.Value()), tickets)
    }

    /** CreateRun: the initial snapshot, and one dispatch. */
    constructor (env: Env, seeds: seq<Seed>)
      ensures Valid() && this.env == env && State() == CreatedRun(seeds)
    {
      this.env := env;
      stored := Stored(seeds, SchedulerState([], [], 0, 0, false, false), false, 0, Unset, map[], [], Queued);
      saved := Snap(Created(seeds), map[], [], Queued);
      process := null;
      tickets := 1;
    }

    /** A dispatched run is loaded from its stored record and resumed. */
    method LoadSnapshot()
      requires Valid()
      modifies this
      ensures Valid() && State() == Started(env, old(State()))
      ensures fresh(Live() - old(Live()))
    {
      if tickets == 0 || process != null {
        return;
      }
      process := new RunProcessor.Load(env, stored, saved);
      tickets := tickets - 1;
    }

    /** One pass of the loaded run, and what is stored of it. */
    method ProcessTurn(e: Event)
      requires Valid() && e.Turns? && process != null
      modifies this, Live()
      ensures Valid() && State() == Passed(env, old(State()), e)
      ensures Live() <= old(Live())
    {
      var p := process;
      var before := p.progress.phase;
      ghost var value := p.Value();
      var outcome, hydrated := p.TakeTurn(e);
      ReviewSafety.PassPhases(value.run, TurnOf(env, value, e), env.reconsiderers);
      if outcome == Failed || (outcome == Done && e.publishFails) {
        PersistFailure();
        return;
      }
      if outcome == Running {
        if IsCheckpointed(before) {
          saved := Snap(Stopped(p.run), hydrated, p.judged, RunRunning);
          stored := p.Save(hydrated, RunRunning, saved);
        }
        return;
      }
      var status := if outcome == Paused then AwaitingReview else RunCompleted;
      saved := Snap(p.run, hydrated, p.judged, status);
      stored := p.Save(hydrated, status, saved);
      process := null;
    }

    /** The failure is stored with the broker's pivots, not the hydrated ones. */
    method PersistFailure()
      requires process != null && process.run.outcome != Running && process.run.outcome != Idle
      requires Matches(process.context, process.progress, process.run)
      modifies this
      ensures process == null && tickets == old(tickets)
      ensures saved == old(Snap(process.run, process.broker.pivots, process.judged, RunFailed)) && Stores(stored, saved)
    {
      saved := Snap(process.run, process.broker.pivots, process.judged, RunFailed);
      stored := process.Save(process.broker.pivots, RunFailed, saved);
      process := null;
    }

    /** The stored scheduler state, in a context of its own, with the accepted
        seed enqueued. */
    method Rescheduled(accepted: Option<Seed>) returns (seeds: seq<Seed>, scheduler: SchedulerState)
      requires Valid() && stored.initialized
      ensures var action := match accepted case Some(seed) => Accept(seed) case None => Reload;
              var run := Next(saved.run, action, env.reconsiderers);
              && seeds == run.f.seeds && scheduler == Snapshot(run.f)
              && run.initialized == saved.run.initialized && run.wave == saved.run.wave && run.phase == saved.run.phase
              && run.outcome == saved.run.outcome
    {
      var context := new PipelineContext(stored.seeds);
      context.RestoreSchedulerState(stored.scheduler);
      if accepted.Some? {
        AcceptedFrontier(saved.run, accepted.value, env.reconsiderers);
        var _ := context.EnqueueSeed(accepted.value);
      }
      seeds := context.seeds;
      scheduler := context.SnapshotSchedulerState();
    }

    /** A user's decision on the stored record; refused unless the pivot is
        pending. */
    method DecidePivot(root: string, accept: bool) returns (decided: bool)
      requires Valid()
      modifies this
      ensures Valid() && State() == Decided(env, old(State()), root, accept)
      ensures process == old(process)
      ensures decided <==> root in old(stored).pivots && old(stored).pivots[root].status == NeedsReview
    {
      if root !in stored.pivots {
        return false;
      }
      var pivot := stored.pivots[root];
      if pivot.status != NeedsReview {
        return false;
      }
      ghost var run := Next(saved.run, if accept then Accept(pivot.seed) else Reload, env.reconsiderers);
      var seeds, scheduler := Rescheduled(if accept then Some(pivot.seed) else None);
      pivot := pivot.(status := if accept then HumanAccepted else HumanRejected);
      var pivots := stored.pivots[root := pivot];
      var status := stored.status;
      if HasPendingReview(pivots) {
        status := AwaitingReview;
      } else {
        if status == AwaitingReview {
          status := Queued;
        }
        tickets := tickets + 1;
      }
      saved := Snap(run, pivots, saved.judged, status);
      stored := stored.(seeds := seeds, scheduler := scheduler, pivots := pivots, status := status);
      return true;
    }
  }

  lemma AcceptedFrontier(r: Run, seed: Seed, n: nat)
    requires r.outcome != Running && r.initialized
    ensures Next(r, Accept(seed), n).f == Enqueued(Restored(r.f.seeds, Snapshot(r.f)), seed).0
    ensures var s := Next(r, Accept(seed), n);
            s.initialized == r.initialized && s.wave == r.wave && s.phase == r.phase && s.outcome == r.outcome
  {
    ApplyOne(Restored(r.f.seeds, Snapshot(r.f)), Enqueue(seed));
  }
}
