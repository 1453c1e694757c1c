/** What the review gate guarantees, over every history of a run. */
module ReviewSafety {
  import opened Options
  import opened Text
  import opened Seeds
  import opened Folds
  import opened Frontiers
  import opened Waves
  import opened Review

  // ----- hydration -----

  ghost predicate Discards(env: Env, judged: seq<Verdict>, root: string) {
    root != "" && exists i :: 0 <= i < |judged| && !judged[i].collect && env.registrable(judged[i].root) == root
  }

  lemma DiscardsAppend(env: Env, judged: seq<Verdict>, o: Verdict)
    ensures forall root :: Discards(env, judged + [o], root)
                           <==> Discards(env, judged, root) || (root != "" && !o.collect && env.registrable(o.root) == root)
  {
    var all := judged + [o];
    forall root
      ensures Discards(env, all, root)
              <==> Discards(env, judged, root) || (root != "" && !o.collect && env.registrable(o.root) == root)
    {
      if Discards(env, judged, root) {
        var i :| 0 <= i < |judged| && !judged[i].collect && env.registrable(judged[i].root) == root;
        assert all[i] == judged[i];
      }
      assert all[|judged|] == o;
    }
  }

  /** Hydration adds a pivot per discarded root and re-decides none. */
  lemma {:induction false} HydratedPivots(env: Env, pivots: Pivots, judged: seq<Verdict>)
    ensures var h := Hydrated(env, pivots, judged);
            && (forall root :: root in h <==> root in pivots || Discards(env, judged, root))
            && (forall root :: root in pivots ==> h[root].status == pivots[root].status)
            && (forall root :: root in h && root !in pivots ==>
                                 h[root].status == AutoRejected || (env.mode == Manual && h[root].status == NeedsReview))
  {
    if judged != [] {
      var front, last := judged[..|judged| - 1], judged[|judged| - 1];
      HydratedPivots(env, pivots, front);
      DiscardsAppend(env, front, last);
      assert judged == front + [last];
    }
  }

  /** Hydrating again would open no pending pivot. */
  ghost predicate OpensNone(env: Env, pivots: Pivots, judged: seq<Verdict>) {
    var h := Hydrated(env, pivots, judged);
    forall root :: root in h && root !in pivots ==> h[root].status != NeedsReview
  }

  ghost predicate Clear(env: Env, pivots: Pivots, judged: seq<Verdict>) {
    !HasPendingReview(Hydrated(env, pivots, judged))
  }

  lemma ClearIff(env: Env, pivots: Pivots, judged: seq<Verdict>)
    ensures Clear(env, pivots, judged) <==> !HasPendingReview(pivots) && OpensNone(env, pivots, judged)
  {
    HydratedPivots(env, pivots, judged);
    var h := Hydrated(env, pivots, judged);
    if HasPendingReview(pivots) {
      var root :| root in pivots && pivots[root].status == NeedsReview;
      assert root in h && h[root].status == NeedsReview;
    }
  }

  lemma HydratedOpensNone(env: Env, pivots: Pivots, judged: seq<Verdict>)
    ensures OpensNone(env, Hydrated(env, pivots, judged), judged)
  {
    HydratedPivots(env, pivots, judged);
    HydratedPivots(env, Hydrated(env, pivots, judged), judged);
  }

  /** The confidence of the first discard of a root. */
  function FirstDiscard(env: Env, judged: seq<Verdict>, root: string): Option<real> {
    if judged == [] then None
    else
      var (before, o) := (FirstDiscard(env, judged[..|judged| - 1], root), judged[|judged| - 1]);
      if before.None? && root != "" && !o.collect && env.registrable(o.root) == root then Some(o.confidence) else before
  }

  /** The pivots hydration opens, and their statuses: the first discard of the
      root decides both. */
  lemma {:induction false} HydratedNew(env: Env, pivots: Pivots, judged: seq<Verdict>, root: string)
    requires root !in pivots
    ensures var (h, first) := (Hydrated(env, pivots, judged), FirstDiscard(env, judged, root));
            && (root in h <==> first.Some?)
            && (root in h ==> h[root].status == AutoRejectedDiscardStatus(env.mode, first.value))
  {
    if judged != [] {
      HydratedNew(env, pivots, judged[..|judged| - 1], root);
    }
  }

  /** So nothing is left to open exactly when no root without a pivot was
      first discarded with a confidence below 0.80 in a manual run. */
  lemma OpensNoneIff(env: Env, pivots: Pivots, judged: seq<Verdict>)
    ensures OpensNone(env, pivots, judged)
            <==> forall root :: root !in pivots && FirstDiscard(env, judged, root).Some? ==>
                                  env.mode == Autonomous || FirstDiscard(env, judged, root).value >= 0.80
  {
    forall root | root !in pivots
      ensures root in Hydrated(env, pivots, judged) && Hydrated(env, pivots, judged)[root].status == NeedsReview
              <==> FirstDiscard(env, judged, root).Some? && env.mode == Manual && FirstDiscard(env, judged, root).value < 0.80
    {
      HydratedNew(env, pivots, judged, root);
    }
  }

  lemma DecisionOpensNone(env: Env, p: Pivots, q: Pivots, judged: seq<Verdict>)
    requires p.Keys == q.Keys && OpensNone(env, p, judged)
    ensures OpensNone(env, q, judged)
  {
    forall root | root in Hydrated(env, q, judged) && root !in q
      ensures Hydrated(env, q, judged)[root].status != NeedsReview
    {
      HydratedNew(env, p, judged, root);
      HydratedNew(env, q, judged, root);
    }
  }

  // ----- one pass changes what -----

  predicate Final(phase: Phase) {
    phase == Filtering || phase == Exporting || phase == Completed
  }

  /** No further wave starts from f. */
  predicate LastWave(f: Frontier) {
    f.pending == [] || f.inProgress
  }

  /** No checkpoint lies between the run and its filters. */
  predicate Unguarded(r: Run) {
    Final(r.phase) || (r.phase == AdvanceExtraWave && LastWave(r.f))
  }

  /** Where one pass can lead, and what that says about its checkpoint. */
  ghost predicate PhaseEffect(r: Run, t: Turn, s: Run) {
    && (s.outcome == Paused ==> IsCheckpointed(r.phase) && t.checkpoint == Pause)
    && (s.outcome == Done ==> s.phase == Completed && (r.phase == Completed || r.phase == Unset))
    && (s.outcome == Running && IsCheckpointed(r.phase) ==> t.checkpoint == Proceed)
    && (s.outcome == Running && !IsCheckpointed(r.phase) && Unguarded(s) ==> Unguarded(r))
    && s.outcome != Idle
    && (r.phase != Unset ==> s.phase != Unset)
    && s.initialized == r.initialized
  }

  lemma WavePhases(r: Run, t: Turn, next: Phase)
    requires r.outcome == Running && IsCheckpointed(r.phase) && next != Unset
    ensures PhaseEffect(r, t, WavePass(r, t, next))
  {
  }

  lemma ReconsiderPhases(r: Run, t: Turn, n: nat)
    requires r.outcome == Running && r.phase == Reconsideration
    ensures PhaseEffect(r, t, ReconsiderPass(r, t, n))
  {
  }

  lemma PassPhases(r: Run, t: Turn, n: nat)
    requires r.outcome == Running
    ensures PhaseEffect(r, t, Pass(r, t, n))
  {
    match r.phase
    case CollectionWave => WavePhases(r, t, AdvanceFrontier);
    case ExtraWave => WavePhases(r, t, Filtering);
    case Reconsideration => ReconsiderPhases(r, t, n);
    case _ =>
  }

  lemma StartPhase(env: Env, run: Run)
    requires run.outcome != Running
    ensures var r := Next(Next(run, Reload, env.reconsiderers), Resume, env.reconsiderers);
            && r.outcome == Running
            && (run.initialized ==> r.phase == run.phase) && (!run.initialized ==> r.phase == CollectionWave)
            && r.initialized
  {
  }

  lemma AcceptKeepsWave(f: Frontier, seed: Seed)
    ensures var g := ApplyAll(f, [Enqueue(seed)]).0;
            g.inProgress == f.inProgress && (g.pending == [] ==> f.pending == [])
  {
    assert [Enqueue(seed)][..0] == [];
    assert ApplyAll(f, [Enqueue(seed)]).0 == Enqueued(f, seed).0;
  }

  lemma DecisionPhase(env: Env, run: Run, a: Action)
    requires run.outcome != Running && (a == Reload || a.Accept?)
    ensures var r := Next(run, a, env.reconsiderers);
            && r.phase == run.phase && r.outcome == run.outcome && r.initialized == run.initialized
            && (Unguarded(r) ==> Unguarded(run))
            && (a == Reload ==> r.f.pending == run.f.pending && r.f.inProgress == run.f.inProgress)
  {
    if a.Accept? {
      AcceptKeepsWave(Restored(run.f.seeds, Snapshot(run.f)), a.seed);
    }
  }

  ghost predicate OnlyEnqueues(nodes: seq<NodeOp>) {
    forall i :: 0 <= i < |nodes| ==> nodes[i].NodeEnqueue?
  }

  lemma {:induction false} QuietStage(env: Env, f: Frontier, pivots: Pivots, judged: seq<Verdict>, nodes: seq<NodeOp>)
    requires OnlyEnqueues(nodes)
    ensures StageRun(env, f, pivots, judged, nodes).pivots == pivots
    ensures StageRun(env, f, pivots, judged, nodes).judged == judged
  {
    if nodes != [] {
      QuietStage(env, f, pivots, judged, nodes[..|nodes| - 1]);
    }
  }

  // ----- dispatches and pending pivots exclude each other -----

  /** At most one dispatch or process exists, and none while the saved
      snapshot has a pivot to review. */
  ghost predicate Dispatchable(s: Service) {
    && s.tickets + (if s.process.Some? then 1 else 0) <= 1
    && (s.tickets > 0 || s.process.Some? ==> !HasPendingReview(s.saved.pivots))
    && s.saved.run.outcome != Running
    && (s.process.Some? ==> s.process.value.run.outcome == Running)
  }

  lemma DispatchableStep(env: Env, s: Service, e: Event)
    requires Dispatchable(s)
    ensures Dispatchable(Step(env, s, e))
  {
    match e
    case Start => StartPhase(env, s.saved.run);
    case Turns(nodes, failed, checkpointFails, publishFails) =>
      if s.process.Some? {
        var p := s.process.value;
        var stage := StageOf(env, p, nodes);
        PassPhases(p.run, Turn(stage.ops, failed, CheckpointAnswer(env, stage, checkpointFails)), env.reconsiderers);
      }
    case Decide(root, accept) =>
      if root in s.saved.pivots && s.saved.pivots[root].status == NeedsReview {
        assert HasPendingReview(s.saved.pivots);
        DecisionPhase(env, s.saved.run, if accept then Accept(s.saved.pivots[root].seed) else Reload);
      }
  }

  // ----- review safety -----

  ghost predicate Reviewed(env: Env, s: Service) {
    && Dispatchable(s)
    && (Unguarded(s.saved.run) ==> s.saved.run.initialized && OpensNone(env, s.saved.pivots, s.saved.judged))
    && (s.process.Some? && Unguarded(s.process.value.run) ==>
          Clear(env, s.process.value.broker, s.process.value.judged))
    && (s.process.Some? ==> s.process.value.run.phase != Unset && s.process.value.run.initialized)
    && (s.saved.status == RunCompleted ==> !HasPendingReview(s.saved.pivots))
    && (s.saved.run.initialized <==> s.saved.run.phase != Unset)
  }

  /** A failed run nobody can bring back: no dispatch, nothing to decide. */
  ghost predicate Abandoned(s: Service) {
    s.process.None? && s.tickets == 0 && !HasPendingReview(s.saved.pivots) && s.saved.status != RunCompleted
  }

  ghost predicate Secure(env: Env, s: Service) {
    Reviewed(env, s) || Abandoned(s)
  }

  /** Whether the nodes of the pass fail, before any callback is asked. */
  predicate NodesFail(env: Env, p: Process, e: Event)
    requires e.Turns?
  {
    e.failed && StageFrontier(env, p.run).Some?
  }

  predicate CallbackBreaks(env: Env, p: Process, e: Event)
    requires e.Turns?
  {
    IsCheckpointed(p.run.phase) && e.checkpointFails && !NodesFail(env, p, e)
  }

  /** The frontier the stage of a pass leaves. */
  function FrontierAfter(env: Env, p: Process, nodes: seq<NodeOp>): Frontier {
    match StageFrontier(env, p.run)
    case Some(f) => ApplyAll(f, StageOf(env, p, nodes).ops).0
    case None => p.run.f
  }

  /** A callback that breaks at the last checkpoint before the filters. */
  predicate BreaksLast(env: Env, p: Process, e: Event)
    requires e.Turns?
  {
    && CallbackBreaks(env, p, e)
    && (p.run.phase == ExtraWave || (p.run.phase == Reconsideration && LastWave(FrontierAfter(env, p, e.nodes))))
  }

  /** A pass that fails behind the last checkpoint, or at it. */
  predicate FailsUnguarded(env: Env, p: Process, e: Event)
    requires e.Turns?
  {
    BreaksLast(env, p, e) || ((p.run.phase == Filtering || p.run.phase == Exporting) && e.failed)
  }

  /** What such a failure may not leave: a pivot to decide, so that the run
      comes back, and another that only hydration will open. */
  ghost predicate Overlooks(env: Env, stage: Stage) {
    HasPendingReview(stage.pivots) && !OpensNone(env, stage.pivots, stage.judged)
  }

  /** Some pivot of the stage waits for review and is new. */
  ghost predicate Opens(env: Env, p: Process, stage: Stage) {
    var h := Hydrated(env, stage.pivots, stage.judged);
    exists root :: root in h && h[root].status == NeedsReview && root !in p.broker
  }

  /** What is asked of one event: a failure behind the last checkpoint
      overlooks nothing, and filters and exporters open nothing. */
  ghost predicate Orderly(env: Env, s: Service, e: Event) {
    e.Turns? && s.process.Some? ==>
      var p := s.process.value;
      var stage := StageOf(env, p, e.nodes);
      && (FailsUnguarded(env, p, e) ==> !Overlooks(env, stage))
      && ((p.run.phase == Filtering || p.run.phase == Exporting) && !e.failed ==> !Opens(env, p, stage))
  }

  lemma StartedReviewed(env: Env, s: Service)
    requires Reviewed(env, s)
    ensures Reviewed(env, Started(env, s))
  {
    if s.tickets > 0 && s.process.None? {
      StartPhase(env, s.saved.run);
      ClearIff(env, s.saved.pivots, s.saved.judged);
    }
  }

  lemma DecidedReviewed(env: Env, s: Service, root: string, accept: bool)
    requires Reviewed(env, s)
    ensures Reviewed(env, Decided(env, s, root, accept))
  {
    DispatchableStep(env, s, Decide(root, accept));
    if Has(s.saved.pivots, root, NeedsReview) {
      assert HasPendingReview(s.saved.pivots);
      var t := Decided(env, s, root, accept);
      DecisionPhase(env, s.saved.run, if accept then Accept(s.saved.pivots[root].seed) else Reload);
      DecidedFields(env, s, root, accept);
      if Unguarded(s.saved.run) {
        DecisionOpensNone(env, s.saved.pivots, t.saved.pivots, s.saved.judged);
      }
    }
  }

  lemma DecidedFields(env: Env, s: Service, root: string, accept: bool)
    requires Has(s.saved.pivots, root, NeedsReview)
    ensures var t := Decided(env, s, root, accept);
            && t.process == s.process && t.saved.judged == s.saved.judged
            && t.saved.pivots.Keys == s.saved.pivots.Keys
            && t.saved.run == Next(s.saved.run, if accept then Accept(s.saved.pivots[root].seed) else Reload, env.reconsiderers)
            && (t.saved.status == s.saved.status || t.saved.status == AwaitingReview || t.saved.status == Queued)
            && (forall r :: r in t.saved.pivots ==>
                  if r == root then Human(t.saved.pivots[r].status) else t.saved.pivots[r] == s.saved.pivots[r])
            && t.tickets == if HasPendingReview(t.saved.pivots) then s.tickets else s.tickets + 1
  {
  }

  /** Which passes fail, and which of those leave the run unguarded. */
  lemma FailureIff(env: Env, p: Process, e: Event)
    requires e.Turns? && p.run.outcome == Running
    ensures PassRun(env, p, e).outcome == Failed <==> NodesFail(env, p, e) || CallbackBreaks(env, p, e)
    ensures PassRun(env, p, e).outcome == Failed ==>
              (Unguarded(PassRun(env, p, e)) <==> FailsUnguarded(env, p, e))
  {
    match p.run.phase
    case CollectionWave => WaveFailure(env, p, e, AdvanceFrontier);
    case ExtraWave => WaveFailure(env, p, e, Filtering);
    case Reconsideration => ReconsiderFailure(env, p, e);
    case _ => QuietFailure(env, p, e);
  }

  lemma QuietFailure(env: Env, p: Process, e: Event)
    requires e.Turns? && p.run.outcome == Running && !IsCheckpointed(p.run.phase)
    ensures PassRun(env, p, e).outcome == Failed <==> NodesFail(env, p, e)
    ensures PassRun(env, p, e).outcome == Failed ==>
              (Unguarded(PassRun(env, p, e)) <==> FailsUnguarded(env, p, e))
  {
  }

  lemma WaveFailure(env: Env, p: Process, e: Event, next: Phase)
    requires e.Turns? && p.run.outcome == Running && (p.run.phase == CollectionWave || p.run.phase == ExtraWave)
    ensures var stage := StageOf(env, p, e.nodes);
            var r := WavePass(p.run, Turn(stage.ops, e.failed, CheckpointAnswer(env, stage, e.checkpointFails)), next);
            && (r.outcome == Failed <==> NodesFail(env, p, e) || CallbackBreaks(env, p, e))
            && r.phase == if NodesFail(env, p, e) then p.run.phase else next
  {
  }

  lemma ReconsiderFailure(env: Env, p: Process, e: Event)
    requires e.Turns? && p.run.outcome == Running && p.run.phase == Reconsideration
    ensures var stage := StageOf(env, p, e.nodes);
            var t := Turn(stage.ops, e.failed, CheckpointAnswer(env, stage, e.checkpointFails));
            var r := ReconsiderPass(p.run, t, env.reconsiderers);
            && (r.outcome == Failed <==> NodesFail(env, p, e) || CallbackBreaks(env, p, e))
            && r.phase == (if NodesFail(env, p, e) then Reconsideration else AdvanceExtraWave)
            && r.f == FrontierAfter(env, p, e.nodes)
  {
  }

  lemma StageIsBroker(env: Env, p: Process, nodes: seq<NodeOp>)
    requires StageFrontier(env, p.run).None?
    ensures StageOf(env, p, nodes).pivots == p.broker && StageOf(env, p, nodes).judged == p.judged
  {
  }

  /** Statuses survive a stage and its hydration, so what they leave to review
      is what they open. */
  lemma ClearUnlessOpens(env: Env, p: Process, nodes: seq<NodeOp>)
    requires Clear(env, p.broker, p.judged)
    ensures var stage := StageOf(env, p, nodes);
            Clear(env, stage.pivots, stage.judged) <==> !Opens(env, p, stage)
  {
    var stage := StageOf(env, p, nodes);
    ClearIff(env, p.broker, p.judged);
    StageOfStatuses(env, p, nodes);
    HydratedPivots(env, stage.pivots, stage.judged);
  }

  lemma PassedReviewed(env: Env, s: Service, e: Event)
    requires Reviewed(env, s) && Orderly(env, s, e) && e.Turns? && s.process.Some?
    ensures Secure(env, Passed(env, s, e))
  {
    var p := s.process.value;
    var stage := StageOf(env, p, e.nodes);
    DispatchableStep(env, s, e);
    PassPhases(p.run, Turn(stage.ops, e.failed, CheckpointAnswer(env, stage, e.checkpointFails)), env.reconsiderers);
    FailureIff(env, p, e);
    HydratedOpensNone(env, stage.pivots, stage.judged);
    ClearIff(env, stage.pivots, stage.judged);
    if Unguarded(p.run) {
      ClearUnlessOpens(env, p, e.nodes);
    }
    if StageFrontier(env, p.run).None? {
      StageIsBroker(env, p, e.nodes);
    }
  }

  lemma AbandonedStays(env: Env, s: Service, e: Event)
    requires Abandoned(s)
    ensures Step(env, s, e) == s
  {
  }

  lemma StepReviewed(env: Env, s: Service, e: Event)
    requires Secure(env, s) && Orderly(env, s, e)
    ensures Secure(env, Step(env, s, e))
  {
    if Abandoned(s) {
      AbandonedStays(env, s, e);
    } else {
      match e
      case Start => StartedReviewed(env, s);
      case Decide(root, accept) => DecidedReviewed(env, s, root, accept);
      case Turns(_, _, _, _) =>
        if s.process.Some? {
          PassedReviewed(env, s, e);
        }
    }
  }

  function RunEvents(env: Env, s: Service, events: seq<Event>): Service {
    Fold((s: Service, e: Event) => Step(env, s, e), s, events)
  }

  ghost predicate OrderlyRun(env: Env, s: Service, events: seq<Event>) {
    forall i :: 0 <= i < |events| ==> Orderly(env, RunEvents(env, s, events[..i]), events[i])
  }

  ghost predicate SecureAt(env: Env, s: Service, events: seq<Event>, i: nat, t: Service) {
    i <= |events| && t == RunEvents(env, s, events[..i]) && Secure(env, t)
  }

  lemma OrderlyIsSecure(env: Env, s: Service, events: seq<Event>)
    requires Secure(env, s) && OrderlyRun(env, s, events)
    ensures Secure(env, RunEvents(env, s, events))
  {
    var step := (s: Service, e: Event) => Step(env, s, e);
    assert events[..0] == [];
    forall i: nat, t | i < |events| && SecureAt(env, s, events, i, t)
      ensures SecureAt(env, s, events, i + 1, step(t, events[i]))
    {
      FoldPrefix(step, s, events, i);
      StepReviewed(env, t, events[i]);
    }
    FoldInvariant(step, s, events, (i, t) => SecureAt(env, s, events, i, t));
  }

  lemma CreatedIsReviewed(env: Env, seeds: seq<Seed>)
    ensures Reviewed(env, CreatedRun(seeds))
  {
  }

  /** A run started only by its creation, or by the decision that clears its
      last pending pivot, is never in filtering or beyond with a pivot to
      review, nor saved as completed with one. */
  lemma ReviewSafety(env: Env, seeds: seq<Seed>, events: seq<Event>)
    requires OrderlyRun(env, CreatedRun(seeds), events)
    ensures var s := RunEvents(env, CreatedRun(seeds), events);
            && (s.process.Some? && Final(s.process.value.run.phase) ==>
                  !HasPendingReview(s.saved.pivots) && !HasPendingReview(s.process.value.broker)
                  && Clear(env, s.process.value.broker, s.process.value.judged))
            && (s.saved.status == RunCompleted ==> !HasPendingReview(s.saved.pivots))
            && (HasPendingReview(s.saved.pivots) ==> s.process.None? && s.tickets == 0)
  {
    CreatedIsReviewed(env, seeds);
    OrderlyIsSecure(env, CreatedRun(seeds), events);
    var s := RunEvents(env, CreatedRun(seeds), events);
    if s.process.Some? && Unguarded(s.process.value.run) {
      ClearIff(env, s.process.value.broker, s.process.value.judged);
    }
  }

  // ----- autonomous runs never pause -----

  ghost predicate NoneToReview(pivots: Pivots) {
    !HasPendingReview(pivots)
  }

  lemma HandledStatuses(env: Env, pivots: Pivots, request: Request)
    ensures var h := Handled(env, pivots, request);
            && (forall root :: root in pivots ==>
                  root in h && h[root].status == pivots[root].status && h[root].note == pivots[root].note)
            && (forall root :: root in pivots && root != PromotionRoot(env.registrable, request) ==> h[root] == pivots[root])
            && (forall root :: root in h && root !in pivots ==>
                                 root == PromotionRoot(env.registrable, request)
                                 && h[root].status == if env.mode == Manual then NeedsReview else AutoAccepted)
  {
  }

  /** A stage re-decides no pivot; those it opens wait for review in manual
      mode and are accepted otherwise. */
  lemma {:induction false} StageStatuses(env: Env, f: Frontier, pivots: Pivots, judged: seq<Verdict>, nodes: seq<NodeOp>)
    ensures var h := StageRun(env, f, pivots, judged, nodes).pivots;
            && (forall root :: root in pivots ==> root in h && h[root].status == pivots[root].status)
            && (forall root :: root in h && root !in pivots ==>
                                 h[root].status == if env.mode == Manual then NeedsReview else AutoAccepted)
  {
    if nodes != [] {
      StageStatuses(env, f, pivots, judged, nodes[..|nodes| - 1]);
      var s := StageRun(env, f, pivots, judged, nodes[..|nodes| - 1]);
      var op := nodes[|nodes| - 1];
      if op.NodePromote? && Consulted(ApplyAll(f, s.ops).0, op.seed, op.evidence).Some? {
        HandledStatuses(env, s.pivots, Consulted(ApplyAll(f, s.ops).0, op.seed, op.evidence).value);
      }
    }
  }

  lemma StageOfStatuses(env: Env, p: Process, nodes: seq<NodeOp>)
    ensures var h := StageOf(env, p, nodes).pivots;
            && (forall root :: root in p.broker ==> root in h && h[root].status == p.broker[root].status)
            && (forall root :: root in h && root !in p.broker ==>
                                 h[root].status == if env.mode == Manual then NeedsReview else AutoAccepted)
  {
    match StageFrontier(env, p.run)
    case Some(f) => StageStatuses(env, f, p.broker, p.judged, nodes);
    case None =>
  }

  ghost predicate Unreviewed(s: Service) {
    && Dispatchable(s)
    && NoneToReview(s.saved.pivots) && s.saved.status != AwaitingReview
    && (s.process.Some? ==> NoneToReview(s.process.value.broker))
  }

  lemma AutonomousStep(env: Env, s: Service, e: Event)
    requires env.mode == Autonomous && Unreviewed(s)
    ensures Unreviewed(Step(env, s, e))
    ensures e.Turns? && s.process.Some? ==>
              CheckpointAnswer(env, StageOf(env, s.process.value, e.nodes), e.checkpointFails) != Pause
  {
    DispatchableStep(env, s, e);
    if e.Turns? && s.process.Some? {
      var p := s.process.value;
      var stage := StageOf(env, p, e.nodes);
      StageOfStatuses(env, p, e.nodes);
      HydratedPivots(env, stage.pivots, stage.judged);
      assert NoneToReview(stage.pivots) && NoneToReview(Hydrated(env, stage.pivots, stage.judged));
      PassPhases(p.run, Turn(stage.ops, e.failed, CheckpointAnswer(env, stage, e.checkpointFails)), env.reconsiderers);
    }
  }

  /** An autonomous run never pauses and never waits for a review, even when
      callbacks fail. */
  lemma AutonomousNeverPauses(env: Env, seeds: seq<Seed>, events: seq<Event>)
    requires env.mode == Autonomous
    ensures var s := RunEvents(env, CreatedRun(seeds), events);
            s.saved.status != AwaitingReview && !HasPendingReview(s.saved.pivots)
  {
    var step := (s: Service, e: Event) => Step(env, s, e);
    forall i: nat, t | i < |events| && Unreviewed(t) ensures Unreviewed(step(t, events[i])) {
      AutonomousStep(env, t, events[i]);
    }
    FoldInvariant(step, CreatedRun(seeds), events, (i, t) => Unreviewed(t));
  }

  // ----- what the status says -----

  /** A run awaits review exactly because a pivot does, and a pivot that waits
      shows in the status unless the run has failed or completed. */
  ghost predicate StatusIsTrue(saved: Snap) {
    && (saved.status == AwaitingReview ==> HasPendingReview(saved.pivots))
    && (HasPendingReview(saved.pivots) ==> saved.status in {AwaitingReview, RunFailed, RunCompleted})
  }

  lemma DecidedStatus(env: Env, s: Service, root: string, accept: bool)
    requires StatusIsTrue(s.saved)
    ensures StatusIsTrue(Decided(env, s, root, accept).saved)
    ensures Has(s.saved.pivots, root, NeedsReview) ==>
              var t := Decided(env, s, root, accept);
              && (t.saved.status == AwaitingReview <==> HasPendingReview(t.saved.pivots))
              && (s.saved.status == AwaitingReview && t.tickets > s.tickets ==> t.saved.status == Queued)
  {
  }

  lemma PassedStatus(env: Env, s: Service, e: Event)
    requires StatusIsTrue(s.saved) && Dispatchable(s) && s.process.Some? && e.Turns?
    ensures StatusIsTrue(Passed(env, s, e).saved)
  {
    var p := s.process.value;
    PassPhases(p.run, TurnOf(env, p, e), env.reconsiderers);
  }

  lemma StatusStep(env: Env, s: Service, e: Event)
    requires StatusIsTrue(s.saved) && Dispatchable(s)
    ensures StatusIsTrue(Step(env, s, e).saved) && Dispatchable(Step(env, s, e))
  {
    DispatchableStep(env, s, e);
    match e
    case Start =>
    case Decide(root, accept) => DecidedStatus(env, s, root, accept);
    case Turns(_, _, _, _) =>
      if s.process.Some? {
        PassedStatus(env, s, e);
      }
  }

  /** Over every history, orderly or not. */
  lemma StatusesAreTrue(env: Env, seeds: seq<Seed>, events: seq<Event>)
    ensures StatusIsTrue(RunEvents(env, CreatedRun(seeds), events).saved)
  {
    var step := (s: Service, e: Event) => Step(env, s, e);
    forall i: nat, t: Service | i < |events| && StatusIsTrue(t.saved) && Dispatchable(t)
      ensures StatusIsTrue(step(t, events[i]).saved) && Dispatchable(step(t, events[i]))
    {
      StatusStep(env, t, events[i]);
    }
    FoldInvariant(step, CreatedRun(seeds), events, (i: nat, t: Service) => StatusIsTrue(t.saved) && Dispatchable(t));
  }

  // ----- human decisions are final -----

  predicate Human(status: PivotStatus) {
    status == HumanAccepted || status == HumanRejected
  }

  ghost predicate Has(pivots: Pivots, root: string, status: PivotStatus) {
    root in pivots && pivots[root].status == status
  }

  ghost predicate Bound(s: Service, root: string, status: PivotStatus) {
    && Dispatchable(s)
    && Has(s.saved.pivots, root, status)
    && (s.process.Some? ==> Has(s.process.value.broker, root, status))
  }

  lemma BoundStep(env: Env, s: Service, e: Event, root: string, status: PivotStatus)
    requires Bound(s, root, status) && Human(status)
    ensures Bound(Step(env, s, e), root, status)
  {
    DispatchableStep(env, s, e);
    if e.Turns? && s.process.Some? {
      var p := s.process.value;
      var stage := StageOf(env, p, e.nodes);
      StageOfStatuses(env, p, e.nodes);
      HydratedPivots(env, stage.pivots, stage.judged);
    }
  }

  /** A pivot a user accepted or rejected keeps that status through every
      later promotion, hydration, pause, failure, save, load and decision. */
  lemma DecisionIsFinal(env: Env, seeds: seq<Seed>, before: seq<Event>, root: string, accept: bool, after: seq<Event>)
    requires var s := RunEvents(env, CreatedRun(seeds), before);
             Has(s.saved.pivots, root, NeedsReview)
    ensures var s := RunEvents(env, CreatedRun(seeds), before);
            var t := RunEvents(env, Step(env, s, Decide(root, accept)), after);
            Bound(t, root, if accept then HumanAccepted else HumanRejected)
  {
    var step := (s: Service, e: Event) => Step(env, s, e);
    var status := if accept then HumanAccepted else HumanRejected;
    forall i: nat, t | i < |before| && Dispatchable(t) ensures Dispatchable(step(t, before[i])) {
      DispatchableStep(env, t, before[i]);
    }
    FoldInvariant(step, CreatedRun(seeds), before, (i, t) => Dispatchable(t));
    var s := RunEvents(env, CreatedRun(seeds), before);
    assert HasPendingReview(s.saved.pivots);
    DispatchableStep(env, s, Decide(root, accept));
    forall i: nat, t | i < |after| && Bound(t, root, status) ensures Bound(step(t, after[i]), root, status) {
      BoundStep(env, t, after[i], root, status);
    }
    FoldInvariant(step, Step(env, s, Decide(root, accept)), after, (i, t) => Bound(t, root, status));
  }

  // ----- decisions bind the frontier -----

  ghost predicate NoAutoAccepted(pivots: Pivots) {
    forall root :: root in pivots ==> pivots[root].status != AutoAccepted
  }

  ghost predicate ManualPivots(s: Service) {
    NoAutoAccepted(s.saved.pivots) && (s.process.Some? ==> NoAutoAccepted(s.process.value.broker))
  }

  /** What a pass saves and keeps: old pivots, the stage's, or those hydrated. */
  lemma PassedPivots(env: Env, s: Service, e: Event)
    requires s.process.Some? && e.Turns?
    ensures var (t, stage) := (Passed(env, s, e), StageOf(env, s.process.value, e.nodes));
            && (t.saved == s.saved || t.saved.pivots == stage.pivots
                || t.saved.pivots == Hydrated(env, stage.pivots, stage.judged))
            && (t.process.Some? ==> t.process.value.broker == stage.pivots)
  {
  }

  lemma ManualPassed(env: Env, s: Service, e: Event)
    requires env.mode == Manual && ManualPivots(s) && e.Turns? && s.process.Some?
    ensures NoAutoAccepted(StageOf(env, s.process.value, e.nodes).pivots)
    ensures ManualPivots(Passed(env, s, e))
  {
    var stage := StageOf(env, s.process.value, e.nodes);
    StageOfStatuses(env, s.process.value, e.nodes);
    HydratedPivots(env, stage.pivots, stage.judged);
    PassedPivots(env, s, e);
  }

  lemma ManualStep(env: Env, s: Service, e: Event)
    requires env.mode == Manual && ManualPivots(s)
    ensures ManualPivots(Step(env, s, e))
  {
    if e.Turns? && s.process.Some? {
      ManualPassed(env, s, e);
    }
  }

  /** In manual mode nothing but a user accepts a pivot. */
  lemma ManualRunsHaveNoAutoAccepts(env: Env, seeds: seq<Seed>, events: seq<Event>)
    requires env.mode == Manual
    ensures ManualPivots(RunEvents(env, CreatedRun(seeds), events))
  {
    var step := (s: Service, e: Event) => Step(env, s, e);
    forall i: nat, t | i < |events| && ManualPivots(t) ensures ManualPivots(step(t, events[i])) {
      ManualStep(env, t, events[i]);
    }
    FoldInvariant(step, CreatedRun(seeds), events, (i, t) => ManualPivots(t));
  }

  /** In manual mode a reasoned promotion registers its seed exactly when the
      frontier is taking seeds, the key is new, and a user has accepted the
      pivot of its root; in particular never after a rejection. */
  lemma ManualRegistersIffAccepted(env: Env, f: Frontier, pivots: Pivots, raw: Seed, e: Evidence)
    requires env.mode == Manual && NoAutoAccepted(pivots) && e.reasoned
    ensures var g := ApplyAll(f, EngineOps(env, f, pivots, NodePromote(raw, e))).0;
            var key := SeedKey(NormalizeSeed(raw));
            && (Consulted(f, raw, e).Some? <==> SchedulingMode(f) != Reject && key !in f.known)
            && (key !in f.known && key in g.known
                <==> Consulted(f, raw, e).Some?
                     && Has(pivots, PromotionRoot(env.registrable, Consulted(f, raw, e).value), HumanAccepted))
  {
    ReasonedIsConsulted(f, raw, e);
    NodePromotes(env, f, pivots, raw, e);
    if Consulted(f, raw, e).Some? {
      HandledStatuses(env, pivots, Consulted(f, raw, e).value);
      ConsultedRegistersIff(f, raw, e, Answer(env, f, pivots, raw, e));
    } else if SchedulingMode(f) == Reject {
      RejectedKeepsKnown(f, raw, e, Answer(env, f, pivots, raw, e));
    }
  }

  /** In either mode, a promotion that reaches the handler registers its key
      exactly when the pivot of its root is accepted, by a user or by itself,
      or is new and the run autonomous. */
  lemma RegistersIffAllowed(env: Env, f: Frontier, pivots: Pivots, raw: Seed, e: Evidence)
    requires Consulted(f, raw, e).Some?
    ensures var g := ApplyAll(f, EngineOps(env, f, pivots, NodePromote(raw, e))).0;
            var root := PromotionRoot(env.registrable, Consulted(f, raw, e).value);
            && (SeedKey(NormalizeSeed(raw)) in g.known
                <==> Has(pivots, root, HumanAccepted) || Has(pivots, root, AutoAccepted)
                     || (root !in pivots && env.mode == Autonomous))
            && SeedKey(NormalizeSeed(raw)) !in f.known
  {
    NodePromotes(env, f, pivots, raw, e);
    HandledStatuses(env, pivots, Consulted(f, raw, e).value);
    HandledHasRoot(env, pivots, Consulted(f, raw, e).value);
    ConsultedRegistersIff(f, raw, e, Answer(env, f, pivots, raw, e));
  }

  lemma HandledHasRoot(env: Env, pivots: Pivots, request: Request)
    ensures PromotionRoot(env.registrable, request) in Handled(env, pivots, request)
  {
  }

  lemma RejectedKeepsKnown(f: Frontier, raw: Seed, e: Evidence, reply: Reply)
    requires SchedulingMode(f) == Reject
    ensures Promoted(f, raw, e, reply).0.known == f.known
  {
  }

  /** What a promoting node does to the frontier. */
  lemma NodePromotes(env: Env, f: Frontier, pivots: Pivots, raw: Seed, e: Evidence)
    ensures ApplyAll(f, EngineOps(env, f, pivots, NodePromote(raw, e))).0
            == Promoted(f, raw, e, Answer(env, f, pivots, raw, e)).0
  {
    var op := Promote(raw, e, Answer(env, f, pivots, raw, e));
    assert [op][..0] == [];
    assert ApplyAll(f, [op]).0 == Apply(f, op).0;
  }

  lemma RegisteredIffAccepted(f: Frontier, key: string, c: Candidate, reply: Reply)
    requires key !in f.known && ShouldPromote(c) && reply.Says?
    ensures key in Judged(f, key, c, reply).0.known <==> reply == Says(Accepted)
  {
    match reply.decision
    case Accepted =>
    case PendingReview =>
    case Rejected =>
  }

  /** A promotion that reaches the handler registers its key exactly when the
      answer is acceptance. */
  lemma ConsultedRegistersIff(f: Frontier, raw: Seed, e: Evidence, reply: Reply)
    requires Consulted(f, raw, e).Some? && reply.Says?
    ensures SeedKey(NormalizeSeed(raw)) in Promoted(f, raw, e, reply).0.known <==> reply == Says(Accepted)
    ensures reply != Says(Accepted) ==> Promoted(f, raw, e, reply).0.known == f.known
  {
    var seed := NormalizeSeed(raw);
    var c := Accumulate(CandidateAt(f, SeedKey(seed)), seed, NormalizeEvidence(e));
    assert Promoted(f, raw, e, reply) == Judged(f, SeedKey(seed), c, reply);
    RegisteredIffAccepted(f, SeedKey(seed), c, reply);
  }

  lemma AnswerByStatus(env: Env, f: Frontier, pivots: Pivots, raw: Seed, e: Evidence, status: PivotStatus)
    requires Consulted(f, raw, e).Some?
    requires Has(pivots, PromotionRoot(env.registrable, Consulted(f, raw, e).value), status)
    ensures Answer(env, f, pivots, raw, e) == Says(DecisionFor(status))
  {
    HandledStatuses(env, pivots, Consulted(f, raw, e).value);
  }

  /** The frontier and the pivots a promotion meets after the first nodes of a
      pass of the process. */
  function MetBy(env: Env, p: Process, f: Frontier, nodes: seq<NodeOp>): (Frontier, Pivots) {
    var stage := StageRun(env, f, p.broker, p.judged, nodes);
    (ApplyAll(f, stage.ops).0, stage.pivots)
  }

  /** Human decisions are binding over whole runs: however the run went on
      after the decision, and wherever a pass of it has got to, a promotion
      of that root that reaches the handler registers its seed after an
      acceptance and never after a rejection. */
  lemma DecisionBinds(env: Env, seeds: seq<Seed>, before: seq<Event>, root: string, accept: bool, after: seq<Event>,
                      f: Frontier, nodes: seq<NodeOp>, raw: Seed, e: Evidence)
    requires Has(RunEvents(env, CreatedRun(seeds), before).saved.pivots, root, NeedsReview)
    requires var t := RunEvents(env, Step(env, RunEvents(env, CreatedRun(seeds), before), Decide(root, accept)), after);
             t.process.Some? && StageFrontier(env, t.process.value.run) == Some(f)
             && var (g, pivots) := MetBy(env, t.process.value, f, nodes);
                Consulted(g, raw, e).Some? && PromotionRoot(env.registrable, Consulted(g, raw, e).value) == root
    ensures var t := RunEvents(env, Step(env, RunEvents(env, CreatedRun(seeds), before), Decide(root, accept)), after);
            var (g, pivots) := MetBy(env, t.process.value, f, nodes);
            var h := ApplyAll(g, EngineOps(env, g, pivots, NodePromote(raw, e))).0;
            if accept then SeedKey(NormalizeSeed(raw)) in h.known else h.known == g.known
  {
    DecisionIsFinal(env, seeds, before, root, accept, after);
    var t := RunEvents(env, Step(env, RunEvents(env, CreatedRun(seeds), before), Decide(root, accept)), after);
    BindsInStage(env, t.process.value, root, accept, f, nodes, raw, e);
  }

  lemma BindsInStage(env: Env, p: Process, root: string, accept: bool, f: Frontier, nodes: seq<NodeOp>, raw: Seed, e: Evidence)
    requires Has(p.broker, root, if accept then HumanAccepted else HumanRejected)
    requires var (g, pivots) := MetBy(env, p, f, nodes);
             Consulted(g, raw, e).Some? && PromotionRoot(env.registrable, Consulted(g, raw, e).value) == root
    ensures var (g, pivots) := MetBy(env, p, f, nodes);
            var h := ApplyAll(g, EngineOps(env, g, pivots, NodePromote(raw, e))).0;
            if accept then SeedKey(NormalizeSeed(raw)) in h.known else h.known == g.known
  {
    StageStatuses(env, f, p.broker, p.judged, nodes);
    var (g, pivots) := MetBy(env, p, f, nodes);
    var status := if accept then HumanAccepted else HumanRejected;
    AnswerByStatus(env, g, pivots, raw, e, status);
    ConsultedRegistersIff(g, raw, e, Says(DecisionFor(status)));
    NodePromotes(env, g, pivots, raw, e);
  }

  /** And reasoned promotions do reach it, whenever the frontier takes seeds
      and the key is new. */
  lemma ReasonedIsConsulted(f: Frontier, raw: Seed, e: Evidence)
    requires e.reasoned
    ensures Consulted(f, raw, e).Some? <==> SchedulingMode(f) != Reject && SeedKey(NormalizeSeed(raw)) !in f.known
  {
    var seed := NormalizeSeed(raw);
    assert ShouldPromote(Accumulate(CandidateAt(f, SeedKey(seed)), seed, NormalizeEvidence(e)));
  }
}
