/** When one event breaks the review gate for good: the exact condition, told
    by what the run can still come to. */
module ReviewHarm {
  import opened Options
  import opened Text
  import opened Seeds
  import opened Folds
  import opened Frontiers
  import opened Waves
  import opened Review
  import opened ReviewSafety

  /** What the gate is there to prevent. */
  ghost predicate Unsafe(env: Env, s: Service) {
    || (s.process.Some? && Final(s.process.value.run.phase) && !Clear(env, s.process.value.broker, s.process.value.judged))
    || (s.saved.status == RunCompleted && HasPendingReview(s.saved.pivots))
  }

  ghost predicate Leads(env: Env, s: Service, events: seq<Event>) {
    OrderlyRun(env, s, events) && Unsafe(env, RunEvents(env, s, events))
  }

  /** Some orderly history from here is unsafe at its end. */
  ghost predicate Harmful(env: Env, s: Service) {
    exists events :: Leads(env, s, events)
  }

  // ----- secure states cannot come to harm -----

  lemma SecureIsSafe(env: Env, s: Service)
    requires Secure(env, s)
    ensures !Unsafe(env, s)
  {
  }

  lemma SecureIsHarmless(env: Env, s: Service)
    requires Secure(env, s)
    ensures !Harmful(env, s)
  {
    forall events ensures !Leads(env, s, events) {
      if OrderlyRun(env, s, events) {
        OrderlyIsSecure(env, s, events);
        SecureIsSafe(env, RunEvents(env, s, events));
      }
    }
  }

  // ----- a disorderly event leads to harm -----

  const IDLE := Turns([], false, false, false)

  lemma UnsafeIsHarmful(env: Env, s: Service)
    requires Unsafe(env, s)
    ensures Harmful(env, s)
  {
    assert Leads(env, s, []);
  }

  lemma RunCons(env: Env, s: Service, e: Event, events: seq<Event>)
    ensures RunEvents(env, s, [e] + events) == RunEvents(env, Step(env, s, e), events)
  {
    FoldCons((s: Service, e: Event) => Step(env, s, e), s, e, events);
  }

  lemma HarmfulBefore(env: Env, s: Service, e: Event)
    requires Orderly(env, s, e) && Harmful(env, Step(env, s, e))
    ensures Harmful(env, s)
  {
    var rest :| Leads(env, Step(env, s, e), rest);
    var events := [e] + rest;
    RunCons(env, s, e, rest);
    forall i | 0 <= i < |events| ensures Orderly(env, RunEvents(env, s, events[..i]), events[i]) {
      if i > 0 {
        assert events[..i] == [e] + rest[..i - 1];
        RunCons(env, s, e, rest[..i - 1]);
      } else {
        assert events[..0] == [];
      }
    }
    assert Leads(env, s, events);
  }

  /** A stopped run behind its last checkpoint, with a pivot only hydration
      will open. */
  ghost predicate Overlooked(env: Env, s: Service) {
    && s.process.None?
    && s.saved.run.outcome != Running && s.saved.run.initialized
    && Unguarded(s.saved.run)
    && !OpensNone(env, s.saved.pivots, s.saved.judged)
  }

  lemma FinalIsHarmful(env: Env, s: Service)
    requires s.process.Some? && Final(s.process.value.run.phase)
    requires !OpensNone(env, s.process.value.broker, s.process.value.judged)
    ensures Harmful(env, s)
  {
    ClearIff(env, s.process.value.broker, s.process.value.judged);
    UnsafeIsHarmful(env, s);
  }

  /** Without a further wave the run goes straight on to filtering. */
  lemma IdleReachesFiltering(env: Env, s: Service)
    requires s.process.Some? && s.process.value.run.outcome == Running
    requires s.process.value.run.phase == AdvanceExtraWave && LastWave(s.process.value.run.f)
    ensures var t := Step(env, s, IDLE);
            t.process.Some? && t.process.value.run.phase == Filtering
            && t.process.value.broker == s.process.value.broker && t.process.value.judged == s.process.value.judged
  {
  }

  lemma DispatchedIsHarmful(env: Env, s: Service)
    requires Overlooked(env, s) && s.tickets > 0
    ensures Harmful(env, s)
  {
    StartPhase(env, s.saved.run);
    var t := Step(env, s, Start);
    assert t.process.value.broker == s.saved.pivots && t.process.value.judged == s.saved.judged;
    if Final(t.process.value.run.phase) {
      FinalIsHarmful(env, t);
    } else {
      IdleReachesFiltering(env, t);
      FinalIsHarmful(env, Step(env, t, IDLE));
      HarmfulBefore(env, t, IDLE);
    }
    HarmfulBefore(env, s, Start);
  }

  function PendingRoots(pivots: Pivots): set<string> {
    set root | root in pivots && pivots[root].status == NeedsReview
  }

  lemma RejectionKeepsOverlooked(env: Env, s: Service, root: string)
    requires Overlooked(env, s) && Has(s.saved.pivots, root, NeedsReview)
    ensures var t := Step(env, s, Decide(root, false));
            && Overlooked(env, t) && PendingRoots(t.saved.pivots) == PendingRoots(s.saved.pivots) - {root}
            && (HasPendingReview(t.saved.pivots) || t.tickets > 0)
  {
    var t := Step(env, s, Decide(root, false));
    DecidedFields(env, s, root, false);
    DecisionPhase(env, s.saved.run, Reload);
    if OpensNone(env, t.saved.pivots, t.saved.judged) {
      DecisionOpensNone(env, t.saved.pivots, s.saved.pivots, s.saved.judged);
    }
  }

  /** Deciding every pending pivot dispatches the run. */
  lemma {:induction false} UndecidedIsHarmful(env: Env, s: Service)
    requires Overlooked(env, s) && HasPendingReview(s.saved.pivots)
    ensures Harmful(env, s)
    decreases |PendingRoots(s.saved.pivots)|
  {
    var root :| root in s.saved.pivots && s.saved.pivots[root].status == NeedsReview;
    var t := Step(env, s, Decide(root, false));
    RejectionKeepsOverlooked(env, s, root);
    assert root in PendingRoots(s.saved.pivots);
    if HasPendingReview(t.saved.pivots) {
      UndecidedIsHarmful(env, t);
    } else {
      DispatchedIsHarmful(env, t);
    }
    HarmfulBefore(env, s, Decide(root, false));
  }

  /** The two ways to be disorderly. */
  lemma OverlookingIsHarmful(env: Env, s: Service, e: Event)
    requires Reviewed(env, s) && e.Turns? && s.process.Some?
    requires FailsUnguarded(env, s.process.value, e) && Overlooks(env, StageOf(env, s.process.value, e.nodes))
    ensures Harmful(env, Step(env, s, e))
  {
    var p := s.process.value;
    FailureIff(env, p, e);
    PassPhases(p.run, Turn(StageOf(env, p, e.nodes).ops, e.failed,
                           CheckpointAnswer(env, StageOf(env, p, e.nodes), e.checkpointFails)), env.reconsiderers);
    var t := Step(env, s, e);
    assert PassRun(env, p, e).outcome == Failed;
    assert t.saved.run == PassRun(env, p, e) && t.saved.pivots == StageOf(env, p, e.nodes).pivots;
    UndecidedIsHarmful(env, t);
  }

  lemma FinalPassRuns(env: Env, s: Service, e: Event)
    requires e.Turns? && s.process.Some? && !e.failed && s.process.value.run.outcome == Running
    requires s.process.value.run.phase == Filtering || s.process.value.run.phase == Exporting
    ensures var t := Step(env, s, e);
            var stage := StageOf(env, s.process.value, e.nodes);
            t.process.Some? && Final(t.process.value.run.phase)
            && t.process.value.broker == stage.pivots && t.process.value.judged == stage.judged
  {
  }

  lemma OpeningIsHarmful(env: Env, s: Service, e: Event)
    requires Reviewed(env, s) && e.Turns? && s.process.Some? && !e.failed
    requires s.process.value.run.phase == Filtering || s.process.value.run.phase == Exporting
    requires Opens(env, s.process.value, StageOf(env, s.process.value, e.nodes))
    ensures Harmful(env, Step(env, s, e))
  {
    FinalPassRuns(env, s, e);
    ClearUnlessOpens(env, s.process.value, e.nodes);
    UnsafeIsHarmful(env, Step(env, s, e));
  }

  // ----- main results -----

  /** From a reviewed state one event leads to harm exactly when it is not
      orderly: the conditions of review safety are the ones it needs. */
  lemma HarmfulIffDisorderly(env: Env, s: Service, e: Event)
    requires Reviewed(env, s)
    ensures Harmful(env, Step(env, s, e)) <==> !Orderly(env, s, e)
  {
    if Orderly(env, s, e) {
      StepReviewed(env, s, e);
      SecureIsHarmless(env, Step(env, s, e));
    } else {
      var stage := StageOf(env, s.process.value, e.nodes);
      if FailsUnguarded(env, s.process.value, e) && Overlooks(env, stage) {
        OverlookingIsHarmful(env, s, e);
      } else {
        OpeningIsHarmful(env, s, e);
      }
    }
  }

  /** A breaking checkpoint callback lets the run escape its review exactly
      when the stage left one pivot to decide and another that only hydration
      would open, at the last checkpoint before the filters: the extra wave's,
      or reconsideration's when no seed is left for an extra wave. */
  lemma BrokenCheckpointIff(env: Env, s: Service, e: Event)
    requires Reviewed(env, s) && e.Turns? && s.process.Some? && CallbackBreaks(env, s.process.value, e)
    ensures var p := s.process.value;
            var stage := StageOf(env, p, e.nodes);
            Harmful(env, Step(env, s, e))
            <==> && HasPendingReview(stage.pivots) && !OpensNone(env, stage.pivots, stage.judged)
                 && (p.run.phase == ExtraWave
                     || (p.run.phase == Reconsideration && LastWave(FrontierAfter(env, p, e.nodes))))
  {
    HarmfulIffDisorderly(env, s, e);
  }

  ghost predicate NeverHarmful(env: Env, s: Service, events: seq<Event>) {
    forall i :: 0 <= i <= |events| ==> !Harmful(env, RunEvents(env, s, events[..i]))
  }

  /** So the orderly histories of a run are exactly those that never come
      within reach of harm. */
  lemma OrderlyIffNeverHarmful(env: Env, seeds: seq<Seed>, events: seq<Event>)
    ensures OrderlyRun(env, CreatedRun(seeds), events) <==> NeverHarmful(env, CreatedRun(seeds), events)
  {
    var s := CreatedRun(seeds);
    CreatedIsReviewed(env, seeds);
    if OrderlyRun(env, s, events) {
      forall i | 0 <= i <= |events| ensures !Harmful(env, RunEvents(env, s, events[..i])) {
        OrderlyPrefix(env, s, events, i);
        OrderlyIsSecure(env, s, events[..i]);
        SecureIsHarmless(env, RunEvents(env, s, events[..i]));
      }
    }
    if NeverHarmful(env, s, events) {
      HarmlessIsOrderly(env, s, events);
    }
  }

  lemma OrderlyPrefix(env: Env, s: Service, events: seq<Event>, i: nat)
    requires i <= |events| && OrderlyRun(env, s, events)
    ensures OrderlyRun(env, s, events[..i])
  {
    forall j | 0 <= j < i ensures Orderly(env, RunEvents(env, s, events[..i][..j]), events[..i][j]) {
      assert events[..i][..j] == events[..j];
    }
  }

  lemma OrderlySnoc(env: Env, s: Service, events: seq<Event>, e: Event)
    requires OrderlyRun(env, s, events) && Orderly(env, RunEvents(env, s, events), e)
    ensures OrderlyRun(env, s, events + [e])
  {
    var all := events + [e];
    forall i | 0 <= i < |all| ensures Orderly(env, RunEvents(env, s, all[..i]), all[i]) {
      assert all[..i] == events[..i];
      assert i == |events| ==> events[..i] == events;
    }
  }

  lemma HarmlessStep(env: Env, s: Service, e: Event)
    requires Secure(env, s) && !Harmful(env, Step(env, s, e))
    ensures Orderly(env, s, e)
  {
    if Reviewed(env, s) {
      HarmfulIffDisorderly(env, s, e);
    }
  }

  ghost predicate OrderlyUpTo(env: Env, s: Service, events: seq<Event>, i: nat, t: Service) {
    i <= |events| && t == RunEvents(env, s, events[..i]) && Secure(env, t) && OrderlyRun(env, s, events[..i])
  }

  lemma OrderlyNext(env: Env, s: Service, events: seq<Event>, i: nat, t: Service)
    requires OrderlyUpTo(env, s, events, i, t) && i < |events| && !Harmful(env, Step(env, t, events[i]))
    requires RunEvents(env, s, events[..i + 1]) == Step(env, t, events[i])
    ensures OrderlyUpTo(env, s, events, i + 1, Step(env, t, events[i]))
  {
    HarmlessStep(env, t, events[i]);
    StepReviewed(env, t, events[i]);
    OrderlySnoc(env, s, events[..i], events[i]);
    assert events[..i + 1] == events[..i] + [events[i]];
  }

  lemma HarmlessIsOrderly(env: Env, s: Service, events: seq<Event>)
    requires Secure(env, s) && NeverHarmful(env, s, events)
    ensures OrderlyRun(env, s, events)
  {
    var step := (s: Service, e: Event) => Step(env, s, e);
    assert events[..0] == [];
    forall i: nat, t | i < |events| && OrderlyUpTo(env, s, events, i, t)
      ensures OrderlyUpTo(env, s, events, i + 1, step(t, events[i]))
    {
      FoldPrefix(step, s, events, i);
      assert !Harmful(env, RunEvents(env, s, events[..i + 1]));
      OrderlyNext(env, s, events, i, t);
    }
    FoldInvariant(step, s, events, (i, t) => OrderlyUpTo(env, s, events, i, t));
    assert events[..|events|] == events;
  }

  /** Filters and exporters that neither promote nor judge are orderly. */
  lemma EnqueueingIsOrderly(env: Env, s: Service, e: Event)
    requires Reviewed(env, s) && e.Turns? && s.process.Some? && OnlyEnqueues(e.nodes)
    requires s.process.value.run.phase == Filtering || s.process.value.run.phase == Exporting
    ensures Orderly(env, s, e)
  {
    var p := s.process.value;
    QuietStage(env, p.run.f, p.broker, p.judged, e.nodes);
    ClearUnlessOpens(env, p, e.nodes);
    ClearIff(env, p.broker, p.judged);
  }

  /** In an autonomous run every event is orderly. */
  lemma AutonomousIsOrderly(env: Env, s: Service, e: Event)
    requires env.mode == Autonomous && Unreviewed(s)
    ensures Orderly(env, s, e)
  {
    if e.Turns? && s.process.Some? {
      var stage := StageOf(env, s.process.value, e.nodes);
      StageOfStatuses(env, s.process.value, e.nodes);
      HydratedPivots(env, stage.pivots, stage.judged);
    }
  }
}
