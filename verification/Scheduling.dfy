/** The main results about the wave engine, for every run. */
module Scheduling {
  import opened Text
  import opened Seeds
  import opened Frontiers
  import opened Folds
  import opened Waves

  // ----- exactly-once scheduling -----

  ghost predicate PlacedIn(h: seq<Wave>, k: string, w: int) {
    0 <= w < |h| && k in h[w].frontier
  }

  /** Every scheduled key sits in the frontier of the next wave, there once,
      and in no other frontier; the first frontier's keys are in no other. */
  ghost predicate ExactlyOnce(h: seq<Wave>) {
    && (forall w :: 0 <= w < |h| ==> Distinct(h[w].frontier))
    && (forall w, k :: 0 <= w < |h| && k in h[w].scheduled ==> PlacedIn(h, k, w + 1))
    && (forall w, k :: 0 < w < |h| && k in h[w].frontier ==> k in h[w - 1].scheduled)
    && (forall v, w, k :: PlacedIn(h, k, v) && PlacedIn(h, k, w) ==> v == w)
  }

  lemma {:induction false} FlatAt(h: seq<Wave>, w: int, i: int)
    requires 0 <= w < |h| && 0 <= i < |h[w].frontier|
    ensures |Flat(h[..w])| + i < |Flat(h)| && Flat(h)[|Flat(h[..w])| + i] == h[w].frontier[i]
    ensures w < |h| - 1 ==> |Flat(h[..w])| + |h[w].frontier| <= |Flat(h[..|h| - 1])|
  {
    var front := h[..|h| - 1];
    if w < |h| - 1 {
      assert front[..w] == h[..w];
      FlatAt(front, w, i);
      FlatAt(front, w, |h[w].frontier| - 1);
    }
  }

  lemma {:induction false} FlatPrefix(h: seq<Wave>, v: int, w: int)
    requires 0 <= v < w <= |h|
    ensures |Flat(h[..v])| + |h[v].frontier| <= |Flat(h[..w])|
    decreases w - v
  {
    assert h[..w][..w - 1] == h[..w - 1];
    if v < w - 1 {
      FlatPrefix(h, v, w - 1);
    }
  }

  /** No key twice in the flattened history: no key in two frontiers. */
  lemma OneFrontier(h: seq<Wave>, k: string, v: int, w: int)
    requires Distinct(Flat(h)) && PlacedIn(h, k, v) && PlacedIn(h, k, w)
    ensures v == w
  {
    var i :| 0 <= i < |h[v].frontier| && h[v].frontier[i] == k;
    var j :| 0 <= j < |h[w].frontier| && h[w].frontier[j] == k;
    FlatAt(h, v, i);
    FlatAt(h, w, j);
    if v < w {
      FlatPrefix(h, v, w);
    } else if w < v {
      FlatPrefix(h, w, v);
    }
  }

  lemma FrontierDistinct(h: seq<Wave>, w: int)
    requires Distinct(Flat(h)) && 0 <= w < |h|
    ensures Distinct(h[w].frontier)
  {
    forall i, j | 0 <= i < j < |h[w].frontier| ensures h[w].frontier[i] != h[w].frontier[j] {
      FlatAt(h, w, i);
      FlatAt(h, w, j);
    }
  }

  lemma ChainIsExactlyOnce(h: seq<Wave>)
    requires h != [] && Chain(h) && Distinct(Flat(h)) && h[|h| - 1].scheduled == []
    ensures ExactlyOnce(h)
  {
    forall w | 0 <= w < |h| ensures Distinct(h[w].frontier) {
      FrontierDistinct(h, w);
    }
    forall v, w, k | PlacedIn(h, k, v) && PlacedIn(h, k, w) ensures v == w {
      OneFrontier(h, k, v, w);
    }
    forall w, k | 0 <= w < |h| && k in h[w].scheduled ensures PlacedIn(h, k, w + 1) {
      assert w < |h| - 1;
      assert h[w + 1].frontier == h[w].scheduled;
    }
    forall w, k | 0 < w < |h| && k in h[w].frontier ensures k in h[w - 1].scheduled {
      assert h[(w - 1) + 1].frontier == h[w - 1].scheduled;
    }
  }

  /** The run has reached filtering and no filter has run yet. */
  ghost predicate EntersFiltering(r: Run) {
    r.phase == Filtering && !r.sealed
  }

  /** What the engine owes at that point. */
  ghost predicate Settled(r: Run, submitted: seq<Seed>) {
    && r.f.pending == []
    && ExactlyOnce(r.history)
    && r.history != [] && r.history[0].frontier == FirstSeen(NormalizedKeys(submitted))
  }

  /** The run invariant is enough for it. */
  lemma GoodSettles(r: Run, submitted: seq<Seed>, reconsiderers: nat)
    requires Good(r, reconsiderers, FirstSeen(NormalizedKeys(submitted))) && reconsiderers > 0 && EntersFiltering(r)
    ensures Settled(r, submitted)
  {
    assert Flat(r.history) + Keys(r.f.pending) == Flat(r.history);
    ChainIsExactlyOnce(r.history);
  }

  lemma ExactlyOnceScheduling(submitted: seq<Seed>, actions: seq<Action>, reconsiderers: nat)
    requires AllCommaFree(submitted) && SafeActions(actions)
    requires reconsiderers > 0
    requires EntersFiltering(RunAll(submitted, actions, reconsiderers))
    ensures Settled(RunAll(submitted, actions, reconsiderers), submitted)
  {
    EveryRunGood(submitted, actions, reconsiderers);
    GoodSettles(RunAll(submitted, actions, reconsiderers), submitted, reconsiderers);
  }

  // ----- without a reconsiderer it fails -----

  function Plain(id: string): Seed {
    Seed(id, "", [], 0.0, [])
  }

  /** Pause after an idle reconsideration phase, accept a pivot there, and let
      the extra wave discover one more seed. */
  function LosingActions(): seq<Action> {
    var idle := Turn([], false, Proceed);
    [Resume, Take(idle), Take(idle), Take(Turn([], false, Pause)), Accept(Plain("b")),
     Resume, Take(idle), Take(Turn([Enqueue(Plain("c"))], false, Proceed))]
  }

  lemma PlainKey(id: string)
    requires Trimmed(id)
    ensures NormalizeSeed(Plain(id)) == Plain(id) && SeedKey(Plain(id)) == id
  {
    TrimmedIsFixed(id);
  }

  function LosingFrontier(seeds: seq<Seed>, known: set<string>): Frontier {
    Frontier(seeds, [], [], known, map[], 0, MAX_SEED_EXPANSION_DEPTH, false, false)
  }

  /** One plain seed, initialised. */
  lemma PlainBegin()
    ensures Begin(Created([Plain("a")]))
            == Run(LosingFrontier([Plain("a")], {"a"}).(active := [Plain("a")]), true, 0, CollectionWave, Running,
                   [Wave(["a"], [])], false)
  {
    var a := Plain("a");
    PlainKey("a");
    assert [a][..0] == [];
    assert Dedupe([a]) == [Filed("a", a)];
    assert Initialized([a], MAX_SEED_EXPANSION_DEPTH) == LosingFrontier([a], {"a"}).(active := [a]);
    assert Keys([a]) == ["a"];
  }

  lemma IdleWork(r: Run)
    requires r.history != []
    ensures Work(r, []) == r
  {
    var last := r.history[|r.history| - 1];
    assert last.scheduled + [] == last.scheduled;
    assert Record(r.history, []) == r.history;
  }

  /** Up to the pause after the idle reconsideration phase... */
  lemma LosingStart()
    ensures var idle := Turn([], false, Proceed);
            var r := Next(Next(Next(Created([Plain("a")]), Resume, 0), Take(idle), 0), Take(idle), 0);
            Next(r, Take(Turn([], false, Pause)), 0)
            == Run(LosingFrontier([Plain("a")], {"a"}), true, 0, AdvanceExtraWave, Paused, [Wave(["a"], [])], false)
  {
    PlainBegin();
    IdleWork(Begin(Created([Plain("a")])));
  }

  /** ...then the accepted pivot opens the extra wave as an ordinary one... */
  lemma LosingAccept(r: Run)
    requires r == Run(LosingFrontier([Plain("a")], {"a"}), true, 0, AdvanceExtraWave, Paused, [Wave(["a"], [])], false)
    ensures var s := Next(Next(Next(r, Accept(Plain("b")), 0), Resume, 0), Take(Turn([], false, Proceed)), 0);
            && s.f == LosingFrontier([Plain("a"), Plain("b")], {"a", "b"}).(depth := 1, active := [Plain("b")])
            && s.initialized && s.phase == ExtraWave && s.outcome == Running && !s.sealed
  {
    PlainKey("a");
    PlainKey("b");
    KeySetAppend([], Plain("a"));
    assert [] + [Plain("a")] == [Plain("a")];
    assert KeySet([Plain("a")]) == {"a"};
    var f := Restored(r.f.seeds, Snapshot(r.f));
    assert f == r.f;
    OneOp(f, Enqueue(Plain("b")));
    var g := LosingFrontier([Plain("a"), Plain("b")], {"a", "b"}).(pending := [Plain("b")]);
    assert f.candidates - {"b"} == map[];
    assert f.seeds + [Plain("b")] == g.seeds && f.pending + [Plain("b")] == g.pending;
    assert f.known + {"b"} == g.known && "b" !in f.known;
    assert Enqueued(f, Plain("b")) == (g, true);
  }

  /** ...in which a seed may still be scheduled, for a wave that never comes. */
  lemma LosingEnd(s: Run)
    requires s.f == LosingFrontier([Plain("a"), Plain("b")], {"a", "b"}).(depth := 1, active := [Plain("b")])
    requires s.initialized && s.phase == ExtraWave && s.outcome == Running && !s.sealed
    ensures var r := Next(s, Take(Turn([Enqueue(Plain("c"))], false, Proceed)), 0);
            EntersFiltering(r) && r.f.pending == [Plain("c")]
  {
    PlainKey("c");
    OneOp(s.f, Enqueue(Plain("c")));
  }

  lemma LosingTrace(r: Run)
    ensures var (idle, acts) := (Turn([], false, Proceed), LosingActions());
            var r4 := Next(Next(Next(Next(r, Resume, 0), Take(idle), 0), Take(idle), 0), Take(Turn([], false, Pause)), 0);
            var r7 := Next(Next(Next(r4, Accept(Plain("b")), 0), Resume, 0), Take(idle), 0);
            Fold((s: Run, a: Action) => Next(s, a, 0), r, acts)
            == Next(r7, Take(Turn([Enqueue(Plain("c"))], false, Proceed)), 0)
  {
    EightSteps((s: Run, a: Action) => Next(s, a, 0), r, LosingActions());
  }

  lemma LosingRun()
    ensures var r := RunAll([Plain("a")], LosingActions(), 0);
            EntersFiltering(r) && r.f.pending == [Plain("c")]
  {
    var idle := Turn([], false, Proceed);
    var r := Created([Plain("a")]);
    var r4 := Next(Next(Next(Next(r, Resume, 0), Take(idle), 0), Take(idle), 0), Take(Turn([], false, Pause)), 0);
    LosingStart();
    LosingAccept(r4);
    LosingEnd(Next(Next(Next(r4, Accept(Plain("b")), 0), Resume, 0), Take(idle), 0));
    LosingTrace(r);
  }

  lemma OneOp(f: Frontier, op: Op)
    ensures ApplyAll(f, [op]) == (Apply(f, op).0, if Apply(f, op).1 then [OpKey(op)] else [])
  {
    assert [op][..0] == [];
    var log := if Apply(f, op).1 then [OpKey(op)] else [];
    assert [] + log == log;
  }

  ghost predicate AlwaysSettles(reconsiderers: nat) {
    forall submitted, actions :: AllCommaFree(submitted) && SafeActions(actions)
                                 && EntersFiltering(RunAll(submitted, actions, reconsiderers))
                                 ==> Settled(RunAll(submitted, actions, reconsiderers), submitted)
  }

  /** Exactly-once scheduling is a property of an engine exactly when it has a
      reconsiderer, because only then is the extra wave the reserved one. */
  lemma SettlesIffReconsidered(reconsiderers: nat)
    ensures AlwaysSettles(reconsiderers) <==> reconsiderers > 0
  {
    if reconsiderers > 0 {
      forall submitted, actions | AllCommaFree(submitted) && SafeActions(actions)
                                  && EntersFiltering(RunAll(submitted, actions, reconsiderers))
        ensures Settled(RunAll(submitted, actions, reconsiderers), submitted)
      {
        ExactlyOnceScheduling(submitted, actions, reconsiderers);
      }
    } else {
      NotAlways();
    }
  }

  lemma NotAlways()
    ensures !AlwaysSettles(0)
  {
    var submitted, actions := [Plain("a")], LosingActions();
    assert AllCommaFree(submitted) && SafeActions(actions);
    LosingRun();
    assert !Settled(RunAll(submitted, actions, 0), submitted);
  }

  // ----- the wave bound -----

  /** Across pauses, errors and reloads, the wave number is the depth plus the
      extra wave: at most three discovered frontiers, and one more only when
      something reconsiders. */
  lemma WaveBound(submitted: seq<Seed>, actions: seq<Action>, reconsiderers: nat)
    requires AllCommaFree(submitted) && SafeActions(actions)
    requires RunAll(submitted, actions, reconsiderers).initialized
    ensures var r := RunAll(submitted, actions, reconsiderers);
            && r.wave == r.f.depth + (if r.f.inProgress then 1 else 0)
            && 0 <= r.wave <= (if reconsiderers > 0 then 4 else 3)
            && |r.history| == r.wave + 1
  {
    EveryRunGood(submitted, actions, reconsiderers);
  }

  // ----- the order of the phases -----

  /** The stages of a run, by what their nodes and the frontier do: a wave
      needs seeds, reconsideration a reconsiderer, and only a stage that ran
      can fail. */
  predicate Runs(r: Run, reconsiderers: nat) {
    match r.phase
    case CollectionWave => r.f.active != []
    case ExtraWave => r.f.active != []
    case Reconsideration => reconsiderers > 0
    case Filtering => true
    case Exporting => true
    case _ => false
  }

  /** Where one pass goes: a stage that fails is where the run resumes; any
      other goes on, from the waves to reconsideration, the extra wave,
      filtering and exporting, and back to a wave as long as seeds are pending. */
  lemma PassGoes(r: Run, t: Turn, reconsiderers: nat)
    requires r.outcome == Running
    ensures var s := Pass(r, t, reconsiderers);
            if Runs(r, reconsiderers) && t.failed then s.phase == r.phase && s.outcome == Failed
            else match r.phase
              case CollectionWave => s.phase == AdvanceFrontier
              case AdvanceFrontier => s.phase == if r.f.pending == [] || r.f.inProgress then Reconsideration else CollectionWave
              case Reconsideration => s.phase == AdvanceExtraWave
              case AdvanceExtraWave => s.phase == if r.f.pending == [] || r.f.inProgress then Filtering else ExtraWave
              case ExtraWave => s.phase == Filtering
              case Filtering => s.phase == Exporting && s.outcome == Running
              case Exporting => s.phase == Completed && s.outcome == Running
              case Completed => s.phase == Completed && s.outcome == Done
              case Unset => s.phase == Completed && s.outcome == Done
    ensures var s := Pass(r, t, reconsiderers);
            r.phase in {CollectionWave, Reconsideration, ExtraWave} && !(Runs(r, reconsiderers) && t.failed) ==>
              && (s.outcome == Running <==> t.checkpoint == Proceed) && (s.outcome == Paused <==> t.checkpoint == Pause)
              && (s.outcome == Failed <==> t.checkpoint == CallbackFails)
  {
  }

  /** And what it leaves of the frontier: all its nodes did, failed or not,
      after the extra wave was reserved for reconsideration. */
  lemma PassWorks(r: Run, t: Turn, reconsiderers: nat)
    requires r.outcome == Running && r.phase != AdvanceFrontier && r.phase != AdvanceExtraWave
    ensures Pass(r, t, reconsiderers).f
            == if !Runs(r, reconsiderers) then r.f
               else if r.phase == Reconsideration then ApplyAll(r.f.(reserved := r.f.reserved || !r.f.inProgress), t.ops).0
               else ApplyAll(r.f, t.ops).0
  {
    assert r.f.(reserved := r.f.reserved || !r.f.inProgress) == Reserved(r.f).0;
  }

  // ----- termination -----

  /** Advances left, then the rank of the phase. */
  function Measure(r: Run): int {
    match r.phase
    case CollectionWave => 2 * (r.f.maxDepth - r.f.depth) + 7
    case AdvanceFrontier => 2 * (r.f.maxDepth - r.f.depth) + 6
    case Reconsideration => 5
    case AdvanceExtraWave => 4
    case ExtraWave => 3
    case Filtering => 2
    case Exporting => 1
    case Completed => 0
    case Unset => 0
  }

  lemma PassDecreases(r: Run, t: Turn, reconsiderers: nat, first: seq<string>)
    requires Good(r, reconsiderers, first) && r.outcome == Running && SafeOps(t.ops)
    ensures var s := Pass(r, t, reconsiderers);
            0 <= Measure(r) <= 13 && (s.outcome == Running ==> Measure(s) < Measure(r))
  {
    match r.phase
    case CollectionWave => WorkKeepsDepth(r.f, t.ops);
    case AdvanceFrontier => AdvancedInv(r.f);
    case _ =>
  }

  lemma WorkKeepsDepth(f: Frontier, ops: seq<Op>)
    requires Inv(f) && SafeOps(ops)
    ensures ApplyAll(f, ops).0.depth == f.depth && ApplyAll(f, ops).0.maxDepth == f.maxDepth
  {
    ApplyAllEffect(f, ops);
  }

  /** The first passes of a Resume call under the given turns. */
  function Passes(r: Run, turns: nat -> Turn, k: nat, reconsiderers: nat): Run {
    if k == 0 then r
    else Next(Passes(r, turns, k - 1, reconsiderers), Take(turns(k - 1)), reconsiderers)
  }

  lemma {:induction false} PassesShrink(r: Run, turns: nat -> Turn, k: nat, reconsiderers: nat, first: seq<string>)
    requires Good(r, reconsiderers, first) && forall i: nat :: SafeOps(turns(i).ops)
    ensures var s := Passes(r, turns, k, reconsiderers);
            Good(s, reconsiderers, first) && (s.outcome == Running ==> Measure(s) <= Measure(r) - k)
  {
    if k > 0 {
      PassesShrink(r, turns, k - 1, reconsiderers, first);
      var s := Passes(r, turns, k - 1, reconsiderers);
      NextGood(s, Take(turns(k - 1)), reconsiderers, first);
      if s.outcome == Running {
        PassDecreases(s, turns(k - 1), reconsiderers, first);
      }
    }
  }

  /** Whatever its nodes and callbacks do, a Resume call is over after at most
      fourteen passes of its loop. */
  lemma ResumeTerminates(r: Run, turns: nat -> Turn, reconsiderers: nat, first: seq<string>)
    requires Good(r, reconsiderers, first) && forall i: nat :: SafeOps(turns(i).ops)
    ensures Passes(r, turns, 14, reconsiderers).outcome != Running
  {
    PassesShrink(r, turns, 14, reconsiderers, first);
    if r.outcome == Running {
      PassDecreases(r, turns(0), reconsiderers, first);
    } else {
      StoppedStays(r, turns, 14, reconsiderers);
    }
  }

  lemma {:induction false} StoppedStays(r: Run, turns: nat -> Turn, k: nat, reconsiderers: nat)
    requires r.outcome != Running
    ensures Passes(r, turns, k, reconsiderers) == r
  {
    if k > 0 {
      StoppedStays(r, turns, k - 1, reconsiderers);
    }
  }
}
