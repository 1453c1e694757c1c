/** How deep a run goes: which waves still schedule, and which wave numbers
    occur (internal/dag/engine.go). */
module Depth {
  import opened Text
  import opened Seeds
  import opened Frontiers
  import opened Folds
  import opened Waves
  import opened Scheduling

  // ----- which waves schedule -----

  /** In a collection wave a new seed is registered and scheduled exactly when
      the wave is the initial one or one of the first two discovered ones;
      later collection waves register nothing either. */
  lemma CollectionWavesSchedule(submitted: seq<Seed>, actions: seq<Action>, reconsiderers: nat, raw: Seed)
    requires AllCommaFree(submitted) && SafeActions(actions)
    requires RunAll(submitted, actions, reconsiderers).phase == CollectionWave
    requires SeedKey(NormalizeSeed(raw)) !in RunAll(submitted, actions, reconsiderers).f.known
    ensures var r := RunAll(submitted, actions, reconsiderers);
            && (Enqueued(r.f, raw).1 <==> r.wave < 3)
            && (SeedKey(NormalizeSeed(raw)) in Enqueued(r.f, raw).0.known <==> r.wave < 3)
            && (SchedulingMode(r.f) == NextWave <==> r.wave < 3)
            && (SchedulingMode(r.f) == Reject <==> r.wave == 3)
  {
    EveryRunGood(submitted, actions, reconsiderers);
  }

  /** In the extra wave a new seed is registered and never scheduled. */
  lemma ExtraWaveRegisters(submitted: seq<Seed>, actions: seq<Action>, reconsiderers: nat, raw: Seed)
    requires AllCommaFree(submitted) && SafeActions(actions) && reconsiderers > 0
    requires RunAll(submitted, actions, reconsiderers).phase == ExtraWave
    ensures var r := RunAll(submitted, actions, reconsiderers);
            !Enqueued(r.f, raw).1 && SeedKey(NormalizeSeed(raw)) in Enqueued(r.f, raw).0.known
  {
    EveryRunGood(submitted, actions, reconsiderers);
  }

  // ----- which waves occur -----

  function Letters(n: nat): (s: string)
    ensures |s| == n && Trimmed(s)
  {
    seq(n, _ => 'a')
  }

  function Idle(): Turn {
    Turn([], false, Proceed)
  }

  function Finds(id: string): Turn {
    Turn([Enqueue(Plain(id))], false, Proceed)
  }

  /** The run collects in the given wave and knows only short ids. */
  ghost predicate Collects(r: Run, wave: int) {
    && r.initialized && r.phase == CollectionWave && r.outcome == Running && r.wave == wave
    && r.f.active != [] && !r.f.reserved && !r.f.inProgress && r.f.depth == wave && r.f.maxDepth == 3
    && forall k :: k in r.f.known ==> |k| <= wave + 1
  }

  /** A wave that finds one new seed. */
  lemma FindWork(r: Run, id: string)
    requires SchedulingMode(r.f) == NextWave && Trimmed(id) && id !in r.f.known
    ensures var s := Work(r, [Enqueue(Plain(id))]);
            && s.f == r.f.(candidates := r.f.candidates - {id}, known := r.f.known + {id},
                           seeds := r.f.seeds + [Plain(id)], pending := r.f.pending + [Plain(id)])
            && s == r.(f := s.f, history := s.history)
  {
    PlainKey(id);
    OneOp(r.f, Enqueue(Plain(id)));
  }

  /** One wave finds a seed... */
  lemma FindTurn(r: Run, wave: nat, reconsiderers: nat)
    requires Collects(r, wave) && wave < 3
    ensures var s := Next(r, Take(Finds(Letters(wave + 2))), reconsiderers);
            && s.f == Work(r, [Enqueue(Plain(Letters(wave + 2)))]).f && s.f.known == r.f.known + {Letters(wave + 2)}
            && s.phase == AdvanceFrontier && s == r.(f := s.f, history := s.history, phase := AdvanceFrontier)
            && s.f == r.f.(candidates := s.f.candidates, known := s.f.known, seeds := s.f.seeds, pending := s.f.pending)
            && s.f.pending != []
  {
    FindWork(r, Letters(wave + 2));
  }

  /** ...and the next collects it. */
  lemma AdvanceTurn(r: Run, s: Run, wave: nat, reconsiderers: nat)
    requires Collects(r, wave) && s == r.(f := s.f, history := s.history, phase := AdvanceFrontier)
    requires s.f == r.f.(candidates := s.f.candidates, known := s.f.known, seeds := s.f.seeds, pending := s.f.pending)
    requires s.f.pending != [] && s.f.known == r.f.known + {Letters(wave + 2)}
    ensures Collects(Next(s, Take(Idle()), reconsiderers), wave + 1)
  {
  }

  /** Reconsideration finds a seed for the extra wave. */
  lemma ExtraTurn(r: Run, reconsiderers: nat)
    requires Collects(r, 3) && r.f.pending == [] && reconsiderers > 0
    ensures var idle := Take(Idle());
            var s := Next(Next(Next(r, idle, reconsiderers), idle, reconsiderers), Take(Finds(Letters(5))), reconsiderers);
            var t := Next(s, idle, reconsiderers);
            t.initialized && t.phase == ExtraWave && t.wave == 4
  {
    var idle := Take(Idle());
    IdleCollects(r, reconsiderers);
    var q := Next(Next(r, idle, reconsiderers), idle, reconsiderers);
    FindWork(q.(f := Reserved(q.f).0), Letters(5));
  }

  lemma IdleCollects(r: Run, reconsiderers: nat)
    requires Collects(r, 3) && r.f.pending == []
    ensures var q := Next(Next(r, Take(Idle()), reconsiderers), Take(Idle()), reconsiderers);
            && q.initialized && q.phase == Reconsideration && q.outcome == Running && q.wave == 3
            && q.f == r.f.(active := [])
  {
  }

  lemma RunSnoc(submitted: seq<Seed>, actions: seq<Action>, a: Action, reconsiderers: nat)
    ensures RunAll(submitted, actions + [a], reconsiderers) == Next(RunAll(submitted, actions, reconsiderers), a, reconsiderers)
  {
    assert (actions + [a])[..|actions|] == actions;
  }

  /** One seed per wave, up to the given one. */
  function Climb(wave: nat): seq<Action> {
    if wave == 0 then [Resume] else Climb(wave - 1) + [Take(Finds(Letters(wave + 1)))] + [Take(Idle())]
  }

  lemma SafeSnoc(actions: seq<Action>, a: Action)
    requires SafeActions(actions) && SafeAction(a)
    ensures SafeActions(actions + [a])
  {
  }

  lemma OneMore(submitted: seq<Seed>, actions: seq<Action>, a: Action, reconsiderers: nat, r: Run)
    requires SafeActions(actions) && SafeAction(a) && r == RunAll(submitted, actions, reconsiderers)
    ensures SafeActions(actions + [a]) && RunAll(submitted, actions + [a], reconsiderers) == Next(r, a, reconsiderers)
  {
    RunSnoc(submitted, actions, a, reconsiderers);
    SafeSnoc(actions, a);
  }

  ghost predicate Climbed(submitted: seq<Seed>, actions: seq<Action>, wave: nat, reconsiderers: nat) {
    SafeActions(actions) && Collects(RunAll(submitted, actions, reconsiderers), wave)
  }

  lemma ClimbsOn(submitted: seq<Seed>, actions: seq<Action>, wave: nat, reconsiderers: nat)
    requires Climbed(submitted, actions, wave, reconsiderers) && wave < 3
    ensures Climbed(submitted, actions + [Take(Finds(Letters(wave + 2)))] + [Take(Idle())], wave + 1, reconsiderers)
  {
    var r := RunAll(submitted, actions, reconsiderers);
    var find := Take(Finds(Letters(wave + 2)));
    var s := Next(r, find, reconsiderers);
    OneMore(submitted, actions, find, reconsiderers, r);
    OneMore(submitted, actions + [find], Take(Idle()), reconsiderers, s);
    FindTurn(r, wave, reconsiderers);
    AdvanceTurn(r, s, wave, reconsiderers);
  }

  lemma StartCollects(reconsiderers: nat)
    ensures Climbed([Plain("a")], [Resume], 0, reconsiderers)
  {
    RunSnoc([Plain("a")], [], Resume, reconsiderers);
    assert [] + [Resume] == [Resume];
    PlainBegin();
  }

  lemma {:induction false} ClimbCollects(submitted: seq<Seed>, wave: nat, reconsiderers: nat)
    requires wave <= 3 && Climbed(submitted, [Resume], 0, reconsiderers)
    ensures Climbed(submitted, Climb(wave), wave, reconsiderers)
  {
    if wave > 0 {
      ClimbCollects(submitted, wave - 1, reconsiderers);
      ClimbsOn(submitted, Climb(wave - 1), wave - 1, reconsiderers);
    }
  }

  ghost predicate Occurs(wave: int, reconsiderers: nat) {
    exists submitted, actions :: AllCommaFree(submitted) && SafeActions(actions)
                                 && RunAll(submitted, actions, reconsiderers).initialized
                                 && RunAll(submitted, actions, reconsiderers).wave == wave
  }

  lemma ExtraClimb(submitted: seq<Seed>, actions: seq<Action>, reconsiderers: nat, r: Run) returns (extra: seq<Action>)
    requires SafeActions(actions) && r == RunAll(submitted, actions, reconsiderers)
    ensures SafeActions(extra)
    ensures var idle := Take(Idle());
            var s := Next(Next(Next(r, idle, reconsiderers), idle, reconsiderers), Take(Finds(Letters(5))), reconsiderers);
            RunAll(submitted, extra, reconsiderers) == Next(s, idle, reconsiderers)
  {
    var idle, finds := Take(Idle()), Take(Finds(Letters(5)));
    var r1 := Next(r, idle, reconsiderers);
    var r2 := Next(r1, idle, reconsiderers);
    OneMore(submitted, actions, idle, reconsiderers, r);
    OneMore(submitted, actions + [idle], idle, reconsiderers, r1);
    OneMore(submitted, actions + [idle] + [idle], finds, reconsiderers, r2);
    OneMore(submitted, actions + [idle] + [idle] + [finds], idle, reconsiderers, Next(r2, finds, reconsiderers));
    extra := actions + [idle] + [idle] + [finds] + [idle];
  }

  /** A collecting run has nothing pending in its last wave. */
  lemma LastWaveIsQuiet(actions: seq<Action>, reconsiderers: nat)
    requires SafeActions(actions) && Collects(RunAll([Plain("a")], actions, reconsiderers), 3)
    ensures RunAll([Plain("a")], actions, reconsiderers).f.pending == []
  {
    EveryRunGood([Plain("a")], actions, reconsiderers);
  }

  lemma ExtraOccurs(reconsiderers: nat)
    requires reconsiderers > 0
    ensures Occurs(4, reconsiderers)
  {
    var submitted := [Plain("a")];
    StartCollects(reconsiderers);
    ClimbCollects(submitted, 3, reconsiderers);
    LastWaveIsQuiet(Climb(3), reconsiderers);
    var r := RunAll(submitted, Climb(3), reconsiderers);
    ExtraTurn(r, reconsiderers);
    var extra := ExtraClimb(submitted, Climb(3), reconsiderers, r);
    OccursBy(submitted, extra, reconsiderers, 4);
  }

  lemma OccursBy(submitted: seq<Seed>, actions: seq<Action>, reconsiderers: nat, wave: int)
    requires AllCommaFree(submitted) && SafeActions(actions)
    requires RunAll(submitted, actions, reconsiderers).initialized && RunAll(submitted, actions, reconsiderers).wave == wave
    ensures Occurs(wave, reconsiderers)
  {
  }

  /** The wave numbers that occur: the initial one, three discovered frontiers,
      and one extra wave when something reconsiders. */
  lemma WavesThatOccur(wave: int, reconsiderers: nat)
    ensures Occurs(wave, reconsiderers) <==> 0 <= wave <= if reconsiderers > 0 then 4 else 3
  {
    if submitted, actions :| AllCommaFree(submitted) && SafeActions(actions)
                             && RunAll(submitted, actions, reconsiderers).initialized
                             && RunAll(submitted, actions, reconsiderers).wave == wave
    {
      EveryRunGood(submitted, actions, reconsiderers);
    }
    if 0 <= wave <= 3 {
      StartCollects(reconsiderers);
      ClimbCollects([Plain("a")], wave, reconsiderers);
      OccursBy([Plain("a")], Climb(wave), reconsiderers, wave);
    }
    if reconsiderers > 0 {
      ExtraOccurs(reconsiderers);
    }
  }
}
