/** What a pivot is about: which seed a decision accepts, over every history
    of a run. */
module ReviewSubjects {
  import opened Options
  import opened Text
  import opened Seeds
  import opened SeedMerges
  import opened Frontiers
  import opened Submissions
  import opened Folds
  import opened Waves
  import Scheduling
  import opened Review
  import opened ReviewSafety

  // ----- the root of a promotion -----

  /** A promotion is filed under the registrable domain of its key, else of
      the first of its domains that has one, else under its id. */
  lemma RootChoice(registrable: string -> string, request: Request)
    ensures var root := PromotionRoot(registrable, request);
            var domains := request.seed.domains;
            && (registrable(request.key) != "" ==> root == registrable(request.key))
            && (registrable(request.key) == "" ==>
                  || (exists i :: 0 <= i < |domains| && registrable(domains[i]) == root && root != ""
                                  && forall j :: 0 <= j < i ==> registrable(domains[j]) == "")
                  || (root == Norm(request.seed.id) && forall i :: 0 <= i < |domains| ==> registrable(domains[i]) == ""))
  {
    FirstRootIs(registrable, request.seed.domains);
  }

  lemma {:induction false} FirstRootIs(registrable: string -> string, domains: seq<string>)
    ensures var root := FirstRoot(registrable, domains);
            if root == "" then forall i :: 0 <= i < |domains| ==> registrable(domains[i]) == ""
            else exists i :: 0 <= i < |domains| && registrable(domains[i]) == root
                             && forall j :: 0 <= j < i ==> registrable(domains[j]) == ""
  {
    if domains != [] && registrable(domains[0]) == "" {
      var (root, rest) := (FirstRoot(registrable, domains), domains[1..]);
      FirstRootIs(registrable, rest);
      assert forall i :: 0 <= i < |rest| ==> rest[i] == domains[i + 1];
      if root != "" {
        var i :| 0 <= i < |rest| && registrable(rest[i]) == root && forall j :: 0 <= j < i ==> registrable(rest[j]) == "";
        assert forall j :: 0 < j < i + 1 ==> domains[j] == rest[j - 1];
        assert registrable(domains[i + 1]) == root;
      } else {
        assert forall i :: 0 < i < |domains| ==> domains[i] == rest[i - 1];
      }
    }
  }

  // ----- what is remembered of a promotion -----

  /** The promotion of a root that last reached the handler, read off the
      submitted seed and the candidate waiting under its key. */
  datatype Mark = Mark(key: string, id: string, companyName: string, domains: seq<string>, confidence: real)

  type Marks = map<string, Mark>

  function MarkOf(f: Frontier, raw: Seed, e: Evidence): Mark {
    var key := SeedKey(NormalizeSeed(raw));
    var prior := CandidateAt(f, key);
    Mark(key,
         if prior.Some? && prior.value.seed.id != "" then prior.value.seed.id else Trim(raw.id),
         if prior.Some? && prior.value.seed.companyName != "" then prior.value.seed.companyName else Trim(raw.companyName),
         UniqueNormalized((if prior.Some? then prior.value.seed.domains else []) + raw.domains),
         ConfidenceOf(prior, raw, e))
  }

  function RootOf(registrable: string -> string, m: Mark): string {
    PromotionRoot(registrable, Request(m.key, Seed(m.id, m.companyName, m.domains, 0.0, []), m.confidence, false))
  }

  ghost function MarksAfter(env: Env, f: Frontier, marks: Marks, op: NodeOp): Marks {
    if op.NodePromote? && Asks(f, op.seed, op.evidence)
    then marks[RootOf(env.registrable, MarkOf(f, op.seed, op.evidence)) := MarkOf(f, op.seed, op.evidence)]
    else marks
  }

  /** The pivot is about the marked promotion. */
  ghost predicate About(pivot: Pivot, m: Mark) {
    && Storable(pivot.seed) && SeedKey(pivot.seed) == m.key
    && pivot.seed.id == m.id && pivot.seed.companyName == m.companyName && pivot.seed.domains == m.domains
    && pivot.confidence == m.confidence
  }

  /** The pivot only hydration opened: it is about its root. */
  ghost predicate AboutRoot(pivot: Pivot, root: string) {
    pivot.seed == Seed(root, root, [root], 0.0, []) && ',' !in root
  }

  /** Each pivot is about the last promotion of its root, or about its root
      when none reached the handler. */
  ghost predicate Faithful(registrable: string -> string, pivots: Pivots, marks: Marks) {
    && (forall root :: root in marks ==> root in pivots && RootOf(registrable, marks[root]) == root)
    && (forall root :: root in pivots ==>
                         if root in marks then About(pivots[root], marks[root]) else AboutRoot(pivots[root], root))
  }

  // ----- one promotion -----

  lemma UnionIsUnique(merged: seq<string>, stored: seq<string>, raw: seq<string>)
    requires NormalList(stored) && DomainUnion(merged, stored, raw)
    ensures merged == UniqueNormalized(stored + raw)
  {
    UniqueNormalizedContents(stored + raw);
    forall x ensures x in merged <==> x in UniqueNormalized(stored + raw) {
      HasNormSplit(stored, raw, x);
      if x in stored {
        NormOfFixed(x);
        var i :| 0 <= i < |stored| && stored[i] == x;
        assert HasNorm(stored, x);
      }
      if HasNorm(stored, x) {
        var i :| 0 <= i < |stored| && Norm(stored[i]) == x;
        assert stored[i] in stored;
        NormOfFixed(stored[i]);
      }
    }
    AscendingUnique(merged, UniqueNormalized(stored + raw));
  }

  lemma HasNormSplit(a: seq<string>, b: seq<string>, x: string)
    ensures HasNorm(a + b, x) <==> HasNorm(a, x) || HasNorm(b, x)
  {
    if i :| 0 <= i < |a| && Norm(a[i]) == x {
      assert (a + b)[i] == a[i];
    }
    if i :| 0 <= i < |b| && Norm(b[i]) == x {
      assert (a + b)[|a| + i] == b[i];
    }
  }

  lemma ProposedIsMarked(f: Frontier, raw: Seed, e: Evidence, pivot: Pivot)
    requires Inv(f) && Storable(pivot.seed) && SeedKey(pivot.seed) == SeedKey(NormalizeSeed(raw))
    requires var prior := CandidateAt(f, SeedKey(NormalizeSeed(raw)));
             Proposes(pivot.seed, prior, raw) && pivot.confidence == ConfidenceOf(prior, raw, e)
    ensures About(pivot, MarkOf(f, raw, e))
  {
    var prior := CandidateAt(f, SeedKey(NormalizeSeed(raw)));
    UnionIsUnique(pivot.seed.domains, if prior.Some? then prior.value.seed.domains else [], raw.domains);
  }

  lemma MarkedRoot(registrable: string -> string, request: Request, m: Mark)
    requires request.key == m.key && request.seed.id == m.id && request.seed.domains == m.domains
    ensures PromotionRoot(registrable, request) == RootOf(registrable, m)
  {
  }

  /** What the handler is given is what the mark says. */
  lemma RequestIsMarked(env: Env, f: Frontier, raw: Seed, e: Evidence)
    requires Inv(f) && CommaFree(raw.domains)
    ensures Consulted(f, raw, e).Some? <==> Asks(f, raw, e)
    ensures Consulted(f, raw, e).Some? ==>
              var (request, m) := (Consulted(f, raw, e).value, MarkOf(f, raw, e));
              && About(Pivot(request.seed, request.confidence, NeedsReview, ""), m)
              && PromotionRoot(env.registrable, request) == RootOf(env.registrable, m)
  {
    HandlerIsAsked(f, raw, e);
    if Asks(f, raw, e) {
      var request := Consulted(f, raw, e).value;
      ProposedIsMarked(f, raw, e, Pivot(request.seed, request.confidence, NeedsReview, ""));
      MarkedRoot(env.registrable, request, MarkOf(f, raw, e));
    }
  }

  lemma HandledFaithful(env: Env, pivots: Pivots, marks: Marks, request: Request, m: Mark)
    requires Faithful(env.registrable, pivots, marks)
    requires About(Pivot(request.seed, request.confidence, NeedsReview, ""), m)
    requires PromotionRoot(env.registrable, request) == RootOf(env.registrable, m)
    ensures Faithful(env.registrable, Handled(env, pivots, request), marks[RootOf(env.registrable, m) := m])
  {
  }

  ghost predicate SafeNode(op: NodeOp) {
    match op
    case NodeEnqueue(seed) => CommaFree(seed.domains)
    case NodePromote(seed, _) => CommaFree(seed.domains)
    case NodeJudge(_) => true
  }

  ghost predicate SafeNodes(nodes: seq<NodeOp>) {
    forall i :: 0 <= i < |nodes| ==> SafeNode(nodes[i])
  }

  lemma NodeFaithful(env: Env, f: Frontier, pivots: Pivots, marks: Marks, op: NodeOp)
    requires Inv(f) && SafeNode(op) && Faithful(env.registrable, pivots, marks)
    ensures Faithful(env.registrable, PivotsAfter(env, f, pivots, op), MarksAfter(env, f, marks, op))
  {
    if op.NodePromote? {
      RequestIsMarked(env, f, op.seed, op.evidence);
      if Asks(f, op.seed, op.evidence) {
        HandledFaithful(env, pivots, marks, Consulted(f, op.seed, op.evidence).value, MarkOf(f, op.seed, op.evidence));
      }
    }
  }

  // ----- a stage -----

  ghost function StageMarks(env: Env, f: Frontier, pivots: Pivots, judged: seq<Verdict>, marks: Marks, nodes: seq<NodeOp>): Marks {
    if nodes == [] then marks
    else
      var front := nodes[..|nodes| - 1];
      var g := ApplyAll(f, StageRun(env, f, pivots, judged, front).ops).0;
      MarksAfter(env, g, StageMarks(env, f, pivots, judged, marks, front), nodes[|nodes| - 1])
  }

  lemma EngineOpsSafe(env: Env, f: Frontier, pivots: Pivots, op: NodeOp)
    requires SafeNode(op)
    ensures SafeOps(EngineOps(env, f, pivots, op))
  {
  }

  lemma SafeOpsAppend(xs: seq<Op>, ys: seq<Op>)
    requires SafeOps(xs) && SafeOps(ys)
    ensures SafeOps(xs + ys)
  {
  }

  lemma {:induction false} StageFaithful(env: Env, f: Frontier, pivots: Pivots, judged: seq<Verdict>, marks: Marks, nodes: seq<NodeOp>)
    requires Inv(f) && SafeNodes(nodes) && Faithful(env.registrable, pivots, marks)
    ensures var stage := StageRun(env, f, pivots, judged, nodes);
            && SafeOps(stage.ops)
            && Faithful(env.registrable, stage.pivots, StageMarks(env, f, pivots, judged, marks, nodes))
  {
    if nodes != [] {
      var front, op := nodes[..|nodes| - 1], nodes[|nodes| - 1];
      StageFaithful(env, f, pivots, judged, marks, front);
      var stage := StageRun(env, f, pivots, judged, front);
      ApplyAllEffect(f, stage.ops);
      var g := ApplyAll(f, stage.ops).0;
      NodeFaithful(env, g, stage.pivots, StageMarks(env, f, pivots, judged, marks, front), op);
      EngineOpsSafe(env, g, stage.pivots, op);
      SafeOpsAppend(stage.ops, EngineOps(env, g, stage.pivots, op));
    }
  }

  // ----- hydration -----

  ghost predicate CommaFreeRoots(registrable: string -> string) {
    forall d :: ',' !in registrable(d)
  }

  /** Hydration leaves the subjects of pivots alone, and opens pivots about
      their roots with the confidence of the first discard. */
  lemma {:induction false} HydratedSubjects(env: Env, pivots: Pivots, judged: seq<Verdict>)
    ensures var h := Hydrated(env, pivots, judged);
            && (forall root :: root in pivots ==>
                  root in h && h[root].seed == pivots[root].seed && h[root].confidence == pivots[root].confidence)
            && (forall root :: root in h && root !in pivots ==>
                  && h[root].seed == Seed(root, root, [root], 0.0, [])
                  && FirstDiscard(env, judged, root) == Some(h[root].confidence)
                  && (CommaFreeRoots(env.registrable) ==> ',' !in root))
  {
    if judged != [] {
      var front, last := judged[..|judged| - 1], judged[|judged| - 1];
      HydratedSubjects(env, pivots, front);
      forall root | root !in pivots && root !in Hydrated(env, pivots, front)
        ensures FirstDiscard(env, front, root).None?
      {
        HydratedNew(env, pivots, front, root);
      }
      assert CommaFreeRoots(env.registrable) ==> ',' !in env.registrable(last.root);
    }
  }

  ghost predicate OnRoot(env: Env, outcome: Verdict, root: string) {
    root != "" && env.registrable(outcome.root) == root
  }

  ghost predicate LastOn(env: Env, judged: seq<Verdict>, root: string, i: int) {
    0 <= i < |judged| && OnRoot(env, judged[i], root) && forall j :: i < j < |judged| ==> !OnRoot(env, judged[j], root)
  }

  ghost predicate NeverOn(env: Env, judged: seq<Verdict>, root: string) {
    forall i :: 0 <= i < |judged| ==> !OnRoot(env, judged[i], root)
  }

  /** The reason shown for a pivot is that of the last verdict on its root. */
  ghost predicate Explained(env: Env, pivots: Pivots, judged: seq<Verdict>, root: string, note: string) {
    || (exists i :: LastOn(env, judged, root, i) && note == judged[i].reason)
    || (NeverOn(env, judged, root) && root in pivots && note == pivots[root].note)
  }

  lemma ExplainedSnoc(env: Env, pivots: Pivots, front: seq<Verdict>, last: Verdict, root: string, note: string)
    requires if OnRoot(env, last, root) then note == last.reason else Explained(env, pivots, front, root, note)
    ensures Explained(env, pivots, front + [last], root, note)
  {
    var all := front + [last];
    assert all[|front|] == last;
    if OnRoot(env, last, root) {
      assert LastOn(env, all, root, |front|);
    } else if i :| LastOn(env, front, root, i) && note == front[i].reason {
      assert LastOn(env, all, root, i) && note == all[i].reason;
    }
  }

  lemma {:induction false} HydratedNotes(env: Env, pivots: Pivots, judged: seq<Verdict>, root: string)
    requires root in Hydrated(env, pivots, judged)
    ensures Explained(env, pivots, judged, root, Hydrated(env, pivots, judged)[root].note)
  {
    if judged != [] {
      var front, last := judged[..|judged| - 1], judged[|judged| - 1];
      if !OnRoot(env, last, root) {
        HydratedNotes(env, pivots, front, root);
      }
      ExplainedSnoc(env, pivots, front, last, root, Hydrated(env, pivots, judged)[root].note);
      assert front + [last] == judged;
    }
  }

  lemma HydratedFaithful(env: Env, pivots: Pivots, judged: seq<Verdict>, marks: Marks)
    requires CommaFreeRoots(env.registrable) && Faithful(env.registrable, pivots, marks)
    ensures Faithful(env.registrable, Hydrated(env, pivots, judged), marks)
  {
    HydratedSubjects(env, pivots, judged);
    var h := Hydrated(env, pivots, judged);
    forall root | root in h
      ensures if root in marks then About(h[root], marks[root]) else AboutRoot(h[root], root)
    {
      if root in pivots {
        assert if root in marks then About(pivots[root], marks[root]) else AboutRoot(pivots[root], root);
      } else {
        assert AboutRoot(h[root], root);
      }
    }
  }

  // ----- whole histories -----

  /** The service, with the marks of its saved snapshot and of its process. */
  datatype Watched = Watched(s: Service, saved: Marks, live: Marks)

  ghost function PassMarks(env: Env, p: Process, marks: Marks, nodes: seq<NodeOp>): Marks {
    match StageFrontier(env, p.run)
    case Some(f) => StageMarks(env, f, p.broker, p.judged, marks, nodes)
    case None => marks
  }

  /** A process starts from the saved marks; a pass that saves its pivots saves
      its marks. */
  ghost function WatchedStep(env: Env, w: Watched, e: Event): Watched {
    var t := Step(env, w.s, e);
    match e
    case Start => Watched(t, w.saved, if w.s.process.None? then w.saved else w.live)
    case Decide(_, _) => w.(s := t)
    case Turns(nodes, _, _, _) =>
      if w.s.process.None? then w
      else
        var marks := PassMarks(env, w.s.process.value, w.live, nodes);
        var saves := t.process.None? || IsCheckpointed(w.s.process.value.run.phase);
        Watched(t, if saves then marks else w.saved, marks)
  }

  ghost function Watch(env: Env, w: Watched, events: seq<Event>): Watched {
    Fold((w: Watched, e: Event) => WatchedStep(env, w, e), w, events)
  }

  ghost function WatchedRun(env: Env, seeds: seq<Seed>, events: seq<Event>): Watched {
    Watch(env, Watched(CreatedRun(seeds), map[], map[]), events)
  }

  /** Watching changes nothing. */
  lemma {:induction false} WatchedIsRun(env: Env, w: Watched, events: seq<Event>)
    ensures Watch(env, w, events).s == ReviewSafety.RunEvents(env, w.s, events)
  {
    if events != [] {
      WatchedIsRun(env, w, events[..|events| - 1]);
    }
  }

  ghost predicate SafeEvents(events: seq<Event>) {
    forall i :: 0 <= i < |events| ==> SafeEvent(events[i])
  }

  ghost predicate SafeEvent(e: Event) {
    e.Turns? ==> SafeNodes(e.nodes)
  }

  ghost predicate SavedFaithful(env: Env, seeds: seq<Seed>, saved: Snap, marks: Marks) {
    && saved.run.outcome != Running
    && GoodOrNew(saved.run, seeds, env.reconsiderers)
    && Faithful(env.registrable, saved.pivots, marks)
    && (saved.pivots != map[] ==> saved.run.initialized)
  }

  ghost predicate LiveFaithful(env: Env, seeds: seq<Seed>, p: Process, marks: Marks) {
    && p.run.outcome == Running && p.run.initialized
    && GoodOrNew(p.run, seeds, env.reconsiderers)
    && Faithful(env.registrable, p.broker, marks)
  }

  ghost predicate WatchedFaithful(env: Env, seeds: seq<Seed>, w: Watched) {
    && SavedFaithful(env, seeds, w.s.saved, w.saved)
    && (w.s.process.Some? ==> LiveFaithful(env, seeds, w.s.process.value, w.live))
  }

  lemma StartFaithful(env: Env, seeds: seq<Seed>, w: Watched)
    requires AllCommaFree(seeds) && WatchedFaithful(env, seeds, w)
    ensures WatchedFaithful(env, seeds, WatchedStep(env, w, Start))
  {
    if w.s.tickets > 0 && w.s.process.None? {
      var saved := w.s.saved.run;
      StartPhase(env, saved);
      GoodOrNewNext(saved, Reload, seeds, env.reconsiderers);
      GoodOrNewNext(Next(saved, Reload, env.reconsiderers), Resume, seeds, env.reconsiderers);
    }
  }

  lemma SubjectIsSafe(registrable: string -> string, pivots: Pivots, marks: Marks, root: string)
    requires Faithful(registrable, pivots, marks) && root in pivots
    ensures CommaFree(pivots[root].seed.domains)
  {
    assert if root in marks then About(pivots[root], marks[root]) else AboutRoot(pivots[root], root);
  }

  lemma DecidedSaves(env: Env, s: Service, root: string, accept: bool)
    requires Has(s.saved.pivots, root, NeedsReview)
    ensures var (t, pivot) := (Decided(env, s, root, accept), s.saved.pivots[root]);
            && t.process == s.process
            && t.saved.run == Next(s.saved.run, if accept then Accept(pivot.seed) else Reload, env.reconsiderers)
            && t.saved.pivots == s.saved.pivots[root := pivot.(status := if accept then HumanAccepted else HumanRejected)]
  {
  }

  lemma StatusFaithful(registrable: string -> string, pivots: Pivots, marks: Marks, root: string, status: PivotStatus)
    requires Faithful(registrable, pivots, marks) && root in pivots
    ensures Faithful(registrable, pivots[root := pivots[root].(status := status)], marks)
  {
    assert if root in marks then About(pivots[root], marks[root]) else AboutRoot(pivots[root], root);
  }

  lemma DecideFaithful(env: Env, seeds: seq<Seed>, w: Watched, root: string, accept: bool)
    requires AllCommaFree(seeds) && WatchedFaithful(env, seeds, w)
    ensures WatchedFaithful(env, seeds, WatchedStep(env, w, Decide(root, accept)))
  {
    var (run, pivots) := (w.s.saved.run, w.s.saved.pivots);
    if Has(pivots, root, NeedsReview) {
      var a := if accept then Accept(pivots[root].seed) else Reload;
      var status := if accept then HumanAccepted else HumanRejected;
      DecidedSaves(env, w.s, root, accept);
      SubjectIsSafe(env.registrable, pivots, w.saved, root);
      GoodOrNewNext(run, a, seeds, env.reconsiderers);
      DecisionPhase(env, run, a);
      StatusFaithful(env.registrable, pivots, w.saved, root, status);
      assert SavedFaithful(env, seeds, Decided(env, w.s, root, accept).saved, w.saved);
    } else {
      assert Decided(env, w.s, root, accept) == w.s;
    }
  }

  lemma StageOfFaithful(env: Env, seeds: seq<Seed>, p: Process, marks: Marks, nodes: seq<NodeOp>)
    requires LiveFaithful(env, seeds, p, marks) && SafeNodes(nodes)
    ensures var stage := StageOf(env, p, nodes);
            SafeOps(stage.ops) && Faithful(env.registrable, stage.pivots, PassMarks(env, p, marks, nodes))
  {
    if StageFrontier(env, p.run).Some? {
      ReservedInv(p.run.f);
      StageFaithful(env, StageFrontier(env, p.run).value, p.broker, p.judged, marks, nodes);
    }
  }

  /** The runs a pass leaves, in the process or saved. */
  lemma PassedRunGood(env: Env, seeds: seq<Seed>, p: Process, t: Turn)
    requires AllCommaFree(seeds) && p.run.outcome == Running && p.run.initialized && SafeOps(t.ops)
    requires GoodOrNew(p.run, seeds, env.reconsiderers)
    ensures var r := Pass(p.run, t, env.reconsiderers);
            && GoodOrNew(r, seeds, env.reconsiderers) && r.initialized && r.outcome != Idle
            && (r.outcome == Running && IsCheckpointed(p.run.phase) ==> GoodOrNew(Stopped(r), seeds, env.reconsiderers))
  {
    var r := Pass(p.run, t, env.reconsiderers);
    PassPhases(p.run, t, env.reconsiderers);
    GoodOrNewNext(p.run, Take(t), seeds, env.reconsiderers);
    if r.outcome == Running && IsCheckpointed(p.run.phase) {
      GoodOrNewNext(p.run, Take(t.(checkpoint := Pause)), seeds, env.reconsiderers);
      StoppedIsPaused(p.run, t, env.reconsiderers);
    }
  }

  lemma StoppedIsPaused(r: Run, t: Turn, n: nat)
    requires r.outcome == Running && IsCheckpointed(r.phase) && Pass(r, t, n).outcome == Running
    ensures Stopped(Pass(r, t, n)) == Pass(r, t.(checkpoint := Pause), n)
  {
  }

  /** What a pass leaves in the process, or saves when it stops there. */
  lemma PassedLeaves(env: Env, s: Service, e: Event)
    requires s.process.Some? && e.Turns? && PassRun(env, s.process.value, e).outcome != Idle
    ensures var p := s.process.value;
            var (t, r, stage) := (Passed(env, s, e), PassRun(env, p, e), StageOf(env, p, e.nodes));
            var h := Hydrated(env, stage.pivots, stage.judged);
            if t.process.None? then
              r.outcome != Running && t.saved.run == r && (t.saved.pivots == stage.pivots || t.saved.pivots == h)
            else
              && r.outcome == Running && t.process.value.run == r && t.process.value.broker == stage.pivots
              && if IsCheckpointed(p.run.phase) then t.saved.run == Stopped(r) && t.saved.pivots == h else t.saved == s.saved
  {
  }

  lemma PassFaithful(env: Env, seeds: seq<Seed>, w: Watched, e: Event)
    requires AllCommaFree(seeds) && CommaFreeRoots(env.registrable) && WatchedFaithful(env, seeds, w)
    requires e.Turns? && SafeEvent(e) && w.s.process.Some?
    ensures WatchedFaithful(env, seeds, WatchedStep(env, w, e))
  {
    var p := w.s.process.value;
    var (stage, marks) := (StageOf(env, p, e.nodes), PassMarks(env, p, w.live, e.nodes));
    StageOfFaithful(env, seeds, p, w.live, e.nodes);
    PassedRunGood(env, seeds, p, TurnOf(env, p, e));
    PassedLeaves(env, w.s, e);
    HydratedFaithful(env, stage.pivots, stage.judged, marks);
    var (t, r) := (Passed(env, w.s, e), PassRun(env, p, e));
    if t.process.None? {
      assert SavedFaithful(env, seeds, t.saved, marks);
    } else {
      assert LiveFaithful(env, seeds, t.process.value, marks);
      assert IsCheckpointed(p.run.phase) ==> SavedFaithful(env, seeds, t.saved, marks);
    }
  }

  lemma StepFaithful(env: Env, seeds: seq<Seed>, w: Watched, e: Event)
    requires AllCommaFree(seeds) && CommaFreeRoots(env.registrable) && SafeEvent(e) && WatchedFaithful(env, seeds, w)
    ensures WatchedFaithful(env, seeds, WatchedStep(env, w, e))
  {
    match e
    case Start => StartFaithful(env, seeds, w);
    case Decide(root, accept) => DecideFaithful(env, seeds, w, root, accept);
    case Turns(_, _, _, _) =>
      if w.s.process.Some? {
        PassFaithful(env, seeds, w, e);
      }
  }

  /** Over every history of a run, each pivot that is saved or in the hands of
      a process is about the last promotion of its root that reached the
      handler, with its key, names, domains and confidence; a pivot no
      promotion met is about its root. */
  lemma PivotsAreFaithful(env: Env, seeds: seq<Seed>, events: seq<Event>)
    requires AllCommaFree(seeds) && CommaFreeRoots(env.registrable) && SafeEvents(events)
    ensures var w := WatchedRun(env, seeds, events);
            && w.s == ReviewSafety.RunEvents(env, CreatedRun(seeds), events)
            && WatchedFaithful(env, seeds, w)
  {
    var start := Watched(CreatedRun(seeds), map[], map[]);
    var step := (w: Watched, e: Event) => WatchedStep(env, w, e);
    WatchedIsRun(env, start, events);
    forall i: nat, w | i < |events| && WatchedFaithful(env, seeds, w) ensures WatchedFaithful(env, seeds, step(w, events[i])) {
      StepFaithful(env, seeds, w, events[i]);
    }
    FoldInvariant(step, start, events, (i, w) => WatchedFaithful(env, seeds, w));
  }

  /** So what holds of all runs of the engine holds of the service's, whoever
      decides what and when: with a reconsiderer, a process that reaches
      filtering has placed every scheduled key in exactly one frontier. */
  lemma ServiceSchedulesOnce(env: Env, seeds: seq<Seed>, events: seq<Event>)
    requires AllCommaFree(seeds) && CommaFreeRoots(env.registrable) && SafeEvents(events) && env.reconsiderers > 0
    ensures var p := ReviewSafety.RunEvents(env, CreatedRun(seeds), events).process;
            p.Some? && Scheduling.EntersFiltering(p.value.run) ==> Scheduling.Settled(p.value.run, seeds)
  {
    PivotsAreFaithful(env, seeds, events);
    var p := ReviewSafety.RunEvents(env, CreatedRun(seeds), events).process;
    if p.Some? && Scheduling.EntersFiltering(p.value.run) {
      Scheduling.GoodSettles(p.value.run, seeds, env.reconsiderers);
    }
  }

  // ----- what a decision does to the frontier -----

  /** The frontier without its candidates, which no snapshot keeps. */
  function Kept(f: Frontier): Frontier {
    f.(candidates := map[])
  }

  /** Exactly the seed of the key and the given fields is new: known, stored
      last and, while a next wave is open, pending last. */
  ghost predicate Schedules(f: Frontier, g: Frontier, key: string, id: string, companyName: string, domains: seq<string>) {
    exists p: Seed ::
      && SeedKey(p) == key && p.id == id && p.companyName == companyName && p.domains == domains
      && g == Kept(f).(known := f.known + {key}, seeds := f.seeds + [p],
                       pending := f.pending + if f.inProgress then [] else [p])
  }

  lemma AcceptedRun(r: Run, seed: Seed, n: nat)
    requires r.outcome != Running && r.initialized && Inv(r.f)
    ensures Next(r, Accept(seed), n).f == Enqueued(Kept(r.f), seed).0
    ensures Next(r, Reload, n).f == Kept(r.f)
  {
    RestoreForgetsCandidates(r.f);
    var restored := r.(f := Restored(r.f.seeds, Snapshot(r.f)));
    WorkEnqueues(restored, seed);
  }

  lemma WorkEnqueues(r: Run, seed: Seed)
    ensures Work(r, [Enqueue(seed)]).f == Enqueued(r.f, seed).0
  {
    var op := Enqueue(seed);
    assert [op][..0] == [];
    assert ApplyAll(r.f, [op]).0 == Apply(r.f, op).0;
  }

  lemma EnqueuedSchedules(f: Frontier, raw: Seed, key: string, domains: seq<string>)
    requires Open(f) && SeedKey(NormalizeSeed(raw)) == key && key !in f.known && Ascending(domains)
    requires forall d :: d in domains <==> d != "" && HasNorm(raw.domains, d)
    ensures Schedules(f, Enqueued(Kept(f), raw).0, key, Trim(raw.id), Trim(raw.companyName), domains)
  {
    EnqueueOfNew(Kept(f), raw);
    var g := Enqueued(Kept(f), raw).0;
    var p := g.seeds[|f.seeds|];
    assert g.seeds == f.seeds + [p];
    AscendingUnique(p.domains, domains);
    EnqueuedIsNormal(Kept(f), raw);
    assert g == Kept(f).(known := f.known + {key}, seeds := f.seeds + [p],
                         pending := f.pending + if f.inProgress then [] else [p]);
  }

  lemma EnqueuedIsNormal(f: Frontier, raw: Seed)
    requires Open(f) && SeedKey(NormalizeSeed(raw)) !in f.known
    ensures Enqueued(f, raw).0.seeds == f.seeds + [NormalizeSeed(raw)]
  {
  }

  /** What accepting the pivot of a promotion does: it enqueues that
      promotion's seed. */
  lemma AcceptsMarked(f: Frontier, pivot: Pivot, m: Mark)
    requires Inv(f) && About(pivot, m)
    ensures var g := Enqueued(Kept(f), pivot.seed).0;
            && (Open(f) && m.key !in f.known ==> Schedules(f, g, m.key, m.id, m.companyName, m.domains))
            && (Open(f) && m.key in f.known ==> TakenIn(Kept(f), g, pivot.seed, []))
            && (!Open(f) ==> g == Kept(f))
  {
    var s := pivot.seed;
    NormalSeedIsFixed(s);
    TrimmedIsFixed(s.id);
    TrimmedIsFixed(s.companyName);
    NormalListIsFixed(s.domains);
    UniqueNormalizedContents(s.domains);
    if Open(f) {
      if m.key in f.known {
        EnqueueOfKnown(Kept(f), s);
      } else {
        EnqueuedSchedules(f, s, m.key, m.domains);
      }
    }
  }

  /** Its key is the root in lower case. */
  lemma RootKey(root: string)
    ensures SeedKey(Seed(root, root, [root], 0.0, [])) == Norm(root)
    ensures SeedKey(NormalizeSeed(Seed(root, root, [root], 0.0, []))) == Norm(root)
    ensures forall d :: HasNorm([root], d) <==> d == Norm(root)
  {
    var s := Seed(root, root, [root], 0.0, []);
    assert [root][0] == root;
    assert forall d :: HasNorm([root], d) <==> d == Norm(root);
    NormalizeIsStorable(s);
    KeyOfNormal(NormalizeSeed(s));
    UniqueNormalizedContents([root]);
    var domains := if Norm(root) == "" then [] else [Norm(root)];
    AscendingUnique(UniqueNormalized([root]), domains);
    assert [root][1..] == [];
    assert NonBlankNorms([root]) == domains;
    SortAscending(domains);
  }

  /** And one only hydration opened: it enqueues its root. */
  lemma AcceptsRoot(f: Frontier, pivot: Pivot, root: string)
    requires Inv(f) && AboutRoot(pivot, root)
    ensures var g := Enqueued(Kept(f), pivot.seed).0;
            && (Open(f) && Norm(root) !in f.known ==>
                  Schedules(f, g, Norm(root), Trim(root), Trim(root), if Norm(root) == "" then [] else [Norm(root)]))
            && (Open(f) && Norm(root) in f.known ==> TakenIn(Kept(f), g, pivot.seed, []))
            && (!Open(f) ==> g == Kept(f))
  {
    RootKey(root);
    if Open(f) {
      if Norm(root) in f.known {
        EnqueueOfKnown(Kept(f), pivot.seed);
      } else {
        EnqueuedSchedules(f, pivot.seed, Norm(root), if Norm(root) == "" then [] else [Norm(root)]);
      }
    }
  }

  /** DecidePivot after any history. Accepting a pending pivot enqueues the
      seed of the last promotion of its root, as it was submitted, or the root
      itself when no promotion reached the handler: while the frontier takes
      seeds a new key becomes known, and pending if a next wave is open; a
      known one takes the seed in. Rejecting changes no key. */
  lemma DecisionEnqueues(env: Env, seeds: seq<Seed>, events: seq<Event>, root: string)
    requires AllCommaFree(seeds) && CommaFreeRoots(env.registrable) && SafeEvents(events)
    requires Has(ReviewSafety.RunEvents(env, CreatedRun(seeds), events).saved.pivots, root, NeedsReview)
    ensures var (s, marks) := (ReviewSafety.RunEvents(env, CreatedRun(seeds), events), WatchedRun(env, seeds, events).saved);
            var (f, g) := (s.saved.run.f, Decided(env, s, root, true).saved.run.f);
            && (root in marks ==>
                  var m := marks[root];
                  && (Open(f) && m.key !in f.known ==> Schedules(f, g, m.key, m.id, m.companyName, m.domains))
                  && (Open(f) && m.key in f.known ==> TakenIn(Kept(f), g, s.saved.pivots[root].seed, [])))
            && (root !in marks ==>
                  var domains := if Norm(root) == "" then [] else [Norm(root)];
                  && (Open(f) && Norm(root) !in f.known ==> Schedules(f, g, Norm(root), Trim(root), Trim(root), domains))
                  && (Open(f) && Norm(root) in f.known ==> TakenIn(Kept(f), g, Seed(root, root, [root], 0.0, []), [])))
            && (!Open(f) ==> g == Kept(f))
            && Decided(env, s, root, false).saved.run.f == Kept(f)
  {
    PivotsAreFaithful(env, seeds, events);
    var w := WatchedRun(env, seeds, events);
    var (f, pivot) := (w.s.saved.run.f, w.s.saved.pivots[root]);
    DecidedSaves(env, w.s, root, true);
    DecidedSaves(env, w.s, root, false);
    AcceptedRun(w.s.saved.run, pivot.seed, env.reconsiderers);
    if root in w.saved {
      AcceptsMarked(f, pivot, w.saved[root]);
    } else {
      AcceptsRoot(f, pivot, root);
    }
  }
}
