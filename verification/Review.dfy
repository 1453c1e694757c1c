/** The review gate: the pivot broker, hydration from judge outcomes, the
    checkpoint pause, the user's decision and the run service around them
    (internal/runservice/service_pivots.go, internal/runservice/service_process_run.go,
    internal/runservice/service_create_run.go). */
module Review {
  import opened Options
  import opened Text
  import opened Seeds
  import opened Frontiers
  import opened Waves

  datatype RunMode = Autonomous | Manual

  datatype RunStatus = Queued | RunRunning | AwaitingReview | RunCompleted | RunFailed

  datatype PivotStatus = NeedsReview | HumanAccepted | HumanRejected | AutoAccepted | AutoRejected

  datatype Pivot = Pivot(seed: Seed, confidence: real, status: PivotStatus, note: string)

  type Pivots = map<string, Pivot>

  /** One candidate outcome of a judge evaluation. */
  datatype Verdict = Verdict(root: string, collect: bool, confidence: real, reason: string)

  /** What stays fixed over a run: discovery.RegistrableDomain, the mode, and
      how many reconsiderers the pipeline has. */
  datatype Env = Env(registrable: string -> string, mode: RunMode, reconsiderers: nat)

  // ----- the broker -----

  function FirstRoot(registrable: string -> string, domains: seq<string>): string {
    if domains == [] then ""
    else if registrable(domains[0]) != "" then registrable(domains[0])
    else FirstRoot(registrable, domains[1..])
  }

  function PromotionRoot(registrable: string -> string, request: Request): string {
    if registrable(request.key) != "" then registrable(request.key)
    else if FirstRoot(registrable, request.seed.domains) != "" then FirstRoot(registrable, request.seed.domains)
    else Norm(request.seed.id)
  }

  function DecisionFor(status: PivotStatus): Decision {
    match status
    case HumanAccepted => Accepted
    case AutoAccepted => Accepted
    case HumanRejected => Rejected
    case AutoRejected => Rejected
    case NeedsReview => PendingReview
  }

  /** A promotion meets the pivot of its root, or opens one. */
  function Handled(env: Env, pivots: Pivots, request: Request): Pivots {
    var root := PromotionRoot(env.registrable, request);
    if root in pivots then pivots[root := pivots[root].(seed := request.seed, confidence := request.confidence)]
    else pivots[root := Pivot(request.seed, request.confidence, if env.mode == Manual then NeedsReview else AutoAccepted, "")]
  }

  class PivotBroker {
    const env: Env
    var pivots: Pivots

    constructor (env: Env, existing: Pivots)
      ensures this.env == env && pivots == existing
    {
      this.env := env;
      pivots := existing;
    }

    method HandleCandidatePromotion(candidate: Request) returns (decision: Decision)
      modifies this
      ensures pivots == Handled(env, old(pivots), candidate)
      ensures decision == DecisionFor(pivots[PromotionRoot(env.registrable, candidate)].status)
    {
      var root := PromotionRoot(env.registrable, candidate);
      if root in pivots {
        var existing := pivots[root].(seed := candidate.seed, confidence := candidate.confidence);
        pivots := pivots[root := existing];
        match existing.status {
          case HumanAccepted => return Accepted;
          case AutoAccepted => return Accepted;
          case HumanRejected => return Rejected;
          case AutoRejected => return Rejected;
          case NeedsReview => return PendingReview;
        }
      }
      var state := Pivot(candidate.seed, candidate.confidence, NeedsReview, "");
      if env.mode == Manual {
        pivots := pivots[root := state];
        return PendingReview;
      }
      pivots := pivots[root := state.(status := AutoAccepted)];
      return Accepted;
    }
  }

  // ----- hydration from judge outcomes -----

  function AutoRejectedDiscardStatus(mode: RunMode, confidence: real): PivotStatus {
    if mode == Manual && confidence < 0.80 then NeedsReview else AutoRejected
  }

  function DiscardedPivot(mode: RunMode, root: string, outcome: Verdict): Pivot {
    Pivot(Seed(root, root, [root], 0.0, []), outcome.confidence, AutoRejectedDiscardStatus(mode, outcome.confidence), "")
  }

  function HydrateOne(env: Env, pivots: Pivots, outcome: Verdict): Pivots {
    var root := env.registrable(outcome.root);
    if root == "" || (root !in pivots && outcome.collect) then pivots
    else
      var pivot := if root in pivots then pivots[root] else DiscardedPivot(env.mode, root, outcome);
      pivots[root := pivot.(note := outcome.reason)]
  }

  function Hydrated(env: Env, pivots: Pivots, judged: seq<Verdict>): Pivots {
    if judged == [] then pivots
    else HydrateOne(env, Hydrated(env, pivots, judged[..|judged| - 1]), judged[|judged| - 1])
  }

  method HydratePivotsFromJudges(env: Env, existing: Pivots, judged: seq<Verdict>) returns (pivots: Pivots)
    ensures pivots == Hydrated(env, existing, judged)
  {
    pivots := existing;
    for i := 0 to |judged|
      invariant pivots == Hydrated(env, existing, judged[..i])
    {
      assert judged[..i + 1][..i] == judged[..i];
      var outcome := judged[i];
      var root := env.registrable(outcome.root);
      if root == "" {
        continue;
      }
      var pivot;
      if root !in pivots {
        if outcome.collect {
          continue;
        }
        pivot := DiscardedPivot(env.mode, root, outcome);
      } else {
        pivot := pivots[root];
      }
      pivots := pivots[root := pivot.(note := outcome.reason)];
    }
    assert judged[..|judged|] == judged;
  }

  predicate HasPendingReview(pivots: Pivots) {
    exists root :: root in pivots && pivots[root].status == NeedsReview
  }

  // ----- nodes, with the broker as their handler -----

  datatype NodeOp = NodeEnqueue(seed: Seed) | NodePromote(seed: Seed, evidence: Evidence) | NodeJudge(outcome: Verdict)

  /** Whether a promotion gets as far as the handler, and with what. */
  function Consulted(f: Frontier, raw: Seed, rawEvidence: Evidence): Option<Request> {
    Considered(f, raw, rawEvidence).1
  }

  function PivotsAfter(env: Env, f: Frontier, pivots: Pivots, op: NodeOp): Pivots {
    match op
    case NodePromote(seed, e) =>
      (match Consulted(f, seed, e) case None => pivots case Some(request) => Handled(env, pivots, request))
    case _ => pivots
  }

  /** The broker's answer to a promotion it is consulted on. */
  function Answer(env: Env, f: Frontier, pivots: Pivots, seed: Seed, e: Evidence): Reply {
    match Consulted(f, seed, e)
    case None => NoHandler
    case Some(request) =>
      Says(DecisionFor(Handled(env, pivots, request)[PromotionRoot(env.registrable, request)].status))
  }

  function EngineOps(env: Env, f: Frontier, pivots: Pivots, op: NodeOp): seq<Op> {
    match op
    case NodeEnqueue(seed) => [Enqueue(seed)]
    case NodePromote(seed, e) => [Promote(seed, e, Answer(env, f, pivots, seed, e))]
    case NodeJudge(_) => []
  }

  /** A stage from a frontier: the engine operations it amounts to, the pivots
      and the judge outcomes it leaves. */
  datatype Stage = Stage(ops: seq<Op>, pivots: Pivots, judged: seq<Verdict>)

  function StageRun(env: Env, f: Frontier, pivots: Pivots, judged: seq<Verdict>, nodes: seq<NodeOp>): Stage {
    if nodes == [] then Stage([], pivots, judged)
    else
      var s := StageRun(env, f, pivots, judged, nodes[..|nodes| - 1]);
      var op := nodes[|nodes| - 1];
      var g := ApplyAll(f, s.ops).0;
      Stage(s.ops + EngineOps(env, g, s.pivots, op),
            PivotsAfter(env, g, s.pivots, op),
            s.judged + if op.NodeJudge? then [op.outcome] else [])
  }

  // ----- the service -----

  /** A saved snapshot; the run inside it is always stopped. */
  datatype Snap = Snap(run: Run, pivots: Pivots, judged: seq<Verdict>, status: RunStatus)

  /** A process working on the run: its context and its broker. */
  datatype Process = Process(run: Run, broker: Pivots, judged: seq<Verdict>)

  /** tickets are the dispatches not yet picked up. */
  datatype Service = Service(saved: Snap, process: Option<Process>, tickets: nat)

  datatype Event =
    | Start
    | Turns(nodes: seq<NodeOp>, failed: bool, checkpointFails: bool, publishFails: bool)
    | Decide(root: string, accept: bool)

  function CreatedRun(seeds: seq<Seed>): Service {
    Service(Snap(Created(seeds), map[], [], Queued), None, 1)
  }

  /** loadSnapshot and markRunning, then the start of Resume. */
  function Started(env: Env, s: Service): Service {
    if s.tickets == 0 || s.process.Some? then s
    else
      var run := Next(Next(s.saved.run, Reload, env.reconsiderers), Resume, env.reconsiderers);
      s.(process := Some(Process(run, s.saved.pivots, s.saved.judged)), tickets := s.tickets - 1)
  }

  function IsCheckpointed(phase: Phase): bool {
    phase == CollectionWave || phase == Reconsideration || phase == ExtraWave
  }

  /** The frontier a phase's nodes start from, when they run at all. */
  function StageFrontier(env: Env, r: Run): Option<Frontier> {
    match r.phase
    case CollectionWave => if r.f.active != [] then Some(r.f) else None
    case ExtraWave => if r.f.active != [] then Some(r.f) else None
    case Reconsideration => if env.reconsiderers > 0 then Some(Reserved(r.f).0) else None
    case Filtering => Some(r.f)
    case Exporting => Some(r.f)
    case _ => None
  }

  function StageOf(env: Env, p: Process, nodes: seq<NodeOp>): Stage {
    match StageFrontier(env, p.run)
    case Some(f) => StageRun(env, f, p.broker, p.judged, nodes)
    case None => Stage([], p.broker, p.judged)
  }

  /** afterCheckpoint: what the callback answers, given what the stage left. */
  function CheckpointAnswer(env: Env, stage: Stage, checkpointFails: bool): CheckpointReply {
    if checkpointFails then CallbackFails
    else if HasPendingReview(Hydrated(env, stage.pivots, stage.judged)) then Pause
    else Proceed
  }

  /** What the engine sees of one event: the stage's operations, whether its
      nodes fail, and the callback's answer. */
  function TurnOf(env: Env, p: Process, e: Event): Turn
    requires e.Turns?
  {
    var stage := StageOf(env, p, e.nodes);
    Turn(stage.ops, e.failed, CheckpointAnswer(env, stage, e.checkpointFails))
  }

  /** One pass of the engine inside the process. */
  function PassRun(env: Env, p: Process, e: Event): Run
    requires e.Turns?
  {
    Pass(p.run, TurnOf(env, p, e), env.reconsiderers)
  }

  function Stopped(r: Run): Run {
    r.(outcome := if r.outcome == Running then Paused else r.outcome)
  }

  /** That pass, and the saves around it. */
  function Passed(env: Env, s: Service, e: Event): Service
    requires s.process.Some? && e.Turns?
  {
    var p := s.process.value;
    var stage := StageOf(env, p, e.nodes);
    var r := PassRun(env, p, e);
    var hydrated := Hydrated(env, stage.pivots, stage.judged);
    match r.outcome
    case Paused => s.(saved := Snap(r, hydrated, stage.judged, AwaitingReview), process := None)
    case Failed => s.(saved := Snap(r, stage.pivots, stage.judged, RunFailed), process := None)
    case Done =>
      if e.publishFails
      then s.(saved := Snap(r, stage.pivots, stage.judged, RunFailed), process := None)
      else s.(saved := Snap(r, hydrated, stage.judged, RunCompleted), process := None)
    case _ =>
      var next := s.(process := Some(Process(r, stage.pivots, stage.judged)));
      if IsCheckpointed(p.run.phase) then next.(saved := Snap(Stopped(r), hydrated, stage.judged, RunRunning)) else next
  }

  /** DecidePivot on the saved snapshot; only a pending pivot may be decided. */
  function Decided(env: Env, s: Service, root: string, accept: bool): Service {
    if root !in s.saved.pivots || s.saved.pivots[root].status != NeedsReview then s
    else
      var pivot := s.saved.pivots[root];
      var pivots := s.saved.pivots[root := pivot.(status := if accept then HumanAccepted else HumanRejected)];
      var run := Next(s.saved.run, if accept then Accept(pivot.seed) else Reload, env.reconsiderers);
      var status := if HasPendingReview(pivots) then AwaitingReview
                    else if s.saved.status == AwaitingReview then Queued else s.saved.status;
      s.(saved := Snap(run, pivots, s.saved.judged, status),
         tickets := if HasPendingReview(pivots) then s.tickets else s.tickets + 1)
  }

  function Step(env: Env, s: Service, e: Event): Service {
    match e
    case Start => Started(env, s)
    case Turns(_, _, _, _) => if s.process.Some? then Passed(env, s, e) else s
    case Decide(root, accept) => Decided(env, s, root, accept)
  }
}
