/** The execution lease on run records: the memory store's operations, and
    the protocol any number of workers run over it
    (internal/runservice/projection_memory.go, internal/runservice/worker.go). */
module Lease {
  import opened Options

  /** A run record; body stands for the fields the lease code never reads. */
  datatype RunRecord = RunRecord(
    id: string,
    body: string,
    leaseID: string,
    heartbeatAt: Option<int>,
    leaseUntil: Option<int>)

  type Runs = map<string, RunRecord>

  datatype ClaimResult = ClaimNotFound | Refused(run: RunRecord) | Claimed(run: RunRecord)

  datatype RenewResult = Renewed | NotFound | Mismatch

  predicate LeaseIsActive(run: RunRecord, now: int) {
    run.leaseID != "" && run.leaseUntil.Some? && run.leaseUntil.value > now
  }

  function PreserveExecutionLease(existing: RunRecord, incoming: RunRecord): RunRecord {
    if incoming.leaseID != "" then incoming
    else if existing.leaseID == "" then incoming
    else incoming.(leaseID := existing.leaseID, heartbeatAt := existing.heartbeatAt, leaseUntil := existing.leaseUntil)
  }

  function WithLease(run: RunRecord, leaseID: string, now: int, ttl: int): RunRecord {
    run.(leaseID := leaseID, heartbeatAt := Some(now), leaseUntil := Some(now + ttl))
  }

  function WithoutLease(run: RunRecord): RunRecord {
    run.(leaseID := "", heartbeatAt := None, leaseUntil := None)
  }

  // ----- the operations on values -----

  function Upserted(runs: Runs, run: RunRecord): Runs {
    runs[run.id := if run.id in runs then PreserveExecutionLease(runs[run.id], run) else run]
  }

  function AfterClaim(runs: Runs, runID: string, leaseID: string, now: int, ttl: int): (Runs, ClaimResult) {
    if runID !in runs then (runs, ClaimNotFound)
    else if LeaseIsActive(runs[runID], now) && runs[runID].leaseID != leaseID then (runs, Refused(runs[runID]))
    else
      var run := WithLease(runs[runID], leaseID, now, ttl);
      (runs[runID := run], Claimed(run))
  }

  function AfterHeartbeat(runs: Runs, runID: string, leaseID: string, now: int, ttl: int): (Runs, RenewResult) {
    if runID !in runs then (runs, NotFound)
    else if runs[runID].leaseID != leaseID then (runs, Mismatch)
    else (runs[runID := WithLease(runs[runID], leaseID, now, ttl)], Renewed)
  }

  function AfterRelease(runs: Runs, runID: string, leaseID: string): (Runs, RenewResult) {
    if runID !in runs then (runs, NotFound)
    else if runs[runID].leaseID != "" && runs[runID].leaseID != leaseID then (runs, Mismatch)
    else (runs[runID := WithoutLease(runs[runID])], Renewed)
  }

  // ----- the store -----

  /** No lease, one's own, one without an end, or one whose end has come. */
  predicate Free(run: RunRecord, worker: string, now: int) {
    run.leaseID == "" || run.leaseID == worker || run.leaseUntil.None? || run.leaseUntil.value <= now
  }

  /** What a successful claim or heartbeat leaves: the lease ends a TTL later,
      and nothing else of the store has changed. */
  ghost predicate LeasedTo(before: Runs, after: Runs, runID: string, worker: string, now: int, ttl: int) {
    && runID in before && after.Keys == before.Keys
    && (forall id :: id in before && id != runID ==> after[id] == before[id])
    && after[runID].leaseID == worker
    && after[runID].heartbeatAt == Some(now) && after[runID].leaseUntil == Some(now + ttl)
    && after[runID].id == before[runID].id && after[runID].body == before[runID].body
  }

  /** The store itself; every method holds its mutex. */
  class MemoryProjectionStore {
    var runs: Runs

    constructor ()
      ensures runs == map[]
    {
      runs := map[];
    }

    method UpsertRun(incoming: RunRecord)
      modifies this
      ensures runs == Upserted(old(runs), incoming)
    {
      var run := incoming;
      if run.id in runs {
        run := PreserveExecutionLease(runs[run.id], run);
      }
      runs := runs[run.id := run];
    }

    method ClaimRunExecution(runID: string, leaseID: string, now: int, ttl: int) returns (result: ClaimResult)
      modifies this
      ensures (runs, result) == AfterClaim(old(runs), runID, leaseID, now, ttl)
      ensures result.Claimed? <==> runID in old(runs) && Free(old(runs)[runID], leaseID, now)
      ensures if result.Claimed? then LeasedTo(old(runs), runs, runID, leaseID, now, ttl) else runs == old(runs)
    {
      if runID !in runs {
        return ClaimNotFound;
      }
      var run := runs[runID];
      if LeaseIsActive(run, now) && run.leaseID != leaseID {
        return Refused(run);
      }
      var heartbeatAt, leaseUntil := now, now + ttl;
      run := run.(leaseID := leaseID, heartbeatAt := Some(heartbeatAt), leaseUntil := Some(leaseUntil));
      runs := runs[runID := run];
      return Claimed(run);
    }

    method HeartbeatRunExecution(runID: string, leaseID: string, now: int, ttl: int) returns (result: RenewResult)
      modifies this
      ensures (runs, result) == AfterHeartbeat(old(runs), runID, leaseID, now, ttl)
      ensures result.Renewed? <==> runID in old(runs) && old(runs)[runID].leaseID == leaseID
      ensures if result.Renewed? then LeasedTo(old(runs), runs, runID, leaseID, now, ttl) else runs == old(runs)
    {
      if runID !in runs {
        return NotFound;
      }
      var run := runs[runID];
      if run.leaseID != leaseID {
        return Mismatch;
      }
      var heartbeatAt, leaseUntil := now, now + ttl;
      run := run.(heartbeatAt := Some(heartbeatAt), leaseUntil := Some(leaseUntil));
      runs := runs[runID := run];
      return Renewed;
    }

    method ReleaseRunExecution(runID: string, leaseID: string) returns (result: RenewResult)
      modifies this
      ensures (runs, result) == AfterRelease(old(runs), runID, leaseID)
      ensures result.Renewed? <==> runID in old(runs) && (old(runs)[runID].leaseID == "" || old(runs)[runID].leaseID == leaseID)
      ensures if result.Renewed? then runID in runs && forall w, t :: Free(runs[runID], w, t) else runs == old(runs)
    {
      if runID !in runs {
        return NotFound;
      }
      var run := runs[runID];
      if run.leaseID != "" && run.leaseID != leaseID {
        return Mismatch;
      }
      run := run.(leaseID := "", heartbeatAt := None, leaseUntil := None);
      runs := runs[runID := run];
      return Renewed;
    }
  }

  // ----- the protocol -----

  /** A worker is its lease id. The now of a renewal is read before the store's
      lock is taken, so it may lie behind the clock. */
  datatype Event =
    | Claim(run: string, worker: string, now: int, ttl: int)
    | Heartbeat(run: string, worker: string, now: int, ttl: int)
    | Release(run: string, worker: string)
    | Upsert(record: RunRecord)
    | Tick(to: int)

  /** held is what each worker knows: the end of the lease by its own last
      successful renewal on that run. */
  datatype System = System(runs: Runs, clock: int, held: map<(string, string), int>)

  predicate Allowed(s: System, e: Event) {
    match e
    case Claim(_, worker, now, ttl) => worker != "" && now <= s.clock
    case Heartbeat(_, worker, now, ttl) => worker != "" && now <= s.clock
    case Release(_, worker) => worker != ""
    case Upsert(record) => record.leaseID == ""
    case Tick(to) => s.clock <= to
  }

  function Step(s: System, e: Event): System {
    if !Allowed(s, e) then s else
    match e
    case Claim(run, worker, now, ttl) =>
      var (runs, result) := AfterClaim(s.runs, run, worker, now, ttl);
      s.(runs := runs, held := if result.Claimed? then s.held[(run, worker) := now + ttl] else s.held)
    case Heartbeat(run, worker, now, ttl) =>
      var (runs, result) := AfterHeartbeat(s.runs, run, worker, now, ttl);
      s.(runs := runs, held := if result == Renewed then s.held[(run, worker) := now + ttl] else s.held)
    case Release(run, worker) =>
      var (runs, result) := AfterRelease(s.runs, run, worker);
      s.(runs := runs, held := if result == Renewed then s.held - {(run, worker)} else s.held)
    case Upsert(record) => s.(runs := Upserted(s.runs, record))
    case Tick(to) => s.(clock := to)
  }

  function RunEvents(s: System, es: seq<Event>): System
    decreases |es|
  {
    if es == [] then s else RunEvents(Step(s, es[0]), es[1..])
  }

  ghost predicate Unexpired(s: System, run: string, worker: string) {
    (run, worker) in s.held && s.held[(run, worker)] > s.clock
  }

  ghost predicate Holds(s: System, run: string, worker: string, until: int) {
    run in s.runs && s.runs[run].leaseID == worker && s.runs[run].leaseUntil == Some(until)
  }

  /** Whoever may still think it holds a run's lease is the stored holder. */
  ghost predicate LeaseInv(s: System) {
    && (forall run, worker :: (run, worker) in s.held ==> worker != "")
    && (forall run, worker :: Unexpired(s, run, worker) ==> Holds(s, run, worker, s.held[(run, worker)]))
  }

  /** A claim by anyone else is refused while the lease is unexpired, even
      when the claimant's clock reading is stale. */
  lemma ActiveRefuses(s: System, run: string, worker: string, other: string, now: int, ttl: int)
    requires LeaseInv(s) && Unexpired(s, run, worker) && other != worker && now <= s.clock
    ensures AfterClaim(s.runs, run, other, now, ttl) == (s.runs, Refused(s.runs[run]))
  {
    assert Holds(s, run, worker, s.held[(run, worker)]);
  }

  lemma StepKeepsLease(s: System, e: Event)
    requires LeaseInv(s)
    ensures LeaseInv(Step(s, e))
  {
    var t := Step(s, e);
    forall run, worker | Unexpired(t, run, worker) ensures Holds(t, run, worker, t.held[(run, worker)]) {
      if Unexpired(s, run, worker) {
        assert Holds(s, run, worker, s.held[(run, worker)]);
        if e.Claim? && e.run == run && e.worker != worker && Allowed(s, e) {
          ActiveRefuses(s, run, worker, e.worker, e.now, e.ttl);
        }
      }
    }
  }

  lemma {:induction false} EveryRunKeepsLease(s: System, es: seq<Event>)
    requires LeaseInv(s)
    ensures LeaseInv(RunEvents(s, es))
    decreases |es|
  {
    if es != [] {
      StepKeepsLease(s, es[0]);
      EveryRunKeepsLease(Step(s, es[0]), es[1..]);
    }
  }

  /** Mutual exclusion, in every interleaving from any store nobody holds a
      lease in: two workers never both have an unexpired lease on a run by
      their own last renewal, and the stored lease id is the one that does. */
  lemma MutualExclusion(runs: Runs, clock: int, es: seq<Event>, run: string, a: string, b: string)
    ensures var s := RunEvents(System(runs, clock, map[]), es);
            && (Unexpired(s, run, a) && Unexpired(s, run, b) ==> a == b)
            && (Unexpired(s, run, a) ==> run in s.runs && s.runs[run].leaseID == a)
  {
    EveryRunKeepsLease(System(runs, clock, map[]), es);
  }

  // ----- a live holder is never displaced -----

  /** The worker stays alive through the events, judged by the events alone:
      the clock never reaches the end of its last renewal, its renewals are not
      stale beyond their own lease, and it does not release. */
  ghost predicate StaysAlive(es: seq<Event>, run: string, worker: string, clock: int, until: int)
    decreases |es|
  {
    if es == [] then true
    else
      var rest := es[1..];
      match es[0]
      case Tick(to) => if to < clock then StaysAlive(rest, run, worker, clock, until)
                       else to < until && StaysAlive(rest, run, worker, to, until)
      case Claim(r, w, now, ttl) =>
        if r == run && w == worker && now <= clock then now + ttl > clock && StaysAlive(rest, run, worker, clock, now + ttl)
        else StaysAlive(rest, run, worker, clock, until)
      case Heartbeat(r, w, now, ttl) =>
        if r == run && w == worker && now <= clock then now + ttl > clock && StaysAlive(rest, run, worker, clock, now + ttl)
        else StaysAlive(rest, run, worker, clock, until)
      case Release(r, w) => !(r == run && w == worker) && StaysAlive(rest, run, worker, clock, until)
      case Upsert(_) => StaysAlive(rest, run, worker, clock, until)
  }

  /** What the holder is owed by one event. */
  ghost predicate Undisturbed(s: System, e: Event, run: string, worker: string) {
    match e
    case Claim(r, w, now, ttl) =>
      r == run && w != worker && Allowed(s, e) ==>
        run in s.runs && AfterClaim(s.runs, r, w, now, ttl) == (s.runs, Refused(s.runs[run]))
    case Heartbeat(r, w, now, ttl) =>
      r == run && Allowed(s, e) ==>
        AfterHeartbeat(s.runs, r, w, now, ttl).1 == if w == worker then Renewed else Mismatch
    case Release(r, w) => r == run && w != worker ==> AfterRelease(s.runs, r, w) == (s.runs, Mismatch)
    case Upsert(record) =>
      record.id == run && Allowed(s, e) ==>
        run in s.runs && Upserted(s.runs, record)[run].leaseID == worker
        && Upserted(s.runs, record)[run].leaseUntil == s.runs[run].leaseUntil
    case Tick(_) => true
  }

  /** A worker that renews in time keeps its lease through everything the
      others and the service do: every other claim is refused, no other release
      or heartbeat touches the lease, and no upsert drops it. */
  lemma {:induction false} LiveHolderStays(s: System, es: seq<Event>, run: string, worker: string, until: int)
    requires worker != "" && Holds(s, run, worker, until) && s.clock < until
    requires StaysAlive(es, run, worker, s.clock, until)
    ensures forall i :: 0 <= i < |es| ==> Undisturbed(RunEvents(s, es[..i]), es[i], run, worker)
    ensures var t := RunEvents(s, es);
            run in t.runs && t.runs[run].leaseID == worker && LeaseIsActive(t.runs[run], t.clock)
    decreases |es|
  {
    if es != [] {
      var next := Step(s, es[0]);
      var until' := next.runs[run].leaseUntil.value;
      LiveHolderStays(next, es[1..], run, worker, until');
      forall i | 0 <= i < |es| ensures Undisturbed(RunEvents(s, es[..i]), es[i], run, worker) {
        if i > 0 {
          assert es[..i][1..] == es[1..][..i - 1];
          assert Undisturbed(RunEvents(next, es[1..][..i - 1]), es[1..][i - 1], run, worker);
        }
      }
    }
  }

  // ----- the worker's configuration -----

  datatype WorkerConfig = WorkerConfig(leaseTTL: int, heartbeatInterval: int)

  datatype Result<+T> = Ok(value: T) | Err(message: string)

  const MINUTE := 60

  /** NewWorker's defaults and its one check, in seconds. */
  function NewWorker(cfg: WorkerConfig): Result<WorkerConfig> {
    var ttl := if cfg.leaseTTL <= 0 then 15 * MINUTE else cfg.leaseTTL;
    var interval := if cfg.heartbeatInterval <= 0 then MINUTE else cfg.heartbeatInterval;
    if interval >= ttl then Err("heartbeat interval must be shorter than the lease TTL")
    else Ok(WorkerConfig(ttl, interval))
  }

  /** The worker renews with the time it reads on the clock, and the clock
      never runs more than the heartbeat interval past its last renewal. */
  ghost predicate OnSchedule(es: seq<Event>, run: string, worker: string, clock: int, last: int, w: WorkerConfig)
    decreases |es|
  {
    if es == [] then true
    else
      var rest := es[1..];
      match es[0]
      case Tick(to) => if to < clock then OnSchedule(rest, run, worker, clock, last, w)
                       else to <= last + w.heartbeatInterval && OnSchedule(rest, run, worker, to, last, w)
      case Heartbeat(r, v, now, ttl) =>
        if r == run && v == worker then now == clock && ttl == w.leaseTTL && OnSchedule(rest, run, worker, clock, clock, w)
        else OnSchedule(rest, run, worker, clock, last, w)
      case Claim(r, v, _, _) => !(r == run && v == worker) && OnSchedule(rest, run, worker, clock, last, w)
      case Release(r, v) => !(r == run && v == worker) && OnSchedule(rest, run, worker, clock, last, w)
      case Upsert(_) => OnSchedule(rest, run, worker, clock, last, w)
  }

  lemma {:induction false} ScheduleStaysAlive(es: seq<Event>, run: string, worker: string, clock: int, last: int, w: WorkerConfig)
    requires 0 < w.heartbeatInterval < w.leaseTTL
    requires OnSchedule(es, run, worker, clock, last, w)
    ensures StaysAlive(es, run, worker, clock, last + w.leaseTTL)
    decreases |es|
  {
    if es != [] {
      match es[0]
      case Tick(to) => ScheduleStaysAlive(es[1..], run, worker, if to < clock then clock else to, last, w);
      case Heartbeat(r, v, now, ttl) =>
        ScheduleStaysAlive(es[1..], run, worker, clock, if r == run && v == worker then clock else last, w);
      case _ => ScheduleStaysAlive(es[1..], run, worker, clock, last, w);
    }
  }

  /** Any worker NewWorker accepts, once its claim succeeds, holds its run
      against everyone until it releases, as long as its ticker keeps firing. */
  lemma AcceptedWorkerKeepsItsRun(s: System, run: string, worker: string, cfg: WorkerConfig, es: seq<Event>)
    requires worker != "" && NewWorker(cfg).Ok?
    requires AfterClaim(s.runs, run, worker, s.clock, NewWorker(cfg).value.leaseTTL).1.Claimed?
    requires OnSchedule(es, run, worker, s.clock, s.clock, NewWorker(cfg).value)
    ensures var t := Step(s, Claim(run, worker, s.clock, NewWorker(cfg).value.leaseTTL));
            && (forall i :: 0 <= i < |es| ==> Undisturbed(RunEvents(t, es[..i]), es[i], run, worker))
            && run in RunEvents(t, es).runs && RunEvents(t, es).runs[run].leaseID == worker
  {
    var w := NewWorker(cfg).value;
    var t := Step(s, Claim(run, worker, s.clock, w.leaseTTL));
    ScheduleStaysAlive(es, run, worker, s.clock, s.clock, w);
    LiveHolderStays(t, es, run, worker, s.clock + w.leaseTTL);
  }

  /** Blankness of the upserted lease is what all this rests on: over a held
      run, an upsert keeps the lease exactly when its own lease id is blank or
      its lease is the stored one. */
  lemma UpsertKeepsLeaseIff(runs: Runs, record: RunRecord)
    requires record.id in runs && runs[record.id].leaseID != ""
    ensures WithoutLease(Upserted(runs, record)[record.id]) == WithoutLease(record)
    ensures var before, after := runs[record.id], Upserted(runs, record)[record.id];
            (after.leaseID == before.leaseID && after.heartbeatAt == before.heartbeatAt && after.leaseUntil == before.leaseUntil)
            <==> record.leaseID == ""
                 || (record.leaseID == before.leaseID && record.heartbeatAt == before.heartbeatAt
                     && record.leaseUntil == before.leaseUntil)
  {
  }

  /** An upsert stores the record under its id, with the stored lease where it
      brings none itself. */
  lemma UpsertStores(runs: Runs, record: RunRecord)
    ensures var after := Upserted(runs, record);
            && after.Keys == runs.Keys + {record.id} && (forall id :: id in runs && id != record.id ==> after[id] == runs[id])
            && after[record.id].id == record.id && after[record.id].body == record.body
            && var lease := if record.leaseID == "" && record.id in runs && runs[record.id].leaseID != "" then runs[record.id] else record;
               && after[record.id].leaseID == lease.leaseID
               && after[record.id].heartbeatAt == lease.heartbeatAt && after[record.id].leaseUntil == lease.leaseUntil
  {
  }

  // ----- a crashed worker's run is taken over -----

  /** The clock never runs backwards. */
  lemma {:induction false} ClockAdvances(s: System, es: seq<Event>)
    ensures s.clock <= RunEvents(s, es).clock
    decreases |es|
  {
    if es != [] {
      ClockAdvances(Step(s, es[0]), es[1..]);
    }
  }

  /** The holder does nothing on the run and nobody else gets it: claims come
      too early, and upserts are blank. */
  ghost predicate Silent(e: Event, run: string, worker: string, until: int) {
    match e
    case Claim(r, w, now, _) => r == run ==> w != worker && now < until
    case Heartbeat(r, w, _, _) => r == run ==> w != worker
    case Release(r, w) => r == run ==> w != worker
    case Upsert(_) => true
    case Tick(_) => true
  }

  lemma SilentStep(s: System, e: Event, run: string, worker: string, until: int)
    requires worker != "" && Holds(s, run, worker, until) && Silent(e, run, worker, until)
    ensures Holds(Step(s, e), run, worker, until)
  {
  }

  /** A lease nobody renews stays stored as it is... */
  lemma {:induction false} SilenceKeepsLease(s: System, es: seq<Event>, run: string, worker: string, until: int)
    requires worker != "" && Holds(s, run, worker, until)
    requires forall i :: 0 <= i < |es| ==> Silent(es[i], run, worker, until)
    ensures Holds(RunEvents(s, es), run, worker, until)
    decreases |es|
  {
    if es != [] {
      SilentStep(s, es[0], run, worker, until);
      SilenceKeepsLease(Step(s, es[0]), es[1..], run, worker, until);
    }
  }

  /** ...and in every reachable system, whether a stored lease refuses a claim
      made at the clock depends on its end alone: before it every other worker
      is refused, from then on any worker's claim makes it the stored holder
      until a TTL later. */
  lemma TakenOverIff(runs: Runs, clock: int, es: seq<Event>, run: string, other: string, ttl: int)
    requires other != ""
    requires var s := RunEvents(System(runs, clock, map[]), es);
             run in s.runs && s.runs[run].leaseID != other && s.runs[run].leaseID != "" && s.runs[run].leaseUntil.Some?
    ensures var s := RunEvents(System(runs, clock, map[]), es);
            var t := Step(s, Claim(run, other, s.clock, ttl));
            && (Holds(t, run, other, s.clock + ttl) <==> s.runs[run].leaseUntil.value <= s.clock)
            && (s.runs[run].leaseUntil.value > s.clock ==> t == s)
            && (s.runs[run].leaseUntil.value <= s.clock ==>
                  && LeasedTo(s.runs, t.runs, run, other, s.clock, ttl)
                  && t.held == s.held[(run, other) := s.clock + ttl]
                  && (forall worker :: !Unexpired(s, run, worker))
                  && LeaseInv(t))
  {
    var s := RunEvents(System(runs, clock, map[]), es);
    EveryRunKeepsLease(System(runs, clock, map[]), es);
    StepKeepsLease(s, Claim(run, other, s.clock, ttl));
    forall worker | Unexpired(s, run, worker) ensures s.runs[run].leaseUntil.value > s.clock {
      assert Holds(s, run, worker, s.held[(run, worker)]);
    }
  }

  /** So the run of a worker that crashed is refused to others until its last
      lease ends and not a moment longer. */
  lemma CrashedWorkerIsReplaced(s: System, es: seq<Event>, run: string, worker: string, other: string, until: int, ttl: int)
    requires worker != "" && other != "" && other != worker && Holds(s, run, worker, until)
    requires forall i :: 0 <= i < |es| ==> Silent(es[i], run, worker, until)
    ensures var t := RunEvents(s, es);
            && (AfterClaim(t.runs, run, other, t.clock, ttl).1.Claimed? <==> until <= t.clock)
            && (until <= t.clock ==> Holds(Step(t, Claim(run, other, t.clock, ttl)), run, other, t.clock + ttl))
  {
    SilenceKeepsLease(s, es, run, worker, until);
  }

  /** What NewWorker accepts, in seconds: a quarter of an hour and a minute
      unless given, the second shorter than the first. */
  lemma NewWorkerIff(cfg: WorkerConfig)
    ensures var ttl := if cfg.leaseTTL > 0 then cfg.leaseTTL else 900;
            var interval := if cfg.heartbeatInterval > 0 then cfg.heartbeatInterval else 60;
            && (NewWorker(cfg).Ok? <==> interval < ttl)
            && (NewWorker(cfg).Ok? ==> NewWorker(cfg).value == WorkerConfig(ttl, interval))
  {
  }
}
