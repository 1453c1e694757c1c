/** The seed frontier of PipelineContext: what is known, waiting, active and
    only suspected, under a depth budget and one extra wave
    (internal/models/seed_frontier.go). */
module Frontiers {
  import opened Options
  import opened Text
  import opened Seeds

  datatype Candidate = Candidate(
    seed: Seed,
    evidence: seq<Evidence>,
    signals: set<string>,
    maxConfidence: real,
    reasoned: bool)

  /** The scheduler-owned fields of PipelineContext. */
  datatype Frontier = Frontier(
    seeds: seq<Seed>,
    active: seq<Seed>,
    pending: seq<Seed>,
    known: set<string>,
    candidates: map<string, Candidate>,
    depth: int,
    maxDepth: int,
    reserved: bool,
    inProgress: bool)

  datatype Mode = Reject | NextWave | RegisterOnly

  datatype Decision = Accepted | PendingReview | Rejected

  /** The installed promotion handler, as an oracle: absent, one of the three
      decisions, or a string that is none of them. */
  datatype Reply = NoHandler | Says(decision: Decision) | SaysOther

  datatype Result = Result(decision: Option<Decision>, scheduled: bool)

  const NOTHING := Result(None, false)

  function SchedulingMode(f: Frontier): Mode {
    if f.inProgress then RegisterOnly
    else if f.reserved then NextWave
    else if f.depth < f.maxDepth then NextWave
    else Reject
  }

  predicate ShouldPromote(c: Candidate) {
    c.reasoned || c.maxConfidence >= 0.9 || |c.signals| >= 2
  }

  function Keys(seeds: seq<Seed>): (keys: seq<string>)
    ensures |keys| == |seeds|
    ensures forall i :: 0 <= i < |seeds| ==> keys[i] == SeedKey(seeds[i])
  {
    seq(|seeds|, i requires 0 <= i < |seeds| => SeedKey(seeds[i]))
  }

  // ----- merging into seeds already stored -----

  function MergeWith(existing: Seed, incoming: Seed, evidence: seq<Evidence>): Seed {
    var m := MergeSeeds(existing, incoming);
    m.(evidence := MergeEvidence(m.evidence, evidence))
  }

  function MergeInto(seeds: seq<Seed>, key: string, incoming: Seed, evidence: seq<Evidence>): (merged: seq<Seed>)
    ensures |merged| == |seeds|
    ensures forall i :: 0 <= i < |seeds| ==>
                          merged[i] == if SeedKey(seeds[i]) == key then MergeWith(seeds[i], incoming, evidence) else seeds[i]
  {
    seq(|seeds|, i requires 0 <= i < |seeds| =>
      if SeedKey(seeds[i]) == key then MergeWith(seeds[i], incoming, evidence) else seeds[i])
  }

  function MergeCandidate(c: Candidate, seed: Seed, evidence: seq<Evidence>): Candidate {
    c.(
      seed := MergeSeeds(c.seed, seed),
      evidence := MergeEvidence(MergeEvidence(c.evidence, seed.evidence), evidence),
      maxConfidence := if seed.confidence > c.maxConfidence then seed.confidence else c.maxConfidence,
      reasoned := c.reasoned || HasReasoned(seed.evidence) || HasReasoned(evidence))
  }

  function MergeAcross(f: Frontier, seed: Seed, evidence: seq<Evidence>): Frontier {
    var key := SeedKey(seed);
    f.(
      seeds := MergeInto(f.seeds, key, seed, evidence),
      active := MergeInto(f.active, key, seed, evidence),
      pending := MergeInto(f.pending, key, seed, evidence),
      candidates := if key in f.candidates
                    then f.candidates[key := MergeCandidate(f.candidates[key], seed, evidence)]
                    else f.candidates)
  }

  // ----- the operations, on values -----

  /** A submitted seed under the key it was first filed by. */
  datatype Filed = Filed(key: string, seed: Seed)

  function FiledKeys(order: seq<Filed>): (keys: seq<string>)
    ensures |keys| == |order|
    ensures forall i :: 0 <= i < |order| ==> keys[i] == order[i].key
  {
    seq(|order|, i requires 0 <= i < |order| => order[i].key)
  }

  function FiledSeeds(order: seq<Filed>): (seeds: seq<Seed>)
    ensures |seeds| == |order|
    ensures forall i :: 0 <= i < |order| ==> seeds[i] == order[i].seed
  {
    seq(|order|, i requires 0 <= i < |order| => order[i].seed)
  }

  function Absorb(order: seq<Filed>, seed: Seed): (next: seq<Filed>)
    ensures SeedKey(seed) in FiledKeys(order) ==> FiledKeys(next) == FiledKeys(order)
    ensures SeedKey(seed) !in FiledKeys(order) ==> FiledKeys(next) == FiledKeys(order) + [SeedKey(seed)]
  {
    if SeedKey(seed) in FiledKeys(order)
    then seq(|order|, i requires 0 <= i < |order| =>
        if order[i].key == SeedKey(seed) then order[i].(seed := MergeSeeds(order[i].seed, seed)) else order[i])
    else order + [Filed(SeedKey(seed), seed)]
  }

  function Dedupe(raw: seq<Seed>): seq<Filed> {
    if raw == [] then [] else Absorb(Dedupe(raw[..|raw| - 1]), NormalizeSeed(raw[|raw| - 1]))
  }

  function KeySet(seeds: seq<Seed>): set<string> {
    set i | 0 <= i < |seeds| :: SeedKey(seeds[i])
  }

  function FiledKeySet(order: seq<Filed>): set<string> {
    set i | 0 <= i < |order| :: order[i].key
  }

  function Initialized(raw: seq<Seed>, maxDepth: int): Frontier {
    var order := Dedupe(raw);
    var seeds := FiledSeeds(order);
    Frontier(seeds, seeds, [], FiledKeySet(order), map[], 0, if maxDepth < 0 then 0 else maxDepth, false, false)
  }

  function Enqueued(f: Frontier, raw: Seed): (Frontier, bool) {
    var mode := SchedulingMode(f);
    if mode == Reject then (f, false)
    else
      var seed := NormalizeSeed(raw);
      var key := SeedKey(seed);
      if key in f.known then (MergeAcross(f, seed, []), false)
      else
        var f1 := f.(candidates := f.candidates - {key}, known := f.known + {key}, seeds := f.seeds + [seed]);
        if mode == NextWave then (f1.(pending := f.pending + [seed]), true) else (f1, false)
  }

  /** The candidate record of a key with one more seed submitted under it... */
  function Seeded(previous: Option<Candidate>, seed: Seed): Candidate {
    match previous
    case None => Candidate(seed, seed.evidence, {}, seed.confidence, HasReasoned(seed.evidence))
    case Some(c) => MergeCandidate(c, seed, [])
  }

  /** ...and the evidence that came with it. */
  function Witnessed(c: Candidate, e: Evidence): Candidate {
    var c1 := c.(evidence := MergeEvidence(c.evidence, [e]), reasoned := c.reasoned || e.reasoned);
    if e.source != "" && e.kind != ""
    then c1.(
      signals := c1.signals + {e.source + "|" + e.kind},
      maxConfidence := if e.confidence > c1.maxConfidence then e.confidence else c1.maxConfidence)
    else c1
  }

  /** The candidate record after one more promotion of its key. */
  function Accumulate(previous: Option<Candidate>, seed: Seed, e: Evidence): Candidate {
    Witnessed(Seeded(previous, seed), e)
  }

  function Materialized(f: Frontier, key: string, c: Candidate, schedule: bool): Frontier {
    var promoted := c.seed.(confidence := c.maxConfidence, evidence := c.evidence);
    f.(
      candidates := f.candidates - {key},
      known := f.known + {key},
      seeds := f.seeds + [promoted],
      pending := if schedule then f.pending + [promoted] else f.pending)
  }

  function CandidateAt(f: Frontier, key: string): Option<Candidate> {
    if key in f.candidates then Some(f.candidates[key]) else None
  }

  /** The promotion of a key the frontier does not know yet. */
  function PromotedUnknown(f: Frontier, seed: Seed, e: Evidence, reply: Reply): (Frontier, Result) {
    Judged(f, SeedKey(seed), Accumulate(CandidateAt(f, SeedKey(seed)), seed, e), reply)
  }

  /** The gate, then the handler, on an updated candidate record. */
  function Judged(f: Frontier, key: string, c: Candidate, reply: Reply): (Frontier, Result) {
    var mode := SchedulingMode(f);
    var f1 := f.(candidates := f.candidates[key := c]);
    if !ShouldPromote(c) then
      if mode == RegisterOnly then (Materialized(f1, key, c, false), NOTHING) else (f1, NOTHING)
    else if reply == Says(PendingReview) || reply == Says(Rejected) then
      (f1.(candidates := f1.candidates - {key}), Result(Some(reply.decision), false))
    else
      (Materialized(f1, key, c, mode == NextWave), Result(Some(Accepted), mode == NextWave))
  }

  /** A promotion as the handler sees it. */
  datatype Request = Request(key: string, seed: Seed, confidence: real, reasoned: bool)

  /** A promotion up to the handler: what it has left of the frontier by then,
      and the request if it gets that far... */
  function Considered(f: Frontier, raw: Seed, rawEvidence: Evidence): (Frontier, Option<Request>) {
    var seed, e := NormalizeSeed(raw), NormalizeEvidence(rawEvidence);
    var key := SeedKey(seed);
    if SchedulingMode(f) == Reject then (f, None)
    else if key in f.known then (MergeAcross(f, seed, [e]), None)
    else
      var c := Accumulate(CandidateAt(f, key), seed, e);
      var f1 := f.(candidates := f.candidates[key := c]);
      if ShouldPromote(c) then (f1, Some(Request(key, NormalizeSeed(c.seed), c.maxConfidence, c.reasoned)))
      else if SchedulingMode(f) == RegisterOnly then (Materialized(f1, key, c, false), None)
      else (f1, None)
  }

  /** ...and from its answer on. */
  function Concluded(f: Frontier, key: string, reply: Reply): (Frontier, Result)
    requires key in f.candidates
  {
    if reply == Says(PendingReview) || reply == Says(Rejected) then
      (f.(candidates := f.candidates - {key}), Result(Some(reply.decision), false))
    else
      var next := SchedulingMode(f) == NextWave;
      (Materialized(f, key, f.candidates[key], next), Result(Some(Accepted), next))
  }

  function Promoted(f: Frontier, raw: Seed, rawEvidence: Evidence, reply: Reply): (Frontier, Result) {
    var mode := SchedulingMode(f);
    if mode == Reject then (f, NOTHING)
    else
      var seed := NormalizeSeed(raw);
      var e := NormalizeEvidence(rawEvidence);
      var key := SeedKey(seed);
      if key in f.known then (MergeAcross(f, seed, [e]), NOTHING)
      else PromotedUnknown(f, seed, e, reply)
  }

  function Reserved(f: Frontier): (Frontier, bool) {
    if f.reserved || f.inProgress then (f, false) else (f.(reserved := true), true)
  }

  function Advanced(f: Frontier): (Frontier, bool) {
    if f.pending == [] then (f.(reserved := f.reserved && f.inProgress, active := []), false)
    else if f.reserved && !f.inProgress then
      (f.(reserved := false, inProgress := true, active := f.pending, pending := []), true)
    else if f.inProgress then (f.(active := [], pending := []), false)
    else (f.(depth := f.depth + 1, active := f.pending, pending := []), true)
  }

  /** SchedulerState: what a checkpoint keeps besides the seeds themselves. */
  datatype SchedulerState = SchedulerState(
    active: seq<Seed>,
    pending: seq<Seed>,
    depth: int,
    maxDepth: int,
    reserved: bool,
    inProgress: bool)

  function Snapshot(f: Frontier): SchedulerState {
    SchedulerState(f.active, f.pending, f.depth, f.maxDepth, f.reserved, f.inProgress)
  }

  function Restored(seeds: seq<Seed>, s: SchedulerState): Frontier {
    Frontier(seeds, s.active, s.pending, KeySet(seeds), map[], s.depth, s.maxDepth, s.reserved, s.inProgress)
  }

  // ----- the frontier invariant -----

  ghost predicate AllStorable(seeds: seq<Seed>) {
    forall i :: 0 <= i < |seeds| ==> Storable(seeds[i])
  }

  ghost predicate Bounded(f: Frontier) {
    && 0 <= f.depth <= f.maxDepth
    && !(f.reserved && f.inProgress)
    && (f.inProgress ==> f.pending == [])
    && (f.pending != [] && !f.reserved ==> f.depth < f.maxDepth)
  }

  ghost predicate Registered(f: Frontier) {
    && AllStorable(f.seeds) && AllStorable(f.active) && AllStorable(f.pending)
    && Distinct(Keys(f.seeds))
    && f.known == KeySet(f.seeds)
    && Distinct(Keys(f.active) + Keys(f.pending))
    && (forall k :: k in Keys(f.active) + Keys(f.pending) ==> k in f.known)
  }

  /** No stored candidate is known, and none already passes the gate. */
  ghost predicate Waiting(f: Frontier) {
    forall k :: k in f.candidates ==>
                  && k !in f.known
                  && Storable(f.candidates[k].seed)
                  && SeedKey(f.candidates[k].seed) == k
                  && !ShouldPromote(f.candidates[k])
  }

  ghost predicate Inv(f: Frontier) {
    Bounded(f) && Registered(f) && Waiting(f)
  }

  // ----- initialisation -----

  /** The distinct keys in first-seen order. */
  function FirstSeen(keys: seq<string>): seq<string> {
    if keys == [] then []
    else
      var front := FirstSeen(keys[..|keys| - 1]);
      if keys[|keys| - 1] in front then front else front + [keys[|keys| - 1]]
  }

  ghost function NormalizedKeys(raw: seq<Seed>): (keys: seq<string>)
    ensures |keys| == |raw|
  {
    seq(|raw|, i requires 0 <= i < |raw| => SeedKey(NormalizeSeed(raw[i])))
  }

  ghost predicate AllCommaFree(raw: seq<Seed>) {
    forall i :: 0 <= i < |raw| ==> CommaFree(raw[i].domains)
  }

  /** Seeds filed under their own, distinct keys. */
  ghost predicate WellFiled(order: seq<Filed>) {
    && Distinct(FiledKeys(order))
    && forall i :: 0 <= i < |order| ==> Storable(order[i].seed) && SeedKey(order[i].seed) == order[i].key
  }

  lemma AbsorbFiles(order: seq<Filed>, seed: Seed)
    requires WellFiled(order) && Storable(seed)
    ensures WellFiled(Absorb(order, seed))
  {
    forall i | 0 <= i < |order| && order[i].key == SeedKey(seed)
      ensures SeedKey(MergeSeeds(order[i].seed, seed)) == SeedKey(seed) && Storable(MergeSeeds(order[i].seed, seed))
    {
      MergeKeepsKey(order[i].seed, seed);
    }
    if SeedKey(seed) !in FiledKeys(order) {
      forall i | 0 <= i < |order| ensures order[i].key != SeedKey(seed) {
        assert FiledKeys(order)[i] in FiledKeys(order);
      }
    }
  }

  /** Deduplication leaves one seed per distinct submitted key, in the order
      the keys were first seen... */
  lemma {:induction false} DedupeKeys(raw: seq<Seed>)
    ensures FiledKeys(Dedupe(raw)) == FirstSeen(NormalizedKeys(raw))
  {
    if raw == [] {
      assert NormalizedKeys(raw) == [];
    } else {
      var front, last := raw[..|raw| - 1], raw[|raw| - 1];
      DedupeKeys(front);
      FirstSeenStep(front, last);
      assert front + [last] == raw;
    }
  }

  /** ...and each under the key the scheduler will compute for it again. */
  lemma {:induction false} DedupeFiles(raw: seq<Seed>)
    requires AllCommaFree(raw)
    ensures WellFiled(Dedupe(raw))
  {
    if raw != [] {
      var front, last := raw[..|raw| - 1], raw[|raw| - 1];
      DedupeFiles(front);
      NormalizeIsStorable(last);
      AbsorbFiles(Dedupe(front), NormalizeSeed(last));
    }
  }

  lemma FirstSeenStep(front: seq<Seed>, last: Seed)
    ensures var key := SeedKey(NormalizeSeed(last));
            var before := FirstSeen(NormalizedKeys(front));
            FirstSeen(NormalizedKeys(front + [last])) == if key in before then before else before + [key]
  {
    var keys := NormalizedKeys(front + [last]);
    assert keys[..|front|] == NormalizedKeys(front);
  }

  lemma KeySetIsKeys(seeds: seq<Seed>)
    ensures forall k :: k in KeySet(seeds) <==> k in Keys(seeds)
  {
    forall k ensures k in KeySet(seeds) <==> k in Keys(seeds) {
      if k in Keys(seeds) {
        var i :| 0 <= i < |seeds| && Keys(seeds)[i] == k;
      }
      if k in KeySet(seeds) {
        var i :| 0 <= i < |seeds| && SeedKey(seeds[i]) == k;
        assert Keys(seeds)[i] == k;
      }
    }
  }

  lemma InitializedInv(raw: seq<Seed>, maxDepth: int)
    requires AllCommaFree(raw)
    ensures var f := Initialized(raw, maxDepth);
            Inv(f) && Keys(f.active) == FirstSeen(NormalizedKeys(raw)) && f.candidates == map[]
            && f.maxDepth == if maxDepth < 0 then 0 else maxDepth
  {
    DedupeKeys(raw);
    DedupeFiles(raw);
    var order := Dedupe(raw);
    var seeds := FiledSeeds(order);
    assert Keys(seeds) == FiledKeys(order);
    KeySetIsKeys(seeds);
    assert Keys(seeds) + Keys([]) == Keys(seeds);
  }

  // ----- what one operation does to the keys -----

  lemma MergeIntoKeepsKeys(seeds: seq<Seed>, key: string, incoming: Seed, evidence: seq<Evidence>)
    requires AllStorable(seeds) && Storable(incoming) && SeedKey(incoming) == key
    ensures Keys(MergeInto(seeds, key, incoming, evidence)) == Keys(seeds)
    ensures AllStorable(MergeInto(seeds, key, incoming, evidence))
    ensures KeySet(MergeInto(seeds, key, incoming, evidence)) == KeySet(seeds)
  {
    var merged := MergeInto(seeds, key, incoming, evidence);
    forall i | 0 <= i < |seeds| ensures SeedKey(merged[i]) == SeedKey(seeds[i]) && Storable(merged[i]) {
      if SeedKey(seeds[i]) == key {
        MergeKeepsKey(seeds[i], incoming);
        var m := MergeSeeds(seeds[i], incoming);
        KeyIgnoresEvidence(m, m.confidence, MergeEvidence(m.evidence, evidence));
        assert merged[i] == m.(confidence := m.confidence, evidence := MergeEvidence(m.evidence, evidence));
      }
    }
    KeySetIsKeys(seeds);
    KeySetIsKeys(merged);
    assert Keys(merged) == Keys(seeds);
  }

  /** In-place merges never change a known key; and since no candidate is
      known, the candidate branch of the merge is dead. */
  lemma MergeAcrossKeepsKeys(f: Frontier, seed: Seed, evidence: seq<Evidence>)
    requires Inv(f) && Storable(seed) && SeedKey(seed) in f.known
    ensures var g := MergeAcross(f, seed, evidence);
            && Inv(g) && g.candidates == f.candidates && g.known == f.known
            && Keys(g.seeds) == Keys(f.seeds) && Keys(g.active) == Keys(f.active) && Keys(g.pending) == Keys(f.pending)
  {
    MergeIntoKeepsKeys(f.seeds, SeedKey(seed), seed, evidence);
    MergeIntoKeepsKeys(f.active, SeedKey(seed), seed, evidence);
    MergeIntoKeepsKeys(f.pending, SeedKey(seed), seed, evidence);
  }

  /** What EnqueueSeed and PromoteSeedCandidate may do, seen through the keys:
      nothing, register one new key, or register and schedule it. */
  ghost predicate KeyEffect(f: Frontier, g: Frontier, key: string, scheduled: bool) {
    && g.(seeds := f.seeds, active := f.active, pending := f.pending, known := f.known, candidates := f.candidates) == f
    && Keys(g.active) == Keys(f.active)
    && Keys(g.pending) == Keys(f.pending) + (if scheduled then [key] else [])
    && ((g.known == f.known && Keys(g.seeds) == Keys(f.seeds))
        || (key !in f.known && g.known == f.known + {key} && Keys(g.seeds) == Keys(f.seeds) + [key]))
    && (scheduled ==> key !in f.known && key in g.known && SchedulingMode(f) == NextWave)
  }

  lemma KeySetAppend(seeds: seq<Seed>, s: Seed)
    ensures KeySet(seeds + [s]) == KeySet(seeds) + {SeedKey(s)}
    ensures Keys(seeds + [s]) == Keys(seeds) + [SeedKey(s)]
  {
    var all := seeds + [s];
    forall k | k in KeySet(seeds) ensures k in KeySet(all) {
      var i :| 0 <= i < |seeds| && SeedKey(seeds[i]) == k;
      assert SeedKey(all[i]) == k;
    }
    assert SeedKey(all[|seeds|]) == SeedKey(s);
  }

  lemma NewKeyDistinct(keys: seq<string>, key: string)
    requires Distinct(keys) && key !in keys
    ensures Distinct(keys + [key])
  {
    forall i | 0 <= i < |keys| ensures keys[i] != key {
      assert keys[i] in keys;
    }
  }

  /** The frontier with one more key, scheduled or not. */
  function Registering(f: Frontier, s: Seed, schedule: bool): Frontier {
    f.(candidates := f.candidates - {SeedKey(s)}, known := f.known + {SeedKey(s)}, seeds := f.seeds + [s],
       pending := if schedule then f.pending + [s] else f.pending)
  }

  lemma RegisterEffect(f: Frontier, s: Seed, schedule: bool)
    requires SeedKey(s) !in f.known && (schedule ==> SchedulingMode(f) == NextWave)
    ensures KeyEffect(f, Registering(f, s, schedule), SeedKey(s), schedule)
  {
    KeySetAppend(f.seeds, s);
    KeySetAppend(f.pending, s);
    assert Keys(f.pending) + [] == Keys(f.pending);
  }

  lemma StorableAppend(seeds: seq<Seed>, s: Seed)
    requires AllStorable(seeds) && Storable(s)
    ensures AllStorable(seeds + [s])
  {
  }

  lemma NewKeyPlaced(active: seq<string>, pending: seq<string>, key: string, known: set<string>)
    requires Distinct(active + pending) && (forall k :: k in active + pending ==> k in known) && key !in known
    ensures Distinct(active + (pending + [key])) && forall k :: k in active + (pending + [key]) ==> k in known + {key}
  {
    NewKeyDistinct(active + pending, key);
    assert active + (pending + [key]) == active + pending + [key];
  }

  lemma RegisterRegisters(f: Frontier, s: Seed, schedule: bool)
    requires Registered(f) && Storable(s) && SeedKey(s) !in f.known
    ensures Registered(Registering(f, s, schedule))
  {
    RegisteredKeys(f, s);
    StorableAppend(f.seeds, s);
    if schedule {
      KeySetAppend(f.pending, s);
      StorableAppend(f.pending, s);
      NewKeyPlaced(Keys(f.active), Keys(f.pending), SeedKey(s), f.known);
    }
  }

  /** Registering a new key, with or without scheduling it, keeps the
      invariant. */
  lemma RegisterInv(f: Frontier, s: Seed, schedule: bool)
    requires Inv(f) && Storable(s) && SeedKey(s) !in f.known
    requires schedule ==> SchedulingMode(f) == NextWave
    ensures var g := Registering(f, s, schedule);
            Inv(g) && KeyEffect(f, g, SeedKey(s), schedule)
  {
    RegisterEffect(f, s, schedule);
    RegisterRegisters(f, s, schedule);
  }

  lemma RegisteredKeys(f: Frontier, s: Seed)
    requires Registered(f) && SeedKey(s) !in f.known
    ensures Keys(f.seeds + [s]) == Keys(f.seeds) + [SeedKey(s)] && Distinct(Keys(f.seeds + [s]))
    ensures KeySet(f.seeds + [s]) == f.known + {SeedKey(s)}
  {
    KeySetIsKeys(f.seeds);
    KeySetAppend(f.seeds, s);
    NewKeyDistinct(Keys(f.seeds), SeedKey(s));
  }

  lemma EnqueuedInv(f: Frontier, raw: Seed)
    requires Inv(f) && CommaFree(raw.domains)
    ensures var (g, scheduled) := Enqueued(f, raw);
            Inv(g) && KeyEffect(f, g, SeedKey(NormalizeSeed(raw)), scheduled)
  {
    var seed := NormalizeSeed(raw);
    NormalizeIsStorable(raw);
    if SchedulingMode(f) != Reject {
      if SeedKey(seed) in f.known {
        MergeAcrossKeepsKeys(f, seed, []);
      } else {
        RegisterInv(f, seed, SchedulingMode(f) == NextWave);
      }
    }
  }

  /** A candidate record keeps the key it is filed under. */
  lemma AccumulateKeepsKey(f: Frontier, seed: Seed, e: Evidence)
    requires Inv(f) && Storable(seed)
    ensures var c := Accumulate(CandidateAt(f, SeedKey(seed)), seed, e);
            Storable(c.seed) && SeedKey(c.seed) == SeedKey(seed)
  {
    if SeedKey(seed) in f.candidates {
      MergeKeepsKey(f.candidates[SeedKey(seed)].seed, seed);
    }
  }

  lemma JudgedHalves(f: Frontier, key: string, c: Candidate, reply: Reply)
    requires ShouldPromote(c)
    ensures Judged(f, key, c, reply) == Concluded(f.(candidates := f.candidates[key := c]), key, reply)
  {
  }

  /** The two halves make the whole. */
  lemma ConsideredThenConcluded(f: Frontier, raw: Seed, e: Evidence, reply: Reply)
    ensures var (g, request) := Considered(f, raw, e);
            && (request.Some? ==> request.value.key in g.candidates)
            && Promoted(f, raw, e, reply)
               == if request.Some? then Concluded(g, request.value.key, reply) else (g, NOTHING)
  {
    var seed := NormalizeSeed(raw);
    var c := Accumulate(CandidateAt(f, SeedKey(seed)), seed, NormalizeEvidence(e));
    if SchedulingMode(f) != Reject && SeedKey(seed) !in f.known && ShouldPromote(c) {
      JudgedHalves(f, SeedKey(seed), c, reply);
    }
  }

  lemma PromotedInv(f: Frontier, raw: Seed, rawEvidence: Evidence, reply: Reply)
    requires Inv(f) && CommaFree(raw.domains)
    ensures var (g, result) := Promoted(f, raw, rawEvidence, reply);
            Inv(g) && KeyEffect(f, g, SeedKey(NormalizeSeed(raw)), result.scheduled)
  {
    var seed := NormalizeSeed(raw);
    var e := NormalizeEvidence(rawEvidence);
    var key := SeedKey(seed);
    NormalizeIsStorable(raw);
    if SchedulingMode(f) == Reject {
    } else if key in f.known {
      MergeAcrossKeepsKeys(f, seed, [e]);
    } else {
      PromotedUnknownInv(f, seed, e, reply);
    }
  }

  lemma MaterializedInv(f: Frontier, key: string, c: Candidate, schedule: bool)
    requires Inv(f) && Storable(c.seed) && SeedKey(c.seed) == key && key !in f.known
    requires schedule ==> SchedulingMode(f) == NextWave
    ensures var g := Materialized(f.(candidates := f.candidates[key := c]), key, c, schedule);
            Inv(g) && KeyEffect(f, g, key, schedule)
  {
    KeyIgnoresEvidence(c.seed, c.maxConfidence, c.evidence);
    var promoted := c.seed.(confidence := c.maxConfidence, evidence := c.evidence);
    assert f.candidates[key := c] - {key} == f.candidates - {key};
    RegisterInv(f, promoted, schedule);
  }

  lemma DroppedInv(f: Frontier, key: string)
    requires Inv(f)
    ensures var g := f.(candidates := f.candidates - {key});
            Inv(g) && KeyEffect(f, g, key, false)
  {
    assert Keys(f.pending) + [] == Keys(f.pending);
  }

  lemma WaitingInv(f: Frontier, key: string, c: Candidate)
    requires Inv(f) && Storable(c.seed) && SeedKey(c.seed) == key && key !in f.known && !ShouldPromote(c)
    ensures var g := f.(candidates := f.candidates[key := c]);
            Inv(g) && KeyEffect(f, g, key, false)
  {
    assert Keys(f.pending) + [] == Keys(f.pending);
  }

  /** A judged candidate is dropped, left waiting, or registered. */
  ghost predicate JudgedAs(f: Frontier, key: string, c: Candidate, g: Frontier, scheduled: bool) {
    || (g == f.(candidates := f.candidates - {key}) && !scheduled)
    || (g == f.(candidates := f.candidates[key := c]) && !ShouldPromote(c) && !scheduled)
    || (g == Materialized(f.(candidates := f.candidates[key := c]), key, c, scheduled)
        && (scheduled ==> SchedulingMode(f) == NextWave))
  }

  lemma JudgedCases(f: Frontier, key: string, c: Candidate, reply: Reply)
    requires key !in f.known
    ensures var (g, result) := Judged(f, key, c, reply); JudgedAs(f, key, c, g, result.scheduled)
  {
    assert f.candidates[key := c] - {key} == f.candidates - {key};
  }

  predicate Refuses(reply: Reply) {
    reply == Says(PendingReview) || reply == Says(Rejected)
  }

  /** Which gate and which answer lead to which: a candidate below the gate
      waits, or is registered unscheduled in the extra wave, and the handler
      has no say; one that passes is dropped when the handler refuses it and
      registered otherwise, and then scheduled unless the extra wave runs. */
  lemma JudgedOutcome(f: Frontier, key: string, c: Candidate, reply: Reply)
    requires key !in f.known
    ensures var (g, result) := Judged(f, key, c, reply);
            && (key in g.known <==> if ShouldPromote(c) then !Refuses(reply) else SchedulingMode(f) == RegisterOnly)
            && (key in g.candidates <==> !ShouldPromote(c) && SchedulingMode(f) != RegisterOnly)
            && (g.known == f.known || g.known == f.known + {key})
            && |g.pending| == |f.pending| + (if result.scheduled then 1 else 0)
            && (result.scheduled <==> key in g.known && ShouldPromote(c) && SchedulingMode(f) == NextWave)
            && (result.decision == if !ShouldPromote(c) then None
                                   else if Refuses(reply) then Some(reply.decision) else Some(Accepted))
            && forall k :: k != key ==> (k in g.candidates <==> k in f.candidates)
  {
  }

  lemma JudgedAsInv(f: Frontier, key: string, c: Candidate, g: Frontier, scheduled: bool)
    requires Inv(f) && Storable(c.seed) && SeedKey(c.seed) == key && key !in f.known
    requires JudgedAs(f, key, c, g, scheduled)
    ensures Inv(g) && KeyEffect(f, g, key, scheduled)
  {
    if g == f.(candidates := f.candidates - {key}) && !scheduled {
      DroppedInv(f, key);
    } else if g == f.(candidates := f.candidates[key := c]) && !ShouldPromote(c) && !scheduled {
      WaitingInv(f, key, c);
    } else {
      MaterializedInv(f, key, c, scheduled);
    }
  }

  lemma JudgedInv(f: Frontier, key: string, c: Candidate, reply: Reply)
    requires Inv(f) && Storable(c.seed) && SeedKey(c.seed) == key && key !in f.known
    ensures var (g, result) := Judged(f, key, c, reply);
            Inv(g) && KeyEffect(f, g, key, result.scheduled)
  {
    JudgedCases(f, key, c, reply);
    var (g, result) := Judged(f, key, c, reply);
    JudgedAsInv(f, key, c, g, result.scheduled);
  }

  lemma PromotedUnknownInv(f: Frontier, seed: Seed, e: Evidence, reply: Reply)
    requires Inv(f) && Storable(seed) && SeedKey(seed) !in f.known
    ensures var (g, result) := PromotedUnknown(f, seed, e, reply);
            Inv(g) && KeyEffect(f, g, SeedKey(seed), result.scheduled)
  {
    AccumulateKeepsKey(f, seed, e);
    JudgedInv(f, SeedKey(seed), Accumulate(CandidateAt(f, SeedKey(seed)), seed, e), reply);
  }

  lemma ReservedInv(f: Frontier)
    requires Inv(f)
    ensures Inv(Reserved(f).0)
    ensures Reserved(f).0 == f.(reserved := f.reserved || !f.inProgress)
  {
  }

  /** Advancing moves the pending seeds, all of them and in order, into the
      active frontier; it is refused exactly when nothing is pending. */
  lemma AdvancedInv(f: Frontier)
    requires Inv(f)
    ensures var (g, moved) := Advanced(f);
            && Inv(g) && g.pending == [] && g.active == f.pending && g.known == f.known && g.seeds == f.seeds
            && (moved <==> f.pending != [])
            && !g.reserved
            && g.depth + (if g.inProgress then 1 else 0)
               == f.depth + (if f.inProgress then 1 else 0) + (if moved then 1 else 0)
            && (g.inProgress <==> f.inProgress || (moved && f.reserved))
            && g.candidates == f.candidates && g.maxDepth == f.maxDepth
  {
    var (g, moved) := Advanced(f);
    var placed := Keys(f.active) + Keys(f.pending);
    assert Keys(g.active) + Keys(g.pending) == Keys(f.pending);
    forall i | 0 <= i < |f.pending| ensures placed[|f.active| + i] == Keys(f.pending)[i] {}
    assert forall k :: k in Keys(f.pending) ==> k in placed;
  }

  /** Restoring a snapshot forgets the candidates and nothing else. */
  lemma RestoreForgetsCandidates(f: Frontier)
    requires Inv(f)
    ensures Restored(f.seeds, Snapshot(f)) == f.(candidates := map[])
    ensures Restored(f.seeds, Snapshot(f)) == f <==> f.candidates == map[]
    ensures Inv(Restored(f.seeds, Snapshot(f)))
  {
  }
}
