/** The live object: PipelineContext's scheduler fields and the methods that
    update them, each proved to compute the frontier operation it is named
    after; what those operations keep is proved in Frontiers. */
module Contexts {
  import opened Options
  import opened Text
  import opened Seeds
  import opened Frontiers

  class PipelineContext {
    var seeds: seq<Seed>
    var collectionSeeds: seq<Seed>
    var pendingSeeds: seq<Seed>
    var knownSeedKeys: set<string>
    var candidateSeeds: map<string, Candidate>
    var collectionDepth: int
    var maxCollectionDepth: int
    var extraCollectionWaveReserved: bool
    var extraCollectionWaveInProgress: bool

    ghost function State(): Frontier
      reads this
    {
      Frontier(seeds, collectionSeeds, pendingSeeds, knownSeedKeys, candidateSeeds,
               collectionDepth, maxCollectionDepth, extraCollectionWaveReserved, extraCollectionWaveInProgress)
    }

    constructor (submitted: seq<Seed>)
      ensures State() == Frontier(submitted, [], [], {}, map[], 0, 0, false, false)
    {
      seeds := submitted;
      collectionSeeds, pendingSeeds := [], [];
      knownSeedKeys, candidateSeeds := {}, map[];
      collectionDepth, maxCollectionDepth := 0, 0;
      extraCollectionWaveReserved, extraCollectionWaveInProgress := false, false;
    }

    method InitializeSeedFrontier(depthBudget: int)
      modifies this
      ensures State() == Initialized(old(seeds), depthBudget)
    {
      var raw := seeds;
      maxCollectionDepth := if depthBudget < 0 then 0 else depthBudget;
      collectionDepth := 0;
      pendingSeeds, collectionSeeds := [], [];
      extraCollectionWaveReserved, extraCollectionWaveInProgress := false, false;
      knownSeedKeys, candidateSeeds := {}, map[];

      var mergedSeeds, seedOrder := MergeSubmitted(raw);
      seeds, knownSeedKeys := RegisterSubmitted(mergedSeeds, seedOrder, Dedupe(raw));
      collectionSeeds := seeds;
    }

    method CollectionSeeds() returns (frontier: seq<Seed>)
      ensures frontier == State().active
    {
      frontier := collectionSeeds;
    }

    method ReserveExtraCollectionWave() returns (granted: bool)
      modifies `extraCollectionWaveReserved
      ensures (State(), granted) == Reserved(old(State()))
    {
      if extraCollectionWaveReserved || extraCollectionWaveInProgress {
        return false;
      }
      extraCollectionWaveReserved := true;
      return true;
    }

    method EnqueueSeed(raw: Seed) returns (scheduled: bool)
      modifies this
      ensures (State(), scheduled) == Enqueued(old(State()), raw)
    {
      var mode := SchedulingModeLocked();
      if mode == Reject {
        return false;
      }
      var seed := NormalizeSeed(raw);
      var key := SeedKey(seed);
      if key in knownSeedKeys {
        MergeSeedAcrossSlicesLocked(seed, []);
        return false;
      }
      candidateSeeds := candidateSeeds - {key};
      knownSeedKeys := knownSeedKeys + {key};
      seeds := seeds + [seed];
      if mode == NextWave {
        pendingSeeds := pendingSeeds + [seed];
        return true;
      }
      return false;
    }

    method PromoteSeedCandidate(raw: Seed, rawEvidence: Evidence, reply: Reply) returns (result: Result)
      modifies this
      ensures (State(), result) == Promoted(old(State()), raw, rawEvidence, reply)
    {
      ConsideredThenConcluded(State(), raw, rawEvidence, reply);
      var request := ConsiderCandidate(raw, rawEvidence);
      if request.None? {
        return NOTHING;
      }
      result := ConcludePromotion(request.value.key, reply);
    }

    /** PromoteSeedCandidate until it asks the handler... */
    method ConsiderCandidate(raw: Seed, rawEvidence: Evidence) returns (request: Option<Request>)
      modifies this
      ensures (State(), request) == Considered(old(State()), raw, rawEvidence)
    {
      var mode := SchedulingModeLocked();
      if mode == Reject {
        return None;
      }
      var seed := NormalizeSeed(raw);
      var e := NormalizeEvidence(rawEvidence);
      var key := SeedKey(seed);
      if key in knownSeedKeys {
        MergeSeedAcrossSlicesLocked(seed, [e]);
        return None;
      }

      var candidate := RecordEvidence(if key in candidateSeeds then Some(candidateSeeds[key]) else None, seed, e);
      candidateSeeds := candidateSeeds[key := candidate];

      if mode == RegisterOnly && !ShouldPromote(candidate) {
        var _ := MaterializeSeedCandidateLocked(key, candidate, false);
        return None;
      }
      if !ShouldPromote(candidate) {
        return None;
      }
      return Some(Request(key, NormalizeSeed(candidate.seed), candidate.maxConfidence, candidate.reasoned));
    }

    /** ...and from the handler's answer on. */
    method ConcludePromotion(key: string, reply: Reply) returns (result: Result)
      requires key in candidateSeeds
      modifies this
      ensures (State(), result) == Concluded(old(State()), key, reply)
    {
      match reply {
        case Says(Accepted) =>
        case Says(decision) =>
          candidateSeeds := candidateSeeds - {key};
          return Result(Some(decision), false);
        case _ =>
      }
      var mode := SchedulingModeLocked();
      var scheduled := MaterializeSeedCandidateLocked(key, candidateSeeds[key], mode == NextWave);
      return Result(Some(Accepted), scheduled);
    }

    method EnqueueSeedCandidate(raw: Seed, rawEvidence: Evidence, reply: Reply) returns (scheduled: bool)
      modifies this
      ensures State() == Promoted(old(State()), raw, rawEvidence, reply).0
      ensures scheduled == Promoted(old(State()), raw, rawEvidence, reply).1.scheduled
    {
      var result := PromoteSeedCandidate(raw, rawEvidence, reply);
      return result.scheduled;
    }

    method AdvanceSeedFrontier() returns (moved: bool)
      modifies this
      ensures (State(), moved) == Advanced(old(State()))
    {
      if |pendingSeeds| == 0 {
        if extraCollectionWaveReserved && !extraCollectionWaveInProgress {
          extraCollectionWaveReserved := false;
        }
        collectionSeeds := [];
        return false;
      }
      if extraCollectionWaveReserved && !extraCollectionWaveInProgress {
        extraCollectionWaveReserved := false;
        extraCollectionWaveInProgress := true;
        collectionSeeds := pendingSeeds;
        pendingSeeds := [];
        return true;
      }
      if extraCollectionWaveInProgress {
        pendingSeeds := [];
        collectionSeeds := [];
        return false;
      }
      collectionDepth := collectionDepth + 1;
      collectionSeeds := pendingSeeds;
      pendingSeeds := [];
      return true;
    }

    method SnapshotSchedulerState() returns (s: SchedulerState)
      ensures s == Snapshot(State())
    {
      s := SchedulerState(collectionSeeds, pendingSeeds, collectionDepth, maxCollectionDepth,
                          extraCollectionWaveReserved, extraCollectionWaveInProgress);
    }

    method RestoreSchedulerState(s: SchedulerState)
      modifies this
      ensures State() == Restored(old(seeds), s)
    {
      collectionSeeds := s.active;
      pendingSeeds := s.pending;
      collectionDepth := s.depth;
      maxCollectionDepth := s.maxDepth;
      extraCollectionWaveReserved := s.reserved;
      extraCollectionWaveInProgress := s.inProgress;
      knownSeedKeys := {};
      for i := 0 to |seeds|
        invariant seeds == old(seeds)
        invariant knownSeedKeys == KeySet(seeds[..i])
        invariant State().(known := {}, candidates := map[]) == Restored(old(seeds), s).(known := {})
      {
        assert seeds[..i + 1] == seeds[..i] + [seeds[i]];
        KeySetAppend(seeds[..i], seeds[i]);
        knownSeedKeys := knownSeedKeys + {SeedKey(seeds[i])};
      }
      assert seeds[..|seeds|] == seeds;
      candidateSeeds := map[];
    }

    method SchedulingModeLocked() returns (mode: Mode)
      ensures mode == SchedulingMode(State())
    {
      if extraCollectionWaveInProgress {
        return RegisterOnly;
      }
      if extraCollectionWaveReserved {
        return NextWave;
      }
      if collectionDepth < maxCollectionDepth {
        return NextWave;
      }
      return Reject;
    }

    method MergeSeedAcrossSlicesLocked(seed: Seed, evidence: seq<Evidence>)
      modifies `seeds, `collectionSeeds, `pendingSeeds, `candidateSeeds
      ensures State() == MergeAcross(old(State()), seed, evidence)
    {
      var key := SeedKey(seed);
      seeds := MergeSeedIntoSlice(seeds, key, seed, evidence);
      collectionSeeds := MergeSeedIntoSlice(collectionSeeds, key, seed, evidence);
      pendingSeeds := MergeSeedIntoSlice(pendingSeeds, key, seed, evidence);
      if key in candidateSeeds {
        candidateSeeds := candidateSeeds[key := MergeCandidate(candidateSeeds[key], seed, evidence)];
      }
    }

    method MaterializeSeedCandidateLocked(key: string, candidate: Candidate, schedule: bool) returns (scheduled: bool)
      modifies `seeds, `pendingSeeds, `knownSeedKeys, `candidateSeeds
      ensures State() == Materialized(old(State()), key, candidate, schedule) && scheduled == schedule
    {
      var promoted := candidate.seed.(confidence := candidate.maxConfidence, evidence := candidate.evidence);
      candidateSeeds := candidateSeeds - {key};
      knownSeedKeys := knownSeedKeys + {key};
      seeds := seeds + [promoted];
      if schedule {
        pendingSeeds := pendingSeeds + [promoted];
        return true;
      }
      return false;
    }
  }

  /** The first loop of InitializeSeedFrontier: equivalent submissions merge. */
  method MergeSubmitted(raw: seq<Seed>) returns (mergedSeeds: map<string, Seed>, seedOrder: seq<string>)
    ensures Agrees(mergedSeeds, seedOrder, Dedupe(raw))
  {
    mergedSeeds, seedOrder := map[], [];
    for i := 0 to |raw|
      invariant Agrees(mergedSeeds, seedOrder, Dedupe(raw[..i]))
    {
      var seed := NormalizeSeed(raw[i]);
      var key := SeedKey(seed);
      assert raw[..i + 1][..i] == raw[..i];
      if key in mergedSeeds {
        AgreesMerge(mergedSeeds, seedOrder, Dedupe(raw[..i]), seed);
        mergedSeeds := mergedSeeds[key := MergeSeeds(mergedSeeds[key], seed)];
        continue;
      }
      AgreesAppend(mergedSeeds, seedOrder, Dedupe(raw[..i]), seed);
      mergedSeeds := mergedSeeds[key := seed];
      seedOrder := seedOrder + [key];
    }
    assert raw[..|raw|] == raw;
  }

  /** The second loop: every distinct key becomes known, in first-seen order. */
  method RegisterSubmitted(mergedSeeds: map<string, Seed>, seedOrder: seq<string>, ghost order: seq<Filed>)
    returns (seeds: seq<Seed>, known: set<string>)
    requires Agrees(mergedSeeds, seedOrder, order)
    ensures seeds == FiledSeeds(order)
    ensures known == FiledKeySet(order)
  {
    seeds, known := [], {};
    for i := 0 to |seedOrder|
      invariant seeds == FiledSeeds(order)[..i]
      invariant known == FiledKeySet(order[..i])
    {
      assert seedOrder[i] == order[i].key;
      seeds := seeds + [mergedSeeds[seedOrder[i]]];
      known := known + {seedOrder[i]};
    }
  }

  /** The evidence bookkeeping of PromoteSeedCandidate. */
  method RecordEvidence(previous: Option<Candidate>, seed: Seed, e: Evidence) returns (candidate: Candidate)
    ensures candidate == Accumulate(previous, seed, e)
  {
    match previous {
      case None =>
        candidate := Candidate(seed, seed.evidence, {}, seed.confidence, false);
      case Some(c) =>
        candidate := c.(seed := MergeSeeds(c.seed, seed), evidence := MergeEvidence(c.evidence, seed.evidence));
        MergeNothing(candidate.evidence);
        if seed.confidence > candidate.maxConfidence {
          candidate := candidate.(maxConfidence := seed.confidence);
        }
    }
    if HasReasoned(seed.evidence) {
      candidate := candidate.(reasoned := true);
    }
    candidate := candidate.(evidence := MergeEvidence(candidate.evidence, [e]));
    if e.source != "" && e.kind != "" {
      candidate := candidate.(signals := candidate.signals + {e.source + "|" + e.kind});
      if e.confidence > candidate.maxConfidence {
        candidate := candidate.(maxConfidence := e.confidence);
      }
    }
    if e.reasoned {
      candidate := candidate.(reasoned := true);
    }
  }

  method MergeSeedIntoSlice(seeds: seq<Seed>, key: string, incoming: Seed, evidence: seq<Evidence>)
    returns (merged: seq<Seed>)
    ensures merged == MergeInto(seeds, key, incoming, evidence)
  {
    merged := seeds;
    for i := 0 to |seeds|
      invariant |merged| == |seeds|
      invariant forall j :: 0 <= j < i ==> merged[j] == MergeInto(seeds, key, incoming, evidence)[j]
      invariant forall j :: i <= j < |seeds| ==> merged[j] == seeds[j]
    {
      if SeedKey(merged[i]) == key {
        var m := MergeSeeds(merged[i], incoming);
        merged := merged[i := m.(evidence := MergeEvidence(m.evidence, evidence))];
      }
    }
  }

  lemma MergeNothing(list: seq<Evidence>)
    ensures MergeEvidence(list, []) == list
  {
  }

  /** The map-and-order pair of the loop holds exactly the filed seeds. */
  ghost predicate Agrees(merged: map<string, Seed>, order: seq<string>, filed: seq<Filed>) {
    && order == FiledKeys(filed)
    && Distinct(order)
    && (forall k :: k in merged <==> k in order)
    && forall i :: 0 <= i < |filed| ==> filed[i].key in merged && merged[filed[i].key] == filed[i].seed
  }

  lemma AgreesMerge(merged: map<string, Seed>, order: seq<string>, filed: seq<Filed>, seed: Seed)
    requires Agrees(merged, order, filed) && SeedKey(seed) in merged
    ensures Agrees(merged[SeedKey(seed) := MergeSeeds(merged[SeedKey(seed)], seed)], order, Absorb(filed, seed))
  {
  }

  lemma AgreesAppend(merged: map<string, Seed>, order: seq<string>, filed: seq<Filed>, seed: Seed)
    requires Agrees(merged, order, filed) && SeedKey(seed) !in merged
    ensures Agrees(merged[SeedKey(seed) := seed], order + [SeedKey(seed)], Absorb(filed, seed))
  {
  }
}
