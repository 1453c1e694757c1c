/** What one submission does to the frontier, read off the fields of the
    seeds before and after it (internal/models/seed_frontier.go). */
module Submissions {
  import opened Options
  import opened Text
  import opened Seeds
  import opened SeedMerges
  import opened Frontiers

  /** Every stored seed of the key takes the submission in, every other stays
      as it is. */
  ghost predicate Absorbed(before: seq<Seed>, after: seq<Seed>, key: string, raw: Seed, extra: seq<Evidence>) {
    && |after| == |before|
    && forall i :: 0 <= i < |before| ==>
                     if SeedKey(before[i]) == key then Combines(before[i], after[i], raw, extra) else after[i] == before[i]
  }

  /** A submission under a known key. */
  ghost predicate TakenIn(f: Frontier, g: Frontier, raw: Seed, extra: seq<Evidence>) {
    var key := SeedKey(NormalizeSeed(raw));
    && Absorbed(f.seeds, g.seeds, key, raw, extra)
    && Absorbed(f.active, g.active, key, raw, extra)
    && Absorbed(f.pending, g.pending, key, raw, extra)
    && g == f.(seeds := g.seeds, active := g.active, pending := g.pending)
  }

  /** Whether the frontier takes submissions at all. */
  predicate Open(f: Frontier) {
    f.inProgress || f.reserved || f.depth < f.maxDepth
  }

  lemma MergedInto(seeds: seq<Seed>, raw: Seed, more: seq<Evidence>, extra: seq<Evidence>)
    requires AllStorable(seeds) && NormalFormsOf(more, extra)
    ensures var key := SeedKey(NormalizeSeed(raw));
            Absorbed(seeds, MergeInto(seeds, key, NormalizeSeed(raw), more), key, raw, extra)
  {
    var key := SeedKey(NormalizeSeed(raw));
    var merged := MergeInto(seeds, key, NormalizeSeed(raw), more);
    forall i | 0 <= i < |seeds| && SeedKey(seeds[i]) == key ensures Combines(seeds[i], merged[i], raw, extra) {
      MergedCombines(seeds[i], raw, more, extra);
    }
  }

  lemma MergedAcross(f: Frontier, raw: Seed, more: seq<Evidence>, extra: seq<Evidence>)
    requires Inv(f) && SeedKey(NormalizeSeed(raw)) in f.known && NormalFormsOf(more, extra)
    ensures TakenIn(f, MergeAcross(f, NormalizeSeed(raw), more), raw, extra)
  {
    MergedInto(f.seeds, raw, more, extra);
    MergedInto(f.active, raw, more, extra);
    MergedInto(f.pending, raw, more, extra);
  }

  // ----- under a known key -----

  /** EnqueueSeed of a known key schedules nothing and merges the seed into
      every stored one of that key. */
  lemma EnqueueOfKnown(f: Frontier, raw: Seed)
    requires Inv(f) && Open(f) && SeedKey(NormalizeSeed(raw)) in f.known
    ensures var (g, scheduled) := Enqueued(f, raw);
            !scheduled && TakenIn(f, g, raw, [])
  {
    var none: seq<Evidence> := [];
    MergedAcross(f, raw, none, none);
    assert Enqueued(f, raw) == (MergeAcross(f, NormalizeSeed(raw), none), false);
  }

  /** So does a promotion, with its own evidence on top; the handler is not
      asked. */
  lemma PromoteOfKnown(f: Frontier, raw: Seed, e: Evidence, reply: Reply)
    requires Inv(f) && Open(f) && SeedKey(NormalizeSeed(raw)) in f.known
    ensures var (g, result) := Promoted(f, raw, e, reply);
            result == Result(None, false) && TakenIn(f, g, raw, [e])
    ensures Considered(f, raw, e) == (Promoted(f, raw, e, reply).0, None)
  {
    MergedAcross(f, raw, [NormalizeEvidence(e)], [e]);
  }

  /** A frontier that is closed takes nothing in. */
  lemma ClosedTakesNothing(f: Frontier, raw: Seed, e: Evidence, reply: Reply)
    requires !Open(f)
    ensures Enqueued(f, raw) == (f, false)
    ensures Promoted(f, raw, e, reply) == (f, Result(None, false)) && Considered(f, raw, e) == (f, None)
  {
  }

  // ----- under a new key -----

  /** EnqueueSeed of a new key stores the seed as submitted, last, and
      schedules it unless the extra wave runs. */
  lemma EnqueueOfNew(f: Frontier, raw: Seed)
    requires Open(f) && SeedKey(NormalizeSeed(raw)) !in f.known
    ensures var (g, scheduled) := Enqueued(f, raw);
            var key := SeedKey(NormalizeSeed(raw));
            && scheduled == !f.inProgress
            && |g.seeds| == |f.seeds| + 1 && g.seeds[..|f.seeds|] == f.seeds && Stores(g.seeds[|f.seeds|], raw)
            && g == f.(candidates := f.candidates - {key}, known := f.known + {key}, seeds := g.seeds,
                       pending := f.pending + if scheduled then [g.seeds[|f.seeds|]] else [])
  {
    NormalizedStores(raw);
    assert f.pending + [] == f.pending;
  }

  predicate Named(e: Evidence) {
    Norm(e.source) != "" && Norm(e.kind) != ""
  }

  function ConfidenceOf(prior: Option<Candidate>, raw: Seed, e: Evidence): real {
    var submitted := if Named(e) then Larger(raw.confidence, e.confidence) else raw.confidence;
    if prior.Some? then Larger(prior.value.maxConfidence, submitted) else submitted
  }

  /** What the candidate record of a key is after one more promotion... */
  ghost predicate Documents(c: Candidate, prior: Option<Candidate>, raw: Seed, e: Evidence) {
    && (if prior.Some? then Combines(prior.value.seed, c.seed, raw, []) else Stores(c.seed, raw))
    && GathersFrom(c.evidence, if prior.Some? then prior.value.evidence else [], raw.evidence + [e])
  }

  ghost predicate ReasonedBy(prior: Option<Candidate>, raw: Seed, e: Evidence) {
    (prior.Some? && prior.value.reasoned) || HasReasonedItem(raw.evidence) || e.reasoned
  }

  function SignalsOf(prior: Option<Candidate>, e: Evidence): set<string> {
    (if prior.Some? then prior.value.signals else {})
    + (if Named(e) then {Norm(e.source) + "|" + Norm(e.kind)} else {})
  }

  /** ...and what the gate will judge it by. */
  ghost predicate Weighs(c: Candidate, prior: Option<Candidate>, raw: Seed, e: Evidence) {
    && c.maxConfidence == ConfidenceOf(prior, raw, e)
    && (c.reasoned <==> ReasonedBy(prior, raw, e))
    && c.signals == SignalsOf(prior, e)
  }

  /** Where a promotion leaves a candidate that was new: dropped when the gate
      lets it through and the handler refuses it; stored with the record's
      confidence and evidence when the gate lets it through otherwise, or the
      extra wave runs; else waiting. */
  ghost predicate Lands(f: Frontier, key: string, c: Candidate, reply: Reply, g: Frontier, result: Result) {
    var passes := c.reasoned || c.maxConfidence >= 0.9 || |c.signals| >= 2;
    if passes && reply.Says? && reply.decision != Accepted then
      g == f.(candidates := f.candidates - {key}) && result == Result(Some(reply.decision), false)
    else if passes || f.inProgress then
      var stored := c.seed.(confidence := c.maxConfidence, evidence := c.evidence);
      && result == Result(if passes then Some(Accepted) else None, passes && !f.inProgress)
      && g == f.(candidates := f.candidates - {key}, known := f.known + {key}, seeds := f.seeds + [stored],
                 pending := f.pending + if result.scheduled then [stored] else [])
    else
      g == f.(candidates := f.candidates[key := c]) && result == Result(None, false)
  }

  lemma SeededDocuments(prior: Option<Candidate>, raw: Seed, e: Evidence)
    requires prior.Some? ==> NormalSeed(prior.value.seed)
    ensures var c := Seeded(prior, NormalizeSeed(raw));
            Documents(c.(evidence := MergeEvidence(c.evidence, [NormalizeEvidence(e)])), prior, raw, e)
  {
    if prior.Some? {
      MergedDocuments(prior.value, raw, e);
    } else {
      NormalizedStores(raw);
      SliceAndMore(raw.evidence, [NormalizeEvidence(e)], [e]);
    }
  }

  lemma MergedDocuments(p: Candidate, raw: Seed, e: Evidence)
    requires NormalSeed(p.seed)
    ensures var c := Seeded(Some(p), NormalizeSeed(raw));
            Documents(c.(evidence := MergeEvidence(c.evidence, [NormalizeEvidence(e)])), Some(p), raw, e)
  {
    var seed := NormalizeSeed(raw);
    MergedWithNothing(p.seed, raw, MergeSeeds(p.seed, seed));
    MergeTwice(p.evidence, raw.evidence, [NormalizeEvidence(e)], [e]);
    assert MergeEvidence(MergeEvidence(p.evidence, seed.evidence), []) == MergeEvidence(p.evidence, seed.evidence);
  }

  lemma DocumentsOnly(c: Candidate, d: Candidate, prior: Option<Candidate>, raw: Seed, e: Evidence)
    requires c.seed == d.seed && c.evidence == d.evidence && Documents(c, prior, raw, e)
    ensures Documents(d, prior, raw, e)
  {
  }

  lemma WitnessedKeeps(c: Candidate, e: Evidence)
    ensures Witnessed(c, e).seed == c.seed && Witnessed(c, e).evidence == MergeEvidence(c.evidence, [e])
  {
  }

  lemma AccumulatedDocuments(prior: Option<Candidate>, raw: Seed, e: Evidence)
    requires prior.Some? ==> NormalSeed(prior.value.seed)
    ensures Documents(Accumulate(prior, NormalizeSeed(raw), NormalizeEvidence(e)), prior, raw, e)
  {
    var c := Seeded(prior, NormalizeSeed(raw));
    SeededDocuments(prior, raw, e);
    WitnessedKeeps(c, NormalizeEvidence(e));
    DocumentsOnly(c.(evidence := MergeEvidence(c.evidence, [NormalizeEvidence(e)])), Witnessed(c, NormalizeEvidence(e)),
                  prior, raw, e);
  }

  lemma WitnessedWeighs(c: Candidate, e: Evidence)
    ensures var n := NormalizeEvidence(e);
            && Witnessed(c, n).maxConfidence == (if Named(e) then Larger(c.maxConfidence, e.confidence) else c.maxConfidence)
            && (Witnessed(c, n).reasoned <==> c.reasoned || e.reasoned)
            && Witnessed(c, n).signals == c.signals + (if Named(e) then {Norm(e.source) + "|" + Norm(e.kind)} else {})
  {
  }

  lemma SeededWeighs(prior: Option<Candidate>, raw: Seed)
    ensures var c := Seeded(prior, NormalizeSeed(raw));
            && c.maxConfidence == (if prior.Some? then Larger(prior.value.maxConfidence, raw.confidence) else raw.confidence)
            && (c.reasoned <==> (prior.Some? && prior.value.reasoned) || HasReasonedItem(raw.evidence))
            && c.signals == (if prior.Some? then prior.value.signals else {})
  {
    NormalizeIsStorable(raw);
  }

  lemma AccumulatedWeighs(prior: Option<Candidate>, raw: Seed, e: Evidence)
    ensures Weighs(Accumulate(prior, NormalizeSeed(raw), NormalizeEvidence(e)), prior, raw, e)
  {
    SeededWeighs(prior, raw);
    WitnessedWeighs(Seeded(prior, NormalizeSeed(raw)), e);
  }

  lemma JudgedLands(f: Frontier, key: string, c: Candidate, reply: Reply)
    requires Open(f)
    ensures var (g, result) := Judged(f, key, c, reply); Lands(f, key, c, reply, g, result)
  {
    assert f.candidates[key := c] - {key} == f.candidates - {key};
    assert f.pending + [] == f.pending;
  }

  /** A promotion of a new key: its record takes the seed and the evidence in,
      and the record and the handler's answer decide where it lands. */
  lemma PromoteOfNew(f: Frontier, raw: Seed, e: Evidence, reply: Reply)
    requires Inv(f) && Open(f) && SeedKey(NormalizeSeed(raw)) !in f.known
    ensures var (g, result) := Promoted(f, raw, e, reply);
            var key := SeedKey(NormalizeSeed(raw));
            exists c :: && Documents(c, CandidateAt(f, key), raw, e) && Weighs(c, CandidateAt(f, key), raw, e)
                        && Lands(f, key, c, reply, g, result)
  {
    var key := SeedKey(NormalizeSeed(raw));
    var c := Accumulate(CandidateAt(f, key), NormalizeSeed(raw), NormalizeEvidence(e));
    AccumulatedDocuments(CandidateAt(f, key), raw, e);
    AccumulatedWeighs(CandidateAt(f, key), raw, e);
    JudgedLands(f, key, c, reply);
    assert Promoted(f, raw, e, reply) == Judged(f, key, c, reply);
  }

  // ----- what the handler is asked -----

  /** A reasoned verdict, 0.9 of confidence, or two distinct signals. */
  ghost predicate PassesGate(prior: Option<Candidate>, raw: Seed, e: Evidence) {
    ReasonedBy(prior, raw, e) || ConfidenceOf(prior, raw, e) >= 0.9 || |SignalsOf(prior, e)| >= 2
  }

  /** Whether a promotion gets as far as the handler. */
  ghost predicate Asks(f: Frontier, raw: Seed, e: Evidence) {
    var key := SeedKey(NormalizeSeed(raw));
    Open(f) && key !in f.known && PassesGate(CandidateAt(f, key), raw, e)
  }

  /** A promoted seed, together with the one that waits under its key. */
  ghost predicate Proposes(s: Seed, prior: Option<Candidate>, raw: Seed) {
    && s.id == (if prior.Some? && prior.value.seed.id != "" then prior.value.seed.id else Trim(raw.id))
    && s.companyName == (if prior.Some? && prior.value.seed.companyName != "" then prior.value.seed.companyName
                         else Trim(raw.companyName))
    && DomainUnion(s.domains, if prior.Some? then prior.value.seed.domains else [], raw.domains)
  }

  lemma NormalSeedIsFixed(s: Seed)
    requires NormalSeed(s)
    ensures var n := NormalizeSeed(s);
            && n.id == s.id && n.companyName == s.companyName && n.domains == s.domains && n.confidence == s.confidence
            && SeedKey(n) == SeedKey(s) && (Storable(s) ==> Storable(n))
  {
    TrimmedIsFixed(s.id);
    TrimmedIsFixed(s.companyName);
    NormalListIsFixed(s.domains);
  }

  lemma RecordedSeed(prior: Option<Candidate>, raw: Seed, e: Evidence)
    requires prior.Some? ==> NormalSeed(prior.value.seed)
    ensures Proposes(Accumulate(prior, NormalizeSeed(raw), NormalizeEvidence(e)).seed, prior, raw)
  {
    AccumulatedDocuments(prior, raw, e);
  }

  lemma RequestIsRecord(f: Frontier, raw: Seed, e: Evidence, key: string, c: Candidate)
    requires key == SeedKey(NormalizeSeed(raw))
    requires c == Accumulate(CandidateAt(f, key), NormalizeSeed(raw), NormalizeEvidence(e))
    ensures Considered(f, raw, e).1
            == if Open(f) && key !in f.known && ShouldPromote(c)
               then Some(Request(key, NormalizeSeed(c.seed), c.maxConfidence, c.reasoned)) else None
  {
  }

  lemma ProposedNormal(s: Seed, prior: Option<Candidate>, raw: Seed)
    requires Storable(s) && Proposes(s, prior, raw)
    ensures Proposes(NormalizeSeed(s), prior, raw) && Storable(NormalizeSeed(s)) && SeedKey(NormalizeSeed(s)) == SeedKey(s)
  {
    NormalSeedIsFixed(s);
  }

  lemma RecordedKey(f: Frontier, raw: Seed, e: Evidence)
    requires Inv(f) && CommaFree(raw.domains)
    ensures var key := SeedKey(NormalizeSeed(raw));
            var c := Accumulate(CandidateAt(f, key), NormalizeSeed(raw), NormalizeEvidence(e));
            Storable(c.seed) && SeedKey(c.seed) == key
  {
    NormalizeIsStorable(raw);
    AccumulateKeepsKey(f, NormalizeSeed(raw), NormalizeEvidence(e));
  }

  /** The handler is asked exactly when the frontier takes seeds, the key is
      new and the gate lets the record through; and what it is asked is the
      key, the seed and the confidence of that record. */
  lemma HandlerIsAsked(f: Frontier, raw: Seed, e: Evidence)
    requires Inv(f) && CommaFree(raw.domains)
    ensures var request := Considered(f, raw, e).1;
            var key := SeedKey(NormalizeSeed(raw));
            var prior := CandidateAt(f, key);
            && (request.Some? <==> Asks(f, raw, e))
            && (request.Some? ==>
                  && request.value.key == key && SeedKey(request.value.seed) == key && Storable(request.value.seed)
                  && Proposes(request.value.seed, prior, raw)
                  && request.value.confidence == ConfidenceOf(prior, raw, e)
                  && (request.value.reasoned <==> ReasonedBy(prior, raw, e)))
  {
    var key := SeedKey(NormalizeSeed(raw));
    var prior := CandidateAt(f, key);
    var c := Accumulate(prior, NormalizeSeed(raw), NormalizeEvidence(e));
    AccumulatedWeighs(prior, raw, e);
    RecordedSeed(prior, raw, e);
    RecordedKey(f, raw, e);
    ProposedNormal(c.seed, prior, raw);
    RequestIsRecord(f, raw, e, key, c);
  }
}
