/** The evidence gate seen over a whole history of promotions. */
module Gate {
  import opened Options
  import opened Text
  import opened Seeds
  import opened Frontiers
  import opened Folds

  datatype Promotion = Promotion(seed: Seed, evidence: Evidence)

  function KeyOf(p: Promotion): string {
    SeedKey(NormalizeSeed(p.seed))
  }

  /** One promotion with no handler installed. */
  function Submit(f: Frontier, p: Promotion): Frontier {
    Promoted(f, p.seed, p.evidence, NoHandler).0
  }

  /** Promotions in order. */
  function RunPromotions(f: Frontier, ps: seq<Promotion>): Frontier {
    Fold(Submit, f, ps)
  }

  // ----- what one promotion contributes, read off the submitted values -----

  ghost predicate IsReasoned(p: Promotion) {
    HasReasonedItem(p.seed.evidence) || p.evidence.reasoned
  }

  function Signal(p: Promotion): Option<string> {
    var e := NormalizeEvidence(p.evidence);
    if e.source != "" && e.kind != "" then Some(e.source + "|" + e.kind) else None
  }

  predicate IsStrong(p: Promotion) {
    p.seed.confidence >= 0.9 || (Signal(p).Some? && p.evidence.confidence >= 0.9)
  }

  ghost predicate Mentioned(ps: seq<Promotion>, k: string) {
    exists p :: p in ps && KeyOf(p) == k
  }

  ghost predicate SomeReasoned(ps: seq<Promotion>, k: string) {
    exists p :: p in ps && KeyOf(p) == k && IsReasoned(p)
  }

  ghost predicate SomeStrong(ps: seq<Promotion>, k: string) {
    exists p :: p in ps && KeyOf(p) == k && IsStrong(p)
  }

  ghost predicate Signalled(ps: seq<Promotion>, k: string, s: string) {
    exists p :: p in ps && KeyOf(p) == k && Signal(p) == Some(s)
  }

  /** A reasoned item, one strong signal, or two distinct signals: a statement
      about which promotions were made, not about their order or number. */
  ghost predicate GatePasses(ps: seq<Promotion>, k: string) {
    || SomeReasoned(ps, k)
    || SomeStrong(ps, k)
    || (exists s, t :: s != t && Signalled(ps, k, s) && Signalled(ps, k, t))
  }

  // ----- the candidate record summarises the history -----

  ghost predicate Summarises(c: Candidate, ps: seq<Promotion>, k: string) {
    && (c.reasoned <==> SomeReasoned(ps, k))
    && (c.maxConfidence >= 0.9 <==> SomeStrong(ps, k))
    && (forall s :: s in c.signals <==> Signalled(ps, k, s))
  }

  lemma TwoMembers<T>(s: set<T>)
    ensures |s| >= 2 <==> exists x, y :: x in s && y in s && x != y
  {
    if |s| >= 2 {
      var x :| x in s;
      assert |s - {x}| >= 1;
      var y :| y in s - {x};
    }
    if x, y :| x in s && y in s && x != y {
      assert {x, y} <= s;
      assert |s - {x, y}| == |s| - 2;
    }
  }

  lemma SummaryDecides(c: Candidate, ps: seq<Promotion>, k: string)
    requires Summarises(c, ps, k)
    ensures ShouldPromote(c) <==> GatePasses(ps, k)
  {
    TwoMembers(c.signals);
    assert forall s, t :: s in c.signals && t in c.signals <==> Signalled(ps, k, s) && Signalled(ps, k, t);
  }

  lemma HistoryAppend(ps: seq<Promotion>, p: Promotion, k: string)
    ensures var qs := ps + [p];
            && (SomeReasoned(qs, k) <==> SomeReasoned(ps, k) || (KeyOf(p) == k && IsReasoned(p)))
            && (SomeStrong(qs, k) <==> SomeStrong(ps, k) || (KeyOf(p) == k && IsStrong(p)))
            && (Mentioned(qs, k) <==> Mentioned(ps, k) || KeyOf(p) == k)
            && (forall s :: Signalled(qs, k, s) <==> Signalled(ps, k, s) || (KeyOf(p) == k && Signal(p) == Some(s)))
            && (GatePasses(ps, k) ==> GatePasses(qs, k))
  {
    assert forall q :: q in ps + [p] <==> q in ps || q == p;
    if s, t :| s != t && Signalled(ps, k, s) && Signalled(ps, k, t) {
      assert Signalled(ps + [p], k, s) && Signalled(ps + [p], k, t);
    }
  }

  /** The record before the promotion's own evidence is added. */
  ghost predicate HalfSummarises(c: Candidate, ps: seq<Promotion>, p: Promotion, k: string) {
    && (c.reasoned <==> SomeReasoned(ps, k) || HasReasonedItem(p.seed.evidence))
    && (c.maxConfidence >= 0.9 <==> SomeStrong(ps, k) || p.seed.confidence >= 0.9)
    && (forall s :: s in c.signals <==> Signalled(ps, k, s))
  }

  lemma SeedSummarises(previous: Option<Candidate>, ps: seq<Promotion>, p: Promotion, k: string)
    requires match previous case None => !Mentioned(ps, k) case Some(c) => Summarises(c, ps, k)
    ensures HalfSummarises(Seeded(previous, NormalizeSeed(p.seed)), ps, p, k)
  {
    NormalizeIsStorable(p.seed);
  }

  lemma EvidenceSummarises(c: Candidate, ps: seq<Promotion>, p: Promotion, k: string)
    requires KeyOf(p) == k && HalfSummarises(c, ps, p, k)
    ensures Summarises(Witnessed(c, NormalizeEvidence(p.evidence)), ps + [p], k)
  {
    HistoryAppend(ps, p, k);
  }

  lemma AccumulateSummarises(previous: Option<Candidate>, ps: seq<Promotion>, p: Promotion, k: string)
    requires KeyOf(p) == k
    requires match previous case None => !Mentioned(ps, k) case Some(c) => Summarises(c, ps, k)
    ensures Summarises(Accumulate(previous, NormalizeSeed(p.seed), NormalizeEvidence(p.evidence)), ps + [p], k)
  {
    SeedSummarises(previous, ps, p, k);
    EvidenceSummarises(Seeded(previous, NormalizeSeed(p.seed)), ps, p, k);
  }

  // ----- one step -----

  ghost predicate Tracks(f: Frontier, ps: seq<Promotion>, k: string) {
    if GatePasses(ps, k) then k in f.known
    else k !in f.known
         && (k in f.candidates <==> Mentioned(ps, k))
         && (k in f.candidates ==> Summarises(f.candidates[k], ps, k))
  }

  lemma JudgedLeavesOthers(f: Frontier, key: string, c: Candidate, k: string)
    requires k != key
    ensures var g := Judged(f, key, c, NoHandler).0;
            (k in g.known <==> k in f.known) && CandidateAt(g, k) == CandidateAt(f, k)
  {
  }

  lemma PromotedLeavesOthers(f: Frontier, p: Promotion, k: string)
    requires Inv(f) && CommaFree(p.seed.domains) && KeyOf(p) != k
    ensures var g := Submit(f, p);
            (k in g.known <==> k in f.known) && CandidateAt(g, k) == CandidateAt(f, k)
  {
    var seed := NormalizeSeed(p.seed);
    NormalizeIsStorable(p.seed);
    if KeyOf(p) in f.known {
      MergeAcrossKeepsKeys(f, seed, [NormalizeEvidence(p.evidence)]);
    } else {
      JudgedLeavesOthers(f, KeyOf(p), Accumulate(CandidateAt(f, KeyOf(p)), seed, NormalizeEvidence(p.evidence)), k);
    }
  }

  /** A promotion of k itself, not yet known. */
  lemma TracksOwn(f: Frontier, ps: seq<Promotion>, p: Promotion, k: string)
    requires SchedulingMode(f) == NextWave && KeyOf(p) == k && k !in f.known && Tracks(f, ps, k)
    ensures Tracks(Submit(f, p), ps + [p], k)
  {
    var c := Accumulate(CandidateAt(f, k), NormalizeSeed(p.seed), NormalizeEvidence(p.evidence));
    HistoryAppend(ps, p, k);
    AccumulateSummarises(CandidateAt(f, k), ps, p, k);
    SummaryDecides(c, ps + [p], k);
    assert Submit(f, p) == Judged(f, k, c, NoHandler).0;
  }

  lemma TracksStep(f: Frontier, ps: seq<Promotion>, p: Promotion, k: string)
    requires Inv(f) && SchedulingMode(f) == NextWave && CommaFree(p.seed.domains)
    requires Tracks(f, ps, k)
    ensures var g := Submit(f, p);
            Inv(g) && SchedulingMode(g) == NextWave && Tracks(g, ps + [p], k)
  {
    PromotedInv(f, p.seed, p.evidence, NoHandler);
    if KeyOf(p) == k && k !in f.known {
      TracksOwn(f, ps, p, k);
    } else {
      HistoryAppend(ps, p, k);
      if KeyOf(p) != k {
        PromotedLeavesOthers(f, p, k);
      }
    }
  }

  ghost predicate TracksAt(f: Frontier, ps: seq<Promotion>, i: nat, k: string) {
    i <= |ps| && Inv(f) && SchedulingMode(f) == NextWave && Tracks(f, ps[..i], k)
  }

  lemma TracksNothing(f: Frontier, ps: seq<Promotion>, k: string)
    requires Inv(f) && SchedulingMode(f) == NextWave && k !in f.known && k !in f.candidates
    ensures TracksAt(f, ps, 0, k)
  {
    assert ps[..0] == [];
  }

  lemma TracksNext(f: Frontier, ps: seq<Promotion>, i: nat, k: string)
    requires i < |ps| && Inv(f) && SchedulingMode(f) == NextWave && Tracks(f, ps[..i] + [ps[i]], k)
    ensures TracksAt(f, ps, i + 1, k)
  {
    assert ps[..i + 1] == ps[..i] + [ps[i]];
  }

  lemma TracksAtStep(f: Frontier, ps: seq<Promotion>, i: nat, k: string)
    requires i < |ps| && TracksAt(f, ps, i, k) && CommaFree(ps[i].seed.domains)
    ensures TracksAt(Submit(f, ps[i]), ps, i + 1, k)
  {
    TracksStep(f, ps[..i], ps[i], k);
    TracksNext(Submit(f, ps[i]), ps, i, k);
  }

  lemma RunTracks(f: Frontier, ps: seq<Promotion>, k: string)
    requires Inv(f) && SchedulingMode(f) == NextWave
    requires k !in f.known && k !in f.candidates
    requires forall p :: p in ps ==> CommaFree(p.seed.domains)
    ensures var g := RunPromotions(f, ps);
            Inv(g) && SchedulingMode(g) == NextWave && Tracks(g, ps, k)
  {
    TracksNothing(f, ps, k);
    forall i: nat, g | i < |ps| && TracksAt(g, ps, i, k) ensures TracksAt(Submit(g, ps[i]), ps, i + 1, k) {
      TracksAtStep(g, ps, i, k);
    }
    FoldInvariant(Submit, f, ps, (i, g) => TracksAt(g, ps, i, k));
    assert ps[..|ps|] == ps;
  }

  /** The gate refines its history: a fresh key is registered by a sequence of
      promotions, interleaved with any others, exactly when the promotions of
      that key pass the gate taken all together; until then it waits as a
      candidate. */
  lemma GateRefinesHistory(f: Frontier, ps: seq<Promotion>, k: string)
    requires Inv(f) && SchedulingMode(f) == NextWave
    requires k !in f.known && k !in f.candidates
    requires forall p :: p in ps ==> CommaFree(p.seed.domains)
    ensures k in RunPromotions(f, ps).known <==> GatePasses(ps, k)
    ensures k in RunPromotions(f, ps).candidates <==> Mentioned(ps, k) && !GatePasses(ps, k)
  {
    RunTracks(f, ps, k);
  }

  /** So the order and the repetition of promotions decide nothing. */
  lemma OrderDecidesNothing(f: Frontier, ps: seq<Promotion>, qs: seq<Promotion>)
    requires Inv(f) && SchedulingMode(f) == NextWave && f.candidates == map[]
    requires forall p :: p in ps ==> CommaFree(p.seed.domains)
    requires forall p :: p in ps <==> p in qs
    ensures RunPromotions(f, ps).known == RunPromotions(f, qs).known
    ensures RunPromotions(f, ps).candidates.Keys == RunPromotions(f, qs).candidates.Keys
  {
    forall k
      ensures k in RunPromotions(f, ps).known <==> k in RunPromotions(f, qs).known
      ensures k in RunPromotions(f, ps).candidates <==> k in RunPromotions(f, qs).candidates
    {
      if k in f.known {
        KnownStays(f, ps);
        KnownStays(f, qs);
      } else {
        GateRefinesHistory(f, ps, k);
        GateRefinesHistory(f, qs, k);
        SameHistory(ps, qs, k);
      }
    }
  }

  lemma SameHistory(ps: seq<Promotion>, qs: seq<Promotion>, k: string)
    requires forall p :: p in ps <==> p in qs
    ensures GatePasses(ps, k) <==> GatePasses(qs, k)
    ensures Mentioned(ps, k) <==> Mentioned(qs, k)
  {
    assert forall s :: Signalled(ps, k, s) <==> Signalled(qs, k, s);
    assert SomeReasoned(ps, k) <==> SomeReasoned(qs, k);
    assert SomeStrong(ps, k) <==> SomeStrong(qs, k);
  }

  lemma KnownStays(f: Frontier, ps: seq<Promotion>)
    requires Inv(f)
    requires forall p :: p in ps ==> CommaFree(p.seed.domains)
    ensures Inv(RunPromotions(f, ps)) && f.known <= RunPromotions(f, ps).known
  {
    forall i: nat, g | i < |ps| && Inv(g) && f.known <= g.known
      ensures Inv(Submit(g, ps[i])) && f.known <= Submit(g, ps[i]).known
    {
      PromotedInv(g, ps[i].seed, ps[i].evidence, NoHandler);
    }
    FoldInvariant(Submit, f, ps, (i, g) => Inv(g) && f.known <= g.known);
  }
}
