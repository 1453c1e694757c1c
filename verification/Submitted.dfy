/** What the first frontier carries of the seeds a run was submitted with. */
module SubmittedSeeds {
  import opened Text
  import opened Seeds
  import opened SeedMerges
  import opened Frontiers

  /** The submitted seeds of a key. */
  ghost predicate From(raw: seq<Seed>, k: string, i: int) {
    0 <= i < |raw| && SeedKey(NormalizeSeed(raw[i])) == k
  }

  ghost predicate SomeFrom(raw: seq<Seed>, k: string, p: Seed -> bool) {
    exists i :: From(raw, k, i) && p(raw[i])
  }

  lemma SomeFromSnoc(front: seq<Seed>, last: Seed, k: string, p: Seed -> bool)
    ensures SomeFrom(front + [last], k, p) <==> SomeFrom(front, k, p) || (SeedKey(NormalizeSeed(last)) == k && p(last))
  {
    var all := front + [last];
    if i :| From(front, k, i) && p(front[i]) {
      assert From(all, k, i) && p(all[i]);
    }
    if SeedKey(NormalizeSeed(last)) == k && p(last) {
      assert From(all, k, |front|) && p(all[|front|]);
    }
    if i :| From(all, k, i) && p(all[i]) {
      assert i < |front| ==> From(front, k, i);
    }
  }

  ghost predicate Reaches(raw: seq<Seed>, k: string, c: real) {
    SomeFrom(raw, k, (r: Seed) => r.confidence >= c)
  }

  ghost predicate NamesDomain(raw: seq<Seed>, k: string, d: string) {
    SomeFrom(raw, k, (r: Seed) => HasNorm(r.domains, d))
  }

  ghost predicate Evidenced(raw: seq<Seed>, k: string, company: string, key: string, claim: Claim) {
    SomeFrom(raw, k, (r: Seed) => Submits(r.evidence, key, claim) || (Disputes(company, r) && Shows(Marker(r), key, claim)))
  }

  /** The first text of the key's seeds that is not blank, if any. */
  ghost predicate FirstNonBlank(text: string, raw: seq<Seed>, k: string, field: Seed -> string) {
    if text == "" then forall i :: From(raw, k, i) ==> Trim(field(raw[i])) == ""
    else exists i :: From(raw, k, i) && Trim(field(raw[i])) == text
                     && forall j :: From(raw, k, j) && j < i ==> Trim(field(raw[j])) == ""
  }

  lemma FirstNonBlankSnoc(text: string, front: seq<Seed>, last: Seed, k: string, field: Seed -> string)
    requires FirstNonBlank(text, front, k, field)
    ensures FirstNonBlank(if text == "" && SeedKey(NormalizeSeed(last)) == k then Trim(field(last)) else text,
                          front + [last], k, field)
  {
    var all := front + [last];
    if text != "" {
      var i :| From(front, k, i) && Trim(field(front[i])) == text
               && forall j :: From(front, k, j) && j < i ==> Trim(field(front[j])) == "";
      assert From(all, k, i);
      forall j | From(all, k, j) && j < i ensures Trim(field(all[j])) == "" {
        assert From(front, k, j);
      }
    } else {
      forall i | From(all, k, i) && i < |front| ensures Trim(field(all[i])) == "" {
        assert From(front, k, i);
      }
      if SeedKey(NormalizeSeed(last)) == k {
        assert From(all, k, |front|);
      }
    }
  }

  /** The highest confidence, every domain, the first company name and the
      first id of the seeds submitted under the key. */
  ghost predicate CarriesNames(s: Seed, raw: seq<Seed>, k: string) {
    && (forall c :: s.confidence >= c <==> Reaches(raw, k, c))
    && Ascending(s.domains)
    && (forall d :: d in s.domains <==> d != "" && NamesDomain(raw, k, d))
    && FirstNonBlank(s.companyName, raw, k, (r: Seed) => r.companyName)
    && FirstNonBlank(s.id, raw, k, (r: Seed) => r.id)
  }

  /** All their evidence, and a mark for every company name but the first. */
  ghost predicate CarriesEvidence(s: Seed, raw: seq<Seed>, k: string) {
    forall key, claim :: Shown(s.evidence, key, claim) <==> Evidenced(raw, k, s.companyName, key, claim)
  }

  /** No two items of one key, marks included, disagree on naming a value. */
  ghost predicate AlignedSeeds(raw: seq<Seed>, valueless: set<string>) {
    forall i :: 0 <= i < |raw| ==> Aligned(raw[i].evidence + [Marker(raw[i])], valueless)
  }

  lemma NamesSnoc(front: seq<Seed>, last: Seed, k: string)
    ensures var mine := SeedKey(NormalizeSeed(last)) == k;
            && (forall c :: Reaches(front + [last], k, c) <==> Reaches(front, k, c) || (mine && last.confidence >= c))
            && (forall d :: NamesDomain(front + [last], k, d) <==> NamesDomain(front, k, d) || (mine && HasNorm(last.domains, d)))
  {
    var mine := SeedKey(NormalizeSeed(last)) == k;
    forall c ensures Reaches(front + [last], k, c) <==> Reaches(front, k, c) || (mine && last.confidence >= c) {
      SomeFromSnoc(front, last, k, (r: Seed) => r.confidence >= c);
    }
    forall d ensures NamesDomain(front + [last], k, d) <==> NamesDomain(front, k, d) || (mine && HasNorm(last.domains, d)) {
      SomeFromSnoc(front, last, k, (r: Seed) => HasNorm(r.domains, d));
    }
  }

  lemma EvidencedSnoc(front: seq<Seed>, last: Seed, k: string, company: string, key: string, claim: Claim)
    ensures Evidenced(front + [last], k, company, key, claim)
            <==> Evidenced(front, k, company, key, claim)
                 || (SeedKey(NormalizeSeed(last)) == k
                     && (Submits(last.evidence, key, claim) || (Disputes(company, last) && Shows(Marker(last), key, claim))))
  {
    SomeFromSnoc(front, last, k,
      (r: Seed) => Submits(r.evidence, key, claim) || (Disputes(company, r) && Shows(Marker(r), key, claim)));
  }

  /** Seeds without a company name dispute none. */
  lemma NoDisputeYet(front: seq<Seed>, k: string, company: string, key: string, claim: Claim)
    requires FirstNonBlank("", front, k, (r: Seed) => r.companyName)
    ensures Evidenced(front, k, company, key, claim) <==> Evidenced(front, k, "", key, claim)
  {
    if i :| From(front, k, i) && (Submits(front[i].evidence, key, claim)
                                  || (Disputes(company, front[i]) && Shows(Marker(front[i]), key, claim))) {
      var p := (r: Seed) => Submits(r.evidence, key, claim) || (Disputes("", r) && Shows(Marker(r), key, claim));
      assert p(front[i]);
    }
    if i :| From(front, k, i) && Submits(front[i].evidence, key, claim) {
      var p := (r: Seed) => Submits(r.evidence, key, claim) || (Disputes(company, r) && Shows(Marker(r), key, claim));
      assert p(front[i]);
    }
  }

  // ----- one more submitted seed -----

  lemma NamesFirst(s: Seed, front: seq<Seed>, last: Seed, k: string)
    requires (forall i :: !From(front, k, i)) && SeedKey(NormalizeSeed(last)) == k && Stores(s, last)
    ensures CarriesNames(s, front + [last], k)
  {
    NamesSnoc(front, last, k);
    FirstNonBlankSnoc("", front, last, k, (r: Seed) => r.companyName);
    FirstNonBlankSnoc("", front, last, k, (r: Seed) => r.id);
  }

  lemma NamesNext(s: Seed, m: Seed, front: seq<Seed>, last: Seed, k: string)
    requires CarriesNames(s, front, k) && SeedKey(NormalizeSeed(last)) == k && CombinesNames(s, m, last)
    ensures CarriesNames(m, front + [last], k)
  {
    NamesSnoc(front, last, k);
    FirstNonBlankSnoc(s.companyName, front, last, k, (r: Seed) => r.companyName);
    FirstNonBlankSnoc(s.id, front, last, k, (r: Seed) => r.id);
  }

  lemma NamesOther(s: Seed, front: seq<Seed>, last: Seed, k: string)
    requires CarriesNames(s, front, k) && SeedKey(NormalizeSeed(last)) != k
    ensures CarriesNames(s, front + [last], k)
  {
    NamesSnoc(front, last, k);
    FirstNonBlankSnoc(s.companyName, front, last, k, (r: Seed) => r.companyName);
    FirstNonBlankSnoc(s.id, front, last, k, (r: Seed) => r.id);
  }

  ghost predicate Sourced(s: Seed, raw: seq<Seed>, k: string, valueless: set<string>) {
    CarriesEvidence(s, raw, k) && Aligned(s.evidence, valueless)
  }

  lemma EvidenceFirst(s: Seed, front: seq<Seed>, last: Seed, k: string, valueless: set<string>)
    requires (forall i :: !From(front, k, i)) && SeedKey(NormalizeSeed(last)) == k && Stores(s, last)
    requires Aligned(last.evidence, valueless)
    ensures Sourced(s, front + [last], k, valueless)
  {
    assert [] + last.evidence == last.evidence;
    GatheredAligned(s.evidence, [], last.evidence, valueless);
    forall key, claim ensures Shown(s.evidence, key, claim) <==> Evidenced(front + [last], k, s.companyName, key, claim) {
      EvidencedSnoc(front, last, k, s.companyName, key, claim);
    }
  }

  lemma EvidenceNext(s: Seed, m: Seed, front: seq<Seed>, last: Seed, k: string, valueless: set<string>)
    requires CarriesNames(s, front, k) && Sourced(s, front, k, valueless)
    requires SeedKey(NormalizeSeed(last)) == k && Combines(s, m, last, [])
    requires Aligned(last.evidence + [Marker(last)], valueless)
    ensures Sourced(m, front + [last], k, valueless)
  {
    var before := s.evidence + Dispute(s, last);
    assert last.evidence + [] == last.evidence;
    AlignedPart(last.evidence + [Marker(last)], last.evidence, valueless);
    assert Marker(last) in last.evidence + [Marker(last)];
    assert Aligned(before, valueless);
    assert Agreeing(before + last.evidence);
    GatheredAligned(m.evidence, before, last.evidence, valueless);
    forall key, claim ensures Shown(m.evidence, key, claim) <==> Evidenced(front + [last], k, m.companyName, key, claim) {
      EvidencedSnoc(front, last, k, m.companyName, key, claim);
      if s.companyName == "" {
        NoDisputeYet(front, k, m.companyName, key, claim);
        assert before == s.evidence;
      } else if Disputes(s.companyName, last) {
        ShownSplit(s.evidence, Marker(last), key, claim);
      } else {
        assert before == s.evidence;
      }
    }
  }

  lemma EvidenceOther(s: Seed, front: seq<Seed>, last: Seed, k: string, valueless: set<string>)
    requires Sourced(s, front, k, valueless) && SeedKey(NormalizeSeed(last)) != k
    ensures Sourced(s, front + [last], k, valueless)
  {
    forall key, claim ensures Shown(s.evidence, key, claim) <==> Evidenced(front + [last], k, s.companyName, key, claim) {
      EvidencedSnoc(front, last, k, s.companyName, key, claim);
    }
  }

  // ----- the deduplicated list -----

  ghost predicate Carries(s: Seed, raw: seq<Seed>, k: string, valueless: set<string>) {
    CarriesNames(s, raw, k) && (AlignedSeeds(raw, valueless) ==> Sourced(s, raw, k, valueless))
  }

  ghost predicate AllCarry(order: seq<Filed>, raw: seq<Seed>, valueless: set<string>) {
    forall j :: 0 <= j < |order| ==> Carries(order[j].seed, raw, order[j].key, valueless)
  }

  ghost predicate AllFiled(order: seq<Filed>, raw: seq<Seed>) {
    forall i :: 0 <= i < |raw| ==> SeedKey(NormalizeSeed(raw[i])) in FiledKeys(order)
  }

  lemma AlignedFront(front: seq<Seed>, last: Seed, valueless: set<string>)
    requires AlignedSeeds(front + [last], valueless)
    ensures AlignedSeeds(front, valueless) && Aligned(last.evidence + [Marker(last)], valueless)
    ensures Aligned(last.evidence, valueless)
  {
    var all := front + [last];
    forall i | 0 <= i < |front| ensures Aligned(front[i].evidence + [Marker(front[i])], valueless) {
      assert all[i] == front[i];
    }
    assert all[|front|] == last;
    AlignedPart(last.evidence + [Marker(last)], last.evidence, valueless);
  }

  lemma CarriesOwn(s: Seed, front: seq<Seed>, last: Seed, k: string, valueless: set<string>)
    requires NormalSeed(s) && Carries(s, front, k, valueless) && SeedKey(NormalizeSeed(last)) == k
    ensures Carries(MergeSeeds(s, NormalizeSeed(last)), front + [last], k, valueless)
  {
    var m := MergeSeeds(s, NormalizeSeed(last));
    MergedWithNothing(s, last, m);
    NamesNext(s, m, front, last, k);
    if AlignedSeeds(front + [last], valueless) {
      AlignedFront(front, last, valueless);
      EvidenceNext(s, m, front, last, k, valueless);
    }
  }

  lemma CarriesOther(s: Seed, front: seq<Seed>, last: Seed, k: string, valueless: set<string>)
    requires Carries(s, front, k, valueless) && SeedKey(NormalizeSeed(last)) != k
    ensures Carries(s, front + [last], k, valueless)
  {
    NamesOther(s, front, last, k);
    if AlignedSeeds(front + [last], valueless) {
      AlignedFront(front, last, valueless);
      EvidenceOther(s, front, last, k, valueless);
    }
  }

  lemma CarriesFirst(front: seq<Seed>, last: Seed, k: string, valueless: set<string>)
    requires (forall i :: !From(front, k, i)) && SeedKey(NormalizeSeed(last)) == k
    ensures Carries(NormalizeSeed(last), front + [last], k, valueless)
  {
    NormalizedStores(last);
    NamesFirst(NormalizeSeed(last), front, last, k);
    if AlignedSeeds(front + [last], valueless) {
      AlignedFront(front, last, valueless);
      EvidenceFirst(NormalizeSeed(last), front, last, k, valueless);
    }
  }

  lemma AbsorbCarries(order: seq<Filed>, front: seq<Seed>, last: Seed, valueless: set<string>)
    requires WellFiled(order) && AllFiled(order, front) && AllCarry(order, front, valueless)
    ensures var next := Absorb(order, NormalizeSeed(last));
            AllFiled(next, front + [last]) && AllCarry(next, front + [last], valueless)
  {
    var key := SeedKey(NormalizeSeed(last));
    var next := Absorb(order, NormalizeSeed(last));
    var all := front + [last];
    forall i | 0 <= i < |all| ensures SeedKey(NormalizeSeed(all[i])) in FiledKeys(next) {
      assert i < |front| ==> all[i] == front[i];
      if key !in FiledKeys(order) {
        assert FiledKeys(next)[|order|] == key;
      }
    }
    forall j | 0 <= j < |next| ensures Carries(next[j].seed, all, next[j].key, valueless) {
      if j == |order| {
        CarriesFirst(front, last, key, valueless);
      } else if order[j].key == key {
        assert FiledKeys(order)[j] in FiledKeys(order);
        CarriesOwn(order[j].seed, front, last, key, valueless);
      } else {
        CarriesOther(order[j].seed, front, last, order[j].key, valueless);
      }
    }
  }

  lemma {:induction false} DedupeCarries(raw: seq<Seed>, valueless: set<string>)
    requires AllCommaFree(raw)
    ensures AllFiled(Dedupe(raw), raw) && AllCarry(Dedupe(raw), raw, valueless)
  {
    if raw != [] {
      var front, last := raw[..|raw| - 1], raw[|raw| - 1];
      DedupeCarries(front, valueless);
      DedupeFiles(front);
      AbsorbCarries(Dedupe(front), front, last, valueless);
      assert front + [last] == raw;
    }
  }

  ghost predicate AgreeingSeeds(raw: seq<Seed>) {
    exists valueless :: AlignedSeeds(raw, valueless)
  }

  /** The first frontier: one seed per submitted key, carrying what was
      submitted under it. */
  lemma InitializedCarries(raw: seq<Seed>, maxDepth: int)
    requires AllCommaFree(raw)
    ensures var f := Initialized(raw, maxDepth);
            && Keys(f.seeds) == FirstSeen(NormalizedKeys(raw))
            && f.active == f.seeds && f.pending == [] && f.depth == 0 && !f.reserved && !f.inProgress
            && forall j :: 0 <= j < |f.seeds| ==>
                             && CarriesNames(f.seeds[j], raw, SeedKey(f.seeds[j]))
                             && (AgreeingSeeds(raw) ==> CarriesEvidence(f.seeds[j], raw, SeedKey(f.seeds[j])))
  {
    var order := Dedupe(raw);
    InitializedInv(raw, maxDepth);
    DedupeFiles(raw);
    DedupeCarries(raw, {});
    if valueless :| AlignedSeeds(raw, valueless) {
      DedupeCarries(raw, valueless);
    }
    forall j | 0 <= j < |order|
      ensures order[j].key == SeedKey(order[j].seed) && CarriesNames(order[j].seed, raw, order[j].key)
      ensures AgreeingSeeds(raw) ==> CarriesEvidence(order[j].seed, raw, order[j].key)
    {
    }
  }
}
