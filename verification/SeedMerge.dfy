/** What merging carries over: the evidence, confidence, names and domains of
    a merged seed, read off the seeds that went in. */
module SeedMerges {
  import opened Text
  import opened Seeds

  // ----- what a list of evidence shows -----

  /** What a list of evidence may show under a key: an item, an item of some
      confidence, a reasoned item, one with or without a value. */
  datatype Claim = Present | AtLeast(confidence: real) | Reasoned | Valued(yes: bool)

  predicate Shows(e: Evidence, key: string, claim: Claim) {
    EvidenceKey(e) == key &&
    match claim
    case Present => true
    case AtLeast(c) => e.confidence >= c
    case Reasoned => e.reasoned
    case Valued(yes) => yes == (Norm(e.value) != "")
  }

  ghost predicate Shown(list: seq<Evidence>, key: string, claim: Claim) {
    exists e :: e in list && Shows(e, key, claim)
  }

  /** The same of evidence as it is submitted, where a blank item says
      nothing. */
  ghost predicate Submits(list: seq<Evidence>, key: string, claim: Claim) {
    exists e :: e in list && !Blank(e) && Shows(e, key, claim)
  }

  /** Under every key the highest confidence, the disjunction of the reasoned
      flags, and no key that neither side had. */
  ghost predicate Gathers(after: seq<Evidence>, before: seq<Evidence>, submitted: seq<Evidence>) {
    forall key, claim :: Shown(after, key, claim) <==> Shown(before, key, claim) || Submits(submitted, key, claim)
  }

  ghost predicate NormalItems(list: seq<Evidence>) {
    forall e :: e in list ==> NormalizeEvidence(e) == e
  }

  lemma ShownSplit(list: seq<Evidence>, e: Evidence, key: string, claim: Claim)
    ensures Shown(list + [e], key, claim) <==> Shown(list, key, claim) || Shows(e, key, claim)
  {
    assert forall x :: x in list + [e] <==> x in list || x == e;
  }

  lemma SubmitsSplit(list: seq<Evidence>, key: string, claim: Claim)
    requires list != []
    ensures Submits(list, key, claim)
            <==> (!Blank(list[0]) && Shows(list[0], key, claim)) || Submits(list[1..], key, claim)
  {
    assert forall x :: x in list <==> x == list[0] || x in list[1..] by {
      assert list == [list[0]] + list[1..];
    }
  }

  lemma SubmitsAppend(a: seq<Evidence>, b: seq<Evidence>, key: string, claim: Claim)
    ensures Submits(a + b, key, claim) <==> Submits(a, key, claim) || Submits(b, key, claim)
  {
    assert forall x :: x in a + b <==> x in a || x in b;
  }

  /** Normalising an item changes neither its key nor what it shows. */
  lemma NormalizedShows(e: Evidence)
    ensures EvidenceKey(NormalizeEvidence(e)) == EvidenceKey(e)
    ensures NormalizeEvidence(NormalizeEvidence(e)) == NormalizeEvidence(e)
    ensures Blank(NormalizeEvidence(e)) <==> Blank(e)
    ensures forall key, claim :: Shows(NormalizeEvidence(e), key, claim) <==> Shows(e, key, claim)
  {
    NormFixes(e.source);
    NormFixes(e.kind);
    NormFixes(e.value);
  }

  // ----- items of one key -----

  /** Items of one key agree on whether they name a value. */
  ghost predicate Agreeing(list: seq<Evidence>) {
    forall x, y :: x in list && y in list && EvidenceKey(x) == EvidenceKey(y) ==> (Norm(x.value) == "" <==> Norm(y.value) == "")
  }

  /** The same, against a given set of keys that name no value. */
  ghost predicate Aligned(list: seq<Evidence>, valueless: set<string>) {
    forall e :: e in list ==> (Norm(e.value) == "" <==> EvidenceKey(e) in valueless)
  }

  function Valueless(list: seq<Evidence>): set<string> {
    set e | e in list && Norm(e.value) == "" :: EvidenceKey(e)
  }

  lemma AgreeingAligned(list: seq<Evidence>)
    requires Agreeing(list)
    ensures Aligned(list, Valueless(list))
  {
  }

  /** A merge of an item into a stored one of its key moves the stored one to
      another key exactly when the stored one names no value and the new one
      does... */
  lemma RaiseKeepsKeyIff(item: Evidence, e: Evidence)
    requires EvidenceKey(item) == EvidenceKey(e)
    ensures EvidenceKey(Raise(item, e)) == EvidenceKey(item) <==> !(item.value == "" && Norm(e.value) != "")
  {
  }

  /** ...which takes a bar in the source or the kind. */
  lemma BarMovesEvidence()
    ensures var item, e := Evidence("a|b", "", "", 0.0, false), Evidence("a", "b", "|", 0.0, false);
            && EvidenceKey(item) == EvidenceKey(e)
            && !Shown(MergeEvidence([item], [e]), EvidenceKey(item), Present)
  {
    var item, e := Evidence("a|b", "", "", 0.0, false), Evidence("a", "b", "|", 0.0, false);
    NormOfFixed("a|b");
    NormOfFixed("a");
    NormOfFixed("b");
    NormOfFixed("|");
    NormOfFixed("");
    assert EvidenceKey(item) == "a|b||" == EvidenceKey(e);
    assert [item][..0] == [] && IndexEvidence([item]) == map["a|b||" := 0];
    assert [e][1..] == [];
    RaiseKeepsKeyIff(item, e);
    assert [item][0 := Raise(item, e)] == [Raise(item, e)];
    assert NormalizeEvidence(e) == e && !Blank(e);
    assert MergeFrom([Raise(item, e)], map["a|b||" := 0], []) == [Raise(item, e)];
    assert MergeEvidence([item], [e]) == [Raise(item, e)];
  }

  // ----- merging evidence -----

  ghost predicate Indexed(list: seq<Evidence>, index: map<string, nat>) {
    && (forall k :: k in index ==> index[k] < |list| && EvidenceKey(list[index[k]]) == k)
    && (forall i :: 0 <= i < |list| ==> EvidenceKey(list[i]) in index)
  }

  lemma IndexedSnoc(front: seq<Evidence>, index: map<string, nat>, e: Evidence)
    requires Indexed(front, index)
    ensures Indexed(front + [e], index[EvidenceKey(e) := |front|])
  {
  }

  lemma {:induction false} IndexEvidenceIndexed(list: seq<Evidence>)
    ensures Indexed(list, IndexEvidence(list))
  {
    if list != [] {
      var front, last := list[..|list| - 1], list[|list| - 1];
      IndexEvidenceIndexed(front);
      IndexedSnoc(front, IndexEvidence(front), last);
      assert front + [last] == list;
    }
  }

  /** A stored item raised by a normal one of its key shows what the two do. */
  lemma RaiseShows(item: Evidence, e: Evidence, key: string, claim: Claim)
    requires EvidenceKey(item) == EvidenceKey(e) && NormalizeEvidence(e) == e
    requires Norm(item.value) == "" <==> Norm(e.value) == ""
    ensures EvidenceKey(Raise(item, e)) == EvidenceKey(item)
    ensures Norm(Raise(item, e).value) == "" <==> Norm(item.value) == ""
    ensures NormalizeEvidence(item) == item ==> NormalizeEvidence(Raise(item, e)) == Raise(item, e)
    ensures Shows(Raise(item, e), key, claim) <==> Shows(item, key, claim) || Shows(e, key, claim)
  {
    RaiseKeepsKeyIff(item, e);
  }

  lemma ReplacedShown(list: seq<Evidence>, i: nat, raised: Evidence, e: Evidence, key: string, claim: Claim)
    requires i < |list|
    requires Shows(raised, key, claim) <==> Shows(list[i], key, claim) || Shows(e, key, claim)
    ensures Shown(list[i := raised], key, claim) <==> Shown(list, key, claim) || Shows(e, key, claim)
  {
    var next := list[i := raised];
    if x :| x in list && Shows(x, key, claim) {
      var j :| 0 <= j < |list| && list[j] == x;
      assert next[j] in next && (Shows(next[j], key, claim) || j == i);
    }
    assert next[i] in next && list[i] in list;
    if x :| x in next && Shows(x, key, claim) {
      var j :| 0 <= j < |next| && next[j] == x;
      assert j != i ==> list[j] in list;
    }
  }

  /** What one stored list gives to the rest of the merge. */
  ghost predicate Ready(list: seq<Evidence>, index: map<string, nat>, valueless: set<string>, normal: bool) {
    Indexed(list, index) && Aligned(list, valueless) && (normal ==> NormalItems(list))
  }

  lemma RaisedReady(list: seq<Evidence>, index: map<string, nat>, i: nat, raised: Evidence, valueless: set<string>, normal: bool)
    requires Ready(list, index, valueless, normal) && i < |list|
    requires EvidenceKey(raised) == EvidenceKey(list[i]) && (Norm(raised.value) == "" <==> Norm(list[i].value) == "")
    requires normal ==> NormalizeEvidence(raised) == raised
    ensures Ready(list[i := raised], index, valueless, normal)
  {
    var next := list[i := raised];
    assert list[i] in list;
    forall x | x in next ensures x == raised || x in list {
      var j :| 0 <= j < |next| && next[j] == x;
    }
  }

  lemma AppendedReady(list: seq<Evidence>, index: map<string, nat>, e: Evidence, valueless: set<string>, normal: bool)
    requires Ready(list, index, valueless, normal) && EvidenceKey(e) !in index
    requires Norm(e.value) == "" <==> EvidenceKey(e) in valueless
    requires NormalizeEvidence(e) == e
    ensures Ready(list + [e], index[EvidenceKey(e) := |list|], valueless, normal)
  {
  }

  /** Merging gathers, and what it stores is normal. */
  lemma {:induction false} MergeFromGathers(list: seq<Evidence>, index: map<string, nat>, incoming: seq<Evidence>,
                                            valueless: set<string>, normal: bool, key: string, claim: Claim)
    requires Ready(list, index, valueless, normal) && Aligned(incoming, valueless)
    ensures var merged := MergeFrom(list, index, incoming);
            && (Shown(merged, key, claim) <==> Shown(list, key, claim) || Submits(incoming, key, claim))
            && Aligned(merged, valueless)
            && (normal ==> NormalItems(merged))
    decreases |incoming|
  {
    if incoming == [] {
    } else if Blank(incoming[0]) {
      SubmitsSplit(incoming, key, claim);
      MergeFromGathers(list, index, incoming[1..], valueless, normal, key, claim);
    } else {
      SubmitsSplit(incoming, key, claim);
      var e := NormalizeEvidence(incoming[0]);
      var (next, index') := MergeStep(list, index, e);
      MergeStepShown(list, index, incoming[0], valueless, normal, key, claim);
      MergeFromGathers(next, index', incoming[1..], valueless, normal, key, claim);
    }
  }

  function MergeStep(list: seq<Evidence>, index: map<string, nat>, e: Evidence): (seq<Evidence>, map<string, nat>)
    requires forall k :: k in index ==> index[k] < |list|
  {
    var key := EvidenceKey(e);
    if key in index then (list[index[key] := Raise(list[index[key]], e)], index)
    else (list + [e], index[key := |list|])
  }

  lemma MergeStepShown(list: seq<Evidence>, index: map<string, nat>, item: Evidence,
                       valueless: set<string>, normal: bool, key: string, claim: Claim)
    requires Ready(list, index, valueless, normal)
    requires Norm(item.value) == "" <==> EvidenceKey(item) in valueless
    ensures var (next, index') := MergeStep(list, index, NormalizeEvidence(item));
            && Ready(next, index', valueless, normal)
            && (Shown(next, key, claim) <==> Shown(list, key, claim) || Shows(item, key, claim))
  {
    var e := NormalizeEvidence(item);
    NormalizedShows(item);
    NormFixes(item.value);
    if EvidenceKey(e) in index {
      var i := index[EvidenceKey(e)];
      assert list[i] in list;
      RaiseShows(list[i], e, key, claim);
      RaisedReady(list, index, i, Raise(list[i], e), valueless, normal);
      ReplacedShown(list, i, Raise(list[i], e), e, key, claim);
    } else {
      AppendedReady(list, index, e, valueless, normal);
      ShownSplit(list, e, key, claim);
    }
  }

  lemma MergeGathers(existing: seq<Evidence>, incoming: seq<Evidence>, valueless: set<string>)
    requires Aligned(existing, valueless) && Aligned(incoming, valueless)
    ensures Gathers(MergeEvidence(existing, incoming), existing, incoming)
    ensures Aligned(MergeEvidence(existing, incoming), valueless)
    ensures NormalItems(existing) ==> NormalItems(MergeEvidence(existing, incoming))
  {
    IndexEvidenceIndexed(existing);
    forall key, claim
      ensures Shown(MergeEvidence(existing, incoming), key, claim)
              <==> Shown(existing, key, claim) || Submits(incoming, key, claim)
    {
      MergeFromGathers(existing, IndexEvidence(existing), incoming, valueless, false, key, claim);
    }
    MergeFromGathers(existing, IndexEvidence(existing), incoming, valueless, NormalItems(existing), "", Present);
  }

  /** With no bar in sources and kinds the key tells the item, so the items of
      one key agree. */
  lemma KeyTellsItem(x: Evidence, y: Evidence)
    requires BarFree(Norm(x.source)) && BarFree(Norm(x.kind)) && BarFree(Norm(y.source)) && BarFree(Norm(y.kind))
    requires EvidenceKey(x) == EvidenceKey(y)
    ensures Norm(x.source) == Norm(y.source) && Norm(x.kind) == Norm(y.kind) && Norm(x.value) == Norm(y.value)
  {
    var (s, k, v) := (Norm(x.source), Norm(x.kind), Norm(x.value));
    var (s', k', v') := (Norm(y.source), Norm(y.kind), Norm(y.value));
    assert s + "|" + (k + "|" + v) == s + "|" + k + "|" + v;
    assert s' + "|" + (k' + "|" + v') == s' + "|" + k' + "|" + v';
    SplitFirstBar(s, k + "|" + v, s', k' + "|" + v');
    SplitFirstBar(k, v, k', v');
  }

  ghost predicate BarFreeItems(list: seq<Evidence>) {
    forall e :: e in list ==> BarFree(Norm(e.source)) && BarFree(Norm(e.kind))
  }

  lemma BarFreeAgree(list: seq<Evidence>)
    requires BarFreeItems(list)
    ensures Agreeing(list)
  {
    forall x, y | x in list && y in list && EvidenceKey(x) == EvidenceKey(y) ensures Norm(x.value) == Norm(y.value) {
      KeyTellsItem(x, y);
    }
  }

  // ----- merging seeds -----

  /** A stored company name that is not the incoming one is not overwritten... */
  predicate Disputes(company: string, raw: Seed) {
    company != "" && Trim(raw.companyName) != "" && Lower(company) != Norm(raw.companyName)
  }

  /** ...the dispute is put on record. */
  function Marker(raw: Seed): Evidence {
    Evidence("seed_merge", "company_name", Norm(raw.companyName), 0.0, false)
  }

  function Dispute(stored: Seed, raw: Seed): seq<Evidence> {
    if Disputes(stored.companyName, raw) then [Marker(raw)] else []
  }

  function Larger(a: real, b: real): real {
    if a >= b then a else b
  }

  ghost predicate DomainUnion(merged: seq<string>, stored: seq<string>, raw: seq<string>) {
    && Ascending(merged)
    && forall d :: d in merged <==> d in stored || (d != "" && HasNorm(raw, d))
  }

  /** What the stored seed becomes when raw is submitted under its key, along
      with further evidence. */
  ghost predicate Combines(stored: Seed, merged: Seed, raw: Seed, extra: seq<Evidence>) {
    && CombinesNames(stored, merged, raw)
    && GathersFrom(merged.evidence, stored.evidence + Dispute(stored, raw), raw.evidence + extra)
  }

  ghost predicate CombinesNames(stored: Seed, merged: Seed, raw: Seed) {
    && merged.id == (if stored.id != "" then stored.id else Trim(raw.id))
    && merged.companyName == (if stored.companyName != "" then stored.companyName else Trim(raw.companyName))
    && DomainUnion(merged.domains, stored.domains, raw.domains)
    && merged.confidence == Larger(stored.confidence, raw.confidence)
  }

  /** Items that agree are gathered, in normal form. */
  ghost predicate GathersFrom(after: seq<Evidence>, before: seq<Evidence>, submitted: seq<Evidence>) {
    Agreeing(before + submitted) ==>
      Gathers(after, before, submitted) && (NormalItems(before) ==> NormalItems(after))
  }

  /** A seed stored for the first time. */
  ghost predicate Stores(stored: Seed, raw: Seed) {
    && stored.id == Trim(raw.id)
    && stored.companyName == Trim(raw.companyName)
    && DomainUnion(stored.domains, [], raw.domains)
    && stored.confidence == raw.confidence
    && GathersFrom(stored.evidence, [], raw.evidence)
  }

  lemma AlignedPart(list: seq<Evidence>, part: seq<Evidence>, valueless: set<string>)
    requires Aligned(list, valueless) && forall e :: e in part ==> e in list
    ensures Aligned(part, valueless)
  {
  }

  /** Dropping the blank items up front changes nothing. */
  lemma {:induction false} DropBlankShows(list: seq<Evidence>, valueless: set<string>)
    requires Aligned(list, valueless)
    ensures Aligned(DropBlank(list), valueless)
    ensures forall key, claim :: Submits(DropBlank(list), key, claim) <==> Submits(list, key, claim)
  {
    if list != [] {
      assert list[0] in list;
      AlignedPart(list, list[1..], valueless);
      DropBlankShows(list[1..], valueless);
      forall key, claim ensures Submits(DropBlank(list), key, claim) <==> Submits(list, key, claim) {
        SubmitsSplit(list, key, claim);
        if !Blank(list[0]) {
          SubmitsSplit(DropBlank(list), key, claim);
          assert DropBlank(list)[1..] == DropBlank(list[1..]);
          NormalizedShows(list[0]);
        }
      }
      if !Blank(list[0]) {
        NormalizedShows(list[0]);
        NormFixes(list[0].value);
      }
    }
  }

  lemma NormalizedSliceGathers(list: seq<Evidence>, valueless: set<string>)
    requires Aligned(list, valueless)
    ensures Gathers(NormalizeEvidenceSlice(list), [], list)
    ensures Aligned(NormalizeEvidenceSlice(list), valueless) && NormalItems(NormalizeEvidenceSlice(list))
  {
    DropBlankShows(list, valueless);
    MergeGathers([], DropBlank(list), valueless);
  }

  lemma BlankKeyIff(e: Evidence)
    ensures Blank(e) <==> |EvidenceKey(e)| == 2
  {
  }

  /** Nothing blank is stored. */
  lemma GatheredNonBlank(after: seq<Evidence>, submitted: seq<Evidence>)
    requires Gathers(after, [], submitted)
    ensures forall key, claim :: Submits(after, key, claim) <==> Submits(submitted, key, claim)
  {
    forall x | x in after ensures !Blank(x) {
      assert Shows(x, EvidenceKey(x), Present) && Shown(after, EvidenceKey(x), Present);
      var e :| e in submitted && !Blank(e) && Shows(e, EvidenceKey(x), Present);
      BlankKeyIff(x);
      BlankKeyIff(e);
    }
    assert forall key, claim :: Submits(after, key, claim) <==> Shown(after, key, claim);
  }

  /** The items of one list are the normal forms of the other's. */
  ghost predicate NormalFormsOf(normal: seq<Evidence>, list: seq<Evidence>) {
    |normal| == |list| && forall i :: 0 <= i < |list| ==> normal[i] == NormalizeEvidence(list[i])
  }

  lemma NormalFormsShow(normal: seq<Evidence>, list: seq<Evidence>, valueless: set<string>)
    requires NormalFormsOf(normal, list) && Aligned(list, valueless)
    ensures Aligned(normal, valueless)
    ensures forall key, claim :: Submits(normal, key, claim) <==> Submits(list, key, claim)
  {
    forall i | 0 <= i < |list|
      ensures Norm(normal[i].value) == "" <==> EvidenceKey(normal[i]) in valueless
      ensures Blank(normal[i]) <==> Blank(list[i])
      ensures forall key, claim :: Shows(normal[i], key, claim) <==> Shows(list[i], key, claim)
    {
      assert list[i] in list;
      NormalizedShows(list[i]);
      NormFixes(list[i].value);
    }
    forall key, claim ensures Submits(normal, key, claim) <==> Submits(list, key, claim) {
      if x :| x in normal && !Blank(x) && Shows(x, key, claim) {
        var i :| 0 <= i < |normal| && normal[i] == x;
        assert list[i] in list && Shows(list[i], key, claim);
      }
      if x :| x in list && !Blank(x) && Shows(x, key, claim) {
        var i :| 0 <= i < |list| && list[i] == x;
        assert normal[i] in normal && Shows(normal[i], key, claim);
      }
    }
  }

  /** Two merges, one after the other, gather what both bring. */
  lemma MergeTwice(before: seq<Evidence>, list: seq<Evidence>, more: seq<Evidence>, extra: seq<Evidence>)
    requires NormalFormsOf(more, extra)
    ensures GathersFrom(MergeEvidence(MergeEvidence(before, NormalizeEvidenceSlice(list)), more), before, list + extra)
  {
    var all := before + (list + extra);
    if Agreeing(all) {
      var valueless := Valueless(all);
      var slice := NormalizeEvidenceSlice(list);
      AgreeingAligned(all);
      AlignedPart(all, before, valueless);
      AlignedPart(all, list, valueless);
      AlignedPart(all, extra, valueless);
      NormalizedSliceGathers(list, valueless);
      GatheredNonBlank(slice, list);
      NormalFormsShow(more, extra, valueless);
      MergeGathers(before, slice, valueless);
      MergeGathers(MergeEvidence(before, slice), more, valueless);
      forall key, claim ensures Submits(list + extra, key, claim) <==> Submits(slice, key, claim) || Submits(more, key, claim) {
        SubmitsAppend(list, extra, key, claim);
      }
    }
  }

  lemma MergedDomains(stored: seq<string>, raw: seq<string>)
    requires NormalList(stored)
    ensures DomainUnion(UniqueNormalized(stored + UniqueNormalized(raw)), stored, raw)
  {
    UniqueNormalizedIsNormal(raw);
    UniqueNormalizedUnion(stored, UniqueNormalized(raw));
    UniqueNormalizedContents(raw);
  }

  lemma DisputeRecorded(stored: Seed, raw: Seed)
    ensures MergeSeeds(stored, NormalizeSeed(raw)).evidence
            == MergeEvidence(stored.evidence + Dispute(stored, raw), NormalizeEvidenceSlice(raw.evidence))
  {
    NormFixes(raw.companyName);
    assert stored.evidence + [] == stored.evidence;
  }

  lemma MergedEvidence(stored: Seed, raw: Seed, first: seq<Evidence>, more: seq<Evidence>, extra: seq<Evidence>)
    requires NormalFormsOf(more, extra)
    requires first == MergeEvidence(stored.evidence + Dispute(stored, raw), NormalizeEvidenceSlice(raw.evidence))
    ensures GathersFrom(MergeEvidence(first, more), stored.evidence + Dispute(stored, raw), raw.evidence + extra)
  {
    MergeTwice(stored.evidence + Dispute(stored, raw), raw.evidence, more, extra);
  }

  lemma MergedNames(stored: Seed, raw: Seed, evidence: seq<Evidence>)
    requires NormalSeed(stored)
    ensures CombinesNames(stored, MergeSeeds(stored, NormalizeSeed(raw)).(evidence := evidence), raw)
  {
    MergedDomains(stored.domains, raw.domains);
  }

  /** A merge with a seed as submitted, and with more evidence, combines. */
  lemma MergedCombines(stored: Seed, raw: Seed, more: seq<Evidence>, extra: seq<Evidence>)
    requires NormalSeed(stored) && NormalFormsOf(more, extra)
    ensures var m := MergeSeeds(stored, NormalizeSeed(raw));
            Combines(stored, m.(evidence := MergeEvidence(m.evidence, more)), raw, extra)
  {
    var m := MergeSeeds(stored, NormalizeSeed(raw));
    MergedNames(stored, raw, MergeEvidence(m.evidence, more));
    DisputeRecorded(stored, raw);
    MergedEvidence(stored, raw, m.evidence, more, extra);
  }

  lemma MergedWithNothing(stored: Seed, raw: Seed, m: Seed)
    requires NormalSeed(stored) && m == MergeSeeds(stored, NormalizeSeed(raw))
    ensures Combines(stored, m, raw, [])
  {
    var none: seq<Evidence> := [];
    MergedCombines(stored, raw, none, none);
    assert m.(evidence := MergeEvidence(m.evidence, none)) == m;
  }

  lemma NormalizedStores(raw: Seed)
    ensures Stores(NormalizeSeed(raw), raw)
  {
    UniqueNormalizedContents(raw.domains);
    assert [] + raw.evidence == raw.evidence;
    if Agreeing(raw.evidence) {
      AgreeingAligned(raw.evidence);
      NormalizedSliceGathers(raw.evidence, Valueless(raw.evidence));
    }
  }

  /** The evidence of a seed stored for the first time, and one merge more. */
  lemma SliceAndMore(list: seq<Evidence>, more: seq<Evidence>, extra: seq<Evidence>)
    requires NormalFormsOf(more, extra)
    ensures GathersFrom(MergeEvidence(NormalizeEvidenceSlice(list), more), [], list + extra)
  {
    var all := list + extra;
    assert [] + all == all;
    if Agreeing(all) {
      var valueless := Valueless(all);
      var slice := NormalizeEvidenceSlice(list);
      AgreeingAligned(all);
      AlignedPart(all, list, valueless);
      AlignedPart(all, extra, valueless);
      NormalizedSliceGathers(list, valueless);
      NormalFormsShow(more, extra, valueless);
      MergeGathers(slice, more, valueless);
      forall key, claim ensures Submits(all, key, claim) <==> Shown(slice, key, claim) || Submits(more, key, claim) {
        SubmitsAppend(list, extra, key, claim);
      }
    }
  }

  /** Gathering items that agree keeps them in agreement. */
  lemma GatheredAligned(after: seq<Evidence>, before: seq<Evidence>, submitted: seq<Evidence>, valueless: set<string>)
    requires Gathers(after, before, submitted) && Aligned(before, valueless) && Aligned(submitted, valueless)
    ensures Aligned(after, valueless)
  {
    forall e | e in after ensures Norm(e.value) == "" <==> EvidenceKey(e) in valueless {
      var claim := Valued(Norm(e.value) != "");
      assert Shows(e, EvidenceKey(e), claim) && Shown(after, EvidenceKey(e), claim);
      if x :| x in before && Shows(x, EvidenceKey(e), claim) {
      } else {
        var y :| y in submitted && !Blank(y) && Shows(y, EvidenceKey(e), claim);
      }
    }
  }
}
