/** Seeds, their evidence and the key the scheduler knows them by
    (internal/models/seed_helpers.go). */
module Seeds {
  import opened Text

  datatype Evidence = Evidence(source: string, kind: string, value: string, confidence: real, reasoned: bool)

  datatype Seed = Seed(
    id: string,
    companyName: string,
    domains: seq<string>,
    confidence: real,
    evidence: seq<Evidence>)

  // ----- evidence -----

  function NormalizeEvidence(e: Evidence): Evidence {
    e.(source := Norm(e.source), kind := Norm(e.kind), value := Norm(e.value))
  }

  predicate Blank(e: Evidence) {
    Norm(e.source) == "" && Norm(e.kind) == "" && Norm(e.value) == ""
  }

  function EvidenceKey(e: Evidence): string {
    Norm(e.source) + "|" + Norm(e.kind) + "|" + Norm(e.value)
  }

  predicate HasReasoned(list: seq<Evidence>) {
    exists i :: 0 <= i < |list| && list[i].reasoned
  }

  /** Position of the last item under each key. */
  function IndexEvidence(list: seq<Evidence>): (index: map<string, nat>)
    ensures forall k :: k in index ==> index[k] < |list|
  {
    if list == [] then map[]
    else IndexEvidence(list[..|list| - 1])[EvidenceKey(list[|list| - 1]) := |list| - 1]
  }

  function Raise(item: Evidence, e: Evidence): Evidence {
    item.(
      confidence := if e.confidence > item.confidence then e.confidence else item.confidence,
      reasoned := item.reasoned || e.reasoned,
      value := if item.value == "" then e.value else item.value)
  }

  function MergeFrom(list: seq<Evidence>, index: map<string, nat>, incoming: seq<Evidence>): seq<Evidence>
    requires forall k :: k in index ==> index[k] < |list|
    decreases |incoming|
  {
    if incoming == [] then list
    else if Blank(incoming[0]) then MergeFrom(list, index, incoming[1..])
    else
      var e := NormalizeEvidence(incoming[0]);
      var key := EvidenceKey(e);
      if key in index
      then MergeFrom(list[index[key] := Raise(list[index[key]], e)], index, incoming[1..])
      else MergeFrom(list + [e], index[key := |list|], incoming[1..])
  }

  function MergeEvidence(existing: seq<Evidence>, incoming: seq<Evidence>): seq<Evidence> {
    MergeFrom(existing, IndexEvidence(existing), incoming)
  }

  /** mergeSeedEvidence with its index map. */
  method MergeSeedEvidence(existing: seq<Evidence>, incoming: seq<Evidence>) returns (merged: seq<Evidence>)
    ensures merged == MergeEvidence(existing, incoming)
    ensures HasReasoned(merged) <==> HasReasoned(existing) || HasReasonedItem(incoming)
  {
    merged := existing;
    MergeKeepsReasoned(existing, IndexEvidence(existing), incoming);
    if |incoming| == 0 {
      return;
    }
    var index: map<string, nat> := EvidenceIndex(existing);
    for i := 0 to |incoming|
      invariant forall k :: k in index ==> index[k] < |merged|
      invariant MergeFrom(merged, index, incoming[i..]) == MergeEvidence(existing, incoming)
    {
      assert incoming[i..][1..] == incoming[i + 1..];
      var e := NormalizeEvidence(incoming[i]);
      if e.source == "" && e.kind == "" && e.value == "" {
        continue;
      }
      var key := EvidenceKey(e);
      if key in index {
        merged := merged[index[key] := Raise(merged[index[key]], e)];
        continue;
      }
      index := index[key := |merged|];
      merged := merged + [e];
    }
  }

  method EvidenceIndex(existing: seq<Evidence>) returns (index: map<string, nat>)
    ensures index == IndexEvidence(existing)
  {
    index := map[];
    for i := 0 to |existing|
      invariant index == IndexEvidence(existing[..i])
    {
      assert existing[..i + 1][..i] == existing[..i];
      index := index[EvidenceKey(existing[i]) := i];
    }
    assert existing[..|existing|] == existing;
  }

  /** A reasoned item normalisation does not drop. */
  ghost predicate HasReasonedItem(list: seq<Evidence>) {
    exists i :: 0 <= i < |list| && list[i].reasoned && !Blank(list[i])
  }

  lemma HasReasonedItemSplit(list: seq<Evidence>)
    requires list != []
    ensures HasReasonedItem(list) <==> (list[0].reasoned && !Blank(list[0])) || HasReasonedItem(list[1..])
  {
    if HasReasonedItem(list[1..]) {
      var i :| 0 <= i < |list[1..]| && list[1..][i].reasoned && !Blank(list[1..][i]);
      assert list[i + 1].reasoned;
    }
    if HasReasonedItem(list) {
      var i :| 0 <= i < |list| && list[i].reasoned && !Blank(list[i]);
      assert i > 0 ==> list[1..][i - 1].reasoned;
    }
  }

  /** Merging neither loses nor invents a reasoned verdict. */
  lemma {:induction false} MergeKeepsReasoned(list: seq<Evidence>, index: map<string, nat>, incoming: seq<Evidence>)
    requires forall k :: k in index ==> index[k] < |list|
    ensures HasReasoned(MergeFrom(list, index, incoming)) <==> HasReasoned(list) || HasReasonedItem(incoming)
    decreases |incoming|
  {
    if incoming != [] {
      HasReasonedItemSplit(incoming);
      if Blank(incoming[0]) {
        MergeKeepsReasoned(list, index, incoming[1..]);
      } else {
        var e := NormalizeEvidence(incoming[0]);
        var key := EvidenceKey(e);
        if key in index {
          var i := index[key];
          var next := list[i := Raise(list[i], e)];
          assert HasReasoned(next) <==> HasReasoned(list) || e.reasoned by {
            if HasReasoned(list) {
              var j :| 0 <= j < |list| && list[j].reasoned;
              assert next[j].reasoned;
            }
            assert e.reasoned ==> next[i].reasoned;
          }
          MergeKeepsReasoned(next, index, incoming[1..]);
        } else {
          var next := list + [e];
          assert HasReasoned(next) <==> HasReasoned(list) || e.reasoned by {
            if HasReasoned(list) {
              var j :| 0 <= j < |list| && list[j].reasoned;
              assert next[j].reasoned;
            }
            assert next[|list|] == e;
          }
          MergeKeepsReasoned(next, index[key := |list|], incoming[1..]);
        }
      }
    }
  }

  function DropBlank(list: seq<Evidence>): seq<Evidence> {
    if list == [] then []
    else if Blank(list[0]) then DropBlank(list[1..])
    else [NormalizeEvidence(list[0])] + DropBlank(list[1..])
  }

  function NormalizeEvidenceSlice(list: seq<Evidence>): seq<Evidence> {
    MergeEvidence([], DropBlank(list))
  }

  lemma {:induction false} DropBlankKeepsReasoned(list: seq<Evidence>)
    ensures HasReasonedItem(DropBlank(list)) <==> HasReasonedItem(list)
  {
    if list != [] {
      HasReasonedItemSplit(list);
      DropBlankKeepsReasoned(list[1..]);
      if !Blank(list[0]) {
        var e := NormalizeEvidence(list[0]);
        NormFixes(list[0].source);
        NormFixes(list[0].kind);
        NormFixes(list[0].value);
        assert !Blank(e);
        HasReasonedItemSplit(DropBlank(list));
        assert DropBlank(list)[1..] == DropBlank(list[1..]);
      }
    }
  }

  lemma NormalizedSliceReasoned(list: seq<Evidence>)
    ensures HasReasoned(NormalizeEvidenceSlice(list)) <==> HasReasonedItem(list)
  {
    DropBlankKeepsReasoned(list);
    MergeKeepsReasoned([], map[], DropBlank(list));
  }

  // ----- seeds -----

  function NonBlankNorms(values: seq<string>): seq<string> {
    if values == [] then []
    else if Norm(values[0]) == "" then NonBlankNorms(values[1..])
    else [Norm(values[0])] + NonBlankNorms(values[1..])
  }

  function SeedKey(s: Seed): string {
    var domains := SortStrings(NonBlankNorms(s.domains));
    if |domains| > 0 then Join(domains)
    else if Norm(s.companyName) != "" then Norm(s.companyName)
    else Trim(s.id)
  }

  function NormalizeSeed(s: Seed): Seed {
    Seed(Trim(s.id), Trim(s.companyName), UniqueNormalized(s.domains), s.confidence, NormalizeEvidenceSlice(s.evidence))
  }

  predicate EqualFold(a: string, b: string) {
    Lower(a) == Lower(b)
  }

  function MergeSeeds(existing: Seed, incoming: Seed): Seed {
    var disputed := existing.companyName != "" && incoming.companyName != ""
                    && !EqualFold(existing.companyName, incoming.companyName);
    var evidence := if disputed
                    then existing.evidence + [Evidence("seed_merge", "company_name", Norm(incoming.companyName), 0.0, false)]
                    else existing.evidence;
    Seed(
      if existing.id == "" then incoming.id else existing.id,
      if existing.companyName == "" then incoming.companyName else existing.companyName,
      UniqueNormalized(existing.domains + incoming.domains),
      if incoming.confidence > existing.confidence then incoming.confidence else existing.confidence,
      MergeEvidence(evidence, incoming.evidence))
  }

  /** What normalizeSeed establishes. */
  ghost predicate NormalSeed(s: Seed) {
    NormalList(s.domains) && Trimmed(s.companyName) && Trimmed(s.id)
  }

  /** A seed the scheduler stores: normalised, no comma inside a domain. */
  ghost predicate Storable(s: Seed) {
    NormalSeed(s) && CommaFree(s.domains)
  }

  lemma NormalizeIsStorable(s: Seed)
    ensures NormalSeed(NormalizeSeed(s))
    ensures CommaFree(s.domains) ==> Storable(NormalizeSeed(s))
    ensures HasReasoned(NormalizeSeed(s).evidence) <==> HasReasonedItem(s.evidence)
  {
    UniqueNormalizedIsNormal(s.domains);
    TrimIsTrimmed(s.id);
    TrimIsTrimmed(s.companyName);
    if CommaFree(s.domains) {
      UniqueNormalizedCommaFree(s.domains);
    }
    NormalizedSliceReasoned(s.evidence);
  }

  lemma {:induction false} NonBlankNormsFixed(values: seq<string>)
    requires forall x :: x in values ==> x != "" && Trimmed(x) && Lowered(x)
    ensures NonBlankNorms(values) == values
  {
    if values != [] {
      assert values[0] in values;
      NormOfFixed(values[0]);
      forall x | x in values[1..] ensures x in values {}
      NonBlankNormsFixed(values[1..]);
    }
  }

  /** The key of a normalised seed, spelled out. */
  lemma KeyOfNormal(s: Seed)
    requires NormalSeed(s)
    ensures SeedKey(s) ==
            if s.domains != [] then Join(s.domains)
            else if s.companyName != "" then Lower(s.companyName)
            else s.id
  {
    NonBlankNormsFixed(s.domains);
    SortAscending(s.domains);
    TrimmedIsFixed(s.companyName);
    TrimmedIsFixed(s.id);
  }

  lemma MergeIsNormal(a: Seed, b: Seed)
    requires NormalSeed(a) && NormalSeed(b)
    ensures NormalSeed(MergeSeeds(a, b))
    ensures forall x :: x in MergeSeeds(a, b).domains <==> x in a.domains || x in b.domains
  {
    UniqueNormalizedUnion(a.domains, b.domains);
  }

  /** Same key in, same key out: merging two normalised seeds of one key keeps
      the key exactly when their domain lists do not clash, that is when one
      of them names no domain or both name the same ones. */
  lemma MergeKeepsKeyIff(a: Seed, b: Seed)
    requires NormalSeed(a) && NormalSeed(b) && SeedKey(a) == SeedKey(b)
    ensures SeedKey(MergeSeeds(a, b)) == SeedKey(a)
            <==> a.domains == [] || b.domains == [] || a.domains == b.domains
  {
    var m := MergeSeeds(a, b);
    MergeIsNormal(a, b);
    KeyOfNormal(a);
    KeyOfNormal(b);
    KeyOfNormal(m);
    if a.domains == [] || b.domains == [] || a.domains == b.domains {
      if a.domains == [] {
        AscendingUnique(m.domains, b.domains);
      } else {
        AscendingUnique(m.domains, a.domains);
      }
    } else {
      JoinGrows(m.domains, a.domains, b.domains);
    }
  }

  /** The union of two different ascending lists joins to more than one of them. */
  lemma JoinGrows(u: seq<string>, a: seq<string>, b: seq<string>)
    requires Ascending(u) && Ascending(a) && Ascending(b) && a != [] && b != [] && a != b
    requires forall x :: x in u <==> x in a || x in b
    ensures Join(u) != Join(a) || Join(a) != Join(b)
    ensures u != []
  {
    assert a[0] in a && a[0] in u;
    if u != a {
      JoinShorter(u, a);
    } else {
      JoinShorter(u, b);
    }
  }

  /** With comma-free domains the clash cannot happen, whatever mix of
      domains, company names and ids the two seeds carry. */
  lemma MergeKeepsKey(a: Seed, b: Seed)
    requires Storable(a) && Storable(b) && SeedKey(a) == SeedKey(b)
    ensures SeedKey(MergeSeeds(a, b)) == SeedKey(a)
    ensures Storable(MergeSeeds(a, b))
  {
    MergeIsNormal(a, b);
    MergeKeepsKeyIff(a, b);
    KeyOfNormal(a);
    KeyOfNormal(b);
    if a.domains != [] && b.domains != [] {
      JoinInjective(a.domains, b.domains);
    }
  }

  /** A comma inside a domain does break it: "x,y" against "x" and "y". */
  lemma CommaChangesKey()
    ensures var a := Seed("", "", ["x,y"], 0.0, []);
            var b := Seed("", "", ["x", "y"], 0.0, []);
            NormalSeed(a) && NormalSeed(b) && SeedKey(a) == SeedKey(b)
            && SeedKey(MergeSeeds(a, b)) != SeedKey(a)
  {
    var a := Seed("", "", ["x,y"], 0.0, []);
    var b := Seed("", "", ["x", "y"], 0.0, []);
    assert Less("x", "y");
    KeyOfNormal(a);
    KeyOfNormal(b);
    assert Join(b.domains) == "x" + "," + Join(["y"]) == "x,y";
    MergeKeepsKeyIff(a, b);
  }

  /** Overwriting the evidence and confidence leaves the key alone. */
  lemma KeyIgnoresEvidence(s: Seed, confidence: real, evidence: seq<Evidence>)
    requires Storable(s)
    ensures Storable(s.(confidence := confidence, evidence := evidence))
    ensures SeedKey(s.(confidence := confidence, evidence := evidence)) == SeedKey(s)
  {
  }
}
