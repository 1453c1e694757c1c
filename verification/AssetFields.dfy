/** What a merge of two sightings leaves in each field of the asset
    (internal/models/asset_merge.go). */
module AssetFields {
  import opened Options
  import opened Orders
  import opened Text
  import opened AssetMerge
  import opened MergeOrder

  // ----- sources -----

  /** p is what stands, trimmed and in lower case, between two commas or ends
      of the text. */
  ghost predicate Part(s: string, p: string) {
    p != "" && exists i, j :: PartAt(s, i, j) && Norm(s[i..j]) == p
  }

  ghost predicate PartAt(s: string, i: int, j: int) {
    && 0 <= i <= j <= |s| && (i == 0 || s[i - 1] == ',') && (j == |s| || s[j] == ',')
    && forall k :: i <= k < j ==> s[k] != ','
  }

  lemma FirstPartAt(a: string, b: string, i: int, j: int)
    requires ',' !in a && PartAt(a + "," + b, i, j) && i <= |a|
    ensures i == 0 && j == |a|
  {
    var s := a + "," + b;
    assert s[|a|] == ',';
    assert forall k :: 0 <= k < |a| ==> s[k] == a[k] && a[k] in a;
  }

  lemma LaterPartAt(a: string, b: string, i: int, j: int)
    requires 0 <= i <= j <= |b|
    ensures var n := |a| + 1;
            (PartAt(a + "," + b, n + i, n + j) <==> PartAt(b, i, j)) && (a + "," + b)[n + i..n + j] == b[i..j]
  {
    var s, n := a + "," + b, |a| + 1;
    assert s[|a|] == ',' && forall k :: 0 <= k < |b| ==> s[n + k] == b[k];
    if PartAt(b, i, j) {
      assert forall k :: n + i <= k < n + j ==> s[k] == b[k - n];
    }
  }

  lemma FirstPart(a: string, b: string)
    requires ',' !in a
    ensures PartAt(a + "," + b, 0, |a|) && (a + "," + b)[0..|a|] == a
  {
    var s := a + "," + b;
    assert s[|a|] == ',' && forall k :: 0 <= k < |a| ==> s[k] == a[k] && a[k] in a;
  }

  /** The first comma cuts off the first part. */
  lemma PartsAfterComma(a: string, b: string, p: string)
    requires ',' !in a
    ensures Part(a + "," + b, p) <==> (p != "" && Norm(a) == p) || Part(b, p)
  {
    var s, n := a + "," + b, |a| + 1;
    FirstPart(a, b);
    if i, j :| PartAt(b, i, j) && Norm(b[i..j]) == p {
      LaterPartAt(a, b, i, j);
    }
    if i, j :| PartAt(s, i, j) && Norm(s[i..j]) == p {
      if i <= |a| {
        FirstPartAt(a, b, i, j);
      } else {
        LaterPartAt(a, b, i - n, j - n);
      }
    }
  }

  lemma OnePart(a: string, p: string)
    requires ',' !in a
    ensures Part(a, p) <==> p != "" && Norm(a) == p
  {
    assert a[0..|a|] == a && forall k :: 0 <= k < |a| ==> a[k] in a;
    assert PartAt(a, 0, |a|);
    assert forall i, j :: PartAt(a, i, j) ==> i == 0 && j == |a|;
  }

  /** The splitting loop finds exactly the parts. */
  lemma {:induction false} SplitFromParts(rest: string, part: string, p: string)
    requires ',' !in part
    ensures p in SplitFrom(rest, part) <==> Part(part + rest, p)
    decreases |rest|
  {
    if rest == [] {
      assert part + rest == part;
      OnePart(part, p);
    } else if rest[0] == ',' {
      SplitFromParts(rest[1..], "", p);
      assert "" + rest[1..] == rest[1..];
      assert part + rest == part + "," + rest[1..];
      PartsAfterComma(part, rest[1..], p);
    } else {
      SplitFromParts(rest[1..], part + [rest[0]], p);
      assert part + rest == part + [rest[0]] + rest[1..];
    }
  }

  lemma SplitIsParts(s: string, p: string)
    ensures p in SplitSources(s) <==> Part(s, p)
  {
    SplitFromParts(s, "", p);
    assert "" + s == s;
  }

  lemma PartIsNormal(s: string, p: string)
    requires Part(s, p)
    ensures p != "" && ',' !in p && Norm(p) == p
  {
    var i, j :| PartAt(s, i, j) && Norm(s[i..j]) == p;
    forall c | c in s[i..j] ensures c != ',' {
      var k :| 0 <= k < j - i && s[i..j][k] == c;
      assert s[i + k] == c;
    }
    NormKeepsCommaFree(s[i..j]);
    NormFixes(s[i..j]);
  }

  /** A blank in front of a part is trimmed away. */
  lemma {:induction false} SplitAfterBlank(rest: string, part: string)
    ensures SplitFrom(rest, [' '] + part) == SplitFrom(rest, part)
    decreases |rest|
  {
    assert ([' '] + part)[1..] == part;
    assert Norm([' '] + part) == Norm(part);
    if rest != [] && rest[0] != ',' {
      SplitAfterBlank(rest[1..], part + [rest[0]]);
      assert [' '] + part + [rest[0]] == [' '] + (part + [rest[0]]);
    }
  }

  lemma {:induction false} SplitAtComma(a: string, b: string, part: string)
    requires ',' !in a
    ensures SplitFrom(a + "," + b, part) == (if Norm(part + a) == "" then [] else [Norm(part + a)]) + SplitFrom(b, "")
    decreases |a|
  {
    var s := a + "," + b;
    if a == [] {
      assert s[1..] == b && part + a == part;
    } else {
      assert a[0] in a && s[1..] == a[1..] + "," + b;
      assert part + a == part + [a[0]] + a[1..];
      SplitAtComma(a[1..], b, part + [a[0]]);
    }
  }

  lemma {:induction false} SplitPlain(a: string, part: string)
    requires ',' !in a
    ensures SplitFrom(a, part) == if Norm(part + a) == "" then [] else [Norm(part + a)]
    decreases |a|
  {
    if a == [] {
      assert part + a == part;
    } else {
      assert a[0] in a;
      assert part + a == part + [a[0]] + a[1..];
      SplitPlain(a[1..], part + [a[0]]);
    }
  }

  /** Joining sources and splitting them again is the identity. */
  lemma {:induction false} SplitJoined(parts: seq<string>)
    requires forall p :: p in parts ==> p != "" && ',' !in p && Norm(p) == p
    ensures SplitSources(JoinSources(parts)) == parts
  {
    if parts == [] {
    } else {
      assert parts[0] in parts && "" + parts[0] == parts[0];
      if |parts| == 1 {
        SplitPlain(parts[0], "");
      } else {
        var rest := JoinSources(parts[1..]);
        SplitJoined(parts[1..]);
        assert JoinSources(parts) == parts[0] + "," + ([' '] + rest);
        SplitAtComma(parts[0], [' '] + rest, "");
        assert ([' '] + rest)[1..] == rest && "" + [' '] == [' '] + "";
        SplitAfterBlank(rest, "");
        assert parts == [parts[0]] + parts[1..];
      }
    }
  }

  /** Merging sources unites their parts, sorted and without repetition. */
  lemma MergeSourcesUnion(existing: string, incoming: string)
    ensures Ascending(SplitSources(MergeSources(existing, incoming)))
    ensures forall p :: Part(MergeSources(existing, incoming), p) <==> Part(existing, p) || Part(incoming, p)
  {
    var both := SplitSources(existing) + SplitSources(incoming);
    var united := UniqueNormalized(both);
    UniqueNormalizedContents(both);
    forall p ensures p in united <==> Part(existing, p) || Part(incoming, p) {
      SplitIsParts(existing, p);
      SplitIsParts(incoming, p);
      if Part(existing, p) || Part(incoming, p) {
        assert p in both && p != "" && Norm(p) == p by {
          if Part(existing, p) { PartIsNormal(existing, p); } else { PartIsNormal(incoming, p); }
        }
        var i :| 0 <= i < |both| && both[i] == p;
        assert HasNorm(both, p);
      }
      if p in united {
        var i :| 0 <= i < |both| && Norm(both[i]) == p;
        var q := both[i];
        assert q in SplitSources(existing) || q in SplitSources(incoming);
        SplitIsParts(existing, q);
        SplitIsParts(incoming, q);
        if Part(existing, q) { PartIsNormal(existing, q); } else { PartIsNormal(incoming, q); }
      }
    }
    forall p | p in united ensures p != "" && ',' !in p && Norm(p) == p {
      if Part(existing, p) { PartIsNormal(existing, p); } else { PartIsNormal(incoming, p); }
    }
    SplitJoined(united);
    forall p ensures Part(MergeSources(existing, incoming), p) <==> p in united {
      SplitIsParts(MergeSources(existing, incoming), p);
    }
  }

  // ----- records and provenance -----

  /** r is one of the records, trimmed and with its type in upper case. */
  ghost predicate StandsFor(r: Record, records: seq<Record>) {
    exists x :: x in records && r == Record(Upper(Trim(x.typ)), Trim(x.value))
  }

  lemma {:induction false} DistinctRecordsStand(records: seq<Record>)
    ensures forall r :: r in DistinctRecords(records) ==> StandsFor(r, records) && r.typ != "" && r.value != ""
  {
    if records != [] {
      var front, last := records[..|records| - 1], records[|records| - 1];
      DistinctRecordsStand(front);
      assert last in records && forall x :: x in front ==> x in records;
      assert StandsFor(NormalizeRecord(last), records);
    }
  }

  lemma {:induction false} AppendNewMembers(existing: seq<Record>, incoming: seq<Record>)
    ensures forall r :: r in AppendNew(existing, incoming) ==> r in existing || r in incoming
  {
    if incoming != [] {
      AppendNewMembers(existing, incoming[..|incoming| - 1]);
    }
  }

  lemma UniqueRecordsStand(records: seq<Record>)
    ensures forall r :: r in UniqueRecords(records) ==> StandsFor(r, records) && r.typ != "" && r.value != ""
  {
    DistinctRecordsStand(records);
    SortMembers(DistinctRecords(records), RecordKey, PairLess);
  }

  /** Merging records makes none up. */
  lemma MergedRecordsStand(existing: seq<Record>, incoming: seq<Record>)
    ensures forall r :: r in MergeRecords(existing, incoming) ==>
                          StandsFor(r, existing + incoming) && r.typ != "" && r.value != ""
  {
    var both := AppendNew(existing, incoming);
    AppendNewMembers(existing, incoming);
    UniqueRecordsStand(both);
    forall r | r in UniqueRecords(both) ensures StandsFor(r, existing + incoming) {
      var x :| x in both && r == Record(Upper(Trim(x.typ)), Trim(x.value));
      assert x in existing + incoming;
    }
  }

  /** Merging an item keeps the ones there are, and adds it unless it is blank
      or one of its text is there. */
  lemma MergedProvenance(existing: seq<Provenance>, p: Provenance)
    ensures var merged := MergeProvenance(existing, [p]);
            forall q :: q in merged <==> q in existing
                                         || (q == p && !BlankProvenance(p) && ProvenanceText(p) !in ProvenanceTexts(existing))
  {
    var one := [p];
    assert one[..|one| - 1] == [] && one[|one| - 1] == p;
    assert AppendProvenance(existing, []) == existing;
    SortMembers(AppendProvenance(existing, one), ProvenanceKey, ProvenanceLess);
  }

  // ----- the asset -----

  ghost predicate FirstText(merged: string, existing: string, incoming: string) {
    merged == if existing != "" then existing else incoming
  }

  /** The earlier of two dates, where 0 is none. */
  ghost predicate EarlierDate(merged: nat, existing: nat, incoming: nat) {
    && (merged == existing || merged == incoming)
    && (merged == 0 <==> existing == 0 && incoming == 0)
    && (existing != 0 ==> merged <= existing) && (incoming != 0 ==> merged <= incoming)
  }

  /** Owned before uncertain before associated; another state stays, and a
      blank one becomes the default of the type. */
  ghost predicate StrongerOwnership(merged: Ownership, existing: Ownership, incoming: Ownership, typ: string) {
    && (merged == Owned <==> existing == Owned || incoming == Owned
                             || (existing == Unstated && typ != "ip" && (incoming == Unstated || incoming.Other?)))
    && (merged == Uncertain <==> existing != Owned && incoming != Owned && (existing == Uncertain || incoming == Uncertain))
    && (merged == Associated <==> existing !in {Owned, Uncertain} && incoming !in {Owned, Uncertain}
                                  && (existing == Associated || incoming == Associated || (existing == Unstated && typ == "ip")))
    && (merged.Other? ==> merged == existing)
    && merged != Unstated
  }

  ghost predicate DomainTaken(merged: Option<DomainDetails>, existing: Option<DomainDetails>, incoming: Option<DomainDetails>) {
    if incoming.None? then merged == existing
    else
      var records := (if existing.Some? then existing.value.records else []) + incoming.value.records;
      && merged.Some?
      && (merged.value.catchAll <==> (existing.Some? && existing.value.catchAll) || incoming.value.catchAll)
      && (forall r :: r in merged.value.records ==> StandsFor(r, records) && r.typ != "" && r.value != "")
      && (BarFreeRecords(records) ==>
            SortedRecords(merged.value.records) && forall k :: NamesKey(merged.value.records, k) <==> NamesKey(records, k))
  }

  /** What an asset becomes when a sighting is merged into it. */
  ghost predicate Takes(existing: Asset, merged: Asset, incoming: Asset, kind: ObservationKind) {
    && TakesFacts(existing, merged, incoming)
    && DomainTaken(merged.domain, existing.domain, incoming.domain)
    && TakesOrigin(existing, merged, incoming, kind)
  }

  ghost predicate TakesFacts(existing: Asset, merged: Asset, incoming: Asset) {
    && FirstText(merged.id, existing.id, incoming.id)
    && FirstText(merged.enumerationID, existing.enumerationID, incoming.enumerationID)
    && FirstText(merged.typ, existing.typ, incoming.typ)
    && FirstText(merged.identifier, existing.identifier, incoming.identifier)
    && EarlierDate(merged.date, existing.date, incoming.date)
    && StrongerOwnership(merged.ownership, existing.ownership, incoming.ownership, merged.typ)
  }

  /** Only a discovery is a source, and leaves provenance. */
  ghost predicate TakesOrigin(existing: Asset, merged: Asset, incoming: Asset, kind: ObservationKind) {
    && (kind == Enrichment ==> merged.source == existing.source && merged.provenance == existing.provenance)
    && (kind == Discovery ==>
          && (forall p :: Part(merged.source, p) <==> Part(existing.source, p) || Part(incoming.source, p))
          && ProvenanceTaken(merged.provenance, existing.provenance,
                             Provenance(Trim(incoming.id), Trim(incoming.enumerationID), Norm(incoming.source), incoming.date)))
  }

  ghost predicate ProvenanceTaken(merged: seq<Provenance>, existing: seq<Provenance>, p: Provenance) {
    && (forall q :: q in existing ==> q in merged)
    && (forall q :: q in merged ==> q in existing || q == p)
    && (p != Provenance("", "", "", 0) ==> exists q :: q in merged && ProvenanceText(q) == ProvenanceText(p))
  }

  lemma ProvenanceIsTaken(existing: seq<Provenance>, p: Provenance)
    ensures ProvenanceTaken(MergeProvenance(existing, [p]), existing, p)
  {
    var merged := MergeProvenance(existing, [p]);
    MergedProvenance(existing, p);
    if p != Provenance("", "", "", 0) {
      if ProvenanceText(p) in ProvenanceTexts(existing) {
        var i :| 0 <= i < |existing| && ProvenanceText(existing[i]) == ProvenanceText(p);
        assert existing[i] in merged;
      } else {
        assert p in merged;
      }
    }
  }

  lemma BarFreeAppend(a: seq<Record>, b: seq<Record>)
    ensures BarFreeRecords(a + b) ==> BarFreeRecords(a) && BarFreeRecords(b)
    ensures forall k :: NamesKey(a + b, k) <==> NamesKey(a, k) || NamesKey(b, k)
  {
    var both := a + b;
    assert forall i :: 0 <= i < |a| ==> both[i] == a[i];
    assert forall i :: 0 <= i < |b| ==> both[|a| + i] == b[i];
    forall k ensures NamesKey(both, k) <==> NamesKey(a, k) || NamesKey(b, k) {
      if i :| 0 <= i < |a| && !BlankRecord(a[i]) && RecordKey(a[i]) == k {
        assert !BlankRecord(both[i]) && RecordKey(both[i]) == k;
      }
      if i :| 0 <= i < |b| && !BlankRecord(b[i]) && RecordKey(b[i]) == k {
        assert !BlankRecord(both[|a| + i]) && RecordKey(both[|a| + i]) == k;
      }
      if i :| 0 <= i < |both| && !BlankRecord(both[i]) && RecordKey(both[i]) == k {
        assert i < |a| ==> RecordKey(a[i]) == k;
        assert i >= |a| ==> RecordKey(b[i - |a|]) == k;
      }
    }
  }

  lemma DomainIsTaken(existing: Option<DomainDetails>, incoming: Option<DomainDetails>)
    ensures DomainTaken(MergeDomain(existing, incoming), existing, incoming)
  {
    if incoming.Some? {
      var before := if existing.Some? then existing.value.records else [];
      MergedRecordsStand(before, incoming.value.records);
      BarFreeAppend(before, incoming.value.records);
      if BarFreeRecords(before + incoming.value.records) {
        MergeRecordsKeys(before, incoming.value.records);
      }
    }
  }

  lemma OwnershipIsStronger(existing: Ownership, incoming: Ownership, typ: string)
    ensures var merged := MergeOwnership(existing, incoming);
            StrongerOwnership(if merged == Unstated then DefaultOwnership(typ) else merged, existing, incoming, typ)
  {
  }

  lemma FactsAreTaken(existing: Asset, incoming: Asset, kind: ObservationKind)
    ensures TakesFacts(existing, MergeAsset(existing, incoming, kind), incoming)
  {
    OwnershipIsStronger(existing.ownership, incoming.ownership, MergeAsset(existing, incoming, kind).typ);
  }

  lemma OriginIsTaken(existing: Asset, incoming: Asset, kind: ObservationKind)
    ensures TakesOrigin(existing, MergeAsset(existing, incoming, kind), incoming, kind)
  {
    MergeSourcesUnion(existing.source, incoming.source);
    ProvenanceIsTaken(existing.provenance, ProvenanceOf(incoming));
  }

  lemma MergeTakes(existing: Asset, incoming: Asset, kind: ObservationKind)
    ensures Takes(existing, MergeAsset(existing, incoming, kind), incoming, kind)
  {
    FactsAreTaken(existing, incoming, kind);
    DomainIsTaken(existing.domain, incoming.domain);
    OriginIsTaken(existing, incoming, kind);
  }
}
