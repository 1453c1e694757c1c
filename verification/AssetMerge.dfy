/** Merging sightings of one asset: dates, sources, provenance, ownership and
    DNS records (internal/models/asset_merge.go, internal/models/asset_clone.go,
    internal/models/asset_normalization.go). */
module AssetMerge {
  import opened Options
  import opened Orders
  import opened Text

  datatype Record = Record(typ: string, value: string)

  datatype DomainDetails = DomainDetails(records: seq<Record>, catchAll: bool)

  /** Dates count instants from the zero time, which is 0. */
  datatype Provenance = Provenance(assetID: string, enumerationID: string, source: string, date: nat)

  datatype Ownership = Unstated | Associated | Uncertain | Owned | Other(name: string)

  datatype Asset = Asset(
    id: string,
    enumerationID: string,
    typ: string,
    identifier: string,
    source: string,
    date: nat,
    provenance: seq<Provenance>,
    ownership: Ownership,
    domain: Option<DomainDetails>)

  datatype ObservationKind = Discovery | Enrichment

  const DOMAIN := "domain"
  const IP := "ip"

  // ----- DNS records -----

  function UpperChar(c: char): char {
    if 'a' <= c <= 'z' then (c as int - 32) as char else c
  }

  function Upper(s: string): (r: string)
    ensures |r| == |s| && forall i :: 0 <= i < |s| ==> r[i] == UpperChar(s[i])
  {
    seq(|s|, i requires 0 <= i < |s| => UpperChar(s[i]))
  }

  function RecordType(r: Record): string {
    Upper(Trim(r.typ))
  }

  function NormalizeRecord(r: Record): Record {
    Record(RecordType(r), Trim(r.value))
  }

  /** domainRecordKey. */
  function RecordText(r: Record): string {
    RecordType(r) + "|" + Norm(r.value)
  }

  /** What the sort compares. */
  function RecordKey(r: Record): (string, string) {
    (RecordType(r), Norm(r.value))
  }

  predicate PairLess(a: (string, string), b: (string, string)) {
    if a.0 == b.0 then Less(a.1, b.1) else Less(a.0, b.0)
  }

  predicate BlankRecord(r: Record) {
    RecordType(r) == "" || Trim(r.value) == ""
  }

  function Texts(records: seq<Record>): (texts: set<string>)
    ensures forall i :: 0 <= i < |records| ==> RecordText(records[i]) in texts
    ensures forall t :: t in texts ==> exists i :: 0 <= i < |records| && RecordText(records[i]) == t
  {
    set i | 0 <= i < |records| :: RecordText(records[i])
  }

  function DistinctRecords(records: seq<Record>): seq<Record> {
    if records == [] then []
    else
      var seen, last := DistinctRecords(records[..|records| - 1]), NormalizeRecord(records[|records| - 1]);
      if last.typ == "" || last.value == "" || RecordText(last) in Texts(seen) then seen else seen + [last]
  }

  function UniqueRecords(records: seq<Record>): seq<Record> {
    SortBy(DistinctRecords(records), RecordKey, PairLess)
  }

  /** existing followed by the incoming records whose key is new. */
  function AppendNew(existing: seq<Record>, incoming: seq<Record>): seq<Record> {
    if incoming == [] then existing
    else
      var merged, last := AppendNew(existing, incoming[..|incoming| - 1]), incoming[|incoming| - 1];
      if RecordText(last) in Texts(merged) then merged else merged + [last]
  }

  function MergeRecords(existing: seq<Record>, incoming: seq<Record>): seq<Record> {
    UniqueRecords(AppendNew(existing, incoming))
  }

  method UniqueDomainRecords(records: seq<Record>) returns (unique: seq<Record>)
    ensures unique == UniqueRecords(records)
  {
    unique := [];
    var seen: set<string> := {};
    for i := 0 to |records|
      invariant unique == DistinctRecords(records[..i]) && seen == Texts(unique)
    {
      assert records[..i + 1][..i] == records[..i];
      var record := Record(Upper(Trim(records[i].typ)), Trim(records[i].value));
      if record.typ == "" || record.value == "" {
        continue;
      }
      var key := RecordText(record);
      if key in seen {
        continue;
      }
      TextsAppend(unique, record);
      seen := seen + {key};
      unique := unique + [record];
    }
    assert records[..|records|] == records;
    unique := SortBy(unique, RecordKey, PairLess);
  }

  method MergeDomainRecords(existing: seq<Record>, incoming: seq<Record>) returns (merged: seq<Record>)
    ensures merged == MergeRecords(existing, incoming)
  {
    if |existing| == 0 && |incoming| == 0 {
      return [];
    }
    merged := existing;
    var seen: set<string> := Texts(merged);
    for i := 0 to |incoming|
      invariant merged == AppendNew(existing, incoming[..i]) && seen == Texts(merged)
    {
      assert incoming[..i + 1][..i] == incoming[..i];
      var key := RecordText(incoming[i]);
      if key in seen {
        continue;
      }
      TextsAppend(merged, incoming[i]);
      seen := seen + {key};
      merged := merged + [incoming[i]];
    }
    assert incoming[..|incoming|] == incoming;
    merged := UniqueDomainRecords(merged);
  }

  lemma TextsAppend(records: seq<Record>, r: Record)
    ensures Texts(records + [r]) == Texts(records) + {RecordText(r)}
  {
    var all := records + [r];
    assert all[|records|] == r;
    forall i | 0 <= i < |records| ensures RecordText(records[i]) in Texts(all) {
      assert all[i] == records[i];
    }
  }

  // ----- provenance -----

  function Digits(n: nat): string {
    if n < 10 then [(n + 48) as char] else Digits(n / 10) + [(n % 10 + 48) as char]
  }

  /** assetProvenanceKey, with instants printed in decimal. */
  function ProvenanceText(p: Provenance): string {
    p.assetID + "|" + p.enumerationID + "|" + p.source + "|" + Digits(p.date)
  }

  function ProvenanceKey(p: Provenance): (nat, string) {
    (p.date, ProvenanceText(p))
  }

  /** By date, undated items last; ties by key text. */
  predicate ProvenanceLess(a: (nat, string), b: (nat, string)) {
    if a.0 == b.0 then Less(a.1, b.1)
    else if a.0 == 0 then false
    else if b.0 == 0 then true
    else a.0 < b.0
  }

  predicate BlankProvenance(p: Provenance) {
    p.assetID == "" && p.enumerationID == "" && p.source == "" && p.date == 0
  }

  function ProvenanceTexts(items: seq<Provenance>): (texts: set<string>)
    ensures forall i :: 0 <= i < |items| ==> ProvenanceText(items[i]) in texts
    ensures forall t :: t in texts ==> exists i :: 0 <= i < |items| && ProvenanceText(items[i]) == t
  {
    set i | 0 <= i < |items| :: ProvenanceText(items[i])
  }

  function AppendProvenance(existing: seq<Provenance>, incoming: seq<Provenance>): seq<Provenance> {
    if incoming == [] then existing
    else
      var merged, last := AppendProvenance(existing, incoming[..|incoming| - 1]), incoming[|incoming| - 1];
      if BlankProvenance(last) || ProvenanceText(last) in ProvenanceTexts(merged) then merged else merged + [last]
  }

  function MergeProvenance(existing: seq<Provenance>, incoming: seq<Provenance>): seq<Provenance> {
    SortBy(AppendProvenance(existing, incoming), ProvenanceKey, ProvenanceLess)
  }

  method MergeAssetProvenance(existing: seq<Provenance>, incoming: seq<Provenance>) returns (merged: seq<Provenance>)
    ensures merged == MergeProvenance(existing, incoming)
  {
    merged := existing;
    var index: set<string> := ProvenanceTexts(merged);
    for i := 0 to |incoming|
      invariant merged == AppendProvenance(existing, incoming[..i]) && index == ProvenanceTexts(merged)
    {
      assert incoming[..i + 1][..i] == incoming[..i];
      var item := incoming[i];
      if BlankProvenance(item) {
        continue;
      }
      var key := ProvenanceText(item);
      if key in index {
        continue;
      }
      ProvenanceTextsAppend(merged, item);
      index := index + {key};
      merged := merged + [item];
    }
    assert incoming[..|incoming|] == incoming;
    merged := SortBy(merged, ProvenanceKey, ProvenanceLess);
  }

  lemma ProvenanceTextsAppend(items: seq<Provenance>, p: Provenance)
    ensures ProvenanceTexts(items + [p]) == ProvenanceTexts(items) + {ProvenanceText(p)}
  {
    var all := items + [p];
    assert all[|items|] == p;
    forall i | 0 <= i < |items| ensures ProvenanceText(items[i]) in ProvenanceTexts(all) {
      assert all[i] == items[i];
    }
  }

  function ProvenanceOf(a: Asset): Provenance {
    Provenance(Trim(a.id), Trim(a.enumerationID), Norm(a.source), a.date)
  }

  // ----- sources -----

  /** The comma-separated parts, trimmed and lower-cased, blanks dropped. */
  function SplitSources(value: string): seq<string> {
    SplitFrom(value, "")
  }

  function SplitFrom(rest: string, part: string): seq<string>
    decreases |rest|
  {
    var done := if Norm(part) == "" then [] else [Norm(part)];
    if rest == [] then done
    else if rest[0] == ',' then done + SplitFrom(rest[1..], "")
    else SplitFrom(rest[1..], part + [rest[0]])
  }

  function JoinSources(parts: seq<string>): string {
    if parts == [] then "" else if |parts| == 1 then parts[0] else parts[0] + ", " + JoinSources(parts[1..])
  }

  function MergeSources(existing: string, incoming: string): string {
    JoinSources(UniqueNormalized(SplitSources(existing) + SplitSources(incoming)))
  }

  // ----- ownership -----

  function MergeOwnership(existing: Ownership, incoming: Ownership): Ownership {
    if existing == Owned || incoming == Owned then Owned
    else if existing == Uncertain || incoming == Uncertain then Uncertain
    else if existing == Associated || incoming == Associated then Associated
    else existing
  }

  function DefaultOwnership(typ: string): Ownership {
    if typ == IP then Associated else Owned
  }

  // ----- assets -----

  function NormalIdentifier(typ: string, identifier: string): string {
    if typ == DOMAIN || typ == IP then Norm(identifier) else Trim(identifier)
  }

  function NormalizeAsset(a: Asset): Asset {
    a.(
      id := Trim(a.id),
      enumerationID := Trim(a.enumerationID),
      identifier := NormalIdentifier(a.typ, a.identifier),
      source := Trim(a.source),
      domain := match a.domain
      case Some(d) => Some(if a.typ == DOMAIN then d.(records := UniqueRecords(d.records)) else d)
      case None => None)
  }

  /** The canonical asset a first sighting creates. */
  function FirstSighting(a: Asset): Asset {
    a.(
      provenance := MergeProvenance([], [ProvenanceOf(a)]),
      ownership := if a.ownership == Unstated then DefaultOwnership(a.typ) else a.ownership)
  }

  function MergeDates(existing: nat, incoming: nat): nat {
    if existing == 0 || (incoming != 0 && incoming < existing) then incoming else existing
  }

  function MergeDomain(existing: Option<DomainDetails>, incoming: Option<DomainDetails>): Option<DomainDetails> {
    match incoming
    case None => existing
    case Some(d) =>
      var base := if existing.Some? then existing.value else DomainDetails([], false);
      Some(DomainDetails(MergeRecords(base.records, d.records), base.catchAll || d.catchAll))
  }

  function MergeAsset(existing: Asset, incoming: Asset, kind: ObservationKind): Asset {
    var typ := if existing.typ == "" then incoming.typ else existing.typ;
    var ownership := MergeOwnership(existing.ownership, incoming.ownership);
    Asset(
      if existing.id == "" then incoming.id else existing.id,
      if existing.enumerationID == "" then incoming.enumerationID else existing.enumerationID,
      typ,
      if existing.identifier == "" then incoming.identifier else existing.identifier,
      if kind == Discovery then MergeSources(existing.source, incoming.source) else existing.source,
      MergeDates(existing.date, incoming.date),
      if kind == Discovery then MergeProvenance(existing.provenance, [ProvenanceOf(incoming)]) else existing.provenance,
      if ownership == Unstated then DefaultOwnership(typ) else ownership,
      MergeDomain(existing.domain, incoming.domain))
  }

  /** The canonical asset after sightings of one key, in that order. */
  function Sightings(xs: seq<Asset>): Asset
    requires xs != []
  {
    if |xs| == 1 then FirstSighting(NormalizeAsset(xs[0]))
    else MergeAsset(Sightings(xs[..|xs| - 1]), NormalizeAsset(xs[|xs| - 1]), Discovery)
  }
}
