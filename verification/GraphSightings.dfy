/** What ingesting one asset or one observation does to the graph, field by
    field (internal/models/asset_state.go). */
module GraphSightings {
  import opened Options
  import opened Text
  import opened AssetMerge
  import opened MergeOrder
  import opened AssetFields
  import opened Graphs
  import opened GraphIndex
  import opened GraphRecords

  predicate SameKey(a: Asset, b: Asset) {
    a.typ + "|" + Norm(a.identifier) == b.typ + "|" + Norm(b.identifier)
  }

  /** The asset of the key takes the sighting in, or the first one joins the
      list; every other asset stays as it is. */
  ghost predicate Upserts(before: seq<Asset>, after: seq<Asset>, incoming: Asset, kind: ObservationKind, first: Asset) {
    || (exists i :: 0 <= i < |before| && |after| == |before| && SameKey(before[i], incoming)
                    && Takes(before[i], after[i], incoming, kind)
                    && forall j :: 0 <= j < |before| && j != i ==> after[j] == before[j])
    || (after == before + [first] && forall i :: 0 <= i < |before| ==> !SameKey(before[i], incoming))
  }

  lemma UpsertUpserts(g: Graph, incoming: Asset, kind: ObservationKind, first: Asset)
    requires Indexed(g)
    ensures Upserts(g.assets, Upsert(g, KeyOf(incoming), incoming, kind, first).assets, incoming, kind, first)
  {
    var key := KeyOf(incoming);
    if key in g.assetIndex {
      var i := g.assetIndex[key];
      assert AssetKeys(g.assets)[i] == key;
      MergeTakes(g.assets[i], incoming, kind);
      assert SameKey(g.assets[i], incoming);
    } else {
      forall i | 0 <= i < |g.assets| ensures !SameKey(g.assets[i], incoming) {
        assert AssetKeys(g.assets)[i] in g.assetIndex;
      }
    }
  }

  /** The identifiers of domains and addresses are compared in lower case. */
  predicate NormalizedIdentifier(identifier: string, raw: string, typ: string) {
    identifier == if typ == "domain" || typ == "ip" then Norm(raw) else Trim(raw)
  }

  ghost predicate NormalizedDomain(domain: Option<DomainDetails>, raw: Option<DomainDetails>, typ: string) {
    && (domain.Some? <==> raw.Some?)
    && (domain.Some? ==>
          && domain.value.catchAll == raw.value.catchAll
          && if typ == "domain" then forall r :: r in domain.value.records ==> StandsFor(r, raw.value.records)
             else domain.value.records == raw.value.records)
  }

  lemma DomainIsNormalized(raw: Asset)
    ensures NormalizedDomain(NormalizeAsset(raw).domain, raw.domain, raw.typ)
  {
    if raw.domain.Some? {
      UniqueRecordsStand(raw.domain.value.records);
    }
  }

  lemma ObservedDomainIsNormalized(raw: Observation)
    ensures NormalizedDomain(NormalizeObservation(raw).domain, raw.domain, raw.typ)
  {
    if raw.domain.Some? {
      UniqueRecordsStand(raw.domain.value.records);
    }
  }

  /** A sighting as it is ingested: cleaned up, and with an id. */
  ghost predicate Cleaned(a: Asset, raw: Asset) {
    && a.id != "" && Identifies(a.id, raw.id)
    && a.enumerationID == Trim(raw.enumerationID) && a.typ == raw.typ && a.source == Trim(raw.source)
    && NormalizedIdentifier(a.identifier, raw.identifier, raw.typ)
    && a.date == raw.date && a.ownership == raw.ownership
    && NormalizedDomain(a.domain, raw.domain, raw.typ)
  }

  /** The canonical asset it becomes when it is the first of its key. */
  ghost predicate Opens(first: Asset, a: Asset, provenance: seq<Provenance>) {
    && first.id == a.id && first.enumerationID == a.enumerationID && first.typ == a.typ
    && first.identifier == a.identifier && first.source == a.source && first.date == a.date && first.domain == a.domain
    && first.ownership == (if a.ownership != Unstated then a.ownership else if a.typ == "ip" then Associated else Owned)
    && first.provenance == provenance
  }

  ghost predicate Witnesses(o: Observation, a: Asset, kind: ObservationKind) {
    && o.kind == kind && o.enumerationID == a.enumerationID && o.typ == a.typ && o.identifier == a.identifier
    && o.source == a.source && o.date == a.date && o.ownership == a.ownership && o.domain == a.domain
  }

  /** The observation joins the list, under the id of the canonical asset of its
      key, unless one of its id is there. */
  ghost predicate Notes(before: seq<Observation>, h: Graph, o: Observation) {
    && (exists x :: x in h.assets && Denotes(x, o.typ, o.identifier) && o.assetID == x.id)
    && h.observations == if exists q :: q in before && q.id == o.id then before else before + [o]
  }

  lemma ObservationNoted(g: Graph, g2: Graph, o: Observation)
    requires Indexed(g) && Indexed(g2) && g2.observations == g.observations && g2.observationIndex == g.observationIndex
    requires exists x :: x in g2.assets && Denotes(x, o.typ, o.identifier)
    ensures var stored := o.(assetID := ResolveID(g2, o.typ, o.identifier));
            Notes(g.observations, AddObservation(g2, stored), stored)
  {
    ResolvesDenoted(g2, o.typ, o.identifier);
    var ids := ObservationIDs(g.observations);
    if q :| q in g.observations && q.id == o.id {
      var i :| 0 <= i < |g.observations| && g.observations[i] == q;
      assert ids[i] in g.observationIndex;
    }
    if o.id in g.observationIndex {
      assert ids[g.observationIndex[o.id]] == o.id;
      assert g.observations[g.observationIndex[o.id]] in g.observations;
    }
  }

  lemma UpsertedDenoted(before: seq<Asset>, after: seq<Asset>, incoming: Asset, kind: ObservationKind, first: Asset)
    requires Upserts(before, after, incoming, kind, first) && SameKey(first, incoming)
    requires AllWellNamed(before) && BarFree(incoming.typ)
    ensures exists x :: x in after && Denotes(x, incoming.typ, incoming.identifier)
  {
    if after == before + [first] {
      assert first in after;
    } else {
      var i :| 0 <= i < |before| && |after| == |before| && SameKey(before[i], incoming)
               && Takes(before[i], after[i], incoming, kind);
      SplitFirstBar(before[i].typ, Norm(before[i].identifier), incoming.typ, Norm(incoming.identifier));
      assert after[i] in after && Denotes(after[i], incoming.typ, incoming.identifier);
    }
  }

  // ----- an asset -----

  lemma IdentifiedIsCleaned(g: Graph, raw: Asset)
    ensures var (g1, a) := Identified(g, raw);
            && Cleaned(a, raw) && Trimmed(a.id) && Trimmed(a.enumerationID) && a.typ == raw.typ
            && g1 == g.(issued := g1.issued)
  {
    DomainIsNormalized(raw);
    TrimIsTrimmed(raw.id);
    TrimIsTrimmed(raw.enumerationID);
    NewIDNamed("asset", g.issued);
  }

  lemma FirstOpens(a: Asset)
    requires a.id != "" && Trimmed(a.id) && Trimmed(a.enumerationID)
    ensures Opens(FirstSighting(a), a, [Provenance(a.id, a.enumerationID, Norm(a.source), a.date)])
  {
    TrimmedIsFixed(a.id);
    TrimmedIsFixed(a.enumerationID);
    OneProvenance(ProvenanceOf(a));
  }

  /** What ingesting an asset does, with the asset and observation it makes. */
  ghost predicate IngestsAsset(g: Graph, h: Graph, raw: Asset, a: Asset, first: Asset, o: Observation) {
    && Cleaned(a, raw) && Opens(first, a, [Provenance(a.id, a.enumerationID, Norm(a.source), a.date)])
    && Upserts(g.assets, h.assets, a, Discovery, first)
    && Witnesses(o, a, Discovery) && o.id == a.id && Notes(g.observations, h, o)
  }

  lemma IngestTail(g: Graph, a: Asset, kind: ObservationKind, first: Asset, o: Observation)
    requires Indexed(g) && BarFree(a.typ) && SameKey(first, a) && o.typ == a.typ && o.identifier == a.identifier
    requires WellNamed(first) || KeyOf(a) in g.assetIndex
    ensures var g2 := Upsert(g, KeyOf(a), a, kind, first);
            var stored := o.(assetID := ResolveID(g2, o.typ, o.identifier));
            Upserts(g.assets, AddObservation(g2, stored).assets, a, kind, first) && Notes(g.observations, AddObservation(g2, stored), stored)
  {
    UpsertNames(g, KeyOf(a), a, kind, first);
    UpsertUpserts(g, a, kind, first);
    var g2 := Upsert(g, KeyOf(a), a, kind, first);
    UpsertedDenoted(g.assets, g2.assets, a, kind, first);
    ObservationNoted(g, g2, o);
  }

  /** IngestAsset cleans the asset up and names it, merges it into the asset of
      its key or appends it, and notes the observation under its id. */
  lemma AssetIngested(g: Graph, raw: Asset)
    requires Indexed(g) && BarFree(raw.typ)
    ensures exists a, first, o :: IngestsAsset(g, IngestAsset(g, raw), raw, a, first, o)
  {
    var (g1, a) := Identified(g, raw);
    var first := FirstSighting(a);
    IdentifiedIsCleaned(g, raw);
    FirstOpens(a);
    IngestTail(g1, a, Discovery, first, ObservationOf(a));
    var g2 := Upsert(g1, KeyOf(a), a, Discovery, first);
    assert IngestsAsset(g, IngestAsset(g, raw), raw, a, first,
                        ObservationOf(a).(assetID := ResolveID(g2, a.typ, a.identifier)));
  }

  // ----- an observation -----

  ghost predicate CleanedObservation(o: Observation, raw: Observation) {
    && o.kind == raw.kind && o.id != "" && Identifies(o.id, raw.id)
    && o.enumerationID == Trim(raw.enumerationID) && o.typ == raw.typ && o.source == Norm(raw.source)
    && NormalizedIdentifier(o.identifier, raw.identifier, raw.typ)
    && o.date == raw.date && o.ownership == raw.ownership
    && NormalizedDomain(o.domain, raw.domain, raw.typ)
  }

  /** What ingesting an observation does, with the sighting a it reports. Only
      a discovery leaves provenance on the asset it creates. */
  ghost predicate IngestsObservation(g: Graph, h: Graph, raw: Observation, a: Asset, first: Asset, o: Observation) {
    && CleanedObservation(o, raw) && Witnesses(o, a, raw.kind) && a.id == Trim(raw.assetID)
    && first.id != "" && Identifies(first.id, raw.assetID)
    && Opens(first, a.(id := first.id), if raw.kind == Discovery then [Provenance(o.id, o.enumerationID, o.source, o.date)] else [])
    && Upserts(g.assets, h.assets, a, raw.kind, first)
    && Notes(g.observations, h, o)
  }

  lemma IdentifiedObservationIsCleaned(g: Graph, raw: Observation)
    ensures var (g1, o) := IdentifiedObservation(g, raw);
            && CleanedObservation(o, raw) && Trimmed(o.id) && Trimmed(o.enumerationID) && o.assetID == Trim(raw.assetID)
            && g1 == g.(issued := g1.issued)
  {
    ObservedDomainIsNormalized(raw);
    TrimIsTrimmed(raw.id);
    TrimIsTrimmed(raw.enumerationID);
    NewIDNamed("obs", g.issued);
  }

  lemma ObservedOpens(o: Observation, id: string)
    requires o.id != "" && Trimmed(o.id) && Trimmed(o.enumerationID) && Norm(o.source) == o.source
    ensures Opens(FirstObserved(o, id), AssetOf(o).(id := id),
                  if o.kind == Discovery then [Provenance(o.id, o.enumerationID, o.source, o.date)] else [])
  {
    TrimmedIsFixed(o.id);
    TrimmedIsFixed(o.enumerationID);
    OneProvenance(Provenance(Trim(o.id), Trim(o.enumerationID), Norm(o.source), o.date));
  }

  lemma ObservedTail(g: Graph, o: Observation, id: string)
    requires Indexed(g) && BarFree(o.typ) && id != "" && Trimmed(id)
    ensures var g2 := Upsert(g, ObservedKey(o), AssetOf(o), o.kind, FirstObserved(o, id));
            var stored := o.(assetID := ResolveID(g2, o.typ, o.identifier));
            && Upserts(g.assets, AddObservation(g2, stored).assets, AssetOf(o), o.kind, FirstObserved(o, id))
            && Notes(g.observations, AddObservation(g2, stored), stored)
  {
    FirstObservedName(o, id);
    IngestTail(g, AssetOf(o), o.kind, FirstObserved(o, id), o);
  }

  /** The id an asset created from the observation would get. */
  function OpenedID(g: Graph, o: Observation): string {
    if AssetOf(o).id == "" then NewID("asset", g.issued) else AssetOf(o).id
  }

  /** Where the key is known, what would have been created does not matter. */
  lemma FirstUnused(g: Graph, key: string, incoming: Asset, kind: ObservationKind, first: Asset, other: Asset)
    requires Indexed(g) && key in g.assetIndex
    ensures Upsert(g, key, incoming, kind, first) == Upsert(g, key, incoming, kind, other)
  {
    assert g.assetIndex[key] < |AssetKeys(g.assets)|;
  }

  /** The graph an observation is ingested into, and what is noted of it. */
  function Numbered(g: Graph, o: Observation): Graph {
    if ObservedKey(o) !in g.assetIndex && AssetOf(o).id == "" then g.(issued := g.issued + 1) else g
  }

  function Noted(g: Graph, o: Observation, id: string): Observation {
    var g2 := Upsert(g, ObservedKey(o), AssetOf(o), o.kind, FirstObserved(o, id));
    o.(assetID := ResolveID(g2, o.typ, o.identifier))
  }

  lemma ObservedIs(g: Graph, o: Observation)
    requires Indexed(g)
    ensures var (g1, id) := (Numbered(g, o), OpenedID(g, o));
            Observed(g, o) == AddObservation(Upsert(g1, ObservedKey(o), AssetOf(o), o.kind, FirstObserved(o, id)), Noted(g1, o, id))
  {
    if ObservedKey(o) in g.assetIndex {
      FirstUnused(g, ObservedKey(o), AssetOf(o), o.kind, FirstObserved(o, AssetOf(o).id), FirstObserved(o, OpenedID(g, o)));
    }
  }

  lemma ObservedIngested(g: Graph, o: Observation)
    requires Indexed(g) && BarFree(o.typ)
    ensures var (id, h) := (OpenedID(g, o), Observed(g, o));
            && id != "" && Trimmed(id)
            && Upserts(g.assets, h.assets, AssetOf(o), o.kind, FirstObserved(o, id))
            && Notes(g.observations, h, Noted(Numbered(g, o), o, id))
  {
    NewIDNamed("asset", g.issued);
    TrimIsTrimmed(o.assetID);
    ObservedIs(g, o);
    ObservedTail(Numbered(g, o), o, OpenedID(g, o));
  }

  lemma ObservedSource(g: Graph, raw: Observation)
    ensures var o := IdentifiedObservation(g, raw).1;
            Norm(o.source) == o.source && Trim(o.assetID) == Trim(raw.assetID)
  {
    NormFixes(raw.source);
    TrimIsTrimmed(raw.assetID);
    TrimmedIsFixed(Trim(raw.assetID));
  }

  /** IngestObservation cleans the observation up and names it, merges what it
      says into the asset of its key or creates that asset, and notes it. */
  lemma ObservationIngested(g: Graph, raw: Observation)
    requires Indexed(g) && BarFree(raw.typ)
    ensures exists a, first, o :: IngestsObservation(g, IngestObservation(g, raw), raw, a, first, o)
  {
    var (g1, o) := IdentifiedObservation(g, raw);
    var id := OpenedID(g1, o);
    IdentifiedObservationIsCleaned(g, raw);
    ObservedSource(g, raw);
    ObservedOpens(o, id);
    ObservedIngested(g1, o);
    var stored := Noted(Numbered(g1, o), o, id);
    assert IngestsObservation(g, IngestObservation(g, raw), raw, AssetOf(o), FirstObserved(o, id), stored);
  }
}
