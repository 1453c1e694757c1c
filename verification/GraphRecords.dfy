/** What the append operations store: the relations and observations of the
    graph, read off the ones that were submitted
    (internal/models/assets.go, internal/models/asset_state.go). */
module GraphRecords {
  import opened Text
  import opened AssetMerge
  import opened Folds
  import opened Graphs
  import opened GraphIndex

  // ----- relations -----

  ghost predicate Denotes(x: Asset, typ: string, identifier: string) {
    x.typ + "|" + Norm(x.identifier) == typ + "|" + Norm(identifier)
  }

  /** The end of a stored relation: the id of the asset its identifier denotes,
      or else the id it was submitted with. */
  ghost predicate EndIs(assets: seq<Asset>, id: string, typ: string, identifier: string, end: string) {
    || (Norm(identifier) != "" && exists x :: x in assets && Denotes(x, typ, identifier) && end == x.id)
    || (end == Trim(id) && (Norm(identifier) == "" || forall x :: x in assets ==> !Denotes(x, typ, identifier)))
  }

  /** r is raw as it is stored, up to its id. */
  ghost predicate StoredAs(assets: seq<Asset>, raw: Relation, r: Relation) {
    && r.fromType == raw.fromType && r.toType == raw.toType && r.body == raw.body
    && r.fromIdentifier == Norm(raw.fromIdentifier) && r.toIdentifier == Norm(raw.toIdentifier)
    && EndIs(assets, raw.fromID, raw.fromType, raw.fromIdentifier, r.fromID)
    && EndIs(assets, raw.toID, raw.toType, raw.toIdentifier, r.toID)
  }

  ghost predicate SameFields(r: Relation, s: Relation) {
    r.(id := "") == s.(id := "")
  }

  ghost predicate HasFields(rs: seq<Relation>, r: Relation) {
    exists j :: 0 <= j < |rs| && SameFields(rs[j], r)
  }

  /** No two relations share all fields but the id, and the relation index
      holds the position of each. */
  ghost predicate RelationsIndexed(g: Graph) {
    && (forall i, j :: 0 <= i < j < |g.relations| ==> !SameFields(g.relations[i], g.relations[j]))
    && (forall k :: k in g.relationIndex ==> g.relationIndex[k] < |g.relations| && g.relations[g.relationIndex[k]].(id := "") == k)
    && (forall i :: 0 <= i < |g.relations| ==>
                      var k := g.relations[i].(id := ""); k in g.relationIndex && g.relationIndex[k] == i)
  }

  /** A lookup finds the asset the identifier denotes. */
  lemma ResolvesDenoted(g: Graph, typ: string, identifier: string)
    requires Indexed(g)
    ensures forall x :: x in g.assets && Denotes(x, typ, identifier) ==> ResolveID(g, typ, identifier) == x.id && x.id != ""
    ensures ResolveID(g, typ, identifier) != "" ==> exists x :: x in g.assets && Denotes(x, typ, identifier)
  {
    var key := AssetKey(typ, identifier);
    forall x | x in g.assets && Denotes(x, typ, identifier) ensures ResolveID(g, typ, identifier) == x.id && x.id != "" {
      var i :| 0 <= i < |g.assets| && g.assets[i] == x;
      assert AssetKeys(g.assets)[i] == key && g.assetIndex[key] == i;
      assert WellNamed(g.assets[i]);
    }
    if key in g.assetIndex {
      assert AssetKeys(g.assets)[g.assetIndex[key]] == key;
      assert g.assets[g.assetIndex[key]] in g.assets && Denotes(g.assets[g.assetIndex[key]], typ, identifier);
    }
  }

  lemma EndpointStored(g: Graph, id: string, typ: string, identifier: string, normal: string)
    requires Indexed(g) && normal == Norm(identifier)
    ensures EndIs(g.assets, id, typ, identifier, Endpoint(g, Trim(id), typ, normal))
  {
    NormFixes(identifier);
    ResolvesDenoted(g, typ, identifier);
    assert ResolveID(g, typ, normal) == ResolveID(g, typ, identifier);
  }

  /** With unique keys an end has one value. */
  lemma EndDetermined(g: Graph, id: string, typ: string, identifier: string, e: string, e': string)
    requires Indexed(g) && EndIs(g.assets, id, typ, identifier, e) && EndIs(g.assets, id, typ, identifier, e')
    ensures e == e'
  {
    forall x, y | x in g.assets && y in g.assets && Denotes(x, typ, identifier) && Denotes(y, typ, identifier)
      ensures x == y
    {
      var i :| 0 <= i < |g.assets| && g.assets[i] == x;
      var j :| 0 <= j < |g.assets| && g.assets[j] == y;
      assert AssetKeys(g.assets)[i] == AssetKeys(g.assets)[j];
    }
  }

  lemma StoredAsDetermines(g: Graph, raw: Relation, r: Relation, s: Relation)
    requires Indexed(g) && StoredAs(g.assets, raw, r) && StoredAs(g.assets, raw, s)
    ensures SameFields(r, s)
  {
    EndDetermined(g, raw.fromID, raw.fromType, raw.fromIdentifier, r.fromID, s.fromID);
    EndDetermined(g, raw.toID, raw.toType, raw.toIdentifier, r.toID, s.toID);
  }

  /** The submitted id, or a made-up one. */
  predicate Identifies(id: string, raw: string) {
    Trim(raw) != "" ==> id == Trim(raw)
  }

  /** Adding a relation stores it, last, exactly when its fields are new. */
  ghost predicate Added(g: Graph, h: Graph, raw: Relation, r: Relation) {
    && StoredAs(g.assets, raw, r) && Identifies(r.id, raw.id)
    && h.relations == (if HasFields(g.relations, r) then g.relations else g.relations + [r])
    && h == g.(relations := h.relations, relationIndex := h.relationIndex, issued := h.issued)
  }

  lemma ResolvedStored(g: Graph, raw: Relation) returns (r: Relation)
    requires Indexed(g)
    ensures r == Resolved(g, raw).1 && StoredAs(g.assets, raw, r) && Identifies(r.id, raw.id)
  {
    r := Resolved(g, raw).1;
    EndpointStored(g, raw.fromID, raw.fromType, raw.fromIdentifier, Norm(raw.fromIdentifier));
    EndpointStored(g, raw.toID, raw.toType, raw.toIdentifier, Norm(raw.toIdentifier));
  }

  lemma IndexTellsFields(g: Graph, r: Relation)
    requires RelationsIndexed(g)
    ensures r.(id := "") in g.relationIndex <==> HasFields(g.relations, r)
  {
  }

  lemma RelationAppended(g: Graph, h: Graph, r: Relation)
    requires RelationsIndexed(g) && !HasFields(g.relations, r)
    requires h.relations == g.relations + [r] && h.relationIndex == g.relationIndex[r.(id := "") := |g.relations|]
    ensures RelationsIndexed(h)
  {
    IndexTellsFields(g, r);
    forall i, j | 0 <= i < j < |h.relations| ensures !SameFields(h.relations[i], h.relations[j]) {
      assert j == |g.relations| ==> !SameFields(g.relations[i], r);
    }
  }

  lemma AddRelationAdds(g: Graph, raw: Relation) returns (r: Relation)
    requires Indexed(g) && RelationsIndexed(g)
    ensures r == Resolved(g, raw).1
    ensures Added(g, AddRelation(g, raw), raw, r) && RelationsIndexed(AddRelation(g, raw))
  {
    r := ResolvedStored(g, raw);
    IndexTellsFields(g, r);
    if !HasFields(g.relations, r) {
      RelationAppended(g, AddRelation(g, raw), r);
    }
  }

  /** What addAssetRelationLocked reports of it. */
  ghost predicate Reports(g: Graph, h: Graph, raw: Relation, relation: Relation, added: bool) {
    Indexed(g) && RelationsIndexed(g) ==>
      exists r :: Added(g, h, raw, r) && (added <==> !HasFields(g.relations, r)) && (added ==> relation == r)
  }

  lemma ReportsAdded(g: Graph, raw: Relation, relation: Relation, added: bool)
    requires added <==> RelationKey(Resolved(g, raw).1) !in g.relationIndex
    requires added ==> relation == Resolved(g, raw).1
    ensures Reports(g, AddRelation(g, raw), raw, relation, added)
  {
    if Indexed(g) && RelationsIndexed(g) {
      var r := AddRelationAdds(g, raw);
      IndexTellsFields(g, r);
    }
  }

  // ----- a list of relations -----

  /** r stems from the first submitted relation with its fields. */
  ghost predicate StemsFrom(assets: seq<Asset>, rs: seq<Relation>, r: Relation) {
    exists i :: 0 <= i < |rs| && StoredAs(assets, rs[i], r) && Identifies(r.id, rs[i].id)
                && forall j :: 0 <= j < i ==> !StoredAs(assets, rs[j], r)
  }

  ghost predicate Represented(assets: seq<Asset>, stored: seq<Relation>, raw: Relation) {
    exists j :: 0 <= j < |stored| && StoredAs(assets, raw, stored[j])
  }

  /** The relations after appending rs to those before: the old ones first,
      then new ones that stem from rs, with nothing of rs missing. */
  ghost predicate Appended(assets: seq<Asset>, before: seq<Relation>, after: seq<Relation>, rs: seq<Relation>) {
    && before <= after
    && (forall j :: |before| <= j < |after| ==> StemsFrom(assets, rs, after[j]))
    && (forall i :: 0 <= i < |rs| ==> Represented(assets, after, rs[i]))
  }

  lemma StemsFromMore(assets: seq<Asset>, rs: seq<Relation>, raw: Relation, r: Relation)
    requires StemsFrom(assets, rs, r)
    ensures StemsFrom(assets, rs + [raw], r)
  {
    var i :| 0 <= i < |rs| && StoredAs(assets, rs[i], r) && Identifies(r.id, rs[i].id)
             && forall j :: 0 <= j < i ==> !StoredAs(assets, rs[j], r);
    var all := rs + [raw];
    assert all[i] == rs[i];
    assert forall j :: 0 <= j < i ==> all[j] == rs[j];
  }

  lemma RepresentedMore(assets: seq<Asset>, stored: seq<Relation>, r: Relation, raw: Relation)
    requires Represented(assets, stored, raw)
    ensures Represented(assets, stored + [r], raw)
  {
    var j :| 0 <= j < |stored| && StoredAs(assets, raw, stored[j]);
    assert (stored + [r])[j] == stored[j];
  }

  /** One more relation whose fields are new. */
  lemma AppendedNew(g: Graph, before: seq<Relation>, rs: seq<Relation>, raw: Relation, r: Relation)
    requires Indexed(g) && Appended(g.assets, before, g.relations, rs)
    requires StoredAs(g.assets, raw, r) && Identifies(r.id, raw.id) && !HasFields(g.relations, r)
    ensures Appended(g.assets, before, g.relations + [r], rs + [raw])
  {
    var all, after := rs + [raw], g.relations + [r];
    assert all[|rs|] == raw && after[|g.relations|] == r;
    forall i | 0 <= i < |rs| ensures !StoredAs(g.assets, rs[i], r) && Represented(g.assets, after, all[i]) {
      assert all[i] == rs[i];
      RepresentedMore(g.assets, g.relations, r, rs[i]);
      var j :| 0 <= j < |g.relations| && StoredAs(g.assets, rs[i], g.relations[j]);
      if StoredAs(g.assets, rs[i], r) {
        StoredAsDetermines(g, rs[i], g.relations[j], r);
      }
    }
    assert StemsFrom(g.assets, all, r) by {
      assert forall j :: 0 <= j < |rs| ==> all[j] == rs[j];
    }
    forall j | |before| <= j < |g.relations| ensures StemsFrom(g.assets, all, after[j]) {
      StemsFromMore(g.assets, rs, raw, g.relations[j]);
    }
  }

  /** One more relation whose fields are stored already. */
  lemma AppendedOld(g: Graph, before: seq<Relation>, rs: seq<Relation>, raw: Relation, r: Relation)
    requires Appended(g.assets, before, g.relations, rs)
    requires StoredAs(g.assets, raw, r) && HasFields(g.relations, r)
    ensures Appended(g.assets, before, g.relations, rs + [raw])
  {
    var all := rs + [raw];
    var j :| 0 <= j < |g.relations| && SameFields(g.relations[j], r);
    assert g.relations[j] == r.(id := g.relations[j].id);
    assert StoredAs(g.assets, raw, g.relations[j]);
    forall i | 0 <= i < |all| ensures Represented(g.assets, g.relations, all[i]) {
      assert i < |rs| ==> all[i] == rs[i];
    }
    forall k | |before| <= k < |g.relations| ensures StemsFrom(g.assets, all, g.relations[k]) {
      StemsFromMore(g.assets, rs, raw, g.relations[k]);
    }
  }

  ghost predicate AppendedAt(g: Graph, rs: seq<Relation>, i: nat, h: Graph) {
    && i <= |rs| && RelationsIndexed(h)
    && h == g.(relations := h.relations, relationIndex := h.relationIndex, issued := h.issued)
    && Appended(g.assets, g.relations, h.relations, rs[..i])
  }

  lemma AppendsOne(h: Graph, before: seq<Relation>, rs: seq<Relation>, raw: Relation, more: seq<Relation>)
    requires Indexed(h) && RelationsIndexed(h) && Appended(h.assets, before, h.relations, rs) && more == rs + [raw]
    ensures var next := AddRelation(h, raw);
            && RelationsIndexed(next) && Appended(h.assets, before, next.relations, more)
            && next == h.(relations := next.relations, relationIndex := next.relationIndex, issued := next.issued)
  {
    var r := AddRelationAdds(h, raw);
    if HasFields(h.relations, r) {
      AppendedOld(h, before, rs, raw, r);
    } else {
      AppendedNew(h, before, rs, raw, r);
    }
  }

  lemma AppendedStep(g: Graph, rs: seq<Relation>, i: nat, h: Graph)
    requires Indexed(g) && AppendedAt(g, rs, i, h) && i < |rs|
    ensures AppendedAt(g, rs, i + 1, AddRelation(h, rs[i]))
  {
    assert rs[..i + 1] == rs[..i] + [rs[i]];
    AppendsOne(h, g.relations, rs[..i], rs[i], rs[..i + 1]);
  }

  lemma AddAllAppends(g: Graph, rs: seq<Relation>)
    requires Indexed(g) && RelationsIndexed(g)
    ensures AppendedAt(g, rs, |rs|, Fold(AddRelation, g, rs))
  {
    assert rs[..0] == [];
    forall i: nat, h | i < |rs| && AppendedAt(g, rs, i, h) ensures AppendedAt(g, rs, i + 1, AddRelation(h, rs[i])) {
      AppendedStep(g, rs, i, h);
    }
    FoldInvariant(AddRelation, g, rs, (i, h) => AppendedAt(g, rs, i, h));
  }

  // ----- over whole histories -----

  ghost predicate SameRelations(g: Graph, h: Graph) {
    h.relations == g.relations && h.relationIndex == g.relationIndex
  }

  lemma UpsertKeepsRelations(g: Graph, key: string, incoming: Asset, kind: ObservationKind, first: Asset)
    ensures SameRelations(g, Upsert(g, key, incoming, kind, first))
  {
  }

  lemma ObservationKeepsRelations(g: Graph, o: Observation)
    ensures SameRelations(g, AddObservation(g, o))
  {
  }

  lemma IngestKeepsRelations(g: Graph, raw: Asset)
    ensures SameRelations(g, IngestAsset(g, raw))
  {
    var (g1, a) := Identified(g, raw);
    var g2 := Upsert(g1, KeyOf(a), a, Discovery, FirstSighting(a));
    UpsertKeepsRelations(g1, KeyOf(a), a, Discovery, FirstSighting(a));
    ObservationKeepsRelations(g2, ObservationOf(a).(assetID := ResolveID(g2, a.typ, a.identifier)));
  }

  lemma ObserveKeepsRelations(g: Graph, raw: Observation)
    ensures SameRelations(g, IngestObservation(g, raw))
  {
    var (g1, o) := IdentifiedObservation(g, raw);
    var unnamed := ObservedKey(o) !in g1.assetIndex && AssetOf(o).id == "";
    var id := if unnamed then NewID("asset", g1.issued) else AssetOf(o).id;
    var g2 := if unnamed then g1.(issued := g1.issued + 1) else g1;
    var g3 := Upsert(g2, ObservedKey(o), AssetOf(o), o.kind, FirstObserved(o, id));
    UpsertKeepsRelations(g2, ObservedKey(o), AssetOf(o), o.kind, FirstObserved(o, id));
    ObservationKeepsRelations(g3, o.(assetID := ResolveID(g3, o.typ, o.identifier)));
  }

  lemma IngestAllKeepsRelations(g: Graph, assets: seq<Asset>)
    ensures SameRelations(g, IngestAll(g, assets))
  {
    forall i: nat, h | i < |assets| && SameRelations(g, h) ensures SameRelations(g, IngestAsset(h, assets[i])) {
      IngestKeepsRelations(h, assets[i]);
    }
    FoldInvariant(IngestAsset, g, assets, (i, h) => SameRelations(g, h));
  }

  lemma ObserveAllKeepsRelations(g: Graph, os: seq<Observation>)
    ensures SameRelations(g, Fold(IngestObservation, g, os))
  {
    forall i: nat, h | i < |os| && SameRelations(g, h) ensures SameRelations(g, IngestObservation(h, os[i])) {
      ObserveKeepsRelations(h, os[i]);
    }
    FoldInvariant(IngestObservation, g, os, (i, h) => SameRelations(g, h));
  }

  /** Nothing is related before the state is initialised. */
  ghost predicate Related(g: Graph) {
    Sound(g) && RelationsIndexed(g) && (!g.initialized ==> g.relations == [])
  }

  lemma EnsuredRelated(g: Graph)
    requires Related(g)
    ensures Canonical(Ensured(g)) && RelationsIndexed(Ensured(g)) && Ensured(g).relations == g.relations
  {
    EnsuredCanonical(g);
    if g.initialized {
      IngestAllKeepsRelations(Kept(g.(assetIndex := RebuildIndex(g.assets))), Select(g, g.assets, true));
      SelectSees(g, g.assets);
    } else {
      IngestAllKeepsRelations(Emptied(g), g.assets);
    }
  }

  /** The selection looks at the observation index only. */
  lemma {:induction false} SelectSees(g: Graph, assets: seq<Asset>)
    ensures forall index :: Select(g.(assetIndex := index), assets, true) == Select(g, assets, true)
  {
    if assets != [] {
      SelectSees(g, assets[..|assets| - 1]);
    }
  }

  /** AppendAssetRelations, from any context it may meet. */
  lemma AppendStores(g: Graph, rs: seq<Relation>)
    requires Related(g) && rs != []
    ensures var h := Apply(g, AppendRelations(rs));
            && Related(h) && Appended(h.assets, g.relations, h.relations, rs)
            && h.assets == Ensured(g).assets && h.observations == Ensured(g).observations
  {
    EnsuredRelated(g);
    AddAllAppends(Ensured(g), rs);
    assert rs[..|rs|] == rs;
  }

  lemma ApplyRelated(g: Graph, op: Op)
    requires Related(g) && BarFreeOp(op)
    ensures Related(Apply(g, op))
  {
    ApplySound(g, op);
    EnsuredRelated(g);
    match op
    case AppendAssets(assets) => IngestAllKeepsRelations(Ensured(g), assets);
    case AppendObservations(os) => ObserveAllKeepsRelations(Ensured(g), os);
    case AppendRelations(rs) =>
      if rs != [] {
        AppendStores(g, rs);
      }
    case EnsureState =>
  }

  lemma EveryGraphRelated(raw: seq<Asset>, ops: seq<Op>)
    requires BarFreeAssets(raw) && BarFreeOps(ops)
    ensures Related(RunOps(Raw(raw), ops))
  {
    forall i: nat, g | i < |ops| && Related(g) ensures Related(Apply(g, ops[i])) {
      ApplyRelated(g, ops[i]);
    }
    FoldInvariant(Apply, Raw(raw), ops, (i, g) => Related(g));
  }

  /** After any history, appending relations keeps the ones that are there and
      adds, once per set of fields, each submitted one with its ends resolved;
      and the relation index is exact before and after. */
  lemma RelationsStored(raw: seq<Asset>, ops: seq<Op>, rs: seq<Relation>)
    requires BarFreeAssets(raw) && BarFreeOps(ops) && rs != []
    ensures var g := RunOps(Raw(raw), ops);
            var h := Apply(g, AppendRelations(rs));
            RelationsIndexed(g) && RelationsIndexed(h) && Appended(h.assets, g.relations, h.relations, rs)
  {
    EveryGraphRelated(raw, ops);
    AppendStores(RunOps(Raw(raw), ops), rs);
  }
}
