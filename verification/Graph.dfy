/** The canonical asset graph and its three indexes: what each upsert does
    (internal/models/asset_state.go, internal/models/assets.go). */
module Graphs {
  import opened Options
  import opened Text
  import opened AssetMerge
  import opened Folds

  datatype Observation = Observation(
    kind: ObservationKind,
    id: string,
    assetID: string,
    enumerationID: string,
    typ: string,
    identifier: string,
    source: string,
    date: nat,
    ownership: Ownership,
    domain: Option<DomainDetails>)

  /** body stands for the fields of a relation besides its id and endpoints. */
  datatype Relation = Relation(
    id: string,
    fromID: string,
    fromType: string,
    fromIdentifier: string,
    toID: string,
    toType: string,
    toIdentifier: string,
    body: string)

  /** issued counts the ids NewID has handed out. */
  datatype Graph = Graph(
    assets: seq<Asset>,
    observations: seq<Observation>,
    relations: seq<Relation>,
    initialized: bool,
    assetIndex: map<string, nat>,
    observationIndex: map<string, nat>,
    relationIndex: map<Relation, nat>,
    issued: nat)

  /** canonicalAssetKey. */
  function AssetKey(typ: string, identifier: string): string {
    typ + "|" + Norm(identifier)
  }

  function KeyOf(a: Asset): string {
    AssetKey(a.typ, a.identifier)
  }

  function ObservedKey(o: Observation): string {
    AssetKey(o.typ, o.identifier)
  }

  /** The id counter's contribution to NewID; the time part is left out. */
  function NewID(prefix: string, n: nat): string {
    prefix + "-" + Digits(n)
  }

  // ----- normal forms -----

  function ObservationOf(a: Asset): Observation {
    Observation(Discovery, a.id, "", a.enumerationID, a.typ, a.identifier, a.source, a.date, a.ownership, a.domain)
  }

  function NormalizeObservation(o: Observation): Observation {
    o.(
      id := Trim(o.id),
      assetID := Trim(o.assetID),
      enumerationID := Trim(o.enumerationID),
      identifier := NormalIdentifier(o.typ, o.identifier),
      source := Norm(o.source),
      domain := match o.domain
      case Some(d) => Some(if o.typ == DOMAIN then d.(records := UniqueRecords(d.records)) else d)
      case None => None)
  }

  function AssetOf(o: Observation): Asset {
    Asset(Trim(o.assetID), o.enumerationID, o.typ, o.identifier, o.source, o.date, [], o.ownership, o.domain)
  }

  function NormalizeRelation(r: Relation): Relation {
    r.(
      id := Trim(r.id),
      fromID := Trim(r.fromID),
      fromIdentifier := Norm(r.fromIdentifier),
      toID := Trim(r.toID),
      toIdentifier := Norm(r.toIdentifier))
  }

  // ----- the upserts -----

  function AddObservation(g: Graph, o: Observation): Graph {
    if o.id in g.observationIndex then g
    else g.(observations := g.observations + [o], observationIndex := g.observationIndex[o.id := |g.observations|])
  }

  /** Merge into the canonical asset of the key, or append the given one. */
  function Upsert(g: Graph, key: string, incoming: Asset, kind: ObservationKind, first: Asset): Graph {
    if key in g.assetIndex && g.assetIndex[key] < |g.assets| then
      var i := g.assetIndex[key];
      g.(assets := g.assets[i := MergeAsset(g.assets[i], incoming, kind)])
    else
      g.(assets := g.assets + [first], assetIndex := g.assetIndex[key := |g.assets|])
  }

  /** resolveCanonicalAssetIDLocked. */
  function ResolveID(g: Graph, typ: string, identifier: string): string {
    var key := AssetKey(typ, identifier);
    if key in g.assetIndex && g.assetIndex[key] < |g.assets| then g.assets[g.assetIndex[key]].id else ""
  }

  function Identified(g: Graph, raw: Asset): (Graph, Asset) {
    var a := NormalizeAsset(raw);
    if a.id == "" then (g.(issued := g.issued + 1), a.(id := NewID("asset", g.issued))) else (g, a)
  }

  function IngestAsset(g: Graph, raw: Asset): Graph {
    var (g1, a) := Identified(g, raw);
    var g2 := Upsert(g1, KeyOf(a), a, Discovery, FirstSighting(a));
    AddObservation(g2, ObservationOf(a).(assetID := ResolveID(g2, a.typ, a.identifier)))
  }

  function IdentifiedObservation(g: Graph, raw: Observation): (Graph, Observation) {
    var o := NormalizeObservation(raw);
    if o.id == "" then (g.(issued := g.issued + 1), o.(id := NewID("obs", g.issued))) else (g, o)
  }

  /** The canonical asset an observation of an unknown key creates. */
  function FirstObserved(o: Observation, id: string): Asset {
    var a := AssetOf(o).(id := id);
    a.(
      provenance := if o.kind == Discovery
                    then MergeProvenance([], [Provenance(Trim(o.id), Trim(o.enumerationID), Norm(o.source), o.date)])
                    else [],
      ownership := if a.ownership == Unstated then DefaultOwnership(a.typ) else a.ownership)
  }

  function IngestObservation(g: Graph, raw: Observation): Graph {
    var (g1, o) := IdentifiedObservation(g, raw);
    Observed(g1, o)
  }

  function Observed(g: Graph, o: Observation): Graph {
    var unnamed := ObservedKey(o) !in g.assetIndex && AssetOf(o).id == "";
    var id := if unnamed then NewID("asset", g.issued) else AssetOf(o).id;
    var g1 := if unnamed then g.(issued := g.issued + 1) else g;
    var g2 := Upsert(g1, ObservedKey(o), AssetOf(o), o.kind, FirstObserved(o, id));
    AddObservation(g2, o.(assetID := ResolveID(g2, o.typ, o.identifier)))
  }

  function Endpoint(g: Graph, id: string, typ: string, identifier: string): string {
    if identifier != "" && ResolveID(g, typ, identifier) != "" then ResolveID(g, typ, identifier) else id
  }

  function Resolved(g: Graph, raw: Relation): (Graph, Relation) {
    var r := NormalizeRelation(raw);
    var (g1, id) := if r.id == "" then (g.(issued := g.issued + 1), NewID("rel", g.issued)) else (g, r.id);
    (g1, r.(id := id, fromID := Endpoint(g, r.fromID, r.fromType, r.fromIdentifier),
            toID := Endpoint(g, r.toID, r.toType, r.toIdentifier)))
  }

  /** assetRelationKey: every field but the id. */
  function RelationKey(r: Relation): Relation {
    r.(id := "")
  }

  function AddRelation(g: Graph, raw: Relation): Graph {
    var (g1, r) := Resolved(g, raw);
    if RelationKey(r) in g1.relationIndex then g1
    else g1.(relations := g1.relations + [r], relationIndex := g1.relationIndex[RelationKey(r) := |g1.relations|])
  }

  // ----- keeping the indexes -----

  function RebuildIndex(assets: seq<Asset>): (index: map<string, nat>)
    ensures forall k :: k in index ==> index[k] < |assets|
  {
    if assets == [] then map[]
    else RebuildIndex(assets[..|assets| - 1])[KeyOf(assets[|assets| - 1]) := |assets| - 1]
  }

  /** An asset no observation carries the id of: appended raw, or created from
      an observation. */
  predicate Unobserved(g: Graph, a: Asset) {
    a.id != "" && a.id !in g.observationIndex
  }

  function Select(g: Graph, assets: seq<Asset>, unobserved: bool): seq<Asset> {
    if assets == [] then []
    else Select(g, assets[..|assets| - 1], unobserved)
         + if Unobserved(g, assets[|assets| - 1]) == unobserved then [assets[|assets| - 1]] else []
  }

  function IngestAll(g: Graph, assets: seq<Asset>): Graph {
    Fold(IngestAsset, g, assets)
  }

  function Kept(g: Graph): Graph {
    var canonical := Select(g, g.assets, false);
    g.(assets := canonical, assetIndex := RebuildIndex(canonical))
  }

  function Reconciled(g: Graph): Graph {
    IngestAll(Kept(g), Select(g, g.assets, true))
  }

  function Emptied(g: Graph): Graph {
    Graph([], [], [], g.initialized, map[], map[], map[], g.issued)
  }

  function Ensured(g: Graph): Graph {
    if g.initialized then Reconciled(g.(assetIndex := RebuildIndex(g.assets)))
    else IngestAll(Emptied(g), g.assets).(initialized := true)
  }

  // ----- the public operations -----

  datatype Op =
    | AppendAssets(assets: seq<Asset>)
    | AppendObservations(observations: seq<Observation>)
    | AppendRelations(relations: seq<Relation>)
    | EnsureState

  function Apply(g: Graph, op: Op): Graph {
    match op
    case AppendAssets(assets) => if assets == [] then g else IngestAll(Ensured(g), assets)
    case AppendObservations(observations) => if observations == [] then g else Fold(IngestObservation, Ensured(g), observations)
    case AppendRelations(relations) => if relations == [] then g else Fold(AddRelation, Ensured(g), relations)
    case EnsureState => Ensured(g)
  }

  /** A context holding raw assets nobody has indexed yet. */
  function Raw(assets: seq<Asset>): Graph {
    Graph(assets, [], [], false, map[], map[], map[], 0)
  }

  function RunOps(g: Graph, ops: seq<Op>): Graph {
    Fold(Apply, g, ops)
  }
}
