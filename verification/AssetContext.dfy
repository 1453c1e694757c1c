/** The live asset state of PipelineContext, each method proved to compute the
    graph operation it is named after. */
module AssetContexts {
  import opened Text
  import opened AssetMerge
  import opened Folds
  import opened Graphs
  import opened GraphRecords

  class AssetContext {
    var assets: seq<Asset>
    var observations: seq<Observation>
    var relations: seq<Relation>
    var assetStateInitialized: bool
    var assetIndexByKey: map<string, nat>
    var observationIndexByID: map<string, nat>
    var relationIndexByKey: map<Relation, nat>
    var issued: nat

    ghost function State(): Graph
      reads this
    {
      Graph(assets, observations, relations, assetStateInitialized,
            assetIndexByKey, observationIndexByID, relationIndexByKey, issued)
    }

    /** What makes a lookup in the key index safe. */
    ghost predicate InRange()
      reads this
    {
      forall k :: k in assetIndexByKey ==> assetIndexByKey[k] < |assets|
    }

    constructor (raw: seq<Asset>)
      ensures State() == Raw(raw)
    {
      assets, observations, relations := raw, [], [];
      assetStateInitialized := false;
      assetIndexByKey, observationIndexByID, relationIndexByKey := map[], map[], map[];
      issued := 0;
    }

    method FreshID(prefix: string) returns (id: string)
      modifies `issued
      ensures id == NewID(prefix, old(issued)) && issued == old(issued) + 1
    {
      id := NewID(prefix, issued);
      issued := issued + 1;
    }

    // ----- public operations -----

    method EnsureAssetState()
      modifies this
      ensures State() == Apply(old(State()), EnsureState)
    {
      EnsureAssetStateLocked();
    }

    method AppendAssets(incoming: seq<Asset>)
      modifies this
      ensures State() == Apply(old(State()), Op.AppendAssets(incoming))
    {
      if |incoming| == 0 {
        return;
      }
      EnsureAssetStateLocked();
      IngestEach(incoming);
    }

    method AppendAssetObservations(incoming: seq<Observation>)
      modifies this
      ensures State() == Apply(old(State()), AppendObservations(incoming))
    {
      if |incoming| == 0 {
        return;
      }
      EnsureAssetStateLocked();
      ghost var start := State();
      for i := 0 to |incoming|
        invariant State() == Fold(IngestObservation, start, incoming[..i]) && InRange()
      {
        FoldPrefix(IngestObservation, start, incoming, i);
        IngestObservationLocked(incoming[i]);
      }
      assert incoming[..|incoming|] == incoming;
    }

    method AppendAssetRelations(incoming: seq<Relation>)
      modifies this
      ensures State() == Apply(old(State()), AppendRelations(incoming))
    {
      if |incoming| == 0 {
        return;
      }
      EnsureAssetStateLocked();
      ghost var start := State();
      for i := 0 to |incoming|
        invariant State() == Fold(AddRelation, start, incoming[..i])
      {
        FoldPrefix(AddRelation, start, incoming, i);
        var _, _ := AddAssetRelationLocked(incoming[i]);
      }
      assert incoming[..|incoming|] == incoming;
    }

    // ----- under the lock -----

    method IngestEach(incoming: seq<Asset>)
      requires InRange()
      modifies this
      ensures State() == IngestAll(old(State()), incoming) && InRange()
    {
      for i := 0 to |incoming|
        invariant State() == Fold(IngestAsset, old(State()), incoming[..i]) && InRange()
      {
        FoldPrefix(IngestAsset, old(State()), incoming, i);
        IngestAssetLocked(incoming[i]);
      }
      assert incoming[..|incoming|] == incoming;
    }

    method EnsureAssetStateLocked()
      modifies this
      ensures State() == Ensured(old(State())) && InRange()
    {
      if assetStateInitialized {
        RebuildAssetIndexLocked();
        ReconcilePendingRawAssetsLocked();
        return;
      }
      var rawAssets := assets;
      assets, observations, relations := [], [], [];
      assetIndexByKey, observationIndexByID, relationIndexByKey := map[], map[], map[];
      assert State() == Emptied(old(State()));
      IngestEach(rawAssets);
      assetStateInitialized := true;
    }

    method RebuildAssetIndexLocked()
      modifies `assetIndexByKey
      ensures assetIndexByKey == RebuildIndex(assets) && InRange()
    {
      assetIndexByKey := map[];
      for i := 0 to |assets|
        invariant assetIndexByKey == RebuildIndex(assets[..i])
      {
        assert assets[..i + 1][..i] == assets[..i];
        assetIndexByKey := assetIndexByKey[AssetKey(assets[i].typ, assets[i].identifier) := i];
      }
      assert assets[..|assets|] == assets;
    }

    method ReconcilePendingRawAssetsLocked()
      requires assetIndexByKey == RebuildIndex(assets)
      modifies this
      ensures State() == Reconciled(old(State())) && InRange()
    {
      ghost var before := State();
      if |assets| == 0 {
        assert Kept(before) == before;
        return;
      }
      var canonical, pending := SplitPending();
      assets := canonical;
      RebuildAssetIndexLocked();
      assert State() == Kept(before);
      if |pending| == 0 {
        return;
      }
      IngestEach(pending);
    }

    /** Assets whose id no observation carries, and the others. */
    method SplitPending() returns (canonical: seq<Asset>, pending: seq<Asset>)
      ensures canonical == Select(State(), assets, false) && pending == Select(State(), assets, true)
    {
      canonical, pending := [], [];
      for i := 0 to |assets|
        invariant canonical == Select(State(), assets[..i], false) && pending == Select(State(), assets[..i], true)
      {
        assert assets[..i + 1][..i] == assets[..i];
        var asset := assets[i];
        if asset.id != "" {
          if asset.id !in observationIndexByID {
            pending := pending + [asset];
            continue;
          }
        }
        canonical := canonical + [asset];
      }
      assert assets[..|assets|] == assets;
    }

    method AddObservationLocked(observation: Observation)
      modifies `observations, `observationIndexByID
      ensures State() == AddObservation(old(State()), observation)
    {
      if observation.id !in observationIndexByID {
        observationIndexByID := observationIndexByID[observation.id := |observations|];
        observations := observations + [observation];
      }
    }

    method IngestAssetLocked(raw: Asset)
      requires InRange()
      modifies this
      ensures State() == IngestAsset(old(State()), raw) && InRange()
    {
      ghost var before := State();
      var asset := NormalizeAsset(raw);
      if asset.id == "" {
        var id := FreshID("asset");
        asset := asset.(id := id);
      }
      assert (State(), asset) == Identified(before, raw);
      var observation := ObservationOf(asset);
      ghost var g1 := State();
      var index := UpsertLocked(AssetKey(asset.typ, asset.identifier), asset, Discovery, FirstSighting(asset));
      assert ResolveID(State(), asset.typ, asset.identifier) == assets[index].id;
      AddObservationLocked(observation.(assetID := assets[index].id));
    }

    /** The branch both ingestions share: append under a new key, or merge into
        the asset already there. */
    method UpsertLocked(key: string, incoming: Asset, kind: ObservationKind, first: Asset) returns (index: nat)
      requires InRange()
      modifies `assets, `assetIndexByKey
      ensures State() == Upsert(old(State()), key, incoming, kind, first) && InRange()
      ensures key in assetIndexByKey && index == assetIndexByKey[key] < |assets|
    {
      if key !in assetIndexByKey {
        assets := assets + [first];
        index := |assets| - 1;
        assetIndexByKey := assetIndexByKey[key := index];
      } else {
        index := assetIndexByKey[key];
        assets := assets[index := MergeAsset(assets[index], incoming, kind)];
      }
    }

    method IngestObservationLocked(raw: Observation)
      requires InRange()
      modifies this
      ensures State() == IngestObservation(old(State()), raw) && InRange()
    {
      ghost var before := State();
      var observation := NormalizeObservation(raw);
      if observation.id == "" {
        var id := FreshID("obs");
        observation := observation.(id := id);
      }
      assert (State(), observation) == IdentifiedObservation(before, raw);
      ObserveLocked(observation);
    }

    /** The rest, once the observation has an id. */
    method ObserveLocked(observation: Observation)
      requires InRange()
      modifies this
      ensures State() == Observed(old(State()), observation) && InRange()
    {
      var canonical := AssetOf(observation);
      var id := canonical.id;
      var key := AssetKey(observation.typ, observation.identifier);
      if key !in assetIndexByKey && id == "" {
        id := FreshID("asset");
      }
      var index := UpsertLocked(key, canonical, observation.kind, FirstObserved(observation, id));
      assert ResolveID(State(), observation.typ, observation.identifier) == assets[index].id;
      AddObservationLocked(observation.(assetID := assets[index].id));
    }

    method ResolveCanonicalAssetIDLocked(typ: string, identifier: string) returns (id: string)
      ensures id == ResolveID(State(), typ, identifier)
    {
      var key := AssetKey(typ, identifier);
      if key !in assetIndexByKey || assetIndexByKey[key] >= |assets| {
        return "";
      }
      return assets[assetIndexByKey[key]].id;
    }

    method ResolveRelation(raw: Relation) returns (relation: Relation)
      modifies `issued
      ensures (State(), relation) == Resolved(old(State()), raw)
    {
      relation := NormalizeRelation(raw);
      if relation.id == "" {
        var id := FreshID("rel");
        relation := relation.(id := id);
      }
      if relation.fromIdentifier != "" {
        var resolved := ResolveCanonicalAssetIDLocked(relation.fromType, relation.fromIdentifier);
        if resolved != "" {
          relation := relation.(fromID := resolved);
        }
      }
      if relation.toIdentifier != "" {
        var resolved := ResolveCanonicalAssetIDLocked(relation.toType, relation.toIdentifier);
        if resolved != "" {
          relation := relation.(toID := resolved);
        }
      }
    }

    /** The relation stored, or a blank one when its fields are stored already. */
    method AddAssetRelationLocked(raw: Relation) returns (relation: Relation, added: bool)
      modifies this
      ensures State() == AddRelation(old(State()), raw)
      ensures relations == old(relations) + if added then [relation] else []
      ensures !added ==> relation == Relation("", "", "", "", "", "", "", "")
      ensures Reports(old(State()), State(), raw, relation, added)
    {
      ghost var before := State();
      relation := ResolveRelation(raw);
      if RelationKey(relation) in relationIndexByKey {
        relation := Relation("", "", "", "", "", "", "", "");
        ReportsAdded(before, raw, relation, false);
        return relation, false;
      }
      ReportsAdded(before, raw, relation, true);
      relationIndexByKey := relationIndexByKey[RelationKey(relation) := |relations|];
      relations := relations + [relation];
      return relation, true;
    }
  }
}
