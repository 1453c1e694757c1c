/** The indexes of the canonical graph never drift from the lists they index,
    and no canonical id is ever lost. */
module GraphIndex {
  import opened Text
  import opened AssetMerge
  import opened MergeOrder
  import opened Folds
  import opened Graphs

  // ----- an index over a list -----

  ghost predicate Indexes(keys: seq<string>, index: map<string, nat>) {
    && (forall k :: k in index ==> index[k] < |keys| && keys[index[k]] == k)
    && (forall i :: 0 <= i < |keys| ==> keys[i] in index && index[keys[i]] == i)
  }

  lemma IndexesAppend(keys: seq<string>, index: map<string, nat>, k: string)
    requires Indexes(keys, index) && k !in index
    ensures Indexes(keys + [k], index[k := |keys|])
  {
    var all, next := keys + [k], index[k := |keys|];
    forall i | 0 <= i < |all| ensures all[i] in next && next[all[i]] == i {
      if i < |keys| {
        assert keys[i] in index && index[keys[i]] == i;
      }
    }
    forall j | j in next ensures next[j] < |all| && all[next[j]] == j {
      if j != k {
        assert index[j] < |keys| && keys[index[j]] == j;
      }
    }
  }

  lemma IndexesMember(keys: seq<string>, index: map<string, nat>)
    requires Indexes(keys, index)
    ensures forall k :: k in index <==> k in keys
    ensures Distinct(keys)
  {
    forall k | k in keys ensures k in index {
      var i :| 0 <= i < |keys| && keys[i] == k;
      assert keys[i] in index;
    }
    forall k | k in index ensures k in keys {
      assert keys[index[k]] == k;
    }
    forall i, j | 0 <= i < j < |keys| ensures keys[i] != keys[j] {
      assert index[keys[i]] == i && index[keys[j]] == j;
    }
  }

  // ----- what the indexes see of assets and observations -----

  /** A canonical key and the id it stands for. */
  datatype Name = Name(key: string, id: string)

  ghost function NameOf(a: Asset): Name {
    Name(KeyOf(a), a.id)
  }

  ghost function Names(assets: seq<Asset>): (names: seq<Name>)
    ensures |names| == |assets| && forall i :: 0 <= i < |assets| ==> names[i] == NameOf(assets[i])
  {
    seq(|assets|, i requires 0 <= i < |assets| => NameOf(assets[i]))
  }

  ghost function NameKeys(names: seq<Name>): (keys: seq<string>)
    ensures |keys| == |names| && forall i :: 0 <= i < |names| ==> keys[i] == names[i].key
  {
    seq(|names|, i requires 0 <= i < |names| => names[i].key)
  }

  ghost function AssetKeys(assets: seq<Asset>): seq<string> {
    NameKeys(Names(assets))
  }

  ghost function ObservedName(o: Observation): Name {
    Name(ObservedKey(o), o.assetID)
  }

  ghost function ObservationIDs(os: seq<Observation>): (ids: seq<string>)
    ensures |ids| == |os| && forall i :: 0 <= i < |os| ==> ids[i] == os[i].id
  {
    seq(|os|, i requires 0 <= i < |os| => os[i].id)
  }

  ghost predicate WellNamed(a: Asset) {
    a.id != "" && Trimmed(a.id) && BarFree(a.typ)
  }

  ghost predicate AllWellNamed(assets: seq<Asset>) {
    forall i :: 0 <= i < |assets| ==> WellNamed(assets[i])
  }

  ghost predicate Indexed(g: Graph) {
    && Indexes(AssetKeys(g.assets), g.assetIndex)
    && Indexes(ObservationIDs(g.observations), g.observationIndex)
    && AllWellNamed(g.assets)
  }

  /** Every observation carries the id its own key stands for. */
  ghost predicate Agree(os: seq<Observation>, names: seq<Name>) {
    forall i :: 0 <= i < |os| ==> ObservedName(os[i]) in names
  }

  ghost predicate Canonical(g: Graph) {
    g.initialized && Indexed(g) && Agree(g.observations, Names(g.assets))
  }

  ghost predicate Within(a: seq<Name>, b: seq<Name>) {
    forall n :: n in a ==> n in b
  }

  // ----- keys and ids survive normalising and merging -----

  lemma NormalKeepsKey(typ: string, identifier: string)
    ensures AssetKey(typ, NormalIdentifier(typ, identifier)) == AssetKey(typ, identifier)
  {
    NormFixes(identifier);
  }

  lemma MergeKeepsName(existing: Asset, incoming: Asset, kind: ObservationKind)
    requires WellNamed(existing) && BarFree(incoming.typ) && KeyOf(existing) == KeyOf(incoming)
    ensures var m := MergeAsset(existing, incoming, kind);
            WellNamed(m) && NameOf(m) == NameOf(existing)
  {
    SplitFirstBar(existing.typ, Norm(existing.identifier), incoming.typ, Norm(incoming.identifier));
  }

  lemma {:induction false} DigitsPlain(n: nat)
    ensures |Digits(n)| > 0 && !IsSpace(Digits(n)[|Digits(n)| - 1])
  {
  }

  lemma NewIDNamed(prefix: string, n: nat)
    requires prefix == "asset" || prefix == "obs" || prefix == "rel"
    ensures NewID(prefix, n) != "" && Trimmed(NewID(prefix, n))
  {
    DigitsPlain(n);
    var id := NewID(prefix, n);
    assert id[0] == prefix[0];
    assert id[|id| - 1] == Digits(n)[|Digits(n)| - 1];
  }

  // ----- one ingestion -----

  ghost predicate NamesUpserted(before: seq<Name>, after: seq<Name>, n: Name) {
    after == if n.key in NameKeys(before) then before else before + [n]
  }

  lemma UpsertNames(g: Graph, key: string, incoming: Asset, kind: ObservationKind, first: Asset)
    requires Indexed(g) && BarFree(incoming.typ) && KeyOf(incoming) == key
    requires key !in g.assetIndex ==> WellNamed(first) && KeyOf(first) == key
    ensures var h := Upsert(g, key, incoming, kind, first);
            && h == g.(assets := h.assets, assetIndex := h.assetIndex)
            && Indexed(h) && NamesUpserted(Names(g.assets), Names(h.assets), Name(key, first.id))
  {
    IndexesMember(AssetKeys(g.assets), g.assetIndex);
    if key in g.assetIndex {
      var i := g.assetIndex[key];
      assert AssetKeys(g.assets)[i] == key;
      MergeKeepsName(g.assets[i], incoming, kind);
      ReplacedNames(g.assets, i, MergeAsset(g.assets[i], incoming, kind));
    } else {
      IndexesAppend(AssetKeys(g.assets), g.assetIndex, key);
      AddedNames(g.assets, first);
    }
  }

  lemma ReplacedNames(assets: seq<Asset>, i: nat, m: Asset)
    requires i < |assets| && AllWellNamed(assets) && WellNamed(m) && NameOf(m) == NameOf(assets[i])
    ensures Names(assets[i := m]) == Names(assets) && AllWellNamed(assets[i := m])
  {
    assert Names(assets[i := m]) == Names(assets);
  }

  lemma AddedNames(assets: seq<Asset>, first: Asset)
    requires AllWellNamed(assets) && WellNamed(first)
    ensures Names(assets + [first]) == Names(assets) + [NameOf(first)] && AllWellNamed(assets + [first])
    ensures AssetKeys(assets + [first]) == AssetKeys(assets) + [KeyOf(first)]
  {
    assert Names(assets + [first]) == Names(assets) + [NameOf(first)];
    assert AssetKeys(assets + [first]) == AssetKeys(assets) + [KeyOf(first)];
  }

  lemma ResolvesOwnKey(g: Graph, typ: string, identifier: string)
    requires Indexed(g) && AssetKey(typ, identifier) in NameKeys(Names(g.assets))
    ensures Name(AssetKey(typ, identifier), ResolveID(g, typ, identifier)) in Names(g.assets)
  {
    var key := AssetKey(typ, identifier);
    IndexesMember(AssetKeys(g.assets), g.assetIndex);
    var i := g.assetIndex[key];
    assert AssetKeys(g.assets)[i] == key;
    assert Names(g.assets)[i] == Name(key, g.assets[i].id);
  }

  lemma ObservationAdded(g: Graph, o: Observation)
    requires Indexed(g)
    ensures var h := AddObservation(g, o);
            && Indexed(h) && h.assets == g.assets && h.initialized == g.initialized && h.relations == g.relations
            && o.id in h.observationIndex && g.observationIndex.Keys <= h.observationIndex.Keys
            && (h.observations == g.observations || h.observations == g.observations + [o])
  {
    if o.id !in g.observationIndex {
      IndexesAppend(ObservationIDs(g.observations), g.observationIndex, o.id);
      assert ObservationIDs(g.observations + [o]) == ObservationIDs(g.observations) + [o.id];
    }
  }

  /** What ingesting something named n does: its key is canonical afterwards,
      under the id it had before if it had one. */
  ghost predicate Ingested(g: Graph, h: Graph, n: Name) {
    && Indexed(h) && h.initialized == g.initialized && h.relations == g.relations
    && NamesUpserted(Names(g.assets), Names(h.assets), n)
    && g.observationIndex.Keys <= h.observationIndex.Keys
    && (h.observations == g.observations
        || exists o :: h.observations == g.observations + [o] && ObservedName(o) in Names(h.assets))
  }

  ghost function AssetName(g: Graph, raw: Asset): Name {
    Name(KeyOf(raw), if Trim(raw.id) == "" then NewID("asset", g.issued) else Trim(raw.id))
  }

  lemma UpsertedKey(before: seq<Name>, after: seq<Name>, n: Name)
    requires NamesUpserted(before, after, n)
    ensures n.key in NameKeys(after)
  {
    if n.key !in NameKeys(before) {
      assert NameKeys(after)[|before|] == n.key;
    }
  }

  /** The shared tail of both ingestions. */
  lemma IngestNamed(g: Graph, incoming: Asset, kind: ObservationKind, first: Asset, o: Observation)
    requires Indexed(g) && BarFree(incoming.typ) && KeyOf(incoming) == KeyOf(first)
    requires WellNamed(first) || KeyOf(first) in g.assetIndex
    requires o.typ == incoming.typ && o.identifier == incoming.identifier
    ensures var g2 := Upsert(g, KeyOf(incoming), incoming, kind, first);
            var h := AddObservation(g2, o.(assetID := ResolveID(g2, incoming.typ, incoming.identifier)));
            Ingested(g, h, NameOf(first)) && o.id in h.observationIndex
  {
    var key := KeyOf(incoming);
    UpsertNames(g, key, incoming, kind, first);
    var g2 := Upsert(g, key, incoming, kind, first);
    UpsertedKey(Names(g.assets), Names(g2.assets), Name(key, first.id));
    ResolvesOwnKey(g2, incoming.typ, incoming.identifier);
    var o' := o.(assetID := ResolveID(g2, incoming.typ, incoming.identifier));
    ObservationAdded(g2, o');
    assert ObservedName(o') == Name(key, ResolveID(g2, incoming.typ, incoming.identifier));
  }

  lemma IngestAssetNames(g: Graph, raw: Asset)
    requires Indexed(g) && BarFree(raw.typ)
    ensures Ingested(g, IngestAsset(g, raw), AssetName(g, raw))
    ensures AssetName(g, raw).id in IngestAsset(g, raw).observationIndex
  {
    var (g1, a) := Identified(g, raw);
    NormalKeepsKey(raw.typ, raw.identifier);
    TrimIsTrimmed(raw.id);
    NewIDNamed("asset", g.issued);
    IngestNamed(g1, a, Discovery, FirstSighting(a), ObservationOf(a));
  }

  ghost function ObservationName(g: Graph, raw: Observation): Name {
    var (g1, o) := IdentifiedObservation(g, raw);
    ObservedAs(g1, o)
  }

  lemma FirstObservedName(o: Observation, id: string)
    requires BarFree(o.typ)
    ensures NameOf(FirstObserved(o, id)) == Name(ObservedKey(o), id) && FirstObserved(o, id).typ == o.typ
    ensures id != "" && Trimmed(id) ==> WellNamed(FirstObserved(o, id))
    ensures KeyOf(AssetOf(o)) == ObservedKey(o)
    ensures Trimmed(AssetOf(o).id)
  {
    TrimIsTrimmed(o.assetID);
  }

  lemma IdentifiedObservationFacts(g: Graph, raw: Observation)
    ensures var (g1, o) := IdentifiedObservation(g, raw);
            && g1 == g.(issued := g1.issued) && o.typ == raw.typ && ObservedKey(o) == ObservedKey(raw)
  {
    NormalKeepsKey(raw.typ, raw.identifier);
  }

  /** The name an identified observation goes under. */
  ghost function ObservedAs(g: Graph, o: Observation): Name {
    Name(ObservedKey(o), if ObservedKey(o) !in g.assetIndex && AssetOf(o).id == "" then NewID("asset", g.issued) else AssetOf(o).id)
  }

  lemma ObservedIngests(g: Graph, o: Observation)
    requires Indexed(g) && BarFree(o.typ)
    ensures Ingested(g, Observed(g, o), ObservedAs(g, o))
  {
    var unnamed := ObservedKey(o) !in g.assetIndex && AssetOf(o).id == "";
    NewIDNamed("asset", g.issued);
    if unnamed {
      ObservedUnder(g.(issued := g.issued + 1), o, NewID("asset", g.issued));
    } else {
      TrimIsTrimmed(o.assetID);
      ObservedUnder(g, o, AssetOf(o).id);
    }
  }

  /** The rest of an observation's ingestion, once its asset's id is settled. */
  lemma ObservedUnder(g: Graph, o: Observation, id: string)
    requires Indexed(g) && BarFree(o.typ)
    requires ObservedKey(o) !in g.assetIndex ==> id != "" && Trimmed(id)
    ensures var h := Upsert(g, ObservedKey(o), AssetOf(o), o.kind, FirstObserved(o, id));
            Ingested(g, AddObservation(h, o.(assetID := ResolveID(h, o.typ, o.identifier))), Name(ObservedKey(o), id))
  {
    FirstObservedName(o, id);
    IngestNamed(g, AssetOf(o), o.kind, FirstObserved(o, id), o);
  }

  lemma IngestObservationNames(g: Graph, raw: Observation)
    requires Indexed(g) && BarFree(raw.typ)
    ensures Ingested(g, IngestObservation(g, raw), ObservationName(g, raw))
  {
    var (g1, o) := IdentifiedObservation(g, raw);
    IdentifiedObservationFacts(g, raw);
    ObservedIngests(g1, o);
    assert IngestObservation(g, raw) == Observed(g1, o) && ObservationName(g, raw) == ObservedAs(g1, o);
  }

  // ----- lists of ingestions -----

  lemma AgreeStep(g: Graph, h: Graph, n: Name, target: seq<Name>)
    requires Ingested(g, h, n) && Agree(g.observations, target) && Within(Names(h.assets), target)
    ensures Agree(h.observations, target)
  {
  }

  /** The graph so far, when ingestion only ever adds names. */
  ghost predicate Grown(g: Graph, h: Graph) {
    && Indexed(h) && h.initialized == g.initialized && h.relations == g.relations
    && Agree(h.observations, Names(h.assets)) && Within(Names(g.assets), Names(h.assets))
  }

  lemma GrownStep(g: Graph, h: Graph, h': Graph, n: Name)
    requires Grown(g, h) && Ingested(h, h', n)
    ensures Grown(g, h')
  {
    assert Agree(h.observations, Names(h'.assets));
    AgreeStep(h, h', n, Names(h'.assets));
  }

  ghost predicate BarFreeAssets(assets: seq<Asset>) {
    forall i :: 0 <= i < |assets| ==> BarFree(assets[i].typ)
  }

  ghost predicate BarFreeObservations(os: seq<Observation>) {
    forall i :: 0 <= i < |os| ==> BarFree(os[i].typ)
  }

  lemma IngestAllGrows(g: Graph, assets: seq<Asset>)
    requires Indexed(g) && Agree(g.observations, Names(g.assets)) && BarFreeAssets(assets)
    ensures Grown(g, IngestAll(g, assets))
  {
    forall i: nat, h | i < |assets| && Grown(g, h) ensures Grown(g, IngestAsset(h, assets[i])) {
      IngestAssetNames(h, assets[i]);
      GrownStep(g, h, IngestAsset(h, assets[i]), AssetName(h, assets[i]));
    }
    FoldInvariant(IngestAsset, g, assets, (i, h) => Grown(g, h));
  }

  lemma ObserveAllGrows(g: Graph, os: seq<Observation>)
    requires Indexed(g) && Agree(g.observations, Names(g.assets)) && BarFreeObservations(os)
    ensures Grown(g, Fold(IngestObservation, g, os))
  {
    forall i: nat, h | i < |os| && Grown(g, h) ensures Grown(g, IngestObservation(h, os[i])) {
      IngestObservationNames(h, os[i]);
      GrownStep(g, h, IngestObservation(h, os[i]), ObservationName(h, os[i]));
    }
    FoldInvariant(IngestObservation, g, os, (i, h) => Grown(g, h));
  }

  /** Relations touch nothing the other two indexes see. */
  ghost predicate SameGraph(g: Graph, h: Graph) {
    && h.assets == g.assets && h.assetIndex == g.assetIndex && h.observations == g.observations
    && h.observationIndex == g.observationIndex && h.initialized == g.initialized
  }

  lemma RelateAllSame(g: Graph, relations: seq<Relation>)
    ensures SameGraph(g, Fold(AddRelation, g, relations))
  {
    FoldInvariant(AddRelation, g, relations, (i, h) => SameGraph(g, h));
  }

  // ----- reconciling: assets leave the list and come back -----

  /** The keys of a list with one more asset. */
  lemma KeysSnoc(front: seq<Asset>, last: Asset)
    requires Distinct(AssetKeys(front + [last]))
    ensures AssetKeys(front + [last]) == AssetKeys(front) + [KeyOf(last)]
    ensures Distinct(AssetKeys(front)) && KeyOf(last) !in AssetKeys(front)
  {
    NamesAppend(front, last);
    DistinctSnoc(AssetKeys(front), KeyOf(last));
  }

  lemma DistinctSnoc<T>(xs: seq<T>, x: T)
    requires Distinct(xs + [x])
    ensures Distinct(xs) && x !in xs
  {
    var all := xs + [x];
    forall i, j | 0 <= i < j < |xs| ensures xs[i] != xs[j] {
      assert all[i] != all[j];
    }
    forall i | 0 <= i < |xs| ensures xs[i] != x {
      assert all[i] != all[|xs|];
    }
  }

  lemma {:induction false} RebuildIndexes(assets: seq<Asset>)
    requires Distinct(AssetKeys(assets))
    ensures Indexes(AssetKeys(assets), RebuildIndex(assets))
  {
    if assets != [] {
      var front, last := assets[..|assets| - 1], assets[|assets| - 1];
      assert assets == front + [last];
      KeysSnoc(front, last);
      RebuildIndexes(front);
      IndexesMember(AssetKeys(front), RebuildIndex(front));
      IndexesAppend(AssetKeys(front), RebuildIndex(front), KeyOf(last));
    }
  }

  /** A rebuilt exact index is the index it replaces. */
  lemma IndexesUnique(keys: seq<string>, a: map<string, nat>, b: map<string, nat>)
    requires Indexes(keys, a) && Indexes(keys, b)
    ensures a == b
  {
    IndexesMember(keys, a);
    IndexesMember(keys, b);
    forall k | k in a ensures k in b && a[k] == b[k] {
      assert keys[a[k]] == k;
      assert b[keys[a[k]]] == a[k];
    }
  }

  lemma NamesAppend(assets: seq<Asset>, a: Asset)
    ensures Names(assets + [a]) == Names(assets) + [NameOf(a)]
    ensures AssetKeys(assets + [a]) == AssetKeys(assets) + [KeyOf(a)]
  {
    assert Names(assets + [a]) == Names(assets) + [NameOf(a)];
  }

  /** The two selections split the names, and stay well-formed. */
  ghost predicate Split(assets: seq<Asset>, canonical: seq<Asset>, pending: seq<Asset>) {
    && AllWellNamed(canonical) && AllWellNamed(pending)
    && Distinct(AssetKeys(canonical)) && Distinct(AssetKeys(pending))
    && (forall n :: n in Names(assets) <==> n in Names(canonical) || n in Names(pending))
    && (forall k :: k in AssetKeys(canonical) ==> k !in AssetKeys(pending))
    && (forall k :: k in AssetKeys(assets) <==> k in AssetKeys(canonical) || k in AssetKeys(pending))
  }

  lemma SplitStep(assets: seq<Asset>, canonical: seq<Asset>, pending: seq<Asset>, a: Asset)
    requires Split(assets, canonical, pending) && WellNamed(a) && KeyOf(a) !in AssetKeys(assets)
    ensures Split(assets + [a], canonical + [a], pending) && Split(assets + [a], canonical, pending + [a])
  {
    NamesAppend(assets, a);
    NamesAppend(canonical, a);
    NamesAppend(pending, a);
  }

  lemma {:induction false} SelectSplits(g: Graph, assets: seq<Asset>)
    requires Distinct(AssetKeys(assets)) && AllWellNamed(assets)
    ensures Split(assets, Select(g, assets, false), Select(g, assets, true))
  {
    if assets != [] {
      var front, last := assets[..|assets| - 1], assets[|assets| - 1];
      assert assets == front + [last];
      KeysSnoc(front, last);
      SelectSplits(g, front);
      var canonical, pending := Select(g, front, false), Select(g, front, true);
      assert canonical + [] == canonical && pending + [] == pending;
      SplitStep(front, canonical, pending, last);
    }
  }

  /** Part way through re-ingesting: i of the pending assets are back. */
  ghost predicate Returning(g: Graph, h: Graph, pending: seq<Asset>, i: nat, target: seq<Name>) {
    && i <= |pending|
    && Indexed(h) && h.initialized == g.initialized && h.relations == g.relations
    && Names(h.assets) == Names(g.assets) + Names(pending[..i])
    && Agree(h.observations, target)
  }

  lemma NotYetBack(names: seq<Name>, pending: seq<Asset>, i: nat)
    requires i < |pending| && Distinct(AssetKeys(pending))
    requires forall k :: k in NameKeys(names) ==> k !in AssetKeys(pending)
    ensures KeyOf(pending[i]) !in NameKeys(names + Names(pending[..i]))
  {
    var k := KeyOf(pending[i]);
    var before := names + Names(pending[..i]);
    var keys := AssetKeys(pending);
    assert keys[i] == k;
    forall j | 0 <= j < |before| ensures NameKeys(before)[j] != k {
      if j < |names| {
        assert NameKeys(names)[j] == NameKeys(before)[j];
        assert NameKeys(names)[j] in NameKeys(names) && keys[i] in keys;
      } else {
        assert NameKeys(before)[j] == keys[j - |names|];
      }
    }
  }

  lemma NamesTake(assets: seq<Asset>, i: nat)
    requires i < |assets|
    ensures Names(assets[..i + 1]) == Names(assets[..i]) + [NameOf(assets[i])]
    ensures Within(Names(assets[..i + 1]), Names(assets))
  {
    assert assets[..i + 1] == assets[..i] + [assets[i]];
    NamesAppend(assets[..i], assets[i]);
    forall n | n in Names(assets[..i + 1]) ensures n in Names(assets) {
      var j :| 0 <= j < i + 1 && Names(assets[..i + 1])[j] == n;
      assert Names(assets)[j] == n;
    }
  }

  lemma ReturningStep(g: Graph, h: Graph, pending: seq<Asset>, i: nat, target: seq<Name>)
    requires Returning(g, h, pending, i, target) && i < |pending|
    requires AllWellNamed(pending) && Distinct(AssetKeys(pending))
    requires forall k :: k in AssetKeys(g.assets) ==> k !in AssetKeys(pending)
    requires Within(Names(g.assets), target) && Within(Names(pending), target)
    ensures Returning(g, IngestAsset(h, pending[i]), pending, i + 1, target)
  {
    var a := pending[i];
    TrimmedIsFixed(a.id);
    IngestAssetNames(h, a);
    NotYetBack(Names(g.assets), pending, i);
    NamesTake(pending, i);
    Returned(h, IngestAsset(h, a), AssetName(h, a), Names(g.assets), Names(pending[..i]), target);
  }

  lemma Returned(h: Graph, h': Graph, n: Name, kept: seq<Name>, back: seq<Name>, target: seq<Name>)
    requires Ingested(h, h', n) && Names(h.assets) == kept + back && n.key !in NameKeys(kept + back)
    requires Within(kept, target) && Within(back + [n], target) && Agree(h.observations, target)
    ensures Names(h'.assets) == kept + (back + [n]) && Agree(h'.observations, target)
  {
    AgreeStep(h, h', n, target);
  }

  lemma KeptStarts(g: Graph)
    requires Indexed(g) && Agree(g.observations, Names(g.assets))
    ensures var pending := Select(g, g.assets, true);
            && Split(g.assets, Kept(g).assets, pending)
            && Returning(Kept(g), Kept(g), pending, 0, Names(g.assets))
  {
    var canonical, pending := Select(g, g.assets, false), Select(g, g.assets, true);
    IndexesMember(AssetKeys(g.assets), g.assetIndex);
    SelectSplits(g, g.assets);
    RebuildIndexes(canonical);
    assert pending[..0] == [] && Names(canonical) + Names([]) == Names(canonical);
  }

  lemma AllReturn(g: Graph, pending: seq<Asset>, target: seq<Name>)
    requires Returning(g, g, pending, 0, target)
    requires AllWellNamed(pending) && Distinct(AssetKeys(pending))
    requires forall k :: k in AssetKeys(g.assets) ==> k !in AssetKeys(pending)
    requires Within(Names(g.assets), target) && Within(Names(pending), target)
    ensures Returning(g, IngestAll(g, pending), pending, |pending|, target)
  {
    forall i: nat, h | i < |pending| && Returning(g, h, pending, i, target)
      ensures Returning(g, IngestAsset(h, pending[i]), pending, i + 1, target)
    {
      ReturningStep(g, h, pending, i, target);
    }
    FoldInvariant(IngestAsset, g, pending, (i, h) => Returning(g, h, pending, i, target));
  }

  /** Reconciling reorders the asset list but keeps every canonical key under
      its id. */
  lemma ReconciledNames(g: Graph)
    requires Indexed(g) && Agree(g.observations, Names(g.assets))
    ensures var h := Reconciled(g);
            && Indexed(h) && Agree(h.observations, Names(h.assets))
            && Within(Names(g.assets), Names(h.assets)) && Within(Names(h.assets), Names(g.assets))
            && h.initialized == g.initialized && h.relations == g.relations
  {
    var pending := Select(g, g.assets, true);
    KeptStarts(g);
    AllReturn(Kept(g), pending, Names(g.assets));
    assert pending[..|pending|] == pending;
    AgreeOnMore(Reconciled(g).observations, Names(g.assets), Names(Reconciled(g).assets));
  }

  lemma AgreeOnMore(os: seq<Observation>, a: seq<Name>, b: seq<Name>)
    requires Agree(os, a) && Within(a, b)
    ensures Agree(os, b)
  {
  }

  lemma EnsuredCanonical(g: Graph)
    requires if g.initialized then Canonical(g) else BarFreeAssets(g.assets)
    ensures Canonical(Ensured(g))
    ensures g.initialized ==> Within(Names(g.assets), Names(Ensured(g).assets)) && Ensured(g).relations == g.relations
    ensures !g.initialized ==> Ensured(g).relations == []
  {
    if g.initialized {
      IndexesMember(AssetKeys(g.assets), g.assetIndex);
      RebuildIndexes(g.assets);
      IndexesUnique(AssetKeys(g.assets), g.assetIndex, RebuildIndex(g.assets));
      assert g.(assetIndex := RebuildIndex(g.assets)) == g;
      ReconciledNames(g);
    } else {
      IngestAllGrows(Emptied(g), g.assets);
    }
  }

  // ----- whole histories -----

  ghost predicate BarFreeOp(op: Op) {
    match op
    case AppendAssets(assets) => BarFreeAssets(assets)
    case AppendObservations(os) => BarFreeObservations(os)
    case _ => true
  }

  ghost predicate BarFreeOps(ops: seq<Op>) {
    forall i :: 0 <= i < |ops| ==> BarFreeOp(ops[i])
  }

  /** A context nobody has indexed yet, or a canonical one. */
  ghost predicate Sound(g: Graph) {
    if g.initialized then Canonical(g) else BarFreeAssets(g.assets)
  }

  lemma GrownIsCanonical(g: Graph, h: Graph)
    requires Canonical(g) && Grown(g, h)
    ensures Canonical(h) && Within(Names(g.assets), Names(h.assets))
  {
  }

  lemma RelatedIsCanonical(g: Graph, rs: seq<Relation>)
    requires Canonical(g)
    ensures Canonical(Fold(AddRelation, g, rs)) && Fold(AddRelation, g, rs).assets == g.assets
  {
    RelateAllSame(g, rs);
  }

  /** An operation from the graph ensuring leaves. */
  lemma AppliedIsCanonical(g: Graph, op: Op)
    requires Canonical(Ensured(g)) && BarFreeOp(op)
    ensures Apply(g, op) == g || (Canonical(Apply(g, op)) && Within(Names(Ensured(g).assets), Names(Apply(g, op).assets)))
  {
    var e := Ensured(g);
    match op
    case AppendAssets(assets) =>
      IngestAllGrows(e, assets);
      GrownIsCanonical(e, IngestAll(e, assets));
    case AppendObservations(os) =>
      ObserveAllGrows(e, os);
      GrownIsCanonical(e, Fold(IngestObservation, e, os));
    case AppendRelations(rs) => RelatedIsCanonical(e, rs);
    case EnsureState =>
  }

  /** One operation keeps the graph canonical and loses no name. */
  lemma ApplySound(g: Graph, op: Op)
    requires Sound(g) && BarFreeOp(op)
    ensures Sound(Apply(g, op))
    ensures g.initialized ==> Apply(g, op).initialized && Within(Names(g.assets), Names(Apply(g, op).assets))
  {
    EnsuredCanonical(g);
    AppliedIsCanonical(g, op);
  }

  /** After any sequence of operations on any raw context, including the
      re-ingestion of assets first created from observations: the key index is
      exact, canonical keys are unique, and each observation carries the id of
      the asset with its own key. */
  lemma EveryGraphSound(raw: seq<Asset>, ops: seq<Op>)
    requires BarFreeAssets(raw) && BarFreeOps(ops)
    ensures Sound(RunOps(Raw(raw), ops))
  {
    forall i: nat, g | i < |ops| && Sound(g) ensures Sound(Apply(g, ops[i])) {
      ApplySound(g, ops[i]);
    }
    FoldInvariant(Apply, Raw(raw), ops, (i, g) => Sound(g));
  }

  ghost predicate Preserved(g: Graph, h: Graph) {
    Canonical(h) && Within(Names(g.assets), Names(h.assets))
  }

  /** No canonical id is lost, however the history goes on. */
  lemma NoIdLost(g: Graph, ops: seq<Op>)
    requires Canonical(g) && BarFreeOps(ops)
    ensures Canonical(RunOps(g, ops)) && Within(Names(g.assets), Names(RunOps(g, ops).assets))
  {
    forall i: nat, h | i < |ops| && Preserved(g, h) ensures Preserved(g, Apply(h, ops[i])) {
      ApplySound(h, ops[i]);
    }
    FoldInvariant(Apply, g, ops, (i, h) => Preserved(g, h));
  }

  /** A search from the front of the asset list. */
  function LinearScan(assets: seq<Asset>, key: string): int {
    if assets == [] then -1
    else
      var found := LinearScan(assets[..|assets| - 1], key);
      if found >= 0 then found else if KeyOf(assets[|assets| - 1]) == key then |assets| - 1 else -1
  }

  lemma {:induction false} ScanFinds(assets: seq<Asset>, key: string)
    ensures var i := LinearScan(assets, key);
            && (i >= 0 ==> i < |assets| && KeyOf(assets[i]) == key)
            && (i < 0 ==> forall j :: 0 <= j < |assets| ==> KeyOf(assets[j]) != key)
  {
    if assets != [] {
      ScanFinds(assets[..|assets| - 1], key);
    }
  }

  /** The index answers every lookup as the scan would. */
  lemma IndexIsScan(g: Graph, key: string)
    requires Canonical(g)
    ensures LinearScan(g.assets, key) == if key in g.assetIndex then g.assetIndex[key] else -1
  {
    ScanFinds(g.assets, key);
    var keys := AssetKeys(g.assets);
    if key in g.assetIndex {
      assert keys[g.assetIndex[key]] == key;
    }
    var i := LinearScan(g.assets, key);
    if i >= 0 {
      assert keys[i] == key;
    }
  }
}
