/** What ensuring and appending do to the merged fields: the canonical asset of
    a key is the merge of its sightings, over any number of calls, and their
    order does not matter. */
module GraphOrder {
  import opened Options
  import opened Orders
  import opened Text
  import opened AssetMerge
  import opened MergeOrder
  import opened Folds
  import opened Graphs
  import opened GraphIndex

  // ----- the canonical asset of a key -----

  function AssetAt(g: Graph, key: string): Option<Asset> {
    if key in g.assetIndex && g.assetIndex[key] < |g.assets| then Some(g.assets[g.assetIndex[key]]) else None
  }

  /** No two keys share a position, and no position is out of range. */
  ghost predicate OneKeyEach(g: Graph) {
    && (forall k :: k in g.assetIndex ==> g.assetIndex[k] < |g.assets|)
    && (forall k, l :: k in g.assetIndex && l in g.assetIndex && g.assetIndex[k] == g.assetIndex[l] ==> k == l)
  }

  lemma IndexedIsOneKeyEach(g: Graph)
    requires Indexed(g)
    ensures OneKeyEach(g)
  {
    var keys := AssetKeys(g.assets);
    IndexesMember(keys, g.assetIndex);
    forall k, l | k in g.assetIndex && l in g.assetIndex && g.assetIndex[k] == g.assetIndex[l] ensures k == l {
      assert keys[g.assetIndex[k]] == k && keys[g.assetIndex[l]] == l;
    }
  }

  /** An upsert merges under its own key and leaves every other key alone. */
  lemma UpsertAt(g: Graph, k: string, incoming: Asset, first: Asset, key: string)
    requires OneKeyEach(g)
    ensures AssetAt(Upsert(g, k, incoming, Discovery, first), key)
            == if key != k then AssetAt(g, key)
               else Some(match AssetAt(g, key) case None => first case Some(a) => MergeAsset(a, incoming, Discovery))
  {
  }

  lemma IngestAt(g: Graph, x: Asset, key: string)
    requires Indexed(g) && Trim(x.id) != ""
    ensures var a := NormalizeAsset(x);
            AssetAt(IngestAsset(g, x), key)
            == if key != KeyOf(x) then AssetAt(g, key)
               else Some(match AssetAt(g, key) case None => FirstSighting(a) case Some(b) => MergeAsset(b, a, Discovery))
  {
    var a := NormalizeAsset(x);
    IndexedIsOneKeyEach(g);
    NormalKeepsKey(x.typ, x.identifier);
    UpsertAt(g, KeyOf(a), a, FirstSighting(a), key);
    assert Identified(g, x) == (g, a);
  }

  lemma AtIff(g: Graph, key: string, a: Asset)
    requires Indexed(g)
    ensures AssetAt(g, key) == Some(a) <==> a in g.assets && KeyOf(a) == key
  {
    var keys := AssetKeys(g.assets);
    IndexesMember(keys, g.assetIndex);
    if key in g.assetIndex {
      assert keys[g.assetIndex[key]] == key;
    }
    if a in g.assets && KeyOf(a) == key {
      var i :| 0 <= i < |g.assets| && g.assets[i] == a;
      assert keys[i] == key && g.assetIndex[keys[i]] == i;
    }
  }

  // ----- ingestion computes the merge of the sightings -----

  function SightingsOf(xs: seq<Asset>, key: string): seq<Asset> {
    if xs == [] then []
    else SightingsOf(xs[..|xs| - 1], key) + if KeyOf(xs[|xs| - 1]) == key then [xs[|xs| - 1]] else []
  }

  /** What one more sighting makes of the asset already there, if any. */
  function Sight(there: Option<Asset>, x: Asset): Option<Asset> {
    match there
    case None => Some(FirstSighting(NormalizeAsset(x)))
    case Some(a) => Some(MergeAsset(a, NormalizeAsset(x), Discovery))
  }

  /** What sightings of one key make of it. */
  function Gather(there: Option<Asset>, ys: seq<Asset>): Option<Asset> {
    Fold(Sight, there, ys)
  }

  lemma {:induction false} GatherIsSightings(ys: seq<Asset>)
    ensures Gather(None, ys) == if ys == [] then None else Some(Sightings(ys))
  {
    if ys != [] {
      GatherIsSightings(ys[..|ys| - 1]);
    }
  }

  lemma {:induction false} SightingsOfAppend(xs: seq<Asset>, ys: seq<Asset>, key: string)
    ensures SightingsOf(xs + ys, key) == SightingsOf(xs, key) + SightingsOf(ys, key)
  {
    if ys == [] {
      assert xs + ys == xs && SightingsOf(xs, key) + [] == SightingsOf(xs, key);
    } else {
      SightingsOfAppend(xs, ys[..|ys| - 1], key);
      assert (xs + ys)[..|xs + ys| - 1] == xs + ys[..|ys| - 1];
    }
  }

  lemma {:induction false} SightingsMembers(xs: seq<Asset>, key: string)
    ensures forall a :: a in SightingsOf(xs, key) <==> a in xs && KeyOf(a) == key
  {
    if xs != [] {
      SightingsMembers(xs[..|xs| - 1], key);
      assert xs == xs[..|xs| - 1] + [xs[|xs| - 1]];
    }
  }

  /** Assets that come with an id, so that ingestion makes none up. */
  ghost predicate WithIDs(xs: seq<Asset>) {
    forall x :: x in xs ==> BarFree(x.typ) && Trim(x.id) != ""
  }

  lemma IngestIndexed(g: Graph, x: Asset)
    requires Indexed(g) && BarFree(x.typ)
    ensures Indexed(IngestAsset(g, x))
  {
    IngestAssetNames(g, x);
  }

  /** Under every key, appending assets merges exactly its sightings, in order,
      into the asset already there. */
  lemma {:induction false} IngestAllGathers(g: Graph, xs: seq<Asset>, key: string)
    requires Indexed(g) && WithIDs(xs)
    ensures Indexed(IngestAll(g, xs))
    ensures AssetAt(IngestAll(g, xs), key) == Gather(AssetAt(g, key), SightingsOf(xs, key))
  {
    if xs != [] {
      var front, last := xs[..|xs| - 1], xs[|xs| - 1];
      assert last in xs;
      IngestAllGathers(g, front, key);
      IngestIndexed(IngestAll(g, front), last);
      IngestAt(IngestAll(g, front), last, key);
      var ys := SightingsOf(front, key);
      assert ys + [] == ys && (ys + [last])[..|ys|] == ys;
    }
  }

  // ----- ensuring -----

  /** Every canonical asset's id is an observation's. */
  ghost predicate AllObserved(g: Graph) {
    forall i :: 0 <= i < |g.assets| ==> g.assets[i].id in g.observationIndex
  }

  lemma AllObservedNames(g: Graph)
    ensures AllObserved(g) <==> forall n :: n in Names(g.assets) ==> n.id in g.observationIndex
  {
    if AllObserved(g) {
      forall n | n in Names(g.assets) ensures n.id in g.observationIndex {
        var i :| 0 <= i < |g.assets| && Names(g.assets)[i] == n;
      }
    } else {
      var i :| 0 <= i < |g.assets| && g.assets[i].id !in g.observationIndex;
      assert Names(g.assets)[i] in Names(g.assets);
    }
  }

  lemma IngestedObserved(g: Graph, h: Graph, n: Name)
    requires AllObserved(g) && Ingested(g, h, n) && n.id in h.observationIndex
    ensures AllObserved(h)
  {
    AllObservedNames(g);
    AllObservedNames(h);
  }

  lemma IngestObserved(g: Graph, raw: Asset)
    requires Indexed(g) && AllObserved(g) && BarFree(raw.typ)
    ensures Indexed(IngestAsset(g, raw)) && AllObserved(IngestAsset(g, raw))
  {
    IngestAssetNames(g, raw);
    IngestedObserved(g, IngestAsset(g, raw), AssetName(g, raw));
  }

  lemma IngestAllObserved(g: Graph, xs: seq<Asset>)
    requires Indexed(g) && AllObserved(g) && BarFreeAssets(xs)
    ensures Indexed(IngestAll(g, xs)) && AllObserved(IngestAll(g, xs))
  {
    forall i: nat, h | i < |xs| && Indexed(h) && AllObserved(h)
      ensures Indexed(IngestAsset(h, xs[i])) && AllObserved(IngestAsset(h, xs[i]))
    {
      IngestObserved(h, xs[i]);
    }
    FoldInvariant(IngestAsset, g, xs, (i, h) => Indexed(h) && AllObserved(h));
  }

  lemma {:induction false} SelectMembers(g: Graph, assets: seq<Asset>, unobserved: bool)
    ensures forall a :: a in Select(g, assets, unobserved) <==> a in assets && Unobserved(g, a) == unobserved
  {
    if assets != [] {
      SelectMembers(g, assets[..|assets| - 1], unobserved);
      assert assets == assets[..|assets| - 1] + [assets[|assets| - 1]];
    }
  }

  lemma {:induction false} SelectAll(g: Graph, assets: seq<Asset>)
    requires forall a :: a in assets ==> !Unobserved(g, a)
    ensures Select(g, assets, false) == assets && Select(g, assets, true) == []
  {
    if assets != [] {
      assert assets == assets[..|assets| - 1] + [assets[|assets| - 1]];
      SelectAll(g, assets[..|assets| - 1]);
    }
  }

  lemma RebuiltIsSame(g: Graph)
    requires Indexed(g)
    ensures RebuildIndex(g.assets) == g.assetIndex
  {
    IndexesMember(AssetKeys(g.assets), g.assetIndex);
    RebuildIndexes(g.assets);
    IndexesUnique(AssetKeys(g.assets), g.assetIndex, RebuildIndex(g.assets));
  }

  /** A graph whose assets are all observed is left as it is. */
  lemma EnsuredFixed(g: Graph)
    requires g.initialized && Indexed(g) && AllObserved(g)
    ensures Ensured(g) == g
  {
    RebuiltIsSame(g);
    forall a | a in g.assets ensures !Unobserved(g, a) {
      var i :| 0 <= i < |g.assets| && g.assets[i] == a;
    }
    SelectAll(g, g.assets);
    assert g.(assetIndex := RebuildIndex(g.assets)) == g;
    assert Kept(g) == g;
  }

  lemma KeptIndexed(g: Graph)
    requires Indexed(g) && Agree(g.observations, Names(g.assets))
    ensures Indexed(Kept(g)) && BarFreeAssets(Select(g, g.assets, true))
  {
    KeptStarts(g);
  }

  lemma KeptObserved(g: Graph)
    requires AllWellNamed(g.assets)
    ensures AllObserved(Kept(g))
  {
    var kept := Select(g, g.assets, false);
    SelectMembers(g, g.assets, false);
    forall i | 0 <= i < |kept| ensures kept[i].id in g.observationIndex {
      assert kept[i] in kept;
      var j :| 0 <= j < |g.assets| && g.assets[j] == kept[i];
      assert WellNamed(g.assets[j]);
    }
  }

  lemma EnsuredObserved(g: Graph)
    requires Sound(g)
    ensures Ensured(g).initialized && Indexed(Ensured(g)) && AllObserved(Ensured(g))
  {
    EnsuredCanonical(g);
    if g.initialized {
      RebuiltIsSame(g);
      assert g.(assetIndex := RebuildIndex(g.assets)) == g;
      KeptIndexed(g);
      KeptObserved(g);
      IngestAllObserved(Kept(g), Select(g, g.assets, true));
    } else {
      IngestAllObserved(Emptied(g), g.assets);
    }
  }

  /** Ensuring twice is ensuring once. */
  lemma EnsuringIsIdempotent(g: Graph)
    requires Sound(g)
    ensures Ensured(Ensured(g)) == Ensured(g)
  {
    EnsuredObserved(g);
    EnsuredFixed(Ensured(g));
  }

  // ----- what re-ingestion does to an asset -----

  lemma {:induction false} DistinctSightings(xs: seq<Asset>, a: Asset)
    requires Distinct(AssetKeys(xs))
    ensures SightingsOf(xs, KeyOf(a)) == if a in xs then [a] else SightingsOf(xs, KeyOf(a))
    ensures KeyOf(a) !in AssetKeys(xs) ==> SightingsOf(xs, KeyOf(a)) == []
  {
    if xs != [] {
      var front, last := xs[..|xs| - 1], xs[|xs| - 1];
      assert xs == front + [last];
      KeysSnoc(front, last);
      DistinctSightings(front, a);
      if a in front {
        KeyedMember(front, a);
      }
      assert [] + [a] == [a] && SightingsOf(front, KeyOf(a)) + [] == SightingsOf(front, KeyOf(a));
    }
  }

  lemma KeyedMember(xs: seq<Asset>, a: Asset)
    requires a in xs
    ensures KeyOf(a) in AssetKeys(xs)
  {
    var i :| 0 <= i < |xs| && xs[i] == a;
    assert AssetKeys(xs)[i] == KeyOf(a);
  }

  lemma SomeAsset(xs: seq<Asset>)
    ensures xs == [] || exists a :: a in xs
  {
    if xs != [] {
      assert xs[0] in xs;
    }
  }

  lemma PendingIdentified(g: Graph)
    requires Indexed(g)
    ensures WithIDs(Select(g, g.assets, true))
  {
    SelectMembers(g, g.assets, true);
    forall x | x in Select(g, g.assets, true) ensures BarFree(x.typ) && Trim(x.id) != "" {
      var i :| 0 <= i < |g.assets| && g.assets[i] == x;
      assert WellNamed(g.assets[i]);
      TrimmedIsFixed(x.id);
    }
  }

  /** Reconciling leaves an observed asset as it is, and makes of one first
      created from an observation the first sighting of itself. */
  lemma ReconciledAt(g: Graph, a: Asset)
    requires Indexed(g) && Agree(g.observations, Names(g.assets)) && a in g.assets
    ensures AssetAt(Reconciled(g), KeyOf(a)) == Some(if Unobserved(g, a) then FirstSighting(NormalizeAsset(a)) else a)
  {
    KeptIndexed(g);
    PendingIdentified(g);
    IngestAllGathers(Kept(g), Select(g, g.assets, true), KeyOf(a));
    if Unobserved(g, a) {
      PendingIsSightedOnce(g, a);
      NotKept(g, a);
      GatherIsSightings([a]);
    } else {
      StaysKept(g, a);
      NotPending(g, a);
    }
  }

  lemma PendingIsSightedOnce(g: Graph, a: Asset)
    requires Indexed(g) && Agree(g.observations, Names(g.assets)) && a in g.assets && Unobserved(g, a)
    ensures SightingsOf(Select(g, g.assets, true), KeyOf(a)) == [a]
  {
    KeptStarts(g);
    SelectMembers(g, g.assets, true);
    DistinctSightings(Select(g, g.assets, true), a);
  }

  lemma StaysKept(g: Graph, a: Asset)
    requires Indexed(Kept(g)) && a in g.assets && !Unobserved(g, a)
    ensures AssetAt(Kept(g), KeyOf(a)) == Some(a)
  {
    SelectMembers(g, g.assets, false);
    AtIff(Kept(g), KeyOf(a), a);
  }

  lemma NotKept(g: Graph, a: Asset)
    requires Indexed(g) && a in g.assets && Unobserved(g, a) && Indexed(Kept(g))
    ensures AssetAt(Kept(g), KeyOf(a)) == None
  {
    SelectMembers(g, g.assets, false);
    if AssetAt(Kept(g), KeyOf(a)).Some? {
      var b := AssetAt(Kept(g), KeyOf(a)).value;
      AtIff(Kept(g), KeyOf(a), b);
      AtIff(g, KeyOf(a), a);
      AtIff(g, KeyOf(a), b);
    }
  }

  lemma NotPending(g: Graph, a: Asset)
    requires Indexed(g) && a in g.assets && !Unobserved(g, a)
    ensures SightingsOf(Select(g, g.assets, true), KeyOf(a)) == []
  {
    var pending := Select(g, g.assets, true);
    SelectMembers(g, g.assets, true);
    SightingsMembers(pending, KeyOf(a));
    forall b ensures b !in SightingsOf(pending, KeyOf(a)) {
      if b in pending && KeyOf(b) == KeyOf(a) {
        AtIff(g, KeyOf(a), a);
        AtIff(g, KeyOf(a), b);
      }
    }
    SomeAsset(SightingsOf(pending, KeyOf(a)));
  }

  /** The first sighting of itself: id, key, date, catch-all flag, stated
      ownership and record keys stay; the provenance shrinks to one item. */
  lemma FirstSightingOfItself(a: Asset)
    requires WellNamed(a) && a.ownership != Unstated
    requires a.typ == DOMAIN ==> SortedRecords(RecordsOf(a))
    ensures var b := FirstSighting(NormalizeAsset(a));
            && b.id == a.id && KeyOf(b) == KeyOf(a) && b.date == a.date && b.ownership == a.ownership
            && CatchesAll(b) == CatchesAll(a)
            && KeysBy(RecordsOf(b), RecordKey) == KeysBy(RecordsOf(a), RecordKey)
            && b.provenance == [ProvenanceOf(NormalizeAsset(a))]
  {
    NormalKeepsKey(a.typ, a.identifier);
    TrimmedIsFixed(a.id);
    OneProvenance(ProvenanceOf(NormalizeAsset(a)));
    if a.typ == DOMAIN {
      NormalizedRecords(a);
      var b := NormalizeAsset(a);
      NamesKeyIsKey(RecordsOf(a));
      NamesKeyIsKey(RecordsOf(b));
      PairLessIsStrict();
      AscendingByUnique(KeysBy(RecordsOf(b), RecordKey), KeysBy(RecordsOf(a), RecordKey), PairLess);
    }
  }

  // ----- over whole histories -----

  /** Everything but appending observations. */
  predicate AssetOp(op: Op) {
    !op.AppendObservations?
  }

  function Supplied(op: Op): seq<Asset> {
    if op.AppendAssets? then op.assets else []
  }

  /** All assets a context got, first to last. */
  function Submitted(raw: seq<Asset>, ops: seq<Op>): seq<Asset> {
    if ops == [] then raw else Submitted(raw, ops[..|ops| - 1]) + Supplied(ops[|ops| - 1])
  }

  /** Under every key the graph holds the merge of its sightings so far. */
  ghost predicate Gathered(g: Graph, xs: seq<Asset>) {
    && g.initialized && Indexed(g) && AllObserved(g)
    && forall key :: AssetAt(g, key) == Gather(None, SightingsOf(xs, key))
  }

  lemma IngestAllGathered(g: Graph, xs: seq<Asset>, more: seq<Asset>)
    requires Gathered(g, xs) && WithIDs(more)
    ensures Gathered(IngestAll(g, more), xs + more)
  {
    var h := IngestAll(g, more);
    assert BarFreeAssets(more);
    IngestAllObserved(g, more);
    IngestAllKeepsInitialized(g, more);
    forall key ensures AssetAt(h, key) == Gather(None, SightingsOf(xs + more, key)) {
      IngestAllGathers(g, more, key);
      SightingsOfAppend(xs, more, key);
      FoldAppend(Sight, None, SightingsOf(xs, key), SightingsOf(more, key));
    }
  }

  lemma IngestAllKeepsInitialized(g: Graph, xs: seq<Asset>)
    ensures IngestAll(g, xs).initialized == g.initialized
  {
    FoldInvariant(IngestAsset, g, xs, (i, h: Graph) => h.initialized == g.initialized);
  }

  /** The first ensuring gathers the raw assets. */
  lemma RawGathered(raw: seq<Asset>)
    requires WithIDs(raw)
    ensures Gathered(Ensured(Raw(raw)), raw)
  {
    assert BarFreeAssets(raw);
    EnsuredObserved(Raw(raw));
    var h := IngestAll(Emptied(Raw(raw)), raw);
    forall key ensures AssetAt(Ensured(Raw(raw)), key) == Gather(None, SightingsOf(raw, key)) {
      IngestAllGathers(Emptied(Raw(raw)), raw, key);
      assert AssetAt(Ensured(Raw(raw)), key) == AssetAt(h, key);
    }
  }

  /** An operation on a graph that ensuring leaves alone. */
  lemma EnsuredApplies(g: Graph, xs: seq<Asset>, op: Op)
    requires Gathered(Ensured(g), xs) && AssetOp(op) && WithIDs(Supplied(op))
    ensures Apply(g, op) == g || Gathered(Apply(g, op), xs + Supplied(op))
  {
    var e := Ensured(g);
    assert xs + [] == xs;
    match op
    case AppendAssets(assets) => IngestAllGathered(e, xs, assets);
    case AppendRelations(rs) => RelatedGathered(e, xs, rs);
    case EnsureState =>
  }

  lemma RelatedGathered(g: Graph, xs: seq<Asset>, rs: seq<Relation>)
    requires Gathered(g, xs)
    ensures Gathered(Fold(AddRelation, g, rs), xs)
  {
    RelateAllSame(g, rs);
    var h := Fold(AddRelation, g, rs);
    forall key ensures AssetAt(h, key) == AssetAt(g, key) {}
  }

  ghost predicate Following(raw: seq<Asset>, ops: seq<Op>, i: nat, g: Graph) {
    && i <= |ops|
    && if g.initialized then Gathered(g, Submitted(raw, ops[..i]))
       else g == Raw(raw) && Submitted(raw, ops[..i]) == raw
  }

  lemma FollowingStep(raw: seq<Asset>, ops: seq<Op>, i: nat, g: Graph)
    requires Following(raw, ops, i, g) && i < |ops| && AssetOp(ops[i])
    requires WithIDs(raw) && WithIDs(Supplied(ops[i]))
    ensures Following(raw, ops, i + 1, Apply(g, ops[i]))
  {
    var xs := Submitted(raw, ops[..i]);
    assert ops[..i + 1][..i] == ops[..i];
    assert Submitted(raw, ops[..i + 1]) == xs + Supplied(ops[i]);
    if g.initialized {
      EnsuredFixed(g);
    } else {
      RawGathered(raw);
    }
    EnsuredApplies(g, xs, ops[i]);
    if Apply(g, ops[i]) == g {
      NoOpSupplies(g, ops[i], xs);
    }
  }

  lemma NoOpSupplies(g: Graph, op: Op, xs: seq<Asset>)
    requires AssetOp(op) && Apply(g, op) == g && WithIDs(Supplied(op))
    requires if g.initialized then Gathered(g, xs) else Gathered(Ensured(g), xs)
    ensures if g.initialized then Gathered(g, xs + Supplied(op)) else Supplied(op) == []
  {
    assert xs + [] == xs;
    if g.initialized {
      EnsuredFixed(g);
      if op.AppendAssets? {
        IngestAllGathered(g, xs, op.assets);
      }
    } else if op.AppendAssets? && op.assets != [] {
      IngestAllKeepsInitialized(Ensured(g), op.assets);
    }
  }

  ghost predicate AssetHistory(raw: seq<Asset>, ops: seq<Op>) {
    WithIDs(raw) && forall i :: 0 <= i < |ops| ==> AssetOp(ops[i]) && WithIDs(Supplied(ops[i]))
  }

  /** After any sequence of operations that append assets or relations, on any
      raw context, the canonical asset of each key is the merge of all its
      sightings, whichever calls they came in. */
  lemma HistoryGathers(raw: seq<Asset>, ops: seq<Op>)
    requires AssetHistory(raw, ops) && RunOps(Raw(raw), ops).initialized
    ensures Gathered(RunOps(Raw(raw), ops), Submitted(raw, ops))
  {
    assert ops[..0] == [];
    forall i: nat, g | i < |ops| && Following(raw, ops, i, g) ensures Following(raw, ops, i + 1, Apply(g, ops[i])) {
      FollowingStep(raw, ops, i, g);
    }
    FoldInvariant(Apply, Raw(raw), ops, (i, g) => Following(raw, ops, i, g));
    assert ops[..|ops|] == ops;
  }

  // ----- the order of appends does not matter -----

  /** Two canonical assets with the same merged fields. */
  ghost predicate SameMerge(a: Asset, b: Asset, typ: string) {
    && a.date == b.date && CatchesAll(a) == CatchesAll(b)
    && KeysBy(a.provenance, ProvenanceKey) == KeysBy(b.provenance, ProvenanceKey)
    && (typ == DOMAIN ==> KeysBy(RecordsOf(a), RecordKey) == KeysBy(RecordsOf(b), RecordKey))
  }

  ghost predicate Presentable(xs: seq<Asset>) {
    forall x :: x in xs ==> BarFree(x.typ) && Sighted(x)
  }

  /** Two histories of a context that submit the same assets, in any order,
      any number of times, spread over any calls and mixed with relations,
      leave under each key an asset with the same date, catch-all flag,
      provenance keys and DNS record keys; for an IP, the same ownership. */
  lemma AppendOrderIsIrrelevant(raw: seq<Asset>, ops: seq<Op>, raw': seq<Asset>, ops': seq<Op>, key: string)
    requires AssetHistory(raw, ops) && AssetHistory(raw', ops')
    requires RunOps(Raw(raw), ops).initialized && RunOps(Raw(raw'), ops').initialized
    requires forall a :: a in Submitted(raw, ops) <==> a in Submitted(raw', ops')
    requires Presentable(Submitted(raw, ops))
    ensures var (p, q) := (AssetAt(RunOps(Raw(raw), ops), key), AssetAt(RunOps(Raw(raw'), ops'), key));
            && (p.Some? <==> q.Some?)
            && forall x :: x in Submitted(raw, ops) && KeyOf(x) == key ==>
                 && p.Some? && q.Some? && SameMerge(p.value, q.value, x.typ)
                 && (x.typ == IP && (forall y :: y in Submitted(raw, ops) ==> !y.ownership.Other?)
                     ==> p.value.ownership == q.value.ownership)
  {
    var xs, ys := Submitted(raw, ops), Submitted(raw', ops');
    var s, t := SightingsOf(xs, key), SightingsOf(ys, key);
    HistoryGathers(raw, ops);
    HistoryGathers(raw', ops');
    GatherIsSightings(s);
    GatherIsSightings(t);
    SightingsMembers(xs, key);
    SightingsMembers(ys, key);
    SomeAsset(s);
    SomeAsset(t);
    forall x | x in xs && KeyOf(x) == key ensures SameSighted(xs, s, t, x) {
      SameSightings(xs, ys, x);
    }
  }

  /** What the sightings s and t of x's key agree on. */
  ghost predicate SameSighted(xs: seq<Asset>, s: seq<Asset>, t: seq<Asset>, x: Asset) {
    && s != [] && t != [] && SameMerge(Sightings(s), Sightings(t), x.typ)
    && (x.typ == IP && (forall y :: y in xs ==> !y.ownership.Other?) ==> Sightings(s).ownership == Sightings(t).ownership)
  }

  lemma SameSightings(xs: seq<Asset>, ys: seq<Asset>, x: Asset)
    requires x in xs && Presentable(xs) && forall a :: a in xs <==> a in ys
    ensures SameSighted(xs, SightingsOf(xs, KeyOf(x)), SightingsOf(ys, KeyOf(x)), x)
  {
    var s, t := SightingsOf(xs, KeyOf(x)), SightingsOf(ys, KeyOf(x));
    SightingsMembers(xs, KeyOf(x));
    SightingsMembers(ys, KeyOf(x));
    assert x in s && x in t;
    assert forall a :: a in s <==> a in t;
    OneTyped(xs, s, x);
    OneTyped(xs, t, x);
    if forall y :: y in xs ==> !y.ownership.Other? {
      StateableSightings(s);
      StateableSightings(t);
    }
    OrderIsIrrelevant(s, t, x.typ);
  }

  /** Sightings of one key are of one type. */
  lemma OneTyped(xs: seq<Asset>, s: seq<Asset>, x: Asset)
    requires Presentable(xs) && x in xs && s != []
    requires forall a :: a in s ==> a in xs && KeyOf(a) == KeyOf(x)
    ensures AllSighted(s, x.typ)
  {
    forall a | a in s ensures a.typ == x.typ {
      SplitFirstBar(a.typ, Norm(a.identifier), x.typ, Norm(x.identifier));
    }
  }

  lemma StateableSightings(s: seq<Asset>)
    requires s != [] && forall x :: x in s ==> !x.ownership.Other?
    ensures Stateable(Ownerships(s))
  {
    forall i | 0 <= i < |s| ensures !Ownerships(s)[i].Other? {
      assert s[i] in s;
    }
  }
}
