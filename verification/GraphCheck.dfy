/** The merge filter's independent check of the graph, and why it finds
    nothing (internal/filter/filtering.go). */
module GraphCheck {
  import opened Text
  import opened AssetMerge
  import opened Folds
  import opened Graphs
  import opened GraphIndex

  // ----- the check -----

  /** canonicalValidationKey: blank for assets it does not compare. */
  function ValidationKey(a: Asset): string {
    if a.typ == "" || Norm(a.identifier) == "" then "" else a.typ + "|" + Norm(a.identifier)
  }

  ghost predicate Duplicates(a: Asset, b: Asset) {
    ValidationKey(a) != "" && ValidationKey(a) == ValidationKey(b) && a.id != b.id
  }

  ghost predicate NoDuplicates(assets: seq<Asset>) {
    forall i, j :: 0 <= i < j < |assets| ==> !Duplicates(assets[i], assets[j])
  }

  ghost function NonBlankIDs(assets: seq<Asset>): set<string> {
    if assets == [] then {}
    else NonBlankIDs(assets[..|assets| - 1]) + if assets[|assets| - 1].id != "" then {assets[|assets| - 1].id} else {}
  }

  lemma {:induction false} NonBlankMember(assets: seq<Asset>, id: string)
    ensures id in NonBlankIDs(assets) <==> id != "" && exists i :: 0 <= i < |assets| && assets[i].id == id
  {
    if assets != [] {
      var front, last := assets[..|assets| - 1], assets[|assets| - 1];
      NonBlankMember(front, id);
      if i :| 0 <= i < |front| && front[i].id == id {
        assert assets[i].id == id;
      }
      if i :| 0 <= i < |assets| && assets[i].id == id {
        assert i < |front| ==> front[i].id == id;
      }
    }
  }

  ghost function DanglingObservations(os: seq<Observation>, ids: set<string>): nat {
    if os == [] then 0
    else DanglingObservations(os[..|os| - 1], ids)
         + if os[|os| - 1].assetID == "" || os[|os| - 1].assetID !in ids then 1 else 0
  }

  ghost function DanglingEnd(id: string, ids: set<string>): nat {
    if id != "" && id !in ids then 1 else 0
  }

  ghost function DanglingRelations(rs: seq<Relation>, ids: set<string>): nat {
    if rs == [] then 0
    else DanglingRelations(rs[..|rs| - 1], ids) + DanglingEnd(rs[|rs| - 1].fromID, ids) + DanglingEnd(rs[|rs| - 1].toID, ids)
  }

  /** The observations without a canonical asset, by position. */
  ghost function UnownedAt(os: seq<Observation>, ids: set<string>): set<int> {
    set i | 0 <= i < |os| && (os[i].assetID == "" || os[i].assetID !in ids)
  }

  ghost function LostFrom(rs: seq<Relation>, ids: set<string>): set<int> {
    set i | 0 <= i < |rs| && rs[i].fromID != "" && rs[i].fromID !in ids
  }

  ghost function LostTo(rs: seq<Relation>, ids: set<string>): set<int> {
    set i | 0 <= i < |rs| && rs[i].toID != "" && rs[i].toID !in ids
  }

  /** The counts are numbers of positions: of observations whose asset is blank
      or missing... */
  lemma {:induction false} DanglingObservationsAre(os: seq<Observation>, ids: set<string>)
    ensures DanglingObservations(os, ids) == |UnownedAt(os, ids)|
  {
    if os != [] {
      var n := |os| - 1;
      DanglingObservationsAre(os[..n], ids);
      assert UnownedAt(os, ids) == UnownedAt(os[..n], ids) + if os[n].assetID == "" || os[n].assetID !in ids then {n} else {};
    }
  }

  lemma LostSnoc(front: seq<Relation>, last: Relation, ids: set<string>)
    ensures LostFrom(front + [last], ids) == LostFrom(front, ids) + if last.fromID != "" && last.fromID !in ids then {|front|} else {}
    ensures LostTo(front + [last], ids) == LostTo(front, ids) + if last.toID != "" && last.toID !in ids then {|front|} else {}
  {
    var rs := front + [last];
    assert rs[|front|] == last && forall i :: 0 <= i < |front| ==> rs[i] == front[i];
  }

  /** ...and of relation ends that are named and missing, each end by itself. */
  lemma {:induction false} DanglingRelationsAre(rs: seq<Relation>, ids: set<string>)
    ensures DanglingRelations(rs, ids) == |LostFrom(rs, ids)| + |LostTo(rs, ids)|
  {
    if rs != [] {
      var front, last := rs[..|rs| - 1], rs[|rs| - 1];
      DanglingRelationsAre(front, ids);
      LostSnoc(front, last, ids);
      assert front + [last] == rs;
      assert |front| !in LostFrom(front, ids) && |front| !in LostTo(front, ids);
    }
  }

  method ValidateCanonicalGraph(assets: seq<Asset>, observations: seq<Observation>, relations: seq<Relation>)
    returns (duplicateAssets: nat, danglingObservations: nat, danglingRelations: nat)
    ensures duplicateAssets == 0 <==> NoDuplicates(assets)
    ensures duplicateAssets == |ClashingAt(CheckedNames(assets))|
    ensures danglingObservations == |UnownedAt(observations, NonBlankIDs(assets))|
    ensures danglingRelations == |LostFrom(relations, NonBlankIDs(assets))| + |LostTo(relations, NonBlankIDs(assets))|
  {
    DanglingObservationsAre(observations, NonBlankIDs(assets));
    DanglingRelationsAre(relations, NonBlankIDs(assets));
    var assetIDs;
    duplicateAssets, assetIDs := ScanAssets(assets);
    ClashCountIff(CheckedNames(assets));
    ClashCountIs(CheckedNames(assets));
    DuplicatesAreConflicts(assets);
    danglingObservations := ScanObservations(observations, assetIDs);
    danglingRelations := ScanRelations(relations, assetIDs);
  }

  method ScanObservations(observations: seq<Observation>, assetIDs: set<string>) returns (dangling: nat)
    ensures dangling == DanglingObservations(observations, assetIDs)
  {
    dangling := 0;
    for i := 0 to |observations|
      invariant dangling == DanglingObservations(observations[..i], assetIDs)
    {
      assert observations[..i + 1][..i] == observations[..i];
      if observations[i].assetID == "" {
        dangling := dangling + 1;
        continue;
      }
      if observations[i].assetID !in assetIDs {
        dangling := dangling + 1;
      }
    }
    assert observations[..|observations|] == observations;
  }

  method ScanRelations(relations: seq<Relation>, assetIDs: set<string>) returns (dangling: nat)
    ensures dangling == DanglingRelations(relations, assetIDs)
  {
    dangling := 0;
    for i := 0 to |relations|
      invariant dangling == DanglingRelations(relations[..i], assetIDs)
    {
      assert relations[..i + 1][..i] == relations[..i];
      if relations[i].fromID != "" {
        if relations[i].fromID !in assetIDs {
          dangling := dangling + 1;
        }
      }
      if relations[i].toID != "" {
        if relations[i].toID !in assetIDs {
          dangling := dangling + 1;
        }
      }
    }
    assert relations[..|relations|] == relations;
  }

  /** What the check compares of each asset. */
  ghost function CheckedNames(assets: seq<Asset>): (names: seq<Name>)
    ensures |names| == |assets|
    ensures forall i :: 0 <= i < |assets| ==> names[i] == Name(ValidationKey(assets[i]), assets[i].id)
  {
    seq(|assets|, i requires 0 <= i < |assets| => Name(ValidationKey(assets[i]), assets[i].id))
  }

  ghost predicate Conflict(m: Name, n: Name) {
    m.key != "" && m.key == n.key && m.id != n.id
  }

  ghost predicate ConflictFree(names: seq<Name>) {
    forall i, j :: 0 <= i < j < |names| ==> !Conflict(names[i], names[j])
  }

  /** The id each key was first seen under. */
  ghost function FirstIDs(names: seq<Name>): map<string, string> {
    if names == [] then map[]
    else
      var before, last := FirstIDs(names[..|names| - 1]), names[|names| - 1];
      if last.key == "" || last.key in before then before else before[last.key := last.id]
  }

  ghost predicate Clashes(before: seq<Name>, n: Name) {
    n.key in FirstIDs(before) && FirstIDs(before)[n.key] != n.id
  }

  ghost function ClashCount(names: seq<Name>): nat {
    if names == [] then 0
    else ClashCount(names[..|names| - 1]) + if Clashes(names[..|names| - 1], names[|names| - 1]) then 1 else 0
  }

  method ScanAssets(assets: seq<Asset>) returns (duplicateAssets: nat, assetIDs: set<string>)
    ensures duplicateAssets == ClashCount(CheckedNames(assets))
    ensures assetIDs == NonBlankIDs(assets)
  {
    duplicateAssets, assetIDs := 0, {};
    var assetKeys: map<string, string> := map[];
    ghost var names := CheckedNames(assets);
    for i := 0 to |assets|
      invariant assetIDs == NonBlankIDs(assets[..i])
      invariant assetKeys == FirstIDs(names[..i]) && duplicateAssets == ClashCount(names[..i])
    {
      var asset := assets[i];
      ScannedNext(assets, i);
      if asset.id != "" {
        assetIDs := assetIDs + {asset.id};
      }
      var key := CheckerKey(asset);
      var clashes;
      assetKeys, clashes := SeeKey(assetKeys, key, asset.id, names[..i]);
      if clashes {
        duplicateAssets := duplicateAssets + 1;
      }
    }
    assert assets[..|assets|] == assets && names[..|assets|] == names;
  }

  lemma ScannedNext(assets: seq<Asset>, i: int)
    requires 0 <= i < |assets|
    ensures NonBlankIDs(assets[..i + 1]) == NonBlankIDs(assets[..i]) + if assets[i].id != "" then {assets[i].id} else {}
    ensures CheckedNames(assets)[..i + 1]
            == CheckedNames(assets)[..i] + [Name(ValidationKey(assets[i]), assets[i].id)]
  {
    assert assets[..i + 1][..i] == assets[..i];
  }

  /** One key and id of the list: whether it clashes, and the keys after it. */
  method SeeKey(assetKeys: map<string, string>, key: string, id: string, ghost before: seq<Name>)
    returns (keys: map<string, string>, clashes: bool)
    requires assetKeys == FirstIDs(before)
    ensures keys == FirstIDs(before + [Name(key, id)])
    ensures ClashCount(before + [Name(key, id)]) == ClashCount(before) + if clashes then 1 else 0
  {
    assert (before + [Name(key, id)])[..|before|] == before;
    FirstIDsAre(before);
    keys := assetKeys;
    if key == "" {
      return keys, false;
    }
    if key in assetKeys && assetKeys[key] != id {
      return keys, true;
    }
    assert key in assetKeys ==> assetKeys[key := id] == assetKeys;
    return assetKeys[key := id], false;
  }

  method CheckerKey(asset: Asset) returns (key: string)
    ensures key == ValidationKey(asset)
  {
    var normalized := Norm(asset.identifier);
    if asset.typ == "" || normalized == "" {
      return "";
    }
    return asset.typ + "|" + normalized;
  }

  lemma {:induction false} FirstIDsAre(names: seq<Name>)
    ensures "" !in FirstIDs(names)
    ensures forall k :: k in FirstIDs(names) ==> Name(k, FirstIDs(names)[k]) in names
    ensures forall n :: n in names && n.key != "" ==> n.key in FirstIDs(names)
  {
    if names != [] {
      FirstIDsAre(names[..|names| - 1]);
      assert names == names[..|names| - 1] + [names[|names| - 1]];
    }
  }

  lemma ConflictFreeMembers(names: seq<Name>)
    ensures ConflictFree(names) <==> forall m, n :: m in names && n in names ==> !Conflict(m, n)
  {
    if ConflictFree(names) {
      forall m, n | m in names && n in names ensures !Conflict(m, n) {
        var i :| 0 <= i < |names| && names[i] == m;
        var j :| 0 <= j < |names| && names[j] == n;
        assert i != j ==> !Conflict(names[if i < j then i else j], names[if i < j then j else i]);
      }
    }
  }

  /** Among names without conflict, a new one conflicts with some exactly when
      it clashes with the id its key was first seen under. */
  lemma ClashesIff(before: seq<Name>, n: Name)
    requires ConflictFree(before)
    ensures Clashes(before, n) <==> exists m :: m in before && Conflict(m, n)
  {
    FirstIDsAre(before);
    ConflictFreeMembers(before);
    if n.key in FirstIDs(before) {
      var first := Name(n.key, FirstIDs(before)[n.key]);
      assert first in before;
      assert Clashes(before, n) ==> Conflict(first, n);
      if m :| m in before && Conflict(m, n) {
        assert !Conflict(m, first);
      }
    }
  }

  ghost predicate FirstWith(names: seq<Name>, i: int, key: string) {
    0 <= i < |names| && names[i].key == key && forall j :: 0 <= j < i ==> names[j].key != key
  }

  /** The entries whose key was first seen under another id. */
  ghost function ClashingAt(names: seq<Name>): set<int> {
    set j | 0 <= j < |names| && names[j].key != "" && exists i :: FirstWith(names, i, names[j].key) && names[i].id != names[j].id
  }

  lemma {:induction false} FirstIDsFirst(names: seq<Name>, i: int, key: string)
    requires FirstWith(names, i, key) && key != ""
    ensures key in FirstIDs(names) && FirstIDs(names)[key] == names[i].id
  {
    var front := names[..|names| - 1];
    if i < |front| {
      assert FirstWith(front, i, key);
      FirstIDsFirst(front, i, key);
    } else {
      FirstIDsAre(front);
    }
  }

  lemma SomeFirst(names: seq<Name>, j: int) returns (i: int)
    requires 0 <= j < |names|
    ensures i <= j && FirstWith(names, i, names[j].key)
  {
    i := 0;
    while names[i].key != names[j].key
      invariant 0 <= i <= j
      invariant forall k :: 0 <= k < i ==> names[k].key != names[j].key
      decreases j - i
    {
      i := i + 1;
    }
  }

  lemma ClashesAt(front: seq<Name>, last: Name)
    ensures Clashes(front, last) <==> |front| in ClashingAt(front + [last])
  {
    var names := front + [last];
    FirstIDsAre(front);
    if last.key != "" {
      var i := SomeFirst(names, |front|);
      if i < |front| {
        assert forall j :: 0 <= j <= i ==> front[j] == names[j];
        assert FirstWith(front, i, last.key);
        FirstIDsFirst(front, i, last.key);
      } else {
        forall n | n in front ensures n.key != last.key {
          var k :| 0 <= k < |front| && front[k] == n;
          assert names[k] == front[k];
        }
      }
    }
  }

  lemma ClashingSnoc(front: seq<Name>, last: Name)
    ensures ClashingAt(front + [last]) == ClashingAt(front) + if Clashes(front, last) then {|front|} else {}
  {
    var names := front + [last];
    ClashesAt(front, last);
    forall j | 0 <= j < |front| ensures j in ClashingAt(names) <==> j in ClashingAt(front) {
      var i := SomeFirst(front, j);
      assert FirstWith(names, i, names[j].key) && FirstWith(front, i, front[j].key);
    }
  }

  /** The duplicates counted are exactly those entries. */
  lemma {:induction false} ClashCountIs(names: seq<Name>)
    ensures ClashCount(names) == |ClashingAt(names)|
  {
    if names != [] {
      var front, last := names[..|names| - 1], names[|names| - 1];
      ClashCountIs(front);
      ClashingSnoc(front, last);
      assert front + [last] == names;
    }
  }

  /** The filter counts none exactly when there is no conflicting pair. */
  lemma {:induction false} ClashCountIff(names: seq<Name>)
    ensures ClashCount(names) == 0 <==> ConflictFree(names)
  {
    if names != [] {
      var front, last := names[..|names| - 1], names[|names| - 1];
      ClashCountIff(front);
      NoClashSnoc(front, last);
      assert front + [last] == names;
    }
  }

  lemma NoClashSnoc(front: seq<Name>, last: Name)
    ensures ConflictFree(front + [last]) <==> ConflictFree(front) && !Clashes(front, last)
  {
    ConflictFreeMembers(front);
    ConflictFreeMembers(front + [last]);
    assert forall n :: n in front + [last] <==> n in front || n == last;
    if ConflictFree(front) {
      ClashesIff(front, last);
    }
  }

  /** And such pairs are the duplicate assets. */
  lemma DuplicatesAreConflicts(assets: seq<Asset>)
    ensures NoDuplicates(assets) <==> ConflictFree(CheckedNames(assets))
  {
    var names := CheckedNames(assets);
    assert forall i, j :: 0 <= i < j < |assets| ==> (Duplicates(assets[i], assets[j]) <==> Conflict(names[i], names[j]));
  }

  // ----- relations stay anchored -----

  ghost predicate HasID(names: seq<Name>, id: string) {
    exists n :: n in names && n.id == id
  }

  ghost predicate Anchored(names: seq<Name>, id: string) {
    id == "" || HasID(names, id)
  }

  ghost predicate RelationsAnchored(g: Graph) {
    forall i :: 0 <= i < |g.relations| ==> BothAnchored(Names(g.assets), g.relations[i])
  }

  /** What a caller can check before appending: the endpoint's id is blank or
      canonical, or its identifier is already in the graph. */
  ghost predicate Resolvable(g: Graph, id: string, typ: string, identifier: string) {
    || Trim(id) == "" || HasID(Names(g.assets), Trim(id))
    || (Norm(identifier) != "" && AssetKey(typ, identifier) in AssetKeys(g.assets))
  }

  lemma ResolvedName(g: Graph, typ: string, identifier: string)
    requires Indexed(g)
    ensures ResolveID(g, typ, identifier) != "" <==> AssetKey(typ, identifier) in AssetKeys(g.assets)
    ensures ResolveID(g, typ, identifier) != "" ==> HasID(Names(g.assets), ResolveID(g, typ, identifier))
  {
    IndexesMember(AssetKeys(g.assets), g.assetIndex);
    var key := AssetKey(typ, identifier);
    if key in g.assetIndex {
      var i := g.assetIndex[key];
      assert AssetKeys(g.assets)[i] == key && WellNamed(g.assets[i]);
      assert Names(g.assets)[i].id == g.assets[i].id;
    }
  }

  /** A stored endpoint is anchored exactly when it was resolvable. */
  lemma EndpointAnchoredIff(g: Graph, id: string, typ: string, identifier: string)
    requires Indexed(g)
    ensures Anchored(Names(g.assets), Endpoint(g, Trim(id), typ, Norm(identifier))) <==> Resolvable(g, id, typ, identifier)
  {
    NormFixes(identifier);
    assert AssetKey(typ, Norm(identifier)) == AssetKey(typ, identifier);
    ResolvedName(g, typ, Norm(identifier));
  }

  ghost predicate ResolvableRelation(g: Graph, r: Relation) {
    Resolvable(g, r.fromID, r.fromType, r.fromIdentifier) && Resolvable(g, r.toID, r.toType, r.toIdentifier)
  }

  lemma RelationAdded(g: Graph, raw: Relation) returns (r: Relation)
    ensures r.fromID == Endpoint(g, Trim(raw.fromID), raw.fromType, Norm(raw.fromIdentifier))
    ensures r.toID == Endpoint(g, Trim(raw.toID), raw.toType, Norm(raw.toIdentifier))
    ensures var h := AddRelation(g, raw);
            SameGraph(g, h) && (h.relations == g.relations || h.relations == g.relations + [r])
  {
    r := Resolved(g, raw).1;
  }

  ghost predicate BothAnchored(names: seq<Name>, r: Relation) {
    Anchored(names, r.fromID) && Anchored(names, r.toID)
  }

  lemma AddRelationAnchored(g: Graph, raw: Relation)
    requires Indexed(g) && RelationsAnchored(g) && ResolvableRelation(g, raw)
    ensures RelationsAnchored(AddRelation(g, raw)) && SameGraph(g, AddRelation(g, raw))
  {
    EndpointAnchoredIff(g, raw.fromID, raw.fromType, raw.fromIdentifier);
    EndpointAnchoredIff(g, raw.toID, raw.toType, raw.toIdentifier);
    var r := RelationAdded(g, raw);
    AnchoredAppend(g, AddRelation(g, raw), r);
  }

  lemma AnchoredAppend(g: Graph, h: Graph, r: Relation)
    requires RelationsAnchored(g) && BothAnchored(Names(g.assets), r) && h.assets == g.assets
    requires h.relations == g.relations || h.relations == g.relations + [r]
    ensures RelationsAnchored(h)
  {
  }

  /** Each relation an operation appends is resolvable in the graph it meets. */
  ghost predicate ResolvableOp(g: Graph, op: Op) {
    op.AppendRelations? ==> forall i :: 0 <= i < |op.relations| ==> ResolvableRelation(Ensured(g), op.relations[i])
  }

  lemma ResolvableSame(g: Graph, h: Graph, r: Relation)
    requires SameGraph(g, h) && ResolvableRelation(g, r)
    ensures ResolvableRelation(h, r)
  {
  }

  ghost predicate Relating(g: Graph, h: Graph) {
    SameGraph(g, h) && RelationsAnchored(h)
  }

  lemma RelateAllAnchored(g: Graph, rs: seq<Relation>)
    requires Indexed(g) && RelationsAnchored(g)
    requires forall i :: 0 <= i < |rs| ==> ResolvableRelation(g, rs[i])
    ensures RelationsAnchored(Fold(AddRelation, g, rs))
  {
    forall i: nat, h | i < |rs| && Relating(g, h) ensures Relating(g, AddRelation(h, rs[i])) {
      ResolvableSame(g, h, rs[i]);
      AddRelationAnchored(h, rs[i]);
    }
    FoldInvariant(AddRelation, g, rs, (i, h) => Relating(g, h));
  }

  lemma AnchoredMore(g: Graph, h: Graph)
    requires RelationsAnchored(g) && h.relations == g.relations && GraphIndex.Within(Names(g.assets), Names(h.assets))
    ensures RelationsAnchored(h)
  {
  }

  ghost predicate Checkable(g: Graph) {
    Sound(g) && (g.initialized ==> RelationsAnchored(g))
  }

  lemma ApplyCheckable(g: Graph, op: Op)
    requires Checkable(g) && BarFreeOp(op) && ResolvableOp(g, op)
    ensures Checkable(Apply(g, op))
  {
    ApplySound(g, op);
    EnsuredCanonical(g);
    var e := Ensured(g);
    if g.initialized {
      AnchoredMore(g, e);
    }
    match op
    case AppendAssets(assets) =>
      IngestAllGrows(e, assets);
      AnchoredMore(e, IngestAll(e, assets));
    case AppendObservations(os) =>
      ObserveAllGrows(e, os);
      AnchoredMore(e, Fold(IngestObservation, e, os));
    case AppendRelations(rs) =>
      RelateAllAnchored(e, rs);
    case EnsureState =>
  }

  // ----- it finds nothing -----

  lemma {:induction false} NoneDangling(os: seq<Observation>, ids: set<string>)
    requires forall i :: 0 <= i < |os| ==> os[i].assetID != "" && os[i].assetID in ids
    ensures DanglingObservations(os, ids) == 0
  {
    if os != [] {
      NoneDangling(os[..|os| - 1], ids);
    }
  }

  lemma {:induction false} NoRelationDangling(rs: seq<Relation>, ids: set<string>)
    requires forall i :: 0 <= i < |rs| ==> (rs[i].fromID == "" || rs[i].fromID in ids) && (rs[i].toID == "" || rs[i].toID in ids)
    ensures DanglingRelations(rs, ids) == 0
  {
    if rs != [] {
      NoRelationDangling(rs[..|rs| - 1], ids);
    }
  }

  lemma NamedIDs(assets: seq<Asset>)
    requires AllWellNamed(assets)
    ensures forall id :: HasID(Names(assets), id) <==> id in NonBlankIDs(assets)
    ensures "" !in NonBlankIDs(assets)
  {
    NonBlankMember(assets, "");
    forall id ensures HasID(Names(assets), id) <==> id in NonBlankIDs(assets) {
      NonBlankMember(assets, id);
      if n :| n in Names(assets) && n.id == id {
        var i :| 0 <= i < |assets| && Names(assets)[i] == n;
        assert WellNamed(assets[i]);
      }
      if id in NonBlankIDs(assets) {
        var i :| 0 <= i < |assets| && assets[i].id == id;
        assert Names(assets)[i] in Names(assets);
      }
    }
  }

  /** In a canonical graph there are no duplicates and no dangling
      observations, and no dangling relations if they are anchored. */
  lemma CanonicalPasses(g: Graph)
    requires Canonical(g)
    ensures NoDuplicates(g.assets)
    ensures DanglingObservations(g.observations, NonBlankIDs(g.assets)) == 0
    ensures RelationsAnchored(g) ==> DanglingRelations(g.relations, NonBlankIDs(g.assets)) == 0
  {
    NamedIDs(g.assets);
    IndexesMember(AssetKeys(g.assets), g.assetIndex);
    forall i, j | 0 <= i < j < |g.assets| ensures !Duplicates(g.assets[i], g.assets[j]) {
      assert AssetKeys(g.assets)[i] != AssetKeys(g.assets)[j];
    }
    forall i | 0 <= i < |g.observations|
      ensures g.observations[i].assetID != "" && g.observations[i].assetID in NonBlankIDs(g.assets)
    {
      assert ObservedName(g.observations[i]) in Names(g.assets);
      assert HasID(Names(g.assets), g.observations[i].assetID);
    }
    NoneDangling(g.observations, NonBlankIDs(g.assets));
    if RelationsAnchored(g) {
      NoRelationDangling(g.relations, NonBlankIDs(g.assets));
    }
  }

  ghost predicate ResolvableOps(raw: seq<Asset>, ops: seq<Op>) {
    forall i :: 0 <= i < |ops| ==> ResolvableOp(RunOps(Raw(raw), ops[..i]), ops[i])
  }

  /** For every graph built through the append operations the filter counts
      no duplicate asset and no dangling observation, and no dangling relation
      when every appended relation was resolvable. */
  lemma CheckerFindsNothing(raw: seq<Asset>, ops: seq<Op>)
    requires BarFreeAssets(raw) && BarFreeOps(ops) && RunOps(Raw(raw), ops).initialized
    ensures var g := RunOps(Raw(raw), ops);
            && NoDuplicates(g.assets)
            && DanglingObservations(g.observations, NonBlankIDs(g.assets)) == 0
            && (ResolvableOps(raw, ops) ==> DanglingRelations(g.relations, NonBlankIDs(g.assets)) == 0)
  {
    EveryGraphSound(raw, ops);
    if ResolvableOps(raw, ops) {
      EveryGraphCheckable(raw, ops);
    }
    CanonicalPasses(RunOps(Raw(raw), ops));
  }

  ghost predicate CheckableAt(raw: seq<Asset>, ops: seq<Op>, i: nat, g: Graph) {
    i <= |ops| && g == RunOps(Raw(raw), ops[..i]) && Checkable(g)
  }

  lemma CheckableStep(raw: seq<Asset>, ops: seq<Op>, i: nat, g: Graph)
    requires CheckableAt(raw, ops, i, g) && i < |ops| && BarFreeOps(ops) && ResolvableOps(raw, ops)
    ensures CheckableAt(raw, ops, i + 1, Apply(g, ops[i]))
  {
    FoldPrefix(Apply, Raw(raw), ops, i);
    ApplyCheckable(g, ops[i]);
  }

  lemma EveryGraphCheckable(raw: seq<Asset>, ops: seq<Op>)
    requires BarFreeAssets(raw) && BarFreeOps(ops) && ResolvableOps(raw, ops)
    ensures Checkable(RunOps(Raw(raw), ops))
  {
    forall i: nat, g | i < |ops| && CheckableAt(raw, ops, i, g) ensures CheckableAt(raw, ops, i + 1, Apply(g, ops[i])) {
      CheckableStep(raw, ops, i, g);
    }
    assert ops[..0] == [];
    FoldInvariant(Apply, Raw(raw), ops, (i, g) => CheckableAt(raw, ops, i, g));
  }
}
