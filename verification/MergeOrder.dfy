/** The order of sightings does not matter: each merged field is a function of
    which sightings there were. */
module MergeOrder {
  import opened Options
  import opened Orders
  import opened Text
  import opened AssetMerge

  // ----- the two sort orders -----

  lemma PairLessIsStrict()
    ensures StrictOrder(PairLess)
  {
    LessIsStrict();
    forall a, b ensures a == b || PairLess(a, b) || PairLess(b, a) {
      LessTotal(a.0, b.0);
      LessTotal(a.1, b.1);
    }
    forall a ensures !PairLess(a, a) {
      LessIrreflexive(a.1);
    }
    forall a, b, c | PairLess(a, b) && PairLess(b, c) ensures PairLess(a, c) {
      LessIrreflexive(a.0);
      if a.0 != b.0 && b.0 != c.0 {
        LessTransitive(a.0, b.0, c.0);
      }
      if a.0 == b.0 == c.0 {
        LessTransitive(a.1, b.1, c.1);
      }
    }
  }

  lemma ProvenanceLessIsStrict()
    ensures StrictOrder(ProvenanceLess)
  {
    LessIsStrict();
    forall a, b ensures a == b || ProvenanceLess(a, b) || ProvenanceLess(b, a) {
      LessTotal(a.1, b.1);
    }
    forall a ensures !ProvenanceLess(a, a) {
      LessIrreflexive(a.1);
    }
    forall a, b, c | ProvenanceLess(a, b) && ProvenanceLess(b, c) ensures ProvenanceLess(a, c) {
      if a.0 == b.0 == c.0 {
        LessTransitive(a.1, b.1, c.1);
      }
    }
  }

  // ----- keys and their texts -----

  lemma {:induction false} DigitsBarFree(n: nat)
    ensures BarFree(Digits(n)) && |Digits(n)| > 0
  {
    if n >= 10 {
      DigitsBarFree(n / 10);
    }
  }

  lemma {:induction false} DigitsInjective(m: nat, n: nat)
    requires Digits(m) == Digits(n)
    ensures m == n
    decreases m
  {
    DigitsBarFree(m / 10);
    DigitsBarFree(n / 10);
    var s := Digits(m);
    if m >= 10 && n >= 10 {
      assert Digits(m / 10) == s[..|s| - 1] == Digits(n / 10);
      DigitsInjective(m / 10, n / 10);
      assert s[|s| - 1] == (m % 10 + 48) as char == (n % 10 + 48) as char;
    } else {
      assert s[0] == s[|s| - 1] || |s| > 1;
    }
  }

  lemma ProvenanceTextFixesDate(p: Provenance, q: Provenance)
    requires ProvenanceText(p) == ProvenanceText(q)
    ensures p.date == q.date
  {
    DigitsBarFree(p.date);
    DigitsBarFree(q.date);
    SplitLastBar(p.assetID + "|" + p.enumerationID + "|" + p.source, Digits(p.date),
                 q.assetID + "|" + q.enumerationID + "|" + q.source, Digits(q.date));
    DigitsInjective(p.date, q.date);
  }

  // ----- records -----

  lemma UpperIsFixed(s: string)
    ensures Upper(Trim(Upper(Trim(s)))) == Upper(Trim(s))
    ensures BarFree(s) ==> BarFree(Upper(Trim(s)))
  {
    TrimIsTrimmed(s);
    var u := Upper(Trim(s));
    assert Trimmed(u);
    TrimmedIsFixed(u);
    if BarFree(s) {
      TrimLeftDrops(s);
      TrimRightDrops(TrimLeft(s));
      forall i | 0 <= i < |u| ensures u[i] != '|' {
        assert Trim(s)[i] in s;
      }
    }
  }

  lemma NormalizedRecordKey(r: Record)
    ensures RecordKey(NormalizeRecord(r)) == RecordKey(r) && RecordText(NormalizeRecord(r)) == RecordText(r)
    ensures BlankRecord(NormalizeRecord(r)) == BlankRecord(r)
    ensures BarFree(r.typ) ==> BarFree(NormalizeRecord(r).typ)
  {
    UpperIsFixed(r.typ);
    NormFixes(r.value);
    TrimIsTrimmed(r.value);
    TrimmedIsFixed(Trim(r.value));
  }

  lemma RecordTextIsKey(r: Record, q: Record)
    requires BarFree(r.typ) && BarFree(q.typ)
    ensures RecordText(r) == RecordText(q) <==> RecordKey(r) == RecordKey(q)
  {
    UpperIsFixed(r.typ);
    UpperIsFixed(q.typ);
    if RecordText(r) == RecordText(q) {
      SplitFirstBar(RecordType(r), Norm(r.value), RecordType(q), Norm(q.value));
    }
  }

  ghost predicate BarFreeRecords(records: seq<Record>) {
    forall i :: 0 <= i < |records| ==> BarFree(records[i].typ)
  }

  ghost predicate NamesKey(records: seq<Record>, k: (string, string)) {
    exists i :: 0 <= i < |records| && !BlankRecord(records[i]) && RecordKey(records[i]) == k
  }

  ghost predicate NormalRecords(records: seq<Record>) {
    && BarFreeRecords(records)
    && DistinctBy(records, RecordKey)
    && forall i :: 0 <= i < |records| ==> !BlankRecord(records[i])
  }

  lemma NamesKeyAppend(records: seq<Record>, r: Record)
    ensures forall k :: NamesKey(records + [r], k) <==> NamesKey(records, k) || (!BlankRecord(r) && RecordKey(r) == k)
  {
    var all := records + [r];
    forall k ensures NamesKey(all, k) <==> NamesKey(records, k) || (!BlankRecord(r) && RecordKey(r) == k) {
      if i :| 0 <= i < |records| && !BlankRecord(records[i]) && RecordKey(records[i]) == k {
        assert all[i] == records[i];
      }
      assert all[|records|] == r;
    }
  }

  lemma SeenText(records: seq<Record>, r: Record)
    requires BarFreeRecords(records) && BarFree(r.typ) && !BlankRecord(r)
    requires forall i :: 0 <= i < |records| ==> !BlankRecord(records[i])
    ensures RecordText(r) in Texts(records) <==> NamesKey(records, RecordKey(r))
  {
    if RecordText(r) in Texts(records) {
      var i :| 0 <= i < |records| && RecordText(records[i]) == RecordText(r);
      RecordTextIsKey(records[i], r);
    }
    if NamesKey(records, RecordKey(r)) {
      var i :| 0 <= i < |records| && !BlankRecord(records[i]) && RecordKey(records[i]) == RecordKey(r);
      RecordTextIsKey(records[i], r);
    }
  }

  /** One more record: kept when it is not blank and its key is new. */
  lemma DistinctRecordsNext(front: seq<Record>, raw: Record)
    requires BarFreeRecords(front + [raw]) && NormalRecords(DistinctRecords(front))
    ensures var seen := DistinctRecords(front);
            DistinctRecords(front + [raw])
            == if BlankRecord(raw) || NamesKey(seen, RecordKey(raw)) then seen else seen + [NormalizeRecord(raw)]
  {
    var seen, last := DistinctRecords(front), NormalizeRecord(raw);
    assert (front + [raw])[..|front|] == front && (front + [raw])[|front|] == raw;
    BlankNormal(raw);
    NormalizedRecordKey(raw);
    if !BlankRecord(raw) {
      SeenText(seen, last);
    }
  }

  lemma NormalRecordsNext(seen: seq<Record>, raw: Record)
    requires NormalRecords(seen) && BarFree(raw.typ) && !BlankRecord(raw) && !NamesKey(seen, RecordKey(raw))
    ensures NormalRecords(seen + [NormalizeRecord(raw)])
  {
    NormalizedRecordKey(raw);
    BlankNormal(raw);
  }

  lemma {:induction false} DistinctRecordsKeys(records: seq<Record>)
    requires BarFreeRecords(records)
    ensures NormalRecords(DistinctRecords(records))
    ensures forall k :: NamesKey(DistinctRecords(records), k) <==> NamesKey(records, k)
  {
    if records != [] {
      var front, raw := records[..|records| - 1], records[|records| - 1];
      DistinctRecordsKeys(front);
      assert records == front + [raw];
      DistinctRecordsNext(front, raw);
      NamesKeyAppend(front, raw);
      var seen := DistinctRecords(front);
      if !BlankRecord(raw) && !NamesKey(seen, RecordKey(raw)) {
        NormalRecordsNext(seen, raw);
        NormalizedRecordKey(raw);
        NamesKeyAppend(seen, NormalizeRecord(raw));
      }
    }
  }

  lemma BlankNormal(r: Record)
    ensures BlankRecord(r) <==> NormalizeRecord(r).typ == "" || NormalizeRecord(r).value == ""
  {
  }

  lemma NamesKeyIsKey(records: seq<Record>)
    requires NormalRecords(records)
    ensures forall k :: k in KeysBy(records, RecordKey) <==> NamesKey(records, k)
  {
    forall k ensures k in KeysBy(records, RecordKey) <==> NamesKey(records, k) {
      if k in KeysBy(records, RecordKey) {
        var i :| 0 <= i < |records| && KeysBy(records, RecordKey)[i] == k;
        assert !BlankRecord(records[i]);
      }
      if NamesKey(records, k) {
        var i :| 0 <= i < |records| && !BlankRecord(records[i]) && RecordKey(records[i]) == k;
        assert KeysBy(records, RecordKey)[i] == k;
      }
    }
  }

  /** Deduplicated records: their keys strictly ascend, and are the keys of the
      non-blank records given. */
  ghost predicate SortedRecords(records: seq<Record>) {
    && AscendingBy(KeysBy(records, RecordKey), PairLess)
    && NormalRecords(records)
  }

  lemma UniqueRecordsKeys(records: seq<Record>)
    requires BarFreeRecords(records)
    ensures SortedRecords(UniqueRecords(records))
    ensures forall k :: NamesKey(UniqueRecords(records), k) <==> NamesKey(records, k)
  {
    var d := DistinctRecords(records);
    var u := UniqueRecords(records);
    DistinctRecordsKeys(records);
    PairLessIsStrict();
    SortKeys(d, RecordKey, PairLess);
    forall i | 0 <= i < |u| ensures BarFree(u[i].typ) && !BlankRecord(u[i]) {
      assert u[i] in u && u[i] in d;
    }
    forall i, j | 0 <= i < j < |u| ensures RecordKey(u[i]) != RecordKey(u[j]) {
      assert PairLess(KeysBy(u, RecordKey)[i], KeysBy(u, RecordKey)[j]);
    }
    NamesKeyIsKey(u);
    NamesKeyIsKey(d);
  }

  lemma {:induction false} AppendNewKeys(existing: seq<Record>, incoming: seq<Record>)
    requires BarFreeRecords(existing) && BarFreeRecords(incoming)
    ensures BarFreeRecords(AppendNew(existing, incoming))
    ensures forall k :: NamesKey(AppendNew(existing, incoming), k) <==> NamesKey(existing, k) || NamesKey(incoming, k)
  {
    if incoming != [] {
      var front, last := incoming[..|incoming| - 1], incoming[|incoming| - 1];
      AppendNewKeys(existing, front);
      NamesKeyAppend(front, last);
      assert incoming == front + [last];
      var merged := AppendNew(existing, front);
      NamesKeyAppend(merged, last);
      if RecordText(last) in Texts(merged) && !BlankRecord(last) {
        var i :| 0 <= i < |merged| && RecordText(merged[i]) == RecordText(last);
        RecordTextIsKey(merged[i], last);
        BlankByKey(merged[i], last);
      }
    }
  }

  lemma BlankByKey(r: Record, q: Record)
    requires RecordKey(r) == RecordKey(q)
    ensures BlankRecord(r) == BlankRecord(q)
  {
    assert Norm(r.value) == "" <==> Trim(r.value) == "";
    assert Norm(q.value) == "" <==> Trim(q.value) == "";
  }

  lemma MergeRecordsKeys(existing: seq<Record>, incoming: seq<Record>)
    requires BarFreeRecords(existing) && BarFreeRecords(incoming)
    ensures SortedRecords(MergeRecords(existing, incoming))
    ensures forall k :: NamesKey(MergeRecords(existing, incoming), k) <==> NamesKey(existing, k) || NamesKey(incoming, k)
  {
    AppendNewKeys(existing, incoming);
    UniqueRecordsKeys(AppendNew(existing, incoming));
  }

  // ----- provenance -----

  ghost predicate SortedProvenance(items: seq<Provenance>) {
    AscendingBy(KeysBy(items, ProvenanceKey), ProvenanceLess)
  }

  lemma SortedIsDistinct(items: seq<Provenance>)
    requires SortedProvenance(items)
    ensures DistinctBy(items, ProvenanceKey)
  {
    ProvenanceLessIsStrict();
    var keys := KeysBy(items, ProvenanceKey);
    forall i, j | 0 <= i < j < |items| ensures ProvenanceKey(items[i]) != ProvenanceKey(items[j]) {
      assert ProvenanceLess(keys[i], keys[j]);
    }
  }

  lemma AppendProvenanceKeys(existing: seq<Provenance>, p: Provenance)
    requires DistinctBy(existing, ProvenanceKey) && !BlankProvenance(p)
    ensures var merged := AppendProvenance(existing, [p]);
            && DistinctBy(merged, ProvenanceKey)
            && forall k :: k in KeysBy(merged, ProvenanceKey) <==> k in KeysBy(existing, ProvenanceKey) || k == ProvenanceKey(p)
  {
    var one := [p];
    assert one[..|one| - 1] == [] && one[|one| - 1] == p;
    assert AppendProvenance(existing, []) == existing;
    var merged := AppendProvenance(existing, one);
    var keys := KeysBy(existing, ProvenanceKey);
    if ProvenanceText(p) in ProvenanceTexts(existing) {
      var i :| 0 <= i < |existing| && ProvenanceText(existing[i]) == ProvenanceText(p);
      ProvenanceTextFixesDate(existing[i], p);
      assert keys[i] == ProvenanceKey(p);
      assert merged == existing;
    } else {
      assert merged == existing + [p];
      assert KeysBy(merged, ProvenanceKey) == keys + [ProvenanceKey(p)];
    }
  }

  lemma MergeProvenanceKeys(existing: seq<Provenance>, p: Provenance)
    requires SortedProvenance(existing) && !BlankProvenance(p)
    ensures SortedProvenance(MergeProvenance(existing, [p]))
    ensures forall k :: k in KeysBy(MergeProvenance(existing, [p]), ProvenanceKey)
                        <==> k in KeysBy(existing, ProvenanceKey) || k == ProvenanceKey(p)
  {
    ProvenanceLessIsStrict();
    SortedIsDistinct(existing);
    AppendProvenanceKeys(existing, p);
    SortKeys(AppendProvenance(existing, [p]), ProvenanceKey, ProvenanceLess);
  }

  lemma OneProvenance(p: Provenance)
    requires !BlankProvenance(p)
    ensures MergeProvenance([], [p]) == [p]
  {
    assert [p][..0] == [];
    assert AppendProvenance([], []) == [];
    assert AppendProvenance([], [p]) == [p];
    assert SortBy([p][..0], ProvenanceKey, ProvenanceLess) == [];
  }

  // ----- what a list of sightings leaves behind -----

  ghost predicate Earliest(d: nat, xs: seq<Asset>) {
    && (d == 0 <==> forall a :: a in xs ==> a.date == 0)
    && (d != 0 ==> (exists a :: a in xs && a.date == d) && forall a :: a in xs && a.date != 0 ==> d <= a.date)
  }

  predicate CatchesAll(a: Asset) {
    a.domain.Some? && a.domain.value.catchAll
  }

  function RecordsOf(a: Asset): seq<Record> {
    if a.domain.Some? then a.domain.value.records else []
  }

  /** Sightings the theorems cover: identified, and typed without a bar. */
  ghost predicate Sighted(a: Asset) {
    Trim(a.id) != "" && BarFreeRecords(RecordsOf(a))
  }

  ghost predicate AllSighted(xs: seq<Asset>, typ: string) {
    xs != [] && forall a :: a in xs ==> Sighted(a) && a.typ == typ
  }

  lemma LastOf(xs: seq<Asset>)
    requires |xs| > 1
    ensures var front, last := xs[..|xs| - 1], xs[|xs| - 1];
            front != [] && last in xs && forall a :: a in xs <==> a in front || a == last
  {
    assert xs == xs[..|xs| - 1] + [xs[|xs| - 1]];
  }

  lemma {:induction false} SightingsDate(xs: seq<Asset>)
    requires xs != []
    ensures Earliest(Sightings(xs).date, xs)
  {
    if |xs| == 1 {
      assert xs == [xs[0]];
    } else {
      LastOf(xs);
      SightingsDate(xs[..|xs| - 1]);
    }
  }

  lemma {:induction false} SightingsCatchAll(xs: seq<Asset>)
    requires xs != []
    ensures CatchesAll(Sightings(xs)) <==> exists a :: a in xs && CatchesAll(a)
  {
    if |xs| == 1 {
      assert xs == [xs[0]];
      assert CatchesAll(Sightings(xs)) == CatchesAll(xs[0]) && xs[0] in xs;
    } else {
      LastOf(xs);
      SightingsCatchAll(xs[..|xs| - 1]);
    }
  }

  ghost predicate SomeNames(xs: seq<Asset>, k: (string, string)) {
    exists a :: a in xs && NamesKey(RecordsOf(a), k)
  }

  lemma NormalizedRecords(a: Asset)
    requires BarFreeRecords(RecordsOf(a)) && a.typ == DOMAIN
    ensures SortedRecords(RecordsOf(NormalizeAsset(a)))
    ensures forall k :: NamesKey(RecordsOf(NormalizeAsset(a)), k) <==> NamesKey(RecordsOf(a), k)
  {
    UniqueRecordsKeys(RecordsOf(a));
  }

  lemma {:induction false} SightingsRecords(xs: seq<Asset>)
    requires AllSighted(xs, DOMAIN)
    ensures SortedRecords(RecordsOf(Sightings(xs)))
    ensures forall k :: NamesKey(RecordsOf(Sightings(xs)), k) <==> SomeNames(xs, k)
  {
    var last := xs[|xs| - 1];
    NormalizedRecords(last);
    if |xs| == 1 {
      assert xs == [xs[0]];
    } else {
      var front := xs[..|xs| - 1];
      LastOf(xs);
      SightingsRecords(front);
      MergeRecordsKeys(RecordsOf(Sightings(front)), RecordsOf(NormalizeAsset(last)));
      forall k ensures SomeNames(xs, k) <==> SomeNames(front, k) || NamesKey(RecordsOf(last), k) {}
    }
  }

  function SightingKey(a: Asset): (nat, string) {
    ProvenanceKey(ProvenanceOf(NormalizeAsset(a)))
  }

  ghost predicate SomeSighting(xs: seq<Asset>, k: (nat, string)) {
    exists a :: a in xs && SightingKey(a) == k
  }

  lemma {:induction false} SightingsProvenance(xs: seq<Asset>, typ: string)
    requires AllSighted(xs, typ)
    ensures SortedProvenance(Sightings(xs).provenance)
    ensures forall k :: k in KeysBy(Sightings(xs).provenance, ProvenanceKey) <==> SomeSighting(xs, k)
  {
    var last := xs[|xs| - 1];
    assert last in xs;
    TrimIsTrimmed(last.id);
    TrimmedIsFixed(Trim(last.id));
    var p := ProvenanceOf(NormalizeAsset(last));
    if |xs| == 1 {
      MergeProvenanceKeys([], p);
      assert xs == [xs[0]];
    } else {
      var front := xs[..|xs| - 1];
      LastOf(xs);
      SightingsProvenance(front, typ);
      MergeProvenanceKeys(Sightings(front).provenance, p);
    }
  }

  // ----- ownership -----

  function Rank(o: Ownership): int {
    match o
    case Unstated => 0
    case Associated => 1
    case Uncertain => 2
    case Owned => 3
    case Other(_) => -1
  }

  function Ownerships(xs: seq<Asset>): (os: seq<Ownership>)
    ensures |os| == |xs| && forall i :: 0 <= i < |xs| ==> os[i] == xs[i].ownership
  {
    seq(|xs|, i requires 0 <= i < |xs| => xs[i].ownership)
  }

  /** The ownership left by sightings with these ownerships. */
  function Owning(default: Ownership, os: seq<Ownership>): Ownership
    requires os != []
  {
    if |os| == 1 then if os[0] == Unstated then default else os[0]
    else
      var m := MergeOwnership(Owning(default, os[..|os| - 1]), os[|os| - 1]);
      if m == Unstated then default else m
  }

  lemma {:induction false} SightingsOwnership(xs: seq<Asset>, typ: string)
    requires AllSighted(xs, typ) && typ != ""
    ensures Sightings(xs).ownership == Owning(DefaultOwnership(typ), Ownerships(xs))
    ensures Sightings(xs).typ == typ
  {
    assert xs[0] in xs;
    if |xs| > 1 {
      LastOf(xs);
      SightingsOwnership(xs[..|xs| - 1], typ);
      assert Ownerships(xs)[..|xs| - 1] == Ownerships(xs[..|xs| - 1]);
    }
  }

  ghost predicate Stateable(os: seq<Ownership>) {
    os != [] && forall i :: 0 <= i < |os| ==> !os[i].Other?
  }

  /** At least floor, at least every rank in the list, and one of these. */
  ghost predicate HighestRank(n: int, floor: int, os: seq<Ownership>) {
    && n >= floor && (forall o :: o in os ==> n >= Rank(o))
    && (n == floor || exists o :: o in os && n == Rank(o))
  }

  /** The rank never falls, and ends at the highest of the first one, a blank
      counting as the default, and all others. */
  lemma {:induction false} OwningRank(default: Ownership, os: seq<Ownership>)
    requires Stateable(os) && (default == Associated || default == Owned)
    ensures Owning(default, os) != Unstated && !Owning(default, os).Other?
    ensures HighestRank(Rank(Owning(default, os)), Rank(if os[0] == Unstated then default else os[0]), os)
    ensures |os| > 1 ==> Rank(Owning(default, os[..|os| - 1])) <= Rank(Owning(default, os))
  {
    if |os| == 1 {
      assert os == [os[0]];
    } else {
      var front, last := os[..|os| - 1], os[|os| - 1];
      assert os == front + [last];
      OwningRank(default, front);
      assert front[0] == os[0];
    }
  }

  lemma RankInjective(a: Ownership, b: Ownership)
    requires !a.Other? && !b.Other? && Rank(a) == Rank(b)
    ensures a == b
  {
  }

  /** For IPs the blank default is the lowest rank, so the first sighting is
      nothing special. */
  lemma IPOwnershipIsMaximum(os: seq<Ownership>)
    requires Stateable(os)
    ensures HighestRank(Rank(Owning(Associated, os)), Rank(Associated), os)
  {
    OwningRank(Associated, os);
    assert os[0] in os;
  }

  // ----- main results -----

  /** Two lists with the same sightings, in any order and number, leave the
      same date, catch-all flag, provenance keys, and record keys; for IPs also
      the same ownership. */
  lemma OrderIsIrrelevant(xs: seq<Asset>, ys: seq<Asset>, typ: string)
    requires AllSighted(xs, typ) && AllSighted(ys, typ) && forall a :: a in xs <==> a in ys
    ensures Sightings(xs).date == Sightings(ys).date
    ensures CatchesAll(Sightings(xs)) == CatchesAll(Sightings(ys))
    ensures KeysBy(Sightings(xs).provenance, ProvenanceKey) == KeysBy(Sightings(ys).provenance, ProvenanceKey)
    ensures typ == DOMAIN ==>
              KeysBy(RecordsOf(Sightings(xs)), RecordKey) == KeysBy(RecordsOf(Sightings(ys)), RecordKey)
    ensures typ == IP && Stateable(Ownerships(xs)) && Stateable(Ownerships(ys)) ==>
              Sightings(xs).ownership == Sightings(ys).ownership
  {
    SightingsDate(xs);
    SightingsDate(ys);
    SightingsCatchAll(xs);
    SightingsCatchAll(ys);
    SameProvenance(xs, ys, typ);
    if typ == DOMAIN {
      SameRecords(xs, ys);
    }
    if typ == IP && Stateable(Ownerships(xs)) && Stateable(Ownerships(ys)) {
      SameIPOwnership(xs, ys);
    }
  }

  lemma SameProvenance(xs: seq<Asset>, ys: seq<Asset>, typ: string)
    requires AllSighted(xs, typ) && AllSighted(ys, typ) && forall a :: a in xs <==> a in ys
    ensures KeysBy(Sightings(xs).provenance, ProvenanceKey) == KeysBy(Sightings(ys).provenance, ProvenanceKey)
  {
    SightingsProvenance(xs, typ);
    SightingsProvenance(ys, typ);
    ProvenanceLessIsStrict();
    assert forall k :: SomeSighting(xs, k) <==> SomeSighting(ys, k);
    AscendingByUnique(KeysBy(Sightings(xs).provenance, ProvenanceKey),
                      KeysBy(Sightings(ys).provenance, ProvenanceKey), ProvenanceLess);
  }

  lemma SameRecords(xs: seq<Asset>, ys: seq<Asset>)
    requires AllSighted(xs, DOMAIN) && AllSighted(ys, DOMAIN) && forall a :: a in xs <==> a in ys
    ensures KeysBy(RecordsOf(Sightings(xs)), RecordKey) == KeysBy(RecordsOf(Sightings(ys)), RecordKey)
  {
    SightingsRecords(xs);
    SightingsRecords(ys);
    NamesKeyIsKey(RecordsOf(Sightings(xs)));
    NamesKeyIsKey(RecordsOf(Sightings(ys)));
    PairLessIsStrict();
    assert forall k :: SomeNames(xs, k) <==> SomeNames(ys, k);
    AscendingByUnique(KeysBy(RecordsOf(Sightings(xs)), RecordKey), KeysBy(RecordsOf(Sightings(ys)), RecordKey), PairLess);
  }

  lemma OwnershipsSame(xs: seq<Asset>, ys: seq<Asset>)
    requires forall a :: a in xs ==> a in ys
    ensures forall o :: o in Ownerships(xs) ==> o in Ownerships(ys)
  {
    forall o | o in Ownerships(xs) ensures o in Ownerships(ys) {
      var i :| 0 <= i < |xs| && Ownerships(xs)[i] == o;
      assert xs[i] in ys;
      var j :| 0 <= j < |ys| && ys[j] == xs[i];
      assert Ownerships(ys)[j] == o;
    }
  }

  lemma SameIPOwnership(xs: seq<Asset>, ys: seq<Asset>)
    requires AllSighted(xs, IP) && AllSighted(ys, IP) && forall a :: a in xs <==> a in ys
    requires Stateable(Ownerships(xs)) && Stateable(Ownerships(ys))
    ensures Sightings(xs).ownership == Sightings(ys).ownership
  {
    SightingsOwnership(xs, IP);
    SightingsOwnership(ys, IP);
    OwningRank(Associated, Ownerships(xs));
    OwningRank(Associated, Ownerships(ys));
    IPOwnershipIsMaximum(Ownerships(xs));
    IPOwnershipIsMaximum(Ownerships(ys));
    OwnershipsSame(xs, ys);
    OwnershipsSame(ys, xs);
    RankInjective(Sightings(xs).ownership, Sightings(ys).ownership);
  }

  /** For domains a blank first sighting counts as owned, so the order can
      matter; it does not exactly when no sighting is blank, or one is owned
      anyway, or all are blank. */
  ghost predicate OrderFree(os: seq<Ownership>)
    requires os != []
  {
    forall ps: seq<Ownership> | multiset(ps) == multiset(os) ::
      |ps| == |os| && Owning(Owned, ps) == Owning(Owned, os)
  }

  lemma SameLength(ps: seq<Ownership>, os: seq<Ownership>)
    requires multiset(ps) == multiset(os)
    ensures |ps| == |os| && forall o :: o in ps <==> o in os
  {
    assert |multiset(ps)| == |ps| && |multiset(os)| == |os|;
    assert forall o :: o in multiset(ps) <==> o in ps;
    assert forall o :: o in multiset(os) <==> o in os;
  }

  lemma DomainOwnershipOrderFreeIff(os: seq<Ownership>)
    requires Stateable(os)
    ensures OrderFree(os) <==> Unstated !in os || Owned in os || forall o :: o in os ==> o == Unstated
  {
    if Unstated !in os || Owned in os || forall o :: o in os ==> o == Unstated {
      forall ps: seq<Ownership> | multiset(ps) == multiset(os)
        ensures |ps| == |os| && Owning(Owned, ps) == Owning(Owned, os)
      {
        SameLength(ps, os);
        assert os[0] in os && ps[0] in ps;
        forall i | 0 <= i < |ps| ensures !ps[i].Other? {
          assert ps[i] in os;
        }
        OwningRank(Owned, os);
        OwningRank(Owned, ps);
        RankInjective(Owning(Owned, ps), Owning(Owned, os));
      }
    } else {
      var stated :| stated in os && stated != Unstated;
      var blankFirst := ToFront(os, Unstated);
      var statedFirst := ToFront(os, stated);
      OwningRank(Owned, blankFirst);
      OwningRank(Owned, statedFirst);
      assert Rank(Owning(Owned, blankFirst)) == 3;
      assert Rank(Owning(Owned, statedFirst)) < 3;
    }
  }

  lemma ToFront(os: seq<Ownership>, o: Ownership) returns (ps: seq<Ownership>)
    requires Stateable(os) && o in os
    ensures multiset(ps) == multiset(os) && ps != [] && ps[0] == o
    ensures Stateable(ps) && forall p :: p in ps <==> p in os
  {
    var i :| 0 <= i < |os| && os[i] == o;
    ps := [o] + os[..i] + os[i + 1..];
    assert os == os[..i] + [o] + os[i + 1..];
    assert multiset(ps) == multiset(os);
    SameLength(ps, os);
    forall j | 0 <= j < |ps| ensures !ps[j].Other? {
      assert ps[j] in os;
    }
  }
}
