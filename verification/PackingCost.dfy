/** What candidates too big for any request cost the greedy split: when it is
    still the shortest, and where it is not
    (internal/expand/ai_search_collector.go, buildJudgeRequests). */
module PackingCost {
  import opened Packing

  // ----- when the plan is the shortest -----

  /** The candidates that fit alone, in order. */
  function Alone(size: Size, limit: int, cs: seq<Candidate>): seq<Candidate> {
    if cs == [] then []
    else Alone(size, limit, cs[..|cs| - 1]) + if Fits(size, limit, [cs[|cs| - 1]]) then [cs[|cs| - 1]] else []
  }

  function Packings(size: Size, limit: int, cs: seq<Candidate>): seq<seq<Candidate>> {
    Flush(Pack(size, limit, cs)).requests
  }

  lemma {:induction false} AloneMembers(size: Size, limit: int, cs: seq<Candidate>)
    ensures forall c :: c in Alone(size, limit, cs) <==> c in cs && Fits(size, limit, [c])
  {
    if cs != [] {
      AloneMembers(size, limit, cs[..|cs| - 1]);
      assert cs == cs[..|cs| - 1] + [cs[|cs| - 1]];
    }
  }

  /** For a monotone size the selected candidates are those that fit alone. */
  lemma {:induction false} SelectedAreAlone(size: Size, limit: int, cs: seq<Candidate>)
    requires Monotone(size)
    ensures Pack(size, limit, cs).selected == Alone(size, limit, cs)
  {
    if cs != [] {
      var front, c := cs[..|cs| - 1], cs[|cs| - 1];
      SelectedAreAlone(size, limit, front);
      var cur := Pack(size, limit, front).current;
      assert Alone(size, limit, front) + [] == Alone(size, limit, front);
      assert [] + [c] == [c];
      if Fits(size, limit, cur + [c]) {
        assert cur + [c] + [] == cur + [c];
        PartFits(size, limit, cur, [c], []);
      }
    }
  }

  /** An order-preserving split of the list into requests within the limit. */
  ghost predicate IsPlan(size: Size, limit: int, cs: seq<Candidate>, parts: seq<seq<Candidate>>) {
    Concat(parts) == cs && forall i :: 0 <= i < |parts| ==> Fits(size, limit, parts[i])
  }

  /** No split of the selected candidates makes fewer requests. */
  ghost predicate Minimal(size: Size, limit: int, cs: seq<Candidate>) {
    forall parts :: IsPlan(size, limit, Alone(size, limit, cs), parts) ==> |Packings(size, limit, cs)| <= |parts|
  }

  lemma PackingsArePlan(size: Size, limit: int, cs: seq<Candidate>)
    requires Monotone(size)
    ensures IsPlan(size, limit, Alone(size, limit, cs), Packings(size, limit, cs))
  {
    PlanConserves(size, limit, cs);
    SelectedAreAlone(size, limit, cs);
  }

  lemma AlonePackingIsShortest(size: Size, limit: int, cs: seq<Candidate>, parts: seq<seq<Candidate>>)
    requires Monotone(size) && IsPlan(size, limit, Alone(size, limit, cs), parts)
    ensures |Packings(size, limit, Alone(size, limit, cs))| <= |parts|
  {
    AloneMembers(size, limit, cs);
    GreedyIsShortest(size, limit, Alone(size, limit, cs), parts);
  }

  lemma {:induction false} AloneTwice(size: Size, limit: int, cs: seq<Candidate>)
    requires forall c :: c in cs ==> Fits(size, limit, [c])
    ensures Alone(size, limit, cs) == cs
  {
    if cs != [] {
      var front := cs[..|cs| - 1];
      assert cs == front + [cs[|cs| - 1]] && forall c :: c in front ==> c in cs;
      AloneTwice(size, limit, front);
    }
  }

  /** When greedy is optimal, for every monotone size: its plan is the
      shortest for what it selects exactly when the oversized candidates cost
      it nothing, that is when it makes as many requests without them. */
  lemma MinimalIff(size: Size, limit: int, cs: seq<Candidate>)
    requires Monotone(size)
    ensures Minimal(size, limit, cs)
            <==> |Packings(size, limit, cs)| == |Packings(size, limit, Alone(size, limit, cs))|
  {
    var alone := Alone(size, limit, cs);
    PackingsArePlan(size, limit, cs);
    AlonePackingIsShortest(size, limit, cs, Packings(size, limit, cs));
    AloneMembers(size, limit, cs);
    AloneTwice(size, limit, alone);
    PackingsArePlan(size, limit, alone);
    forall parts | IsPlan(size, limit, alone, parts) ensures |Packings(size, limit, alone)| <= |parts| {
      AlonePackingIsShortest(size, limit, cs, parts);
    }
  }

  // ----- where they cost it -----

  /** Two packings in the same request, one with more requests behind it. */
  ghost predicate Behind(p: Packed, before: seq<seq<Candidate>>, q: Packed) {
    p.requests == before + q.requests && p.current == q.current
  }

  lemma FeedBehind(size: Size, limit: int, p: Packed, before: seq<seq<Candidate>>, q: Packed, c: Candidate)
    requires Behind(p, before, q)
    ensures Behind(Feed(size, limit, p, c), before, Feed(size, limit, q, c))
  {
    assert before + (q.requests + [q.current]) == before + q.requests + [q.current];
  }

  lemma FlushBehind(p: Packed, before: seq<seq<Candidate>>, q: Packed)
    requires Behind(p, before, q)
    ensures Flush(p).requests == before + Flush(q).requests
  {
    assert before + (q.requests + [q.current]) == before + q.requests + [q.current];
  }

  lemma {:induction false} RestBehind(size: Size, limit: int, xs: seq<Candidate>, before: seq<seq<Candidate>>, ys: seq<Candidate>)
    requires Behind(Pack(size, limit, xs), before, Pack(size, limit, []))
    ensures Behind(Pack(size, limit, xs + ys), before, Pack(size, limit, ys))
  {
    if ys == [] {
      assert xs + ys == xs;
    } else {
      var front, c := ys[..|ys| - 1], ys[|ys| - 1];
      RestBehind(size, limit, xs, before, front);
      FeedBehind(size, limit, Pack(size, limit, xs + front), before, Pack(size, limit, front), c);
      PackSnoc(size, limit, xs + front, c);
      assert xs + ys == xs + front + [c];
    }
  }

  /** An oversized candidate cuts the packing: what comes before it and what
      comes after it are packed as if alone. */
  lemma OversizedCuts(size: Size, limit: int, xs: seq<Candidate>, big: Candidate, ys: seq<Candidate>)
    requires Monotone(size) && !Fits(size, limit, [big])
    ensures Packings(size, limit, xs + [big] + ys) == Packings(size, limit, xs) + Packings(size, limit, ys)
  {
    var p := Pack(size, limit, xs);
    PackSnoc(size, limit, xs, big);
    assert p.current + [big] + [] == p.current + [big] && [] + [big] == [big];
    if Fits(size, limit, p.current + [big]) {
      PartFits(size, limit, p.current, [big], []);
    }
    var before := Flush(p).requests;
    assert before + [] == before;
    assert Behind(Pack(size, limit, xs + [big]), before, Pack(size, limit, []));
    RestBehind(size, limit, xs + [big], before, ys);
    FlushBehind(Pack(size, limit, xs + [big] + ys), before, Pack(size, limit, ys));
  }

  /** The number of requests when the list is cut before ys. */
  function CutCount(size: Size, limit: int, xs: seq<Candidate>, ys: seq<Candidate>): nat {
    |Packings(size, limit, xs)| + |Packings(size, limit, ys)|
  }

  lemma {:induction false} ConcatAppend(a: seq<seq<Candidate>>, b: seq<seq<Candidate>>)
    ensures Concat(a + b) == Concat(a) + Concat(b)
  {
    if b == [] {
      assert a + b == a;
    } else {
      ConcatAppend(a, b[..|b| - 1]);
      assert (a + b)[..|a + b| - 1] == a + b[..|b| - 1];
    }
  }

  ghost predicate AllFit(size: Size, limit: int, cs: seq<Candidate>) {
    forall c :: c in cs ==> Fits(size, limit, [c])
  }

  lemma PackingsOfFitting(size: Size, limit: int, cs: seq<Candidate>)
    requires Monotone(size) && AllFit(size, limit, cs)
    ensures IsPlan(size, limit, cs, Packings(size, limit, cs))
  {
    AloneTwice(size, limit, cs);
    PackingsArePlan(size, limit, cs);
  }

  lemma ConcatOne(part: seq<Candidate>)
    ensures Concat([part]) == part
  {
    assert [part][..0] == [];
  }

  /** Part i of the list straddles the place between xs and ys. */
  ghost predicate StraddlesAt(xs: seq<Candidate>, ys: seq<Candidate>, parts: seq<seq<Candidate>>, i: int,
                              head: seq<Candidate>, tail: seq<Candidate>) {
    0 <= i < |parts| && parts[i] == head + tail && Concat(parts[..i]) + head == xs && tail + Concat(parts[i + 1..]) == ys
  }

  lemma SuffixOf<T>(a: seq<T>, b: seq<T>, c: seq<T>, d: seq<T>)
    requires a + b == c + d && |b| <= |d|
    ensures c + d[..|d| - |b|] == a && d[|d| - |b|..] == b
  {
    assert (a + b)[..|a|] == a && (a + b)[|a|..] == b;
    assert (c + d)[..|a|] == c + d[..|d| - |b|] && (c + d)[|a|..] == d[|d| - |b|..];
  }

  lemma StraddlesLast(xs: seq<Candidate>, ys: seq<Candidate>, parts: seq<seq<Candidate>>)
    returns (head: seq<Candidate>, tail: seq<Candidate>)
    requires Concat(parts) == xs + ys && parts != [] && |ys| <= |parts[|parts| - 1]|
    ensures StraddlesAt(xs, ys, parts, |parts| - 1, head, tail)
  {
    var n := |parts| - 1;
    var last := parts[n];
    SuffixOf(xs, ys, Concat(parts[..n]), last);
    head, tail := last[..|last| - |ys|], last[|last| - |ys|..];
    assert last == head + tail && parts[n + 1..] == [];
    assert Concat(parts[n + 1..]) == [] && tail + [] == tail;
  }

  lemma SliceSnoc<T>(xs: seq<T>, x: T, i: nat)
    requires i < |xs|
    ensures (xs + [x])[..i] == xs[..i] && (xs + [x])[i] == xs[i] && (xs + [x])[i + 1..] == xs[i + 1..] + [x]
  {
  }

  lemma ConcatSnoc(parts: seq<seq<Candidate>>, last: seq<Candidate>)
    ensures Concat(parts + [last]) == Concat(parts) + last
  {
    assert (parts + [last])[..|parts|] == parts;
  }

  lemma StraddlesEarlier(xs: seq<Candidate>, rest: seq<Candidate>, parts: seq<seq<Candidate>>, last: seq<Candidate>, i: int,
                         head: seq<Candidate>, tail: seq<Candidate>)
    requires StraddlesAt(xs, rest, parts, i, head, tail)
    ensures StraddlesAt(xs, rest + last, parts + [last], i, head, tail)
  {
    SliceSnoc(parts, last, i);
    ConcatSnoc(parts[i + 1..], last);
    assert tail + (Concat(parts[i + 1..]) + last) == (tail + Concat(parts[i + 1..])) + last;
  }

  lemma {:induction false} SomeStraddles(xs: seq<Candidate>, ys: seq<Candidate>, parts: seq<seq<Candidate>>)
    returns (i: int, head: seq<Candidate>, tail: seq<Candidate>)
    requires Concat(parts) == xs + ys && parts != []
    ensures StraddlesAt(xs, ys, parts, i, head, tail)
    decreases |parts|
  {
    var n := |parts| - 1;
    var front, last := parts[..n], parts[n];
    if |ys| <= |last| {
      i := n;
      head, tail := StraddlesLast(xs, ys, parts);
    } else {
      SuffixOf(Concat(front), last, xs, ys);
      var rest := ys[..|ys| - |last|];
      assert ys == rest + last && front + [last] == parts;
      assert front == [] ==> |Concat(front)| == 0;
      i, head, tail := SomeStraddles(xs, rest, front);
      StraddlesEarlier(xs, rest, front, last, i, head, tail);
    }
  }

  /** Cutting a list of fitting candidates never saves a request and costs at
      most one. */
  lemma CutCostsAtMostOne(size: Size, limit: int, xs: seq<Candidate>, ys: seq<Candidate>)
    requires Monotone(size) && AllFit(size, limit, xs + ys)
    ensures |Packings(size, limit, xs + ys)| <= CutCount(size, limit, xs, ys) <= |Packings(size, limit, xs + ys)| + 1
  {
    var parts := Packings(size, limit, xs + ys);
    AllFitParts(size, limit, xs, ys);
    PackingsOfFitting(size, limit, xs + ys);
    PackingsOfFitting(size, limit, xs);
    PackingsOfFitting(size, limit, ys);
    var pa, pb := Packings(size, limit, xs), Packings(size, limit, ys);
    ConcatAppend(pa, pb);
    GreedyIsShortest(size, limit, xs + ys, pa + pb);
    if parts != [] {
      CutPlans(size, limit, xs, ys, parts);
    } else {
      assert xs == [] && ys == [];
    }
  }

  lemma JoinedPlan(size: Size, limit: int, xs: seq<Candidate>, ps: seq<seq<Candidate>>, ys: seq<Candidate>, qs: seq<seq<Candidate>>)
    requires IsPlan(size, limit, xs, ps) && IsPlan(size, limit, ys, qs)
    ensures IsPlan(size, limit, xs + ys, ps + qs)
  {
    ConcatAppend(ps, qs);
  }

  lemma OnePart(size: Size, limit: int, cs: seq<Candidate>)
    requires Fits(size, limit, cs)
    ensures IsPlan(size, limit, cs, [cs])
  {
    ConcatOne(cs);
  }

  lemma HeadAndTailFit(size: Size, limit: int, head: seq<Candidate>, tail: seq<Candidate>)
    requires Monotone(size) && Fits(size, limit, head + tail)
    ensures Fits(size, limit, head) && Fits(size, limit, tail)
  {
    assert [] + head + tail == head + tail && head + tail + [] == head + tail;
    PartFits(size, limit, [], head, tail);
    PartFits(size, limit, head, tail, []);
  }

  /** A plan split at any place plans both sides, with one part more. */
  lemma CutPlans(size: Size, limit: int, xs: seq<Candidate>, ys: seq<Candidate>, parts: seq<seq<Candidate>>)
    requires Monotone(size) && AllFit(size, limit, xs) && AllFit(size, limit, ys)
    requires IsPlan(size, limit, xs + ys, parts) && parts != []
    ensures CutCount(size, limit, xs, ys) <= |parts| + 1
  {
    var i, head, tail := SomeStraddles(xs, ys, parts);
    HeadAndTailFit(size, limit, head, tail);
    OnePart(size, limit, head);
    OnePart(size, limit, tail);
    JoinedPlan(size, limit, Concat(parts[..i]), parts[..i], head, [head]);
    JoinedPlan(size, limit, tail, [tail], Concat(parts[i + 1..]), parts[i + 1..]);
    ShortestOfFitting(size, limit, xs, parts[..i] + [head]);
    ShortestOfFitting(size, limit, ys, [tail] + parts[i + 1..]);
  }

  lemma ShortestOfFitting(size: Size, limit: int, cs: seq<Candidate>, parts: seq<seq<Candidate>>)
    requires Monotone(size) && AllFit(size, limit, cs) && IsPlan(size, limit, cs, parts)
    ensures |Packings(size, limit, cs)| <= |parts|
  {
    GreedyIsShortest(size, limit, cs, parts);
  }

  /** A cut where the packing closes a request anyway costs nothing. */
  lemma ClosedAnyway(size: Size, limit: int, xs: seq<Candidate>, ys: seq<Candidate>)
    requires AllFit(size, limit, xs + ys)
    requires xs == [] || ys == [] || !Fits(size, limit, Pack(size, limit, xs).current + [ys[0]])
    ensures CutCount(size, limit, xs, ys) == |Packings(size, limit, xs + ys)|
  {
    if xs == [] {
      assert [] + ys == ys;
    } else if ys == [] {
      assert xs + [] == xs;
    } else {
      assert ys[0] in xs + ys;
      assert xs + [ys[0]] + ys[1..] == xs + ys && [ys[0]] + ys[1..] == ys;
      ClosedBetween(size, limit, xs, ys[0], ys[1..]);
    }
  }

  lemma ClosedBetween(size: Size, limit: int, xs: seq<Candidate>, c: Candidate, rest: seq<Candidate>)
    requires Fits(size, limit, [c]) && !Fits(size, limit, Pack(size, limit, xs).current + [c])
    ensures Packings(size, limit, xs + [c] + rest) == Packings(size, limit, xs) + Packings(size, limit, [c] + rest)
  {
    var before := Packings(size, limit, xs);
    FirstBehind(size, limit, xs, c, before);
    RestBehindFirst(size, limit, xs, before, c, rest);
    FlushBehind(Pack(size, limit, xs + [c] + rest), before, Pack(size, limit, [c] + rest));
  }

  lemma FirstBehind(size: Size, limit: int, xs: seq<Candidate>, c: Candidate, before: seq<seq<Candidate>>)
    requires Fits(size, limit, [c]) && !Fits(size, limit, Pack(size, limit, xs).current + [c])
    requires before == Flush(Pack(size, limit, xs)).requests
    ensures Behind(Pack(size, limit, xs + [c]), before, Pack(size, limit, [c]))
  {
    PackSnoc(size, limit, xs, c);
    PackSnoc(size, limit, [], c);
    assert [] + [c] == [c] && before + [] == before;
  }

  lemma {:induction false} RestBehindFirst(size: Size, limit: int, xs: seq<Candidate>, before: seq<seq<Candidate>>, c: Candidate,
                                           rest: seq<Candidate>)
    requires Behind(Pack(size, limit, xs + [c]), before, Pack(size, limit, [c]))
    ensures Behind(Pack(size, limit, xs + [c] + rest), before, Pack(size, limit, [c] + rest))
  {
    if rest == [] {
      assert xs + [c] + rest == xs + [c] && [c] + rest == [c];
    } else {
      var front, d := rest[..|rest| - 1], rest[|rest| - 1];
      RestBehindFirst(size, limit, xs, before, c, front);
      FeedBehind(size, limit, Pack(size, limit, xs + [c] + front), before, Pack(size, limit, [c] + front), d);
      PackSnoc(size, limit, xs + [c] + front, d);
      PackSnoc(size, limit, [c] + front, d);
      assert xs + [c] + rest == xs + [c] + front + [d] && [c] + rest == [c] + front + [d];
    }
  }

  /** One oversized candidate among fitting ones costs at most one request:
      none exactly when cutting the list there costs none, as it does at
      either end and wherever a request is closed anyway. */
  lemma OneOversizedIff(size: Size, limit: int, xs: seq<Candidate>, big: Candidate, ys: seq<Candidate>)
    requires Monotone(size) && AllFit(size, limit, xs + ys) && !Fits(size, limit, [big])
    ensures Minimal(size, limit, xs + [big] + ys)
            <==> CutCount(size, limit, xs, ys) == |Packings(size, limit, xs + ys)|
    ensures !Minimal(size, limit, xs + [big] + ys)
            <==> |Packings(size, limit, xs + [big] + ys)| == |Packings(size, limit, xs + ys)| + 1
    ensures xs == [] || ys == [] || !Fits(size, limit, Pack(size, limit, xs).current + [ys[0]])
            ==> Minimal(size, limit, xs + [big] + ys)
  {
    OversizedCuts(size, limit, xs, big, ys);
    AloneAround(size, limit, xs, big, ys);
    MinimalIff(size, limit, xs + [big] + ys);
    CutCostsAtMostOne(size, limit, xs, ys);
    if xs == [] || ys == [] || !Fits(size, limit, Pack(size, limit, xs).current + [ys[0]]) {
      ClosedAnyway(size, limit, xs, ys);
    }
  }

  lemma {:induction false} AloneAppend(size: Size, limit: int, xs: seq<Candidate>, ys: seq<Candidate>)
    ensures Alone(size, limit, xs + ys) == Alone(size, limit, xs) + Alone(size, limit, ys)
  {
    if ys == [] {
      assert xs + ys == xs;
    } else {
      AloneAppend(size, limit, xs, ys[..|ys| - 1]);
      assert (xs + ys)[..|xs + ys| - 1] == xs + ys[..|ys| - 1];
    }
  }

  lemma AloneOne(size: Size, limit: int, c: Candidate)
    ensures Alone(size, limit, [c]) == if Fits(size, limit, [c]) then [c] else []
  {
    assert [c][..0] == [];
  }

  lemma AloneSplit(size: Size, limit: int, xs: seq<Candidate>, big: Candidate, ys: seq<Candidate>)
    requires !Fits(size, limit, [big])
    ensures Alone(size, limit, xs + [big] + ys) == Alone(size, limit, xs) + Alone(size, limit, ys)
  {
    AloneAppend(size, limit, xs + [big], ys);
    AloneAppend(size, limit, xs, [big]);
    AloneOne(size, limit, big);
    assert Alone(size, limit, xs) + [] == Alone(size, limit, xs);
  }

  lemma AllFitParts(size: Size, limit: int, xs: seq<Candidate>, ys: seq<Candidate>)
    ensures AllFit(size, limit, xs + ys) <==> AllFit(size, limit, xs) && AllFit(size, limit, ys)
  {
    assert forall c :: c in xs + ys <==> c in xs || c in ys;
  }

  lemma AloneAround(size: Size, limit: int, xs: seq<Candidate>, big: Candidate, ys: seq<Candidate>)
    requires AllFit(size, limit, xs + ys) && !Fits(size, limit, [big])
    ensures Alone(size, limit, xs + [big] + ys) == xs + ys
  {
    AllFitParts(size, limit, xs, ys);
    AloneSplit(size, limit, xs, big, ys);
    AloneTwice(size, limit, xs);
    AloneTwice(size, limit, ys);
  }

  /** However many oversized candidates there are, each costs at most one
      request. */
  lemma {:induction false} EachCostsAtMostOne(size: Size, limit: int, cs: seq<Candidate>)
    requires Monotone(size)
    ensures |Packings(size, limit, cs)| <= |Packings(size, limit, Alone(size, limit, cs))| + (|cs| - |Alone(size, limit, cs)|)
    decreases |cs| - |Alone(size, limit, cs)|
  {
    AloneMembers(size, limit, cs);
    AloneShorter(size, limit, cs);
    if i :| 0 <= i < |cs| && !Fits(size, limit, [cs[i]]) {
      var xs, big, ys := cs[..i], cs[i], cs[i + 1..];
      assert cs == xs + [big] + ys;
      RemoveOne(size, limit, xs, big, ys);
      EachCostsAtMostOne(size, limit, xs);
      EachCostsAtMostOne(size, limit, ys);
    } else {
      AloneTwice(size, limit, cs);
    }
  }

  lemma {:induction false} AloneShorter(size: Size, limit: int, cs: seq<Candidate>)
    ensures |Alone(size, limit, cs)| <= |cs|
  {
    if cs != [] {
      AloneShorter(size, limit, cs[..|cs| - 1]);
    }
  }

  lemma RemoveOne(size: Size, limit: int, xs: seq<Candidate>, big: Candidate, ys: seq<Candidate>)
    requires Monotone(size) && !Fits(size, limit, [big])
    ensures var (ax, ay) := (Alone(size, limit, xs), Alone(size, limit, ys));
            && Alone(size, limit, xs + [big] + ys) == ax + ay
            && |ax| <= |xs| && |ay| <= |ys|
            && Packings(size, limit, xs + [big] + ys) == Packings(size, limit, xs) + Packings(size, limit, ys)
            && CutCount(size, limit, ax, ay) <= |Packings(size, limit, ax + ay)| + 1
  {
    AloneSplit(size, limit, xs, big, ys);
    OversizedCuts(size, limit, xs, big, ys);
    AloneShorter(size, limit, xs);
    AloneShorter(size, limit, ys);
    CutAlone(size, limit, xs, ys);
  }

  lemma CutAlone(size: Size, limit: int, xs: seq<Candidate>, ys: seq<Candidate>)
    requires Monotone(size)
    ensures var (ax, ay) := (Alone(size, limit, xs), Alone(size, limit, ys));
            CutCount(size, limit, ax, ay) <= |Packings(size, limit, ax + ay)| + 1
  {
    var ax, ay := Alone(size, limit, xs), Alone(size, limit, ys);
    AloneMembers(size, limit, xs);
    AloneMembers(size, limit, ys);
    AllFitParts(size, limit, ax, ay);
    CutCostsAtMostOne(size, limit, ax, ay);
  }

  // ----- the exact condition on their positions -----

  lemma {:induction false} RequestsAppend(size: Size, limit: int, a: seq<seq<Candidate>>, b: seq<seq<Candidate>>)
    ensures Requests(size, limit, a + b) == Requests(size, limit, a) + Requests(size, limit, b)
  {
    if b == [] {
      assert a + b == a;
    } else {
      RequestsAppend(size, limit, a, b[..|b| - 1]);
      assert (a + b)[..|a + b| - 1] == a + b[..|b| - 1];
    }
  }

  lemma {:induction false} RequestsOfFitting(size: Size, limit: int, parts: seq<seq<Candidate>>)
    requires forall i :: 0 <= i < |parts| ==> Fits(size, limit, parts[i])
    ensures Requests(size, limit, parts) == |parts|
  {
    if parts != [] {
      RequestsOfFitting(size, limit, parts[..|parts| - 1]);
    }
  }

  lemma SplitAround(size: Size, limit: int, xs: seq<Candidate>, ps: seq<seq<Candidate>>, big: Candidate,
                    ys: seq<Candidate>, qs: seq<seq<Candidate>>)
    requires IsSplit(size, limit, xs, ps) && IsSplit(size, limit, ys, qs) && !Fits(size, limit, [big])
    ensures IsSplit(size, limit, xs + [big] + ys, ps + [[big]] + qs)
    ensures Requests(size, limit, ps + [[big]] + qs) == Requests(size, limit, ps) + Requests(size, limit, qs)
  {
    ConcatAppend(ps, [[big]]);
    ConcatAppend(ps + [[big]], qs);
    ConcatOne([big]);
    RequestsAppend(size, limit, ps, [[big]]);
    RequestsAppend(size, limit, ps + [[big]], qs);
    assert [[big]][..0] == [];
    assert Requests(size, limit, [[big]]) == 0;
  }

  /** The greedy plan with its skipped candidates put back. */
  lemma {:induction false} GreedyAsSplit(size: Size, limit: int, cs: seq<Candidate>) returns (split: seq<seq<Candidate>>)
    requires Monotone(size)
    ensures IsSplit(size, limit, cs, split) && Requests(size, limit, split) == |Packings(size, limit, cs)|
    decreases |cs|
  {
    if i :| 0 <= i < |cs| && !Fits(size, limit, [cs[i]]) {
      var xs, big, ys := cs[..i], cs[i], cs[i + 1..];
      assert cs == xs + [big] + ys;
      var ps := GreedyAsSplit(size, limit, xs);
      var qs := GreedyAsSplit(size, limit, ys);
      OversizedCuts(size, limit, xs, big, ys);
      SplitAround(size, limit, xs, ps, big, ys, qs);
      split := ps + [[big]] + qs;
    } else {
      split := Packings(size, limit, cs);
      PackingsOfFitting(size, limit, cs);
      RequestsOfFitting(size, limit, split);
    }
  }

  /** However many oversized candidates there are and wherever they stand,
      greedy is the shortest exactly when some split that closes a request at
      each of them is as short as the packing without them. */
  lemma MinimalIffSomeSplit(size: Size, limit: int, cs: seq<Candidate>)
    requires Monotone(size)
    ensures Minimal(size, limit, cs)
            <==> exists split :: IsSplit(size, limit, cs, split)
                                 && Requests(size, limit, split) == |Packings(size, limit, Alone(size, limit, cs))|
  {
    MinimalIff(size, limit, cs);
    PackingsArePlan(size, limit, cs);
    AlonePackingIsShortest(size, limit, cs, Packings(size, limit, cs));
    var greedy := GreedyAsSplit(size, limit, cs);
    if split :| IsSplit(size, limit, cs, split)
                && Requests(size, limit, split) == |Packings(size, limit, Alone(size, limit, cs))| {
      GreedyIsOptimal(size, limit, cs, split);
    }
  }

  // ----- and one that is lost -----

  function Weights(cs: seq<Candidate>): int {
    if cs == [] then 0 else Weights(cs[..|cs| - 1]) + |cs[|cs| - 1].body|
  }

  lemma {:induction false} WeightsAppend(a: seq<Candidate>, b: seq<Candidate>)
    ensures Weights(a + b) == Weights(a) + Weights(b) && Weights(b) >= 0
  {
    if b == [] {
      assert a + b == a;
    } else {
      WeightsAppend(a, b[..|b| - 1]);
      assert (a + b)[..|a + b| - 1] == a + b[..|b| - 1];
    }
  }

  lemma WeightsMonotone()
    ensures Monotone(Weights)
  {
    forall a, b, c {:trigger Weights(a + b + c)} ensures Weights(b) <= Weights(a + b + c) {
      WeightsAppend(a + b, c);
      WeightsAppend(a, b);
      WeightsAppend([], a);
      assert [] + a == a;
    }
  }

  lemma WeightsOne(c: Candidate)
    ensures Weights([c]) == |c.body|
  {
    assert [c][..0] == [];
  }

  /** Two light candidates around a heavy one are judged apart, though one
      request would hold them. */
  lemma OversizedSplitsNeighbours()
    ensures Monotone(Weights)
    ensures var a, big, b := Candidate("a", "1"), Candidate("big", "333"), Candidate("b", "1");
            && Packings(Weights, 2, [a] + [big] + [b]) == [[a], [b]]
            && !Minimal(Weights, 2, [a] + [big] + [b])
  {
    var a, big, b := Candidate("a", "1"), Candidate("big", "333"), Candidate("b", "1");
    WeightsMonotone();
    WeightsOne(a);
    WeightsOne(big);
    WeightsOne(b);
    OversizedCuts(Weights, 2, [a], big, [b]);
    OnePacked(Weights, 2, a);
    OnePacked(Weights, 2, b);
    AllFitParts(Weights, 2, [a], [b]);
    AloneAround(Weights, 2, [a], big, [b]);
    WeightsAppend([a], [b]);
    OnePart(Weights, 2, [a] + [b]);
  }

  lemma OnePacked(size: Size, limit: int, c: Candidate)
    requires Fits(size, limit, [c])
    ensures Packings(size, limit, [c]) == [[c]]
  {
    PackSnoc(size, limit, [], c);
    assert [] + [c] == [c];
  }
}
