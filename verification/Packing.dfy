/** Splitting search candidates into judge requests under a prompt limit
    (internal/expand/ai_search_collector.go, buildJudgeRequests). */
module Packing {

  datatype Candidate = Candidate(root: string, body: string)

  /** The prompt size of a request, for a fixed seed and scenario. */
  type Size = seq<Candidate> -> int

  datatype Group = Group(candidates: seq<Candidate>, roots: seq<string>)

  datatype Plan = Plan(
    requests: seq<Group>,
    selectedRoots: seq<string>,
    truncatedRoots: seq<string>,
    promptSkippedRoots: seq<string>)

  function Roots(cs: seq<Candidate>): (roots: seq<string>)
    ensures |roots| == |cs| && forall i :: 0 <= i < |cs| ==> roots[i] == cs[i].root
  {
    seq(|cs|, i requires 0 <= i < |cs| => cs[i].root)
  }

  predicate Fits(size: Size, limit: int, request: seq<Candidate>) {
    limit <= 0 || size(request) <= limit
  }

  // ----- the greedy split on values -----

  datatype Packed = Packed(
    requests: seq<seq<Candidate>>,
    current: seq<Candidate>,
    selected: seq<Candidate>,
    skipped: seq<Candidate>)

  function Flush(p: Packed): Packed {
    if p.current == [] then p else p.(requests := p.requests + [p.current], current := [])
  }

  function Feed(size: Size, limit: int, p: Packed, c: Candidate): Packed {
    if Fits(size, limit, p.current + [c]) then p.(current := p.current + [c], selected := p.selected + [c])
    else if p.current == [] || !Fits(size, limit, [c]) then Flush(p).(skipped := p.skipped + [c])
    else Flush(p).(current := [c], selected := p.selected + [c])
  }

  function Pack(size: Size, limit: int, cs: seq<Candidate>): Packed {
    if cs == [] then Packed([], [], [], [])
    else Feed(size, limit, Pack(size, limit, cs[..|cs| - 1]), cs[|cs| - 1])
  }

  /** The candidates judging may see: the first maxJudged, if that is a cap. */
  function Untruncated(candidates: seq<Candidate>, maxJudged: int): seq<Candidate> {
    if maxJudged > 0 && |candidates| > maxJudged then candidates[..maxJudged] else candidates
  }

  function Groups(requests: seq<seq<Candidate>>): (groups: seq<Group>)
    ensures |groups| == |requests|
    ensures forall i :: 0 <= i < |requests| ==> groups[i] == Group(requests[i], Roots(requests[i]))
  {
    seq(|requests|, i requires 0 <= i < |requests| => Group(requests[i], Roots(requests[i])))
  }

  function PlanOf(size: Size, limit: int, maxJudged: int, candidates: seq<Candidate>): Plan {
    var prefix := Untruncated(candidates, maxJudged);
    var p := Flush(Pack(size, limit, prefix));
    Plan(Groups(p.requests), Roots(p.selected), Roots(candidates[|prefix|..]), Roots(p.skipped))
  }

  lemma RootsAppend(cs: seq<Candidate>, c: Candidate)
    ensures Roots(cs + [c]) == Roots(cs) + [c.root]
  {
  }

  lemma GroupsAppend(requests: seq<seq<Candidate>>, request: seq<Candidate>)
    ensures Groups(requests + [request]) == Groups(requests) + [Group(request, Roots(request))]
  {
  }

  /** The loop's variables, read as a greedy split. */
  ghost predicate Mirrors(plan: Plan, current: seq<Candidate>, currentRoots: seq<string>, p: Packed) {
    && plan.requests == Groups(p.requests) && current == p.current && currentRoots == Roots(p.current)
    && plan.selectedRoots == Roots(p.selected) && plan.promptSkippedRoots == Roots(p.skipped)
  }

  method BuildJudgeRequests(size: Size, limit: int, maxJudged: int, candidates: seq<Candidate>) returns (plan: Plan)
    ensures plan == PlanOf(size, limit, maxJudged, candidates)
  {
    var ordered := candidates;
    var truncatedRoots := [];
    if maxJudged > 0 && |ordered| > maxJudged {
      truncatedRoots := Roots(ordered[maxJudged..]);
      ordered := ordered[..maxJudged];
    }
    assert truncatedRoots == Roots(candidates[|ordered|..]);
    plan := SplitByPrompt(size, limit, ordered);
    plan := plan.(truncatedRoots := truncatedRoots);
  }

  method SplitByPrompt(size: Size, limit: int, ordered: seq<Candidate>) returns (plan: Plan)
    ensures var p := Flush(Pack(size, limit, ordered));
            plan == Plan(Groups(p.requests), Roots(p.selected), [], Roots(p.skipped))
  {
    plan := Plan([], [], [], []);
    var current, currentRoots := [], [];
    for i := 0 to |ordered|
      invariant plan.truncatedRoots == []
      invariant Mirrors(plan, current, currentRoots, Pack(size, limit, ordered[..i]))
    {
      ghost var p := Pack(size, limit, ordered[..i]);
      assert ordered[..i + 1][..i] == ordered[..i];
      var candidate := ordered[i];
      RootsAppend(p.selected, candidate);
      RootsAppend(p.skipped, candidate);
      RootsAppend(p.current, candidate);
      GroupsAppend(p.requests, p.current);
      var trial := current + [candidate];
      if limit > 0 && size(trial) > limit {
        if |current| == 0 {
          plan := plan.(promptSkippedRoots := plan.promptSkippedRoots + [candidate.root]);
          continue;
        }
        plan, current, currentRoots := plan.(requests := plan.requests + [Group(current, currentRoots)]), [], [];
        trial := [candidate];
        if limit > 0 && size(trial) > limit {
          plan := plan.(promptSkippedRoots := plan.promptSkippedRoots + [candidate.root]);
          continue;
        }
      }
      current := trial;
      currentRoots := currentRoots + [candidate.root];
      plan := plan.(selectedRoots := plan.selectedRoots + [candidate.root]);
    }
    assert ordered[..|ordered|] == ordered;
    if |current| > 0 {
      GroupsAppend(Pack(size, limit, ordered).requests, current);
      plan := plan.(requests := plan.requests + [Group(current, currentRoots)]);
    }
  }

  // ----- conservation, for any size function at all -----

  function Concat(parts: seq<seq<Candidate>>): seq<Candidate> {
    if parts == [] then [] else Concat(parts[..|parts| - 1]) + parts[|parts| - 1]
  }

  /** whole is an interleaving of a and b. */
  ghost predicate Interleaves(whole: seq<Candidate>, a: seq<Candidate>, b: seq<Candidate>)
    decreases |whole|
  {
    if whole == [] then a == [] && b == []
    else
      var front, last := whole[..|whole| - 1], whole[|whole| - 1];
      || (a != [] && a[|a| - 1] == last && Interleaves(front, a[..|a| - 1], b))
      || (b != [] && b[|b| - 1] == last && Interleaves(front, a, b[..|b| - 1]))
  }

  ghost predicate Sound(size: Size, limit: int, cs: seq<Candidate>, p: Packed) {
    && Concat(p.requests) + p.current == p.selected
    && Interleaves(cs, p.selected, p.skipped)
    && (forall i :: 0 <= i < |p.requests| ==> p.requests[i] != [] && Fits(size, limit, p.requests[i]))
    && (p.current != [] ==> Fits(size, limit, p.current))
    && (forall c :: c in p.skipped ==> !Fits(size, limit, [c]))
  }

  lemma FlushSound(size: Size, limit: int, cs: seq<Candidate>, p: Packed)
    requires Sound(size, limit, cs, p)
    ensures Sound(size, limit, cs, Flush(p))
  {
    if p.current != [] {
      assert (p.requests + [p.current])[..|p.requests|] == p.requests;
    }
  }

  lemma SkipSound(size: Size, limit: int, cs: seq<Candidate>, p: Packed, c: Candidate)
    requires Sound(size, limit, cs, p) && !Fits(size, limit, [c])
    ensures Sound(size, limit, cs + [c], p.(skipped := p.skipped + [c]))
  {
    var skipped := p.skipped + [c];
    assert (cs + [c])[..|cs|] == cs && skipped[..|p.skipped|] == p.skipped;
  }

  lemma SelectSound(size: Size, limit: int, cs: seq<Candidate>, p: Packed, c: Candidate)
    requires Sound(size, limit, cs, p) && Fits(size, limit, p.current + [c])
    ensures Sound(size, limit, cs + [c], p.(current := p.current + [c], selected := p.selected + [c]))
  {
    var selected := p.selected + [c];
    assert (cs + [c])[..|cs|] == cs && selected[..|p.selected|] == p.selected;
    assert Concat(p.requests) + (p.current + [c]) == selected;
  }

  lemma {:induction false} PackSound(size: Size, limit: int, cs: seq<Candidate>)
    ensures Sound(size, limit, cs, Pack(size, limit, cs))
  {
    if cs != [] {
      var front, c := cs[..|cs| - 1], cs[|cs| - 1];
      assert cs == front + [c];
      PackSound(size, limit, front);
      var p := Pack(size, limit, front);
      FlushSound(size, limit, front, p);
      assert [] + [c] == [c];
      if Fits(size, limit, p.current + [c]) {
        SelectSound(size, limit, front, p, c);
      } else if p.current == [] || !Fits(size, limit, [c]) {
        SkipSound(size, limit, front, Flush(p), c);
      } else {
        SelectSound(size, limit, front, Flush(p), c);
      }
    }
  }

  /** The requests, in order, are the selected candidates; each is non-empty
      and within the limit; selected and skipped interleave to the untruncated
      prefix; and only a candidate too big on its own is ever skipped. */
  lemma PlanConserves(size: Size, limit: int, cs: seq<Candidate>)
    ensures var p := Flush(Pack(size, limit, cs));
            && p.current == []
            && Concat(p.requests) == p.selected
            && Interleaves(cs, p.selected, p.skipped)
            && (forall i :: 0 <= i < |p.requests| ==> p.requests[i] != [] && Fits(size, limit, p.requests[i]))
            && (forall c :: c in p.skipped ==> !Fits(size, limit, [c]))
  {
    PackSound(size, limit, cs);
    FlushSound(size, limit, cs, Pack(size, limit, cs));
  }

  // ----- the whole plan, read off its inputs -----

  function CandidatesOf(groups: seq<Group>): (requests: seq<seq<Candidate>>)
    ensures |requests| == |groups| && forall i :: 0 <= i < |groups| ==> requests[i] == groups[i].candidates
  {
    seq(|groups|, i requires 0 <= i < |groups| => groups[i].candidates)
  }

  /** The plan judges the seen candidates: selected and skipped interleave to
      them, the requests are the selected ones in order, each non-empty, within
      the limit and with its roots; a limit that is not positive is none. */
  ghost predicate Judges(size: Size, limit: int, seen: seq<Candidate>, plan: Plan,
                         selected: seq<Candidate>, skipped: seq<Candidate>) {
    && Interleaves(seen, selected, skipped)
    && plan.selectedRoots == Roots(selected) && plan.promptSkippedRoots == Roots(skipped)
    && Concat(CandidatesOf(plan.requests)) == selected
    && (forall g :: g in plan.requests ==>
                      g.candidates != [] && g.roots == Roots(g.candidates) && (limit > 0 ==> size(g.candidates) <= limit))
    && (forall c :: c in skipped ==> limit > 0 && size([c]) > limit)
    && (limit <= 0 ==> |plan.requests| == if seen == [] then 0 else 1)
  }

  lemma {:induction false} UnlimitedPack(size: Size, limit: int, cs: seq<Candidate>)
    requires limit <= 0
    ensures Pack(size, limit, cs) == Packed([], cs, cs, [])
  {
    if cs != [] {
      UnlimitedPack(size, limit, cs[..|cs| - 1]);
      assert cs[..|cs| - 1] + [cs[|cs| - 1]] == cs;
    }
  }

  lemma PackedJudges(size: Size, limit: int, seen: seq<Candidate>, plan: Plan, p: Packed)
    requires p == Flush(Pack(size, limit, seen))
    requires plan.requests == Groups(p.requests)
    requires plan.selectedRoots == Roots(p.selected) && plan.promptSkippedRoots == Roots(p.skipped)
    ensures Judges(size, limit, seen, plan, p.selected, p.skipped)
  {
    PlanConserves(size, limit, seen);
    assert CandidatesOf(plan.requests) == p.requests;
    if limit <= 0 {
      UnlimitedPack(size, limit, seen);
    }
  }

  /** How many candidates are seen: maxJudged if that is a positive cap. */
  function Seen(maxJudged: int, candidates: seq<Candidate>): nat {
    if 0 < maxJudged < |candidates| then maxJudged else |candidates|
  }

  /** The first candidates, up to the cap, are judged; the roots of the rest
      are reported as truncated. */
  lemma PlanIsExact(size: Size, limit: int, maxJudged: int, candidates: seq<Candidate>)
    ensures var (plan, n) := (PlanOf(size, limit, maxJudged, candidates), Seen(maxJudged, candidates));
            && plan.truncatedRoots == Roots(candidates)[n..]
            && exists selected, skipped :: Judges(size, limit, candidates[..n], plan, selected, skipped)
  {
    var (plan, n) := (PlanOf(size, limit, maxJudged, candidates), Seen(maxJudged, candidates));
    SeenIsUntruncated(maxJudged, candidates);
    assert Roots(candidates[n..]) == Roots(candidates)[n..];
    PackedJudges(size, limit, candidates[..n], plan, Flush(Pack(size, limit, candidates[..n])));
  }

  lemma SeenIsUntruncated(maxJudged: int, candidates: seq<Candidate>)
    ensures Untruncated(candidates, maxJudged) == candidates[..Seen(maxJudged, candidates)]
  {
    assert candidates[..|candidates|] == candidates;
  }

  // ----- optimality, for a monotone size -----

  /** A larger request never has a smaller prompt. */
  ghost predicate Monotone(size: Size) {
    forall a, b, c {:trigger size(a + b + c)} :: size(b) <= size(a + b + c)
  }

  lemma PartFits(size: Size, limit: int, a: seq<Candidate>, b: seq<Candidate>, c: seq<Candidate>)
    requires Monotone(size) && Fits(size, limit, a + b + c)
    ensures Fits(size, limit, b)
  {
  }

  ghost predicate Oversized(size: Size, limit: int, part: seq<Candidate>) {
    |part| == 1 && !Fits(size, limit, part)
  }

  /** Any other way to go about it: cut the list, in order, into parts that
      fit, setting aside candidates that fit nowhere. */
  ghost predicate IsSplit(size: Size, limit: int, cs: seq<Candidate>, parts: seq<seq<Candidate>>) {
    && Concat(parts) == cs
    && forall i :: 0 <= i < |parts| ==> Fits(size, limit, parts[i]) || Oversized(size, limit, parts[i])
  }

  /** The requests such a split makes. */
  ghost function Requests(size: Size, limit: int, parts: seq<seq<Candidate>>): nat {
    if parts == [] then 0
    else Requests(size, limit, parts[..|parts| - 1]) + if Fits(size, limit, parts[|parts| - 1]) then 1 else 0
  }

  function Count(p: Packed): nat {
    |p.requests| + if p.current == [] then 0 else 1
  }

  /** Length of the last part, when it may still grow. */
  ghost function Tail(size: Size, limit: int, parts: seq<seq<Candidate>>): nat {
    if parts != [] && Fits(size, limit, parts[|parts| - 1]) then |parts[|parts| - 1]| else 0
  }

  /** The greedy split is ahead: fewer requests, or as many with a last one
      no longer than the other's. */
  ghost predicate Ahead(size: Size, limit: int, cs: seq<Candidate>, parts: seq<seq<Candidate>>) {
    var p := Pack(size, limit, cs);
    && Count(p) <= Requests(size, limit, parts)
    && (Count(p) == Requests(size, limit, parts) ==> |p.current| <= Tail(size, limit, parts))
  }

  /** cur is a suffix of cs, empty only at the start and after a candidate that
      fits nowhere. */
  ghost predicate Trails(size: Size, limit: int, cs: seq<Candidate>, cur: seq<Candidate>) {
    && |cur| <= |cs| && cur == cs[|cs| - |cur|..]
    && (cur == [] <==> cs == [] || !Fits(size, limit, [cs[|cs| - 1]]))
  }

  lemma FeedTrails(size: Size, limit: int, front: seq<Candidate>, p: Packed, c: Candidate)
    requires Monotone(size) && Trails(size, limit, front, p.current)
    ensures Trails(size, limit, front + [c], Feed(size, limit, p, c).current)
  {
    assert [] + [c] == [c];
    if Fits(size, limit, p.current + [c]) {
      assert p.current + [c] + [] == p.current + [c];
      PartFits(size, limit, p.current, [c], []);
    }
  }

  lemma PackSnoc(size: Size, limit: int, cs: seq<Candidate>, c: Candidate)
    ensures Pack(size, limit, cs + [c]) == Feed(size, limit, Pack(size, limit, cs), c)
  {
    assert (cs + [c])[..|cs|] == cs;
  }

  /** The request being filled is a suffix of what was read. */
  lemma {:induction false} CurrentIsSuffix(size: Size, limit: int, cs: seq<Candidate>)
    requires Monotone(size)
    ensures Trails(size, limit, cs, Pack(size, limit, cs).current)
  {
    if cs != [] {
      var front, c := cs[..|cs| - 1], cs[|cs| - 1];
      CurrentIsSuffix(size, limit, front);
      FeedTrails(size, limit, front, Pack(size, limit, front), c);
      PackSnoc(size, limit, front, c);
      assert cs == front + [c];
    }
  }

  lemma {:induction false} GreedyAhead(size: Size, limit: int, cs: seq<Candidate>, parts: seq<seq<Candidate>>)
    requires Monotone(size) && IsSplit(size, limit, cs, parts)
    ensures Ahead(size, limit, cs, parts)
    decreases |parts|, |cs|
  {
    if cs != [] {
      assert parts != [];
      var last := parts[|parts| - 1];
      var rest := parts[..|parts| - 1];
      assert Concat(rest) + last == cs;
      if last == [] {
        assert Concat(rest) == cs;
        GreedyAhead(size, limit, cs, rest);
        AheadOfEmptyPart(size, limit, cs, parts);
      } else {
        var front, c := cs[..|cs| - 1], cs[|cs| - 1];
        var stem := last[..|last| - 1];
        assert last == stem + [c];
        if stem == [] {
          assert Concat(rest) == front;
          GreedyAhead(size, limit, front, rest);
          AheadOfNewPart(size, limit, cs, parts);
        } else {
          assert stem == [] + stem + [] && last == [] + stem + [c];
          PartFits(size, limit, [], stem, [c]);
          var shorter := rest + [stem];
          assert shorter[..|rest|] == rest && Concat(rest) + stem == front;
          GreedyAhead(size, limit, front, shorter);
          AheadOfLongerPart(size, limit, cs, parts, shorter);
        }
      }
    }
  }

  lemma AheadOfEmptyPart(size: Size, limit: int, cs: seq<Candidate>, parts: seq<seq<Candidate>>)
    requires Monotone(size) && cs != [] && parts != [] && parts[|parts| - 1] == []
    requires IsSplit(size, limit, cs, parts)
    requires Ahead(size, limit, cs, parts[..|parts| - 1])
    ensures Ahead(size, limit, cs, parts)
  {
  }

  lemma AheadOfNewPart(size: Size, limit: int, cs: seq<Candidate>, parts: seq<seq<Candidate>>)
    requires Monotone(size) && cs != [] && parts != []
    requires parts[|parts| - 1] == [cs[|cs| - 1]]
    requires Ahead(size, limit, cs[..|cs| - 1], parts[..|parts| - 1])
    ensures Ahead(size, limit, cs, parts)
  {
    var c := cs[|cs| - 1];
    var p := Pack(size, limit, cs[..|cs| - 1]);
    if !Fits(size, limit, [c]) {
      CurrentIsSuffix(size, limit, cs);
    }
  }

  lemma AheadOfLongerPart(size: Size, limit: int, cs: seq<Candidate>, parts: seq<seq<Candidate>>, shorter: seq<seq<Candidate>>)
    requires Monotone(size) && cs != [] && parts != [] && |shorter| == |parts|
    requires shorter[..|parts| - 1] == parts[..|parts| - 1]
    requires var stem := shorter[|parts| - 1];
             stem != [] && parts[|parts| - 1] == stem + [cs[|cs| - 1]]
             && Fits(size, limit, stem) && Fits(size, limit, parts[|parts| - 1])
    requires IsSplit(size, limit, cs[..|cs| - 1], shorter)
    requires Ahead(size, limit, cs[..|cs| - 1], shorter)
    ensures Ahead(size, limit, cs, parts)
  {
    var front, c := cs[..|cs| - 1], cs[|cs| - 1];
    var stem := shorter[|parts| - 1];
    var p := Pack(size, limit, front);
    CurrentIsSuffix(size, limit, front);
    assert Requests(size, limit, parts) == Requests(size, limit, shorter);
    assert front == Concat(parts[..|parts| - 1]) + stem;
    if |p.current| <= |stem| {
      assert p.current == stem[|stem| - |p.current|..];
      var before := stem[..|stem| - |p.current|];
      assert before + (p.current + [c]) + [] == stem + [c];
      PartFits(size, limit, before, p.current + [c], []);
    }
    if p.current == [] {
      assert front[|front| - 1] == stem[|stem| - 1];
      var init := stem[..|stem| - 1];
      assert init + [front[|front| - 1]] + [] == stem;
      PartFits(size, limit, init, [front[|front| - 1]], []);
    }
  }

  /** Greedy packing is optimal: no order-preserving split makes fewer
      requests, among all splits that like it never reach across a candidate
      too big for any request. */
  lemma GreedyIsOptimal(size: Size, limit: int, cs: seq<Candidate>, parts: seq<seq<Candidate>>)
    requires Monotone(size) && IsSplit(size, limit, cs, parts)
    ensures |Flush(Pack(size, limit, cs)).requests| <= Requests(size, limit, parts)
  {
    GreedyAhead(size, limit, cs, parts);
  }

  lemma {:induction false} RequestsAtMostParts(size: Size, limit: int, parts: seq<seq<Candidate>>)
    ensures Requests(size, limit, parts) <= |parts|
  {
    if parts != [] {
      RequestsAtMostParts(size, limit, parts[..|parts| - 1]);
    }
  }

  /** When every candidate fits alone nothing is skipped, and the plan is the
      shortest of all order-preserving splits within the limit. */
  lemma GreedyIsShortest(size: Size, limit: int, cs: seq<Candidate>, parts: seq<seq<Candidate>>)
    requires Monotone(size) && forall c :: c in cs ==> Fits(size, limit, [c])
    requires Concat(parts) == cs && forall i :: 0 <= i < |parts| ==> Fits(size, limit, parts[i])
    ensures var p := Flush(Pack(size, limit, cs));
            p.selected == cs && p.skipped == [] && |p.requests| <= |parts|
  {
    PackSound(size, limit, cs);
    var p := Pack(size, limit, cs);
    AllSelected(cs, p.selected, p.skipped);
    GreedyIsOptimal(size, limit, cs, parts);
    RequestsAtMostParts(size, limit, parts);
  }

  lemma {:induction false} InterleavesMembers(whole: seq<Candidate>, a: seq<Candidate>, b: seq<Candidate>)
    requires Interleaves(whole, a, b)
    ensures |whole| == |a| + |b| && (b == [] ==> a == whole) && forall c :: c in b ==> c in whole
    decreases |whole|
  {
    if whole != [] {
      var front, last := whole[..|whole| - 1], whole[|whole| - 1];
      assert whole == front + [last];
      if a != [] && a[|a| - 1] == last && Interleaves(front, a[..|a| - 1], b) {
        InterleavesMembers(front, a[..|a| - 1], b);
        assert a == a[..|a| - 1] + [last];
      } else {
        InterleavesMembers(front, a, b[..|b| - 1]);
        assert b == b[..|b| - 1] + [last];
      }
    }
  }

  lemma AllSelected(cs: seq<Candidate>, selected: seq<Candidate>, skipped: seq<Candidate>)
    requires Interleaves(cs, selected, skipped) && forall c :: c in skipped ==> c !in cs
    ensures selected == cs && skipped == []
  {
    InterleavesMembers(cs, selected, skipped);
    SomeMember(skipped);
  }

  lemma SomeMember(cs: seq<Candidate>)
    ensures cs == [] || exists c :: c in cs
  {
    if cs != [] {
      assert cs[0] in cs;
    }
  }

  /** So is the plan of the candidates that are seen. */
  lemma PlanIsShortest(size: Size, limit: int, maxJudged: int, candidates: seq<Candidate>, parts: seq<seq<Candidate>>)
    requires Monotone(size) && Concat(parts) == candidates[..Seen(maxJudged, candidates)]
    requires forall c :: c in candidates && limit > 0 ==> size([c]) <= limit
    requires forall i :: 0 <= i < |parts| && limit > 0 ==> size(parts[i]) <= limit
    ensures var plan := PlanOf(size, limit, maxJudged, candidates);
            |plan.requests| <= |parts| && plan.promptSkippedRoots == []
            && plan.selectedRoots == Roots(candidates)[..Seen(maxJudged, candidates)]
  {
    var n := Seen(maxJudged, candidates);
    SeenIsUntruncated(maxJudged, candidates);
    GreedyIsShortest(size, limit, candidates[..n], parts);
    assert Roots(candidates[..n]) == Roots(candidates)[..n];
  }
}
