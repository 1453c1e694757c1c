/** Breadth-first search over any graph: what a queue of items at their true
    distances promises. */
module BreadthFirst {

  datatype Item = Item(url: string, depth: int)

  datatype Graph = Graph(start: string -> bool, edge: (string, string) -> bool)

  /** v is at most n edges from a start. */
  ghost predicate Within(g: Graph, n: nat, v: string) {
    if n == 0 then g.start(v)
    else Within(g, n - 1, v) || exists u :: Within(g, n - 1, u) && g.edge(u, v)
  }

  /** The shortest distance of v from a start is d. */
  ghost predicate Distance(g: Graph, v: string, d: int) {
    d >= 0 && Within(g, d, v) && (d > 0 ==> !Within(g, d - 1, v))
  }

  lemma {:induction false} WithinMonotone(g: Graph, m: nat, n: nat, v: string)
    requires m <= n && Within(g, m, v)
    ensures Within(g, n, v)
    decreases n - m
  {
    if m < n {
      WithinMonotone(g, m, n - 1, v);
    }
  }

  lemma DistanceAtMost(g: Graph, v: string, d: int, n: nat)
    requires Distance(g, v, d) && Within(g, n, v)
    ensures d <= n
  {
    if d > n {
      WithinMonotone(g, n, d - 1, v);
    }
  }

  /** A vertex at distance d > 0 is one edge from a vertex at distance d - 1. */
  lemma Predecessor(g: Graph, v: string, d: int) returns (u: string)
    requires Distance(g, v, d) && d > 0
    ensures Distance(g, u, d - 1) && g.edge(u, v)
  {
    u :| Within(g, d - 1, u) && g.edge(u, v);
  }

  // ----- visited and queued items -----

  ghost predicate DistinctURLs(items: seq<Item>) {
    forall i, j :: 0 <= i < j < |items| ==> items[i].url != items[j].url
  }

  ghost predicate HasURL(items: seq<Item>, url: string) {
    exists i :: 0 <= i < |items| && items[i].url == url
  }

  ghost predicate Exact(g: Graph, items: seq<Item>) {
    forall i :: 0 <= i < |items| ==> Distance(g, items[i].url, items[i].depth)
  }

  ghost predicate DepthLimited(items: seq<Item>, maxDepth: int) {
    forall i :: 0 <= i < |items| && items[i].depth > 0 ==> items[i].depth <= maxDepth
  }

  ghost predicate Rising(items: seq<Item>) {
    forall i, j :: 0 <= i < j < |items| ==> items[i].depth <= items[j].depth
  }

  /** From head on, depths differ by at most one. */
  ghost predicate Narrow(items: seq<Item>, head: int) {
    forall i :: 0 <= head <= i < |items| ==> items[i].depth <= items[head].depth + 1
  }

  /** Each URL once, at its true distance, depths never falling, and at most
      one apart from head on. */
  ghost predicate Layered(g: Graph, items: seq<Item>, head: int, maxDepth: int) {
    && 0 <= head <= |items|
    && DistinctURLs(items) && Exact(g, items) && DepthLimited(items, maxDepth) && Rising(items) && Narrow(items, head)
  }

  ghost predicate HasStarts(g: Graph, items: seq<Item>) {
    forall u :: g.start(u) ==> HasURL(items, u)
  }

  /** Every target of the first head items above the depth limit is present. */
  ghost predicate Expanded(g: Graph, items: seq<Item>, head: int, maxDepth: int) {
    forall i, v :: 0 <= i < head <= |items| && items[i].depth < maxDepth && g.edge(items[i].url, v) ==> HasURL(items, v)
  }

  ghost predicate Searching(g: Graph, items: seq<Item>, head: int, maxDepth: int) {
    Layered(g, items, head, maxDepth) && HasStarts(g, items) && Expanded(g, items, head, maxDepth)
  }

  lemma HasURLAppend(items: seq<Item>, more: seq<Item>)
    ensures forall u :: HasURL(items + more, u) <==> HasURL(items, u) || HasURL(more, u)
  {
    forall u ensures HasURL(items + more, u) <==> HasURL(items, u) || HasURL(more, u) {
      if i :| 0 <= i < |items| && items[i].url == u {
        assert (items + more)[i].url == u;
      }
      if i :| 0 <= i < |more| && more[i].url == u {
        assert (items + more)[|items| + i].url == u;
      }
    }
  }

  lemma HasItem(item: Item)
    ensures forall u :: HasURL([item], u) <==> u == item.url
  {
    assert [item][0].url == item.url;
  }

  /** When the head of the queue stands at depth n, or the queue is empty,
      everything within n edges has been queued. */
  lemma {:induction false} Reached(g: Graph, items: seq<Item>, head: int, maxDepth: int, n: nat, v: string)
    requires Searching(g, items, head, maxDepth)
    requires if head < |items| then n <= items[head].depth else n == 0 || n <= maxDepth
    requires Within(g, n, v)
    ensures HasURL(items, v)
  {
    if n == 0 {
    } else if Within(g, n - 1, v) {
      Reached(g, items, head, maxDepth, n - 1, v);
    } else {
      var u :| Within(g, n - 1, u) && g.edge(u, v);
      Reached(g, items, head, maxDepth, n - 1, u);
      var i :| 0 <= i < |items| && items[i].url == u;
      DistanceAtMost(g, u, items[i].depth, n - 1);
      assert i < head;
      assert items[i].depth < maxDepth by {
        if head < |items| {
          assert items[head].depth <= maxDepth;
        }
      }
    }
  }

  /** A target nobody queued yet lies one edge beyond the head. */
  lemma TargetDistance(g: Graph, items: seq<Item>, head: int, maxDepth: int, v: string)
    requires Searching(g, items, head, maxDepth) && head < |items|
    requires g.edge(items[head].url, v) && !HasURL(items, v)
    ensures Distance(g, v, items[head].depth + 1)
  {
    var d := items[head].depth;
    assert Distance(g, items[head].url, d);
    if Within(g, d, v) {
      Reached(g, items, head, maxDepth, d, v);
    }
    assert Within(g, d + 1, v);
  }

  /** So it may be queued at the back. */
  lemma QueueTarget(g: Graph, items: seq<Item>, head: int, maxDepth: int, v: string)
    requires Searching(g, items, head, maxDepth) && head < |items|
    requires items[head].depth < maxDepth && g.edge(items[head].url, v) && !HasURL(items, v)
    ensures var next := items + [Item(v, items[head].depth + 1)];
            Searching(g, next, head, maxDepth) && forall u :: HasURL(next, u) <==> HasURL(items, u) || u == v
  {
    TargetDistance(g, items, head, maxDepth, v);
    var item := Item(v, items[head].depth + 1);
    var next := items + [item];
    HasURLAppend(items, [item]);
    HasItem(item);
    forall i | 0 <= i < |items| ensures items[i].url != v && items[i].depth <= item.depth {
      if i < head {
        assert items[i].depth <= items[head].depth;
      }
    }
    assert Distance(g, items[head].url, items[head].depth);
  }

  /** The head counts as visited once its own targets are present. */
  lemma HeadDone(g: Graph, items: seq<Item>, head: int, maxDepth: int)
    requires Searching(g, items, head, maxDepth) && head < |items|
    requires items[head].depth < maxDepth ==> forall v :: g.edge(items[head].url, v) ==> HasURL(items, v)
    ensures Searching(g, items, head + 1, maxDepth)
  {
    if head + 1 < |items| {
      assert items[head].depth <= items[head + 1].depth;
    }
  }

  lemma LayeredPrefix(g: Graph, visits: seq<Item>, queue: seq<Item>, maxDepth: int)
    requires Layered(g, visits + queue, |visits|, maxDepth)
    ensures Layered(g, visits, |visits|, maxDepth)
  {
    assert forall i :: 0 <= i < |visits| ==> (visits + queue)[i] == visits[i];
  }

  /** With the queue empty, the visits are exactly what lies within reach, each
      at its distance. */
  lemma EmptyQueueIsComplete(g: Graph, visits: seq<Item>, maxDepth: int)
    requires Searching(g, visits, |visits|, maxDepth)
    ensures forall v, d :: Distance(g, v, d) && (d == 0 || d <= maxDepth) ==> Item(v, d) in visits
  {
    forall v, d | Distance(g, v, d) && (d == 0 || d <= maxDepth) ensures Item(v, d) in visits {
      Reached(g, visits, |visits|, maxDepth, d, v);
      var i :| 0 <= i < |visits| && visits[i].url == v;
      DistanceAtMost(g, v, d, visits[i].depth);
      DistanceAtMost(g, v, visits[i].depth, d);
      assert visits[i] == Item(v, d);
    }
  }

  /** The head of the queue has not been visited. */
  lemma HeadIsUnvisited(visits: seq<Item>, queue: seq<Item>)
    requires DistinctURLs(visits + queue) && queue != []
    ensures !HasURL(visits, queue[0].url)
  {
    assert (visits + queue)[|visits|] == queue[0];
    forall i | 0 <= i < |visits| ensures visits[i].url != queue[0].url {
      assert (visits + queue)[i] == visits[i];
    }
  }
}
