/** One seed's crawl: a breadth-first search under a page and a depth budget
    (internal/collect/crawler_collector.go, crawlSeed). */
module Crawl {
  import opened Text
  import opened BreadthFirst

  // ----- pages and links -----

  datatype Link = Link(
    sourceURL: string,
    targetURL: string,
    targetHost: string,
    targetRoot: string,
    relation: string,
    anchorText: string)

  datatype Page = Page(url: string, finalURL: string, links: seq<Link>)

  datatype Fetch = FetchFails(error: string) | NoPage | Fetched(page: Page)

  /** The network and the URL helpers. No URL is fetched twice in one crawl,
      so what a fetch returns may be taken as a function of the URL. */
  datatype Web = Web(
    fetch: string -> Fetch,
    normalizeURL: string -> string,
    host: string -> string,
    normalizeDomain: string -> string,
    registrable: string -> string,
    shouldFollow: string -> bool,
    accepted: string -> bool)

  datatype Request = Request(startURLs: seq<string>, scopeRoots: set<string>, maxDepth: int, maxPages: int)

  function FirstNonEmpty(values: seq<string>): string {
    if values == [] then ""
    else if Trim(values[0]) != "" then Trim(values[0])
    else FirstNonEmpty(values[1..])
  }

  function FinalURL(web: Web, url: string, page: Page): string {
    web.normalizeURL(FirstNonEmpty([page.finalURL, page.url, url]))
  }

  function Resolve(web: Web, finalURL: string, link: Link): Link {
    var targetURL := web.normalizeURL(link.targetURL);
    var targetHost := web.normalizeDomain(FirstNonEmpty([link.targetHost, web.host(targetURL)]));
    link.(
      sourceURL := web.normalizeURL(FirstNonEmpty([link.sourceURL, finalURL])),
      targetURL := targetURL,
      targetHost := targetHost,
      targetRoot := web.normalizeDomain(FirstNonEmpty([link.targetRoot, web.registrable(targetHost)])))
  }

  predicate Usable(l: Link) {
    l.targetURL != "" && l.targetRoot != ""
  }

  predicate Internal(r: Request, l: Link) {
    Usable(l) && l.targetRoot in r.scopeRoots
  }

  predicate Outbound(r: Request, l: Link) {
    Usable(l) && l.targetRoot !in r.scopeRoots
  }

  predicate Followed(web: Web, r: Request, l: Link) {
    Internal(r, l) && web.shouldFollow(l.targetURL)
  }

  // ----- what visiting one URL contributes -----

  predicate LeavesScope(web: Web, r: Request, url: string, page: Page) {
    var root := web.registrable(web.host(FinalURL(web, url, page)));
    root != "" && root !in r.scopeRoots
  }

  function ResolveAll(web: Web, finalURL: string, links: seq<Link>): (resolved: seq<Link>)
    ensures |resolved| == |links|
    ensures forall i :: 0 <= i < |links| ==> resolved[i] == Resolve(web, finalURL, links[i])
  {
    seq(|links|, i requires 0 <= i < |links| => Resolve(web, finalURL, links[i]))
  }

  /** The links a visit reads: none when the fetch fails, yields no page or
      was redirected out of scope. */
  function LinksAt(web: Web, r: Request, url: string): seq<Link> {
    match web.fetch(url)
    case Fetched(page) => if LeavesScope(web, r, url, page) then [] else ResolveAll(web, FinalURL(web, url, page), page.links)
    case _ => []
  }

  function LinkHosts(web: Web, r: Request, links: seq<Link>): set<string> {
    set i | 0 <= i < |links| && Internal(r, links[i]) && links[i].targetHost != ""
            && links[i].targetHost != links[i].targetRoot && web.accepted(links[i].targetHost)
            :: links[i].targetHost
  }

  function PageHosts(web: Web, r: Request, url: string, page: Page): set<string> {
    var host := web.host(FinalURL(web, url, page));
    var root := web.registrable(host);
    if host != "" && root != "" && root in r.scopeRoots && host != root then {host} else {}
  }

  function HostsAt(web: Web, r: Request, url: string): set<string> {
    match web.fetch(url)
    case Fetched(page) => PageHosts(web, r, url, page) + LinkHosts(web, r, LinksAt(web, r, url))
    case _ => {}
  }

  function OutboundLinks(r: Request, links: seq<Link>): seq<Link> {
    if links == [] then []
    else OutboundLinks(r, links[..|links| - 1]) + if Outbound(r, links[|links| - 1]) then [links[|links| - 1]] else []
  }

  function RedirectLink(web: Web, url: string, page: Page): Link {
    var finalURL := FinalURL(web, url, page);
    Link(url, finalURL, web.host(finalURL), web.registrable(web.host(finalURL)), "redirect", "")
  }

  /** The links a visit captures: the redirect, or its outbound links. */
  function CapturesAt(web: Web, r: Request, url: string): seq<Link> {
    match web.fetch(url)
    case Fetched(page) =>
      if LeavesScope(web, r, url, page) then [RedirectLink(web, url, page)]
      else OutboundLinks(r, LinksAt(web, r, url))
    case _ => []
  }

  function HostsOf(web: Web, r: Request, visits: seq<Item>): set<string> {
    if visits == [] then {} else HostsOf(web, r, visits[..|visits| - 1]) + HostsAt(web, r, visits[|visits| - 1].url)
  }

  function CapturesOf(web: Web, r: Request, visits: seq<Item>): seq<Link> {
    if visits == [] then [] else CapturesOf(web, r, visits[..|visits| - 1]) + CapturesAt(web, r, visits[|visits| - 1].url)
  }

  function ErrorsOf(web: Web, visits: seq<Item>): seq<string> {
    if visits == [] then []
    else ErrorsOf(web, visits[..|visits| - 1])
         + match web.fetch(visits[|visits| - 1].url) case FetchFails(e) => [e] case _ => []
  }

  function PagesOf(web: Web, visits: seq<Item>): nat {
    if visits == [] then 0
    else PagesOf(web, visits[..|visits| - 1]) + if web.fetch(visits[|visits| - 1].url).Fetched? then 1 else 0
  }

  // ----- candidates per outbound root -----

  datatype RootCandidate = RootCandidate(
    root: string,
    observations: nat,
    samples: seq<Link>,
    sampleKeys: set<string>,
    referrers: set<string>,
    relations: set<string>)

  function CaptureRoot(web: Web, l: Link): string {
    if web.registrable(l.targetRoot) != "" then web.registrable(l.targetRoot) else web.registrable(l.targetHost)
  }

  function SampleKey(l: Link): string {
    Norm(l.sourceURL) + "|" + Norm(l.targetURL) + "|" + Norm(l.anchorText)
  }

  function Observe(c: RootCandidate, l: Link, maxSamples: int): RootCandidate {
    var counted := c.(
      observations := c.observations + 1,
      referrers := if l.sourceURL != "" then c.referrers + {l.sourceURL} else c.referrers,
      relations := if Norm(l.relation) != "" then c.relations + {Norm(l.relation)} else c.relations);
    if SampleKey(l) in c.sampleKeys then counted
    else
      var keyed := counted.(sampleKeys := c.sampleKeys + {SampleKey(l)});
      if maxSamples > 0 && |c.samples| >= maxSamples then keyed else keyed.(samples := c.samples + [l])
  }

  type Candidates = map<string, RootCandidate>

  function Capture(web: Web, m: Candidates, l: Link, maxSamples: int): Candidates {
    var root := CaptureRoot(web, l);
    if root == "" then m
    else m[root := Observe(if root in m then m[root] else RootCandidate(root, 0, [], {}, {}, {}), l, maxSamples)]
  }

  function CaptureAll(web: Web, m: Candidates, links: seq<Link>, maxSamples: int): Candidates {
    if links == [] then m
    else Capture(web, CaptureAll(web, m, links[..|links| - 1], maxSamples), links[|links| - 1], maxSamples)
  }

  // ----- the followed graph -----

  ghost predicate Edge(web: Web, r: Request, u: string, v: string) {
    exists i :: 0 <= i < |LinksAt(web, r, u)| && Followed(web, r, LinksAt(web, r, u)[i]) && LinksAt(web, r, u)[i].targetURL == v
  }

  ghost predicate Start(r: Request, u: string) {
    u != "" && u in r.startURLs
  }

  /** Start URLs, and the in-scope links of in-scope pages worth following. */
  ghost function Site(web: Web, r: Request): Graph {
    Graph(u => Start(r, u), (u, v) => Edge(web, r, u, v))
  }

  /** What a crawl's list of visits is: every URL once, in order of its true
      distance, within the budgets; and everything within reach when the
      queue ran dry before the page budget did. */
  ghost predicate IsCrawl(web: Web, r: Request, visits: seq<Item>, exhausted: bool) {
    && Layered(Site(web, r), visits, |visits|, r.maxDepth)
    && (exhausted ==> forall v, d :: Distance(Site(web, r), v, d) && (d == 0 || d <= r.maxDepth) ==> Item(v, d) in visits)
    && PagesOf(web, visits) <= (if r.maxPages < 0 then 0 else r.maxPages)
    && (!exhausted ==> PagesOf(web, visits) >= r.maxPages)
  }

  // ----- appending one visit -----

  lemma VisitAppend(web: Web, r: Request, visits: seq<Item>, item: Item)
    ensures HostsOf(web, r, visits + [item]) == HostsOf(web, r, visits) + HostsAt(web, r, item.url)
    ensures CapturesOf(web, r, visits + [item]) == CapturesOf(web, r, visits) + CapturesAt(web, r, item.url)
    ensures ErrorsOf(web, visits + [item])
            == ErrorsOf(web, visits) + match web.fetch(item.url) case FetchFails(e) => [e] case _ => []
    ensures PagesOf(web, visits + [item]) == PagesOf(web, visits) + if web.fetch(item.url).Fetched? then 1 else 0
  {
    assert (visits + [item])[..|visits|] == visits;
  }

  lemma {:induction false} CaptureAllAppend(web: Web, m: Candidates, a: seq<Link>, b: seq<Link>, maxSamples: int)
    ensures CaptureAll(web, m, a + b, maxSamples) == CaptureAll(web, CaptureAll(web, m, a, maxSamples), b, maxSamples)
  {
    if b == [] {
      assert a + b == a;
    } else {
      var front := b[..|b| - 1];
      CaptureAllAppend(web, m, a, front, maxSamples);
      assert (a + b)[..|a + b| - 1] == a + front && (a + b)[|a + b| - 1] == b[|b| - 1];
    }
  }

  /** The variables of the crawl's loop. */
  datatype Search = Search(
    queue: seq<Item>,
    visited: set<string>,
    queued: set<string>,
    internalHosts: set<string>,
    outbound: Candidates,
    errors: seq<string>,
    pagesFetched: int)

  /** The search while the targets of item, the last one dequeued, join it. */
  ghost predicate Expanding(web: Web, r: Request, before: seq<Item>, item: Item, s: Search) {
    && Searching(Site(web, r), before + [item] + s.queue, |before|, r.maxDepth)
    && (forall u :: u in s.queued <==> HasURL(before + [item] + s.queue, u))
    && s.visited <= s.queued
  }

  /** From s0 to s, after the given links of the page at item. */
  ghost predicate Reading(web: Web, r: Request, maxSamples: int, links: seq<Link>, before: seq<Item>, item: Item,
                          s0: Search, s: Search) {
    && Expanding(web, r, before, item, s)
    && s0.queued <= s.queued
    && (item.depth < r.maxDepth ==> AllFollowedIn(web, r, links, s.queued))
    && s == s0.(queue := s.queue, queued := s.queued,
                internalHosts := s0.internalHosts + LinkHosts(web, r, links),
                outbound := CaptureAll(web, s0.outbound, OutboundLinks(r, links), maxSamples))
  }

  /** The links of one in-scope page: hosts noted, targets queued, outbound
      links captured. */
  method FollowLinks(web: Web, r: Request, maxSamples: int, page: Page, s0: Search, item: Item, ghost before: seq<Item>)
    returns (s: Search)
    requires web.fetch(item.url) == Fetched(page) && !LeavesScope(web, r, item.url, page)
    requires Expanding(web, r, before, item, s0)
    ensures Reading(web, r, maxSamples, LinksAt(web, r, item.url), before, item, s0, s)
    ensures item.depth < r.maxDepth ==> forall v :: Site(web, r).edge(item.url, v) ==> v in s.queued
  {
    s := s0;
    var finalURL := FinalURL(web, item.url, page);
    ghost var links := LinksAt(web, r, item.url);
    for i := 0 to |page.links|
      invariant Reading(web, r, maxSamples, links[..i], before, item, s0, s)
    {
      ghost var s1 := s;
      s := FollowLink(web, r, maxSamples, Resolve(web, finalURL, page.links[i]), s, item, i, before);
      ReadNext(web, r, maxSamples, links, i, before, item, s0, s1, s);
    }
    assert links[..|page.links|] == links;
    if item.depth < r.maxDepth {
      TargetsQueued(web, r, item.url, s.queued);
    }
  }

  /** What following one more link adds to what was read. */
  lemma ReadNext(web: Web, r: Request, maxSamples: int, links: seq<Link>, i: int, before: seq<Item>, item: Item,
                 s0: Search, s1: Search, s: Search)
    requires 0 <= i < |links| && Reading(web, r, maxSamples, links[..i], before, item, s0, s1)
    requires Expanding(web, r, before, item, s) && FollowedBy(web, r, maxSamples, links[i], item, s1, s)
    ensures Reading(web, r, maxSamples, links[..i + 1], before, item, s0, s)
  {
    LinkHostsAppend(web, r, links, i);
    OutboundAppend(web, r, links, i, s0.outbound, maxSamples);
    if item.depth < r.maxDepth {
      AllFollowedNext(web, r, links, i, s1.queued, s.queued);
    }
  }

  ghost predicate AllFollowedIn(web: Web, r: Request, links: seq<Link>, queued: set<string>) {
    forall j :: 0 <= j < |links| && Followed(web, r, links[j]) ==> links[j].targetURL in queued
  }

  lemma AllFollowedNext(web: Web, r: Request, links: seq<Link>, i: int, queued: set<string>, more: set<string>)
    requires 0 <= i < |links| && AllFollowedIn(web, r, links[..i], queued) && queued <= more
    requires Followed(web, r, links[i]) ==> links[i].targetURL in more
    ensures AllFollowedIn(web, r, links[..i + 1], more)
  {
    assert forall j :: 0 <= j < i ==> links[..i + 1][j] == links[..i][j];
  }

  lemma TargetsQueued(web: Web, r: Request, u: string, queued: set<string>)
    requires AllFollowedIn(web, r, LinksAt(web, r, u), queued)
    ensures forall v :: Site(web, r).edge(u, v) ==> v in queued
  {
    forall v | Site(web, r).edge(u, v) ensures v in queued {
      assert Edge(web, r, u, v);
    }
  }

  /** From s0 to s, over one link of the page at item. */
  ghost predicate FollowedBy(web: Web, r: Request, maxSamples: int, link: Link, item: Item, s0: Search, s: Search) {
    && s0.queued <= s.queued
    && (item.depth < r.maxDepth && Followed(web, r, link) ==> link.targetURL in s.queued)
    && s == s0.(
         queue := s.queue,
         queued := s.queued,
         internalHosts := s0.internalHosts
                          + (if Internal(r, link) && link.targetHost != "" && link.targetHost != link.targetRoot
                                && web.accepted(link.targetHost) then {link.targetHost} else {}),
         outbound := if Outbound(r, link) then Capture(web, s0.outbound, link, maxSamples) else s0.outbound)
  }

  /** One resolved link of the page at item. */
  method FollowLink(web: Web, r: Request, maxSamples: int, link: Link, s0: Search, item: Item,
                    ghost i: int, ghost before: seq<Item>)
    returns (s: Search)
    requires 0 <= i < |LinksAt(web, r, item.url)| && LinksAt(web, r, item.url)[i] == link
    requires Expanding(web, r, before, item, s0)
    ensures Expanding(web, r, before, item, s) && FollowedBy(web, r, maxSamples, link, item, s0, s)
  {
    s := s0;
    if link.targetURL == "" || link.targetRoot == "" {
      return;
    }
    if link.targetRoot in r.scopeRoots {
      s := FollowInternal(web, r, link, s0, item, i, before);
      return;
    }
    s := s.(outbound := Capture(web, s.outbound, link, maxSamples));
  }

  /** A link that stays in scope. */
  method FollowInternal(web: Web, r: Request, link: Link, s0: Search, item: Item, ghost i: int, ghost before: seq<Item>)
    returns (s: Search)
    requires 0 <= i < |LinksAt(web, r, item.url)| && LinksAt(web, r, item.url)[i] == link && Internal(r, link)
    requires Expanding(web, r, before, item, s0)
    ensures Expanding(web, r, before, item, s) && s0.queued <= s.queued
    ensures item.depth < r.maxDepth && web.shouldFollow(link.targetURL) ==> link.targetURL in s.queued
    ensures s == s0.(
                   queue := s.queue,
                   queued := s.queued,
                   internalHosts := if link.targetHost != "" && link.targetHost != link.targetRoot && web.accepted(link.targetHost)
                                    then s0.internalHosts + {link.targetHost} else s0.internalHosts)
  {
    s := s0;
    if link.targetHost != "" && link.targetHost != link.targetRoot && web.accepted(link.targetHost) {
      s := s.(internalHosts := s.internalHosts + {link.targetHost});
    }
    if item.depth < r.maxDepth && web.shouldFollow(link.targetURL) {
      if link.targetURL !in s.visited {
        if link.targetURL !in s.queued {
          assert Edge(web, r, item.url, link.targetURL);
          var queue, queued := Enqueue(Site(web, r), r.maxDepth, link.targetURL, s.queue, s.queued, item, before);
          s := s.(queue := queue, queued := queued);
        }
      }
    }
  }

  method Enqueue(ghost g: Graph, ghost maxDepth: int, url: string, queue0: seq<Item>, queued0: set<string>,
                 item: Item, ghost before: seq<Item>)
    returns (queue: seq<Item>, queued: set<string>)
    requires Searching(g, before + [item] + queue0, |before|, maxDepth)
    requires forall u :: u in queued0 <==> HasURL(before + [item] + queue0, u)
    requires item.depth < maxDepth && g.edge(item.url, url) && url !in queued0
    ensures Searching(g, before + [item] + queue, |before|, maxDepth)
    ensures forall u :: u in queued <==> HasURL(before + [item] + queue, u)
    ensures queued == queued0 + {url} && queue == queue0 + [Item(url, item.depth + 1)]
  {
    ghost var items := before + [item] + queue0;
    assert items[|before|] == item;
    QueueTarget(g, items, |before|, maxDepth, url);
    queued := queued0 + {url};
    queue := queue0 + [Item(url, item.depth + 1)];
    assert before + [item] + queue == items + [Item(url, item.depth + 1)];
  }

  lemma LinkHostsAppend(web: Web, r: Request, links: seq<Link>, i: int)
    requires 0 <= i < |links|
    ensures var l := links[i];
            LinkHosts(web, r, links[..i + 1])
            == LinkHosts(web, r, links[..i])
               + if Internal(r, l) && l.targetHost != "" && l.targetHost != l.targetRoot && web.accepted(l.targetHost)
                 then {l.targetHost} else {}
  {
    var a, b := links[..i], links[..i + 1];
    forall j | 0 <= j < i ensures b[j] == a[j] {}
    assert b[i] == links[i];
  }

  lemma OutboundAppend(web: Web, r: Request, links: seq<Link>, i: int, m: Candidates, maxSamples: int)
    requires 0 <= i < |links|
    ensures CaptureAll(web, m, OutboundLinks(r, links[..i + 1]), maxSamples)
            == var before := CaptureAll(web, m, OutboundLinks(r, links[..i]), maxSamples);
               if Outbound(r, links[i]) then Capture(web, before, links[i], maxSamples) else before
  {
    assert links[..i + 1][..i] == links[..i];
    var out := OutboundLinks(r, links[..i]);
    CaptureAllAppend(web, m, out, [links[i]], maxSamples);
    CaptureOne(web, CaptureAll(web, m, out, maxSamples), links[i], maxSamples);
    assert out + [] == out;
  }

  lemma CaptureOne(web: Web, m: Candidates, l: Link, maxSamples: int)
    ensures CaptureAll(web, m, [l], maxSamples) == Capture(web, m, l, maxSamples)
  {
    assert [l][..0] == [];
  }

  method StartQueue(web: Web, r: Request) returns (queue: seq<Item>, queued: set<string>)
    ensures Searching(Site(web, r), queue, 0, r.maxDepth)
    ensures forall u :: u in queued <==> HasURL(queue, u)
  {
    queue, queued := [], {};
    for i := 0 to |r.startURLs|
      invariant DistinctURLs(queue)
      invariant forall j :: 0 <= j < |queue| ==> queue[j].depth == 0 && Start(r, queue[j].url)
      invariant forall u :: u in queued <==> HasURL(queue, u)
      invariant forall j :: 0 <= j < i && r.startURLs[j] != "" ==> r.startURLs[j] in queued
    {
      var startURL := r.startURLs[i];
      if startURL == "" {
        continue;
      }
      if startURL in queued {
        continue;
      }
      HasURLAppend(queue, [Item(startURL, 0)]);
      HasItem(Item(startURL, 0));
      queued := queued + {startURL};
      queue := queue + [Item(startURL, 0)];
    }
  }

  /** From s0 to s, over one dequeued item. */
  ghost predicate VisitedBy(web: Web, r: Request, maxSamples: int, item: Item, s0: Search, s: Search) {
    && s == s0.(
         queue := s.queue,
         queued := s.queued,
         internalHosts := s0.internalHosts + HostsAt(web, r, item.url),
         outbound := CaptureAll(web, s0.outbound, CapturesAt(web, r, item.url), maxSamples),
         errors := s0.errors + (match web.fetch(item.url) case FetchFails(e) => [e] case _ => []),
         pagesFetched := s0.pagesFetched + if web.fetch(item.url).Fetched? then 1 else 0)
    && (!web.fetch(item.url).Fetched? ==> s.queue == s0.queue)
  }

  /** One dequeued item, fetched and read. */
  method Visit(web: Web, r: Request, maxSamples: int, s0: Search, item: Item, ghost before: seq<Item>)
    returns (s: Search)
    requires Expanding(web, r, before, item, s0)
    ensures Searching(Site(web, r), before + [item] + s.queue, |before + [item]|, r.maxDepth)
    ensures forall u :: u in s.queued <==> HasURL(before + [item] + s.queue, u)
    ensures VisitedBy(web, r, maxSamples, item, s0, s)
  {
    s := s0;
    assert (before + [item] + s0.queue)[|before|] == item;
    match web.fetch(item.url) {
      case FetchFails(error) =>
        s := s.(errors := s.errors + [error]);
      case NoPage =>
      case Fetched(page) =>
        s := VisitPage(web, r, maxSamples, page, s0, item, before);
    }
    assert (before + [item] + s.queue)[|before|] == item;
    HeadDone(Site(web, r), before + [item] + s.queue, |before|, r.maxDepth);
  }

  lemma PageLeft(web: Web, r: Request, url: string, page: Page)
    requires web.fetch(url) == Fetched(page) && LeavesScope(web, r, url, page)
    ensures HostsAt(web, r, url) == PageHosts(web, r, url, page)
    ensures CapturesAt(web, r, url) == [RedirectLink(web, url, page)]
    ensures forall v :: !Site(web, r).edge(url, v)
  {
    assert LinksAt(web, r, url) == [];
    assert LinkHosts(web, r, []) == {};
  }

  lemma PageRead(web: Web, r: Request, url: string, page: Page)
    requires web.fetch(url) == Fetched(page) && !LeavesScope(web, r, url, page)
    ensures HostsAt(web, r, url) == PageHosts(web, r, url, page) + LinkHosts(web, r, LinksAt(web, r, url))
    ensures CapturesAt(web, r, url) == OutboundLinks(r, LinksAt(web, r, url))
  {
  }

  /** The page counted, and its own host noted. */
  function Noted(web: Web, r: Request, url: string, page: Page, s: Search): Search {
    s.(pagesFetched := s.pagesFetched + 1, internalHosts := s.internalHosts + PageHosts(web, r, url, page))
  }

  lemma RedirectVisits(web: Web, r: Request, maxSamples: int, page: Page, item: Item, s0: Search)
    requires web.fetch(item.url) == Fetched(page) && LeavesScope(web, r, item.url, page)
    ensures var s1 := Noted(web, r, item.url, page, s0);
            VisitedBy(web, r, maxSamples, item, s0,
                     s1.(outbound := Capture(web, s1.outbound, RedirectLink(web, item.url, page), maxSamples)))
  {
    PageLeft(web, r, item.url, page);
    CaptureOne(web, s0.outbound, RedirectLink(web, item.url, page), maxSamples);
  }

  lemma ReadingVisits(web: Web, r: Request, maxSamples: int, page: Page, before: seq<Item>, item: Item, s0: Search, s: Search)
    requires web.fetch(item.url) == Fetched(page) && !LeavesScope(web, r, item.url, page)
    requires Reading(web, r, maxSamples, LinksAt(web, r, item.url), before, item, Noted(web, r, item.url, page, s0), s)
    ensures VisitedBy(web, r, maxSamples, item, s0, s)
  {
    PageRead(web, r, item.url, page);
    assert s0.internalHosts + PageHosts(web, r, item.url, page) + LinkHosts(web, r, LinksAt(web, r, item.url))
           == s0.internalHosts + HostsAt(web, r, item.url);
  }

  method NotePage(web: Web, r: Request, url: string, page: Page, s0: Search) returns (s: Search, left: bool)
    ensures s == Noted(web, r, url, page, s0) && left == LeavesScope(web, r, url, page)
  {
    s := s0.(pagesFetched := s0.pagesFetched + 1);
    var finalHost := web.host(FinalURL(web, url, page));
    var finalRoot := web.registrable(finalHost);
    if finalHost != "" && finalRoot != "" && finalRoot in r.scopeRoots && finalHost != finalRoot {
      s := s.(internalHosts := s.internalHosts + {finalHost});
    }
    left := finalRoot != "" && finalRoot !in r.scopeRoots;
  }

  /** A page that was fetched: redirected out of scope, or read. */
  method VisitPage(web: Web, r: Request, maxSamples: int, page: Page, s0: Search, item: Item, ghost before: seq<Item>)
    returns (s: Search)
    requires web.fetch(item.url) == Fetched(page)
    requires Expanding(web, r, before, item, s0)
    ensures Expanding(web, r, before, item, s) && VisitedBy(web, r, maxSamples, item, s0, s)
    ensures item.depth < r.maxDepth ==> forall v :: Site(web, r).edge(item.url, v) ==> v in s.queued
  {
    var left;
    s, left := NotePage(web, r, item.url, page, s0);
    if left {
      RedirectVisits(web, r, maxSamples, page, item, s0);
      PageLeft(web, r, item.url, page);
      s := s.(outbound := Capture(web, s.outbound, RedirectLink(web, item.url, page), maxSamples));
    } else {
      s := FollowLinks(web, r, maxSamples, page, s, item, before);
      ReadingVisits(web, r, maxSamples, page, before, item, s0, s);
    }
  }

  /** The crawl so far: everything the loop knows. */
  ghost predicate Crawled(web: Web, r: Request, maxSamples: int, visits: seq<Item>, s: Search) {
    && Searching(Site(web, r), visits + s.queue, |visits|, r.maxDepth)
    && (forall u :: u in s.visited <==> HasURL(visits, u))
    && (forall u :: u in s.queued <==> HasURL(visits + s.queue, u))
    && s.pagesFetched == PagesOf(web, visits)
    && Yields(web, r, maxSamples, visits, s.internalHosts, s.outbound, s.errors)
  }

  /** Dequeuing changes no list of items, only where its head is. */
  lemma Dequeue(visits: seq<Item>, queue: seq<Item>)
    requires queue != []
    ensures visits + queue == visits + [queue[0]] + queue[1..]
    ensures forall u :: HasURL(visits + [queue[0]], u) <==> HasURL(visits, u) || u == queue[0].url
    ensures forall u :: HasURL(visits + [queue[0]], u) ==> HasURL(visits + queue, u)
  {
    HasURLAppend(visits, [queue[0]]);
    HasItem(queue[0]);
    HasURLAppend(visits + [queue[0]], queue[1..]);
    assert visits + queue == visits + [queue[0]] + queue[1..];
  }

  /** What a crawl of the request may return: the hosts, captures and errors of
      a crawl's visits. */
  ghost predicate Returns(web: Web, r: Request, maxSamples: int,
                          internalHosts: set<string>, outbound: Candidates, errors: seq<string>) {
    exists visits, exhausted ::
      IsCrawl(web, r, visits, exhausted) && Yields(web, r, maxSamples, visits, internalHosts, outbound, errors)
  }

  ghost predicate Yields(web: Web, r: Request, maxSamples: int, visits: seq<Item>,
                         internalHosts: set<string>, outbound: Candidates, errors: seq<string>) {
    && internalHosts == HostsOf(web, r, visits)
    && outbound == CaptureAll(web, map[], CapturesOf(web, r, visits), maxSamples)
    && errors == ErrorsOf(web, visits)
  }

  method CrawlSeed(web: Web, r: Request, maxSamples: int)
    returns (internalHosts: set<string>, outbound: Candidates, errors: seq<string>)
    ensures Returns(web, r, maxSamples, internalHosts, outbound, errors)
  {
    var queue, queued := StartQueue(web, r);
    var s := Search(queue, {}, queued, {}, map[], [], 0);
    ghost var visits: seq<Item> := [];
    assert visits + queue == queue;

    while |s.queue| > 0 && s.pagesFetched < r.maxPages
      invariant Crawled(web, r, maxSamples, visits, s)
      invariant s.pagesFetched <= if r.maxPages < 0 then 0 else r.maxPages
      decreases r.maxPages - s.pagesFetched, |s.queue|
    {
      ghost var item := s.queue[0];
      s := VisitHead(web, r, maxSamples, s, visits);
      visits := visits + [item];
    }
    Finish(web, r, visits, s.queue);
    assert IsCrawl(web, r, visits, |s.queue| == 0);
    return s.internalHosts, s.outbound, s.errors;
  }

  lemma Finish(web: Web, r: Request, visits: seq<Item>, queue: seq<Item>)
    requires Searching(Site(web, r), visits + queue, |visits|, r.maxDepth)
    ensures Layered(Site(web, r), visits, |visits|, r.maxDepth)
    ensures queue == [] ==>
              forall v, d :: Distance(Site(web, r), v, d) && (d == 0 || d <= r.maxDepth) ==> Item(v, d) in visits
  {
    LayeredPrefix(Site(web, r), visits, queue, r.maxDepth);
    if queue == [] {
      assert visits + queue == visits;
      EmptyQueueIsComplete(Site(web, r), visits, r.maxDepth);
    }
  }

  method VisitHead(web: Web, r: Request, maxSamples: int, s0: Search, ghost before: seq<Item>) returns (s: Search)
    requires Crawled(web, r, maxSamples, before, s0) && s0.queue != []
    ensures Crawled(web, r, maxSamples, before + [s0.queue[0]], s)
    ensures s.pagesFetched == s0.pagesFetched + 1 || (s.pagesFetched == s0.pagesFetched && |s.queue| < |s0.queue|)
  {
    var item := s0.queue[0];
    s := s0.(queue := s0.queue[1..], visited := s0.visited + {item.url});
    HeadIsUnvisited(before, s0.queue);
    Dequeue(before, s0.queue);
    VisitAppend(web, r, before, item);
    CaptureAllAppend(web, map[], CapturesOf(web, r, before), CapturesAt(web, r, item.url), maxSamples);
    s := Visit(web, r, maxSamples, s, item, before);
  }

  // ----- what the visits mean -----

  /** No URL is fetched twice; a start URL is fetched at depth 0; and every
      other fetched URL was linked, with an in-scope root and within the depth
      limit, from a page one link nearer to a start. */
  lemma FetchedOnceAndLinked(web: Web, r: Request, visits: seq<Item>, exhausted: bool, i: int)
    requires IsCrawl(web, r, visits, exhausted) && 0 <= i < |visits|
    ensures forall j :: 0 <= j < |visits| && visits[j].url == visits[i].url ==> j == i
    ensures visits[i].depth == 0 <==> Start(r, visits[i].url)
    ensures visits[i].depth > 0 ==>
              && visits[i].depth <= r.maxDepth
              && exists u, k :: Distance(Site(web, r), u, visits[i].depth - 1)
                                && 0 <= k < |LinksAt(web, r, u)|
                                && LinksAt(web, r, u)[k].targetURL == visits[i].url
                                && LinksAt(web, r, u)[k].targetRoot in r.scopeRoots
  {
    var g := Site(web, r);
    var v, d := visits[i].url, visits[i].depth;
    assert Distance(g, v, d);
    if Start(r, v) {
      assert g.start(v);
      DistanceAtMost(g, v, d, 0);
    }
    if d > 0 {
      var u := Predecessor(g, v, d);
      assert Edge(web, r, u, v);
    }
  }

  // ----- conservation of captured links -----

  function CapturedRoots(web: Web, links: seq<Link>): seq<string> {
    if links == [] then []
    else CapturedRoots(web, links[..|links| - 1])
         + if CaptureRoot(web, links[|links| - 1]) == "" then [] else [CaptureRoot(web, links[|links| - 1])]
  }

  ghost function Total(m: Candidates): nat {
    if m == map[] then 0 else
      var k :| k in m;
      m[k].observations + Total(m - {k})
  }

  lemma {:induction false} TotalRemove(m: Candidates, k: string)
    requires k in m
    ensures Total(m) == m[k].observations + Total(m - {k})
  {
    var c :| c in m && Total(m) == m[c].observations + Total(m - {c});
    if c != k {
      TotalRemove(m - {c}, k);
      TotalRemove(m - {k}, c);
      assert m - {c} - {k} == m - {k} - {c};
    }
  }

  lemma CaptureTotal(web: Web, m: Candidates, l: Link, maxSamples: int)
    ensures Total(Capture(web, m, l, maxSamples)) == Total(m) + if CaptureRoot(web, l) == "" then 0 else 1
  {
    var root := CaptureRoot(web, l);
    var n := Capture(web, m, l, maxSamples);
    if root != "" {
      TotalRemove(n, root);
      if root in m {
        TotalRemove(m, root);
        assert n - {root} == m - {root};
      } else {
        assert n - {root} == m;
      }
    }
  }

  ghost predicate Counts(m: Candidates, roots: seq<string>, maxSamples: int) {
    && (forall k :: k in m <==> k in roots)
    && (forall k :: k in m ==> m[k].root == k && m[k].observations == multiset(roots)[k])
    && (forall k :: k in m ==> |m[k].samples| <= m[k].observations && (maxSamples > 0 ==> |m[k].samples| <= maxSamples))
    && Total(m) == |roots|
  }

  lemma ObserveCounts(c: RootCandidate, l: Link, maxSamples: int)
    requires |c.samples| <= c.observations && (maxSamples > 0 ==> |c.samples| <= maxSamples)
    ensures var d := Observe(c, l, maxSamples);
            && d.root == c.root && d.observations == c.observations + 1
            && |d.samples| <= d.observations && (maxSamples > 0 ==> |d.samples| <= maxSamples)
  {
  }

  lemma CaptureCounts(web: Web, m: Candidates, roots: seq<string>, l: Link, maxSamples: int)
    requires Counts(m, roots, maxSamples) && CaptureRoot(web, l) != ""
    ensures Counts(Capture(web, m, l, maxSamples), roots + [CaptureRoot(web, l)], maxSamples)
  {
    CaptureTotal(web, m, l, maxSamples);
    var root := CaptureRoot(web, l);
    var all := roots + [root];
    assert multiset(all) == multiset(roots) + multiset{root};
    assert root !in m ==> multiset(roots)[root] == 0;
    ObserveCounts(if root in m then m[root] else RootCandidate(root, 0, [], {}, {}, {}), l, maxSamples);
  }

  /** Per outbound root, the observation count is the number of links captured
      for it, and the kept samples are bounded; over all roots, nothing is lost
      or counted twice. */
  lemma {:induction false} CapturesConserved(web: Web, links: seq<Link>, maxSamples: int)
    ensures Counts(CaptureAll(web, map[], links, maxSamples), CapturedRoots(web, links), maxSamples)
  {
    if links != [] {
      var front, l := links[..|links| - 1], links[|links| - 1];
      CapturesConserved(web, front, maxSamples);
      if CaptureRoot(web, l) == "" {
        assert CapturedRoots(web, front) + [] == CapturedRoots(web, front);
      } else {
        CaptureCounts(web, CaptureAll(web, map[], front, maxSamples), CapturedRoots(web, front), l, maxSamples);
      }
    }
  }
}
