/** What a crawl records of the links it captures, root by root
    (internal/collect/crawler_collector.go, captureCrawlerCandidate). */
module CrawlCaptures {
  import opened Text
  import opened BreadthFirst
  import opened Crawl

  // ----- which links a visit captures -----

  /** The first text that is not blank, trimmed; blank if there is none. */
  ghost predicate IsFirst(values: seq<string>, text: string) {
    if text == "" then forall i :: 0 <= i < |values| ==> Trim(values[i]) == ""
    else exists i :: 0 <= i < |values| && Trim(values[i]) == text && forall j :: 0 <= j < i ==> Trim(values[j]) == ""
  }

  lemma {:induction false} FirstNonEmptyIs(values: seq<string>)
    ensures IsFirst(values, FirstNonEmpty(values))
  {
    if values != [] && Trim(values[0]) == "" {
      var rest := values[1..];
      FirstNonEmptyIs(rest);
      assert forall i :: 0 < i < |values| ==> values[i] == rest[i - 1];
      if FirstNonEmpty(values) != "" {
        var i :| 0 <= i < |rest| && Trim(rest[i]) == FirstNonEmpty(values) && forall j :: 0 <= j < i ==> Trim(rest[j]) == "";
        assert Trim(values[i + 1]) == FirstNonEmpty(values);
      }
    }
  }

  /** A link as it is read off a page that ended at the final address: blanks
      are filled in from there, or from what is known of the target. */
  lemma ResolvedLink(web: Web, final: string, link: Link)
    ensures exists source, host, root ::
              var l := Resolve(web, final, link);
              && IsFirst([link.sourceURL, final], source) && l.sourceURL == web.normalizeURL(source)
              && l.targetURL == web.normalizeURL(link.targetURL)
              && IsFirst([link.targetHost, web.host(l.targetURL)], host) && l.targetHost == web.normalizeDomain(host)
              && IsFirst([link.targetRoot, web.registrable(l.targetHost)], root) && l.targetRoot == web.normalizeDomain(root)
              && l.relation == link.relation && l.anchorText == link.anchorText
  {
    var l := Resolve(web, final, link);
    FirstNonEmptyIs([link.sourceURL, final]);
    FirstNonEmptyIs([link.targetHost, web.host(l.targetURL)]);
    FirstNonEmptyIs([link.targetRoot, web.registrable(l.targetHost)]);
  }

  /** The host is a subdomain in scope: of the address a fetched page ended at,
      or of a link on such a page. */
  ghost predicate Found(web: Web, r: Request, url: string, host: string) {
    web.fetch(url).Fetched? &&
    var page := web.fetch(url).page;
    exists address :: IsFirst([page.finalURL, page.url, url], address) &&
      var final := web.normalizeURL(address);
      var root := web.registrable(web.host(final));
      || (host == web.host(final) && host != "" && root != "" && root in r.scopeRoots && host != root)
      || ((root == "" || root in r.scopeRoots)
          && exists l :: l in ResolveAll(web, final, page.links) && l.targetURL != "" && l.targetRoot in r.scopeRoots
                         && l.targetRoot != "" && l.targetHost == host && host != "" && host != l.targetRoot && web.accepted(host))
  }

  lemma FoundUnique(values: seq<string>, a: string, b: string)
    requires IsFirst(values, a) && IsFirst(values, b)
    ensures a == b
  {
    if a != "" && b != "" {
      var i :| 0 <= i < |values| && Trim(values[i]) == a && forall j :: 0 <= j < i ==> Trim(values[j]) == "";
      var k :| 0 <= k < |values| && Trim(values[k]) == b && forall j :: 0 <= j < k ==> Trim(values[j]) == "";
      assert i == k;
    }
  }

  lemma LinkHostsAre(web: Web, r: Request, links: seq<Link>, host: string)
    ensures host in LinkHosts(web, r, links)
            <==> exists l :: l in links && l.targetURL != "" && l.targetRoot in r.scopeRoots
                             && l.targetRoot != "" && l.targetHost == host && host != "" && host != l.targetRoot && web.accepted(host)
  {
    if l :| l in links && l.targetURL != "" && l.targetRoot in r.scopeRoots
            && l.targetRoot != "" && l.targetHost == host && host != "" && host != l.targetRoot && web.accepted(host) {
      var i :| 0 <= i < |links| && links[i] == l;
    }
  }

  /** The hosts a visit contributes are exactly those. */
  lemma HostsFound(web: Web, r: Request, url: string, host: string)
    ensures host in HostsAt(web, r, url) <==> Found(web, r, url, host)
  {
    if web.fetch(url).Fetched? {
      var page := web.fetch(url).page;
      var values := [page.finalURL, page.url, url];
      FirstNonEmptyIs(values);
      forall address | IsFirst(values, address) ensures address == FirstNonEmpty(values) {
        FoundUnique(values, address, FirstNonEmpty(values));
      }
      LinkHostsAre(web, r, LinksAt(web, r, url), host);
    }
  }

  /** Each visit is a page, a missing page or an error, and every error of a
      visit is reported, once and in order. */
  lemma {:induction false} VisitsAccounted(web: Web, visits: seq<Item>)
    ensures |visits| == PagesOf(web, visits) + |ErrorsOf(web, visits)| + Missing(web, visits)
    ensures forall e :: e in ErrorsOf(web, visits) <==> exists v :: v in visits && web.fetch(v.url) == FetchFails(e)
    ensures PagesOf(web, visits) == |set i | 0 <= i < |visits| && web.fetch(visits[i].url).Fetched?|
  {
    if visits != [] {
      var n := |visits| - 1;
      var front := visits[..n];
      VisitsAccounted(web, front);
      assert visits == front + [visits[n]];
      var before := set i | 0 <= i < |front| && web.fetch(front[i].url).Fetched?;
      var after := set i | 0 <= i < |visits| && web.fetch(visits[i].url).Fetched?;
      assert after == before + if web.fetch(visits[n].url).Fetched? then {n} else {};
    }
  }

  ghost function Missing(web: Web, visits: seq<Item>): nat {
    if visits == [] then 0
    else Missing(web, visits[..|visits| - 1]) + if web.fetch(visits[|visits| - 1].url).NoPage? then 1 else 0
  }

  lemma {:induction false} OutboundMembers(r: Request, links: seq<Link>)
    ensures forall l :: l in OutboundLinks(r, links)
                        <==> l in links && l.targetURL != "" && l.targetRoot != "" && l.targetRoot !in r.scopeRoots
  {
    if links != [] {
      var front, last := links[..|links| - 1], links[|links| - 1];
      OutboundMembers(r, front);
      assert links == front + [last];
    }
  }

  /** A page whose address left the scope captures its own redirect, from the
      URL that was asked for to where it ended; any other page captures its
      links with a target out of scope; nothing else captures anything. */
  lemma CapturedLinks(web: Web, r: Request, url: string)
    ensures web.fetch(url).Fetched? ==>
              var page := web.fetch(url).page;
              exists address :: IsFirst([page.finalURL, page.url, url], address) &&
                var final := web.normalizeURL(address);
                var root := web.registrable(web.host(final));
                if root != "" && root !in r.scopeRoots
                then CapturesAt(web, r, url) == [Link(url, final, web.host(final), root, "redirect", "")]
                else forall l :: l in CapturesAt(web, r, url)
                                 <==> l in ResolveAll(web, final, page.links)
                                      && l.targetURL != "" && l.targetRoot != "" && l.targetRoot !in r.scopeRoots
    ensures !web.fetch(url).Fetched? ==> CapturesAt(web, r, url) == []
    ensures forall l :: l in CapturesAt(web, r, url) ==> l.targetRoot != "" && l.targetRoot !in r.scopeRoots
  {
    if web.fetch(url).Fetched? {
      var page := web.fetch(url).page;
      FirstNonEmptyIs([page.finalURL, page.url, url]);
      OutboundMembers(r, LinksAt(web, r, url));
    }
  }

  // ----- what a root's record keeps of them -----

  /** The link counts for a root: the registrable domain of its target's root,
      or else of its target's host. */
  predicate OfRoot(web: Web, l: Link, root: string) {
    root != "" && (web.registrable(l.targetRoot) == root
                   || (web.registrable(l.targetRoot) == "" && web.registrable(l.targetHost) == root))
  }

  /** The captured links of a root, in order. */
  ghost function LinksOf(web: Web, links: seq<Link>, root: string): seq<Link> {
    if links == [] then []
    else LinksOf(web, links[..|links| - 1], root)
         + if OfRoot(web, links[|links| - 1], root) then [links[|links| - 1]] else []
  }

  predicate SameSample(l: Link, m: Link) {
    Norm(l.sourceURL) + "|" + Norm(l.targetURL) + "|" + Norm(l.anchorText)
    == Norm(m.sourceURL) + "|" + Norm(m.targetURL) + "|" + Norm(m.anchorText)
  }

  ghost predicate Covered<T, K>(items: seq<T>, k: K, key: T -> K) {
    exists x :: x in items && key(x) == k
  }

  /** The first item of each key. */
  ghost function Firsts<T, K>(items: seq<T>, key: T -> K): seq<T> {
    if items == [] then []
    else
      var front, last := items[..|items| - 1], items[|items| - 1];
      Firsts(front, key) + if Covered(front, key(last), key) then [] else [last]
  }

  ghost function Capped<T>(items: seq<T>, cap: int): seq<T> {
    if 0 < cap < |items| then items[..cap] else items
  }

  /** The record of a root: its links counted, the first samples kept, all
      referrers and relations noted. */
  ghost predicate Records(c: RootCandidate, root: string, mine: seq<Link>, maxSamples: int) {
    && c.root == root && c.observations == |mine|
    && c.samples == Capped(Firsts(mine, SampleKey), maxSamples)
    && Notes(c.referrers, mine, (l: Link) => l.sourceURL)
    && Notes(c.relations, mine, (l: Link) => Norm(l.relation))
  }

  /** Exactly the texts of the links that are not blank. */
  ghost predicate Notes(noted: set<string>, mine: seq<Link>, text: Link -> string) {
    forall u :: u in noted <==> u != "" && Covered(mine, u, text)
  }

  lemma NotesSnoc(noted: set<string>, mine: seq<Link>, l: Link, text: Link -> string)
    requires Notes(noted, mine, text)
    ensures Notes(noted + if text(l) != "" then {text(l)} else {}, mine + [l], text)
  {
    CoveredSnoc(mine, l, text);
  }

  ghost predicate Keyed(c: RootCandidate, mine: seq<Link>) {
    forall k :: k in c.sampleKeys <==> Covered(mine, k, SampleKey)
  }

  lemma CoveredSnoc<T, K(!new)>(items: seq<T>, x: T, key: T -> K)
    ensures forall k :: Covered(items + [x], k, key) <==> Covered(items, k, key) || key(x) == k
    ensures Firsts(items + [x], key) == Firsts(items, key) + if Covered(items, key(x), key) then [] else [x]
  {
    assert forall y :: y in items + [x] <==> y in items || y == x;
    assert (items + [x])[..|items|] == items;
  }

  /** The fields of a record that only collect. */
  lemma ObserveNotes(c: RootCandidate, mine: seq<Link>, l: Link, maxSamples: int)
    ensures var d := Observe(c, l, maxSamples);
            && d.root == c.root && d.observations == c.observations + 1
            && d.referrers == c.referrers + (if l.sourceURL != "" then {l.sourceURL} else {})
            && d.relations == c.relations + (if Norm(l.relation) != "" then {Norm(l.relation)} else {})
            && d.sampleKeys == c.sampleKeys + {SampleKey(l)}
            && d.samples == if SampleKey(l) in c.sampleKeys || 0 < maxSamples <= |c.samples| then c.samples else c.samples + [l]
  {
  }

  lemma CappedSnoc<T>(items: seq<T>, x: T, cap: int)
    ensures Capped(items + [x], cap) == if 0 < cap <= |Capped(items, cap)| then Capped(items, cap) else Capped(items, cap) + [x]
  {
    if 0 < cap <= |items| {
      assert (items + [x])[..cap] == items[..cap];
      assert items[..|items|] == items;
    }
  }

  lemma ObserveKeyed(c: RootCandidate, mine: seq<Link>, l: Link, maxSamples: int)
    requires Keyed(c, mine)
    ensures Keyed(Observe(c, l, maxSamples), mine + [l])
  {
    ObserveNotes(c, mine, l, maxSamples);
    CoveredSnoc(mine, l, SampleKey);
  }

  lemma ObserveRecords(c: RootCandidate, root: string, mine: seq<Link>, l: Link, maxSamples: int)
    requires Records(c, root, mine, maxSamples) && Keyed(c, mine)
    ensures Records(Observe(c, l, maxSamples), root, mine + [l], maxSamples)
  {
    ObserveNotes(c, mine, l, maxSamples);
    NotesSnoc(c.referrers, mine, l, (x: Link) => x.sourceURL);
    NotesSnoc(c.relations, mine, l, (x: Link) => Norm(x.relation));
    CoveredSnoc(mine, l, SampleKey);
    var firsts := Firsts(mine, SampleKey);
    CappedSnoc(firsts, l, maxSamples);
    assert firsts + [] == firsts;
  }

  ghost predicate Recorded(m: Candidates, root: string, mine: seq<Link>, maxSamples: int) {
    && (root in m <==> mine != [])
    && (root in m ==> root != "" && Records(m[root], root, mine, maxSamples) && Keyed(m[root], mine))
  }

  lemma NothingRecorded(root: string, maxSamples: int)
    ensures Records(RootCandidate(root, 0, [], {}, {}, {}), root, [], maxSamples)
    ensures Keyed(RootCandidate(root, 0, [], {}, {}, {}), [])
  {
  }

  /** Over any captured links, the crawl keeps a record for a root exactly when
      one of them counts for it, and the record is exact. */
  lemma {:induction false} CapturesRecorded(web: Web, links: seq<Link>, maxSamples: int, root: string)
    ensures Recorded(CaptureAll(web, map[], links, maxSamples), root, LinksOf(web, links, root), maxSamples)
  {
    if links != [] {
      var front, l := links[..|links| - 1], links[|links| - 1];
      CapturesRecorded(web, front, maxSamples, root);
      CaptureRecords(web, CaptureAll(web, map[], front, maxSamples), LinksOf(web, front, root), l, maxSamples, root);
    }
  }

  /** A captured link touches the record of the root it counts for, and no
      other. */
  lemma CaptureTouches(web: Web, m: Candidates, l: Link, maxSamples: int, root: string)
    requires root in m ==> root != ""
    ensures var n := Capture(web, m, l, maxSamples);
            if OfRoot(web, l, root) then
              root in n && n[root] == Observe(if root in m then m[root] else RootCandidate(root, 0, [], {}, {}, {}), l, maxSamples)
            else (root in n <==> root in m) && (root in m ==> n[root] == m[root])
  {
  }

  lemma CaptureRecords(web: Web, m: Candidates, mine: seq<Link>, l: Link, maxSamples: int, root: string)
    requires Recorded(m, root, mine, maxSamples)
    ensures Recorded(Capture(web, m, l, maxSamples), root, mine + (if OfRoot(web, l, root) then [l] else []), maxSamples)
  {
    CaptureTouches(web, m, l, maxSamples, root);
    if OfRoot(web, l, root) {
      var c := if root in m then m[root] else RootCandidate(root, 0, [], {}, {}, {});
      NothingRecorded(root, maxSamples);
      ObserveRecords(c, root, mine, l, maxSamples);
      ObserveKeyed(c, mine, l, maxSamples);
    } else {
      assert mine + [] == mine;
    }
  }

  // ----- samples are samples -----

  /** The firsts are items, of distinct keys, and miss no key. */
  lemma {:induction false} FirstsAre<T, K(!new)>(items: seq<T>, key: T -> K)
    ensures var firsts := Firsts(items, key);
            && (forall x :: x in firsts ==> x in items)
            && (forall i, j :: 0 <= i < j < |firsts| ==> key(firsts[i]) != key(firsts[j]))
            && (forall k :: Covered(firsts, k, key) <==> Covered(items, k, key))
  {
    if items != [] {
      var front, last := items[..|items| - 1], items[|items| - 1];
      var firsts := Firsts(front, key);
      FirstsAre(front, key);
      assert items == front + [last];
      CoveredSnoc(front, last, key);
      CoveredSnoc(firsts, last, key);
      assert firsts + [] == firsts;
      if !Covered(front, key(last), key) {
        forall i | 0 <= i < |firsts| ensures key(firsts[i]) != key(last) {
          assert firsts[i] in firsts;
        }
      }
    }
  }

  /** A kept sample is a link captured for the root, and no two are the same;
      below the cap every captured link is the same as one of them. */
  lemma SamplesAre(c: RootCandidate, root: string, mine: seq<Link>, maxSamples: int)
    requires Records(c, root, mine, maxSamples)
    ensures forall l :: l in c.samples ==> l in mine
    ensures forall i, j :: 0 <= i < j < |c.samples| ==> !SameSample(c.samples[i], c.samples[j])
    ensures maxSamples <= 0 || |c.samples| < maxSamples ==>
              forall l :: l in mine ==> exists s :: s in c.samples && SameSample(s, l)
  {
    FirstsAre(mine, SampleKey);
    forall i, j | 0 <= i < j < |c.samples| ensures !SameSample(c.samples[i], c.samples[j]) {
      assert SampleKey(c.samples[i]) != SampleKey(c.samples[j]);
    }
    if maxSamples <= 0 || |c.samples| < maxSamples {
      forall l | l in mine ensures exists s :: s in c.samples && SameSample(s, l) {
        assert Covered(mine, SampleKey(l), SampleKey);
        var s :| s in c.samples && SampleKey(s) == SampleKey(l);
        assert SameSample(s, l);
      }
    }
  }
}
