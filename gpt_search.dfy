/** The source-collection logic of gpt_search.py: cached page fetches and
    DuckDuckGo searches, the choice of a search's top usable hit, and the
    accumulation of background text and a source list over several
    searches. The network, the search engine and the HTML helpers are
    oracles. */
module Search {
  import opened Wrappers

  newtype byte = x: int | 0 <= x < 256
  /** A response body (`response.content`). */
  type Bytes = seq<byte>
  type Url = string

  /** What `requests.get(url, timeout=10)` does: respond with a status and
      a body, or raise a `RequestException`. */
  datatype HttpReply = Response(status: int, content: Bytes) | RequestException(reason: string)

  /** One outbound call, as the network sees it. */
  datatype Request = HttpGet(url: Url) | DdgQuery(topic: string)

  /** One result of `ddg(topic)`; of its fields only `href` is used. */
  datatype SearchHit = SearchHit(href: Url)

  /** The triple `ddg_top_hit` returns when it finds something. */
  datatype Found = Found(href: Url, title: string, content: string)

  /** One search of `fetch_sources` that contributed a source. */
  datatype Finding = Finding(search: string, found: Found)

  /** The web and the search engine during one run: each URL and each
      topic gets a fixed answer, and every request is logged. */
  class Internet {
    const page: Url -> HttpReply
    const ddg: string -> seq<SearchHit>
    var requests: seq<Request>

    constructor (page: Url -> HttpReply, ddg: string -> seq<SearchHit>)
      ensures this.page == page && this.ddg == ddg && requests == []
    {
      this.page := page;
      this.ddg := ddg;
      requests := [];
    }

    method Get(url: Url) returns (r: HttpReply)
      modifies this
      ensures r == page(url) && requests == old(requests) + [HttpGet(url)]
    {
      r := page(url);
      requests := requests + [HttpGet(url)];
    }

    method Query(topic: string) returns (r: seq<SearchHit>)
      modifies this
      ensures r == ddg(topic) && requests == old(requests) + [DdgQuery(topic)]
    {
      r := ddg(topic);
      requests := requests + [DdgQuery(topic)];
    }
  }

  /** What `fetch(url)` yields when the stored pages are `pages`: the
      stored body, else the body of a 200 response, else nothing. */
  function FetchView(pages: map<Url, Bytes>, page: Url -> HttpReply, url: Url): Option<Bytes>
  {
    if url in pages then Some(pages[url])
    else match page(url)
      case Response(status, content) => if status == 200 then Some(content) else None
      case RequestException(_) => None
  }

  /** The stored pages after `fetch(url)`: exactly a successful fetch is
      stored, failures are not, and a stored page is never replaced. */
  function FetchStore(pages: map<Url, Bytes>, page: Url -> HttpReply, url: Url): (r: map<Url, Bytes>)
    ensures FetchView(pages, page, url).Some? ==> r == pages[url := FetchView(pages, page, url).value]
    ensures FetchView(pages, page, url).None? ==> r == pages
  {
    if url in pages then pages
    else match page(url)
      case Response(status, content) => if status == 200 then pages[url := content] else pages
      case RequestException(_) => pages
  }

  /** Fetching never changes what any later fetch yields, so within one run
      a URL always fetches to the same thing. */
  lemma FetchStoreKeepsView(pages: map<Url, Bytes>, page: Url -> HttpReply, url: Url)
    ensures forall u :: FetchView(FetchStore(pages, page, url), page, u) == FetchView(pages, page, u)
  {
  }

  /** What `ddg_search(topic)` yields when the stored results are `results`. */
  function SearchView(results: map<string, seq<SearchHit>>, ddg: string -> seq<SearchHit>, topic: string): seq<SearchHit>
  {
    if topic in results then results[topic] else ddg(topic)
  }

  /** `ddg_top_hit`'s test of one search result: not skipped, fetched to a
      non-empty body, and simplified to non-empty text. */
  predicate Usable(hit: SearchHit, skip: seq<Url>, view: Url -> Option<Bytes>, simplify: Bytes -> string)
  {
    && hit.href !in skip
    && view(hit.href).Some?
    && view(hit.href).value != []
    && simplify(view(hit.href).value) != ""
  }

  /** The position of the first usable result, or `|hits|` if there is none. */
  function FirstUsable(hits: seq<SearchHit>, skip: seq<Url>, view: Url -> Option<Bytes>, simplify: Bytes -> string): (k: nat)
    ensures k <= |hits|
    ensures forall j :: 0 <= j < k ==> !Usable(hits[j], skip, view, simplify)
    ensures k < |hits| ==> Usable(hits[k], skip, view, simplify)
  {
    if hits == [] then 0
    else if Usable(hits[0], skip, view, simplify) then 0
    else 1 + FirstUsable(hits[1..], skip, view, simplify)
  }

  /** The answer of `ddg_top_hit`: the first usable result with its title
      and simplified content, or nothing (`(None, None, None)`). */
  function TopHit(hits: seq<SearchHit>, skip: seq<Url>, view: Url -> Option<Bytes>,
                  simplify: Bytes -> string, title: Bytes -> string): (r: Option<Found>)
    ensures r.None? <==> forall j :: 0 <= j < |hits| ==> !Usable(hits[j], skip, view, simplify)
    ensures r.Some? ==> r.value.href !in skip && r.value.content != ""
  {
    var k := FirstUsable(hits, skip, view, simplify);
    if k == |hits| then None
    else
      var html := view(hits[k].href).value;
      Some(Found(hits[k].href, title(html), simplify(html)))
  }

  /** A found hit is the first usable result in search order, paired with
      the title and the simplified content of its page. */
  lemma TopHitIsFirstUsable(hits: seq<SearchHit>, skip: seq<Url>, view: Url -> Option<Bytes>,
                            simplify: Bytes -> string, title: Bytes -> string)
    requires TopHit(hits, skip, view, simplify, title).Some?
    ensures var found := TopHit(hits, skip, view, simplify, title).value;
      exists k :: (0 <= k < |hits| && hits[k].href == found.href
        && Usable(hits[k], skip, view, simplify)
        && (forall j :: 0 <= j < k ==> !Usable(hits[j], skip, view, simplify))
        && found == Found(hits[k].href, title(view(hits[k].href).value), simplify(view(hits[k].href).value)))
  {
    var k := FirstUsable(hits, skip, view, simplify);
    assert k < |hits|;
  }

  /** The loop of `ddg_top_hit` stops at `i` exactly when `i` is the first
      usable position. */
  lemma FirstUsableAt(hits: seq<SearchHit>, skip: seq<Url>, view: Url -> Option<Bytes>, simplify: Bytes -> string, i: nat)
    requires i < |hits| && Usable(hits[i], skip, view, simplify)
    requires forall j :: 0 <= j < i ==> !Usable(hits[j], skip, view, simplify)
    ensures FirstUsable(hits, skip, view, simplify) == i
  {
  }

  /** The `# {search}` section `fetch_sources` appends for one finding. */
  function Section(f: Finding): string
  {
    "# " + f.search + "\n\n" + f.found.content + "\n\n"
  }

  /** The URLs already collected, which the next lookup skips. */
  function Urls(fs: seq<Finding>): (r: seq<Url>)
    ensures |r| == |fs|
    ensures forall k :: 0 <= k < |fs| ==> r[k] == fs[k].found.href
  {
    if fs == [] then [] else Urls(fs[..|fs| - 1]) + [fs[|fs| - 1].found.href]
  }

  /** One iteration of `fetch_sources`: look up the search's top hit,
      skipping every URL found so far, and keep it only if its URL is
      truthy (non-empty). */
  function Step(prior: seq<Finding>, search: string, searchView: string -> seq<SearchHit>, view: Url -> Option<Bytes>,
                simplify: Bytes -> string, title: Bytes -> string): (r: seq<Finding>)
    ensures r == prior
         || (|r| == |prior| + 1 && r[..|prior|] == prior && r[|prior|].search == search && r[|prior|].found.href != "")
  {
    match TopHit(searchView(search), Urls(prior), view, simplify, title)
    case None => prior
    case Some(found) => if found.href == "" then prior else prior + [Finding(search, found)]
  }

  /** The two outcomes of one iteration, given the looked-up hit. */
  lemma StepOutcome(prior: seq<Finding>, search: string, searchView: string -> seq<SearchHit>, view: Url -> Option<Bytes>,
                    simplify: Bytes -> string, title: Bytes -> string, found: Option<Found>)
    requires found == TopHit(searchView(search), Urls(prior), view, simplify, title)
    ensures found.Some? && found.value.href != "" ==>
      Step(prior, search, searchView, view, simplify, title) == prior + [Finding(search, found.value)]
    ensures !(found.Some? && found.value.href != "") ==> Step(prior, search, searchView, view, simplify, title) == prior
  {
  }

  /** The findings of `fetch_sources` over `searches`, in order. */
  function Findings(searches: seq<string>, searchView: string -> seq<SearchHit>, view: Url -> Option<Bytes>,
                    simplify: Bytes -> string, title: Bytes -> string): seq<Finding>
  {
    if searches == [] then []
    else Step(Findings(searches[..|searches| - 1], searchView, view, simplify, title),
              searches[|searches| - 1], searchView, view, simplify, title)
  }

  /** `background_text`: the sections of the findings, in order. */
  function BackgroundText(fs: seq<Finding>): string
  {
    if fs == [] then "" else BackgroundText(fs[..|fs| - 1]) + Section(fs[|fs| - 1])
  }

  /** `sources`: the (URL, title) pairs of the findings, in order. */
  function SourceList(fs: seq<Finding>): (r: seq<(Url, string)>)
    ensures |r| == |fs|
    ensures forall k :: 0 <= k < |fs| ==> r[k] == (fs[k].found.href, fs[k].found.title)
  {
    if fs == [] then [] else SourceList(fs[..|fs| - 1]) + [(fs[|fs| - 1].found.href, fs[|fs| - 1].found.title)]
  }

  /** No two findings share a URL. */
  predicate DistinctUrls(fs: seq<Finding>)
  {
    forall i, j :: 0 <= i < j < |fs| ==> fs[i].found.href != fs[j].found.href
  }

  /** No URL is collected twice, because every lookup skips all URLs
      collected before it. */
  lemma {:induction false} FindingsDistinct(searches: seq<string>, searchView: string -> seq<SearchHit>,
                                            view: Url -> Option<Bytes>, simplify: Bytes -> string, title: Bytes -> string)
    ensures DistinctUrls(Findings(searches, searchView, view, simplify, title))
  {
    if searches != [] {
      var prefix := searches[..|searches| - 1];
      FindingsDistinct(prefix, searchView, view, simplify, title);
      var prior := Findings(prefix, searchView, view, simplify, title);
      var skip := Urls(prior);
      var search := searches[|searches| - 1];
      var top := TopHit(searchView(search), skip, view, simplify, title);
      var fs := Findings(searches, searchView, view, simplify, title);
      assert fs == Step(prior, search, searchView, view, simplify, title);
      if top.Some? && top.value.href != "" {
        assert fs == prior + [Finding(search, top.value)];
        forall i, j | 0 <= i < j < |fs|
          ensures fs[i].found.href != fs[j].found.href
        {
          if j == |prior| {
            assert fs[i] == prior[i] && fs[j].found == top.value;
            assert skip[i] == prior[i].found.href && skip[i] in skip;
          } else {
            assert fs[i] == prior[i] && fs[j] == prior[j];
          }
        }
      }
    }
  }

  /** At most one source per search, and every finding names the search it
      came from and carries a non-empty URL and content. */
  lemma {:induction false} FindingsBounded(searches: seq<string>, searchView: string -> seq<SearchHit>,
                                           view: Url -> Option<Bytes>, simplify: Bytes -> string, title: Bytes -> string)
    ensures var fs := Findings(searches, searchView, view, simplify, title);
      && |fs| <= |searches|
      && forall k :: 0 <= k < |fs| ==> fs[k].search in searches && fs[k].found.href != "" && fs[k].found.content != ""
  {
    if searches != [] {
      var prefix := searches[..|searches| - 1];
      FindingsBounded(prefix, searchView, view, simplify, title);
      var fs := Findings(searches, searchView, view, simplify, title);
      forall k | 0 <= k < |fs|
        ensures fs[k].search in searches
      {
        var prior := Findings(prefix, searchView, view, simplify, title);
        if k < |prior| {
          assert fs[k] == prior[k];
          assert prior[k].search in prefix;
        }
      }
    }
  }

  /** Finding k came from search `idx[k]`, and `idx` strictly increases. */
  predicate InSearchOrder(fs: seq<Finding>, searches: seq<string>, idx: seq<nat>)
  {
    && |idx| == |fs|
    && (forall k :: 0 <= k < |fs| ==> idx[k] < |searches| && fs[k].search == searches[idx[k]])
    && (forall k, l :: 0 <= k < l < |idx| ==> idx[k] < idx[l])
  }

  /** The findings follow the order of the searches: the k-th finding comes
      from search `idx[k]`, and the indices strictly increase. */
  lemma {:induction false} FindingsInSearchOrder(searches: seq<string>, searchView: string -> seq<SearchHit>,
                                                 view: Url -> Option<Bytes>, simplify: Bytes -> string, title: Bytes -> string)
    returns (idx: seq<nat>)
    ensures InSearchOrder(Findings(searches, searchView, view, simplify, title), searches, idx)
  {
    if searches == [] {
      idx := [];
    } else {
      var n := |searches| - 1;
      var prefix := searches[..n];
      var prior := Findings(prefix, searchView, view, simplify, title);
      idx := FindingsInSearchOrder(prefix, searchView, view, simplify, title);
      InSearchOrderWiden(prior, prefix, searches, idx);
      var top := TopHit(searchView(searches[n]), Urls(prior), view, simplify, title);
      StepOutcome(prior, searches[n], searchView, view, simplify, title, top);
      assert Findings(searches, searchView, view, simplify, title) == Step(prior, searches[n], searchView, view, simplify, title);
      if top.Some? && top.value.href != "" {
        InSearchOrderAppend(prior, searches, idx, Finding(searches[n], top.value));
        idx := idx + [n];
      }
    }
  }

  /** An ordering against a prefix of the searches holds against all of them. */
  lemma InSearchOrderWiden(fs: seq<Finding>, prefix: seq<string>, searches: seq<string>, idx: seq<nat>)
    requires |prefix| <= |searches| && prefix == searches[..|prefix|]
    requires InSearchOrder(fs, prefix, idx) && forall k :: 0 <= k < |idx| ==> idx[k] < |prefix|
    ensures InSearchOrder(fs, searches, idx) && forall k :: 0 <= k < |idx| ==> idx[k] < |prefix|
  {
    forall k | 0 <= k < |fs|
      ensures fs[k].search == searches[idx[k]]
    {
      assert prefix[idx[k]] == searches[idx[k]];
    }
  }

  /** A finding from the last search extends the ordering. */
  lemma InSearchOrderAppend(fs: seq<Finding>, searches: seq<string>, idx: seq<nat>, f: Finding)
    requires 0 < |searches| && f.search == searches[|searches| - 1]
    requires InSearchOrder(fs, searches, idx) && forall k :: 0 <= k < |idx| ==> idx[k] < |searches| - 1
    ensures InSearchOrder(fs + [f], searches, idx + [|searches| - 1])
  {
    var n := |searches| - 1;
    var idx' := idx + [n];
    assert forall k :: 0 <= k < |idx| ==> idx'[k] == idx[k];
  }


  /** A search without a usable hit adds nothing: the background text and
      the sources are those of the searches before it. */
  lemma NoHitAddsNothing(searches: seq<string>, search: string, searchView: string -> seq<SearchHit>,
                         view: Url -> Option<Bytes>, simplify: Bytes -> string, title: Bytes -> string)
    requires TopHit(searchView(search), Urls(Findings(searches, searchView, view, simplify, title)), view, simplify, title).None?
    ensures BackgroundText(Findings(searches + [search], searchView, view, simplify, title))
            == BackgroundText(Findings(searches, searchView, view, simplify, title))
    ensures SourceList(Findings(searches + [search], searchView, view, simplify, title))
            == SourceList(Findings(searches, searchView, view, simplify, title))
  {
    var all := searches + [search];
    FindingsPrefix(all, |searches|, searchView, view, simplify, title);
    assert all[..|searches| + 1] == all && all[..|searches|] == searches;
  }

  /** A finding appends its section to the background text and its
      (URL, title) to the sources, so the two stay aligned. */
  lemma AppendFinding(fs: seq<Finding>, f: Finding)
    ensures BackgroundText(fs + [f]) == BackgroundText(fs) + Section(f)
    ensures SourceList(fs + [f]) == SourceList(fs) + [(f.found.href, f.found.title)]
  {
    assert (fs + [f])[..|fs|] == fs;
  }

  /** `[source for source, _ in sources]`. */
  function SourceUrls(sources: seq<(Url, string)>): (r: seq<Url>)
    ensures |r| == |sources|
    ensures forall k :: 0 <= k < |sources| ==> r[k] == sources[k].0
  {
    if sources == [] then [] else SourceUrls(sources[..|sources| - 1]) + [sources[|sources| - 1].0]
  }

  /** The skip list built from the sources is the list of found URLs. */
  lemma SkipIsUrls(fs: seq<Finding>)
    ensures SourceUrls(SourceList(fs)) == Urls(fs)
  {
    var skip := SourceUrls(SourceList(fs));
    assert forall k :: 0 <= k < |fs| ==> skip[k] == Urls(fs)[k];
  }

  /** The findings over one more search of a list. */
  lemma FindingsPrefix(searches: seq<string>, i: nat, searchView: string -> seq<SearchHit>,
                       view: Url -> Option<Bytes>, simplify: Bytes -> string, title: Bytes -> string)
    requires i < |searches|
    ensures Findings(searches[..i + 1], searchView, view, simplify, title)
         == Step(Findings(searches[..i], searchView, view, simplify, title), searches[i], searchView, view, simplify, title)
  {
    assert searches[..i + 1][..i] == searches[..i];
  }

  /** One iteration of `fetch_sources` keeps the background text and the
      sources equal to those of the findings over the searches so far. */
  lemma FetchSourcesStep(searches: seq<string>, i: nat, fs: seq<Finding>, searchView: string -> seq<SearchHit>,
                         view: Url -> Option<Bytes>, simplify: Bytes -> string, title: Bytes -> string,
                         found: Option<Found>)
    requires i < |searches|
    requires fs == Findings(searches[..i], searchView, view, simplify, title)
    requires found == TopHit(searchView(searches[i]), SourceUrls(SourceList(fs)), view, simplify, title)
    ensures found.Some? && found.value.href != "" ==>
      && Findings(searches[..i + 1], searchView, view, simplify, title) == fs + [Finding(searches[i], found.value)]
      && BackgroundText(fs + [Finding(searches[i], found.value)]) == BackgroundText(fs) + Section(Finding(searches[i], found.value))
      && SourceList(fs + [Finding(searches[i], found.value)]) == SourceList(fs) + [(found.value.href, found.value.title)]
    ensures !(found.Some? && found.value.href != "") ==>
      Findings(searches[..i + 1], searchView, view, simplify, title) == fs
  {
    SkipIsUrls(fs);
    StepOutcome(fs, searches[i], searchView, view, simplify, title, found);
    FindingsPrefix(searches, i, searchView, view, simplify, title);
    if found.Some? && found.value.href != "" {
      AppendFinding(fs, Finding(searches[i], found.value));
    }
  }

  /** What `fetch_sources` promises about its source list. */
  lemma SourceListFacts(searches: seq<string>, searchView: string -> seq<SearchHit>,
                        view: Url -> Option<Bytes>, simplify: Bytes -> string, title: Bytes -> string)
    ensures var sources := SourceList(Findings(searches, searchView, view, simplify, title));
      && |sources| <= |searches|
      && forall i, j :: 0 <= i < j < |sources| ==> sources[i].0 != sources[j].0
  {
    FindingsDistinct(searches, searchView, view, simplify, title);
    FindingsBounded(searches, searchView, view, simplify, title);
  }

  /** `u` is the URL of one of the first `n` results. */
  predicate Listed(u: Url, hits: seq<SearchHit>, n: nat)
    requires n <= |hits|
  {
    exists j :: 0 <= j < n && hits[j].href == u
  }

  /** How many results `ddg_top_hit` scans: up to and including the first
      usable one, or all of them. */
  function ProbeCount(hits: seq<SearchHit>, skip: seq<Url>, view: Url -> Option<Bytes>, simplify: Bytes -> string): (n: nat)
    ensures n <= |hits|
    ensures n <= FirstUsable(hits, skip, view, simplify) + 1
    ensures n < |hits| ==> 0 < n && Usable(hits[n - 1], skip, view, simplify)
  {
    var k := FirstUsable(hits, skip, view, simplify);
    if k < |hits| then k + 1 else |hits|
  }

  /** When no result before `i` is usable and result `i` is, the scan of
      `ddg_top_hit` stops after it and answers with it. */
  lemma ScanStopsAt(hits: seq<SearchHit>, skip: seq<Url>, view: Url -> Option<Bytes>,
                    simplify: Bytes -> string, title: Bytes -> string, i: nat)
    requires i < |hits| && Usable(hits[i], skip, view, simplify)
    requires i <= FirstUsable(hits, skip, view, simplify)
    ensures ProbeCount(hits, skip, view, simplify) == i + 1
    ensures TopHit(hits, skip, view, simplify, title)
         == Some(Found(hits[i].href, title(view(hits[i].href).value), simplify(view(hits[i].href).value)))
  {
    FirstUsableAt(hits, skip, view, simplify, i);
  }

  /** An unusable result does not stop the scan. */
  lemma ScanPasses(hits: seq<SearchHit>, skip: seq<Url>, view: Url -> Option<Bytes>, simplify: Bytes -> string, i: nat)
    requires i < |hits| && !Usable(hits[i], skip, view, simplify)
    requires i <= FirstUsable(hits, skip, view, simplify)
    ensures i + 1 <= FirstUsable(hits, skip, view, simplify)
  {
  }

  /** Without a usable result the scan covers every result and finds nothing. */
  lemma ScanFindsNothing(hits: seq<SearchHit>, skip: seq<Url>, view: Url -> Option<Bytes>,
                         simplify: Bytes -> string, title: Bytes -> string)
    requires |hits| <= FirstUsable(hits, skip, view, simplify)
    ensures ProbeCount(hits, skip, view, simplify) == |hits|
    ensures TopHit(hits, skip, view, simplify, title) == None
  {
  }

  /** The stored pages and the request log after `ddg_top_hit` looks at
      one result with URL `u`: a skipped result is not fetched; any other
      is, which asks the network only when the page is not stored yet. */
  function ProbeTraffic(pages: map<Url, Bytes>, requests: seq<Request>, page: Url -> HttpReply, u: Url, skip: seq<Url>)
    : (map<Url, Bytes>, seq<Request>)
  {
    if u in skip then (pages, requests)
    else (FetchStore(pages, page, u), if u in pages then requests else requests + [HttpGet(u)])
  }

  /** The stored pages and the request log after `ddg_top_hit` scanned
      `hits[..n]`, starting from `pages0` and `requests0`. */
  function ScanTraffic(pages0: map<Url, Bytes>, requests0: seq<Request>, page: Url -> HttpReply, hits: seq<SearchHit>,
                       skip: seq<Url>, n: nat): (map<Url, Bytes>, seq<Request>)
    requires n <= |hits|
  {
    if n == 0 then (pages0, requests0)
    else
      var prior := ScanTraffic(pages0, requests0, page, hits, skip, n - 1);
      ProbeTraffic(prior.0, prior.1, page, hits[n - 1].href, skip)
  }

  /** Scanning one more result applies its step to the traffic so far. */
  lemma ScanNext(pages0: map<Url, Bytes>, requests0: seq<Request>, page: Url -> HttpReply, hits: seq<SearchHit>,
                 skip: seq<Url>, i: nat, pages: map<Url, Bytes>, requests: seq<Request>)
    requires i < |hits| && (pages, requests) == ScanTraffic(pages0, requests0, page, hits, skip, i)
    ensures ScanTraffic(pages0, requests0, page, hits, skip, i + 1) == ProbeTraffic(pages, requests, page, hits[i].href, skip)
  {
  }

  /** A scan keeps every stored page, stores only results it was allowed
      to fetch, only appends to the request log, and asks the network only
      for those results. */
  lemma {:induction false} ScanTrafficFacts(pages0: map<Url, Bytes>, requests0: seq<Request>, page: Url -> HttpReply,
                                            hits: seq<SearchHit>, skip: seq<Url>, n: nat)
    requires n <= |hits|
    ensures var t := ScanTraffic(pages0, requests0, page, hits, skip, n);
      && (forall u :: u in pages0 ==> u in t.0 && t.0[u] == pages0[u])
      && (forall u :: u in t.0 && u !in pages0 ==> u !in skip && Listed(u, hits, n))
      && |requests0| <= |t.1| && t.1[..|requests0|] == requests0
      && (forall k :: |requests0| <= k < |t.1| ==>
            t.1[k].HttpGet? && t.1[k].url !in skip && Listed(t.1[k].url, hits, n))
  {
    if n > 0 {
      ScanTrafficFacts(pages0, requests0, page, hits, skip, n - 1);
      var prior := ScanTraffic(pages0, requests0, page, hits, skip, n - 1);
      forall u | Listed(u, hits, n - 1)
        ensures Listed(u, hits, n)
      {
        var j :| 0 <= j < n - 1 && hits[j].href == u;
      }
      assert Listed(hits[n - 1].href, hits, n);
      var u := hits[n - 1].href;
      if u !in skip && u !in prior.0 {
        assert (prior.1 + [HttpGet(u)])[..|requests0|] == prior.1[..|requests0|];
      }
    }
  }

  /** The request `ddg_search(topic)` makes: none for a stored topic. */
  function SearchRequests(results: map<string, seq<SearchHit>>, topic: string): (r: seq<Request>)
    ensures |r| <= 1 && forall k :: 0 <= k < |r| ==> r[k] == DdgQuery(topic)
    ensures r == [] <==> topic in results
  {
    if topic in results then [] else [DdgQuery(topic)]
  }

  /** `u` is the URL of a result of one of `topics`. */
  predicate Suggested(u: Url, topics: seq<string>, searchView: string -> seq<SearchHit>)
  {
    exists k, j :: 0 <= k < |topics| && 0 <= j < |searchView(topics[k])| && searchView(topics[k])[j].href == u
  }

  /** A request `fetch_sources` over `topics` may make: a search for one of
      the topics, or a fetch of one of their results. */
  predicate Expected(r: Request, topics: seq<string>, searchView: string -> seq<SearchHit>)
  {
    match r
    case DdgQuery(t) => t in topics
    case HttpGet(u) => Suggested(u, topics, searchView)
  }

  /** The stored pages went from `pages0` to `pages` and the request log
      from `reqs0` to `reqs` while searching `topics`: no stored page was
      dropped or replaced, every new page is a result of one of the topics,
      the log only grew, and every new request is expected. */
  ghost predicate TrafficWithin(pages0: map<Url, Bytes>, pages: map<Url, Bytes>, reqs0: seq<Request>, reqs: seq<Request>,
                                topics: seq<string>, searchView: string -> seq<SearchHit>)
  {
    && (forall u :: u in pages0 ==> u in pages && pages[u] == pages0[u])
    && (forall u :: u in pages && u !in pages0 ==> Suggested(u, topics, searchView))
    && |reqs0| <= |reqs| && reqs[..|reqs0|] == reqs0
    && (forall k :: |reqs0| <= k < |reqs| ==> Expected(reqs[k], topics, searchView))
  }

  /** A result of the first `i` topics is a result of the first `i + 1`. */
  lemma SuggestedGrows(u: Url, topics: seq<string>, i: nat, searchView: string -> seq<SearchHit>)
    requires i < |topics| && Suggested(u, topics[..i], searchView)
    ensures Suggested(u, topics[..i + 1], searchView)
  {
    var k, j :| 0 <= k < i && 0 <= j < |searchView(topics[..i][k])| && searchView(topics[..i][k])[j].href == u;
    assert topics[..i][k] == topics[..i + 1][k];
  }

  /** A result of topic `i` is a result of the first `i + 1` topics. */
  lemma SuggestedNext(u: Url, topics: seq<string>, i: nat, searchView: string -> seq<SearchHit>, n: nat)
    requires i < |topics| && n <= |searchView(topics[i])| && Listed(u, searchView(topics[i]), n)
    ensures Suggested(u, topics[..i + 1], searchView)
  {
    var j :| 0 <= j < n && searchView(topics[i])[j].href == u;
    assert topics[..i + 1][i] == topics[i];
  }

  /** The topics searched, as a set. */
  function Topics(searches: seq<string>): (r: set<string>)
    ensures forall t :: t in r <==> t in searches
  {
    set t | t in searches
  }

  /** Storing the results of search `i` adds it to the stored topics. */
  lemma SearchedStep(keys0: set<string>, results: map<string, seq<SearchHit>>, searches: seq<string>, i: nat,
                     hits: seq<SearchHit>)
    requires i < |searches| && results.Keys == keys0 + Topics(searches[..i])
    ensures results[searches[i] := hits].Keys == keys0 + Topics(searches[..i + 1])
  {
    assert searches[..i + 1] == searches[..i] + [searches[i]];
  }

  /** One `ddg_top_hit` call of `fetch_sources` keeps its traffic within
      the searched topics. */
  lemma TrafficStep(pages0: map<Url, Bytes>, pages: map<Url, Bytes>, reqs0: seq<Request>, reqs: seq<Request>,
                    topics: seq<string>, i: nat, searchView: string -> seq<SearchHit>,
                    results: map<string, seq<SearchHit>>, page: Url -> HttpReply, skip: seq<Url>, n: nat)
    requires i < |topics| && n <= |searchView(topics[i])|
    requires TrafficWithin(pages0, pages, reqs0, reqs, topics[..i], searchView)
    ensures var t := ScanTraffic(pages, reqs + SearchRequests(results, topics[i]), page, searchView(topics[i]), skip, n);
      TrafficWithin(pages0, t.0, reqs0, t.1, topics[..i + 1], searchView)
  {
    var search := SearchRequests(results, topics[i]);
    var mid := reqs + search;
    var t := ScanTraffic(pages, mid, page, searchView(topics[i]), skip, n);
    ScanTrafficFacts(pages, mid, page, searchView(topics[i]), skip, n);
    forall u | u in t.0 && u !in pages0
      ensures Suggested(u, topics[..i + 1], searchView)
    {
      if u in pages {
        SuggestedGrows(u, topics, i, searchView);
      } else {
        SuggestedNext(u, topics, i, searchView, n);
      }
    }
    assert t.1[..|reqs0|] == mid[..|reqs0|] == reqs[..|reqs0|];
    forall k | |reqs0| <= k < |t.1|
      ensures Expected(t.1[k], topics[..i + 1], searchView)
    {
      if k < |reqs| {
        assert t.1[k] == mid[k] == reqs[k];
        if reqs[k].HttpGet? {
          SuggestedGrows(reqs[k].url, topics, i, searchView);
        } else {
          var idx :| 0 <= idx < i && topics[..i][idx] == reqs[k].topic;
          assert topics[..i + 1][idx] == reqs[k].topic;
        }
      } else if k < |mid| {
        assert t.1[k] == mid[k] == DdgQuery(topics[i]);
        assert topics[..i + 1][i] == topics[i];
      } else {
        SuggestedNext(t.1[k].url, topics, i, searchView, n);
      }
    }
  }

  class GptSearch {
    const net: Internet
    /** `simplify_html`: HTML to markdown without scripts, styles and links. */
    const simplifyHtml: Bytes -> string
    /** `str(extract_title(html))`. */
    const extractTitle: Bytes -> string
    /** The cache entries `("fetch", url)`. */
    var pages: map<Url, Bytes>
    /** The cache entries `("ddg_search", topic)`. */
    var results: map<string, seq<SearchHit>>

    constructor (net: Internet, simplifyHtml: Bytes -> string, extractTitle: Bytes -> string,
                 pages: map<Url, Bytes>, results: map<string, seq<SearchHit>>)
      ensures this.net == net && this.simplifyHtml == simplifyHtml && this.extractTitle == extractTitle
      ensures this.pages == pages && this.results == results
    {
      this.net := net;
      this.simplifyHtml := simplifyHtml;
      this.extractTitle := extractTitle;
      this.pages := pages;
      this.results := results;
    }

    method Fetch(url: Url) returns (r: Option<Bytes>)
      modifies this`pages, net
      ensures r == FetchView(old(pages), net.page, url)
      ensures pages == FetchStore(old(pages), net.page, url)
      ensures forall u :: FetchView(pages, net.page, u) == FetchView(old(pages), net.page, u)
      // a stored page is returned without a network call
      ensures net.requests == if url in old(pages) then old(net.requests) else old(net.requests) + [HttpGet(url)]
    {
      FetchStoreKeepsView(pages, net.page, url);
      if url in pages {
        return Some(pages[url]);
      }
      var response := net.Get(url);
      match response {
        case RequestException(_) =>
          return None;
        case Response(status, content) =>
          if status != 200 {
            return None;
          }
          pages := pages[url := content];
          return Some(content);
      }
    }

    method DdgSearch(topic: string) returns (r: seq<SearchHit>)
      modifies this`results, net
      ensures r == SearchView(old(results), net.ddg, topic)
      ensures results == old(results)[topic := r]
      ensures forall t :: SearchView(results, net.ddg, t) == SearchView(old(results), net.ddg, t)
      // a stored topic is answered without searching
      ensures net.requests == if topic in old(results) then old(net.requests) else old(net.requests) + [DdgQuery(topic)]
    {
      if topic in results {
        return results[topic];
      }
      r := net.Query(topic);
      results := results[topic := r];
    }

    /** `ddg_top_hit`. The ghost `view` names what `fetch` yields for each
        URL at the call; the answer is the first usable hit under it. */
    method DdgTopHit(topic: string, skip: seq<Url>, ghost view: Url -> Option<Bytes>) returns (r: Option<Found>)
      requires forall u :: FetchView(pages, net.page, u) == view(u)
      modifies this, net
      ensures forall u :: FetchView(pages, net.page, u) == view(u)
      ensures results == old(results)[topic := SearchView(old(results), net.ddg, topic)]
      ensures forall t :: SearchView(results, net.ddg, t) == SearchView(old(results), net.ddg, t)
      ensures r == TopHit(SearchView(old(results), net.ddg, topic), skip, view, simplifyHtml, extractTitle)
      // the results up to the first usable one are looked at, and no others
      ensures var hits := SearchView(old(results), net.ddg, topic);
        (pages, net.requests) == ScanTraffic(old(pages), old(net.requests) + SearchRequests(old(results), topic),
                                             net.page, hits, skip, ProbeCount(hits, skip, view, simplifyHtml))
    {
      var hits := DdgSearch(topic);
      assert net.requests == old(net.requests) + SearchRequests(old(results), topic);
      r := Scan(hits, skip, view);
    }

    /** The loop of `ddg_top_hit` over the search results `hits`. */
    method Scan(hits: seq<SearchHit>, skip: seq<Url>, ghost view: Url -> Option<Bytes>) returns (r: Option<Found>)
      requires forall u :: FetchView(pages, net.page, u) == view(u)
      modifies this`pages, net
      ensures forall u :: FetchView(pages, net.page, u) == view(u)
      ensures r == TopHit(hits, skip, view, simplifyHtml, extractTitle)
      ensures (pages, net.requests)
           == ScanTraffic(old(pages), old(net.requests), net.page, hits, skip, ProbeCount(hits, skip, view, simplifyHtml))
    {
      var i := 0;
      while i < |hits|
        invariant 0 <= i <= |hits|
        invariant forall u :: FetchView(pages, net.page, u) == view(u)
        invariant i <= FirstUsable(hits, skip, view, simplifyHtml)
        invariant (pages, net.requests) == ScanTraffic(old(pages), old(net.requests), net.page, hits, skip, i)
      {
        ScanNext(old(pages), old(net.requests), net.page, hits, skip, i, pages, net.requests);
        r := Visit(hits[i], skip, view);
        if r.Some? {
          ScanStopsAt(hits, skip, view, simplifyHtml, extractTitle, i);
          return;
        }
        ScanPasses(hits, skip, view, simplifyHtml, i);
        i := i + 1;
      }
      ScanFindsNothing(hits, skip, view, simplifyHtml, extractTitle);
      return None;
    }

    /** One pass of the loop of `ddg_top_hit`: pass over a skipped result,
        else fetch it and answer with it if its page has text. */
    method Visit(hit: SearchHit, skip: seq<Url>, ghost view: Url -> Option<Bytes>) returns (r: Option<Found>)
      requires forall u :: FetchView(pages, net.page, u) == view(u)
      modifies this`pages, net
      ensures forall u :: FetchView(pages, net.page, u) == view(u)
      ensures r.Some? <==> Usable(hit, skip, view, simplifyHtml)
      ensures r.Some? ==> r.value == Found(hit.href, extractTitle(view(hit.href).value), simplifyHtml(view(hit.href).value))
      ensures (pages, net.requests) == ProbeTraffic(old(pages), old(net.requests), net.page, hit.href, skip)
    {
      var href := hit.href;
      if href in skip {
        return None;
      }
      var html := Fetch(href);
      assert html == view(href);
      if html.Some? && html.value != [] {
        var title := extractTitle(html.value);
        var content := simplifyHtml(html.value);
        if content != "" {
          return Some(Found(href, title, content));
        }
      }
      return None;
    }

    /** `fetch_sources`, given the search topics the model proposed. */
    method FetchSources(searches: seq<string>, ghost view: Url -> Option<Bytes>, ghost searchView: string -> seq<SearchHit>)
      returns (backgroundText: string, sources: seq<(Url, string)>)
      requires forall u :: FetchView(pages, net.page, u) == view(u)
      requires forall t :: SearchView(results, net.ddg, t) == searchView(t)
      modifies this, net
      ensures backgroundText == BackgroundText(Findings(searches, searchView, view, simplifyHtml, extractTitle))
      ensures sources == SourceList(Findings(searches, searchView, view, simplifyHtml, extractTitle))
      ensures |sources| <= |searches|
      ensures forall i, j :: 0 <= i < j < |sources| ==> sources[i].0 != sources[j].0
      ensures forall u :: FetchView(pages, net.page, u) == view(u)
      ensures forall t :: SearchView(results, net.ddg, t) == searchView(t)
      // every search is stored, and the network is asked only about the searches and their results
      ensures results.Keys == old(results).Keys + Topics(searches)
      ensures TrafficWithin(old(pages), pages, old(net.requests), net.requests, searches, searchView)
    {
      backgroundText, sources := "", [];
      ghost var fs: seq<Finding> := [];
      assert old(net.requests)[..|old(net.requests)|] == old(net.requests);
      for i := 0 to |searches|
        invariant fs == Findings(searches[..i], searchView, view, simplifyHtml, extractTitle)
        invariant backgroundText == BackgroundText(fs) && sources == SourceList(fs)
        invariant forall u :: FetchView(pages, net.page, u) == view(u)
        invariant forall t :: SearchView(results, net.ddg, t) == searchView(t)
        invariant results.Keys == old(results).Keys + Topics(searches[..i])
        invariant TrafficWithin(old(pages), pages, old(net.requests), net.requests, searches[..i], searchView)
      {
        var skip := SourceUrls(sources);
        TrafficStep(old(pages), pages, old(net.requests), net.requests, searches, i, searchView, results, net.page,
                    skip, ProbeCount(searchView(searches[i]), skip, view, simplifyHtml));
        SearchedStep(old(results).Keys, results, searches, i, searchView(searches[i]));
        var found := DdgTopHit(searches[i], skip, view);
        FetchSourcesStep(searches, i, fs, searchView, view, simplifyHtml, extractTitle, found);
        if found.Some? && found.value.href != "" {
          var f := Finding(searches[i], found.value);
          backgroundText := backgroundText + Section(f);
          sources := sources + [(found.value.href, found.value.title)];
          fs := fs + [f];
        }
      }
      assert searches[..|searches|] == searches;
      SourceListFacts(searches, searchView, view, simplifyHtml, extractTitle);
    }
  }
}
