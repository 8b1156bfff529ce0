# gpt-search: the caching and source-collection core, in Dafny

gpt-search answers a question by asking a language model which web
searches would help, running those searches on DuckDuckGo, fetching the
top page of each, and handing the collected text to the model. This
project models the bookkeeping around the external services and proves
what it promises:

- `llmlib.py`: the `Llm` object (module `LlmLib`, class `Llm`). Its `ask`
  refuses prompts of 25 characters or fewer. It looks the prompt up in a
  cache keyed by `("ask", repr(api), prompt)` and counts the call as a hit
  or a miss. It asks the backend only on a miss and writes the answer back.
  The backend (`Api`/`Openai`) is an oracle, class `Backend`. Each call may
  answer with any text or raise, and it is recorded in a transcript. That
  lets the contracts say when the backend was reached and how often.
- `gpt_search.py`: the `GptSearch` object (module `Search`). `fetch` and
  `ddg_search` memoise page fetches and searches. `ddg_top_hit` picks the
  first usable search result. `fetch_sources` collects background text and
  a list of distinct sources over several searches. The web and the search
  engine are the class `Internet`, which answers each URL and each topic in
  a fixed way during one run and logs every request. `simplify_html` and
  `extract_title` are function-valued fields of `GptSearch`.

The stateful parts are classes with map fields and methods whose
postconditions give the new state in terms of the old one (for
`fetch_sources`, bounds on it). Their meaning is
pinned down by pure functions and lemmas. `Tally` gives the counters after
one call. `FetchView`/`SearchView` give what a fetch or a search yields.
`TopHit` is the first-match rule of `ddg_top_hit`, and `ScanTraffic` gives
the pages it stores and the requests it makes. `Findings` is the fold of
`fetch_sources`, and `TrafficWithin` bounds what it stores and requests.

The two diskcache stores are in-memory maps. The `gpt_search` cache keys
`("fetch", url)` and `("ddg_search", topic)` carry different tags, so they
are two maps here: `pages` and `results`. A persistent cache does not start
empty, so each constructor takes the stored entries as a parameter. The
`Llm` counters do start empty.

A few details of the code that the model keeps:
- The total counter is named `ask-<repr(api)>` (`llmlib.py:50`).
- A hit needs a truthy cached value, so a cached empty string is a miss.
- The prompt check is an `assert` (`llmlib.py:46`).
- `summarize` and `counter_string` are called at `gpt_search.py:163` and
  `:178` but are defined nowhere in these files.

Files: `wrappers.dfy` (Option, Result), `llmlib.dfy`, `gpt_search.dfy`.

## Model

| member | source | states |
|---|---|---|
| `LlmLib.Increment` | llmlib.py:67-69 | a missing counter reads as 0; the named counter goes up by exactly 1, every other counter keeps its value, no counter decreases, and the name is now present |
| `LlmLib.Llm.IncrementCounter` | llmlib.py:67-69 | the counter dictionary is updated in place to `Increment` of its old value |
| `LlmLib.IsHit` | llmlib.py:49-52 | a call is a hit when the cache holds a value under its key and that value is truthy (a non-empty string); a missing key or a cached empty string is a miss |
| `LlmLib.Tally` | llmlib.py:50-56 | the counters after the bookkeeping of one accepted call: the total counter `ask-<id>` is incremented, then `ask-<id>-hit` on a hit or `ask-<id>-miss` on a miss |
| `LlmLib.CounterNamesDistinct` | llmlib.py:50-56 | `ask-<id>`, `ask-<id>-hit` and `ask-<id>-miss` are three different names, so the three tallies never alias |
| `LlmLib.TallyCountsOneCall` | llmlib.py:49-56 | an accepted call adds 1 to the total, 1 to the hit counter exactly when it is a hit and 1 to the miss counter exactly when it is not, and leaves every other counter unchanged |
| `LlmLib.TallyKeepsBalance` | llmlib.py:50-56 | total = hit + miss is preserved by every accepted call |
| `LlmLib.Backend.Ask` | llmlib.py:18-26 | the backend may answer anything or raise; each call is appended to its transcript |
| `LlmLib.Llm.constructor` | llmlib.py:32-36 | the counters start empty, the cache holds what was stored before, and total = hit + miss holds |
| `LlmLib.Llm.Ask` | llmlib.py:42-65 | a prompt of at most 25 characters fails before any lookup, count or backend call. Otherwise the counters become `Tally` of the old ones, hit iff the cache holds a non-empty value for `(repr(api), prompt)`. A hit returns the cached text without reaching the backend. A miss reaches the backend exactly once with the prompt and returns its answer. A returned text is stored under its key and no other key changes. If the backend raises, the error propagates, total and miss were already counted, and the cache is unchanged. total = hit + miss and "only own counter names" are kept |
| `LlmLib.RepeatedAsk` | llmlib.py:48-65 | after an answer with non-empty text, asking the same prompt again returns the same text as a hit. The total grows by 2 and the backend is reached at most once across both calls |
| `Search.Internet.Get` | gpt_search.py:72 | the response for a URL is fixed for the run; the request is logged |
| `Search.Internet.Query` | gpt_search.py:96 | the results for a topic are fixed for the run; the query is logged |
| `Search.FetchView` | gpt_search.py:64-84 | what `fetch(url)` returns given the stored pages: the stored body if the URL is stored, otherwise the body of a status-200 response, otherwise nothing (another status or a request exception) |
| `Search.FetchStore` | gpt_search.py:64-84 | after a fetch the page cache holds what the fetch yielded under its URL if it yielded something, and is unchanged otherwise (failures are not cached) |
| `Search.FetchStoreKeepsView` | gpt_search.py:64-84 | a fetch never changes what any later fetch yields, so repeated fetches of a URL within a run agree |
| `Search.GptSearch.Fetch` | gpt_search.py:62-84 | a cached URL returns the stored body with no network request. Otherwise there is exactly one request. A 200 response's body is stored and returned. Another status or a request exception returns None and leaves the cache unchanged |
| `Search.SearchView` | gpt_search.py:88-100 | what `ddg_search(topic)` returns given the stored results: the stored results if the topic is stored, otherwise the search engine's results for the topic |
| `Search.GptSearch.DdgSearch` | gpt_search.py:86-100 | a cached topic returns the stored results with no search. Otherwise there is exactly one search. Either way the cache afterwards maps the topic to the returned results |
| `Search.Usable` | gpt_search.py:106-114 | the test one search result must pass to be the top hit: its URL is not skipped, fetching it yields a body, the body is non-empty, and its simplified text is non-empty |
| `Search.FirstUsable` | gpt_search.py:105-116 | the position of the first result that is not skipped, fetches to a non-empty body and simplifies to non-empty text, or the length if there is none; every earlier result is unusable |
| `Search.TopHit` | gpt_search.py:102-117 | the result is None (`(None, None, None)`) iff no search result is usable; otherwise its URL is not in `skip` and its content is non-empty |
| `Search.TopHitIsFirstUsable` | gpt_search.py:105-116 | a found hit is the first usable result in search order, paired with the title and simplified content of its page |
| `Search.FirstUsableAt` | gpt_search.py:105-116 | a usable result with no usable result before it is the one the first-match rule picks; `ScanStopsAt` uses this to show that the loop's early return at such a result answers `TopHit` |
| `Search.ProbeCount` | gpt_search.py:105-116 | the loop of `ddg_top_hit` looks at no result after the first usable one, and when it stops early the last result it looked at is usable |
| `Search.ScanStopsAt` | gpt_search.py:105-116 | when result i is usable and none before it is, the loop looks at results 0..i and answers with result i, its title and its simplified text |
| `Search.ScanFindsNothing` | gpt_search.py:105-117 | when no result is usable, the loop looks at every result and answers `(None, None, None)` |
| `Search.ProbeTraffic` | gpt_search.py:105-110 | the stored pages and the request log after the loop looks at one result: a skipped URL changes nothing; any other URL is fetched, which stores a successful page and logs one request only when the page was not stored |
| `Search.ScanTraffic` | gpt_search.py:105-110 | the stored pages and the request log after the loop has looked at the first n results, one `ProbeTraffic` step per result in search order |
| `Search.ScanTrafficFacts` | gpt_search.py:105-110 | the loop of `ddg_top_hit` never drops or replaces a stored page, stores only pages of results it looked at that were not skipped, only appends to the request log, and every request it makes fetches such a result |
| `Search.SearchRequests` | gpt_search.py:89-96 | `ddg_search` makes one request, a search for the topic, exactly when the topic is not stored, and none otherwise |
| `Search.GptSearch.Visit` | gpt_search.py:106-116 | one pass of the loop answers with the result exactly when it is usable, with its title and simplified text. A skipped result is not fetched and changes nothing. Any other result is fetched once through `fetch` |
| `Search.GptSearch.Scan` | gpt_search.py:105-117 | the loop answers `TopHit` of the results, and the stored pages and the request log afterwards are those of `ScanTraffic` over the results up to the first usable one |
| `Search.GptSearch.DdgTopHit` | gpt_search.py:102-117 | `ddg_top_hit` returns `TopHit` of the topic's search results under what `fetch` yields at the call, and its own fetches do not change that. The results cache gains the topic. The pages and the request log afterwards are the search request, if the topic was not stored, followed by `ScanTraffic` over the results up to the first usable one |
| `Search.Urls` | gpt_search.py:127 | the skip list holds the URLs of the findings so far, index for index |
| `Search.SourceList` | gpt_search.py:131 | the source list holds the (URL, title) of the findings, index for index |
| `Search.Section` | gpt_search.py:130 | the text one finding adds to the background: `# {search}`, a blank line, the page's simplified content, a blank line |
| `Search.Step` | gpt_search.py:126-131 | one iteration of the loop of `fetch_sources`: look up the search's top hit skipping the URLs found so far, and keep it only if its URL is non-empty; the findings either stay as they were or gain exactly one finding, for this search, with a non-empty URL |
| `Search.Findings` | gpt_search.py:125-131 | the hits `fetch_sources` keeps, in search order, each lookup skipping the URLs found before it |
| `Search.BackgroundText` | gpt_search.py:130 | the background text built from the findings: their sections concatenated in order |
| `Search.StepOutcome` | gpt_search.py:126-131 | one iteration appends a finding exactly when the lookup found a hit with a non-empty URL, and otherwise leaves the findings as they were |
| `Search.SourceUrls` | gpt_search.py:127 | `[source for source, _ in sources]` holds the URL of each source, index for index |
| `Search.SkipIsUrls` | gpt_search.py:127 | the skip list built from the source list is the list of URLs found so far |
| `Search.FindingsPrefix` | gpt_search.py:125-131 | the findings over the first i+1 searches are one iteration over the findings of the first i |
| `Search.FetchSourcesStep` | gpt_search.py:125-131 | one loop iteration keeps the background text and the source list equal to those of the findings over the searches done so far |
| `Search.SourceListFacts` | gpt_search.py:125-132 | the returned source list has at most one entry per search and no URL twice |
| `Search.FindingsDistinct` | gpt_search.py:125-131 | no two collected sources share a URL, because each lookup skips every URL collected before it |
| `Search.FindingsBounded` | gpt_search.py:125-131 | there are at most as many sources as searches, and every finding comes from one of the searches with a non-empty URL and content |
| `Search.FindingsInSearchOrder` | gpt_search.py:125-131 | the findings follow the order of the searches: finding k comes from search `idx[k]`, and `idx` is strictly increasing |
| `Search.NoHitAddsNothing` | gpt_search.py:126-129 | a search with no usable hit leaves the background text and the source list as they were |
| `Search.AppendFinding` | gpt_search.py:130-131 | a finding appends `# {search}\n\n{content}\n\n` to the background text and its (URL, title) to the sources, so the two stay aligned |
| `Search.SearchedStep` | gpt_search.py:125-126 | after search i the stored topics are the starting ones plus the first i+1 searches |
| `Search.TrafficStep` | gpt_search.py:125-127 | one `ddg_top_hit` call keeps `TrafficWithin` of the searches so far: stored pages stay, new pages are results of those searches, the request log only grows, and every new request searches one of them or fetches one of their results |
| `Search.GptSearch.FetchSources` | gpt_search.py:119-132 | the background text and the sources are those of `Findings` over the searches, under the fetch and search answers at the call. There are at most as many sources as searches, and their URLs are pairwise distinct. What fetches and searches yield is unchanged afterwards. The results cache gains exactly the searched topics. `TrafficWithin` holds: no stored page is dropped or replaced, every new page is a result of one of the searches, the request log only grows, and every new request is a search for one of the topics or a fetch of one of their results |
| `Search.GptSearch.constructor` | gpt_search.py:54-58 | the caches hold what was stored before; the oracles are the given ones |

## Left out

- Logging (`llmlib.py:37-44, 54, 60-61`) and `verbose` printing: file and console output only, with no effect on results.
- The error lines `fetch` prints for a non-200 status and for a request exception (`gpt_search.py:76`, `:83`): console output only, printed whatever `verbose` says.
- Persistence of the diskcache stores and their `appdirs` locations: each cache is an in-memory map whose starting contents are a constructor parameter.
- `Openai.__init__` and the `openai` client call (`llmlib.py:13-26`) are network I/O. They are the `Backend` oracle, and `repr(api)` is its `identity` string.
- `requests.get` and `ddg` are network I/O. `Internet` answers each URL and each topic with one fixed reply per run. A server that answers a retried URL differently within one run is not modelled.
- `Search.GptSearch.DdgTopHit`: an exception from `extract_title` (a page without a `<title>`) or from `ddg` is not modelled. Nor is `ddg` returning `None`.
- `Search.GptSearch.FetchSources`: the stored pages and the request log afterwards are bounded by `TrafficWithin` and not given exactly. Each call of `ddg_top_hit` inside it gives them exactly.
- `simplify_html` and `extract_title` (`gpt_search.py:26-50`) wrap BeautifulSoup, markdownify and a regex. They are arbitrary functions from bytes to text here.
- A search result's fields other than `href` are not used by the code and not modelled.
- `fetch_sources` first asks the model for search topics and parses the reply with `json.loads` (`gpt_search.py:121-122`). A foreign parser is involved, so the model takes the parsed list of topics as input.
- `main` (`gpt_search.py:134-182`): argument parsing, prompt assembly, wrapping and printing. It calls `summarize` and `counter_string`, which do not exist in `llmlib.py`.
- Running Python with `-O` removes the prompt-length `assert`. The model keeps the length test.
- Concurrent use of one cache by several processes: the code is sequential.
