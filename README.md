# Dead-link crawler: a Dafny model

This project models the scanning core of the DeadLink service.

**`crawlSite`** (`src/lib/crawler.ts`) works in two phases.

- **Phase 1** is a breadth-first crawl, bounded by a page budget. It starts at a root URL. It keeps a FIFO queue of pages to visit and a set of visited pages. It also keeps an insertion-ordered map, `allLinks`, that records every link found on a fetched page.
- **Phase 2** checks each recorded link once, in insertion order.

**The instant-scan route** (`src/app/api/scan/instant/route.ts`) contributes two pieces:

- a per-IP rate limit of three scans per day;
- the totals it writes into the completed report.

The network and the HTML and URL libraries are not modelled. They are oracles, the fields of `Crawler.World`:

- `parse` stands for `new URL(s)`.
- `resolve` stands for `new URL(href, base)`.
- `page` stands for the page GET, including its `res.ok` and `text/html` gates and the `a[href]` extraction. The GET follows redirects, so `page` is the answer at the end of any redirect chain.
- `redirected` says whether that GET followed a redirect (`res.redirected`). The code never reads it. Only the corrected check under "Findings" uses it.
- `probe` stands for the HEAD request with redirects not followed.

A crawl is then a function of the world, the root URL and the budget. In the model of the code, no URL string is fetched twice and no link is probed twice. So modelling the network as functions assumes nothing about it answering the same way twice. The corrected check under "Findings" keeps to this too. It reads what phase 1 recorded, the `loaded` set of the crawl state, and does not ask `page` again.

The code is modelled in the form it is written in:

- `Crawler.CrawlSite`, `CrawlPages`, `CollectLinks` and `CheckLinks` keep the loops of `crawlSite`. Each is proved to compute the fold `Crawler.CrawlSpec`.
- The rate limiter is a class. Its `windows` map is updated in place.
- The href filter, the fragment cut, the anchor-text trimming, the status bands and the tally are functions.

One behaviour of the code is worth knowing:

- The root is queued as given, and the links are queued in normalised form.
- So a root typed without its trailing slash (`https://example.com`) also appears in `allLinks` as `https://example.com/`.
- That copy is queued as a separate URL string. If the budget allows, phase 1 fetches it a second time, and phase 2 then reports it ok/200 without a probe. If the budget runs out first, phase 2 probes it.
- The model follows the code here. The no-refetch theorem is about URL strings.

## Model

| member | source | states |
|---|---|---|
| Crawler.CrawlSite | src/lib/crawler.ts:14-144 | The crawl yields the results, `pagesScanned` and the `onProgress` arguments of `CrawlSpec`. It rejects when the root URL does not parse. |
| Crawler.CrawlPages | src/lib/crawler.ts:19-78 | The phase-1 loop ends with the visited set and the ordered `allLinks` of the fold `Phase1`, started from the root alone. |
| Crawler.CollectLinks | src/lib/crawler.ts:43-71 | The per-anchor callback loop leaves the queue and `allLinks` as `RecordAnchors` does over the page's anchors in document order. |
| Crawler.CheckLinks | src/lib/crawler.ts:80-141 | The phase-2 loop gives one verdict per key of `allLinks`, in order. `onProgress` receives 1..n. |
| Crawler.Start | src/lib/crawler.ts:19-22 | The initial state (root queued, nothing visited or recorded) satisfies the map/order invariant. |
| Crawler.Sight | src/lib/crawler.ts:44-60 | Skipped hrefs and unresolvable hrefs contribute nothing. A surviving anchor has a fragment-free key and is attributed to the current page. |
| Crawler.Absorb | src/lib/crawler.ts:62-70 | Queueing and first-seen insertion leave `visited` alone and keep `order` listing each key of `allLinks` once. |
| Crawler.RecordAnchor | src/lib/crawler.ts:43-71 | One callback leaves `visited` unchanged and keeps the map/order invariant. |
| Crawler.RecordAnchors | src/lib/crawler.ts:43-71 | All callbacks of a page leave `visited` unchanged and keep the map/order invariant. |
| Crawler.Visit | src/lib/crawler.ts:26-41 | A visited head is dropped and nothing else changes. Otherwise the head is marked visited and logged as fetched before any fetch outcome. It is noted in `loaded` exactly when its GET gave an HTML page without a redirect. |
| Crawler.Phase1 | src/lib/crawler.ts:26-78 | The crawl loop keeps the map/order invariant. |
| Crawler.Classify | src/lib/crawler.ts:110-115 | The status is the unique band of the code: 300-399 redirect, 400 and above broken, anything else ok. |
| Crawler.Results | src/lib/crawler.ts:81-82 | Phase 2 yields exactly one result per key. |
| Crawler.CrawlSpec | src/lib/crawler.ts:14-144 | The crawl rejects iff the root URL does not parse. Its other properties are stated by CrawlFetchesEachPageOnce, CrawlResultsOnePerLink, CrawlResultsAttributed and CrawlResultStatuses. |
| Crawler.RedirectTarget | src/lib/crawler.ts:122 | A non-empty `Location` header is the redirect target. An absent or empty one gives none. |
| Crawler.CheckLink | src/lib/crawler.ts:84-136 | Timeout iff no code. A code's status is its band. A code on a link that is not short-circuited is the probe's code. VerdictStatus states the rest. |
| Crawler.Verdict | src/lib/crawler.ts:84-136 | A result carries its entry's URL, source page, text and type, and is timeout iff it has no code. VerdictStatus and CrawlResultStatuses state its status. |
| Urls.Skipped | src/lib/crawler.ts:45 | Empty hrefs and pure fragments are dropped. An href starting with any character other than `#`, `m`, `j` or `t` (an absolute http(s) URL, a relative path) survives the filter. Crawler.Sight states that a dropped href contributes nothing. |
| AnchorText.Trim | src/lib/crawler.ts:59 | The trimmed text is no longer than the text and neither starts nor ends with white space. TrimCutsOnlySpace states that only white space is cut. |
| Urls.StripFragment | src/lib/crawler.ts:54-57 | Clearing the hash gives a prefix of the URL with no `#`. The cut, if any, is at the first `#`. |
| Urls.StripFragmentFixed | src/lib/crawler.ts:54-57 | A URL without a fragment is unchanged by the cut. |
| Urls.FragmentVariantsFold | src/lib/crawler.ts:54-57 | `/p#a`, `/p#b` and `/p` give the same key. |
| Urls.StripPastBase | src/lib/crawler.ts:54-57 | Whatever follows a `#` after a fragment-free base is dropped. |
| AnchorText.SpaceEnd | src/lib/crawler.ts:59 | The forward scan stops at the first non-space character at or after its start, and everything it skips is ECMAScript white space. |
| AnchorText.SpaceStart | src/lib/crawler.ts:59 | The backward scan stops just after the last non-space character before its end, and everything it skips is ECMAScript white space. |
| AnchorText.TrimCutsOnlySpace | src/lib/crawler.ts:59 | `trim()` gives an infix of the text with an all-space head and tail cut off, and the infix neither starts nor ends with white space. |
| AnchorText.StoredText | src/lib/crawler.ts:59 | The stored text is a prefix of the trimmed text, of length min(trimmed length, 100), starting with a non-space. |
| CrawlerProofs.AbsorbFirstSeen | src/lib/crawler.ts:67-70 | Inserting a sighting preserves "every key holds its first sighting". |
| CrawlerProofs.AbsorbQueue | src/lib/crawler.ts:62-65 | Taking in a sighting keeps the queue free of anything but the root and URLs sighted as internal links. The not-yet-visited test is stated by RecordAnchorsQueue and VisitIsFifo. |
| CrawlerProofs.RecordAnchorKeeps | src/lib/crawler.ts:43-71 | One callback preserves the crawl invariant. |
| CrawlerProofs.RecordAnchorsKeeps | src/lib/crawler.ts:43-71 | All callbacks of a page preserve the crawl invariant. |
| CrawlerProofs.VisitKeeps | src/lib/crawler.ts:26-41 | One loop turn preserves the crawl invariant, including the page budget. |
| CrawlerProofs.Phase1Keeps | src/lib/crawler.ts:26-78 | The crawl invariant holds at the end. The loop stops with an empty queue or a spent budget. |
| CrawlerTheorems.StartInv | src/lib/crawler.ts:19-22 | The crawl invariant holds before the first loop turn. |
| CrawlerTheorems.Phase1KeepsFetches | src/lib/crawler.ts:26-29 | The fetch log only grows. |
| CrawlerTheorems.CrawlFetchesEachPageOnce | src/lib/crawler.ts:26-29 | See "CrawlFetchesEachPageOnce" below. |
| CrawlerTheorems.ResultsAt | src/lib/crawler.ts:81-82 | Result i is the verdict on key i. |
| CrawlerTheorems.FirstSightingExists | src/lib/crawler.ts:68 | Every sighted key has a first sighting. |
| CrawlerTheorems.ResultsFollowOrder | src/lib/crawler.ts:81-82 | There is one result per key of the ordered map, and result i is the verdict on key i. |
| CrawlerTheorems.ResultsOnePerKey | src/lib/crawler.ts:81-82 | Result URLs are the keys in insertion order, unique, and every key is reported. |
| CrawlerTheorems.VerdictStatus | src/lib/crawler.ts:84-136 | Timeout iff no code. A code's status is its band. A short-circuited link is 200/ok with no redirect target. Otherwise the result follows the probe. |
| CrawlerTheorems.EntryAttributed | src/lib/crawler.ts:59-70 | See "EntryAttributed" below. |
| CrawlerTheorems.CrawlResultsOnePerLink | src/lib/crawler.ts:45-70 | See "CrawlResultsOnePerLink" below. |
| CrawlerTheorems.ResultAttributed | src/lib/crawler.ts:59-70 | Result i carries the first sighting of its URL, made on a fetched page by one of its anchors. |
| CrawlerTheorems.CrawlResultsAttributed | src/lib/crawler.ts:59-70 | Every result is attributed to the first anchor that yields its URL, on a fetched HTML page. |
| CrawlerTheorems.CrawlResultStatuses | src/lib/crawler.ts:84-136 | See "CrawlResultStatuses" below. |
| CrawlerTheorems.AscendingCounts | src/lib/crawler.ts:94 | The progress sequence is 1..n. |
| CrawlerTheorems.CrawlProgressCounts | src/lib/crawler.ts:94-139 | `onProgress` is called once per result with 1, 2, ..., n, strictly increasing. |
| CrawlerTheorems.RecordAnchorsIgnoresProbe | src/lib/crawler.ts:43-71 | Collecting links never consults the HEAD probe. |
| CrawlerTheorems.Phase1IgnoresProbe | src/lib/crawler.ts:26-78 | Phase 1 never consults the HEAD probe. |
| CrawlerTheorems.ShortCircuitedLinksAreNotProbed | src/lib/crawler.ts:83-96 | Whatever the probe answers, the pages, the link URLs and every short-circuited result stay the same. |
| CrawlerTheorems.RootUnreachable | src/lib/crawler.ts:29-36 | An unfetchable root counts as one scanned page and yields no results. |
| CrawlerTheorems.SinglePageBudget | src/lib/crawler.ts:26 | With a budget of 1 only the root is scanned. Every other link carries its probe's code. |
| CrawlerTheorems.RecordAnchorsQueue | src/lib/crawler.ts:62-65 | Collecting a page's links appends, in document order, the internal not-yet-visited link URLs to the queue. |
| CrawlerTheorems.RecordAnchorsSeen | src/lib/crawler.ts:43-70 | Collecting a page's links appends the sightings of its anchors to the `seen` trace, in document order. |
| CrawlerTheorems.VisitSeen | src/lib/crawler.ts:27-70 | A loop turn appends the fetched page's sightings to `seen`, and nothing for a page it drops or cannot load. So "first in `seen`" in the attribution theorems means first found by the crawl. |
| CrawlerTheorems.VisitIsFifo | src/lib/crawler.ts:27-65 | A loop turn removes the head and appends the fetched page's queued links at the back (FIFO). |
| CrawlerFixes.SeenOnRoot | src/lib/crawler.ts:44-70 | On the example sites of "Findings", the root's one anchor is kept as an internal link to `a`. |
| CrawlerFixes.RootAnchorsRecorded | src/lib/crawler.ts:43-71 | On those sites, recording the root's anchors queues and records `a`. |
| CrawlerFixes.RootVisit | src/lib/crawler.ts:26-71 | On those sites, the first loop turn visits the root, notes it as loaded, and queues and records `a`. |
| CrawlerFixes.SecondVisit | src/lib/crawler.ts:26-38 | On those sites, the second loop turn marks `a` visited whether its GET failed or was redirected. It notes `a` as loaded only when its GET gave an HTML page without a redirect. |
| CrawlerFixes.SiteCrawl | src/lib/crawler.ts:26-78 | On those sites, phase 1 ends with `r` and `a` visited and `a` as the only link. |
| CrawlerFixes.SiteOutcome | src/lib/crawler.ts:80-143 | On those sites, two pages are scanned, and phase 2, as written and corrected, runs over the single link `a`. |
| CrawlerFixes.SiteResults | src/lib/crawler.ts:84-96 | As written, the visited internal link `a` is ok/200 whatever the network answers. |
| CrawlerFixes.BrokenInternalPageReportedOk | src/lib/crawler.ts:84-96 | When the GET of `a` fails, the link to `a` is reported ok/200 although its probe answers 404. |
| CrawlerFixes.RedirectingInternalPageReportedOk | src/lib/crawler.ts:32-38 | When `a` answers 301 to `d`, the link to `a` is reported ok/200 although its probe answers 301 with `Location: d`. |
| CrawlerFixes.ResultsFixed | src/lib/crawler.ts:81-82 | The corrected phase 2 yields exactly one result per key. |
| CrawlerFixes.ResultsFixedAt | src/lib/crawler.ts:81-82 | Result i of the corrected phase 2 is the corrected verdict on key i. |
| CrawlerFixes.Phase1Loaded | src/lib/crawler.ts:26-78 | The crawl loop keeps `loaded` equal to the visited pages whose GET gave an HTML page without a redirect. |
| CrawlerFixes.CrawlLoaded | src/lib/crawler.ts:26-78 | At the end of phase 1, `loaded` is exactly the visited pages that loaded as HTML without a redirect. |
| CrawlerFixes.VerdictFixedStatus | src/lib/crawler.ts:84-136 | Corrected: timeout iff no code, and a code's status is its band. A link not noted as loaded carries its probe's code, band and redirect target. The corrected verdict differs from the code's only on a short-circuited link that did not load. |
| CrawlerFixes.CrawlFixedProbesUnloadedPages | src/lib/crawler.ts:84-136 | Corrected: every result whose GET failed or was redirected carries its probe's code, band and redirect target. |
| CrawlerFixes.ResultsFixedAgree | src/lib/crawler.ts:84-96 | When every visited page is noted as loaded, the corrected phase 2 gives the same results as the code. |
| CrawlerFixes.CrawlFixedAgreesWhenPagesLoad | src/lib/crawler.ts:14-144 | When every visited page loaded as HTML without a redirect, the corrected crawl gives the same outcome as the code. |
| CrawlerFixes.BrokenInternalPageReportedBroken | src/lib/crawler.ts:84-136 | Corrected: when the GET of `a` fails, the link to `a` is reported broken with code 404. |
| CrawlerFixes.RedirectingInternalPageReportedRedirect | src/lib/crawler.ts:84-136 | Corrected: when `a` answers 301 to `d`, the link to `a` is reported redirect with code 301 and `redirect_to` `d`. |
| RateLimit.Admit | src/app/api/scan/instant/route.ts:8-18 | A valid count (1..3) stays valid. A refusal leaves a live entry unchanged. |
| RateLimit.LiveWindowAdmits | src/app/api/scan/instant/route.ts:11-17 | Within a live window with count c, exactly min(calls, 3 - c) calls are admitted. |
| RateLimit.AtMostThreePerWindow | src/app/api/scan/instant/route.ts:11-17 | See "AtMostThreePerWindow" below. |
| RateLimit.RateLimiter.constructor | src/app/api/scan/instant/route.ts:6 | The map starts empty, which satisfies the invariant. |
| RateLimit.RateLimiter.CheckRateLimit | src/app/api/scan/instant/route.ts:8-18 | See "CheckRateLimit" below. |
| Report.CountWhere | src/app/api/scan/instant/route.ts:42-43 | A filter count is at most the length. It equals the length iff every result matches, and is zero iff none does. |
| Report.CountWhereCountsIndices | src/app/api/scan/instant/route.ts:42-43 | The count equals the number of matching positions. |
| Report.CountWhereDisjoint | src/app/api/scan/instant/route.ts:42-43 | Counts of disjoint status sets add up. |
| Report.Tally | src/app/api/scan/instant/route.ts:42-51 | See "Tally" below. |
| Report.StatusCountsPartition | src/app/api/scan/instant/route.ts:42-43 | Every result is counted in exactly one of broken-or-timeout, redirect and ok. |
| Report.TallyLeavesOk | src/app/api/scan/instant/route.ts:42-51 | total - broken - redirected is the number of ok results. |
| Report.FinalReport | src/app/api/scan/instant/route.ts:41-59 | A resolved crawl gives a completed report whose totals are `Tally` of its results and whose page count is `pagesScanned`. A rejected crawl gives a failed report with zero totals. |
| Report.InstantScanReport | src/app/api/scan/instant/route.ts:41-53 | An instant scan of a parsing URL completes with 1..20 pages scanned and one counted result per distinct link. |

The longer "states" entries:

- **CrawlFetchesEachPageOnce:**
  - `pagesScanned == visited.size` and `visited.size <= maxPages`.
  - No URL is fetched twice.
  - The fetched URLs are exactly the visited ones.
  - The root is fetched first.
  - Every other fetched page was sighted as an internal link.
  - The loop stops with an empty queue or with `maxPages` pages visited.
- **EntryAttributed:**
  - An entry of `allLinks` is the first sighting of its key.
  - Its key has no `#`.
  - Its source is a fetched HTML page, one of whose anchors yields the entry.
- **CrawlResultsOnePerLink:** there is one result per `allLinks` entry, in insertion order, with unique fragment-free URLs.
- **CrawlResultStatuses:**
  - The status is timeout iff there is no code; otherwise the status is the band of the code.
  - An internal link to a visited page is ok/200 with no redirect target.
  - Otherwise a result carries its probe's code and non-empty `Location`, or is timeout with a null code.
- **AtMostThreePerWindow:** from no window or an expired one, of the calls within a day of the first, exactly min(calls, 3) are admitted.
- **CheckRateLimit:**
  - A missing or expired (`resetAt < now`) entry becomes `{1, now + 86400000}` and the call is admitted.
  - A live entry at count ≥ 3 refuses and leaves the map unchanged.
  - Otherwise the count goes up by one and the call is admitted.
  - Counts stay within 1..3.
  - Other IPs are untouched.
- **Tally:**
  - `total_links == results.length`.
  - `broken_links` counts the broken or timeout results, and `redirected_links` counts the redirects.
  - `broken + redirected <= total`.

## Findings

| source | as written | input that shows it | evidently intended | confidence | as-written member | corrected member |
|---|---|---|---|---|---|---|
| src/lib/crawler.ts:84 | Phase 2 reports every visited internal page as ok with code 200 and never probes it. A page is marked visited before its GET (line 29). It stays visited when the GET fails, is not 2xx (line 36) or is not HTML (line 38). | Root `r` links to `a`. The GET of `a` fails, its HEAD answers 404, and `maxPages` is 10. The result for `a` is ok/200. | The short cut applies only to a page whose GET gave an HTML page. Every other link gets its probe's verdict, so `a` is broken/404. | not executed | CrawlerFixes.BrokenInternalPageReportedOk | CrawlerFixes.BrokenInternalPageReportedBroken |
| src/lib/crawler.ts:32-35 | The phase-1 GET sets no `redirect` option, so it follows redirects. A page that redirects to an HTML page is visited and crawled, and line 84 reports it ok/200. | Root `r` links to `a`. `a` answers 301 with `Location: d`, `d` is an HTML page, and `maxPages` is 10. The result for `a` is ok/200 with no `redirect_to`. | A page reached only through a redirect is not short-circuited. `a` is redirect/301 with `redirect_to` `d`. | not executed | CrawlerFixes.RedirectingInternalPageReportedOk | CrawlerFixes.RedirectingInternalPageReportedRedirect |

The corrected check is `CrawlerFixes.CheckLinkFixed`. Phase 1 notes in `loaded` each page whose GET gave an HTML page without following a redirect, and the corrected check short-circuits only links in `loaded`. Its properties are stated by:

- `VerdictFixedStatus`;
- `CrawlFixedProbesUnloadedPages`, over every result of a crawl, with `CrawlLoaded` saying what `loaded` holds;
- the two corrected example lemmas.

`CrawlFixedAgreesWhenPagesLoad` shows that the corrected check changes nothing on a site whose visited pages all load without a redirect. The rest of the model follows the code as written, since that is what the service reports.

## Left out

- Real HTTP requests, the 10 s timeouts and the 300 ms and 200 ms politeness delays: the oracles `page` and `probe` give only the outcome.
- HTML parsing with cheerio: `page` returns the `a[href]` elements of a page as (href, text) pairs.
- The WHATWG URL parser: `parse`/`resolve` return an already-serialised href and its host name. The fragment cut assumes, as that serialiser guarantees, that the first `#` of an href starts the fragment.
- `checked_at` timestamps, `randomUUID`, `Date.now()` and the report's `duration_ms`: these are clock and randomness. The rate limiter takes `now` as a parameter.
- DynamoDB persistence (`putReport`, `putResult`) and the UI.
- The rejection path of `FinalReport`: it is reached by any failure of the crawl promise. A persistence failure there is not modelled.
- The POST handler's other steps are not modelled: reading `x-forwarded-for`, the 429/400/500 responses and the body parsing.
- AnchorText.StoredText: cuts after 100 Unicode scalar values, whereas `substring` counts UTF-16 code units. The two differ for text with characters outside the Basic Multilingual Plane.
- RateLimit.RateLimiter.CheckRateLimit: `entry.count++` mutates the shared entry object. This is modelled as storing the updated entry in the map, which is equivalent because nothing else holds the object.
- `redirect_to` is set from any non-empty `Location` header whatever the status, as the code does, not only on redirects.
- `maxPages` is an arbitrary integer. No JavaScript number semantics (NaN, fractions) are modelled.
