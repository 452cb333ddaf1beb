# Shopify Insights Fetcher: extraction and job lifecycle in Dafny

This project models the core of the Shopify Insights Fetcher. That core is `ScrapingService`, which builds a `BrandInsights` record for a storefront from its homepage and its `/products.json` endpoint. The model also covers the background job run that records that record on a scrape job and adds PENDING competitor jobs. It also covers the two endpoints that submit and query jobs.

Pages are abstract. A parsed page (`Documents.Doc`) holds:
- its anchors in document order, each with its BeautifulSoup `.string` and optional `href`;
- its plain and space-separated text;
- the text of its `<main>` and `<body>`, when present;
- a flat run of sibling elements, each a tag name and its text.

A fetch returns `Ok(doc)` or `Err(message)`. The `/products.json` response is one of four cases:
- the request failed;
- the body is not JSON;
- the JSON is not an object;
- an object, with its optional `products` list.

A run needs the network, `urljoin` and the regex engine. These are fields of `Scraping.Env`, given as function values. The job table is a map from id to job, with the id the next insert receives (`Jobs.Store`).

Modules:
- `Wrappers`: `Option` and `Result`.
- `Text`: ASCII lower-casing, substring search, `endswith`, `rstrip`.
- `Seqs`: first match (BeautifulSoup `find`), de-duplication, prefixes and subsequences.
- `Models`: the records of `app/models.py`.
- `Documents`: the abstract page and fetch.
- `Catalog`: `_fetch_product_catalog`.
- `Extractors`: the other extractors.
- `Competitors`: `find_competitors_for`.
- `Jobs`: the job table and its writes.
- `Scraping`: the service constructor, `get_full_insights` and `run_scraping_task`.
- `Api`: `create_scrape_job` and `get_scrape_results`.

The model follows the code, including these behaviours:
- The FAQ answer is the first later `p` sibling (`find_next_sibling`), which need not be adjacent. Two questions before one paragraph share its answer (`FaqAnswerNeedNotBeAdjacent`).
- Missing product keys are not treated as an empty result. A missing `id`, `title`, … or `variants` raises `KeyError`. It escapes the catalog extractor, and the job fails with `FAILED: An error occurred during scraping: '<key>'`.
- JSON whose top level is not an object also escapes, as an `AttributeError`.
- `urljoin` raises `ValueError` for an href such as `https://[x`. In the social-handle and important-link lookups nothing catches it, so the job fails with the scraping prefix. In the FAQ and linked-page extractors it is caught like a failed fetch.
- The homepage is fetched in the service constructor, outside the `try` of `get_full_insights`. Its failure message therefore reaches the job without the scraping prefix.
- `phones` holds what the phone pattern's capture group matched: `""`, `"+91"`, or `"+91"` and a separator. It never holds the number itself.
- The important-link and linked-page lookups look only at the first anchor whose text matches. If that anchor has no `href`, the lookup ignores later matching anchors.
- A linked page that is fetched but has neither `<main>` nor `<body>` ends the keyword search with `None`.
- The optional text fields are always passed explicitly, so the sentinel defaults ("Context not found.", "Policy not found.") never appear.
- Competitor jobs are created PENDING and never run. The run returns the store with them added, and a competitor-marked run adds no jobs.

## Model

| member | source | states |
|---|---|---|
| Text.RStrip | app/services/scraping_service.py:17 | the result is a prefix of the URL, does not end in '/', and everything removed was '/' |
| Text.RStripUnique | app/services/scraping_service.py:17 | those three facts determine the stripped URL uniquely |
| Scraping.NormaliseUrl | app/services/scraping_service.py:17 | the base URL is the input without any trailing '/', and only '/' characters were dropped |
| Scraping.NormaliseIdempotent | app/services/scraping_service.py:17 | normalising an already normalised URL changes nothing |
| Scraping.NewService | app/services/scraping_service.py:16-18 | construction succeeds exactly when the homepage fetch of the normalised URL succeeds; the base URL is normalised; a failure carries the fetch's own message |
| Scraping.GetFullInsights | app/services/scraping_service.py:20-39 | the catalog step, then the social-handle lookup, then the important-link lookup can raise, and the first exception becomes the job's error with the "An error occurred during scraping: " prefix; otherwise website_url is the base URL, every field is its extractor's result (catalog, social handles, contact details, FAQs, important links, the three linked-page texts for their keyword lists) with no sentinel substituted, and the hero list, at most 5 titles, comes from that catalog |
| Catalog.BuildProduct | app/services/scraping_service.py:50-56 | a record is built exactly when the price converts and all keys are present; fields are copied and the price follows the first-variant rule; a price failure is a ValueError and comes before any key lookup; otherwise the KeyError names the first missing key in argument order (id, title, vendor, product_type, handle, created_at, variants) |
| Catalog.BuildAll | app/services/scraping_service.py:49-57 | the loop builds one record per product, in order, when none fails; otherwise its exception is that of the first failing product (ValueError or KeyError with its key) |
| Catalog.FetchCatalog | app/services/scraping_service.py:41-59 | request failures, invalid JSON and a missing products key give []; a fully built `products` list gives exactly the built records; a price failure gives []; a non-object body raises with "'<type>' object has no attribute 'get'" and a missing key raises with "'<key>'", the key of the first failing product |
| Catalog.CatalogFollowsProducts | app/services/scraping_service.py:49-57 | a fully built catalog has one entry per product, in order, with that product's title and id and price = first variant's price, or 0.0 when the list is empty or the key absent |
| Catalog.MissingIdEscapes | app/services/scraping_service.py:53 | a product without `id` makes the catalog raise KeyError 'id' instead of returning [] |
| Extractors.FirstHref | app/services/scraping_service.py:119-121 | a link is found exactly when the first anchor satisfying the test has a non-empty href, and then it is that anchor's href |
| Extractors.CollectLinks | app/services/scraping_service.py:68-71 | the lookups are taken in order; the loop raises exactly when some found link's join raises, with the first such join's message; otherwise a key is present exactly when its lookup finds a link, holding the joined URL, and no other key appears |
| Extractors.SocialHandles | app/services/scraping_service.py:61-72 | keys are within {instagram, facebook, twitter, youtube, tiktok}; a platform is present exactly when the first anchor whose href matches its domain case-insensitively has an href, and its value is that href joined to the base URL; the lookup raises exactly when one of those joins raises, with the message of the first in platform order |
| Extractors.SocialMatchHasHref | app/services/scraping_service.py:69-71 | an href matching a platform pattern is never empty, so the truthiness test drops nothing |
| Extractors.ImportantLinks | app/services/scraping_service.py:114-122 | keys are within {Contact, Track Order, Blog}; a label is present exactly when the first anchor whose text matches it case-insensitively has an href, and its value is that href joined to the base URL; the lookup raises exactly when one of those joins raises, with the message of the first in label order |
| Extractors.FirstMatchingAnchorDecides | app/services/scraping_service.py:119-121 | when the first text-matching anchor lacks an href, the label is absent even if a later matching anchor has one |
| Extractors.CapturedGroup | app/services/scraping_service.py:78 | a phone match contributes "" or a string of at most 4 characters starting "+91", never the number |
| Extractors.ContactDetails | app/services/scraping_service.py:74-79 | exactly the keys emails and phones; each list is duplicate-free; emails has the same members as the email matches, phones the same members as the captured groups of the phone matches |
| Extractors.PhonesAreCapturedGroups | app/services/scraping_service.py:78-79 | with no +91 prefix in any match, the only possible phones entry is "" |
| Extractors.LinkedPageText | app/services/scraping_service.py:81-93 | keywords are tried in order; the first keyword whose first matching anchor has an href that joins and whose page fetches decides the result (main, else body); a missing link, a join that raises or a failed fetch falls through; none succeeding gives None |
| Extractors.FirstFetchedPageDecides | app/services/scraping_service.py:88-90 | a fetched page with neither `<main>` nor `<body>` ends the search with None; later keywords are not tried |
| Extractors.NextParagraph | app/services/scraping_service.py:107 | the answer position is the first later `p` sibling, with no `p` in between, not necessarily adjacent; none when no later `p` exists |
| Extractors.FaqFrom | app/services/scraping_service.py:104-110 | every entry's question ends with '?' and there are no more entries than elements scanned |
| Extractors.EntryPositions | app/services/scraping_service.py:105-109 | the qualifying positions are in range, strictly increasing, each a `strong`/`b` ending in '?' with a later `p`, and none is missed |
| Extractors.FaqOrder | app/services/scraping_service.py:105-109 | the k-th FAQ entry pairs the k-th qualifying element's text with its next `p`'s text, so entries follow document order |
| Extractors.MentionPositions | app/services/scraping_service.py:128-129 | the positions of the products whose title the homepage text mentions: in range, strictly increasing, each mentioned, and none missed |
| Extractors.MatchingOrder | app/services/scraping_service.py:128-130 | the k-th title the loop appends is the title of the product at the k-th mentioned position |
| Extractors.Faqs | app/services/scraping_service.py:95-112 | no "faq" anchor with an href gives []; otherwise the result is the entries of the page its href joins to and fetches, or [] when the join or the fetch raises; each question ends in '?' |
| Extractors.FaqAnswerNeedNotBeAdjacent | app/services/scraping_service.py:105-109 | two questions followed by a non-`p` sibling and then one `p` both get that `p` as their answer |
| Extractors.MatchingTitles | app/services/scraping_service.py:126-130 | one title per product whose title the homepage text contains case-insensitively, repeats included: the k-th result is the title of the k-th such product in catalog order, and no such product is missed |
| Extractors.HeroProducts | app/services/scraping_service.py:131 | a prefix of the matching titles of length min(5, number of matches) |
| Extractors.HeroProductsSound | app/services/scraping_service.py:124-131 | hero products are catalog titles in catalog order, each found in the homepage text; a matching title is left out only when the list already has 5 |
| Extractors.HeroProductsFirstMentioned | app/services/scraping_service.py:128-131 | the hero list holds exactly the titles of the first min(5, n) products whose title the homepage text mentions, in catalog order |
| Competitors.FindCompetitors | app/services/competitor_service.py:1-14 | total; length 0 or 4; non-empty exactly when the URL contains memy.co.in, and then the four fixed URLs in the listed order |
| Competitors.CompetitorsDistinct | app/services/competitor_service.py:7-12 | the returned URLs are pairwise distinct |
| Competitors.CompetitorsHaveNoCompetitors | app/services/competitor_service.py:6-14 | no returned URL contains memy.co.in, so looking any of them up again gives [] |
| Jobs.StatusTextCompleted | app/main.py:54 | a status reads "COMPLETED" exactly when it is the completed status; no "FAILED: …" message can read so |
| Jobs.Add | app/main.py:27-33 | the new row takes a fresh id, is PENDING with the given URL and parent and no data, and nothing else changes |
| Jobs.Complete | app/services/scraping_service.py:142-146 | an existing job becomes COMPLETED with the insights as data; an unknown id changes nothing |
| Jobs.RecordFailure | app/services/scraping_service.py:171-175 | an existing job's status becomes "FAILED: <message>" with its data untouched; an unknown id changes nothing |
| Jobs.FailureOverwritesCompleted | app/services/scraping_service.py:144-175 | a failure recorded after completion leaves the job FAILED |
| Jobs.AddChildren | app/services/scraping_service.py:152-161 | one PENDING child per URL, with consecutive fresh ids in URL order, parent set to the job, and existing rows unchanged |
| Scraping.Scrape | app/services/scraping_service.py:138-140 | a homepage failure yields the fetch's message; after a successful homepage fetch the outcome is `get_full_insights` on the normalised URL and that page, so the scrape succeeds exactly when the homepage loads and neither the catalog step nor the two link lookups raise; a success's website_url is the normalised URL |
| Scraping.RecordOutcome | app/services/scraping_service.py:142-175 | an existing job's row becomes COMPLETED with exactly the insights as data on success, or "FAILED: <message>" with its data left alone on failure, keeping id, URL and parent; other rows are unchanged; the only new rows are the children, added only after a non-competitor success, one per competitor URL in order, PENDING, with the job as parent; an unknown id changes nothing |
| Scraping.RecordSuccess | app/services/scraping_service.py:142-161 | the existing job becomes COMPLETED with the insights as data and nothing else of it changes; other rows are unchanged; a non-competitor run then adds one PENDING child per competitor URL, in order, with consecutive fresh ids, and a competitor run adds none |
| Scraping.RowRecordedTerminal | app/services/scraping_service.py:143-175 | a recorded row is never PENDING, reads COMPLETED exactly after a success with the insights as data, reads "FAILED: <message>" with its old data after a failure, and keeps id, URL and parent |
| Scraping.RunScrapingTask | app/services/scraping_service.py:133-175 | the job's row is recorded from the scrape's outcome as for RecordOutcome (the insights themselves as data, whose website_url is the normalised URL; or the message with data untouched); other rows unchanged; the only new rows are the competitor children; an unknown id changes nothing |
| Scraping.RunLeavesJobTerminal | app/services/scraping_service.py:138-175 | after a run the existing job is not PENDING; it is COMPLETED with the scrape's insights exactly when the scrape succeeds, and otherwise FAILED with the scrape's message and its data untouched; id, URL and parent are kept |
| Scraping.CompetitorRunsDoNotExpand | app/services/scraping_service.py:150-166 | a run marked as a competitor scrape adds no job, and the children's URLs have no competitors of their own |
| Scraping.HomepageFailureIsFatal | app/services/scraping_service.py:139-175 | a failed homepage fetch fails the job with the fetch's message and adds no job |
| Api.CreateScrapeJob | app/main.py:27-41 | submit adds one PENDING job with a fresh id and the request URL; the response echoes id, URL and "PENDING"; the scheduled run is for that id and URL, not marked as a competitor run |
| Api.GetScrapeResults | app/main.py:48-62 | an unknown id gives 404 "Job not found"; otherwise id, status text and URL are returned as stored, and data is present exactly when the status is COMPLETED and data is stored |
| Api.SubmitRunQuery | app/main.py:27-62 | submit, run, query: the query finds the job with the submitted URL; on success it reads COMPLETED with website_url the normalised URL; on failure it reads "FAILED: <message>" with no data |

## Left out

- HTTP fetching (`app/utils/http_client.py`): the shared session, headers and timeouts. Fetch results are an input (`Env.fetch`, `Env.productsEndpoint`).
- HTML parsing, and the whitespace handling of `get_text`. Pages are given as the abstract `Doc`. For FAQs, `strong`/`b` tags nested inside other elements are not represented, because the model sees only one run of siblings.
- The regex engine, `urljoin` and `float()`. Regex matches and the outcome of each join (a URL or `ValueError`'s message) come from `Env`; a price is either a converted number or a conversion failure. Every keyword pattern in the source is free of regex metacharacters, so a pattern search is modelled as a case-insensitive substring test.
- Text.LowerChar: folds ASCII letters only. Python's `lower()` and `re.IGNORECASE` also fold non-ASCII letters.
- Extractors.SocialHandles: the result is a Dafny map, so the insertion order of the source's dict (instagram, facebook, twitter, youtube, tiktok) is not kept in the stored JSON. The lookups themselves run in that order, which fixes which join error is reported.
- Extractors.ImportantLinks: likewise loses the dict order Contact, Track Order, Blog.
- Scraping.Env: `fetch` is a function, so two fetches of the same URL in one run always have the same outcome (for example a privacy link and a refund link to one page). The network can answer them differently.
- Extractors.ContactDetails: does not fix the list order. `list(set(...))` follows Python's hash order, so the model states only membership and absence of duplicates.
- Pydantic validation of `Product` field types, JSON `null` values, and a `products` value that is not a list of objects. The raw product has only present or absent keys of the expected types.
- Pydantic's normalisation of `website_url` in the request. The URL string given to `CreateScrapeJob` is `str(request.website_url)`.
- The SQLAlchemy session, commits, `refresh` and timestamps. The store is a map; ids are handed out from 1 upward, with no deletes.
- Exceptions raised by the database layer, the only possible failures during competitor expansion. `RecordFailure` still overwrites a COMPLETED status (`FailureOverwritesCompleted`).
- FastAPI `BackgroundTasks` and the `print` on line 168 of `app/services/scraping_service.py`. Competitor runs are never started in the source. `Api.RunTask` shows how a scheduler would perform a submitted run.
- The health-check endpoint `root`, which returns a constant message.
- `app/exceptions.py`: its exceptions are represented by their messages.
