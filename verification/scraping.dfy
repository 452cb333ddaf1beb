/** `ScrapingService` and `run_scraping_task`
    (app/services/scraping_service.py): the orchestrator that fetches the
    homepage, runs every extractor and records the outcome on the job. */
module Scraping {
  import opened Wrappers
  import opened Text
  import opened Models
  import opened Documents
  import opened Catalog
  import opened Extractors
  import opened Competitors
  import opened Jobs

  /** Everything outside the model that a run consults:
      - `fetch`: `fetch_soup`;
      - `productsEndpoint`: the GET of `/products.json` and its JSON decoding;
      - `join`: `urljoin`, which can raise `ValueError`;
      - `findEmails`, `findPhones`: `re.findall` with the email and phone patterns. */
  datatype Env = Env(
    fetch: string -> Fetched,
    productsEndpoint: string -> CatalogResponse,
    join: Joiner,
    findEmails: string -> seq<string>,
    findPhones: string -> seq<PhoneMatch>)

  /** A constructed `ScrapingService`: its base URL and homepage. */
  datatype Service = Service(baseUrl: string, home: Doc)

  /** `base_url.rstrip('/')`. */
  function NormaliseUrl(url: string): (r: string)
    ensures IsPrefix(r, url) && !EndsWith(r, '/')
    ensures forall i :: |r| <= i < |url| ==> url[i] == '/'
  {
    RStrip(url, '/')
  }

  /** Normalising a normalised URL changes nothing. */
  lemma NormaliseIdempotent(url: string)
    ensures NormaliseUrl(NormaliseUrl(url)) == NormaliseUrl(url)
  {
  }

  /** `ScrapingService(base_url)`: the homepage is fetched in the constructor,
      so its failure is not turned into a scraping error. */
  function NewService(url: string, env: Env): (r: Result<Service, string>)
    ensures r.Success? <==> env.fetch(NormaliseUrl(url)).Ok?
    ensures r.Success? ==> r.value.baseUrl == NormaliseUrl(url) && r.value.home == env.fetch(NormaliseUrl(url)).doc
    ensures r.Failure? ==> r.error == env.fetch(NormaliseUrl(url)).msg
  {
    var base := NormaliseUrl(url);
    match env.fetch(base)
    case Ok(home) => Success(Service(base, home))
    case Err(msg) => Failure(msg)
  }

  const ScrapingErrorPrefix := "An error occurred during scraping: "

  function ProductsUrl(base: string): string
  {
    base + "/products.json"
  }

  /** The catalog step of `get_full_insights`. */
  function CatalogOf(svc: Service, env: Env): Result<seq<Product>, string>
  {
    FetchCatalog(env.productsEndpoint(ProductsUrl(svc.baseUrl)))
  }

  /** `get_full_insights`: the catalog is built first, then the record's
      arguments are evaluated in order. The catalog step, the social-handle
      lookup and the important-link lookup can raise (a `KeyError`, an
      `AttributeError`, or `urljoin`'s `ValueError`); the first exception
      becomes `ScrapingException` with the prefixed message. The FAQ and
      linked-page extractors catch their own exceptions. */
  function GetFullInsights(svc: Service, env: Env): (r: Result<BrandInsights, string>)
    ensures r.Failure? <==>
      || CatalogOf(svc, env).Failure?
      || SocialHandles(svc.baseUrl, svc.home.anchors, env.join).Failure?
      || ImportantLinks(svc.baseUrl, svc.home.anchors, env.join).Failure?
    ensures CatalogOf(svc, env).Failure? ==> r == Failure(ScrapingErrorPrefix + CatalogOf(svc, env).error)
    ensures CatalogOf(svc, env).Success? && SocialHandles(svc.baseUrl, svc.home.anchors, env.join).Failure? ==>
      r == Failure(ScrapingErrorPrefix + SocialHandles(svc.baseUrl, svc.home.anchors, env.join).error)
    ensures (&& CatalogOf(svc, env).Success?
             && SocialHandles(svc.baseUrl, svc.home.anchors, env.join).Success?
             && ImportantLinks(svc.baseUrl, svc.home.anchors, env.join).Failure?) ==>
      r == Failure(ScrapingErrorPrefix + ImportantLinks(svc.baseUrl, svc.home.anchors, env.join).error)
    ensures r.Success? ==> var b := r.value;
      && b.websiteUrl == svc.baseUrl
      && b.productCatalog == CatalogOf(svc, env).value
      && |b.heroProducts| <= 5
      && b.heroProducts == HeroProducts(b.productCatalog, svc.home.text)
      && b.socialHandles == SocialHandles(svc.baseUrl, svc.home.anchors, env.join).value
      && b.contactDetails == ContactDetails(svc.home.spacedText, env.findEmails, env.findPhones)
      && b.faqs == Faqs(svc.baseUrl, svc.home.anchors, env.join, env.fetch)
      && b.importantLinks == ImportantLinks(svc.baseUrl, svc.home.anchors, env.join).value
      && b.privacyPolicy == LinkedPageText(svc.baseUrl, svc.home.anchors, ["privacy"], env.join, env.fetch)
      && b.refundPolicy == LinkedPageText(svc.baseUrl, svc.home.anchors, ["refund", "return"], env.join, env.fetch)
      && b.brandContext == LinkedPageText(svc.baseUrl, svc.home.anchors, ["about us", "our story"], env.join, env.fetch)
  {
    var base := svc.baseUrl;
    var anchors := svc.home.anchors;
    match CatalogOf(svc, env)
    case Failure(e) => Failure(ScrapingErrorPrefix + e)
    case Success(catalog) =>
      match SocialHandles(base, anchors, env.join)
      case Failure(e) => Failure(ScrapingErrorPrefix + e)
      case Success(social) =>
        match ImportantLinks(base, anchors, env.join)
        case Failure(e) => Failure(ScrapingErrorPrefix + e)
        case Success(links) =>
          Success(BrandInsights(
            websiteUrl := base,
            productCatalog := catalog,
            heroProducts := HeroProducts(catalog, svc.home.text),
            socialHandles := social,
            contactDetails := ContactDetails(svc.home.spacedText, env.findEmails, env.findPhones),
            faqs := Faqs(base, anchors, env.join, env.fetch),
            importantLinks := links,
            brandContext := LinkedPageText(base, anchors, ["about us", "our story"], env.join, env.fetch),
            privacyPolicy := LinkedPageText(base, anchors, ["privacy"], env.join, env.fetch),
            refundPolicy := LinkedPageText(base, anchors, ["refund", "return"], env.join, env.fetch)))
  }

  /** The run's outcome before anything is written: insights, or the
      message the `except` branch records. A homepage failure keeps the
      fetch's own message; an extractor failure carries the scraping prefix. */
  function Scrape(url: string, env: Env): (r: Result<BrandInsights, string>)
    ensures env.fetch(NormaliseUrl(url)).Err? ==> r == Failure(env.fetch(NormaliseUrl(url)).msg)
    ensures env.fetch(NormaliseUrl(url)).Ok? && r.Failure? ==> IsPrefix(ScrapingErrorPrefix, r.error)
    ensures r.Success? ==> r.value.websiteUrl == NormaliseUrl(url) && env.fetch(NormaliseUrl(url)).Ok?
    ensures env.fetch(NormaliseUrl(url)).Ok? ==>
      r == GetFullInsights(Service(NormaliseUrl(url), env.fetch(NormaliseUrl(url)).doc), env)
    ensures r.Success? <==>
      && env.fetch(NormaliseUrl(url)).Ok?
      && CatalogOf(Service(NormaliseUrl(url), env.fetch(NormaliseUrl(url)).doc), env).Success?
      && SocialHandles(NormaliseUrl(url), env.fetch(NormaliseUrl(url)).doc.anchors, env.join).Success?
      && ImportantLinks(NormaliseUrl(url), env.fetch(NormaliseUrl(url)).doc.anchors, env.join).Success?
  {
    match NewService(url, env)
    case Failure(msg) => Failure(msg)
    case Success(svc) => GetFullInsights(svc, env)
  }

  /** The job's own row after the run: COMPLETED with the insights as its
      data, or "FAILED: <message>" with its data left alone. */
  predicate RowRecorded(before: Job, after: Job, outcome: Result<BrandInsights, string>)
  {
    match outcome
    case Success(insights) => after == before.(status := Completed, data := Some(insights))
    case Failure(msg) => after == before.(status := Failed(msg))
  }

  /** A recorded row is never PENDING, reads COMPLETED exactly after a
      success, and keeps its id, URL and parent. */
  lemma RowRecordedTerminal(before: Job, after: Job, outcome: Result<BrandInsights, string>)
    requires RowRecorded(before, after, outcome)
    ensures after.status != Pending
    ensures after.status == Completed <==> outcome.Success?
    ensures outcome.Failure? ==> after.status == Failed(outcome.error) && after.data == before.data
    ensures outcome.Success? ==> after.data == Some(outcome.value)
    ensures after.id == before.id && after.websiteUrl == before.websiteUrl && after.parentJobId == before.parentJobId
  {
  }

  /** The competitor URLs a run expands into: those of `url` after a
      non-competitor run of an existing job succeeds, none otherwise. */
  function ChildUrls(st: Store, jobId: nat, url: string, isCompetitorScrape: bool,
                     outcome: Result<BrandInsights, string>): seq<string>
  {
    if jobId in st.jobs && outcome.Success? && !isCompetitorScrape then FindCompetitors(url) else []
  }

  /** What `run_scraping_task` writes once the scrape's outcome is known. */
  function RecordOutcome(st: Store, jobId: nat, url: string, isCompetitorScrape: bool,
                         outcome: Result<BrandInsights, string>): (r: Store)
    requires Valid(st)
    ensures Valid(r)
    ensures jobId !in st.jobs ==> r == st
    ensures jobId in st.jobs ==> jobId in r.jobs && RowRecorded(st.jobs[jobId], r.jobs[jobId], outcome)
    ensures KeepsOthers(st, r, jobId)
    ensures AddsChildren(st, r, jobId, ChildUrls(st, jobId, url, isCompetitorScrape, outcome))
  {
    match outcome
    case Failure(msg) => RecordFailure(st, jobId, msg)
    case Success(insights) =>
      if jobId !in st.jobs then st
      else RecordSuccess(st, jobId, url, isCompetitorScrape, insights)
  }

  /** The `try` branch for an existing job once the scrape succeeded: the job
      becomes COMPLETED with the insights, then a non-competitor run adds
      one PENDING child per competitor URL. */
  function RecordSuccess(st: Store, jobId: nat, url: string, isCompetitorScrape: bool,
                         insights: BrandInsights): (r: Store)
    requires Valid(st) && jobId in st.jobs
    ensures Valid(r)
    ensures jobId in r.jobs && r.jobs[jobId] == st.jobs[jobId].(status := Completed, data := Some(insights))
    ensures KeepsOthers(st, r, jobId)
    ensures AddsChildren(st, r, jobId, if isCompetitorScrape then [] else FindCompetitors(url))
  {
    var done := Complete(st, jobId, insights);
    if isCompetitorScrape then done
    else
      var r := AddChildren(done, jobId, FindCompetitors(url));
      AddChildrenWrites(done, jobId, FindCompetitors(url));
      KeepsOthersChain(st, done, r, jobId);
      r
  }

  /** `run_scraping_task`: a run ends the job COMPLETED with the insights as
      data or FAILED with the exception's message. Only a non-competitor run
      that completes adds jobs: one PENDING child per competitor URL, each
      pointing at the job. */
  function RunScrapingTask(st: Store, jobId: nat, url: string, isCompetitorScrape: bool, env: Env): (r: Store)
    requires Valid(st)
    ensures Valid(r)
    ensures jobId !in st.jobs ==> r == st
    ensures jobId in st.jobs ==> jobId in r.jobs && RowRecorded(st.jobs[jobId], r.jobs[jobId], Scrape(url, env))
    ensures jobId in st.jobs && Scrape(url, env).Success? ==> r.jobs[jobId].data.value.websiteUrl == NormaliseUrl(url)
    ensures KeepsOthers(st, r, jobId)
    ensures AddsChildren(st, r, jobId, ChildUrls(st, jobId, url, isCompetitorScrape, Scrape(url, env)))
  {
    var outcome := Scrape(url, env);
    RecordOutcome(st, jobId, url, isCompetitorScrape, outcome)
  }

  /** A run never leaves an existing job PENDING: it reads COMPLETED with
      the scrape's insights exactly when the scrape succeeds, and otherwise
      "FAILED: <message>" with its data left alone; id, URL and parent are
      kept. */
  lemma RunLeavesJobTerminal(st: Store, jobId: nat, url: string, isCompetitorScrape: bool, env: Env)
    requires Valid(st) && jobId in st.jobs
    ensures var r := RunScrapingTask(st, jobId, url, isCompetitorScrape, env);
      && jobId in r.jobs
      && r.jobs[jobId].status != Pending
      && (r.jobs[jobId].status == Completed <==> Scrape(url, env).Success?)
      && (Scrape(url, env).Success? ==> r.jobs[jobId].data == Some(Scrape(url, env).value))
      && (Scrape(url, env).Failure? ==>
            r.jobs[jobId].status == Failed(Scrape(url, env).error) && r.jobs[jobId].data == st.jobs[jobId].data)
      && r.jobs[jobId].websiteUrl == st.jobs[jobId].websiteUrl
      && r.jobs[jobId].parentJobId == st.jobs[jobId].parentJobId
  {
    var r := RunScrapingTask(st, jobId, url, isCompetitorScrape, env);
    RowRecordedTerminal(st.jobs[jobId], r.jobs[jobId], Scrape(url, env));
  }

  /** Expansion is one level deep: running a competitor job adds no job,
      and the children a run creates carry URLs with no competitors. */
  lemma CompetitorRunsDoNotExpand(st: Store, jobId: nat, url: string, env: Env)
    requires Valid(st)
    ensures var r := RunScrapingTask(st, jobId, url, true, env);
      r.nextId == st.nextId && r.jobs.Keys == st.jobs.Keys
    ensures forall c :: c in FindCompetitors(url) ==> FindCompetitors(c) == []
  {
    CompetitorsHaveNoCompetitors(url);
  }

  /** A failed homepage fetch fails the job with the fetch's message and
      runs no extractor. */
  lemma HomepageFailureIsFatal(st: Store, jobId: nat, url: string, env: Env)
    requires Valid(st) && jobId in st.jobs && env.fetch(NormaliseUrl(url)).Err?
    ensures RunScrapingTask(st, jobId, url, false, env).jobs[jobId].status
      == Failed(env.fetch(NormaliseUrl(url)).msg)
    ensures RunScrapingTask(st, jobId, url, false, env).nextId == st.nextId
  {
  }
}
