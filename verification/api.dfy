/** The two job endpoints of app/main.py, as operations on the job store. */
module Api {
  import opened Wrappers
  import opened Text
  import opened Models
  import opened Jobs
  import opened Scraping

  /** The body of the 202 response to `POST /create-scrape-job`. */
  datatype JobResponse = JobResponse(jobId: nat, websiteUrl: string, status: string)

  /** A background run handed to the task scheduler. */
  datatype Task = Task(jobId: nat, url: string, isCompetitorScrape: bool)

  datatype Submitted = Submitted(store: Store, response: JobResponse, task: Task)

  /** `create_scrape_job`; `url` is `str(request.website_url)`. */
  function CreateScrapeJob(st: Store, url: string): (r: Submitted)
    requires Valid(st)
    ensures Valid(r.store)
    ensures r.response.jobId !in st.jobs
    ensures r.store.jobs == st.jobs[r.response.jobId := Job(r.response.jobId, None, url, Pending, None)]
    ensures r.response.websiteUrl == url && r.response.status == "PENDING"
    ensures r.task == Task(r.response.jobId, url, false)
  {
    var (store, id) := Add(st, url, None);
    var job := store.jobs[id];
    Submitted(store, JobResponse(job.id, job.websiteUrl, StatusText(job.status)), Task(id, url, false))
  }

  /** The scheduled run, as the scheduler would perform it. */
  function RunTask(st: Store, task: Task, env: Env): Store
    requires Valid(st)
  {
    RunScrapingTask(st, task.jobId, task.url, task.isCompetitorScrape, env)
  }

  /** The body of `GET /results/{job_id}`. */
  datatype JobResult = JobResult(jobId: nat, status: string, websiteUrl: string, data: Option<BrandInsights>)

  /** The `HTTPException` raised for an unknown id. */
  datatype HttpError = HttpError(statusCode: nat, detail: string)

  /** `get_scrape_results`: a read; the store is not an output. */
  function GetScrapeResults(st: Store, jobId: nat): (r: Result<JobResult, HttpError>)
    ensures r.Failure? <==> jobId !in st.jobs
    ensures r.Failure? ==> r.error == HttpError(404, "Job not found")
    ensures r.Success? ==>
      && r.value.jobId == jobId
      && r.value.status == StatusText(st.jobs[jobId].status)
      && r.value.websiteUrl == st.jobs[jobId].websiteUrl
      && (r.value.data.Some? <==> st.jobs[jobId].status == Completed && st.jobs[jobId].data.Some?)
      && (r.value.data.Some? ==> r.value.data == st.jobs[jobId].data)
  {
    if jobId !in st.jobs then Failure(HttpError(404, "Job not found"))
    else
      var job := st.jobs[jobId];
      StatusTextCompleted(job.status);
      var data := if StatusText(job.status) == "COMPLETED" && job.data.Some? then job.data else None;
      Success(JobResult(jobId, StatusText(job.status), job.websiteUrl, data))
  }

  /** Submitting, running the scheduled task and querying the new id reports
      COMPLETED with insights for the normalised URL when the scrape succeeds,
      and a FAILED status with no data otherwise. */
  lemma SubmitRunQuery(st: Store, url: string, env: Env)
    requires Valid(st)
    ensures var s := CreateScrapeJob(st, url);
      var q := GetScrapeResults(RunTask(s.store, s.task, env), s.response.jobId);
      && q.Success?
      && q.value.websiteUrl == url
      && (Scrape(url, env).Success? ==>
            q.value.status == "COMPLETED" && q.value.data.Some? && q.value.data.value.websiteUrl == NormaliseUrl(url))
      && (Scrape(url, env).Failure? ==>
            q.value.status == "FAILED: " + Scrape(url, env).error && q.value.data.None?)
  {
  }
}
