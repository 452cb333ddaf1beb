/** The `scrape_jobs` table (app/db_models.py) as a map from id to job, with
    the writes the endpoints and the background run perform. */
module Jobs {
  import opened Wrappers
  import opened Models

  /** The `status` column: "PENDING", "COMPLETED" or "FAILED: <message>". */
  datatype Status = Pending | Completed | Failed(reason: string)

  /** The status as stored and reported. */
  function StatusText(s: Status): string
  {
    match s
    case Pending => "PENDING"
    case Completed => "COMPLETED"
    case Failed(reason) => "FAILED: " + reason
  }

  /** Only the completed status reads "COMPLETED", whatever a failure's message. */
  lemma StatusTextCompleted(s: Status)
    ensures StatusText(s) == "COMPLETED" <==> s == Completed
  {
    if s.Failed? {
      assert StatusText(s)[0] == 'F';
    }
  }

  datatype Job = Job(
    id: nat,
    parentJobId: Option<nat>,
    websiteUrl: string,
    status: Status,
    data: Option<BrandInsights>)

  /** The table and the id the next insert receives (ids start at 1 and rows
      are never deleted). */
  datatype Store = Store(jobs: map<nat, Job>, nextId: nat)

  const EmptyStore := Store(map[], 1)

  /** Every row sits under its own id, below the next id to hand out. */
  predicate Valid(st: Store)
  {
    && st.nextId >= 1
    && forall id :: id in st.jobs ==> 1 <= id < st.nextId && st.jobs[id].id == id
  }

  /** A fresh PENDING row (`db.add`, `db.commit`, `db.refresh`). */
  function Add(st: Store, url: string, parent: Option<nat>): (r: (Store, nat))
    requires Valid(st)
    ensures Valid(r.0)
    ensures r.1 !in st.jobs && r.1 == st.nextId && r.0.nextId == st.nextId + 1
    ensures r.0.jobs == st.jobs[r.1 := Job(r.1, parent, url, Pending, None)]
  {
    var id := st.nextId;
    (Store(st.jobs[id := Job(id, parent, url, Pending, None)], id + 1), id)
  }

  /** `job.status = "COMPLETED"; job.data = insights.dict()`, when the row exists. */
  function Complete(st: Store, id: nat, insights: BrandInsights): (r: Store)
    requires Valid(st)
    ensures Valid(r)
    ensures id in st.jobs ==> r.jobs == st.jobs[id := st.jobs[id].(status := Completed, data := Some(insights))]
    ensures id !in st.jobs ==> r == st
    ensures r.nextId == st.nextId
  {
    if id in st.jobs then st.(jobs := st.jobs[id := st.jobs[id].(status := Completed, data := Some(insights))])
    else st
  }

  /** The `except` branch of `run_scraping_task`: the row's status becomes
      "FAILED: <message>" whatever it was before; its data is left alone. */
  function RecordFailure(st: Store, id: nat, msg: string): (r: Store)
    requires Valid(st)
    ensures Valid(r)
    ensures id in st.jobs ==> r.jobs == st.jobs[id := st.jobs[id].(status := Failed(msg))]
    ensures id !in st.jobs ==> r == st
    ensures r.nextId == st.nextId
  {
    if id in st.jobs then st.(jobs := st.jobs[id := st.jobs[id].(status := Failed(msg))])
    else st
  }

  /** A failure recorded after completion overwrites COMPLETED. */
  lemma FailureOverwritesCompleted(st: Store, id: nat, insights: BrandInsights, msg: string)
    requires Valid(st) && id in st.jobs
    ensures RecordFailure(Complete(st, id, insights), id, msg).jobs[id].status == Failed(msg)
  {
  }

  /** Rows other than `jobId` are unchanged, and every row of `r` is either
      an old row or one whose id this write handed out. */
  predicate KeepsOthers(st: Store, r: Store, jobId: nat)
  {
    && (forall id :: id in st.jobs && id != jobId ==> id in r.jobs && r.jobs[id] == st.jobs[id])
    && (forall id :: id in r.jobs ==> id in st.jobs || st.nextId <= id < r.nextId)
  }

  /** Two writes that each keep the other rows keep them together. */
  lemma KeepsOthersChain(a: Store, b: Store, c: Store, jobId: nat)
    requires KeepsOthers(a, b, jobId) && KeepsOthers(b, c, jobId)
    requires a.nextId <= b.nextId <= c.nextId
    ensures KeepsOthers(a, c, jobId)
  {
  }

  /** The ids this write handed out hold one PENDING child of `parent` per
      URL, in URL order. */
  predicate AddsChildren(st: Store, r: Store, parent: nat, urls: seq<string>)
  {
    && r.nextId == st.nextId + |urls|
    && forall id: nat :: st.nextId <= id < r.nextId ==>
      id in r.jobs && r.jobs[id] == Job(id, Some(parent), urls[id - st.nextId], Pending, None)
  }

  /** One PENDING child per URL, in order, each pointing at `parent`. */
  function AddChildren(st: Store, parent: nat, urls: seq<string>): (r: Store)
    requires Valid(st)
    ensures Valid(r)
    ensures r.nextId == st.nextId + |urls|
    ensures forall id :: id in st.jobs ==> id in r.jobs && r.jobs[id] == st.jobs[id]
    ensures forall id: nat :: st.nextId <= id < st.nextId + |urls| ==>
      id in r.jobs && r.jobs[id] == Job(id, Some(parent), urls[id - st.nextId], Pending, None)
    ensures forall id :: id in r.jobs ==> id in st.jobs || st.nextId <= id < st.nextId + |urls|
    decreases |urls|
  {
    if |urls| == 0 then st
    else
      var added := Add(st, urls[0], Some(parent));
      var r := AddChildren(added.0, parent, urls[1..]);
      r
  }

  /** `AddChildren` in terms of the two write predicates. */
  lemma AddChildrenWrites(st: Store, parent: nat, urls: seq<string>)
    requires Valid(st)
    ensures KeepsOthers(st, AddChildren(st, parent, urls), parent)
    ensures AddsChildren(st, AddChildren(st, parent, urls), parent, urls)
  {
    var r := AddChildren(st, parent, urls);
    assert r.nextId == st.nextId + |urls|;
  }
}
