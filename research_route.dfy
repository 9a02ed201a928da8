/**
 * The research route: a request to research a city creates a `processing` job with its initial
 * payload, unless the city is unknown or already has a job in progress.  The check for a job in
 * progress and the insert are two separate steps on the tables.
 */
module ResearchRoute {
  import opened Wrappers
  import opened Json
  import opened Records
  import opened Tables

  /** The body of the request; `None` is a missing `cityId`. */
  datatype ResearchRequest = ResearchRequest(cityId: Option<string>)

  datatype ResearchOk = ResearchOk(message: string, cityId: string, jobId: nat, totalPages: nat,
                                   neighborhoods: seq<string>)

  const InitialStep: string := "Initializing..."

  /** `{ pages: [], totalPages: 5, completedPages: 0 }`. */
  const InitialResults: Json :=
    JObj(map["pages" := JArr([]), "totalPages" := JNum(5), "completedPages" := JNum(0)])

  const Neighborhoods: seq<string> := ["Downtown", "Northside", "Westside", "Eastside"]

  const MessageOpen: string := "Research initialized for "

  /** The job a successful request creates. */
  function NewJob(id: nat, cityId: string): Job {
    Job(id, cityId, Processing, Some(0), Some(InitialStep), Some(InitialResults), None)
  }

  /** The guard as written: `.eq('status', 'processing').single()` yields a row only when the
      city has exactly one job in progress. */
  predicate InProgressAsWritten(jobs: seq<Job>, cityId: string) {
    Single(JobsOf(jobs, cityId, Processing)).Some?
  }

  /** The guard as intended: the city has a job in progress. */
  predicate InProgress(jobs: seq<Job>, cityId: string) {
    JobsOf(jobs, cityId, Processing) != []
  }

  /** The reply and the jobs afterwards, given the tables, whether the guard found a job in
      progress, whether the model's key is configured and whether the insert succeeds. */
  function Respond(cities: map<string, City>, jobs: seq<Job>, req: ResearchRequest, inProgress: bool,
                   keyConfigured: bool, insertSucceeds: bool): (Result<ResearchOk, HttpError>, seq<Job>)
  {
    if req.cityId.None? || req.cityId.value == "" then (Failure(HttpError(400, "City ID is required")), jobs)
    else if req.cityId.value !in cities then (Failure(HttpError(404, "City not found")), jobs)
    else if inProgress then (Failure(HttpError(400, "Research already in progress for this city")), jobs)
    else if !keyConfigured then (Failure(HttpError(500, "Server configuration error")), jobs)
    else if !insertSucceeds then (Failure(HttpError(500, "Failed to create job")), jobs)
    else
      var cityId := req.cityId.value;
      (Success(ResearchOk(MessageOpen + cities[cityId].name, cityId, |jobs|, 5, Neighborhoods)),
       jobs + [NewJob(|jobs|, cityId)])
  }

  /** The route as written. */
  function ResearchPost(cities: map<string, City>, jobs: seq<Job>, req: ResearchRequest, keyConfigured: bool,
                        insertSucceeds: bool): (Result<ResearchOk, HttpError>, seq<Job>)
  {
    var inProgress := req.cityId.Some? && InProgressAsWritten(jobs, req.cityId.value);
    Respond(cities, jobs, req, inProgress, keyConfigured, insertSucceeds)
  }

  /** The route with the guard it evidently intends. */
  function GuardedResearchPost(cities: map<string, City>, jobs: seq<Job>, req: ResearchRequest,
                               keyConfigured: bool, insertSucceeds: bool): (Result<ResearchOk, HttpError>, seq<Job>)
  {
    var inProgress := req.cityId.Some? && InProgress(jobs, req.cityId.value);
    Respond(cities, jobs, req, inProgress, keyConfigured, insertSucceeds)
  }

  /** Every rejection leaves the jobs as they were, and the checks come in the route's order:
      a missing id before the lookup, an unknown city before the guard. */
  lemma RejectionsInOrder(cities: map<string, City>, jobs: seq<Job>, req: ResearchRequest, inProgress: bool,
                          keyConfigured: bool, insertSucceeds: bool)
    ensures var (r, after) := Respond(cities, jobs, req, inProgress, keyConfigured, insertSucceeds);
      && (r.Failure? ==> after == jobs)
      && (req.cityId.None? || req.cityId == Some("") ==> r == Failure(HttpError(400, "City ID is required")))
      && (req.cityId.Some? && req.cityId.value != "" && req.cityId.value !in cities ==>
            r == Failure(HttpError(404, "City not found")))
      && (req.cityId.Some? && req.cityId.value != "" && req.cityId.value in cities && inProgress ==>
            r == Failure(HttpError(400, "Research already in progress for this city")))
  {
  }

  /** A created job is the one new row: `processing`, progress 0, `'Initializing...'` and the
      initial payload; the reply always announces 5 pages and the same four neighbourhoods. */
  lemma CreatesInitialJob(cities: map<string, City>, jobs: seq<Job>, req: ResearchRequest, inProgress: bool,
                          keyConfigured: bool, insertSucceeds: bool)
    requires Numbered(jobs)
    requires Respond(cities, jobs, req, inProgress, keyConfigured, insertSucceeds).0.Success?
    ensures var (r, after) := Respond(cities, jobs, req, inProgress, keyConfigured, insertSucceeds);
      && req.cityId.Some? && req.cityId.value in cities && !inProgress && keyConfigured && insertSucceeds
      && |after| == |jobs| + 1 && after[..|jobs|] == jobs && Numbered(after)
      && after[|jobs|].cityId == req.cityId.value && after[|jobs|].status == Processing
      && after[|jobs|].progress == Some(0) && after[|jobs|].currentStep == Some("Initializing...")
      && after[|jobs|].results == Some(InitialResults)
      && r.value.jobId == |jobs| && r.value.totalPages == 5 && |r.value.neighborhoods| == 4
  {
    var (r, after) := Respond(cities, jobs, req, inProgress, keyConfigured, insertSucceeds);
    assert after[..|jobs|] == jobs;
  }

  /** The guard as written lets a request through when the city already has two jobs in
      progress: `.single()` finds no single row, so a third `processing` job is created. */
  lemma AsWrittenAdmitsThirdJob(city: City)
    ensures var jobs := [NewJob(0, "c"), NewJob(1, "c")];
      var (r, after) := ResearchPost(map["c" := city], jobs, ResearchRequest(Some("c")), true, true);
      && InProgress(jobs, "c")
      && r.Success? && |JobsOf(after, "c", Processing)| == 3
  {
    var jobs := [NewJob(0, "c"), NewJob(1, "c")];
    assert JobsOf(jobs, "c", Processing) == jobs by {
      assert jobs[1..] == [NewJob(1, "c")];
      assert jobs[1..][1..] == [];
    }
    var after := jobs + [NewJob(2, "c")];
    assert after[1..] == [NewJob(1, "c"), NewJob(2, "c")];
    assert after[1..][1..] == [NewJob(2, "c")];
    assert after[1..][1..][1..] == [];
  }

  /** With the intended guard no request is let through while the city has a job in progress. */
  lemma GuardedRefusesWhileInProgress(cities: map<string, City>, jobs: seq<Job>, cityId: string,
                                      keyConfigured: bool, insertSucceeds: bool)
    requires cityId != "" && cityId in cities && InProgress(jobs, cityId)
    ensures GuardedResearchPost(cities, jobs, ResearchRequest(Some(cityId)), keyConfigured, insertSucceeds)
         == (Failure(HttpError(400, "Research already in progress for this city")), jobs)
  {
  }

  /** The route run against the tables, as written: the guard's query, then the insert. */
  method PostResearch(store: Store, req: ResearchRequest, keyConfigured: bool, insertSucceeds: bool)
    returns (reply: Result<ResearchOk, HttpError>)
    requires store.Valid()
    modifies store
    ensures store.Valid()
    ensures (reply, store.jobs) == ResearchPost(old(store.cities), old(store.jobs), req, keyConfigured, insertSucceeds)
    ensures store.cities == old(store.cities)
  {
    if req.cityId.None? || req.cityId.value == "" {
      return Failure(HttpError(400, "City ID is required"));
    }
    var cityId := req.cityId.value;
    var city := store.FindCity(cityId);
    if city.None? {
      return Failure(HttpError(404, "City not found"));
    }
    var existing := Single(JobsOf(store.jobs, cityId, Processing));
    if existing.Some? {
      return Failure(HttpError(400, "Research already in progress for this city"));
    }
    if !keyConfigured {
      return Failure(HttpError(500, "Server configuration error"));
    }
    if !insertSucceeds {
      return Failure(HttpError(500, "Failed to create job"));
    }
    var id := store.Insert(cityId, Processing, Some(0), Some(InitialStep), Some(InitialResults));
    reply := Success(ResearchOk(MessageOpen + city.value.name, cityId, id, 5, Neighborhoods));
  }
}
