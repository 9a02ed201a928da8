/**
 * The two database tables the routes and the orchestrator touch, `cities` and `research_jobs`,
 * held in memory.  A query is a read of the current state and a write is a separate step, so a
 * check followed by an insert is two steps with nothing binding them together.
 */
module Tables {
  import opened Wrappers
  import opened Json
  import opened Records

  /** The failing replies of a route: the HTTP status and the `error` text of the body. */
  datatype HttpError = HttpError(status: nat, error: string)

  /** Job `i` of the table has id `i`: ids count creations, so a later job is a newer one. */
  predicate Numbered(jobs: seq<Job>) {
    forall i | 0 <= i < |jobs| :: jobs[i].id == i
  }

  /** `.from('research_jobs').select('results_json').eq('id', id).single()`: the stored payload,
      `None` when there is no such job or its column is `null`. */
  function StoredResults(jobs: seq<Job>, id: nat): (r: Option<Json>)
    ensures id >= |jobs| ==> r == None
    ensures id < |jobs| ==> r == jobs[id].results
  {
    if id < |jobs| then jobs[id].results else None
  }

  /** `.update({ results_json: results }).eq('id', id)`: rewrites that one job, if it exists. */
  function WithResults(jobs: seq<Job>, id: nat, results: Json): (r: seq<Job>)
    ensures |r| == |jobs|
    ensures forall i | 0 <= i < |jobs| && i != id :: r[i] == jobs[i]
    ensures id < |jobs| ==> r[id] == jobs[id].(results := Some(results))
  {
    if id < |jobs| then jobs[id := jobs[id].(results := Some(results))] else jobs
  }

  /** `.update({...}).eq('id', id)` of a whole row: replaces that one job, if it exists. */
  function WithJob(jobs: seq<Job>, id: nat, job: Job): (r: seq<Job>)
    ensures |r| == |jobs|
    ensures forall i | 0 <= i < |jobs| && i != id :: r[i] == jobs[i]
    ensures id < |jobs| ==> r[id] == job
  {
    if id < |jobs| then jobs[id := job] else jobs
  }

  lemma WithResultsNumbered(jobs: seq<Job>, id: nat, results: Json)
    requires Numbered(jobs)
    ensures Numbered(WithResults(jobs, id, results))
  {
  }

  /** The jobs of one city that are in a given status, oldest first. */
  function JobsOf(jobs: seq<Job>, cityId: string, status: JobStatus): (r: seq<Job>)
    ensures forall j | j in r :: j in jobs && j.cityId == cityId && j.status == status
    ensures forall j | j in jobs && j.cityId == cityId && j.status == status :: j in r
    ensures |r| <= |jobs|
  {
    if jobs == [] then []
    else
      var rest := JobsOf(jobs[1..], cityId, status);
      assert forall j | j in jobs[1..] :: j in jobs;
      if jobs[0].cityId == cityId && jobs[0].status == status then [jobs[0]] + rest else rest
  }

  /** `.single()` of PostgREST: the one row of the query, and `null` (with an error) when the query
      matched no row or more than one. */
  function Single<T>(rows: seq<T>): (r: Option<T>)
    ensures r.Some? <==> |rows| == 1
    ensures r.Some? ==> r.value == rows[0]
  {
    if |rows| == 1 then Some(rows[0]) else None
  }

  /** `.from('cities').update({ wordpress_url: url, published_at: at }).eq('id', id)`: rewrites
      those two columns of that one city, if it exists. */
  function WithPublished(cities: map<string, City>, id: string, url: string, at: string): (r: map<string, City>)
    ensures r.Keys == cities.Keys
    ensures forall k | k in cities && k != id :: r[k] == cities[k]
    ensures id in cities ==> r[id] == cities[id].(wordpressUrl := Some(url), publishedAt := Some(at))
  {
    if id in cities then cities[id := cities[id].(wordpressUrl := Some(url), publishedAt := Some(at))] else cities
  }

  /** The in-memory database. */
  class Store {
    var cities: map<string, City>
    var jobs: seq<Job>

    ghost predicate Valid()
      reads this
    {
      Numbered(jobs)
    }

    constructor(cities: map<string, City>)
      ensures Valid()
      ensures this.cities == cities && jobs == []
    {
      this.cities := cities;
      jobs := [];
    }

    /** `.from('cities').select('*').eq('id', id).single()`: ids are unique. */
    method FindCity(id: string) returns (c: Option<City>)
      ensures c.Some? <==> id in cities
      ensures c.Some? ==> c.value == cities[id]
    {
      if id in cities {
        c := Some(cities[id]);
      } else {
        c := None;
      }
    }

    method FindResults(id: nat) returns (r: Option<Json>)
      ensures r == StoredResults(jobs, id)
    {
      if id < |jobs| {
        r := jobs[id].results;
      } else {
        r := None;
      }
    }

    method UpdateResults(id: nat, results: Json)
      requires Valid()
      modifies this
      ensures Valid()
      ensures jobs == WithResults(old(jobs), id, results)
      ensures cities == old(cities)
    {
      WithResultsNumbered(jobs, id, results);
      if id < |jobs| {
        jobs := jobs[id := jobs[id].(results := Some(results))];
      }
    }

    method UpdateJob(id: nat, job: Job)
      requires Valid() && job.id == id
      modifies this
      ensures Valid()
      ensures jobs == WithJob(old(jobs), id, job)
      ensures cities == old(cities)
    {
      if id < |jobs| {
        jobs := jobs[id := job];
      }
    }

    method FindJob(id: nat) returns (j: Option<Job>)
      ensures j.Some? <==> id < |jobs|
      ensures j.Some? ==> j.value == jobs[id]
    {
      if id < |jobs| {
        j := Some(jobs[id]);
      } else {
        j := None;
      }
    }

    method UpdatePublished(id: string, url: string, at: string)
      modifies this
      ensures cities == WithPublished(old(cities), id, url, at)
      ensures jobs == old(jobs)
    {
      if id in cities {
        cities := cities[id := cities[id].(wordpressUrl := Some(url), publishedAt := Some(at))];
      }
    }

    /** An insert: the new row gets the next id. */
    method Insert(cityId: string, status: JobStatus, progress: Option<int>, currentStep: Option<string>,
                  results: Option<Json>)
      returns (id: nat)
      requires Valid()
      modifies this
      ensures Valid()
      ensures id == |old(jobs)|
      ensures jobs == old(jobs) + [Job(id, cityId, status, progress, currentStep, results, None)]
      ensures cities == old(cities)
    {
      id := |jobs|;
      jobs := jobs + [Job(id, cityId, status, progress, currentStep, results, None)];
    }
  }
}
