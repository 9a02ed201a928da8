/**
 * The research orchestrator: it creates a `processing` job for a city, runs the content generator
 * and moves the job to `completed` with the generated content, or to `failed` with the error's
 * message.  The generator it is built with is not part of this model: it is a function of the
 * city that may fail.
 */
module Orchestrator {
  import opened Wrappers
  import opened Json
  import opened Records
  import opened Tables

  /** The content generator: the generated content for a city, or the message of the error. */
  type Generator = City -> Result<Json, string>

  /** `{ generatedContent }`. */
  function CompletedResults(content: Json): (r: Json)
    ensures Get(r, "generatedContent") == Some(content)
  {
    JObj(map["generatedContent" := content])
  }

  /** The job after the run: the inserted row with its terminal status written over it. */
  function Finished(job: Job, outcome: Result<Json, string>): (r: Job)
    ensures r.id == job.id && r.cityId == job.cityId
    ensures r.progress == job.progress && r.currentStep == job.currentStep
    ensures outcome.Success? ==>
      r.status == Completed && r.results == Some(CompletedResults(outcome.value)) && r.errorMessage == job.errorMessage
    ensures outcome.Failure? ==>
      r.status == Failed && r.errorMessage == Some(outcome.error) && r.results == job.results
  {
    match outcome
    case Success(content) => job.(status := Completed, results := Some(CompletedResults(content)))
    case Failure(e) => job.(status := Failed, errorMessage := Some(e))
  }

  /** `researchCity`: what it returns or throws, and the jobs afterwards. */
  function Research(cities: map<string, City>, jobs: seq<Job>, generate: Generator, insertSucceeds: bool,
                    cityId: string): (Result<Json, string>, seq<Job>)
  {
    if cityId !in cities then (Failure("City not found"), jobs)
    else if !insertSucceeds then (Failure("Failed to create research job"), jobs)
    else
      var job := Job(|jobs|, cityId, Processing, None, None, None, None);
      var outcome := generate(cities[cityId]);
      (outcome, jobs + [Finished(job, outcome)])
  }

  /** An unknown city or a failed insert throws and leaves no job behind. */
  lemma NoJobWithoutCity(cities: map<string, City>, jobs: seq<Job>, generate: Generator, insertSucceeds: bool,
                         cityId: string)
    requires cityId !in cities || !insertSucceeds
    ensures Research(cities, jobs, generate, insertSucceeds, cityId).1 == jobs
    ensures cityId !in cities ==> Research(cities, jobs, generate, insertSucceeds, cityId).0 == Failure("City not found")
  {
  }

  /** A run that creates its job leaves exactly one new row, already out of `processing`: completed
      with `{ generatedContent }` when the generator succeeded, failed with the error's message
      (which is rethrown) otherwise.  Progress and the current step are never written. */
  lemma OneTerminalTransition(cities: map<string, City>, jobs: seq<Job>, generate: Generator, cityId: string)
    requires Numbered(jobs)
    requires cityId in cities
    ensures var (r, after) := Research(cities, jobs, generate, true, cityId);
      var job := after[|jobs|];
      && |after| == |jobs| + 1 && after[..|jobs|] == jobs && Numbered(after)
      && job.cityId == cityId && job.status != Processing
      && job.progress == None && job.currentStep == None
      && r == generate(cities[cityId])
      && (job.status == Completed <==> r.Success?)
      && (r.Success? ==> job.results == Some(CompletedResults(r.value)) && job.errorMessage == None)
      && (r.Failure? ==> job.errorMessage == Some(r.error) && job.results == None)
  {
    var (r, after) := Research(cities, jobs, generate, true, cityId);
    assert after[..|jobs|] == jobs;
  }

  class ResearchOrchestrator {
    const generator: Generator

    constructor(generator: Generator)
      ensures this.generator == generator
    {
      this.generator := generator;
    }

    /** `researchCity`: the city's lookup, the insert, the generator, then one update. */
    method ResearchCity(store: Store, cityId: string, insertSucceeds: bool) returns (r: Result<Json, string>)
      requires store.Valid()
      modifies store
      ensures store.Valid()
      ensures (r, store.jobs) == Research(old(store.cities), old(store.jobs), generator, insertSucceeds, cityId)
      ensures store.cities == old(store.cities)
    {
      var city := store.FindCity(cityId);
      if city.None? {
        return Failure("City not found");
      }
      if !insertSucceeds {
        return Failure("Failed to create research job");
      }
      var id := store.Insert(cityId, Processing, None, None, None);
      var job := Job(id, cityId, Processing, None, None, None, None);
      var outcome := generator(city.value);
      if outcome.Success? {
        store.UpdateJob(id, job.(status := Completed, results := Some(CompletedResults(outcome.value))));
      } else {
        store.UpdateJob(id, job.(status := Failed, errorMessage := Some(outcome.error)));
      }
      assert store.jobs == old(store.jobs) + [Finished(job, outcome)];
      r := outcome;
    }
  }
}
