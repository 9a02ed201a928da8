/**
 * The rows the pipeline reads and writes: cities and research jobs.  Timestamps are not kept;
 * a job's `results_json` is a JSON value.
 */
module Records {
  import opened Wrappers
  import opened Json

  /** A row of the `cities` table.  `name` is the `city` column. */
  datatype City = City(
    id: string,
    name: string,
    stateCode: string,
    slug: string,
    county: Option<string>,
    population: Option<int>,
    latitude: Json,
    longitude: Json,
    wikidataId: Option<string>,
    publishedAt: Option<string>,
    wordpressUrl: Option<string>)

  datatype JobStatus = Processing | Completed | Failed

  /** A row of the `research_jobs` table.  `id` is the order of creation; `None` in an optional
      column is a column the inserting code left to the table's default. */
  datatype Job = Job(
    id: nat,
    cityId: string,
    status: JobStatus,
    progress: Option<int>,
    currentStep: Option<string>,
    results: Option<Json>,
    errorMessage: Option<string>)
}
