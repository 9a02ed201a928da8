/**
 * The bulk operations screen: the city list, each city's latest research job, the set of
 * selected cities with its selection shortcuts, and the two bulk runs that post one request
 * per selected city, one city at a time.
 *
 * A JavaScript `Set` iterates in insertion order, and `Array.from(selectedCities)` fixes the
 * order of the bulk runs, so the selection is kept as a sequence without repeats.
 */
module BulkPage {
  import opened Wrappers
  import opened Records

  // ---------------------------------------------------------------------------
  // Insertion-ordered sets of ids
  // ---------------------------------------------------------------------------

  predicate NoRepeats(ids: seq<string>) {
    forall i, j | 0 <= i < j < |ids| :: ids[i] != ids[j]
  }

  /** `new Set(ids)`: the ids in order of first appearance. */
  function SetFrom(ids: seq<string>): (r: seq<string>)
    ensures NoRepeats(r)
    ensures forall x :: x in r <==> x in ids
  {
    if ids == [] then []
    else
      var s := SetFrom(ids[..|ids| - 1]);
      var x := ids[|ids| - 1];
      assert ids == ids[..|ids| - 1] + [x];
      if x in s then s else s + [x]
  }

  /** `set.delete(id)`. */
  function Without(ids: seq<string>, id: string): (r: seq<string>)
    requires NoRepeats(ids)
    ensures NoRepeats(r)
    ensures forall x :: x in r <==> x in ids && x != id
  {
    if ids == [] then []
    else
      assert NoRepeats(ids[1..]) by {
        forall i, j | 0 <= i < j < |ids| - 1 ensures ids[1..][i] != ids[1..][j] {
          assert ids[1..][i] == ids[i + 1] && ids[1..][j] == ids[j + 1];
        }
      }
      if ids[0] == id then Without(ids[1..], id)
      else
        var rest := Without(ids[1..], id);
        assert forall x | x in rest :: x in ids[1..];
        assert forall k | 0 <= k < |rest| :: rest[k] in ids[1..] && rest[k] != ids[0];
        [ids[0]] + rest
  }

  /** `toggleCity`: delete the id when it is there, add it at the end otherwise. */
  function Toggled(selected: seq<string>, id: string): (r: seq<string>)
    requires NoRepeats(selected)
    ensures NoRepeats(r)
  {
    if id in selected then Without(selected, id) else selected + [id]
  }

  /** Toggling flips the membership of that one id and of no other. */
  lemma ToggleFlipsOne(selected: seq<string>, id: string)
    requires NoRepeats(selected)
    ensures id in Toggled(selected, id) <==> id !in selected
    ensures forall x | x != id :: x in Toggled(selected, id) <==> x in selected
  {
  }

  /** Toggling twice selects the same ids again; a deselected id put back moves to the end. */
  lemma ToggleTwice(selected: seq<string>, id: string)
    requires NoRepeats(selected)
    ensures forall x :: x in Toggled(Toggled(selected, id), id) <==> x in selected
    ensures id !in selected ==> Toggled(Toggled(selected, id), id) == selected
  {
    if id !in selected {
      WithoutAbsentLast(selected, id);
    }
  }

  lemma {:induction false} WithoutAbsentLast(ids: seq<string>, id: string)
    requires NoRepeats(ids) && id !in ids
    ensures NoRepeats(ids + [id]) && Without(ids + [id], id) == ids
  {
    if ids != [] {
      assert NoRepeats(ids[1..]) by {
        forall i, j | 0 <= i < j < |ids[1..]| ensures ids[1..][i] != ids[1..][j] {
          assert ids[1..][i] == ids[i + 1] && ids[1..][j] == ids[j + 1];
        }
      }
      WithoutAbsentLast(ids[1..], id);
      assert (ids + [id])[1..] == ids[1..] + [id];
    }
  }

  // ---------------------------------------------------------------------------
  // The latest job of each city
  // ---------------------------------------------------------------------------

  /** The map built from jobs listed newest first: a city's first job is the one kept. */
  function LatestJobs(rows: seq<Job>): map<string, Job> {
    if rows == [] then map[]
    else
      var m := LatestJobs(rows[..|rows| - 1]);
      var job := rows[|rows| - 1];
      if job.cityId in m then m else m[job.cityId := job]
  }

  /** Every city with a job has an entry, and it is that city's first job in the list. */
  lemma {:induction false} LatestJobsFirst(rows: seq<Job>)
    ensures forall id :: id in LatestJobs(rows) <==> exists i | 0 <= i < |rows| :: rows[i].cityId == id
    ensures forall id | id in LatestJobs(rows) :: exists i | 0 <= i < |rows| ::
      && rows[i] == LatestJobs(rows)[id] && rows[i].cityId == id
      && forall j | 0 <= j < i :: rows[j].cityId != id
  {
    if rows != [] {
      var n := |rows| - 1;
      var init := rows[..n];
      LatestJobsFirst(init);
      var m := LatestJobs(init);
      forall id ensures id in LatestJobs(rows) <==> exists i | 0 <= i < |rows| :: rows[i].cityId == id {
        if exists i | 0 <= i < |rows| :: rows[i].cityId == id {
          var i :| 0 <= i < |rows| && rows[i].cityId == id;
          if i < n {
            assert init[i].cityId == id;
          }
        }
        if id in m {
          var i :| 0 <= i < n && init[i].cityId == id;
          assert rows[i].cityId == id;
        }
      }
      forall id | id in LatestJobs(rows) ensures exists i | 0 <= i < |rows| ::
        && rows[i] == LatestJobs(rows)[id] && rows[i].cityId == id
        && forall j | 0 <= j < i :: rows[j].cityId != id
      {
        if id in m {
          var i :| 0 <= i < n && init[i] == m[id] && init[i].cityId == id
            && forall j | 0 <= j < i :: init[j].cityId != id;
          assert rows[i] == init[i];
          assert forall j | 0 <= j < i :: rows[j] == init[j];
        } else {
          assert rows[n].cityId == id;
          forall j | 0 <= j < n ensures rows[j].cityId != id {
            assert init[j] == rows[j];
          }
        }
      }
    }
  }

  // ---------------------------------------------------------------------------
  // Selection rules and the status of a card
  // ---------------------------------------------------------------------------

  /** `!c.published_at`: absent or empty. */
  predicate Unpublished(c: City) {
    c.publishedAt.None? || c.publishedAt.value == ""
  }

  predicate HasStatus(jobs: map<string, Job>, id: string, status: JobStatus) {
    id in jobs && jobs[id].status == status
  }

  /** `!job || job.status === 'failed'`. */
  predicate NeedsResearch(jobs: map<string, Job>, c: City) {
    c.id !in jobs || jobs[c.id].status == Failed
  }

  /** `job?.status === 'completed' && !c.published_at`. */
  predicate ReadyToPublish(jobs: map<string, Job>, c: City) {
    HasStatus(jobs, c.id, Completed) && Unpublished(c)
  }

  function IdsOf(cities: seq<City>): (r: seq<string>)
    ensures |r| == |cities| && forall i | 0 <= i < |cities| :: r[i] == cities[i].id
  {
    seq(|cities|, i requires 0 <= i < |cities| => cities[i].id)
  }

  function NeedingResearch(cities: seq<City>, jobs: map<string, Job>): seq<City> {
    if cities == [] then []
    else
      NeedingResearch(cities[..|cities| - 1], jobs)
      + (if NeedsResearch(jobs, cities[|cities| - 1]) then [cities[|cities| - 1]] else [])
  }

  function ReadyForPublishing(cities: seq<City>, jobs: map<string, Job>): seq<City> {
    if cities == [] then []
    else
      ReadyForPublishing(cities[..|cities| - 1], jobs)
      + (if ReadyToPublish(jobs, cities[|cities| - 1]) then [cities[|cities| - 1]] else [])
  }

  lemma {:induction false} NeedingResearchMembers(cities: seq<City>, jobs: map<string, Job>)
    ensures forall c :: c in NeedingResearch(cities, jobs) <==> c in cities && NeedsResearch(jobs, c)
  {
    if cities != [] {
      NeedingResearchMembers(cities[..|cities| - 1], jobs);
      assert cities == cities[..|cities| - 1] + [cities[|cities| - 1]];
    }
  }

  lemma {:induction false} ReadyForPublishingMembers(cities: seq<City>, jobs: map<string, Job>)
    ensures forall c :: c in ReadyForPublishing(cities, jobs) <==> c in cities && ReadyToPublish(jobs, c)
  {
    if cities != [] {
      ReadyForPublishingMembers(cities[..|cities| - 1], jobs);
      assert cities == cities[..|cities| - 1] + [cities[|cities| - 1]];
    }
  }

  lemma IdsOfMembers(cities: seq<City>, id: string)
    ensures id in IdsOf(cities) <==> exists c | c in cities :: c.id == id
  {
    if id in IdsOf(cities) {
      var i :| 0 <= i < |cities| && IdsOf(cities)[i] == id;
      assert cities[i] in cities;
    }
    if exists c | c in cities :: c.id == id {
      var c :| c in cities && c.id == id;
      var i :| 0 <= i < |cities| && cities[i] == c;
      assert IdsOf(cities)[i] == id;
    }
  }

  /** `selectNotResearched` selects exactly the cities with no job or whose latest job failed. */
  lemma SelectNotResearchedExact(cities: seq<City>, jobs: map<string, Job>, id: string)
    ensures id in SetFrom(IdsOf(NeedingResearch(cities, jobs))) <==>
      exists c | c in cities :: c.id == id && NeedsResearch(jobs, c)
  {
    NeedingResearchMembers(cities, jobs);
    IdsOfMembers(NeedingResearch(cities, jobs), id);
  }

  /** `selectResearched` selects exactly the unpublished cities whose latest job completed. */
  lemma SelectResearchedExact(cities: seq<City>, jobs: map<string, Job>, id: string)
    ensures id in SetFrom(IdsOf(ReadyForPublishing(cities, jobs))) <==>
      exists c | c in cities :: c.id == id && ReadyToPublish(jobs, c)
  {
    ReadyForPublishingMembers(cities, jobs);
    IdsOfMembers(ReadyForPublishing(cities, jobs), id);
  }

  /** The two shortcuts never select the same city, whatever the jobs. */
  lemma ShortcutsDisjoint(cities: seq<City>, jobs: map<string, Job>, c: City)
    ensures !(NeedsResearch(jobs, c) && ReadyToPublish(jobs, c))
  {
  }

  datatype CardStatus = NotResearched | Researched | Published

  /** The card's status: published first, then a completed latest job. */
  function StatusOf(c: City, jobs: map<string, Job>): (s: CardStatus)
    ensures s == Published <==> !Unpublished(c)
    ensures s == Researched <==> Unpublished(c) && HasStatus(jobs, c.id, Completed)
  {
    if !Unpublished(c) then Published
    else if HasStatus(jobs, c.id, Completed) then Researched
    else NotResearched
  }

  /** A city `selectResearched` picks shows as researched. */
  lemma ReadyShowsResearched(c: City, jobs: map<string, Job>)
    requires ReadyToPublish(jobs, c)
    ensures StatusOf(c, jobs) == Researched
  {
  }

  // ---------------------------------------------------------------------------
  // The bulk runs
  // ---------------------------------------------------------------------------

  /** How one request of a bulk run ended: a 2xx reply, another reply, or a thrown error. */
  datatype Outcome = Ok | NotOk | Threw

  datatype BulkReply =
    | NothingSelected          // "Please select at least one city"
    | NoResearchedCity         // "No researched cities selected. Please run Research first."
    | Cancelled                // the confirmation dialog was declined
    | Done(successCount: nat, failCount: nat)
    | Waiting(cityId: string)  // the run waits for a job that never settles

  /** The selected ids whose latest job completed, in selection order. */
  function ValidCities(selected: seq<string>, jobs: map<string, Job>): (r: seq<string>)
    ensures |r| <= |selected|
    ensures forall x :: x in r <==> x in selected && HasStatus(jobs, x, Completed)
  {
    if selected == [] then []
    else
      var init := ValidCities(selected[..|selected| - 1], jobs);
      var x := selected[|selected| - 1];
      assert selected == selected[..|selected| - 1] + [x];
      if HasStatus(jobs, x, Completed) then init + [x] else init
  }

  /** The number of `Ok` outcomes among the requests for `ids`. */
  function Successes(ids: seq<string>, outcome: string -> Outcome): (n: nat)
    ensures n <= |ids|
  {
    if ids == [] then 0
    else Successes(ids[..|ids| - 1], outcome) + (if outcome(ids[|ids| - 1]) == Ok then 1 else 0)
  }

  /** The reply of `bulkPublish` and the cities a request was sent for. */
  function BulkPublishRun(selected: seq<string>, jobs: map<string, Job>, confirmed: bool,
                          outcome: string -> Outcome): (r: (BulkReply, seq<string>))
    ensures r.0 == NothingSelected <==> selected == []
    ensures r.0 == Cancelled <==> selected != [] && ValidCities(selected, jobs) != [] && !confirmed
    ensures r.0.Done? ==> r.0.successCount == Successes(r.1, outcome)
    ensures !r.0.Done? ==> r.1 == []
  {
    var valid := ValidCities(selected, jobs);
    if selected == [] then (NothingSelected, [])
    else if valid == [] then (NoResearchedCity, [])
    else if !confirmed then (Cancelled, [])
    else (Done(Successes(valid, outcome), |valid| - Successes(valid, outcome)), valid)
  }

  /** A run that starts sends one request per selected city whose latest job completed, and
      every request is counted once, as a success or a failure. */
  lemma BulkPublishCounts(selected: seq<string>, jobs: map<string, Job>, confirmed: bool, outcome: string -> Outcome)
    ensures var (reply, sent) := BulkPublishRun(selected, jobs, confirmed, outcome);
      && (reply.Done? ==> reply.successCount + reply.failCount == |sent| && sent == ValidCities(selected, jobs))
      && (forall x | x in sent :: x in selected && HasStatus(jobs, x, Completed))
      && (reply == NoResearchedCity <==> selected != [] && forall x | x in selected :: !HasStatus(jobs, x, Completed))
  {
    var valid := ValidCities(selected, jobs);
    if selected != [] && valid != [] {
      assert valid[0] in valid;
    }
  }

  /** `data?.status === 'completed' || data?.status === 'failed'`; `None` is a query without a row. */
  predicate Settled(newest: Option<JobStatus>) {
    newest == Some(Completed) || newest == Some(Failed)
  }

  /** `waitForCompletion`, given the newest status each poll reads: the poll it resolves at. */
  function ResolvedAt(polls: seq<Option<JobStatus>>): (r: Option<nat>)
    ensures r.Some? ==> r.value < |polls| && Settled(polls[r.value])
    ensures r.Some? ==> forall k | 0 <= k < r.value :: !Settled(polls[k])
    ensures r.None? <==> forall k | 0 <= k < |polls| :: !Settled(polls[k])
  {
    if polls == [] then None
    else if Settled(polls[0]) then Some(0)
    else match ResolvedAt(polls[1..]) case Some(k) => Some(k + 1) case None => None
  }

  /** A city the research run never gets past: its request did not throw, so the run waits,
      and its job never settles. */
  predicate Stuck(x: string, outcome: string -> Outcome, polls: string -> seq<Option<JobStatus>>) {
    outcome(x) != Threw && ResolvedAt(polls(x)).None?
  }

  /** The first city of `ids` the run gets stuck at, or `|ids|`. */
  function FirstStuck(ids: seq<string>, outcome: string -> Outcome, polls: string -> seq<Option<JobStatus>>): (i: nat)
    ensures i <= |ids|
    ensures forall k | 0 <= k < i :: !Stuck(ids[k], outcome, polls)
    ensures i < |ids| ==> Stuck(ids[i], outcome, polls)
  {
    if ids == [] || Stuck(ids[0], outcome, polls) then 0 else 1 + FirstStuck(ids[1..], outcome, polls)
  }

  /** The reply of `bulkResearch` and the cities a request was sent for.  A request that
      returns, whatever its status, is followed by the wait; one that throws is caught and
      the run moves on without waiting.  The alert counts every selected city. */
  function BulkResearchRun(selected: seq<string>, confirmed: bool, outcome: string -> Outcome,
                           polls: string -> seq<Option<JobStatus>>): (r: (BulkReply, seq<string>))
    ensures r.0 == NothingSelected <==> selected == []
    ensures r.0 == Cancelled <==> selected != [] && !confirmed
    ensures r.1 <= selected && (r.0.Done? || r.0.Waiting? <==> r.1 != [])
  {
    if selected == [] then (NothingSelected, [])
    else if !confirmed then (Cancelled, [])
    else
      var i := FirstStuck(selected, outcome, polls);
      if i < |selected| then (Waiting(selected[i]), selected[..i + 1])
      else (Done(|selected|, 0), selected)
  }

  /** A finished research run posted once for every selected city, in selection order, and
      every city either threw or had its job settle; an unfinished one stopped at the first
      city whose request returned and whose job never settled. */
  lemma BulkResearchOrder(selected: seq<string>, confirmed: bool, outcome: string -> Outcome,
                          polls: string -> seq<Option<JobStatus>>)
    ensures var (reply, sent) := BulkResearchRun(selected, confirmed, outcome, polls);
      && (reply.Done? ==> sent == selected && reply == Done(|selected|, 0)
                          && forall x | x in selected :: outcome(x) == Threw || ResolvedAt(polls(x)).Some?)
      && (reply.Waiting? ==> sent != [] && sent[|sent| - 1] == reply.cityId && sent <= selected
                             && outcome(reply.cityId) != Threw && ResolvedAt(polls(reply.cityId)).None?
                             && forall k | 0 <= k < |sent| - 1 :: !Stuck(sent[k], outcome, polls))
      && (reply.Done? || reply.Waiting? <==> selected != [] && confirmed)
  {
  }

  /** A request that throws never waits: a run whose every request throws finishes, and
      reports every selected city, whatever the polls would have read. */
  lemma ThrownRequestsNeverWait(selected: seq<string>, outcome: string -> Outcome,
                                                    polls: string -> seq<Option<JobStatus>>)
    requires selected != []
    requires forall x | x in selected :: outcome(x) == Threw
    ensures BulkResearchRun(selected, true, outcome, polls) == (Done(|selected|, 0), selected)
  {
  }

  // ---------------------------------------------------------------------------
  // The screen's state
  // ---------------------------------------------------------------------------

  class BulkOperations {
    var cities: seq<City>
    var researchJobs: map<string, Job>
    var selected: seq<string>

    ghost predicate Valid()
      reads this
    {
      NoRepeats(selected)
    }

    constructor(cities: seq<City>)
      ensures Valid()
      ensures this.cities == cities && researchJobs == map[] && selected == []
    {
      this.cities := cities;
      researchJobs := map[];
      selected := [];
    }

    /** `fetchResearchJobs`, given the rows newest first: a city's first row is kept. */
    method FetchResearchJobs(rows: seq<Job>)
      modifies this
      ensures researchJobs == LatestJobs(rows)
      ensures cities == old(cities) && selected == old(selected)
    {
      var jobMap: map<string, Job> := map[];
      for i := 0 to |rows|
        invariant jobMap == LatestJobs(rows[..i])
      {
        assert rows[..i + 1][..i] == rows[..i];
        if rows[i].cityId !in jobMap {
          jobMap := jobMap[rows[i].cityId := rows[i]];
        }
      }
      assert rows[..|rows|] == rows;
      researchJobs := jobMap;
    }

    method ToggleCity(id: string)
      requires Valid()
      modifies this
      ensures Valid()
      ensures selected == Toggled(old(selected), id)
      ensures cities == old(cities) && researchJobs == old(researchJobs)
    {
      if id in selected {
        selected := Without(selected, id);
      } else {
        selected := selected + [id];
      }
    }

    method SelectAll()
      modifies this
      ensures Valid()
      ensures selected == SetFrom(IdsOf(cities))
      ensures cities == old(cities) && researchJobs == old(researchJobs)
    {
      selected := SetFrom(IdsOf(cities));
    }

    method SelectNone()
      modifies this
      ensures Valid()
      ensures selected == []
      ensures cities == old(cities) && researchJobs == old(researchJobs)
    {
      selected := [];
    }

    method SelectNotResearched()
      modifies this
      ensures Valid()
      ensures selected == SetFrom(IdsOf(NeedingResearch(cities, researchJobs)))
      ensures cities == old(cities) && researchJobs == old(researchJobs)
    {
      selected := SetFrom(IdsOf(NeedingResearch(cities, researchJobs)));
    }

    method SelectResearched()
      modifies this
      ensures Valid()
      ensures selected == SetFrom(IdsOf(ReadyForPublishing(cities, researchJobs)))
      ensures cities == old(cities) && researchJobs == old(researchJobs)
    {
      selected := SetFrom(IdsOf(ReadyForPublishing(cities, researchJobs)));
    }

    /** `bulkPublish`: the requests are posted one after the other and counted. */
    method BulkPublish(confirmed: bool, outcome: string -> Outcome) returns (reply: BulkReply, sent: seq<string>)
      ensures (reply, sent) == BulkPublishRun(selected, researchJobs, confirmed, outcome)
    {
      if |selected| == 0 {
        return NothingSelected, [];
      }
      var valid := ValidCities(selected, researchJobs);
      if |valid| == 0 {
        return NoResearchedCity, [];
      }
      if !confirmed {
        return Cancelled, [];
      }
      var successCount, failCount := 0, 0;
      sent := [];
      for i := 0 to |valid|
        invariant sent == valid[..i]
        invariant successCount == Successes(valid[..i], outcome) && successCount + failCount == i
      {
        assert valid[..i + 1][..i] == valid[..i];
        sent := sent + [valid[i]];
        if outcome(valid[i]) == Ok {
          successCount := successCount + 1;
        } else {
          failCount := failCount + 1;
        }
      }
      assert valid[..|valid|] == valid;
      reply := Done(successCount, failCount);
    }

    /** `waitForCompletion(cityId)`: poll until the newest job settles. */
    static method WaitForCompletion(polls: seq<Option<JobStatus>>) returns (resolvedAt: Option<nat>)
      ensures resolvedAt == ResolvedAt(polls)
    {
      var k := 0;
      while k < |polls|
        invariant k <= |polls|
        invariant forall j | 0 <= j < k :: !Settled(polls[j])
      {
        if Settled(polls[k]) {
          return Some(k);
        }
        k := k + 1;
      }
      return None;
    }

    /** `bulkResearch`: one request per selected city; each request that returns is followed
        by the wait, and one that throws is caught before it. */
    method BulkResearch(confirmed: bool, outcome: string -> Outcome, polls: string -> seq<Option<JobStatus>>)
      returns (reply: BulkReply, sent: seq<string>)
      ensures (reply, sent) == BulkResearchRun(selected, confirmed, outcome, polls)
    {
      if |selected| == 0 {
        return NothingSelected, [];
      }
      if !confirmed {
        return Cancelled, [];
      }
      sent := [];
      for i := 0 to |selected|
        invariant sent == selected[..i]
        invariant i <= FirstStuck(selected, outcome, polls)
      {
        sent := sent + [selected[i]];
        assert sent == selected[..i + 1];
        if outcome(selected[i]) != Threw {
          var resolved := WaitForCompletion(polls(selected[i]));
          if resolved.None? {
            assert FirstStuck(selected, outcome, polls) == i;
            return Waiting(selected[i]), sent;
          }
        }
      }
      assert selected[..|selected|] == selected;
      reply := Done(|selected|, 0);
    }
  }
}
