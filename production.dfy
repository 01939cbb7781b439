/** The production service: default stations seeded once by code, jobs created from order items,
    and the job status re-derived from the produced quantity after every logged step. */
module Production {
  import opened Store

  /** `DEFAULT_STATIONS`: name, code and routing position of the stations every tenant gets. */
  const DEFAULT_STATIONS: seq<Station> := [Station("Cam Kesim", "CAM_KESIM", 1), Station("Pres", "PRES", 2)]

  /** `ProductionLogCreate`. */
  datatype LogRequest = LogRequest(station_id: Id, user_id: Id, quantity: int)

  // ---------------------------------------------------------------------------
  // Stations
  // ---------------------------------------------------------------------------

  /** Some stored station has code `code` (the `filter(code == code).first()` lookup). */
  predicate HasCode(stations: map<Id, Station>, code: string) {
    exists k :: k in stations && stations[k].code == code
  }

  /** No two stations share a code (the unique index on `code`). */
  ghost predicate UniqueCodes(stations: map<Id, Station>) {
    forall j, k :: j in stations && k in stations && stations[j].code == stations[k].code ==> j == k
  }

  ghost predicate AllDefaultsPresent(stations: map<Id, Station>) {
    forall i :: 0 <= i < |DEFAULT_STATIONS| ==> HasCode(stations, DEFAULT_STATIONS[i].code)
  }

  /** What seeding does to the station table: stations already there are untouched, each default
      code is present afterwards, and the only additions are default stations whose code was missing. */
  ghost predicate SeededFrom(before: map<Id, Station>, after: map<Id, Station>) {
    && (forall k :: k in before ==> k in after && after[k] == before[k])
    && AllDefaultsPresent(after)
    && (forall k :: k in after && k !in before ==> after[k] in DEFAULT_STATIONS && !HasCode(before, after[k].code))
    && (UniqueCodes(before) ==> UniqueCodes(after))
    && (AllDefaultsPresent(before) ==> after == before)
  }

  /** `_ensure_default_stations`: adds each default station whose code is not stored yet. */
  method EnsureDefaultStations(db: Session)
    modifies db`stations
    ensures SeededFrom(old(db.stations), db.stations)
  {
    ghost var before := db.stations;
    for i := 0 to |DEFAULT_STATIONS|
      invariant forall k :: k in before ==> k in db.stations && db.stations[k] == before[k]
      invariant forall j :: 0 <= j < i ==> HasCode(db.stations, DEFAULT_STATIONS[j].code)
      invariant forall k :: k in db.stations && k !in before ==>
        db.stations[k] in DEFAULT_STATIONS && !HasCode(before, db.stations[k].code)
      invariant UniqueCodes(before) ==> UniqueCodes(db.stations)
      invariant AllDefaultsPresent(before) ==> db.stations == before
    {
      var station := DEFAULT_STATIONS[i];
      if !HasCode(db.stations, station.code) {
        ghost var current := db.stations;
        var id := FreshKey(db.stations);
        db.stations := db.stations[id := station];
        assert HasCode(db.stations, station.code) by { assert db.stations[id].code == station.code; }
        forall j | 0 <= j < i
          ensures HasCode(db.stations, DEFAULT_STATIONS[j].code)
        {
          var k :| k in current && current[k].code == DEFAULT_STATIONS[j].code;
          assert db.stations[k] == current[k];
        }
      }
    }
  }

  /** Seeding twice is the same as seeding once, and each default code then names exactly one station. */
  method EnsureDefaultStationsTwice(db: Session) returns (ghost once: map<Id, Station>)
    requires UniqueCodes(db.stations)
    modifies db`stations
    ensures SeededFrom(old(db.stations), once)
    ensures db.stations == once
    ensures forall i, k :: 0 <= i < |DEFAULT_STATIONS| && k in db.stations && db.stations[k].code == DEFAULT_STATIONS[i].code ==>
      forall j :: j in db.stations && db.stations[j].code == DEFAULT_STATIONS[i].code ==> j == k
  {
    EnsureDefaultStations(db);
    once := db.stations;
    EnsureDefaultStations(db);
  }

  // ---------------------------------------------------------------------------
  // Job status
  // ---------------------------------------------------------------------------

  /** The position of a status along PENDING -> IN_PROGRESS -> COMPLETED. */
  function Rank(s: JobStatus): nat {
    match s
    case Pending => 0
    case InProgress => 1
    case Completed => 2
  }

  /** The job after a step of `quantity`: produced grows by it and the status is re-derived;
      with neither condition met the stored status stays. */
  function Advance(job: Job, quantity: int): (r: Job)
    ensures r.order_item_id == job.order_item_id && r.quantity_required == job.quantity_required
    ensures r.quantity_produced == job.quantity_produced + quantity
    ensures r.quantity_produced >= r.quantity_required ==> r.status == Completed
    ensures 0 < r.quantity_produced < r.quantity_required ==> r.status == InProgress
    ensures r.quantity_produced <= 0 && r.quantity_produced < r.quantity_required ==> r.status == job.status
  {
    var produced := job.quantity_produced + quantity;
    var status :=
      if produced >= job.quantity_required then Completed
      else if produced > 0 then InProgress
      else job.status;
    job.(quantity_produced := produced, status := status)
  }

  /** The states a job reaches from creation with positive steps: status agrees with the quantities. */
  ghost predicate WellFormed(job: Job) {
    || (job.status == Pending && job.quantity_produced == 0)
    || (job.status == InProgress && 0 < job.quantity_produced < job.quantity_required)
    || (job.status == Completed && job.quantity_produced >= job.quantity_required)
  }

  /** A well-formed job needing a positive quantity is COMPLETED iff produced >= required, IN_PROGRESS iff
      0 < produced < required, and PENDING iff nothing is produced. */
  lemma StatusReflectsQuantities(job: Job)
    requires WellFormed(job) && job.quantity_required > 0
    ensures job.status == Completed <==> job.quantity_produced >= job.quantity_required
    ensures job.status == InProgress <==> 0 < job.quantity_produced < job.quantity_required
    ensures job.status == Pending <==> job.quantity_produced == 0
  {
  }

  /** A positive step keeps a job well-formed and never moves its status backwards. */
  lemma AdvanceForward(job: Job, quantity: int)
    requires WellFormed(job) && quantity > 0
    ensures WellFormed(Advance(job, quantity))
    ensures Rank(job.status) <= Rank(Advance(job, quantity).status)
  {
  }

  /** Without a positive quantity the code lets a completed job fall back to IN_PROGRESS. */
  lemma NegativeStepRegresses()
    ensures Advance(Job(0, 10, 10, Completed), -5).status == InProgress
    ensures Advance(Job(0, 10, 10, Completed), -5).quantity_produced == 5
  {
  }

  /** The job after the steps `steps`, logged one after another. */
  function AdvanceAll(job: Job, steps: seq<int>): Job
    decreases |steps|
  {
    if |steps| == 0 then job else AdvanceAll(Advance(job, steps[0]), steps[1..])
  }

  function Total(steps: seq<int>): int {
    if |steps| == 0 then 0 else steps[0] + Total(steps[1..])
  }

  /** Over any run of positive steps: produced grows by their total, the required quantity stays,
      the job stays well-formed and its status only moves forward. */
  lemma {:induction false} AdvanceAllForward(job: Job, steps: seq<int>)
    requires WellFormed(job)
    requires forall i :: 0 <= i < |steps| ==> steps[i] > 0
    ensures AdvanceAll(job, steps).quantity_produced == job.quantity_produced + Total(steps)
    ensures AdvanceAll(job, steps).quantity_required == job.quantity_required
    ensures WellFormed(AdvanceAll(job, steps))
    ensures Rank(job.status) <= Rank(AdvanceAll(job, steps).status)
    decreases |steps|
  {
    if |steps| > 0 {
      AdvanceForward(job, steps[0]);
      AdvanceAllForward(Advance(job, steps[0]), steps[1..]);
    }
  }

  // ---------------------------------------------------------------------------
  // Service operations
  // ---------------------------------------------------------------------------

  /** `create_job_from_order_item`: "Order item not found" for an unknown item; otherwise seeds the
      default stations and stores a PENDING job requiring the item's quantity, with nothing produced. */
  method CreateJobFromOrderItem(db: Session, itemId: Id) returns (r: Result<Id>)
    modifies db`stations, db`jobs
    ensures r.Err? <==> itemId !in db.orderItems
    ensures r.Err? ==> r.error == OrderItemNotFound && db.stations == old(db.stations) && db.jobs == old(db.jobs)
    ensures r.Ok? ==>
      && r.value !in old(db.jobs)
      && db.jobs == old(db.jobs)[r.value := Job(itemId, db.orderItems[itemId].quantity, 0, Pending)]
      && SeededFrom(old(db.stations), db.stations)
      && WellFormed(db.jobs[r.value])
  {
    if itemId !in db.orderItems {
      return Err(OrderItemNotFound);
    }
    var item := db.orderItems[itemId];
    EnsureDefaultStations(db);
    var id := FreshKey(db.jobs);
    // quantity_produced and status take their column defaults, 0 and "PENDING".
    db.jobs := db.jobs[id := Job(itemId, item.quantity, 0, Pending)];
    r := Ok(id);
  }

  /** `log_production_step`: "Job not found" for an unknown job; otherwise appends one log entry and
      advances the stored job by the logged quantity. */
  method LogProductionStep(db: Session, jobId: Id, req: LogRequest) returns (r: Result<LogEntry>)
    modifies db`jobs, db`logs
    ensures r.Err? <==> jobId !in old(db.jobs)
    ensures r.Err? ==> r.error == JobNotFound && db.jobs == old(db.jobs) && db.logs == old(db.logs)
    ensures r.Ok? ==>
      && r.value == LogEntry(jobId, req.station_id, req.user_id, req.quantity)
      && db.logs == old(db.logs) + [r.value]
      && db.jobs == old(db.jobs)[jobId := Advance(old(db.jobs[jobId]), req.quantity)]
    ensures r.Ok? ==>
      var before := old(db.jobs[jobId]);
      var after := db.jobs[jobId];
      && after.quantity_produced == before.quantity_produced + req.quantity
      && after.quantity_required == before.quantity_required
      && (after.quantity_produced >= after.quantity_required ==> after.status == Completed)
      && (0 < after.quantity_produced < after.quantity_required ==> after.status == InProgress)
      && (after.quantity_produced <= 0 && after.quantity_produced < after.quantity_required ==> after.status == before.status)
  {
    if jobId !in db.jobs {
      return Err(JobNotFound);
    }
    var entry := LogEntry(jobId, req.station_id, req.user_id, req.quantity);
    db.logs := db.logs + [entry];
    var job := db.jobs[jobId];
    var produced := job.quantity_produced + req.quantity;
    if produced >= job.quantity_required {
      job := job.(quantity_produced := produced, status := Completed);
    } else if produced > 0 {
      job := job.(quantity_produced := produced, status := InProgress);
    } else {
      job := job.(quantity_produced := produced);
    }
    db.jobs := db.jobs[jobId := job];
    r := Ok(entry);
  }

  /** A job for an item of 10: a step of 4 leaves it IN_PROGRESS at 4, a step of 6 COMPLETED at 10. */
  method ProductionScenario() returns (first: JobStatus, producedFirst: int, second: JobStatus, producedSecond: int)
    ensures first == InProgress && producedFirst == 4
    ensures second == Completed && producedSecond == 10
  {
    var db := new Session();
    db.orderItems := map[3 := OrderItem(1, 2, 1000, 2000, 10, 100.0, 2000.0)];
    var created := CreateJobFromOrderItem(db, 3);
    var job := created.value;
    var log1 := LogProductionStep(db, job, LogRequest(1, 9, 4));
    first, producedFirst := db.jobs[job].status, db.jobs[job].quantity_produced;
    var log2 := LogProductionStep(db, job, LogRequest(2, 9, 6));
    second, producedSecond := db.jobs[job].status, db.jobs[job].quantity_produced;
  }

  /** Order item quantities are not validated: a job for an item of quantity 0 is stored PENDING
      although nothing more is required, so "COMPLETED iff produced >= required" fails from creation. */
  method ZeroQuantityJobScenario() returns (status: JobStatus, produced: int, required: int)
    ensures status == Pending && produced == 0 && required == 0
    ensures produced >= required && status != Completed
  {
    var db := new Session();
    db.orderItems := map[3 := OrderItem(1, 2, 1000, 2000, 0, 100.0, 0.0)];
    var created := CreateJobFromOrderItem(db, 3);
    var job := created.value;
    status, produced, required := db.jobs[job].status, db.jobs[job].quantity_produced, db.jobs[job].quantity_required;
  }
}
