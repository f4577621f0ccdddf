/** `POST /api/timesheets/clock-in`: an employee opens a timesheet, unless
    one is already open, for an existing job and client when given, and
    leaves a first location sample when both coordinates are truthy. */
module ClockIn {
  import opened Common
  import opened Store
  import opened Auth
  import opened Shifts

  /** The JSON body; None is an absent field. */
  datatype ClockInRequest = ClockInRequest(jobId: Option<int>, clientId: Option<int>, lat: Option<int>,
                                           lng: Option<int>, accuracy: Option<int>)

  datatype ClockedIn = ClockedIn(id: nat, userId: nat, jobId: Option<int>, clientId: Option<int>,
                                 clockInMs: int, clockInLoc: Option<Fix>, status: string)

  /** Why an authenticated user is turned away, in the source's order. */
  function Refusal(timesheets: map<nat, Timesheet>, jobs: map<nat, Job>, clients: set<nat>,
                   user: Identity, req: ClockInRequest): Option<(int, string)>
  {
    if user.role != "employee" then Some((403, "Only employees can clock in"))
    else if OpenOf(timesheets, user.id) != {} then Some((400, "You already have an open timesheet"))
    else if Nonzero(req.jobId) && !(0 <= req.jobId.value && req.jobId.value in jobs) then Some((404, "Job not found"))
    else if Nonzero(req.clientId) && !(0 <= req.clientId.value && req.clientId.value in clients) then
      Some((404, "Client not found"))
    else None
  }

  /** The inserted row: ids and coordinates as sent, clocked in now, open. */
  function NewShift(user: Identity, req: ClockInRequest, nowMs: int): (t: Timesheet)
    ensures t.userId == user.id && t.IsOpen() && t.clockInMs == nowMs
  {
    Timesheet(user.id, req.jobId, req.clientId, nowMs, req.lat, req.lng, None, None, None, None, None, None, None)
  }

  /** What clocking in does for an authenticated `user`. */
  predicate ClockInEffect(timesheets: map<nat, Timesheet>, jobs: map<nat, Job>, clients: set<nat>, next: nat,
                          locations: seq<LocationUpdate>, user: Identity, req: ClockInRequest, nowMs: int,
                          r: Reply<ClockedIn>, timesheets': map<nat, Timesheet>, locations': seq<LocationUpdate>)
  {
    match Refusal(timesheets, jobs, clients, user, req)
    case Some((status, message)) =>
      r == Reply(status, message, None) && timesheets' == timesheets && locations' == locations
    case None =>
      && next !in timesheets
      && timesheets' == timesheets[next := NewShift(user, req, nowMs)]
      && locations' == locations + Sample(user.id, next, FixOf(req.lat, req.lng, req.accuracy), nowMs)
      && r == Done(200, "Clocked in successfully",
                   ClockedIn(next, user.id, req.jobId, req.clientId, nowMs, FixOf(req.lat, req.lng, req.accuracy), "Open"))
  }

  method Start(db: Database, user: Identity, req: ClockInRequest, nowMs: int) returns (r: Reply<ClockedIn>)
    requires db.Valid()
    modifies db`timesheets, db`nextTimesheetId, db`locations
    ensures db.Valid()
    ensures ClockInEffect(old(db.timesheets), db.jobs, db.clients, old(db.nextTimesheetId), old(db.locations),
                          user, req, nowMs, r, db.timesheets, db.locations)
    ensures OneOpenPerUser(old(db.timesheets)) ==> OneOpenPerUser(db.timesheets)
  {
    if user.role != "employee" {
      return Reply(403, "Only employees can clock in", None);
    }
    if OpenOf(db.timesheets, user.id) != {} {
      return Reply(400, "You already have an open timesheet", None);
    }
    if Nonzero(req.jobId) && !(0 <= req.jobId.value && req.jobId.value in db.jobs) {
      return Reply(404, "Job not found", None);
    }
    if Nonzero(req.clientId) && !(0 <= req.clientId.value && req.clientId.value in db.clients) {
      return Reply(404, "Client not found", None);
    }
    var t := NewShift(user, req, nowMs);
    var id := db.InsertTimesheet(t);
    if Nonzero(req.lat) && Nonzero(req.lng) {
      db.locations := db.locations + [LocationUpdate(user.id, Some(id), req.lat.value, req.lng.value, req.accuracy,
                                                     None, None, None, nowMs)];
    }
    if OneOpenPerUser(old(db.timesheets)) {
      OpenKeepsOne(old(db.timesheets), id, t);
    }
    r := Done(200, "Clocked in successfully",
              ClockedIn(id, user.id, req.jobId, req.clientId, nowMs, FixOf(req.lat, req.lng, req.accuracy), "Open"));
  }

  method Post(db: Database, ctx: Context, req: ClockInRequest, nowMs: int) returns (r: Reply<ClockedIn>)
    requires db.Valid()
    modifies db`sessions, db`timesheets, db`nextTimesheetId, db`locations
    ensures db.Valid()
    ensures db.sessions == Stamped(old(db.users), old(db.sessions), ctx)
    ensures var user := Authenticate(old(db.users), old(db.sessions), ctx);
      if user.None? then
        r == Fail(401, "Authentication required")
        && db.timesheets == old(db.timesheets) && db.locations == old(db.locations)
      else
        ClockInEffect(old(db.timesheets), db.jobs, db.clients, old(db.nextTimesheetId), old(db.locations),
                      user.value, req, nowMs, r, db.timesheets, db.locations)
    ensures OneOpenPerUser(old(db.timesheets)) ==> OneOpenPerUser(db.timesheets)
  {
    var user := VerifyToken(db, ctx);
    if user.None? {
      return Fail(401, "Authentication required");
    }
    r := Start(db, user.value, req, nowMs);
  }

  // ---------------------------------------------------------------------
  // Properties

  /** Clocking in succeeds exactly for an employee with no open timesheet
      whose truthy job and client ids exist; it then adds one open row for
      that user, which becomes their only open shift when the invariant held,
      and one location sample exactly when both coordinates are truthy. A
      refusal changes nothing. */
  lemma ClockInFacts(timesheets: map<nat, Timesheet>, jobs: map<nat, Job>, clients: set<nat>, next: nat,
                     locations: seq<LocationUpdate>, user: Identity, req: ClockInRequest, nowMs: int,
                     r: Reply<ClockedIn>, timesheets': map<nat, Timesheet>, locations': seq<LocationUpdate>)
    requires ClockInEffect(timesheets, jobs, clients, next, locations, user, req, nowMs, r, timesheets', locations')
    ensures r.IsSuccess() <==>
      user.role == "employee" && OpenOf(timesheets, user.id) == {}
      && (Nonzero(req.jobId) ==> 0 <= req.jobId.value && req.jobId.value in jobs)
      && (Nonzero(req.clientId) ==> 0 <= req.clientId.value && req.clientId.value in clients)
    ensures !r.IsSuccess() ==> timesheets' == timesheets && locations' == locations
    ensures user.role != "employee" ==> r.status == 403
    ensures r.IsSuccess() ==>
      && timesheets'.Keys == timesheets.Keys + {next} && next !in timesheets
      && timesheets'[next].userId == user.id && timesheets'[next].IsOpen()
      && (forall id | id in timesheets :: timesheets'[id] == timesheets[id])
      && |locations'| == |locations| + (if Nonzero(req.lat) && Nonzero(req.lng) then 1 else 0)
      && locations'[..|locations|] == locations
      && (OneOpenPerUser(timesheets) ==> OpenOf(timesheets', user.id) == {next})
  {
    if r.IsSuccess() && OneOpenPerUser(timesheets) {
      OpenKeepsOne(timesheets, next, NewShift(user, req, nowMs));
    }
  }
}
