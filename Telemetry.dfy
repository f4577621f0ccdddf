/** `POST /api/telemetry/position`: an employee records one location sample,
    linked to a shift only when it is the employee's own open one. */
module Telemetry {
  import opened Common
  import opened Store
  import opened Auth
  import opened Shifts

  /** The JSON body; None is an absent field. `ts` is the client's timestamp
      in milliseconds. */
  datatype PositionRequest = PositionRequest(shiftId: Option<int>, ts: Option<int>, lat: Option<int>, lng: Option<int>,
                                             accuracy: Option<int>, speed: Option<int>, heading: Option<int>,
                                             address: Option<string>)

  /** The reply: the new row's id, which is its position in the
      append-only `location_updates` table, and the row itself. */
  datatype Recorded = Recorded(id: nat, sample: LocationUpdate)

  /** Why an authenticated user's sample is turned away, in the source's
      order. */
  function Refusal(timesheets: map<nat, Timesheet>, user: Identity, req: PositionRequest): Option<(int, string)>
  {
    if user.role != "employee" then Some((403, "Only employees can submit location updates"))
    else if !Nonzero(req.lat) || !Nonzero(req.lng) then Some((400, "Latitude and longitude are required"))
    else if Nonzero(req.shiftId) && !(0 <= req.shiftId.value && req.shiftId.value in OpenOf(timesheets, user.id)) then
      Some((404, "Invalid or closed shift"))
    else None
  }

  /** The appended row: linked to the shift only when `shiftId` is truthy,
      recorded at `ts` when truthy and at `now` otherwise. */
  function NewSample(user: Identity, req: PositionRequest, nowMs: int): (s: LocationUpdate)
    requires Nonzero(req.lat) && Nonzero(req.lng)
    ensures s.userId == user.id && s.lat == req.lat.value && s.lng == req.lng.value
    ensures s.timesheetId.Some? <==> Nonzero(req.shiftId)
    ensures s.timesheetId.Some? ==> s.timesheetId == req.shiftId
    ensures s.recordedAtMs == if Nonzero(req.ts) then req.ts.value else nowMs
  {
    LocationUpdate(user.id, if Nonzero(req.shiftId) then req.shiftId else None, req.lat.value, req.lng.value,
                   req.accuracy, req.speed, req.heading, req.address,
                   if Nonzero(req.ts) then req.ts.value else nowMs)
  }

  /** What a position report does for an authenticated `user`. */
  predicate RecordEffect(timesheets: map<nat, Timesheet>, locations: seq<LocationUpdate>, user: Identity,
                         req: PositionRequest, nowMs: int, r: Reply<Recorded>, locations': seq<LocationUpdate>)
  {
    match Refusal(timesheets, user, req)
    case Some((status, message)) => r == Reply(status, message, None) && locations' == locations
    case None =>
      && locations' == locations + [NewSample(user, req, nowMs)]
      && r == Done(200, "Location update recorded", Recorded(|locations|, NewSample(user, req, nowMs)))
  }

  method Record(db: Database, user: Identity, req: PositionRequest, nowMs: int) returns (r: Reply<Recorded>)
    modifies db`locations
    ensures RecordEffect(db.timesheets, old(db.locations), user, req, nowMs, r, db.locations)
  {
    if user.role != "employee" {
      return Reply(403, "Only employees can submit location updates", None);
    }
    if !Nonzero(req.lat) || !Nonzero(req.lng) {
      return Reply(400, "Latitude and longitude are required", None);
    }
    var timesheetId: Option<int> := None;
    if Nonzero(req.shiftId) {
      var k := req.shiftId.value;
      if !(0 <= k && k in db.timesheets && db.timesheets[k].userId == user.id && db.timesheets[k].IsOpen()) {
        return Reply(404, "Invalid or closed shift", None);
      }
      timesheetId := req.shiftId;
    }
    var recordedAtMs := if Nonzero(req.ts) then req.ts.value else nowMs;
    var sample := LocationUpdate(user.id, timesheetId, req.lat.value, req.lng.value, req.accuracy, req.speed,
                                 req.heading, req.address, recordedAtMs);
    var id := |db.locations|;
    db.locations := db.locations + [sample];
    r := Done(200, "Location update recorded", Recorded(id, sample));
  }

  method Post(db: Database, ctx: Context, req: PositionRequest, nowMs: int) returns (r: Reply<Recorded>)
    requires db.Valid()
    modifies db`sessions, db`locations
    ensures db.Valid()
    ensures db.sessions == Stamped(old(db.users), old(db.sessions), ctx)
    ensures var user := Authenticate(old(db.users), old(db.sessions), ctx);
      if user.None? then r == Fail(401, "Authentication required") && db.locations == old(db.locations)
      else RecordEffect(db.timesheets, old(db.locations), user.value, req, nowMs, r, db.locations)
  {
    var user := VerifyToken(db, ctx);
    if user.None? {
      return Fail(401, "Authentication required");
    }
    r := Record(db, user.value, req, nowMs);
  }

  // ---------------------------------------------------------------------
  // Properties

  /** A sample is recorded exactly for an employee sending truthy
      coordinates whose truthy shift id, if any, names one of their own open
      shifts; exactly one row is then appended after the existing ones, and
      any shift it is linked to is the sender's own and open. */
  lemma RecordFacts(timesheets: map<nat, Timesheet>, locations: seq<LocationUpdate>, user: Identity,
                    req: PositionRequest, nowMs: int, r: Reply<Recorded>, locations': seq<LocationUpdate>)
    requires RecordEffect(timesheets, locations, user, req, nowMs, r, locations')
    ensures r.IsSuccess() <==>
      user.role == "employee" && Nonzero(req.lat) && Nonzero(req.lng)
      && (Nonzero(req.shiftId) ==> 0 <= req.shiftId.value && req.shiftId.value in OpenOf(timesheets, user.id))
    ensures !r.IsSuccess() ==> locations' == locations
    ensures r.IsSuccess() ==>
      && |locations'| == |locations| + 1 && locations'[..|locations|] == locations
      && var s := locations'[|locations|];
      && s.userId == user.id
      && (s.timesheetId.Some? ==>
            var k := s.timesheetId.value;
            0 <= k && k in timesheets && timesheets[k].userId == user.id && timesheets[k].IsOpen())
    ensures r.IsSuccess() ==> r.body == Some(Recorded(|locations|, locations'[|locations|]))
  {
    if r.IsSuccess() {
      assert locations'[..|locations|] == locations;
    }
  }
}
