/** `POST /api/timesheets/clock-out`: an employee closes the shift named by
    `shiftId`, or else their latest open one, with the floored duration;
    leaves a last location sample when both coordinates are truthy; and
    files the survey submitted with it, one answer row at a time. */
module ClockOut {
  import opened Common
  import opened Store
  import opened Listing
  import opened Auth
  import opened Shifts

  /** `surveyAnswers`: present means truthy; `answers` None is absent. */
  datatype SurveyInput = SurveyInput(templateId: Option<int>, answers: Option<seq<AnswerInput>>)

  /** The JSON body; None is an absent field. */
  datatype ClockOutRequest = ClockOutRequest(shiftId: Option<int>, lat: Option<int>, lng: Option<int>,
                                             accuracy: Option<int>, surveyAnswers: Option<SurveyInput>)

  datatype ClockedOut = ClockedOut(id: nat, userId: nat, jobId: Option<int>, clientId: Option<int>,
                                   clockInMs: int, clockOutMs: int, durationSec: int, clockOutLoc: Option<Fix>,
                                   status: string, surveyCompleted: bool)

  /** The shift to close: with a truthy `shiftId`, that row if it is the
      user's and open; otherwise the user's open row with the latest
      `clock_in_time` (`ORDER BY clock_in_time DESC LIMIT 1`). */
  function Target(timesheets: map<nat, Timesheet>, user: nat, shiftId: Option<int>): (t: Option<nat>)
    ensures t.Some? ==> t.value in OpenOf(timesheets, user)
    ensures Nonzero(shiftId) ==> (t.Some? <==> shiftId.value >= 0 && shiftId.value in OpenOf(timesheets, user))
    ensures Nonzero(shiftId) && t.Some? ==> t.value == shiftId.value
    ensures !Nonzero(shiftId) ==> (t.None? <==> OpenOf(timesheets, user) == {})
  {
    if Nonzero(shiftId) then
      var k := shiftId.value;
      if 0 <= k && k in timesheets && timesheets[k].userId == user && timesheets[k].IsOpen() then Some(k as nat) else None
    else
      var open := OpenOf(timesheets, user);
      if open == {} then None
      else
        var ordered := Ordered(open, ClockInKey(timesheets), Desc);
        assert ordered[0] in ordered;
        Some(ordered[0])
  }

  /** The row after `UPDATE … SET clock_out_time = now, …`. */
  function Closed(t: Timesheet, req: ClockOutRequest, nowMs: int): (c: Timesheet)
    ensures !c.IsOpen() && c.userId == t.userId && c.clockInMs == t.clockInMs
    ensures c.totalMinutes == Some(Minutes(DurationSec(t.clockInMs, nowMs)))
    ensures c.surveyCompleted == Some(req.surveyAnswers.Some?)
  {
    t.(clockOutMs := Some(nowMs), clockOutLat := req.lat, clockOutLng := req.lng,
       totalMinutes := Some(Minutes(DurationSec(t.clockInMs, nowMs))),
       surveyCompleted := Some(req.surveyAnswers.Some?))
  }

  /** `surveyAnswers && surveyAnswers.templateId && surveyAnswers.answers`. */
  predicate Files(req: ClockOutRequest)
  {
    req.surveyAnswers.Some? && Nonzero(req.surveyAnswers.value.templateId) && req.surveyAnswers.value.answers.Some?
  }

  /** The survey tables after clock-out: one response and its answers when
      a survey is filed, nothing otherwise. */
  predicate SurveyFiled(responses: map<nat, SurveyResponse>, next: nat, answers: seq<SurveyAnswer>,
                        user: Identity, id: nat, row: Timesheet, req: ClockOutRequest, nowMs: int,
                        responses': map<nat, SurveyResponse>, answers': seq<SurveyAnswer>)
  {
    if Files(req) then
      var s := req.surveyAnswers.value;
      && next !in responses
      && responses' == responses[next := SurveyResponse(Some(id), s.templateId.value, user.id, row.jobId, row.clientId, nowMs)]
      && answers' == answers + AnswerRows(next, s.answers.value)
    else responses' == responses && answers' == answers
  }

  /** `for (const answer of answers)`: one `survey_answers` row per answer. */
  method InsertAnswers(db: Database, responseId: nat, answers: seq<AnswerInput>)
    modifies db`answers
    ensures db.answers == old(db.answers) + AnswerRows(responseId, answers)
  {
    for i := 0 to |answers|
      invariant db.answers == old(db.answers) + AnswerRows(responseId, answers[..i])
    {
      assert answers[..i + 1][..i] == answers[..i];
      db.answers := db.answers + [AnswerRow(responseId, answers[i])];
    }
    assert answers[..|answers|] == answers;
  }

  /** Files the survey sent with the clock-out, if it has a template and
      answers. */
  method FileSurvey(db: Database, user: Identity, id: nat, row: Timesheet, req: ClockOutRequest, nowMs: int)
    requires db.Valid()
    modifies db`responses, db`nextResponseId, db`answers
    ensures db.Valid()
    ensures SurveyFiled(old(db.responses), old(db.nextResponseId), old(db.answers), user, id, row, req, nowMs,
                        db.responses, db.answers)
  {
    var s := req.surveyAnswers;
    if s.Some? && Nonzero(s.value.templateId) && s.value.answers.Some? {
      var responseId := db.InsertResponse(SurveyResponse(Some(id), s.value.templateId.value, user.id,
                                                         row.jobId, row.clientId, nowMs));
      InsertAnswers(db, responseId, s.value.answers.value);
    }
  }

  /** Closes shift `id` of `user` and records what comes with it. */
  method Close(db: Database, user: Identity, id: nat, req: ClockOutRequest, nowMs: int) returns (r: Reply<ClockedOut>)
    requires db.Valid() && id in db.timesheets
    modifies db`timesheets, db`locations, db`responses, db`nextResponseId, db`answers
    ensures db.Valid()
    ensures var row := old(db.timesheets)[id];
      && db.timesheets == old(db.timesheets)[id := Closed(row, req, nowMs)]
      && db.locations == old(db.locations) + Sample(user.id, id, FixOf(req.lat, req.lng, req.accuracy), nowMs)
      && SurveyFiled(old(db.responses), old(db.nextResponseId), old(db.answers), user, id, row, req, nowMs,
                     db.responses, db.answers)
      && r == Done(200, "Clocked out successfully",
                   ClockedOut(id, user.id, row.jobId, row.clientId, row.clockInMs, nowMs,
                              DurationSec(row.clockInMs, nowMs), FixOf(req.lat, req.lng, req.accuracy), "Closed", req.surveyAnswers.Some?))
    ensures OneOpenPerUser(old(db.timesheets)) ==> OneOpenPerUser(db.timesheets)
  {
    var row := db.timesheets[id];
    var durationSec := DurationSec(row.clockInMs, nowMs);
    db.timesheets := db.timesheets[id := Closed(row, req, nowMs)];
    if Nonzero(req.lat) && Nonzero(req.lng) {
      db.locations := db.locations + [LocationUpdate(user.id, Some(id), req.lat.value, req.lng.value, req.accuracy,
                                                     None, None, None, nowMs)];
    }
    FileSurvey(db, user, id, row, req, nowMs);
    if Files(req) {
      db.timesheets := db.timesheets[id := db.timesheets[id].(surveyCompleted := Some(true))];
    }
    if OneOpenPerUser(old(db.timesheets)) {
      UpdateKeepsOne(old(db.timesheets), id, Closed(row, req, nowMs));
    }
    r := Done(200, "Clocked out successfully",
              ClockedOut(id, user.id, row.jobId, row.clientId, row.clockInMs, nowMs, durationSec, FixOf(req.lat, req.lng, req.accuracy),
                         "Closed", req.surveyAnswers.Some?));
  }

  method Finish(db: Database, user: Identity, req: ClockOutRequest, nowMs: int) returns (r: Reply<ClockedOut>)
    requires db.Valid()
    modifies db`timesheets, db`locations, db`responses, db`nextResponseId, db`answers
    ensures db.Valid()
    ensures user.role != "employee" ==>
      r == Reply(403, "Only employees can clock out", None) && unchanged(db)
    ensures user.role == "employee" && Target(old(db.timesheets), user.id, req.shiftId).None? ==>
      r == Reply(404, if Nonzero(req.shiftId) then "Shift not found or already closed" else "No open timesheet found", None)
      && unchanged(db)
    ensures user.role == "employee" && Target(old(db.timesheets), user.id, req.shiftId).Some? ==>
      var id := Target(old(db.timesheets), user.id, req.shiftId).value;
      var row := old(db.timesheets)[id];
      && db.timesheets == old(db.timesheets)[id := Closed(row, req, nowMs)]
      && db.locations == old(db.locations) + Sample(user.id, id, FixOf(req.lat, req.lng, req.accuracy), nowMs)
      && SurveyFiled(old(db.responses), old(db.nextResponseId), old(db.answers), user, id, row, req, nowMs,
                     db.responses, db.answers)
      && r == Done(200, "Clocked out successfully",
                   ClockedOut(id, user.id, row.jobId, row.clientId, row.clockInMs, nowMs,
                              DurationSec(row.clockInMs, nowMs), FixOf(req.lat, req.lng, req.accuracy), "Closed", req.surveyAnswers.Some?))
    ensures OneOpenPerUser(old(db.timesheets)) ==> OneOpenPerUser(db.timesheets)
  {
    if user.role != "employee" {
      return Reply(403, "Only employees can clock out", None);
    }
    var target := Target(db.timesheets, user.id, req.shiftId);
    if target.None? {
      if Nonzero(req.shiftId) {
        return Reply(404, "Shift not found or already closed", None);
      }
      return Reply(404, "No open timesheet found", None);
    }
    r := Close(db, user, target.value, req, nowMs);
  }

  /** What a clock-out does for an authenticated `user`: 403 for anyone
      but an employee and 404 when there is no shift to close, both changing
      nothing; otherwise the target shift is closed, the location sample and
      the survey are filed, and the closed shift is reported. */
  predicate FinishEffect(timesheets: map<nat, Timesheet>, locations: seq<LocationUpdate>,
                         responses: map<nat, SurveyResponse>, next: nat, answers: seq<SurveyAnswer>,
                         user: Identity, req: ClockOutRequest, nowMs: int, r: Reply<ClockedOut>,
                         timesheets': map<nat, Timesheet>, locations': seq<LocationUpdate>,
                         responses': map<nat, SurveyResponse>, answers': seq<SurveyAnswer>)
  {
    if user.role != "employee" then
      && r == Reply(403, "Only employees can clock out", None)
      && timesheets' == timesheets && locations' == locations && responses' == responses && answers' == answers
    else match Target(timesheets, user.id, req.shiftId)
      case None =>
        && r == Reply(404, if Nonzero(req.shiftId) then "Shift not found or already closed" else "No open timesheet found", None)
        && timesheets' == timesheets && locations' == locations && responses' == responses && answers' == answers
      case Some(id) =>
        var row := timesheets[id];
        && timesheets' == timesheets[id := Closed(row, req, nowMs)]
        && locations' == locations + Sample(user.id, id, FixOf(req.lat, req.lng, req.accuracy), nowMs)
        && SurveyFiled(responses, next, answers, user, id, row, req, nowMs, responses', answers')
        && r == Done(200, "Clocked out successfully",
                     ClockedOut(id, user.id, row.jobId, row.clientId, row.clockInMs, nowMs,
                                DurationSec(row.clockInMs, nowMs), FixOf(req.lat, req.lng, req.accuracy), "Closed", req.surveyAnswers.Some?))
  }

  method Post(db: Database, ctx: Context, req: ClockOutRequest, nowMs: int) returns (r: Reply<ClockedOut>)
    requires db.Valid()
    modifies db`sessions, db`timesheets, db`locations, db`responses, db`nextResponseId, db`answers
    ensures db.Valid()
    ensures db.sessions == Stamped(old(db.users), old(db.sessions), ctx)
    ensures var user := Authenticate(old(db.users), old(db.sessions), ctx);
      if user.None? then
        r == Fail(401, "Authentication required") && db.timesheets == old(db.timesheets)
        && db.locations == old(db.locations) && db.responses == old(db.responses) && db.answers == old(db.answers)
      else
        FinishEffect(old(db.timesheets), old(db.locations), old(db.responses), old(db.nextResponseId), old(db.answers),
                     user.value, req, nowMs, r, db.timesheets, db.locations, db.responses, db.answers)
    ensures OneOpenPerUser(old(db.timesheets)) ==> OneOpenPerUser(db.timesheets)
  {
    var user := VerifyToken(db, ctx);
    if user.None? {
      return Fail(401, "Authentication required");
    }
    r := Finish(db, user.value, req, nowMs);
  }

  // ---------------------------------------------------------------------
  // Properties

  /** Without a `shiftId` the shift closed is the user's open shift with the
      latest clock-in; under the one-open-shift invariant it is their only
      open shift. */
  lemma LatestOpen(timesheets: map<nat, Timesheet>, user: nat, shiftId: Option<int>)
    requires !Nonzero(shiftId) && Target(timesheets, user, shiftId).Some?
    ensures var t := Target(timesheets, user, shiftId).value;
      forall other | other in OpenOf(timesheets, user) :: timesheets[other].clockInMs <= timesheets[t].clockInMs
    ensures OneOpenPerUser(timesheets) ==> OpenOf(timesheets, user) == {Target(timesheets, user, shiftId).value}
  {
    var open := OpenOf(timesheets, user);
    var key := ClockInKey(timesheets);
    FirstOrdered(open, key, Desc);
    assert Target(timesheets, user, shiftId).value == Ordered(open, key, Desc)[0];
  }

  /** The survey flag ends up true exactly when `surveyAnswers` was sent,
      even without a template or answers; a response with one answer row per
      submitted answer is filed exactly when both are there. */
  lemma SurveyOutcome(responses: map<nat, SurveyResponse>, next: nat, answers: seq<SurveyAnswer>,
                      user: Identity, id: nat, row: Timesheet, req: ClockOutRequest, nowMs: int,
                      responses': map<nat, SurveyResponse>, answers': seq<SurveyAnswer>)
    requires SurveyFiled(responses, next, answers, user, id, row, req, nowMs, responses', answers')
    ensures Closed(row, req, nowMs).surveyCompleted == Some(req.surveyAnswers.Some?)
    ensures Files(req) ==>
      && responses'.Keys == responses.Keys + {next}
      && responses'[next].timesheetId == Some(id as int) && responses'[next].userId == user.id
      && |answers'| == |answers| + |req.surveyAnswers.value.answers.value|
      && (forall k | |answers| <= k < |answers'| :: answers'[k].responseId == next)
    ensures !Files(req) ==> responses' == responses && answers' == answers
  {
  }
}
