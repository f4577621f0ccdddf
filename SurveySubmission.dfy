/** `POST /api/surveys/response`: files a response to an active survey
    template, optionally for one of the user's own timesheets, with one
    answer row per submitted answer, and marks that timesheet's survey as
    completed. */
module SurveySubmission {
  import opened Common
  import opened Store
  import opened Auth
  import opened Shifts

  /** The JSON body; `answers` None is absent or not an array. */
  datatype SubmitRequest = SubmitRequest(templateId: Option<int>, shiftId: Option<int>,
                                         answers: Option<seq<AnswerInput>>)

  datatype Receipt = Receipt(responseId: nat, templateId: int, shiftId: Option<int>, answersCount: nat,
                             submittedAtMs: int)

  /** `SELECT * FROM survey_templates WHERE id = $1 AND is_active = true`. */
  predicate ActiveTemplate(templates: map<nat, Template>, id: int)
  {
    0 <= id && id in templates && templates[id].active
  }

  /** `SELECT * FROM timesheets WHERE id = $1 AND user_id = $2`: any of the
      user's own timesheets, open or closed. */
  predicate OwnShift(timesheets: map<nat, Timesheet>, user: nat, id: int)
  {
    0 <= id && id in timesheets && timesheets[id].userId == user
  }

  /** Why an authenticated user's submission is turned away, in the
      source's order. */
  function Refusal(templates: map<nat, Template>, timesheets: map<nat, Timesheet>, user: Identity,
                   req: SubmitRequest): Option<(int, string)>
  {
    if !Nonzero(req.templateId) || req.answers.None? then Some((400, "templateId and answers are required"))
    else if !ActiveTemplate(templates, req.templateId.value) then Some((404, "Survey template not found"))
    else if Nonzero(req.shiftId) && !OwnShift(timesheets, user.id, req.shiftId.value) then
      Some((404, "Timesheet not found"))
    else None
  }

  /** The response row: the shift id as sent, with the shift's job and
      client when a truthy shift id named one (`timesheet?.job_id`). */
  function NewResponse(timesheets: map<nat, Timesheet>, user: Identity, req: SubmitRequest, nowMs: int): SurveyResponse
    requires Nonzero(req.templateId)
    requires Nonzero(req.shiftId) ==> OwnShift(timesheets, user.id, req.shiftId.value)
  {
    if Nonzero(req.shiftId) then
      var row := timesheets[req.shiftId.value];
      SurveyResponse(req.shiftId, req.templateId.value, user.id, row.jobId, row.clientId, nowMs)
    else SurveyResponse(req.shiftId, req.templateId.value, user.id, None, None, nowMs)
  }

  /** `UPDATE timesheets SET survey_completed = true` when the shift id is
      truthy. */
  function Flagged(timesheets: map<nat, Timesheet>, shiftId: Option<int>): map<nat, Timesheet>
  {
    if Nonzero(shiftId) && 0 <= shiftId.value && shiftId.value in timesheets then
      timesheets[shiftId.value := timesheets[shiftId.value].(surveyCompleted := Some(true))]
    else timesheets
  }

  /** What a submission does for an authenticated `user`. */
  predicate SubmitEffect(templates: map<nat, Template>, timesheets: map<nat, Timesheet>,
                         responses: map<nat, SurveyResponse>, next: nat, answers: seq<SurveyAnswer>,
                         user: Identity, req: SubmitRequest, nowMs: int, r: Reply<Receipt>,
                         timesheets': map<nat, Timesheet>, responses': map<nat, SurveyResponse>,
                         answers': seq<SurveyAnswer>)
  {
    match Refusal(templates, timesheets, user, req)
    case Some((status, message)) =>
      r == Reply(status, message, None) && timesheets' == timesheets && responses' == responses && answers' == answers
    case None =>
      && next !in responses
      && responses' == responses[next := NewResponse(timesheets, user, req, nowMs)]
      && answers' == answers + AnswerRows(next, req.answers.value)
      && timesheets' == Flagged(timesheets, req.shiftId)
      && r == Done(200, "Survey response submitted successfully",
                   Receipt(next, req.templateId.value, req.shiftId, |req.answers.value|, nowMs))
  }

  method Submit(db: Database, user: Identity, req: SubmitRequest, nowMs: int) returns (r: Reply<Receipt>)
    requires db.Valid()
    modifies db`timesheets, db`responses, db`nextResponseId, db`answers
    ensures db.Valid()
    ensures SubmitEffect(db.templates, old(db.timesheets), old(db.responses), old(db.nextResponseId), old(db.answers),
                         user, req, nowMs, r, db.timesheets, db.responses, db.answers)
  {
    if !Nonzero(req.templateId) || req.answers.None? {
      return Reply(400, "templateId and answers are required", None);
    }
    if !ActiveTemplate(db.templates, req.templateId.value) {
      return Reply(404, "Survey template not found", None);
    }
    if Nonzero(req.shiftId) && !OwnShift(db.timesheets, user.id, req.shiftId.value) {
      return Reply(404, "Timesheet not found", None);
    }
    var responseId := db.InsertResponse(NewResponse(db.timesheets, user, req, nowMs));
    db.answers := db.answers + AnswerRows(responseId, req.answers.value);
    if Nonzero(req.shiftId) {
      var k := req.shiftId.value;
      db.timesheets := db.timesheets[k := db.timesheets[k].(surveyCompleted := Some(true))];
    }
    r := Done(200, "Survey response submitted successfully",
              Receipt(responseId, req.templateId.value, req.shiftId, |req.answers.value|, nowMs));
  }

  method Post(db: Database, ctx: Context, req: SubmitRequest, nowMs: int) returns (r: Reply<Receipt>)
    requires db.Valid()
    modifies db`sessions, db`timesheets, db`responses, db`nextResponseId, db`answers
    ensures db.Valid()
    ensures db.sessions == Stamped(old(db.users), old(db.sessions), ctx)
    ensures var user := Authenticate(old(db.users), old(db.sessions), ctx);
      if user.None? then
        r == Fail(401, "Authentication required") && db.timesheets == old(db.timesheets)
        && db.responses == old(db.responses) && db.answers == old(db.answers)
      else
        SubmitEffect(db.templates, old(db.timesheets), old(db.responses), old(db.nextResponseId), old(db.answers),
                     user.value, req, nowMs, r, db.timesheets, db.responses, db.answers)
  {
    var user := VerifyToken(db, ctx);
    if user.None? {
      return Fail(401, "Authentication required");
    }
    r := Submit(db, user.value, req, nowMs);
  }

  // ---------------------------------------------------------------------
  // Properties

  /** A submission is accepted exactly when it has a truthy template id and
      an answers array, the template is active, and a truthy shift id names
      one of the user's own timesheets. It then adds one response and as many
      answer rows as answers were sent, all pointing at that response, reports
      that count, and flags the named timesheet and no other; open shifts stay
      open, so at most one per user remains. A refusal changes nothing. */
  lemma SubmitFacts(templates: map<nat, Template>, timesheets: map<nat, Timesheet>,
                    responses: map<nat, SurveyResponse>, next: nat, answers: seq<SurveyAnswer>,
                    user: Identity, req: SubmitRequest, nowMs: int, r: Reply<Receipt>,
                    timesheets': map<nat, Timesheet>, responses': map<nat, SurveyResponse>,
                    answers': seq<SurveyAnswer>)
    requires SubmitEffect(templates, timesheets, responses, next, answers, user, req, nowMs, r,
                          timesheets', responses', answers')
    ensures r.IsSuccess() <==>
      Nonzero(req.templateId) && req.answers.Some? && ActiveTemplate(templates, req.templateId.value)
      && (Nonzero(req.shiftId) ==> OwnShift(timesheets, user.id, req.shiftId.value))
    ensures !r.IsSuccess() ==> timesheets' == timesheets && responses' == responses && answers' == answers
    ensures r.IsSuccess() ==>
      && responses'.Keys == responses.Keys + {next} && next !in responses
      && responses'[next].userId == user.id && responses'[next].templateId == req.templateId.value
      && r.body.value.answersCount == |answers'| - |answers| == |req.answers.value|
      && answers'[..|answers|] == answers
      && (forall k | |answers| <= k < |answers'| :: answers'[k].responseId == next)
      && timesheets'.Keys == timesheets.Keys
      && (forall id | id in timesheets ::
            timesheets'[id] == if Nonzero(req.shiftId) && id == req.shiftId.value
                               then timesheets[id].(surveyCompleted := Some(true)) else timesheets[id])
      && (forall u :: OpenOf(timesheets', u) == OpenOf(timesheets, u))
      && (OneOpenPerUser(timesheets) ==> OneOpenPerUser(timesheets'))
  {
    if r.IsSuccess() {
      var added := AnswerRows(next, req.answers.value);
      assert answers' == answers + added;
      assert forall k | |answers| <= k < |answers'| :: answers'[k] == added[k - |answers|];
      forall u ensures OpenOf(timesheets', u) == OpenOf(timesheets, u) {
        assert forall id | id in timesheets' :: timesheets'[id].IsOpen() == timesheets[id].IsOpen();
      }
    }
  }
}
