/** The database the handlers read and write, as in-memory tables: one map
    from id to row per table the core touches, with the next serial id of
    every table the core inserts into. Times are milliseconds since the epoch
    (`now` is passed in); money is in cents; coordinates are fixed-point
    integers whose only role here is their JavaScript truthiness. An optional
    column left `None` by an insert holds the database's own default, which
    the handlers never choose. */
module Store {
  import opened Common

  datatype User = User(email: string, role: string, firstName: string, lastName: string,
                       employeeId: string, active: bool)

  datatype Session = Session(userId: nat, tokenHash: string, expiresAtMs: int, lastUsedAtMs: Option<int>)

  datatype Card = Card(assignedTo: Option<nat>, active: bool, monthSpendCents: int)

  /** `status` None is the column default the insert leaves in place. */
  datatype Expense = Expense(userId: nat, cardId: Option<nat>, date: string, amountCents: int,
                             category: string, description: string, receiptUrl: Option<string>,
                             status: Option<string>, createdAtMs: int)

  datatype Job = Job(title: string, description: string, clientId: Option<int>, assignedBy: nat,
                     assignedTo: Option<nat>, scheduledMs: Option<int>, scheduledEndMs: Option<int>,
                     pickupLocation: Option<string>, destination: Option<string>,
                     notes: Option<string>, priority: Option<string>, status: string)

  datatype Timesheet = Timesheet(userId: nat, jobId: Option<int>, clientId: Option<int>,
                                 clockInMs: int, clockInLat: Option<int>, clockInLng: Option<int>,
                                 clockOutMs: Option<int>, clockOutLat: Option<int>, clockOutLng: Option<int>,
                                 totalMinutes: Option<int>, surveyCompleted: Option<bool>,
                                 breakMinutes: Option<int>, notes: Option<string>)
  {
    /** `clock_out_time IS NULL`. */
    predicate IsOpen() { clockOutMs.None? }
  }

  datatype LocationUpdate = LocationUpdate(userId: nat, timesheetId: Option<int>, lat: int, lng: int,
                                           accuracy: Option<int>, speed: Option<int>, heading: Option<int>,
                                           address: Option<string>, recordedAtMs: int)

  datatype Template = Template(title: string, description: string, createdBy: nat, active: bool, mandatory: bool,
                               createdAtMs: int)

  datatype Question = Question(templateId: nat, text: string, kind: string, orderIndex: Option<int>,
                               required: bool)

  datatype SurveyResponse = SurveyResponse(timesheetId: Option<int>, templateId: int, userId: nat,
                                           jobId: Option<int>, clientId: Option<int>, submittedAtMs: int)

  datatype SurveyAnswer = SurveyAnswer(responseId: nat, questionId: Option<int>, text: Option<string>,
                                       rating: Option<int>)

  /** One element of a submitted `answers` array. */
  datatype AnswerInput = AnswerInput(questionId: Option<int>, text: Option<string>, rating: Option<int>)

  function AnswerRow(responseId: nat, a: AnswerInput): SurveyAnswer
  {
    SurveyAnswer(responseId, a.questionId, a.text, a.rating)
  }

  /** The `survey_answers` rows for a list of answers, one per answer, in
      order. */
  function AnswerRows(responseId: nat, answers: seq<AnswerInput>): (rows: seq<SurveyAnswer>)
    ensures |rows| == |answers|
    ensures forall k | 0 <= k < |answers| :: rows[k] == AnswerRow(responseId, answers[k])
  {
    if answers == [] then []
    else AnswerRows(responseId, answers[..|answers| - 1]) + [AnswerRow(responseId, answers[|answers| - 1])]
  }

  /** Every key of a table lies below its next serial id. */
  predicate Below<T>(table: map<nat, T>, next: nat)
  {
    forall id | id in table :: id < next
  }

  class Database {
    var users: map<nat, User>
    var sessions: map<nat, Session>
    var nextSessionId: nat
    var cards: map<nat, Card>
    var expenses: map<nat, Expense>
    var nextExpenseId: nat
    var clients: set<nat>
    var jobs: map<nat, Job>
    var nextJobId: nat
    var timesheets: map<nat, Timesheet>
    var nextTimesheetId: nat
    var locations: seq<LocationUpdate>
    var templates: map<nat, Template>
    var questions: map<nat, Question>
    var responses: map<nat, SurveyResponse>
    var nextResponseId: nat
    var answers: seq<SurveyAnswer>

    ghost predicate Valid()
      reads this
    {
      Below(sessions, nextSessionId) && Below(expenses, nextExpenseId) && Below(jobs, nextJobId)
      && Below(timesheets, nextTimesheetId) && Below(responses, nextResponseId)
    }

    /** A database holding the rows the core never creates (users, cards,
        clients, survey templates and their questions) and nothing else. */
    constructor (users: map<nat, User>, cards: map<nat, Card>, clients: set<nat>,
                 templates: map<nat, Template>, questions: map<nat, Question>)
      ensures Valid()
      ensures this.users == users && this.cards == cards && this.clients == clients
      ensures this.templates == templates && this.questions == questions
      ensures sessions == map[] && expenses == map[] && jobs == map[] && timesheets == map[]
      ensures responses == map[] && locations == [] && answers == []
    {
      this.users := users;
      this.cards := cards;
      this.clients := clients;
      this.templates := templates;
      this.questions := questions;
      sessions, nextSessionId := map[], 0;
      expenses, nextExpenseId := map[], 0;
      jobs, nextJobId := map[], 0;
      timesheets, nextTimesheetId := map[], 0;
      responses, nextResponseId := map[], 0;
      locations, answers := [], [];
    }

    method InsertSession(s: Session) returns (id: nat)
      requires Valid()
      modifies this`sessions, this`nextSessionId
      ensures Valid()
      ensures id == old(nextSessionId) && id !in old(sessions) && sessions == old(sessions)[id := s]
    {
      id := nextSessionId;
      sessions := sessions[id := s];
      nextSessionId := nextSessionId + 1;
    }

    method InsertExpense(e: Expense) returns (id: nat)
      requires Valid()
      modifies this`expenses, this`nextExpenseId
      ensures Valid()
      ensures id == old(nextExpenseId) && id !in old(expenses) && expenses == old(expenses)[id := e]
    {
      id := nextExpenseId;
      expenses := expenses[id := e];
      nextExpenseId := nextExpenseId + 1;
    }

    method InsertJob(j: Job) returns (id: nat)
      requires Valid()
      modifies this`jobs, this`nextJobId
      ensures Valid()
      ensures id == old(nextJobId) && id !in old(jobs) && jobs == old(jobs)[id := j]
    {
      id := nextJobId;
      jobs := jobs[id := j];
      nextJobId := nextJobId + 1;
    }

    method InsertTimesheet(t: Timesheet) returns (id: nat)
      requires Valid()
      modifies this`timesheets, this`nextTimesheetId
      ensures Valid()
      ensures id == old(nextTimesheetId) && id !in old(timesheets) && timesheets == old(timesheets)[id := t]
    {
      id := nextTimesheetId;
      timesheets := timesheets[id := t];
      nextTimesheetId := nextTimesheetId + 1;
    }

    method InsertResponse(r: SurveyResponse) returns (id: nat)
      requires Valid()
      modifies this`responses, this`nextResponseId
      ensures Valid()
      ensures id == old(nextResponseId) && id !in old(responses) && responses == old(responses)[id := r]
    {
      id := nextResponseId;
      responses := responses[id := r];
      nextResponseId := nextResponseId + 1;
    }
  }
}
