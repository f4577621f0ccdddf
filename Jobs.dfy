/** `/api/jobs`: the role-scoped, searchable job list (GET) and job creation
    by an admin or a manager (POST). */
module Jobs {
  import opened Common
  import opened Strings
  import opened Store
  import opened Listing
  import opened Auth
  import opened Query

  // ---------------------------------------------------------------------
  // GET: the filter builder

  /** The query string. `status` and `q` are None when absent; the ids are
      Some exactly when they are non-empty numeric strings. */
  datatype JobQuery = JobQuery(status: Option<string>, assigneeId: Option<nat>, clientId: Option<nat>,
                               q: Option<string>, page: QueryInt)

  /** `AND j.assigned_to = $1` for an employee, nothing for anyone else. */
  function Scope(user: Identity): seq<Constraint>
  {
    if user.role == "employee" then [Compare(AssignedToCol, Eq, Int(user.id))] else []
  }

  /** The constraints the WHERE clause stands for, in the handler's order. */
  function Filters(user: Identity, q: JobQuery): seq<Constraint>
  {
    Scope(user) + Optional(TextParam(q.status), StatusCol, Eq) + Optional(IntParam(NatOf(q.assigneeId)), AssignedToCol, Eq)
    + Optional(IntParam(NatOf(q.clientId)), ClientCol, Eq) + SearchPart(q.q)
  }

  function NatOf(x: Option<nat>): Option<int>
  {
    if x.Some? then Some(x.value as int) else None
  }

  /** The WHERE clause and its parameters as the handler builds them: an
      employee is scoped to the jobs assigned to them by `$1`, and every
      placeholder resolves to its own filter's value. */
  method BuildWhere(user: Identity, q: JobQuery) returns (conds: seq<Cond>, params: seq<Value>, paramIndex: nat)
    ensures Numbered(conds) && Slots(conds) == |params| && paramIndex == |params| + 1
    ensures Resolve(conds, params) == Some(Filters(user, q))
    ensures user.role == "employee" ==>
      |conds| > 0 && |params| > 0 && conds[0] == Cmp(AssignedToCol, Eq, 1) && params[0] == Int(user.id)
  {
    conds, params, paramIndex := [], [], 1;
    ghost var cs := Scope(user);
    if user.role == "employee" {
      PushParam([], [], [], Cmp(AssignedToCol, Eq, 1), Int(user.id), Compare(AssignedToCol, Eq, Int(user.id)));
      conds := conds + [Cmp(AssignedToCol, Eq, paramIndex)];
      params := params + [Int(user.id)];
      paramIndex := paramIndex + 1;
      assert [] + [Cmp(AssignedToCol, Eq, 1)] == conds && [] + [Int(user.id)] == params;
      assert [] + [Compare(AssignedToCol, Eq, Int(user.id))] == cs;
    } else {
      assert cs == [] && Resolve(conds, params) == Some([]);
    }
    conds, params, paramIndex := PushFilter(conds, params, paramIndex, cs, TextParam(q.status), StatusCol, Eq);
    cs := cs + Optional(TextParam(q.status), StatusCol, Eq);
    conds, params, paramIndex := PushFilter(conds, params, paramIndex, cs, IntParam(NatOf(q.assigneeId)), AssignedToCol, Eq);
    cs := cs + Optional(IntParam(NatOf(q.assigneeId)), AssignedToCol, Eq);
    conds, params, paramIndex := PushFilter(conds, params, paramIndex, cs, IntParam(NatOf(q.clientId)), ClientCol, Eq);
    cs := cs + Optional(IntParam(NatOf(q.clientId)), ClientCol, Eq);
    conds, params, paramIndex := PushSearch(conds, params, paramIndex, cs, q.q);
  }

  // ---------------------------------------------------------------------
  // GET: the rows and the page

  /** A job as the WHERE clause sees it; a NULL column is a missing cell. */
  function JobRow(j: Job): (r: Row)
    ensures StatusCol in r.cells && r.cells[StatusCol] == Text(j.status)
    ensures AssignedToCol in r.cells <==> j.assignedTo.Some?
    ensures j.assignedTo.Some? ==> r.cells[AssignedToCol] == Int(j.assignedTo.value)
    ensures ClientCol in r.cells <==> j.clientId.Some?
    ensures j.clientId.Some? ==> r.cells[ClientCol] == Int(j.clientId.value)
    ensures r.texts == [j.title, j.description]
  {
    Row(map[StatusCol := Text(j.status)]
        + (if j.assignedTo.Some? then map[AssignedToCol := Int(j.assignedTo.value)] else map[])
        + (if j.clientId.Some? then map[ClientCol := Int(j.clientId.value)] else map[]),
        false, [j.title, j.description])
  }

  /** The rows `FROM jobs j LEFT JOIN … WHERE …` selects. */
  function Selected(jobs: map<nat, Job>, cs: seq<Constraint>): (ids: set<nat>)
    ensures forall id | id in ids :: id in jobs
  {
    set id | id in jobs && MatchesAll(cs, JobRow(jobs[id]))
  }

  function ScheduledKey(jobs: map<nat, Job>): (key: map<nat, Option<int>>)
    ensures forall id | id in jobs :: id in key && key[id] == jobs[id].scheduledMs
  {
    map id | id in jobs :: jobs[id].scheduledMs
  }

  datatype Stop = Stop(title: string, address: string)

  datatype JobView = JobView(id: nat, job: Job, locations: seq<Stop>)

  /** The POST reply: the new id and the row's own columns, no stops. */
  datatype CreatedJob = CreatedJob(id: nat, job: Job)

  /** `job.pickup_location && job.destination ? [pickup, destination] : []`. */
  function Locations(j: Job): (stops: seq<Stop>)
    ensures |stops| == 2 <==> Given(j.pickupLocation) && Given(j.destination)
    ensures |stops| != 2 ==> stops == []
    ensures |stops| == 2 ==>
      stops[0] == Stop("Pickup", j.pickupLocation.value) && stops[1] == Stop("Destination", j.destination.value)
  {
    if Given(j.pickupLocation) && Given(j.destination) then
      [Stop("Pickup", j.pickupLocation.value), Stop("Destination", j.destination.value)]
    else []
  }

  /** `jobs.map(job => …)`. */
  function Views(jobs: map<nat, Job>, ids: seq<nat>): (vs: seq<JobView>)
    requires forall k | 0 <= k < |ids| :: ids[k] in jobs
    ensures |vs| == |ids|
    ensures forall k | 0 <= k < |ids| :: vs[k] == JobView(ids[k], jobs[ids[k]], Locations(jobs[ids[k]]))
  {
    seq(|ids|, k requires 0 <= k < |ids| => JobView(ids[k], jobs[ids[k]], Locations(jobs[ids[k]])))
  }

  /** The fixed page size. */
  const PageSize: nat := 50

  /** The listed ids: the selected rows, latest scheduled date first (no date
      first of all), `LIMIT 50 OFFSET offset`. */
  function PageIds(user: Identity, jobs: map<nat, Job>, q: JobQuery, offset: nat): (ids: seq<nat>)
    ensures forall k | 0 <= k < |ids| :: ids[k] in jobs
  {
    var selected := Selected(jobs, Filters(user, q));
    var s := Ordered(selected, ScheduledKey(jobs), Desc);
    Window(s, PageSize, offset)
  }

  /** The reply of GET for the user the auth gate returned: a page number
      that is not a number, or below 1, makes the offset unusable and the
      database refuses the query. */
  function ListOutcome(user: Option<Identity>, jobs: map<nat, Job>, q: JobQuery): (r: Reply<seq<JobView>>)
    ensures r.status == 200 || r.status == 401 || r.status == 500
    ensures r.status == 401 <==> user.None?
    ensures r.IsSuccess() <==> user.Some? && PageOf(q.page).Some? && PageOf(q.page).value >= 1
  {
    if user.None? then Fail(401, "Authentication required")
    else
      var page := PageOf(q.page);
      if page.None? || Offset(page.value, PageSize) < 0 then Fail(500, "Failed to fetch jobs")
      else Done(200, "", Views(jobs, PageIds(user.value, jobs, q, Offset(page.value, PageSize))))
  }

  /** GET: `LIMIT $paramIndex OFFSET $paramIndex+1` over the parameters
      with the page size and offset pushed last. */
  method List(db: Database, ctx: Context, q: JobQuery) returns (r: Reply<seq<JobView>>)
    requires db.Valid()
    modifies db`sessions
    ensures db.Valid()
    ensures db.sessions == Stamped(old(db.users), old(db.sessions), ctx)
    ensures r == ListOutcome(Authenticate(old(db.users), old(db.sessions), ctx), db.jobs, q)
  {
    var user := VerifyToken(db, ctx);
    if user.None? {
      return Fail(401, "Authentication required");
    }
    var page := PageOf(q.page);
    if page.None? {
      return Fail(500, "Failed to fetch jobs");
    }
    var offset := Offset(page.value, PageSize);
    var conds, params, paramIndex := BuildWhere(user.value, q);
    var all := params + [Int(PageSize), Int(offset)];
    if all[paramIndex].i < 0 {
      return Fail(500, "Failed to fetch jobs");
    }
    NumberedWithin(conds);
    ResolveExtend(conds, params, [Int(PageSize), Int(offset)]);
    var rows := Selected(db.jobs, Resolve(conds, all).value);
    var ids := Window(Ordered(rows, ScheduledKey(db.jobs), Desc), all[paramIndex - 1].i, all[paramIndex].i);
    assert ids == PageIds(user.value, db.jobs, q, offset);
    r := Done(200, "", Views(db.jobs, ids));
  }

  // ---------------------------------------------------------------------
  // POST

  /** The JSON body; None is an absent field. */
  datatype NewJob = NewJob(title: Option<string>, description: Option<string>, clientId: Option<int>,
                           when: Option<int>, scheduledEnd: Option<int>, pickupLocation: Option<string>,
                           destination: Option<string>, notes: Option<string>, priority: Option<string>)

  function Refusal(user: Identity, req: NewJob): Option<(int, string)>
  {
    if user.role != "admin" && user.role != "manager" then Some((403, "Insufficient permissions"))
    else if !Given(req.title) || !Given(req.description) then Some((400, "Title and description are required"))
    else None
  }

  /** The inserted row: assigned by the actor, to nobody yet, with status
      "assigned" and priority "medium" unless one was sent. */
  function NewRow(user: Identity, req: NewJob): (j: Job)
    requires Given(req.title) && Given(req.description)
    ensures j.assignedBy == user.id && j.assignedTo.None? && j.status == "assigned"
    ensures j.title == req.title.value && j.description == req.description.value
    ensures j.priority == Some(if req.priority.Some? then req.priority.value else "medium")
  {
    Job(req.title.value, req.description.value, req.clientId, user.id, None, req.when, req.scheduledEnd,
        req.pickupLocation, req.destination, req.notes,
        Some(if req.priority.Some? then req.priority.value else "medium"), "assigned")
  }

  predicate CreateEffect(jobs: map<nat, Job>, next: nat, user: Identity, req: NewJob, r: Reply<CreatedJob>,
                         jobs': map<nat, Job>)
  {
    match Refusal(user, req)
    case Some((status, message)) => r == Reply(status, message, None) && jobs' == jobs
    case None =>
      && next !in jobs
      && jobs' == jobs[next := NewRow(user, req)]
      && r == Done(200, "", CreatedJob(next, NewRow(user, req)))
  }

  method Create(db: Database, user: Identity, req: NewJob) returns (r: Reply<CreatedJob>)
    requires db.Valid()
    modifies db`jobs, db`nextJobId
    ensures db.Valid()
    ensures CreateEffect(old(db.jobs), old(db.nextJobId), user, req, r, db.jobs)
  {
    if user.role != "admin" && user.role != "manager" {
      return Reply(403, "Insufficient permissions", None);
    }
    if !Given(req.title) || !Given(req.description) {
      return Reply(400, "Title and description are required", None);
    }
    var j := NewRow(user, req);
    var id := db.InsertJob(j);
    r := Done(200, "", CreatedJob(id, j));
  }

  method Post(db: Database, ctx: Context, req: NewJob) returns (r: Reply<CreatedJob>)
    requires db.Valid()
    modifies db`sessions, db`jobs, db`nextJobId
    ensures db.Valid()
    ensures db.sessions == Stamped(old(db.users), old(db.sessions), ctx)
    ensures var user := Authenticate(old(db.users), old(db.sessions), ctx);
      if user.None? then r == Fail(401, "Authentication required") && db.jobs == old(db.jobs)
      else CreateEffect(old(db.jobs), old(db.nextJobId), user.value, req, r, db.jobs)
  {
    var user := VerifyToken(db, ctx);
    if user.None? {
      return Fail(401, "Authentication required");
    }
    r := Create(db, user.value, req);
  }

  // ---------------------------------------------------------------------
  // Properties

  /** What the list filters mean, written on the job's own fields. */
  predicate Visible(user: Identity, q: JobQuery, j: Job)
  {
    (user.role == "employee" ==> j.assignedTo == Some(user.id))
    && (Given(q.status) ==> j.status == q.status.value)
    && (q.assigneeId.Some? ==> j.assignedTo == Some(q.assigneeId.value))
    && (q.clientId.Some? ==> j.clientId == Some(q.clientId.value as int))
    && (Given(q.q) ==> Contains(Lower(j.title), Lower(q.q.value)) || Contains(Lower(j.description), Lower(q.q.value)))
  }

  lemma FiltersMean(user: Identity, q: JobQuery, j: Job)
    ensures MatchesAll(Filters(user, q), JobRow(j)) <==> Visible(user, q, j)
  {
    var row := JobRow(j);
    var a := Scope(user);
    var b := Optional(TextParam(q.status), StatusCol, Eq);
    var c := Optional(IntParam(NatOf(q.assigneeId)), AssignedToCol, Eq);
    var d := Optional(IntParam(NatOf(q.clientId)), ClientCol, Eq);
    var f := SearchPart(q.q);
    MatchesConcat(a + b + c + d, f, row);
    MatchesConcat(a + b + c, d, row);
    MatchesConcat(a + b, c, row);
    MatchesConcat(a, b, row);
    OptionalMeans(TextParam(q.status), StatusCol, Eq, row);
    OptionalMeans(IntParam(NatOf(q.assigneeId)), AssignedToCol, Eq, row);
    OptionalMeans(IntParam(NatOf(q.clientId)), ClientCol, Eq, row);
    SearchMeans(q.q, row);
    if |a| == 1 {
      assert MatchesAll(a, row) <==> Satisfies(a[0], row);
    }
    if Given(q.q) {
      var t := Lower(q.q.value);
      assert (exists i | 0 <= i < |row.texts| :: Contains(Lower(row.texts[i]), t)) <==>
        Contains(Lower(j.title), t) || Contains(Lower(j.description), t) by {
        assert row.texts[0] == j.title && row.texts[1] == j.description;
      }
    }
  }

  /** The jobs whose fields meet the filters. */
  function VisibleIds(user: Identity, jobs: map<nat, Job>, q: JobQuery): (ids: set<nat>)
    ensures forall id | id in ids :: id in jobs && Visible(user, q, jobs[id])
    ensures forall id | id in jobs && Visible(user, q, jobs[id]) :: id in ids
  {
    set id | id in jobs && Visible(user, q, jobs[id])
  }

  /** The WHERE clause selects exactly the visible jobs. */
  lemma SelectsVisible(user: Identity, jobs: map<nat, Job>, q: JobQuery)
    ensures Selected(jobs, Filters(user, q)) == VisibleIds(user, jobs, q)
  {
    forall id | id in jobs
      ensures MatchesAll(Filters(user, q), JobRow(jobs[id])) <==> Visible(user, q, jobs[id])
    {
      FiltersMean(user, q, jobs[id]);
    }
  }

  /** A successful list is page `page` of all visible jobs in scheduled-date
      order: 50 of them from offset `(page - 1) * 50`. */
  lemma ListIsPageOfVisible(user: Option<Identity>, jobs: map<nat, Job>, q: JobQuery)
    requires ListOutcome(user, jobs, q).IsSuccess()
    ensures var offset := Offset(PageOf(q.page).value, PageSize);
      var all := Ordered(VisibleIds(user.value, jobs, q), ScheduledKey(jobs), Desc);
      && offset >= 0
      && ListOutcome(user, jobs, q).body.value == Views(jobs, Window(all, PageSize, offset))
  {
    var u := user.value;
    var offset := Offset(PageOf(q.page).value, PageSize);
    var key := ScheduledKey(jobs);
    var selected := Selected(jobs, Filters(u, q));
    var visible := VisibleIds(u, jobs, q);
    SelectsVisible(u, jobs, q);
    assert selected == visible;
    assert Ordered(selected, key, Desc) == Ordered(visible, key, Desc);
    assert PageIds(u, jobs, q, offset) == Window(Ordered(selected, key, Desc), PageSize, offset);
  }

  /** A successful list holds at most 50 jobs, all visible under the
      filters, each carrying its own row; an employee only ever sees jobs
      assigned to them. */
  lemma ListedAreVisible(user: Option<Identity>, jobs: map<nat, Job>, q: JobQuery)
    requires ListOutcome(user, jobs, q).IsSuccess()
    ensures var vs := ListOutcome(user, jobs, q).body.value;
      && |vs| <= PageSize
      && (forall k | 0 <= k < |vs| :: vs[k].id in jobs && vs[k].job == jobs[vs[k].id] && Visible(user.value, q, vs[k].job))
      && (user.value.role == "employee" ==> forall k | 0 <= k < |vs| :: vs[k].job.assignedTo == Some(user.value.id))
  {
    ListIsPageOfVisible(user, jobs, q);
    var all := Ordered(VisibleIds(user.value, jobs, q), ScheduledKey(jobs), Desc);
    var ids := Window(all, PageSize, Offset(PageOf(q.page).value, PageSize));
    assert forall k | 0 <= k < |ids| :: ids[k] in VisibleIds(user.value, jobs, q);
  }

  /** Creating succeeds exactly for an admin or a manager sending a truthy
      title and description, and then inserts one job, unassigned, in status
      "assigned", by the actor, with priority "medium" unless one was sent.
      Nobody else's request changes the table. */
  lemma CreateFacts(jobs: map<nat, Job>, next: nat, user: Identity, req: NewJob, r: Reply<CreatedJob>, jobs': map<nat, Job>)
    requires CreateEffect(jobs, next, user, req, r, jobs')
    ensures r.IsSuccess() <==> (user.role == "admin" || user.role == "manager") && Given(req.title) && Given(req.description)
    ensures user.role != "admin" && user.role != "manager" ==> r.status == 403
    ensures !r.IsSuccess() ==> jobs' == jobs
    ensures r.IsSuccess() ==>
      && jobs'.Keys == jobs.Keys + {next} && next !in jobs
      && (forall id | id in jobs :: jobs'[id] == jobs[id])
      && jobs'[next].assignedBy == user.id && jobs'[next].assignedTo.None? && jobs'[next].status == "assigned"
      && (req.priority.None? ==> jobs'[next].priority == Some("medium"))
    ensures r.IsSuccess() ==> r.body == Some(CreatedJob(next, jobs'[next]))
  {
  }

  /** A new job is assigned to nobody, so no employee's list shows it until
      it is assigned, whatever the query. */
  lemma NewJobHiddenFromEmployees(user: Identity, creator: Identity, req: NewJob, employee: Identity, q: JobQuery)
    requires Given(req.title) && Given(req.description) && employee.role == "employee"
    ensures !MatchesAll(Filters(employee, q), JobRow(NewRow(creator, req)))
  {
    FiltersMean(employee, q, NewRow(creator, req));
  }
}
