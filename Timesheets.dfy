/** `GET /api/timesheets`: the role-scoped timesheet list, either a page of
    50 or, with `current=true`, the latest open shift, each row with its
    derived duration and status. */
module Timesheets {
  import opened Common
  import opened Store
  import opened Listing
  import opened Auth
  import opened Query
  import opened Shifts

  // ---------------------------------------------------------------------
  // The filter builder

  /** The query string. `userId` is Some exactly when it is a non-empty
      numeric string, `from` and `to` when they are non-empty dates (in
      milliseconds); `current` is `current === "true"`. */
  datatype SheetQuery = SheetQuery(userId: Option<nat>, from: Option<int>, to: Option<int>, current: bool,
                                   page: QueryInt)

  /** `AND t.user_id = $1`: an employee is scoped to themselves, anyone
      else only when they ask for a `userId`. */
  function Scope(user: Identity, q: SheetQuery): seq<Constraint>
  {
    if user.role == "employee" then [Compare(UserCol, Eq, Int(user.id))]
    else if q.userId.Some? then [Compare(UserCol, Eq, Int(q.userId.value))]
    else []
  }

  /** `AND t.clock_out_time IS NULL`, and for an employee the user filter a
      second time. */
  function CurrentPart(user: Identity, q: SheetQuery): seq<Constraint>
  {
    if !q.current then []
    else if user.role == "employee" then [Unclosed, Compare(UserCol, Eq, Int(user.id))]
    else [Unclosed]
  }

  function Filters(user: Identity, q: SheetQuery): seq<Constraint>
  {
    Scope(user, q) + CurrentPart(user, q) + Optional(IntParam(q.from), ClockInCol, AtLeast)
    + Optional(IntParam(q.to), ClockInCol, AtMost)
  }

  /** `if (current) { … }`: the open-shift condition, and the employee's
      user filter again. */
  method PushCurrent(user: Identity, q: SheetQuery, conds: seq<Cond>, params: seq<Value>, paramIndex: nat,
                     ghost cs: seq<Constraint>)
    returns (conds': seq<Cond>, params': seq<Value>, paramIndex': nat)
    requires Numbered(conds) && Slots(conds) == |params| && paramIndex == |params| + 1
    requires Resolve(conds, params) == Some(cs)
    ensures Numbered(conds') && Slots(conds') == |params'| && paramIndex' == |params'| + 1
    ensures Resolve(conds', params') == Some(cs + CurrentPart(user, q))
    ensures forall i | 0 <= i < |conds| :: i < |conds'| && conds'[i] == conds[i]
    ensures forall i | 0 <= i < |params| :: i < |params'| && params'[i] == params[i]
  {
    conds', params', paramIndex' := conds, params, paramIndex;
    if q.current {
      PushUnclosed(conds, params, cs);
      conds' := conds + [ClockOutIsNull];
      if user.role == "employee" {
        PushParam(conds', params, cs + [Unclosed], Cmp(UserCol, Eq, paramIndex), Int(user.id),
                  Compare(UserCol, Eq, Int(user.id)));
        conds' := conds' + [Cmp(UserCol, Eq, paramIndex)];
        params' := params + [Int(user.id)];
        paramIndex' := paramIndex + 1;
        assert cs + [Unclosed] + [Compare(UserCol, Eq, Int(user.id))] == cs + CurrentPart(user, q);
      }
    } else {
      assert cs + [] == cs;
    }
  }

  /** The WHERE clause and its parameters as the handler builds them: an
      employee is scoped to themselves by `$1`, and every placeholder
      resolves to its own filter's value. */
  method BuildWhere(user: Identity, q: SheetQuery) returns (conds: seq<Cond>, params: seq<Value>, paramIndex: nat)
    ensures Numbered(conds) && Slots(conds) == |params| && paramIndex == |params| + 1
    ensures Resolve(conds, params) == Some(Filters(user, q))
    ensures user.role == "employee" ==>
      |conds| > 0 && |params| > 0 && conds[0] == Cmp(UserCol, Eq, 1) && params[0] == Int(user.id)
  {
    conds, params, paramIndex := [], [], 1;
    ghost var cs := Scope(user, q);
    if user.role == "employee" {
      PushParam([], [], [], Cmp(UserCol, Eq, 1), Int(user.id), Compare(UserCol, Eq, Int(user.id)));
      conds := conds + [Cmp(UserCol, Eq, paramIndex)];
      params := params + [Int(user.id)];
      paramIndex := paramIndex + 1;
      assert [] + [Cmp(UserCol, Eq, 1)] == conds && [] + [Int(user.id)] == params;
      assert [] + [Compare(UserCol, Eq, Int(user.id))] == cs;
    } else if q.userId.Some? {
      PushParam([], [], [], Cmp(UserCol, Eq, 1), Int(q.userId.value), Compare(UserCol, Eq, Int(q.userId.value)));
      conds := conds + [Cmp(UserCol, Eq, paramIndex)];
      params := params + [Int(q.userId.value)];
      paramIndex := paramIndex + 1;
      assert [] + [Cmp(UserCol, Eq, 1)] == conds && [] + [Int(q.userId.value)] == params;
      assert [] + [Compare(UserCol, Eq, Int(q.userId.value))] == cs;
    } else {
      assert cs == [] && Resolve(conds, params) == Some([]);
    }
    conds, params, paramIndex := PushCurrent(user, q, conds, params, paramIndex, cs);
    cs := cs + CurrentPart(user, q);
    conds, params, paramIndex := PushFilter(conds, params, paramIndex, cs, IntParam(q.from), ClockInCol, AtLeast);
    cs := cs + Optional(IntParam(q.from), ClockInCol, AtLeast);
    conds, params, paramIndex := PushFilter(conds, params, paramIndex, cs, IntParam(q.to), ClockInCol, AtMost);
  }

  // ---------------------------------------------------------------------
  // The rows and the page

  /** A timesheet as the WHERE clause sees it. */
  function SheetRow(t: Timesheet): (r: Row)
    ensures UserCol in r.cells && r.cells[UserCol] == Int(t.userId)
    ensures ClockInCol in r.cells && r.cells[ClockInCol] == Int(t.clockInMs)
    ensures r.open == t.IsOpen()
  {
    Row(map[UserCol := Int(t.userId), ClockInCol := Int(t.clockInMs)], t.IsOpen(), [])
  }

  /** The rows `FROM timesheets t LEFT JOIN … WHERE …` selects. */
  function Selected(timesheets: map<nat, Timesheet>, cs: seq<Constraint>): (ids: set<nat>)
    ensures forall id | id in ids :: id in timesheets
  {
    set id | id in timesheets && MatchesAll(cs, SheetRow(timesheets[id]))
  }

  datatype Point = Point(lat: int, lng: int)

  datatype SheetView = SheetView(id: nat, userId: nat, jobId: Option<int>, clientId: Option<int>, clockInMs: int,
                                 clockInLoc: Option<Point>, clockOutMs: Option<int>, clockOutLoc: Option<Point>,
                                 durationSec: Option<int>, status: string, surveyCompleted: Option<bool>,
                                 notes: Option<string>, breakMinutes: int)

  /** `lat && lng ? { lat, lng } : null`. */
  function PointOf(lat: Option<int>, lng: Option<int>): (p: Option<Point>)
    ensures p.Some? <==> Nonzero(lat) && Nonzero(lng)
    ensures p.Some? ==> p.value == Point(lat.value, lng.value)
  {
    if Nonzero(lat) && Nonzero(lng) then Some(Point(lat.value, lng.value)) else None
  }

  /** One row of the reply: the duration in whole seconds only once the
      shift is closed, "Closed" or "Open" by the clock-out time, and the
      break as 0 when unset. */
  function ViewOf(id: nat, t: Timesheet): (v: SheetView)
    ensures v.id == id && v.userId == t.userId && v.clockInMs == t.clockInMs && v.clockOutMs == t.clockOutMs
    ensures v.status == (if t.IsOpen() then "Open" else "Closed")
    ensures v.durationSec.None? <==> t.IsOpen()
    ensures v.durationSec.Some? ==>
      v.durationSec.value * 1000 <= t.clockOutMs.value - t.clockInMs < v.durationSec.value * 1000 + 1000
    ensures v.breakMinutes == (if t.breakMinutes.Some? then t.breakMinutes.value else 0)
  {
    SheetView(id, t.userId, t.jobId, t.clientId, t.clockInMs, PointOf(t.clockInLat, t.clockInLng), t.clockOutMs,
              PointOf(t.clockOutLat, t.clockOutLng),
              if t.clockOutMs.Some? then Some(DurationSec(t.clockInMs, t.clockOutMs.value)) else None,
              if t.clockOutMs.Some? then "Closed" else "Open",
              t.surveyCompleted, t.notes,
              if t.breakMinutes.Some? && t.breakMinutes.value != 0 then t.breakMinutes.value else 0)
  }

  /** `timesheets.map(t => …)`. */
  function Views(timesheets: map<nat, Timesheet>, ids: seq<nat>): (vs: seq<SheetView>)
    requires forall k | 0 <= k < |ids| :: ids[k] in timesheets
    ensures |vs| == |ids|
    ensures forall k | 0 <= k < |ids| :: vs[k] == ViewOf(ids[k], timesheets[ids[k]])
  {
    seq(|ids|, k requires 0 <= k < |ids| => ViewOf(ids[k], timesheets[ids[k]]))
  }

  const PageSize: nat := 50

  /** The listed ids: the selected rows, latest clock-in first, `LIMIT
      limit OFFSET offset`. */
  function PageIds(user: Identity, timesheets: map<nat, Timesheet>, q: SheetQuery, limit: nat, offset: nat)
    : (ids: seq<nat>)
    ensures forall k | 0 <= k < |ids| :: ids[k] in timesheets
  {
    var selected := Selected(timesheets, Filters(user, q));
    Window(Ordered(selected, ClockInKey(timesheets), Desc), limit, offset)
  }

  /** The reply for the user the auth gate returned. Outside `current`
      mode a page that is not a number, or below 1, makes the offset
      unusable and the database refuses the query; `current` mode takes the
      first row and ignores the page. */
  function ListOutcome(user: Option<Identity>, timesheets: map<nat, Timesheet>, q: SheetQuery)
    : (r: Reply<seq<SheetView>>)
    ensures r.status == 200 || r.status == 401 || r.status == 500
    ensures r.status == 401 <==> user.None?
    ensures r.IsSuccess() <==> user.Some? && (q.current || (PageOf(q.page).Some? && PageOf(q.page).value >= 1))
  {
    if user.None? then Fail(401, "Authentication required")
    else if q.current then Done(200, "", Views(timesheets, PageIds(user.value, timesheets, q, 1, 0)))
    else
      var page := PageOf(q.page);
      if page.None? || Offset(page.value, PageSize) < 0 then Fail(500, "Failed to fetch timesheets")
      else Done(200, "", Views(timesheets, PageIds(user.value, timesheets, q, PageSize, Offset(page.value, PageSize))))
  }

  method List(db: Database, ctx: Context, q: SheetQuery) returns (r: Reply<seq<SheetView>>)
    requires db.Valid()
    modifies db`sessions
    ensures db.Valid()
    ensures db.sessions == Stamped(old(db.users), old(db.sessions), ctx)
    ensures r == ListOutcome(Authenticate(old(db.users), old(db.sessions), ctx), db.timesheets, q)
  {
    var user := VerifyToken(db, ctx);
    if user.None? {
      return Fail(401, "Authentication required");
    }
    var conds, params, paramIndex := BuildWhere(user.value, q);
    if q.current {
      var rows := Selected(db.timesheets, Resolve(conds, params).value);
      var ids := Window(Ordered(rows, ClockInKey(db.timesheets), Desc), 1, 0);
      return Done(200, "", Views(db.timesheets, ids));
    }
    var page := PageOf(q.page);
    if page.None? {
      return Fail(500, "Failed to fetch timesheets");
    }
    var offset := Offset(page.value, PageSize);
    var all := params + [Int(PageSize), Int(offset)];
    if all[paramIndex].i < 0 {
      return Fail(500, "Failed to fetch timesheets");
    }
    NumberedWithin(conds);
    ResolveExtend(conds, params, [Int(PageSize), Int(offset)]);
    var rows := Selected(db.timesheets, Resolve(conds, all).value);
    var ids := Window(Ordered(rows, ClockInKey(db.timesheets), Desc), all[paramIndex - 1].i, all[paramIndex].i);
    r := Done(200, "", Views(db.timesheets, ids));
  }

  // ---------------------------------------------------------------------
  // Properties

  /** What the list filters mean, written on the timesheet's own fields;
      the user filter an employee gets twice in `current` mode appears once. */
  predicate Visible(user: Identity, q: SheetQuery, t: Timesheet)
  {
    (if user.role == "employee" then t.userId == user.id else q.userId.Some? ==> t.userId == q.userId.value)
    && (q.current ==> t.IsOpen())
    && (q.from.Some? ==> q.from.value <= t.clockInMs)
    && (q.to.Some? ==> t.clockInMs <= q.to.value)
  }

  lemma FiltersMean(user: Identity, q: SheetQuery, t: Timesheet)
    ensures MatchesAll(Filters(user, q), SheetRow(t)) <==> Visible(user, q, t)
  {
    var row := SheetRow(t);
    var a := Scope(user, q);
    var b := CurrentPart(user, q);
    var c := Optional(IntParam(q.from), ClockInCol, AtLeast);
    var d := Optional(IntParam(q.to), ClockInCol, AtMost);
    MatchesConcat(a + b + c, d, row);
    MatchesConcat(a + b, c, row);
    MatchesConcat(a, b, row);
    OptionalMeans(IntParam(q.from), ClockInCol, AtLeast, row);
    OptionalMeans(IntParam(q.to), ClockInCol, AtMost, row);
    if |a| == 1 {
      assert MatchesAll(a, row) <==> Satisfies(a[0], row);
    }
    if |b| == 1 {
      assert MatchesAll(b, row) <==> Satisfies(b[0], row);
    } else if |b| == 2 {
      assert MatchesAll(b, row) <==> Satisfies(b[0], row) && Satisfies(b[1], row);
    }
  }

  function VisibleIds(user: Identity, timesheets: map<nat, Timesheet>, q: SheetQuery): (ids: set<nat>)
    ensures forall id | id in ids :: id in timesheets && Visible(user, q, timesheets[id])
    ensures forall id | id in timesheets && Visible(user, q, timesheets[id]) :: id in ids
  {
    set id | id in timesheets && Visible(user, q, timesheets[id])
  }

  /** The WHERE clause selects exactly the visible timesheets. */
  lemma SelectsVisible(user: Identity, timesheets: map<nat, Timesheet>, q: SheetQuery)
    ensures Selected(timesheets, Filters(user, q)) == VisibleIds(user, timesheets, q)
  {
    forall id | id in timesheets
      ensures MatchesAll(Filters(user, q), SheetRow(timesheets[id])) <==> Visible(user, q, timesheets[id])
    {
      FiltersMean(user, q, timesheets[id]);
    }
  }

  /** The ids a successful list shows: a window of all visible timesheets,
      latest clock-in first; 50 from `(page - 1) * 50`, or just the first
      in `current` mode. */
  lemma ListIsWindowOfVisible(user: Option<Identity>, timesheets: map<nat, Timesheet>, q: SheetQuery)
    requires ListOutcome(user, timesheets, q).IsSuccess()
    ensures var all := Ordered(VisibleIds(user.value, timesheets, q), ClockInKey(timesheets), Desc);
      var limit := if q.current then 1 else PageSize;
      var offset := if q.current then 0 else Offset(PageOf(q.page).value, PageSize);
      && offset >= 0
      && ListOutcome(user, timesheets, q).body.value == Views(timesheets, Window(all, limit, offset))
  {
    var u := user.value;
    var key := ClockInKey(timesheets);
    var limit: nat := if q.current then 1 else PageSize;
    var offset := if q.current then 0 else Offset(PageOf(q.page).value, PageSize);
    assert ListOutcome(user, timesheets, q).body.value == Views(timesheets, PageIds(u, timesheets, q, limit, offset));
    var selected := Selected(timesheets, Filters(u, q));
    SelectsVisible(u, timesheets, q);
    assert Ordered(selected, key, Desc) == Ordered(VisibleIds(u, timesheets, q), key, Desc);
  }

  /** Every listed timesheet is visible under the filters, at most 50 of
      them; an employee only ever sees their own. */
  lemma ListedAreVisible(user: Option<Identity>, timesheets: map<nat, Timesheet>, q: SheetQuery)
    requires ListOutcome(user, timesheets, q).IsSuccess()
    ensures var vs := ListOutcome(user, timesheets, q).body.value;
      && |vs| <= (if q.current then 1 else PageSize)
      && (forall k | 0 <= k < |vs| :: vs[k].id in timesheets && Visible(user.value, q, timesheets[vs[k].id]))
      && (user.value.role == "employee" ==> forall k | 0 <= k < |vs| :: vs[k].userId == user.value.id)
  {
    ListIsWindowOfVisible(user, timesheets, q);
    var visible := VisibleIds(user.value, timesheets, q);
    var all := Ordered(visible, ClockInKey(timesheets), Desc);
    var limit: nat := if q.current then 1 else PageSize;
    var offset: nat := if q.current then 0 else Offset(PageOf(q.page).value, PageSize);
    var ids := Window(all, limit, offset);
    assert forall k | 0 <= k < |ids| :: ids[k] in visible;
    ViewsOfVisible(user.value, timesheets, q, ids);
  }

  /** The views of visible timesheets are visible, and an employee's are
      their own. */
  lemma ViewsOfVisible(user: Identity, timesheets: map<nat, Timesheet>, q: SheetQuery, ids: seq<nat>)
    requires forall k | 0 <= k < |ids| :: ids[k] in VisibleIds(user, timesheets, q)
    ensures forall k | 0 <= k < |ids| :: ids[k] in timesheets
    ensures var vs := Views(timesheets, ids);
      && (forall k | 0 <= k < |vs| :: vs[k].id in timesheets && Visible(user, q, timesheets[vs[k].id]))
      && (user.role == "employee" ==> forall k | 0 <= k < |vs| :: vs[k].userId == user.id)
  {
    var vs := Views(timesheets, ids);
    forall k | 0 <= k < |vs|
      ensures vs[k].id in timesheets && Visible(user, q, timesheets[vs[k].id]) && vs[k].userId == timesheets[ids[k]].userId
    {
      assert ids[k] in VisibleIds(user, timesheets, q);
      assert vs[k] == ViewOf(ids[k], timesheets[ids[k]]);
    }
  }

  /** The first of the visible timesheets in clock-in order, if any, has
      the latest clock-in of them all. */
  lemma LatestFirst(user: Identity, timesheets: map<nat, Timesheet>, q: SheetQuery)
    ensures var visible := VisibleIds(user, timesheets, q);
      var w := Window(Ordered(visible, ClockInKey(timesheets), Desc), 1, 0);
      && |w| <= 1 && (|w| == 1 <==> visible != {})
      && (|w| == 1 ==> w[0] in visible && forall id | id in visible :: timesheets[id].clockInMs <= timesheets[w[0]].clockInMs)
  {
    var visible := VisibleIds(user, timesheets, q);
    var key := ClockInKey(timesheets);
    var all := Ordered(visible, key, Desc);
    if visible != {} {
      FirstOrdered(visible, key, Desc);
      assert Window(all, 1, 0) == [all[0]];
      assert all[0] in visible;
      forall id | id in visible ensures timesheets[id].clockInMs <= timesheets[all[0]].clockInMs {
        assert Precedes(key[all[0]], key[id], Desc);
      }
    } else {
      assert |all| == 0;
    }
  }

  /** `current=true` shows the visible shift with the latest clock-in, if
      there is one, and it is open. */
  lemma CurrentShowsLatest(user: Option<Identity>, timesheets: map<nat, Timesheet>, q: SheetQuery)
    requires user.Some? && q.current
    ensures ListOutcome(user, timesheets, q).IsSuccess()
    ensures var vs := ListOutcome(user, timesheets, q).body.value;
      && (|vs| == 1 <==> VisibleIds(user.value, timesheets, q) != {})
      && |vs| <= 1
      && (|vs| == 1 ==>
            && vs[0].id in VisibleIds(user.value, timesheets, q)
            && vs[0].status == "Open" && vs[0].durationSec.None?
            && forall id | id in VisibleIds(user.value, timesheets, q) :: timesheets[id].clockInMs <= vs[0].clockInMs)
  {
    ListIsWindowOfVisible(user, timesheets, q);
    LatestFirst(user.value, timesheets, q);
  }

  /** For an employee asking for the current shift without dates, the
      visible shifts are exactly their open ones. */
  lemma CurrentVisibleIsOpen(user: Identity, timesheets: map<nat, Timesheet>, q: SheetQuery)
    requires q.current && user.role == "employee" && q.from.None? && q.to.None?
    ensures VisibleIds(user, timesheets, q) == OpenOf(timesheets, user.id)
  {
    var open := OpenOf(timesheets, user.id);
    var visible := VisibleIds(user, timesheets, q);
    forall id ensures id in visible <==> id in open {
      if id in timesheets {
        assert Visible(user, q, timesheets[id]) <==> timesheets[id].userId == user.id && timesheets[id].IsOpen();
      }
    }
  }

  /** For an employee asking without dates, and with at most one open shift
      per user, `current=true` shows exactly their open shift, if any. */
  lemma CurrentIsOwnOpenShift(user: Option<Identity>, timesheets: map<nat, Timesheet>, q: SheetQuery)
    requires user.Some? && q.current && user.value.role == "employee" && q.from.None? && q.to.None?
    requires OneOpenPerUser(timesheets)
    ensures var vs := ListOutcome(user, timesheets, q).body.value;
      && ListOutcome(user, timesheets, q).IsSuccess()
      && (|vs| == 1 <==> OpenOf(timesheets, user.value.id) != {})
      && (|vs| == 1 ==> OpenOf(timesheets, user.value.id) == {vs[0].id})
  {
    var u := user.value;
    var open := OpenOf(timesheets, u.id);
    CurrentVisibleIsOpen(u, timesheets, q);
    CurrentShowsLatest(user, timesheets, q);
    var vs := ListOutcome(user, timesheets, q).body.value;
    if |vs| == 1 {
      OneOpenMeansAtMostOne(timesheets, u.id);
      assert vs[0].id in open;
    }
  }
}
