/** `/api/expenses`: the role-scoped, paginated list (GET) and expense
    creation with the card check and the card-spend increment (POST). */
module Expenses {
  import opened Common
  import opened Strings
  import opened Store
  import opened Listing
  import opened Auth
  import opened Query

  // ---------------------------------------------------------------------
  // GET: the filter builder

  /** The query string. Text filters are None when absent; `userId` is
      Some exactly when it is a non-empty numeric string. */
  datatype ListQuery = ListQuery(page: QueryInt, limit: QueryInt, status: Option<string>,
                                 startDate: Option<string>, endDate: Option<string>,
                                 category: Option<string>, userId: Option<nat>)

  /** `AND e.user_id = $1`: a user outside `VIEW_ALL_EXPENSES` is scoped to
      themselves; the others only when they ask for a `userId`. */
  function Scope(user: Identity, q: ListQuery): seq<Constraint>
  {
    if !HasRole(Some(user), OneOf(ViewAllExpenses)) then [Compare(UserCol, Eq, Int(user.id))]
    else if q.userId.Some? then [Compare(UserCol, Eq, Int(q.userId.value))]
    else []
  }

  /** The constraints the WHERE clause stands for, one per filter present,
      in the order the handler writes them. */
  function Filters(user: Identity, q: ListQuery): seq<Constraint>
  {
    Scope(user, q) + Optional(TextParam(q.status), StatusCol, Eq) + Optional(TextParam(q.startDate), DateCol, AtLeast)
    + Optional(TextParam(q.endDate), DateCol, AtMost) + Optional(TextParam(q.category), CategoryCol, Eq)
  }

  /** The WHERE clause and its parameters, built as the handler builds them:
      a user outside `VIEW_ALL_EXPENSES` is scoped to themselves by `$1`,
      and every placeholder resolves to its own filter's value. */
  method BuildWhere(user: Identity, q: ListQuery) returns (conds: seq<Cond>, params: seq<Value>, paramIndex: nat)
    ensures Numbered(conds) && Slots(conds) == |params| && paramIndex == |params| + 1
    ensures Resolve(conds, params) == Some(Filters(user, q))
    ensures !HasRole(Some(user), OneOf(ViewAllExpenses)) ==>
      |conds| > 0 && |params| > 0 && conds[0] == Cmp(UserCol, Eq, 1) && params[0] == Int(user.id)
  {
    conds, params, paramIndex := [], [], 1;
    ghost var cs := Scope(user, q);
    if !HasRole(Some(user), OneOf(ViewAllExpenses)) {
      PushParam([], [], [], Cmp(UserCol, Eq, 1), Int(user.id), Compare(UserCol, Eq, Int(user.id)));
      conds := conds + [Cmp(UserCol, Eq, paramIndex)];
      params := params + [Int(user.id)];
      paramIndex := paramIndex + 1;
      assert [] + [Cmp(UserCol, Eq, 1)] == conds && [] + [Int(user.id)] == params;
      assert [] + [Compare(UserCol, Eq, Int(user.id))] == cs;
    } else if q.userId.Some? {
      PushParam([], [], [], Cmp(UserCol, Eq, 1), Int(q.userId.value), Compare(UserCol, Eq, Int(q.userId.value)));
      conds := conds + [Cmp(UserCol, Eq, paramIndex)];
      params := params + [Int(q.userId.value)];
      paramIndex := paramIndex + 1;
      assert [] + [Cmp(UserCol, Eq, 1)] == conds && [] + [Int(q.userId.value)] == params;
      assert [] + [Compare(UserCol, Eq, Int(q.userId.value))] == cs;
    } else {
      assert cs == [] && Resolve(conds, params) == Some([]);
    }
    conds, params, paramIndex := PushFilter(conds, params, paramIndex, cs, TextParam(q.status), StatusCol, Eq);
    cs := cs + Optional(TextParam(q.status), StatusCol, Eq);
    conds, params, paramIndex := PushFilter(conds, params, paramIndex, cs, TextParam(q.startDate), DateCol, AtLeast);
    cs := cs + Optional(TextParam(q.startDate), DateCol, AtLeast);
    conds, params, paramIndex := PushFilter(conds, params, paramIndex, cs, TextParam(q.endDate), DateCol, AtMost);
    cs := cs + Optional(TextParam(q.endDate), DateCol, AtMost);
    conds, params, paramIndex := PushFilter(conds, params, paramIndex, cs, TextParam(q.category), CategoryCol, Eq);
  }

  // ---------------------------------------------------------------------
  // GET: the rows and the page

  /** The `status` a row shows: the stored one, or the column default. */
  function StatusOf(e: Expense, defaultStatus: string): string
  {
    if e.status.Some? then e.status.value else defaultStatus
  }

  function ExpenseRow(e: Expense, defaultStatus: string): Row
  {
    Row(map[UserCol := Int(e.userId), StatusCol := Text(StatusOf(e, defaultStatus)),
            DateCol := Text(e.date), CategoryCol := Text(e.category)], false, [])
  }

  /** The rows `FROM expenses e JOIN users u … WHERE …` selects. */
  function Selected(users: map<nat, User>, expenses: map<nat, Expense>, cs: seq<Constraint>,
                    defaultStatus: string): (ids: set<nat>)
    ensures forall id | id in ids :: id in expenses
  {
    set id | id in expenses && expenses[id].userId in users && MatchesAll(cs, ExpenseRow(expenses[id], defaultStatus))
  }

  function CreatedKey(expenses: map<nat, Expense>): map<nat, Option<int>>
  {
    map id | id in expenses :: Some(expenses[id].createdAtMs)
  }

  datatype ExpensePage = ExpensePage(ids: seq<nat>, page: int, limit: int, total: nat, totalPages: nat)

  /** The reply of GET for the user the auth gate returned. */
  function ListOutcome(user: Option<Identity>, users: map<nat, User>, expenses: map<nat, Expense>,
                       q: ListQuery, defaultStatus: string): (r: Reply<ExpensePage>)
    ensures r.IsSuccess() ==> r.status == 200 && Admit(user, OneOf(SubmitExpenses)).IsSuccess()
    ensures r.IsSuccess() <==>
      && Admit(user, OneOf(SubmitExpenses)).IsSuccess()
      && IntOr(q.limit, 50) >= 0 && Offset(IntOr(q.page, 1), IntOr(q.limit, 50)) >= 0
    ensures !Admit(user, OneOf(SubmitExpenses)).IsSuccess() ==>
      r.status == Admit(user, OneOf(SubmitExpenses)).status && r.body.None?
  {
    var gate := Admit(user, OneOf(SubmitExpenses));
    if !gate.IsSuccess() then Reply(gate.status, gate.message, None)
    else
      var page := IntOr(q.page, 1);
      var limit := IntOr(q.limit, 50);
      var offset := Offset(page, limit);
      if limit < 0 || offset < 0 then Fail(500, "Failed to fetch expenses")
      else
        var matching := Selected(users, expenses, Filters(gate.body.value, q), defaultStatus);
        Done(200, "", ExpensePage(Window(Ordered(matching, CreatedKey(expenses), Desc), limit, offset),
                                  page, limit, |matching|, CeilDiv(|matching|, limit)))
  }

  /** GET: the page query runs with `LIMIT $paramIndex OFFSET $paramIndex+1`
      over the full parameter list; the count query runs with the same clause
      and the list minus those two. A negative limit or offset makes the
      database refuse the query. */
  method List(db: Database, ctx: Context, q: ListQuery, defaultStatus: string) returns (r: Reply<ExpensePage>)
    requires db.Valid()
    modifies db`sessions
    ensures db.Valid()
    ensures db.sessions == Stamped(old(db.users), old(db.sessions), ctx)
    ensures r == ListOutcome(Authenticate(old(db.users), old(db.sessions), ctx), db.users, db.expenses, q, defaultStatus)
  {
    var gate := RequireAuth(db, ctx, OneOf(SubmitExpenses));
    if !gate.IsSuccess() {
      return Reply(gate.status, gate.message, None);
    }
    var user := gate.body.value;
    var page := IntOr(q.page, 1);
    var limit := IntOr(q.limit, 50);
    var offset := Offset(page, limit);
    var conds, params, paramIndex := BuildWhere(user, q);
    var all := params + [Int(limit), Int(offset)];
    if all[paramIndex - 1].i < 0 || all[paramIndex].i < 0 {
      return Fail(500, "Failed to fetch expenses");
    }
    NumberedWithin(conds);
    ResolveExtend(conds, params, [Int(limit), Int(offset)]);
    assert all[..|all| - 2] == params;
    var pageRows := Selected(db.users, db.expenses, Resolve(conds, all).value, defaultStatus);
    var countRows := Selected(db.users, db.expenses, Resolve(conds, all[..|all| - 2]).value, defaultStatus);
    var ids := Window(Ordered(pageRows, CreatedKey(db.expenses), Desc), all[paramIndex - 1].i, all[paramIndex].i);
    r := Done(200, "", ExpensePage(ids, page, limit, |countRows|, CeilDiv(|countRows|, limit)));
  }

  // ---------------------------------------------------------------------
  // POST

  /** The JSON body; None is an absent field. */
  datatype NewExpense = NewExpense(date: Option<string>, amountCents: Option<int>, category: Option<string>,
                                   description: Option<string>, receiptUrl: Option<string>, cardId: Option<int>)

  /** `SELECT id FROM corporate_cards WHERE id = cardId AND (assigned_to =
      user OR isAdmin) AND is_active`. */
  predicate CardUsable(cards: map<nat, Card>, user: Identity, cardId: int)
  {
    0 <= cardId && cardId in cards && cards[cardId].active
    && (cards[cardId].assignedTo == Some(user.id) || HasRole(Some(user), OneOf(["admin"])))
  }

  /** The 400 the validation answers with, if any. */
  function Refusal(cards: map<nat, Card>, user: Identity, req: NewExpense): Option<string>
  {
    if !Given(req.date) || !Nonzero(req.amountCents) || !Given(req.category) || !Given(req.description) then
      Some("Date, amount, category, and description are required")
    else if req.amountCents.value <= 0 then Some("Amount must be greater than 0")
    else if Nonzero(req.cardId) && !CardUsable(cards, user, req.cardId.value) then Some("Invalid or unauthorized card")
    else None
  }

  /** The inserted row; `cardId || null` and `receiptUrl || null` drop falsy
      values, and `status` keeps its column default. */
  function NewRow(cards: map<nat, Card>, user: Identity, req: NewExpense, nowMs: int): (e: Expense)
    requires Refusal(cards, user, req).None?
    ensures e.userId == user.id && e.amountCents > 0 && e.status.None?
    ensures e.cardId.Some? ==> e.cardId.value in cards
  {
    Expense(user.id, if Nonzero(req.cardId) then Some(req.cardId.value as nat) else None,
            req.date.value, req.amountCents.value, req.category.value, req.description.value,
            if Given(req.receiptUrl) then req.receiptUrl else None, None, nowMs)
  }

  /** `current_month_spend = current_month_spend + amount` on the expense's
      card, if it has one. */
  function Charge(cards: map<nat, Card>, e: Expense): map<nat, Card>
    requires e.cardId.Some? ==> e.cardId.value in cards
  {
    if e.cardId.None? then cards
    else
      var c := e.cardId.value;
      cards[c := cards[c].(monthSpendCents := cards[c].monthSpendCents + e.amountCents)]
  }

  datatype Created = Created(id: nat, expense: Expense, firstName: string, lastName: string, fullName: string)

  /** What creating an expense does for an authorised `user`: a 400 and no
      change, or one new row at `next` with the card charged. */
  predicate CreateEffect(cards: map<nat, Card>, expenses: map<nat, Expense>, next: nat, user: Identity,
                         req: NewExpense, nowMs: int, r: Reply<Created>,
                         cards': map<nat, Card>, expenses': map<nat, Expense>)
  {
    match Refusal(cards, user, req)
    case Some(message) => r == Fail(400, message) && expenses' == expenses && cards' == cards
    case None =>
      var e := NewRow(cards, user, req, nowMs);
      && next !in expenses
      && expenses' == expenses[next := e]
      && cards' == Charge(cards, e)
      && r == Done(201, "Expense created successfully", Created(next, e, user.firstName, user.lastName, FullName(user)))
  }

  /** POST once the gate has let `user` through. */
  method Create(db: Database, user: Identity, req: NewExpense, nowMs: int) returns (r: Reply<Created>)
    requires db.Valid()
    modifies db`expenses, db`nextExpenseId, db`cards
    ensures db.Valid()
    ensures CreateEffect(old(db.cards), old(db.expenses), old(db.nextExpenseId), user, req, nowMs, r, db.cards, db.expenses)
  {
    if !Given(req.date) || !Nonzero(req.amountCents) || !Given(req.category) || !Given(req.description) {
      return Fail(400, "Date, amount, category, and description are required");
    }
    if req.amountCents.value <= 0 {
      return Fail(400, "Amount must be greater than 0");
    }
    if Nonzero(req.cardId) && !CardUsable(db.cards, user, req.cardId.value) {
      return Fail(400, "Invalid or unauthorized card");
    }
    var e := NewRow(db.cards, user, req, nowMs);
    var id := db.InsertExpense(e);
    if Nonzero(req.cardId) {
      var c := req.cardId.value as nat;
      db.cards := db.cards[c := db.cards[c].(monthSpendCents := db.cards[c].monthSpendCents + e.amountCents)];
    }
    r := Done(201, "Expense created successfully", Created(id, e, user.firstName, user.lastName, FullName(user)));
  }

  method Post(db: Database, ctx: Context, req: NewExpense, nowMs: int) returns (r: Reply<Created>)
    requires db.Valid()
    modifies db`sessions, db`expenses, db`nextExpenseId, db`cards
    ensures db.Valid()
    ensures db.sessions == Stamped(old(db.users), old(db.sessions), ctx)
    ensures var gate := Admit(Authenticate(old(db.users), old(db.sessions), ctx), OneOf(SubmitExpenses));
      if gate.IsSuccess() then
        CreateEffect(old(db.cards), old(db.expenses), old(db.nextExpenseId), gate.body.value, req, nowMs,
                     r, db.cards, db.expenses)
      else
        r == Reply(gate.status, gate.message, None) && db.expenses == old(db.expenses) && db.cards == old(db.cards)
  {
    var gate := RequireAuth(db, ctx, OneOf(SubmitExpenses));
    if !gate.IsSuccess() {
      return Reply(gate.status, gate.message, None);
    }
    r := Create(db, gate.body.value, req, nowMs);
  }

  // ---------------------------------------------------------------------
  // The card-spend ledger

  /** The sum of the amounts of the expenses `ids`. */
  function Total(expenses: map<nat, Expense>, ids: set<nat>): int
    requires forall id | id in ids :: id in expenses
    decreases |ids|
  {
    if ids == {} then 0
    else
      var k := Least(ids);
      expenses[k].amountCents + Total(expenses, ids - {k})
  }

  /** The expenses charged to `card` that have not been rejected. */
  function ChargedTo(expenses: map<nat, Expense>, card: nat): (ids: set<nat>)
    ensures forall id | id in ids :: id in expenses
  {
    set id | id in expenses && expenses[id].cardId == Some(card) && expenses[id].status != Some("rejected")
  }

  /** Every card's month spend is the total of the expenses charged to it. */
  predicate Ledger(cards: map<nat, Card>, expenses: map<nat, Expense>)
  {
    forall c | c in cards :: cards[c].monthSpendCents == Total(expenses, ChargedTo(expenses, c))
  }

  /** Any member can be taken out of a total first. */
  lemma {:induction false} TotalRemove(expenses: map<nat, Expense>, ids: set<nat>, k: nat)
    requires forall id | id in ids :: id in expenses
    requires k in ids
    ensures Total(expenses, ids) == expenses[k].amountCents + Total(expenses, ids - {k})
    decreases |ids|
  {
    var m := Least(ids);
    if m != k {
      TotalRemove(expenses, ids - {m}, k);
      TotalRemove(expenses, ids - {k}, m);
      assert ids - {m} - {k} == ids - {k} - {m};
    }
  }

  /** A row added outside `ids` does not change their total. */
  lemma {:induction false} TotalFrame(expenses: map<nat, Expense>, ids: set<nat>, k: nat, e: Expense)
    requires forall id | id in ids :: id in expenses
    requires k !in ids
    ensures Total(expenses[k := e], ids) == Total(expenses, ids)
    decreases |ids|
  {
    if ids != {} {
      var m := Least(ids);
      TotalFrame(expenses, ids - {m}, k, e);
    }
  }

  /** Creating an expense keeps every card's spend equal to the total of its
      expenses: the new row's amount goes onto its card, and onto no other. */
  lemma CreateKeepsLedger(cards: map<nat, Card>, expenses: map<nat, Expense>, id: nat, e: Expense)
    requires Ledger(cards, expenses) && id !in expenses
    requires e.status.None? && (e.cardId.Some? ==> e.cardId.value in cards)
    ensures Ledger(Charge(cards, e), expenses[id := e])
  {
    var after := expenses[id := e];
    forall c | c in Charge(cards, e)
      ensures Charge(cards, e)[c].monthSpendCents == Total(after, ChargedTo(after, c))
    {
      var old_ids := ChargedTo(expenses, c);
      TotalFrame(expenses, old_ids, id, e);
      if e.cardId == Some(c) {
        assert ChargedTo(after, c) == old_ids + {id};
        TotalRemove(after, old_ids + {id}, id);
        assert old_ids + {id} - {id} == old_ids;
      } else {
        assert ChargedTo(after, c) == old_ids;
      }
    }
  }

  // ---------------------------------------------------------------------
  // Properties

  /** What the list filters mean, written on the expense's own fields. */
  predicate Visible(user: Identity, q: ListQuery, e: Expense, defaultStatus: string)
  {
    (if HasRole(Some(user), OneOf(ViewAllExpenses)) then q.userId.Some? ==> e.userId == q.userId.value
     else e.userId == user.id)
    && (Given(q.status) ==> StatusOf(e, defaultStatus) == q.status.value)
    && (Given(q.startDate) ==> LexLe(q.startDate.value, e.date))
    && (Given(q.endDate) ==> LexLe(e.date, q.endDate.value))
    && (Given(q.category) ==> e.category == q.category.value)
  }

  lemma FiltersMean(user: Identity, q: ListQuery, e: Expense, defaultStatus: string)
    ensures MatchesAll(Filters(user, q), ExpenseRow(e, defaultStatus)) <==> Visible(user, q, e, defaultStatus)
  {
    var row := ExpenseRow(e, defaultStatus);
    var a := Scope(user, q);
    var b := Optional(TextParam(q.status), StatusCol, Eq);
    var c := Optional(TextParam(q.startDate), DateCol, AtLeast);
    var d := Optional(TextParam(q.endDate), DateCol, AtMost);
    var f := Optional(TextParam(q.category), CategoryCol, Eq);
    MatchesConcat(a + b + c + d, f, row);
    MatchesConcat(a + b + c, d, row);
    MatchesConcat(a + b, c, row);
    MatchesConcat(a, b, row);
    OptionalMeans(TextParam(q.status), StatusCol, Eq, row);
    OptionalMeans(TextParam(q.startDate), DateCol, AtLeast, row);
    OptionalMeans(TextParam(q.endDate), DateCol, AtMost, row);
    OptionalMeans(TextParam(q.category), CategoryCol, Eq, row);
    if |a| == 1 {
      assert MatchesAll(a, row) <==> Satisfies(a[0], row);
    }
    assert MatchesAll(a, row) <==> (if HasRole(Some(user), OneOf(ViewAllExpenses)) then q.userId.Some? ==> e.userId == q.userId.value
                                    else e.userId == user.id);
  }

  /** A successful list holds at most `limit` rows, all visible to the user
      under the filters, and the total counts exactly the visible rows; a
      user outside `VIEW_ALL_EXPENSES` sees only their own expenses,
      whatever `userId` asks for. */
  lemma ListedAreVisible(user: Option<Identity>, users: map<nat, User>, expenses: map<nat, Expense>,
                         q: ListQuery, defaultStatus: string)
    requires ListOutcome(user, users, expenses, q, defaultStatus).IsSuccess()
    ensures var p := ListOutcome(user, users, expenses, q, defaultStatus).body.value;
      && |p.ids| <= p.limit
      && (forall id | id in p.ids :: id in expenses && Visible(user.value, q, expenses[id], defaultStatus))
      && p.total == |set id | id in expenses && expenses[id].userId in users
                                && Visible(user.value, q, expenses[id], defaultStatus)|
      && (!HasRole(user, OneOf(ViewAllExpenses)) ==> forall id | id in p.ids :: expenses[id].userId == user.value.id)
  {
    var u := user.value;
    SelectsVisible(u, users, expenses, q, defaultStatus);
    assert VisibleIds(u, users, expenses, q, defaultStatus) == set id | id in expenses && expenses[id].userId in users
                                                              && Visible(u, q, expenses[id], defaultStatus);
  }

  /** The page count covers the total and no more: `totalPages * limit >=
      total > (totalPages - 1) * limit`; page and limit fall back to 1 and
      50, so the offset `(page - 1) * limit` is never negative. */
  lemma Pagination(user: Option<Identity>, users: map<nat, User>, expenses: map<nat, Expense>,
                   q: ListQuery, defaultStatus: string)
    requires ListOutcome(user, users, expenses, q, defaultStatus).IsSuccess()
    ensures var p := ListOutcome(user, users, expenses, q, defaultStatus).body.value;
      && p.limit > 0 && p.totalPages * p.limit >= p.total
      && (p.totalPages > 0 ==> (p.totalPages - 1) * p.limit < p.total)
      && p.page == IntOr(q.page, 1) && p.limit == IntOr(q.limit, 50)
      && (p.page - 1) * p.limit >= 0
  {
  }

  /** The expenses of existing users whose fields meet the filters. */
  function VisibleIds(user: Identity, users: map<nat, User>, expenses: map<nat, Expense>, q: ListQuery,
                      defaultStatus: string): (ids: set<nat>)
    ensures forall id | id in ids :: id in expenses && expenses[id].userId in users
                                     && Visible(user, q, expenses[id], defaultStatus)
    ensures forall id | id in expenses && expenses[id].userId in users
                        && Visible(user, q, expenses[id], defaultStatus) :: id in ids
  {
    set id | id in expenses && expenses[id].userId in users && Visible(user, q, expenses[id], defaultStatus)
  }

  /** The WHERE clause selects exactly the visible expenses. */
  lemma SelectsVisible(user: Identity, users: map<nat, User>, expenses: map<nat, Expense>, q: ListQuery,
                       defaultStatus: string)
    ensures Selected(users, expenses, Filters(user, q), defaultStatus) == VisibleIds(user, users, expenses, q, defaultStatus)
  {
    forall id | id in expenses
      ensures MatchesAll(Filters(user, q), ExpenseRow(expenses[id], defaultStatus)) <==> Visible(user, q, expenses[id], defaultStatus)
    {
      FiltersMean(user, q, expenses[id], defaultStatus);
    }
  }

  /** A successful list is exactly the requested page of the visible
      expenses, newest `created_at` first: the window of `limit` rows
      starting at `(page - 1) * limit`. */
  lemma ListIsPageOfVisible(user: Option<Identity>, users: map<nat, User>, expenses: map<nat, Expense>,
                            q: ListQuery, defaultStatus: string)
    requires ListOutcome(user, users, expenses, q, defaultStatus).IsSuccess()
    ensures var p := ListOutcome(user, users, expenses, q, defaultStatus).body.value;
      var all := Ordered(VisibleIds(user.value, users, expenses, q, defaultStatus), CreatedKey(expenses), Desc);
      && p.limit > 0 && (p.page - 1) * p.limit >= 0
      && p.ids == Window(all, p.limit, (p.page - 1) * p.limit)
  {
    var u := user.value;
    var key := CreatedKey(expenses);
    var selected := Selected(users, expenses, Filters(u, q), defaultStatus);
    var visible := VisibleIds(u, users, expenses, q, defaultStatus);
    SelectsVisible(u, users, expenses, q, defaultStatus);
    assert selected == visible;
    assert Ordered(selected, key, Desc) == Ordered(visible, key, Desc);
  }

  /** The validation in the source's order: a missing or zero amount is
      "required", a negative one "greater than 0"; a given card must be
      active and the actor's own unless the actor is an admin. */
  lemma RefusalReasons(cards: map<nat, Card>, user: Identity, req: NewExpense)
    ensures Refusal(cards, user, req).None? <==>
      Given(req.date) && Given(req.category) && Given(req.description)
      && req.amountCents.Some? && req.amountCents.value > 0
      && (Nonzero(req.cardId) ==> CardUsable(cards, user, req.cardId.value))
    ensures req.amountCents == Some(0) ==>
      Refusal(cards, user, req) == Some("Date, amount, category, and description are required")
    ensures Given(req.date) && Given(req.category) && Given(req.description)
            && req.amountCents.Some? && req.amountCents.value < 0 ==>
      Refusal(cards, user, req) == Some("Amount must be greater than 0")
    ensures Nonzero(req.cardId) && 0 <= req.cardId.value && req.cardId.value in cards ==>
      (CardUsable(cards, user, req.cardId.value) <==>
         cards[req.cardId.value].active
         && (cards[req.cardId.value].assignedTo == Some(user.id) || user.role == "admin"))
  {
  }

  /** A successful create inserts exactly one expense, owned by the actor,
      and raises the given card's spend by exactly the amount; no other row
      of either table changes. A refusal is a 400 that changes nothing. */
  lemma CreateFacts(cards: map<nat, Card>, expenses: map<nat, Expense>, next: nat, user: Identity,
                    req: NewExpense, nowMs: int, r: Reply<Created>,
                    cards': map<nat, Card>, expenses': map<nat, Expense>)
    requires CreateEffect(cards, expenses, next, user, req, nowMs, r, cards', expenses')
    ensures r.IsSuccess() <==> Refusal(cards, user, req).None?
    ensures !r.IsSuccess() ==> r.status == 400 && cards' == cards && expenses' == expenses
    ensures r.IsSuccess() ==>
      && expenses'.Keys == expenses.Keys + {next} && next !in expenses
      && (forall id | id in expenses :: expenses'[id] == expenses[id])
      && expenses'[next].userId == user.id && expenses'[next].amountCents == req.amountCents.value
      && r.status == 201 && r.body.value.id == next
    ensures cards'.Keys == cards.Keys
    ensures forall c | c in cards ::
      cards'[c].monthSpendCents ==
        cards[c].monthSpendCents + (if r.IsSuccess() && Nonzero(req.cardId) && req.cardId.value == c then req.amountCents.value else 0)
    ensures forall c | c in cards :: cards'[c].active == cards[c].active && cards'[c].assignedTo == cards[c].assignedTo
  {
  }

  /** A create, accepted or refused, keeps every card's spend equal to the
      total of its expenses. */
  lemma CreateEffectKeepsLedger(cards: map<nat, Card>, expenses: map<nat, Expense>, next: nat, user: Identity,
                                req: NewExpense, nowMs: int, r: Reply<Created>,
                                cards': map<nat, Card>, expenses': map<nat, Expense>)
    requires CreateEffect(cards, expenses, next, user, req, nowMs, r, cards', expenses')
    requires Ledger(cards, expenses)
    ensures Ledger(cards', expenses')
  {
    if Refusal(cards, user, req).None? {
      CreateKeepsLedger(cards, expenses, next, NewRow(cards, user, req, nowMs));
    }
  }
}
