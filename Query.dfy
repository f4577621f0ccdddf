/** The filtered list queries of the GET handlers, without SQL text: a WHERE
    clause is a sequence of conditions, each referring to its parameter by a
    `$n` placeholder number, next to the parameter list the handler pushes
    onto. Substituting the parameters gives constraints, which a row either
    satisfies or not. Also the query-string integers and the paging
    arithmetic these handlers share. */
module Query {
  import opened Common
  import opened Strings

  /** A parameter or a cell: an integer (ids, timestamps) or text. */
  datatype Value = Int(i: int) | Text(s: string)

  /** The columns the handlers filter on. */
  datatype Column = UserCol | StatusCol | DateCol | CategoryCol | AssignedToCol | ClientCol | ClockInCol

  datatype CmpOp = Eq | AtLeast | AtMost

  /** One `AND …` of a WHERE clause: `col op $slot`, `clock_out_time IS
      NULL`, or the search on title or description `LIKE LOWER($slot)`. */
  datatype Cond = Cmp(col: Column, op: CmpOp, slot: nat) | ClockOutIsNull | Search(slot: nat)
  {
    predicate HasSlot() { !ClockOutIsNull? }
  }

  /** A condition with its parameter substituted. */
  datatype Constraint = Compare(col: Column, op: CmpOp, v: Value) | Unclosed | Like(pattern: string)

  /** What the conditions can see of a row: its non-NULL filter columns,
      whether it is open (`clock_out_time IS NULL`), and the texts a search
      looks in. */
  datatype Row = Row(cells: map<Column, Value>, open: bool, texts: seq<string>)

  /** `a <= b` between an integer pair or a text pair; anything else is not
      comparable. */
  predicate ValueLe(a: Value, b: Value)
  {
    match (a, b)
    case (Int(x), Int(y)) => x <= y
    case (Text(x), Text(y)) => LexLe(x, y)
    case _ => false
  }

  predicate Holds(op: CmpOp, cell: Value, v: Value)
  {
    match op
    case Eq => cell == v
    case AtLeast => ValueLe(v, cell)
    case AtMost => ValueLe(cell, v)
  }

  /** `LOWER(text) LIKE LOWER('%q%')` for a `%q%` pattern: `q` occurs in the
      text, ignoring case. */
  predicate LikeMatch(pattern: string, text: string)
  {
    2 <= |pattern| && pattern[0] == '%' && pattern[|pattern| - 1] == '%'
    && Contains(Lower(text), Lower(pattern[1..|pattern| - 1]))
  }

  /** A NULL cell (a column missing from `cells`) satisfies no comparison. */
  predicate Satisfies(c: Constraint, r: Row)
  {
    match c
    case Compare(col, op, v) => col in r.cells && Holds(op, r.cells[col], v)
    case Unclosed => r.open
    case Like(p) => exists i | 0 <= i < |r.texts| :: LikeMatch(p, r.texts[i])
  }

  /** `WHERE 1=1 AND …`: every constraint holds. */
  predicate MatchesAll(cs: seq<Constraint>, r: Row)
  {
    forall i | 0 <= i < |cs| :: Satisfies(cs[i], r)
  }

  /** The number of placeholders in a clause. */
  function Slots(conds: seq<Cond>): (n: nat)
    ensures n <= |conds|
  {
    if conds == [] then 0
    else Slots(conds[..|conds| - 1]) + (if conds[|conds| - 1].HasSlot() then 1 else 0)
  }

  /** Placeholders are numbered `$1`, `$2`, … in the order they are
      written: each one is one past the number of placeholders before it. */
  predicate Numbered(conds: seq<Cond>)
  {
    forall i | 0 <= i < |conds| && conds[i].HasSlot() :: conds[i].slot == Slots(conds[..i]) + 1
  }

  /** Substitutes `params[k - 1]` for `$k`; None when a placeholder has no
      parameter (or the parameter has the wrong kind for a search). */
  function Resolve(conds: seq<Cond>, params: seq<Value>): Option<seq<Constraint>>
  {
    if conds == [] then Some([])
    else
      var init :- Resolve(conds[..|conds| - 1], params);
      var last :- ResolveOne(conds[|conds| - 1], params);
      Some(init + [last])
  }

  function ResolveOne(c: Cond, params: seq<Value>): Option<Constraint>
  {
    match c
    case ClockOutIsNull => Some(Unclosed)
    case Cmp(col, op, k) => if 1 <= k <= |params| then Some(Compare(col, op, params[k - 1])) else None
    case Search(k) =>
      if 1 <= k <= |params| && params[k - 1].Text? then Some(Like(params[k - 1].s)) else None
  }

  /** A query-string text filter as a parameter: present when truthy. */
  function TextParam(x: Option<string>): (v: Option<Value>)
    ensures v.Some? <==> Given(x)
    ensures v.Some? ==> v.value == Text(x.value)
  {
    if Given(x) then Some(Text(x.value)) else None
  }

  /** A numeric query-string filter (an id or a timestamp) as a parameter. */
  function IntParam(x: Option<int>): (v: Option<Value>)
    ensures v.Some? <==> x.Some?
    ensures v.Some? ==> v.value == Int(x.value)
  {
    if x.Some? then Some(Int(x.value)) else None
  }

  /** `if (x) { … AND col op $paramIndex …; params.push(x) }`: one
      constraint when the filter is present, none otherwise. */
  function Optional(v: Option<Value>, col: Column, op: CmpOp): seq<Constraint>
  {
    if v.Some? then [Compare(col, op, v.value)] else []
  }

  /** The step itself, on the clause, the parameters and `paramIndex`. */
  method PushFilter(conds: seq<Cond>, params: seq<Value>, paramIndex: nat, ghost cs: seq<Constraint>,
                    v: Option<Value>, col: Column, op: CmpOp)
    returns (conds': seq<Cond>, params': seq<Value>, paramIndex': nat)
    requires Numbered(conds) && Slots(conds) == |params| && paramIndex == |params| + 1
    requires Resolve(conds, params) == Some(cs)
    ensures Numbered(conds') && Slots(conds') == |params'| && paramIndex' == |params'| + 1
    ensures Resolve(conds', params') == Some(cs + Optional(v, col, op))
    ensures v.Some? ==> conds' == conds + [Cmp(col, op, paramIndex)] && params' == params + [v.value]
    ensures v.None? ==> conds' == conds && params' == params
    ensures |conds| <= |conds'| && |params| <= |params'|
    ensures forall i | 0 <= i < |conds| :: conds'[i] == conds[i]
    ensures forall i | 0 <= i < |params| :: params'[i] == params[i]
  {
    conds', params', paramIndex' := conds, params, paramIndex;
    if v.Some? {
      PushParam(conds, params, cs, Cmp(col, op, paramIndex), v.value, Compare(col, op, v.value));
      conds' := conds + [Cmp(col, op, paramIndex)];
      params' := params + [v.value];
      paramIndex' := paramIndex + 1;
    } else {
      assert cs + [] == cs;
    }
  }

  /** `if (q) { … LIKE LOWER($paramIndex) …; params.push(`%${q}%`) }`. */
  function SearchPart(q: Option<string>): seq<Constraint>
  {
    if Given(q) then [Like("%" + q.value + "%")] else []
  }

  method PushSearch(conds: seq<Cond>, params: seq<Value>, paramIndex: nat, ghost cs: seq<Constraint>, q: Option<string>)
    returns (conds': seq<Cond>, params': seq<Value>, paramIndex': nat)
    requires Numbered(conds) && Slots(conds) == |params| && paramIndex == |params| + 1
    requires Resolve(conds, params) == Some(cs)
    ensures Numbered(conds') && Slots(conds') == |params'| && paramIndex' == |params'| + 1
    ensures Resolve(conds', params') == Some(cs + SearchPart(q))
    ensures forall i | 0 <= i < |conds| :: i < |conds'| && conds'[i] == conds[i]
    ensures forall i | 0 <= i < |params| :: i < |params'| && params'[i] == params[i]
  {
    conds', params', paramIndex' := conds, params, paramIndex;
    if Given(q) {
      var pattern := Text("%" + q.value + "%");
      PushParam(conds, params, cs, Search(paramIndex), pattern, Like("%" + q.value + "%"));
      conds' := conds + [Search(paramIndex)];
      params' := params + [pattern];
      paramIndex' := paramIndex + 1;
    } else {
      assert cs + [] == cs;
    }
  }

  /** Every placeholder of `conds` is at most `n`. */
  predicate SlotsWithin(conds: seq<Cond>, n: nat)
  {
    forall i | 0 <= i < |conds| && conds[i].HasSlot() :: conds[i].slot <= n
  }

  // ---------------------------------------------------------------------
  // Query-string integers and paging

  /** `parseInt` of a query-string value: absent (or empty), a number, or NaN. */
  datatype QueryInt = Absent | Number(n: int) | NotANumber

  /** `parseInt(x) || d`: NaN and 0 fall back to `d`, as does an absent value. */
  function IntOr(x: QueryInt, d: int): (r: int)
    ensures x.Number? && x.n != 0 ==> r == x.n
    ensures x.Absent? || x.NotANumber? || x == Number(0) ==> r == d
  {
    if x.Number? && x.n != 0 then x.n else d
  }

  /** `parseInt(x || '1')`: an absent or empty value reads as 1; None is NaN. */
  function PageOf(x: QueryInt): (r: Option<int>)
    ensures r.None? <==> x.NotANumber?
    ensures x.Absent? ==> r == Some(1)
    ensures x.Number? ==> r == Some(x.n)
  {
    match x
    case Absent => Some(1)
    case Number(n) => Some(n)
    case NotANumber => None
  }

  /** `(page - 1) * limit`. */
  function Offset(page: int, limit: int): int
  {
    (page - 1) * limit
  }

  /** `Math.ceil(total / limit)` for a positive limit. */
  function CeilDiv(total: nat, limit: nat): (r: nat)
    requires limit > 0
    ensures r * limit >= total
    ensures r > 0 ==> (r - 1) * limit < total
  {
    (total + limit - 1) / limit
  }

  // ---------------------------------------------------------------------
  // Properties

  lemma {:induction false} SlotsAppend(conds: seq<Cond>, c: Cond)
    ensures Slots(conds + [c]) == Slots(conds) + (if c.HasSlot() then 1 else 0)
  {
    assert (conds + [c])[..|conds|] == conds;
  }

  /** Appending a condition that takes the next placeholder number keeps the
      numbering consecutive. */
  lemma NumberedAppend(conds: seq<Cond>, c: Cond)
    requires Numbered(conds)
    requires c.HasSlot() ==> c.slot == Slots(conds) + 1
    ensures Numbered(conds + [c])
    ensures Slots(conds + [c]) == Slots(conds) + (if c.HasSlot() then 1 else 0)
  {
    SlotsAppend(conds, c);
    forall i | 0 <= i < |conds + [c]| && (conds + [c])[i].HasSlot()
      ensures (conds + [c])[i].slot == Slots((conds + [c])[..i]) + 1
    {
      if i < |conds| {
        assert (conds + [c])[..i] == conds[..i];
      } else {
        assert (conds + [c])[..i] == conds;
      }
    }
  }

  /** A consecutively numbered clause only uses placeholders up to its count. */
  lemma {:induction false} NumberedWithin(conds: seq<Cond>)
    requires Numbered(conds)
    ensures SlotsWithin(conds, Slots(conds))
    decreases |conds|
  {
    if conds != [] {
      var init := conds[..|conds| - 1];
      assert Numbered(init) by {
        forall i | 0 <= i < |init| && init[i].HasSlot() ensures init[i].slot == Slots(init[..i]) + 1 {
          assert init[..i] == conds[..i];
        }
      }
      NumberedWithin(init);
      assert conds == init + [conds[|conds| - 1]];
      SlotsAppend(init, conds[|conds| - 1]);
      forall i | 0 <= i < |conds| && conds[i].HasSlot() ensures conds[i].slot <= Slots(conds) {
        if i < |init| {
          assert init[i] == conds[i];
        } else {
          assert conds[..i] == init;
        }
      }
    }
  }

  /** Parameters past the last placeholder do not change the constraints:
      the count query, run with the same clause and the parameter list minus
      `limit` and `offset`, selects the same rows as the page query. */
  lemma {:induction false} ResolveExtend(conds: seq<Cond>, params: seq<Value>, extra: seq<Value>)
    requires SlotsWithin(conds, |params|)
    ensures Resolve(conds, params + extra) == Resolve(conds, params)
    decreases |conds|
  {
    if conds != [] {
      var init := conds[..|conds| - 1];
      assert SlotsWithin(init, |params|) by {
        forall i | 0 <= i < |init| && init[i].HasSlot() ensures init[i].slot <= |params| {
          assert init[i] == conds[i];
        }
      }
      ResolveExtend(init, params, extra);
      var c := conds[|conds| - 1];
      assert c.HasSlot() ==> c.slot <= |params|;
      assert ResolveOne(c, params + extra) == ResolveOne(c, params);
    }
  }

  /** Resolving a clause with one more condition adds that condition's
      constraint. */
  lemma ResolveAppend(conds: seq<Cond>, c: Cond, params: seq<Value>)
    ensures Resolve(conds + [c], params) ==
      match (Resolve(conds, params), ResolveOne(c, params))
      case (Some(cs), Some(k)) => Some(cs + [k])
      case _ => None
  {
    assert (conds + [c])[..|conds|] == conds;
  }

  /** `params.push(v)` after writing `AND … $paramIndex`: the clause stays
      consecutively numbered, one placeholder per parameter, and the new
      placeholder resolves to `v`. */
  lemma PushParam(conds: seq<Cond>, params: seq<Value>, cs: seq<Constraint>, c: Cond, v: Value, k: Constraint)
    requires Numbered(conds) && Slots(conds) == |params| && Resolve(conds, params) == Some(cs)
    requires c.HasSlot() && c.slot == |params| + 1
    requires ResolveOne(c, params + [v]) == Some(k)
    ensures Numbered(conds + [c]) && Slots(conds + [c]) == |params + [v]|
    ensures Resolve(conds + [c], params + [v]) == Some(cs + [k])
  {
    NumberedAppend(conds, c);
    NumberedWithin(conds);
    ResolveExtend(conds, params, [v]);
    ResolveAppend(conds, c, params + [v]);
  }

  /** Writing `AND t.clock_out_time IS NULL`, which takes no parameter. */
  lemma PushUnclosed(conds: seq<Cond>, params: seq<Value>, cs: seq<Constraint>)
    requires Numbered(conds) && Slots(conds) == |params| && Resolve(conds, params) == Some(cs)
    ensures Numbered(conds + [ClockOutIsNull]) && Slots(conds + [ClockOutIsNull]) == |params|
    ensures Resolve(conds + [ClockOutIsNull], params) == Some(cs + [Unclosed])
  {
    NumberedAppend(conds, ClockOutIsNull);
    ResolveAppend(conds, ClockOutIsNull, params);
  }

  lemma MatchesConcat(a: seq<Constraint>, b: seq<Constraint>, r: Row)
    ensures MatchesAll(a + b, r) <==> MatchesAll(a, r) && MatchesAll(b, r)
  {
    if MatchesAll(a, r) && MatchesAll(b, r) {
      forall i | 0 <= i < |a + b| ensures Satisfies((a + b)[i], r) {
        if i >= |a| { assert (a + b)[i] == b[i - |a|]; }
      }
    }
    if MatchesAll(a + b, r) {
      forall i | 0 <= i < |a| ensures Satisfies(a[i], r) {
        assert (a + b)[i] == a[i];
      }
      forall i | 0 <= i < |b| ensures Satisfies(b[i], r) {
        assert (a + b)[|a| + i] == b[i];
      }
    }
  }

  lemma OptionalMeans(v: Option<Value>, col: Column, op: CmpOp, r: Row)
    ensures MatchesAll(Optional(v, col, op), r) <==> (v.Some? ==> col in r.cells && Holds(op, r.cells[col], v.value))
  {
    if v.Some? {
      assert Optional(v, col, op)[0] == Compare(col, op, v.value);
    }
  }

  /** The search matches a row when `q` occurs, ignoring case, in one of the
      texts it searches. */
  lemma SearchMeans(q: Option<string>, r: Row)
    ensures MatchesAll(SearchPart(q), r) <==>
      (Given(q) ==> exists i | 0 <= i < |r.texts| :: Contains(Lower(r.texts[i]), Lower(q.value)))
  {
    if Given(q) {
      var p := "%" + q.value + "%";
      assert p[1..|p| - 1] == q.value;
      assert SearchPart(q)[0] == Like(p);
      assert forall i | 0 <= i < |r.texts| :: LikeMatch(p, r.texts[i]) <==> Contains(Lower(r.texts[i]), Lower(q.value));
    }
  }
}
