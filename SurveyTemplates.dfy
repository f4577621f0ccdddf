/** `GET /api/surveys/templates`: the active survey templates, newest first,
    each with its questions in their order; with `target=timesheet` only the
    mandatory ones. */
module SurveyTemplates {
  import opened Common
  import opened Store
  import opened Listing
  import opened Auth

  datatype QuestionView = QuestionView(id: nat, text: string, kind: string, required: bool, orderIndex: Option<int>)

  datatype TemplateView = TemplateView(id: nat, title: string, description: string, isMandatory: bool,
                                       createdByName: string, createdAtMs: int, questions: seq<QuestionView>)

  /** `FROM survey_templates st JOIN users u ON st.created_by = u.id WHERE
      st.is_active = true`: a template whose creator is gone drops out. */
  function Listed(templates: map<nat, Template>, users: map<nat, User>): (ids: set<nat>)
    ensures forall id | id in ids :: id in templates && templates[id].active && templates[id].createdBy in users
  {
    set id | id in templates && templates[id].active && templates[id].createdBy in users
  }

  function CreatedKey(templates: map<nat, Template>): (key: map<nat, Option<int>>)
    ensures forall id | id in templates :: id in key && key[id] == Some(templates[id].createdAtMs)
  {
    map id | id in templates :: Some(templates[id].createdAtMs)
  }

  /** `WHERE template_id = id`. */
  function QuestionIds(questions: map<nat, Question>, template: nat): (ids: set<nat>)
    ensures forall q | q in ids :: q in questions && questions[q].templateId == template
    ensures forall q | q in questions && questions[q].templateId == template :: q in ids
  {
    set q | q in questions && questions[q].templateId == template
  }

  function OrderKey(questions: map<nat, Question>): (key: map<nat, Option<int>>)
    ensures forall q | q in questions :: q in key && key[q] == questions[q].orderIndex
  {
    map q | q in questions :: questions[q].orderIndex
  }

  /** The template's question ids, `ORDER BY order_index ASC`: each of its
      questions once, unset indexes last. */
  function QuestionOrder(questions: map<nat, Question>, template: nat): (ids: seq<nat>)
    ensures |ids| == |QuestionIds(questions, template)|
    ensures forall k | 0 <= k < |ids| :: ids[k] in questions && questions[ids[k]].templateId == template
    ensures forall q | q in questions && questions[q].templateId == template :: q in ids
    ensures forall k | 0 <= k < |ids| - 1 :: KeyLe(questions[ids[k]].orderIndex, questions[ids[k + 1]].orderIndex)
  {
    var key := OrderKey(questions);
    var ids := Ordered(QuestionIds(questions, template), key, Asc);
    assert forall k | 0 <= k < |ids| - 1 :: Precedes(key[ids[k]], key[ids[k + 1]], Asc);
    ids
  }

  function QuestionViewOf(questions: map<nat, Question>, id: nat): (v: QuestionView)
    requires id in questions
    ensures v.id == id && v.orderIndex == questions[id].orderIndex
  {
    var qn := questions[id];
    QuestionView(id, qn.text, qn.kind, qn.required, qn.orderIndex)
  }

  function QuestionViews(questions: map<nat, Question>, ids: seq<nat>): (vs: seq<QuestionView>)
    requires forall k | 0 <= k < |ids| :: ids[k] in questions
    ensures |vs| == |ids|
    ensures forall k | 0 <= k < |ids| :: vs[k] == QuestionViewOf(questions, ids[k])
  {
    seq(|ids|, k requires 0 <= k < |ids| => QuestionViewOf(questions, ids[k]))
  }

  /** The template's questions, in that order. */
  function QuestionsOf(questions: map<nat, Question>, template: nat): seq<QuestionView>
  {
    QuestionViews(questions, QuestionOrder(questions, template))
  }

  function ViewOf(templates: map<nat, Template>, users: map<nat, User>, questions: map<nat, Question>, id: nat)
    : (v: TemplateView)
    requires id in templates && templates[id].createdBy in users
    ensures v.id == id && v.isMandatory == templates[id].mandatory && v.createdAtMs == templates[id].createdAtMs
  {
    var t := templates[id];
    var creator := users[t.createdBy];
    TemplateView(id, t.title, t.description, t.mandatory, creator.firstName + " " + creator.lastName, t.createdAtMs,
                 QuestionsOf(questions, id))
  }

  /** `templates.map(template => …)`. */
  function Views(templates: map<nat, Template>, users: map<nat, User>, questions: map<nat, Question>, ids: seq<nat>)
    : (vs: seq<TemplateView>)
    requires forall k | 0 <= k < |ids| :: ids[k] in templates && templates[ids[k]].createdBy in users
    ensures |vs| == |ids|
    ensures forall k | 0 <= k < |ids| :: vs[k] == ViewOf(templates, users, questions, ids[k])
  {
    seq(|ids|, k requires 0 <= k < |ids| => ViewOf(templates, users, questions, ids[k]))
  }

  /** The listed templates, `ORDER BY created_at DESC`: each once, newest
      first. */
  function CatalogueIds(templates: map<nat, Template>, users: map<nat, User>): (ids: seq<nat>)
    ensures |ids| == |Listed(templates, users)|
    ensures forall k | 0 <= k < |ids| :: ids[k] in Listed(templates, users)
    ensures forall id | id in Listed(templates, users) :: id in ids
    ensures forall k | 0 <= k < |ids| - 1 :: templates[ids[k + 1]].createdAtMs <= templates[ids[k]].createdAtMs
  {
    var ids := Ordered(Listed(templates, users), CreatedKey(templates), Desc);
    NewestFirst(templates, ids);
    ids
  }

  lemma NewestFirst(templates: map<nat, Template>, ids: seq<nat>)
    requires forall k | 0 <= k < |ids| :: ids[k] in templates
    requires Keyed(ids, CreatedKey(templates)) && SortedBy(ids, CreatedKey(templates), Desc)
    ensures forall k | 0 <= k < |ids| - 1 :: templates[ids[k + 1]].createdAtMs <= templates[ids[k]].createdAtMs
  {
    var key := CreatedKey(templates);
    assert forall k | 0 <= k < |ids| - 1 :: Precedes(key[ids[k]], key[ids[k + 1]], Desc);
  }

  /** Every listed template with its questions. */
  function Catalogue(templates: map<nat, Template>, users: map<nat, User>, questions: map<nat, Question>)
    : seq<TemplateView>
  {
    Views(templates, users, questions, CatalogueIds(templates, users))
  }

  /** `templates.filter(t => t.isMandatory)`. */
  function MandatoryOnly(vs: seq<TemplateView>): (r: seq<TemplateView>)
    ensures |r| <= |vs|
    ensures forall v :: v in r <==> v in vs && v.isMandatory
  {
    if vs == [] then []
    else (if vs[0].isMandatory then [vs[0]] else []) + MandatoryOnly(vs[1..])
  }

  /** `target === 'timesheet' ? … : …`: any other target, or none, keeps
      every template. */
  function ForTarget(vs: seq<TemplateView>, target: Option<string>): seq<TemplateView>
  {
    if target == Some("timesheet") then MandatoryOnly(vs) else vs
  }

  function Outcome(user: Option<Identity>, templates: map<nat, Template>, users: map<nat, User>,
                   questions: map<nat, Question>, target: Option<string>): (r: Reply<seq<TemplateView>>)
    ensures r.status == 200 || r.status == 401
  {
    if user.None? then Fail(401, "Authentication required")
    else Done(200, "", ForTarget(Catalogue(templates, users, questions), target))
  }

  method Get(db: Database, ctx: Context, target: Option<string>) returns (r: Reply<seq<TemplateView>>)
    requires db.Valid()
    modifies db`sessions
    ensures db.Valid()
    ensures db.sessions == Stamped(old(db.users), old(db.sessions), ctx)
    ensures r == Outcome(Authenticate(old(db.users), old(db.sessions), ctx), db.templates, db.users, db.questions, target)
  {
    var user := VerifyToken(db, ctx);
    if user.None? {
      return Fail(401, "Authentication required");
    }
    var all := Catalogue(db.templates, db.users, db.questions);
    if target == Some("timesheet") {
      r := Done(200, "", MandatoryOnly(all));
    } else {
      r := Done(200, "", all);
    }
  }

  // ---------------------------------------------------------------------
  // Properties

  /** The filter keeps the order: filtering two lists one after the other
      is filtering each in turn. */
  lemma {:induction false} MandatoryOnlyConcat(a: seq<TemplateView>, b: seq<TemplateView>)
    ensures MandatoryOnly(a + b) == MandatoryOnly(a) + MandatoryOnly(b)
  {
    if a == [] {
      assert a + b == b;
    } else {
      assert (a + b)[0] == a[0];
      assert (a + b)[1..] == a[1..] + b;
      MandatoryOnlyConcat(a[1..], b);
    }
  }

  /** The catalogue shows as many templates as are listed, each a listed
      one with its own `is_mandatory` flag. */
  lemma CatalogueShowsListed(templates: map<nat, Template>, users: map<nat, User>, questions: map<nat, Question>)
    ensures var vs := Catalogue(templates, users, questions);
      && |vs| == |Listed(templates, users)|
      && forall k | 0 <= k < |vs| :: vs[k].id in Listed(templates, users)
                                     && vs[k].isMandatory == templates[vs[k].id].mandatory
  {
    var ids := CatalogueIds(templates, users);
    var vs := Catalogue(templates, users, questions);
    assert forall k | 0 <= k < |vs| :: vs[k] == ViewOf(templates, users, questions, ids[k]);
  }

  /** The catalogue is newest first. */
  lemma CatalogueNewestFirst(templates: map<nat, Template>, users: map<nat, User>, questions: map<nat, Question>)
    ensures var vs := Catalogue(templates, users, questions);
      forall k | 0 <= k < |vs| - 1 :: vs[k + 1].createdAtMs <= vs[k].createdAtMs
  {
    var ids := CatalogueIds(templates, users);
    var vs := Catalogue(templates, users, questions);
    forall k | 0 <= k < |vs| - 1 ensures vs[k + 1].createdAtMs <= vs[k].createdAtMs {
      assert vs[k] == ViewOf(templates, users, questions, ids[k]);
      assert vs[k + 1] == ViewOf(templates, users, questions, ids[k + 1]);
    }
  }

  /** Every active template whose creator exists is in the catalogue. */
  lemma CatalogueComplete(templates: map<nat, Template>, users: map<nat, User>, questions: map<nat, Question>)
    ensures var vs := Catalogue(templates, users, questions);
      forall id | id in Listed(templates, users) :: exists k | 0 <= k < |vs| :: vs[k].id == id
  {
    var ids := CatalogueIds(templates, users);
    var vs := Catalogue(templates, users, questions);
    forall id | id in Listed(templates, users) ensures exists k | 0 <= k < |vs| :: vs[k].id == id {
      var k :| 0 <= k < |ids| && ids[k] == id;
      assert vs[k] == ViewOf(templates, users, questions, ids[k]);
    }
  }

  /** A template's questions are its own, as many as it has, in ascending
      `order_index` (unset last). */
  lemma QuestionsInOrder(questions: map<nat, Question>, template: nat)
    ensures var vs := QuestionsOf(questions, template);
      && |vs| == |QuestionIds(questions, template)|
      && (forall k | 0 <= k < |vs| :: vs[k].id in questions && questions[vs[k].id].templateId == template)
      && (forall k | 0 <= k < |vs| - 1 :: KeyLe(vs[k].orderIndex, vs[k + 1].orderIndex))
  {
    var ids := QuestionOrder(questions, template);
    var vs := QuestionsOf(questions, template);
    assert forall k | 0 <= k < |vs| :: vs[k] == QuestionViewOf(questions, ids[k]);
  }

  /** Every question of the template is shown with it. */
  lemma QuestionsComplete(questions: map<nat, Question>, template: nat)
    ensures var vs := QuestionsOf(questions, template);
      forall q | q in questions && questions[q].templateId == template :: exists k | 0 <= k < |vs| :: vs[k].id == q
  {
    var ids := QuestionOrder(questions, template);
    var vs := QuestionsOf(questions, template);
    forall q | q in questions && questions[q].templateId == template ensures exists k | 0 <= k < |vs| :: vs[k].id == q {
      var k :| 0 <= k < |ids| && ids[k] == q;
      assert vs[k] == QuestionViewOf(questions, ids[k]);
    }
  }

  /** `target=timesheet` keeps exactly the mandatory templates, in the same
      order; any other target keeps the catalogue as it is. */
  lemma TargetFilter(vs: seq<TemplateView>, target: Option<string>)
    ensures target == Some("timesheet") ==>
      (forall v :: v in ForTarget(vs, target) <==> v in vs && v.isMandatory)
      && forall a, b | vs == a + b :: ForTarget(vs, target) == MandatoryOnly(a) + MandatoryOnly(b)
    ensures target != Some("timesheet") ==> ForTarget(vs, target) == vs
  {
    forall a, b | vs == a + b ensures MandatoryOnly(vs) == MandatoryOnly(a) + MandatoryOnly(b) {
      MandatoryOnlyConcat(a, b);
    }
  }
}
