/** The collection endpoint `/api/projects` (src/app/api/projects/route.ts):
    GET lists the store, POST validates a body and appends a new record.
    The random fault, the clock and the random id fragment are passed in as
    parameters so that every branch can be reasoned about. */
module ProjectsRoute {
  import opened Common
  import opened Types
  import opened DataStore
  import Validations

  /** The JSON payload of a response. */
  datatype ResponseBody =
    | ListData(projects: seq<Project>)   // `{ data: Project[] }`
    | ItemData(project: Project)         // `{ data: Project }`
    | ErrorData(error: string)           // `{ error: string }`

  /** An HTTP response: status code, payload and the Cache-Control header
      when one is set. */
  datatype Response = Response(status: int, body: ResponseBody, cacheControl: Option<string>)

  /** A parsed POST body. Every field may be missing; `id`, `createdAt` and
      `updatedAt` are fields a client may send although the server assigns
      them. */
  datatype CreateBody = CreateBody(
    name: Option<string>,
    status: Option<ProjectStatus>,
    dueDate: Option<string>,
    assignedTo: Option<int>,
    summary: Option<string>,
    id: Option<string>,
    createdAt: Option<string>,
    updatedAt: Option<string>)

  const ListCacheControl := "public, max-age=60, s-maxage=60, stale-while-revalidate=120"
  const ListFailedMessage := "Failed to fetch projects. Please try again."
  const CreateFailedMessage := "Failed to create project. Please try again."
  const MissingFieldsMessage := "Missing required fields"
  const InvalidBodyMessage := "Invalid request body"

  /** The required-field check: each of the five fields is present and
      truthy (a non-empty string, a non-zero number). */
  predicate HasRequiredFields(b: CreateBody): (ok: bool)
    ensures ok <==>
      && b.name.Some? && b.name.value != ""
      && b.status.Some?
      && b.dueDate.Some? && b.dueDate.value != ""
      && b.assignedTo.Some? && b.assignedTo.value != 0
      && b.summary.Some? && b.summary.value != ""
  {
    && Truthy(b.name)
    && b.status.Some?
    && Truthy(b.dueDate)
    && b.assignedTo.Some? && b.assignedTo.value != 0
    && Truthy(b.summary)
  }

  /** The POST body the create form sends: the values its schema parsed,
      and no server-assigned fields. */
  function FormBody(v: Validations.FormValues): CreateBody
  {
    CreateBody(Some(v.name), Some(v.status), Some(v.dueDate), Some(v.assignedTo), Some(v.summary),
               None, None, None)
  }

  /** A form the create schema accepts passes the server's required-field
      check exactly when its name and summary are not all whitespace: the
      schema measures the lengths before it trims. */
  lemma ValidatedFormAtServer(form: Validations.FormInput, notPast: bool)
    requires Validations.ParseForm(form, false, notPast).Ok?
    ensures HasRequiredFields(FormBody(Validations.ParseForm(form, false, notPast).value)) <==>
      Trim(form.name) != "" && Trim(form.summary) != ""
  {
  }

  /** A name of three spaces passes the form and is then refused by the
      server as a missing field. */
  lemma BlankNamePassesFormOnly()
    ensures var form := Validations.FormInput("   ", "To-Do", "2030-01-01", 1, "Ten chars.");
      && Validations.ParseForm(form, false, true).Ok?
      && !HasRequiredFields(FormBody(Validations.ParseForm(form, false, true).value))
  {
  }

  /** The server-assigned id `project_<Date.now()>_<random base-36 fragment>`. */
  function ServerId(nowMillis: nat, fragment: string): (id: string)
    ensures IsPrefix("project_", id)
  {
    "project_" + NatToString(nowMillis) + "_" + fragment
  }

  /** `{ ...body, id, createdAt, updatedAt }` for a body that passed the
      required-field check: the submitted fields, then the server's id and
      timestamps. */
  function NewProject(b: CreateBody, id: string, createdAt: string, updatedAt: string): (p: Project)
    requires HasRequiredFields(b)
    ensures p.name == b.name.value && p.status == b.status.value && p.dueDate == b.dueDate.value
    ensures p.assignedTo == b.assignedTo.value && p.summary == b.summary.value
    ensures p.id == id && p.createdAt == createdAt && p.updatedAt == updatedAt
  {
    Project(id, b.name.value, b.status.value, b.dueDate.value, b.assignedTo.value,
            b.summary.value, createdAt, updatedAt)
  }

  /** GET: with the injected fault a 500 error, otherwise 200 with exactly
      the store's list and the caching header. Nothing is changed. */
  method Get(store: ProjectStore, fault: bool) returns (r: Response)
    ensures fault ==> r == Response(500, ErrorData(ListFailedMessage), None)
    ensures !fault ==> r == Response(200, ListData(store.projects), Some(ListCacheControl))
  {
    if fault {
      return Response(500, ErrorData(ListFailedMessage), None);
    }
    var projects := store.GetProjects();
    r := Response(200, ListData(projects), Some(ListCacheControl));
  }

  /** POST. `body` is None when the request body cannot be parsed;
      `fault` is the outcome of the 1% fault draw; `nowMillis`, `fragment`,
      `createdClock` and `updatedClock` are what `Date.now()`, the random
      id fragment and the two `new Date().toISOString()` calls return. */
  method Post(store: ProjectStore, body: Option<CreateBody>, fault: bool,
              nowMillis: nat, fragment: string, createdClock: string, updatedClock: string)
    returns (r: Response)
    modifies store
    ensures body.None? ==>
      r == Response(400, ErrorData(InvalidBodyMessage), None) && store.projects == old(store.projects)
    ensures body.Some? && !HasRequiredFields(body.value) ==>
      r == Response(400, ErrorData(MissingFieldsMessage), None) && store.projects == old(store.projects)
    ensures body.Some? && HasRequiredFields(body.value) && fault ==>
      r == Response(500, ErrorData(CreateFailedMessage), None) && store.projects == old(store.projects)
    ensures body.Some? && HasRequiredFields(body.value) && !fault ==>
      var p := NewProject(body.value, ServerId(nowMillis, fragment), createdClock, updatedClock);
      r == Response(201, ItemData(p), None) && store.projects == old(store.projects) + [p]
  {
    if body.None? {
      return Response(400, ErrorData(InvalidBodyMessage), None);
    }
    var b := body.value;
    if !HasRequiredFields(b) {
      return Response(400, ErrorData(MissingFieldsMessage), None);
    }
    if fault {
      return Response(500, ErrorData(CreateFailedMessage), None);
    }
    var newProject := NewProject(b, ServerId(nowMillis, fragment), createdClock, updatedClock);
    store.AddProject(newProject);
    r := Response(201, ItemData(newProject), None);
  }

  // -----------------------------------------------------------------------
  // Properties of the handlers
  // -----------------------------------------------------------------------

  /** The id, createdAt and updatedAt a client sends are overwritten: two
      bodies that differ only in those fields produce the same record. */
  lemma ServerFieldsOverrideBody(b1: CreateBody, b2: CreateBody, id: string, createdAt: string, updatedAt: string)
    requires HasRequiredFields(b1)
    requires b1.(id := None, createdAt := None, updatedAt := None) == b2.(id := None, createdAt := None, updatedAt := None)
    ensures HasRequiredFields(b2)
    ensures NewProject(b1, id, createdAt, updatedAt) == NewProject(b2, id, createdAt, updatedAt)
  {
  }

  /** Ids drawn at different milliseconds differ, whatever the random
      fragments are. */
  lemma ServerIdsDifferAcrossMilliseconds(m1: nat, f1: string, m2: nat, f2: string)
    requires m1 != m2
    requires forall i :: 0 <= i < |f1| ==> f1[i] != '_'
    requires forall i :: 0 <= i < |f2| ==> f2[i] != '_'
    ensures ServerId(m1, f1) != ServerId(m2, f2)
  {
    var d1, d2 := NatToString(m1), NatToString(m2);
    NatToStringInjective(m1, m2);
    if ServerId(m1, f1) == ServerId(m2, f2) {
      var s1, s2 := ServerId(m1, f1), ServerId(m2, f2);
      assert s1[8..] == d1 + "_" + f1;
      assert s2[8..] == d2 + "_" + f2;
      DigitsThenUnderscore(d1, f1, d2, f2);
    }
  }

  /** Splitting `digits + "_" + rest` at its first underscore is unique. */
  lemma DigitsThenUnderscore(d1: string, f1: string, d2: string, f2: string)
    requires forall i :: 0 <= i < |d1| ==> IsDigit(d1[i])
    requires forall i :: 0 <= i < |d2| ==> IsDigit(d2[i])
    requires d1 + "_" + f1 == d2 + "_" + f2
    ensures d1 == d2
  {
    SeparatorAt(d1, f1);
    SeparatorAt(d2, f2);
    if |d1| < |d2| {
      assert false;
    } else if |d2| < |d1| {
      assert false;
    } else {
      assert d1 == (d1 + "_" + f1)[..|d1|] == (d2 + "_" + f2)[..|d2|] == d2;
    }
  }

  /** In `d + "_" + f` the characters before offset |d| are those of `d` and
      the one at |d| is the separator. */
  lemma SeparatorAt(d: string, f: string)
    ensures (d + "_" + f)[|d|] == '_'
    ensures forall k :: 0 <= k < |d| ==> (d + "_" + f)[k] == d[k]
  {
  }

  /** A project created by POST and then listed by GET appears in the list
      exactly at the end, with the submitted fields. The two clock reads
      are separate: its createdAt equals its updatedAt exactly when they
      return the same instant. */
  method CreateThenList(store: ProjectStore, b: CreateBody, nowMillis: nat, fragment: string,
                        createdClock: string, updatedClock: string)
    returns (created: Response, listed: Response)
    requires HasRequiredFields(b)
    modifies store
    ensures created.status == 201 && created.body.ItemData?
    ensures listed.status == 200 && listed.body == ListData(old(store.projects) + [created.body.project])
    ensures created.body.project == NewProject(b, ServerId(nowMillis, fragment), createdClock, updatedClock)
    ensures created.body.project.createdAt == created.body.project.updatedAt <==> createdClock == updatedClock
  {
    created := Post(store, Some(b), false, nowMillis, fragment, createdClock, updatedClock);
    listed := Get(store, false);
  }
}
