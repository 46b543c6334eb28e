/** The form rules for creating and editing a project
    (src/lib/validations.ts): the two object schemas, the single-field
    validators that report the first problem, and the conversion of a list
    of issues into a field-to-message dictionary. The schema library's
    behaviour is modelled as it applies to these rules: every check of a
    field runs and reports its own issue, the fields are checked in
    declaration order, and `.trim()` only shapes the parsed value. The
    "date is not in the past" refinement reads the wall clock and is an
    input (`notPast`). */
module Validations {
  import opened Common
  import opened Types

  /** One problem: where it is (the field path) and what to show. */
  datatype Issue = Issue(path: seq<string>, message: string)

  datatype Result<T, E> = Ok(value: T) | Err(error: E)

  /** The raw form as the schemas receive it. */
  datatype FormInput = FormInput(name: string, status: string, dueDate: string, assignedTo: int, summary: string)

  /** What a successful parse yields: the status as an enum value, the name
      and summary trimmed. */
  datatype FormValues = FormValues(name: string, status: ProjectStatus, dueDate: string, assignedTo: int, summary: string)

  const NameRequired := "Project name is required"
  const NameTooShort := "Project name must be at least 3 characters"
  const NameTooLong := "Project name must be less than 100 characters"
  const DueDateRequired := "Due date is required"
  const DueDateInPast := "Due date must be today or in the future"
  const NoTeamMember := "Please select a team member"
  const SummaryRequired := "Project summary is required"
  const SummaryTooShort := "Summary must be at least 10 characters"
  const SummaryTooLong := "Summary must be less than 500 characters"

  /** The issue the enum check reports for a value outside the three
      labels (the schema library's own wording). */
  function StatusEnumMessage(received: string): string
  {
    "Invalid enum value. Expected 'To-Do' | 'In Progress' | 'Completed', received '" + received + "'"
  }

  // -----------------------------------------------------------------------
  // Field rules
  // -----------------------------------------------------------------------

  /** The name checks in order: at least 1, at least 3, at most 100
      characters; each failing check adds its issue. */
  function NameIssues(name: string, path: seq<string>): (r: seq<Issue>)
    ensures r == [] <==> 3 <= |name| <= 100
    ensures forall i :: 0 <= i < |r| ==> r[i].path == path
  {
    (if |name| < 1 then [Issue(path, NameRequired)] else [])
    + (if |name| < 3 then [Issue(path, NameTooShort)] else [])
    + (if |name| > 100 then [Issue(path, NameTooLong)] else [])
  }

  /** The summary checks: at least 1, at least 10, at most 500 characters. */
  function SummaryIssues(summary: string, path: seq<string>): (r: seq<Issue>)
    ensures r == [] <==> 10 <= |summary| <= 500
    ensures forall i :: 0 <= i < |r| ==> r[i].path == path
  {
    (if |summary| < 1 then [Issue(path, SummaryRequired)] else [])
    + (if |summary| < 10 then [Issue(path, SummaryTooShort)] else [])
    + (if |summary| > 500 then [Issue(path, SummaryTooLong)] else [])
  }

  /** The due-date checks: non-empty; when creating, also not before today
      (the refinement runs even when the string is empty). */
  function DueDateIssues(date: string, isUpdate: bool, notPast: bool, path: seq<string>): (r: seq<Issue>)
    ensures r == [] <==> date != "" && (isUpdate || notPast)
    ensures forall i :: 0 <= i < |r| ==> r[i].path == path
  {
    (if |date| < 1 then [Issue(path, DueDateRequired)] else [])
    + (if !isUpdate && !notPast then [Issue(path, DueDateInPast)] else [])
  }

  /** The status enum: exactly the three labels are accepted. */
  function StatusIssues(status: string, path: seq<string>): (r: seq<Issue>)
    ensures r == [] <==> ParseStatus(status).Some?
    ensures forall i :: 0 <= i < |r| ==> r[i].path == path
  {
    if ParseStatus(status).Some? then [] else [Issue(path, StatusEnumMessage(status))]
  }

  /** The team member: a number of at least 1. */
  function AssignedToIssues(assignedTo: int, path: seq<string>): (r: seq<Issue>)
    ensures r == [] <==> assignedTo >= 1
    ensures forall i :: 0 <= i < |r| ==> r[i].path == path
  {
    if assignedTo < 1 then [Issue(path, NoTeamMember)] else []
  }

  // -----------------------------------------------------------------------
  // The object schemas
  // -----------------------------------------------------------------------

  /** Every issue of the form, field by field in declaration order, each
      under its field's name. */
  function FormIssues(form: FormInput, isUpdate: bool, notPast: bool): seq<Issue>
  {
    NameIssues(form.name, ["name"])
    + StatusIssues(form.status, ["status"])
    + DueDateIssues(form.dueDate, isUpdate, notPast, ["dueDate"])
    + AssignedToIssues(form.assignedTo, ["assignedTo"])
    + SummaryIssues(form.summary, ["summary"])
  }

  /** `projectFormSchema.parse` (isUpdate false) and
      `updateProjectFormSchema.parse` (isUpdate true): all issues, or the
      parsed values with name and summary trimmed. */
  function ParseForm(form: FormInput, isUpdate: bool, notPast: bool): (r: Result<FormValues, seq<Issue>>)
    ensures r.Ok? <==>
      && 3 <= |form.name| <= 100
      && ParseStatus(form.status).Some?
      && form.dueDate != "" && (isUpdate || notPast)
      && form.assignedTo >= 1
      && 10 <= |form.summary| <= 500
    ensures r.Ok? ==> r.value == FormValues(Trim(form.name), ParseStatus(form.status).value,
                                            form.dueDate, form.assignedTo, Trim(form.summary))
    ensures r.Err? ==> r.error != [] && r.error == FormIssues(form, isUpdate, notPast)
  {
    var issues := FormIssues(form, isUpdate, notPast);
    if issues == [] then
      Ok(FormValues(Trim(form.name), ParseStatus(form.status).value, form.dueDate,
                    form.assignedTo, Trim(form.summary)))
    else Err(issues)
  }

  /** The edit form accepts everything the create form accepts, and also
      dates in the past. */
  lemma UpdateSchemaIsWeaker(form: FormInput, notPast: bool)
    ensures ParseForm(form, false, notPast).Ok? ==> ParseForm(form, true, notPast) == ParseForm(form, false, notPast)
    ensures ParseForm(form, true, notPast).Ok? ==> ParseForm(form, true, false) == ParseForm(form, true, notPast)
  {
  }

  // -----------------------------------------------------------------------
  // Single-field validators
  // -----------------------------------------------------------------------

  /** The first issue's message, the fallback when that message is empty,
      and None when there is no issue. */
  function FirstMessage(issues: seq<Issue>, fallback: string): (r: Option<string>)
    ensures r.None? <==> issues == []
  {
    if issues == [] then None
    else if issues[0].message != "" then Some(issues[0].message)
    else Some(fallback)
  }

  /** `validateProjectName`: None for 3 to 100 characters; otherwise the
      message of the first failing check. */
  function ValidateProjectName(name: string): (r: Option<string>)
    ensures r.None? <==> 3 <= |name| <= 100
    ensures |name| == 0 ==> r == Some(NameRequired)
    ensures 1 <= |name| <= 2 ==> r == Some(NameTooShort)
    ensures |name| > 100 ==> r == Some(NameTooLong)
  {
    FirstMessage(NameIssues(name, []), "Invalid project name")
  }

  /** `validateSummary`: None for 10 to 500 characters; otherwise the
      message of the first failing check. */
  function ValidateSummary(summary: string): (r: Option<string>)
    ensures r.None? <==> 10 <= |summary| <= 500
    ensures |summary| == 0 ==> r == Some(SummaryRequired)
    ensures 1 <= |summary| <= 9 ==> r == Some(SummaryTooShort)
    ensures |summary| > 500 ==> r == Some(SummaryTooLong)
  {
    FirstMessage(SummaryIssues(summary, []), "Invalid summary")
  }

  /** `validateDueDate`: an empty date is always "required"; when editing
      any other string is accepted; when creating a non-empty date is
      rejected exactly when it is before today. */
  function ValidateDueDate(date: string, isUpdate: bool, notPast: bool): (r: Option<string>)
    ensures date == "" ==> r == Some(DueDateRequired)
    ensures isUpdate && date != "" ==> r == None
    ensures !isUpdate && date != "" ==> r == (if notPast then None else Some(DueDateInPast))
  {
    FirstMessage(DueDateIssues(date, isUpdate, notPast, []), "Invalid due date")
  }

  /** A single-field validator agrees with the form schema: it passes
      exactly when the form reports no issue for that field. */
  lemma ValidatorsAgreeWithSchema(form: FormInput, isUpdate: bool, notPast: bool)
    ensures ValidateProjectName(form.name).None? <==> NameIssues(form.name, ["name"]) == []
    ensures ValidateSummary(form.summary).None? <==> SummaryIssues(form.summary, ["summary"]) == []
    ensures ValidateDueDate(form.dueDate, isUpdate, notPast).None? <==>
              DueDateIssues(form.dueDate, isUpdate, notPast, ["dueDate"]) == []
  {
  }

  // -----------------------------------------------------------------------
  // Issues to a dictionary
  // -----------------------------------------------------------------------

  /** The dictionary after processing `issues` in order: an issue with a
      non-empty path sets the entry of its first segment, overwriting any
      earlier one; an issue with an empty path is skipped. */
  function ErrorMap(issues: seq<Issue>): map<string, string>
  {
    if issues == [] then map[]
    else
      var earlier := ErrorMap(issues[..|issues| - 1]);
      var last := issues[|issues| - 1];
      if |last.path| > 0 then earlier[last.path[0] := last.message] else earlier
  }

  /** `formatValidationError`. */
  method FormatValidationError(issues: seq<Issue>) returns (errors: map<string, string>)
    ensures errors == ErrorMap(issues)
  {
    errors := map[];
    for i := 0 to |issues|
      invariant errors == ErrorMap(issues[..i])
    {
      assert issues[..i + 1][..i] == issues[..i];
      var issue := issues[i];
      if |issue.path| > 0 {
        errors := errors[issue.path[0] := issue.message];
      }
    }
    assert issues[..|issues|] == issues;
  }

  /** Issue `i` is reported under key `key`. */
  predicate ReportedAt(issues: seq<Issue>, i: int, key: string)
  {
    0 <= i < |issues| && |issues[i].path| > 0 && issues[i].path[0] == key
  }

  /** The dictionary's keys are exactly the first path segments of the
      issues, and each key holds the message of the last issue reported
      under it. */
  lemma {:induction false} ErrorMapIsLastIssue(issues: seq<Issue>, key: string)
    ensures key in ErrorMap(issues) <==> exists i :: ReportedAt(issues, i, key)
    ensures key in ErrorMap(issues) ==>
      exists i :: ReportedAt(issues, i, key) && ErrorMap(issues)[key] == issues[i].message
        && forall j :: i < j < |issues| ==> !ReportedAt(issues, j, key)
    decreases |issues|
  {
    if issues != [] {
      var n := |issues|;
      var earlier := issues[..n - 1];
      ErrorMapIsLastIssue(earlier, key);
      assert forall i :: ReportedAt(earlier, i, key) ==> ReportedAt(issues, i, key);
      if ReportedAt(issues, n - 1, key) {
        assert ErrorMap(issues)[key] == issues[n - 1].message;
      } else {
        assert forall i :: ReportedAt(issues, i, key) ==> ReportedAt(earlier, i, key);
        if key in ErrorMap(issues) {
          var i :| ReportedAt(earlier, i, key) && ErrorMap(earlier)[key] == earlier[i].message
            && forall j :: i < j < |earlier| ==> !ReportedAt(earlier, j, key);
          assert ReportedAt(issues, i, key) && ErrorMap(issues)[key] == issues[i].message;
        }
      }
    }
  }

  /** An empty name fails two schema checks under the same key. The map
      `formatValidationError` builds keeps the later one ("at least 3
      characters"), while `validateProjectName` reports "required". */
  lemma EmptyNameInForm(form: FormInput, isUpdate: bool, notPast: bool)
    requires form.name == ""
    ensures ValidateProjectName(form.name) == Some(NameRequired)
    ensures var errors := ErrorMap(FormIssues(form, isUpdate, notPast));
      "name" in errors && errors["name"] == NameTooShort
  {
    var issues := FormIssues(form, isUpdate, notPast);
    assert issues[0] == Issue(["name"], NameRequired) && issues[1] == Issue(["name"], NameTooShort);
    assert forall j :: 2 <= j < |issues| ==> !ReportedAt(issues, j, "name");
    assert ReportedAt(issues, 1, "name");
    ErrorMapIsLastIssue(issues, "name");
    var i :| ReportedAt(issues, i, "name") && ErrorMap(issues)["name"] == issues[i].message
      && forall j :: i < j < |issues| ==> !ReportedAt(issues, j, "name");
    assert i == 1;
  }
}
