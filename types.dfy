/** The records exchanged between the store, the request handlers and the
    client cache (src/lib/types.ts). */
module Types {
  import opened Common

  /** `ProjectStatus`: the three values a project's status may take. */
  datatype ProjectStatus = ToDo | InProgress | Completed

  /** The string each status is written as on the wire and in the UI. */
  function StatusLabel(status: ProjectStatus): string
  {
    match status
    case ToDo => "To-Do"
    case InProgress => "In Progress"
    case Completed => "Completed"
  }

  /** The status a label string names; None for any other string. */
  function ParseStatus(text: string): (r: Option<ProjectStatus>)
    ensures r.Some? <==> text == "To-Do" || text == "In Progress" || text == "Completed"
  {
    if text == "To-Do" then Some(ToDo)
    else if text == "In Progress" then Some(InProgress)
    else if text == "Completed" then Some(Completed)
    else None
  }

  /** Labels and statuses correspond one to one. */
  lemma StatusLabelRoundTrip(status: ProjectStatus, text: string)
    ensures ParseStatus(StatusLabel(status)) == Some(status)
    ensures ParseStatus(text) == Some(status) <==> text == StatusLabel(status)
  {
  }

  /** `Project`: one record of the project list. */
  datatype Project = Project(
    id: string,
    name: string,
    status: ProjectStatus,
    dueDate: string,
    assignedTo: int,
    summary: string,
    createdAt: string,
    updatedAt: string)

  /** `CreateProjectRequest`: the five editable fields. */
  datatype CreateProjectRequest = CreateProjectRequest(
    name: string,
    status: ProjectStatus,
    dueDate: string,
    assignedTo: int,
    summary: string)

  /** `UpdateProjectRequest`: the five editable fields and the id of the
      project they are for. */
  datatype UpdateProjectRequest = UpdateProjectRequest(
    id: string,
    name: string,
    status: ProjectStatus,
    dueDate: string,
    assignedTo: int,
    summary: string)

  /** `User`: an entry of the user directory. */
  datatype User = User(id: int, name: string, username: string, email: string)

  /** No two records of `s` share an id. */
  ghost predicate IdsDistinct(s: seq<Project>)
  {
    forall i, j :: 0 <= i < j < |s| ==> s[i].id != s[j].id
  }

  /** Some record of `s` has id `id`. */
  ghost predicate HasId(s: seq<Project>, id: string)
  {
    exists i :: 0 <= i < |s| && s[i].id == id
  }
}
