/** The decisions a project card makes (src/components/ProjectCard.tsx):
    the badge variant and colour for a status, the overdue flag, the date
    fallback, whether the "Updated" line is shown, which user line is
    shown, and when the card is re-rendered. Dates arrive already parsed:
    a due date is its instant in milliseconds, or None when it does not
    parse. */
module ProjectCard {
  import opened Common
  import opened Types
  import ProjectsCache
  import ProjectsRoute

  /** `getStatusVariant`, on the status string as it arrives. */
  function StatusVariant(status: string): (r: string)
    ensures r == "default" <==> status == "Completed"
    ensures r == "secondary" <==> status == "In Progress"
    ensures r == "outline" <==> status != "Completed" && status != "In Progress"
  {
    match status
    case "Completed" => "default"
    case "In Progress" => "secondary"
    case "To-Do" => "outline"
    case _ => "outline"
  }

  const CompletedColor := "text-green-700 bg-green-100 border-green-200 dark:text-green-400 dark:bg-green-900/20 dark:border-green-800"
  const InProgressColor := "text-blue-700 bg-blue-100 border-blue-200 dark:text-blue-400 dark:bg-blue-900/20 dark:border-blue-800"
  const MutedColor := "text-muted-foreground bg-muted border-border"

  /** `getStatusColor`, on the status string as it arrives. */
  function StatusColor(status: string): (r: string)
    ensures status == "Completed" ==> r == CompletedColor
    ensures status == "In Progress" ==> r == InProgressColor
    ensures status != "Completed" && status != "In Progress" ==> r == MutedColor
  {
    match status
    case "Completed" => CompletedColor
    case "In Progress" => InProgressColor
    case "To-Do" => MutedColor
    case _ => MutedColor
  }

  /** The three statuses get three different badge variants, and To-Do
      looks exactly like an unknown status. */
  lemma BadgesDistinguishStatuses(a: ProjectStatus, b: ProjectStatus, other: string)
    requires other != "Completed" && other != "In Progress" && other != "To-Do"
    ensures a != b ==> StatusVariant(StatusLabel(a)) != StatusVariant(StatusLabel(b))
    ensures StatusVariant("To-Do") == StatusVariant(other) && StatusColor("To-Do") == StatusColor(other)
  {
  }

  /** `isOverdue`: never for a completed project; otherwise when now is
      strictly after the due date (a date that does not parse is never
      passed). */
  function IsOverdue(due: Option<int>, status: ProjectStatus, now: int): (r: bool)
    ensures r <==> status != Completed && due.Some? && now > due.value
  {
    if status == Completed then false
    else due.Some? && now > due.value
  }

  /** Once overdue, a card stays overdue as time passes, until the project
      is completed. */
  lemma OverdueIsPersistent(due: Option<int>, status: ProjectStatus, t1: int, t2: int)
    requires t1 <= t2 && IsOverdue(due, status, t1)
    ensures IsOverdue(due, status, t2)
    ensures !IsOverdue(due, Completed, t2)
  {
  }

  /** `formatDate`: the formatted date, or the input itself when
      formatting fails (`formatted` is None). */
  function FormatDate(dateString: string, formatted: Option<string>): (r: string)
    ensures formatted.None? ==> r == dateString
    ensures formatted.Some? ==> r == formatted.value
  {
    if formatted.Some? then formatted.value else dateString
  }

  /** The "Updated" line is shown when the two timestamps differ. */
  predicate ShowsUpdated(p: Project): (shown: bool)
    ensures shown <==> p.updatedAt != p.createdAt
    ensures p.updatedAt == p.createdAt ==> !shown
  {
    p.updatedAt != p.createdAt
  }

  /** A record just created, by the server or as the optimistic
      placeholder, reads the clock twice; it shows the "Updated" line,
      without ever being edited, exactly when the two reads differ. */
  lemma NewRecordShowsUpdated(b: ProjectsRoute.CreateBody, id: string, req: CreateProjectRequest,
                              nowMillis: nat, createdClock: string, updatedClock: string)
    requires ProjectsRoute.HasRequiredFields(b)
    ensures ShowsUpdated(ProjectsRoute.NewProject(b, id, createdClock, updatedClock)) <==> createdClock != updatedClock
    ensures ShowsUpdated(ProjectsCache.OptimisticProject(req, nowMillis, createdClock, updatedClock)) <==>
      createdClock != updatedClock
  {
  }

  /** An optimistic edit that changes nothing does not make the "Updated"
      line appear; one that changes a field on a never-updated project
      makes it appear unless the clock reads the creation instant. */
  lemma UpdatedLineAfterEdit(p: Project, req: UpdateProjectRequest, clock: string)
    requires p.id == req.id
    ensures !ProjectsCache.HasChanges(p, req) ==>
      ShowsUpdated(ProjectsCache.MergeUpdate(p, req, clock)) == ShowsUpdated(p)
    ensures ProjectsCache.HasChanges(p, req) ==>
      (ShowsUpdated(ProjectsCache.MergeUpdate(p, req, clock)) <==> clock != p.createdAt)
  {
  }

  /** The line under the assignee icon. */
  datatype UserLine = Loading | Assignee(name: string) | NotFound

  /** A placeholder while users load, the user's name when found, "User
      not found" otherwise. */
  function AssignedUserLine(userLoading: bool, assignedUser: Option<User>): (r: UserLine)
    ensures userLoading <==> r.Loading?
    ensures !userLoading && assignedUser.Some? ==> r == Assignee(assignedUser.value.name)
    ensures !userLoading && assignedUser.None? ==> r.NotFound?
  {
    if userLoading then Loading
    else if assignedUser.Some? then Assignee(assignedUser.value.name)
    else NotFound
  }

  /** The text of a user line: nothing while loading, the name, or the
      "not found" notice. */
  function UserLineText(line: UserLine): (text: string)
    ensures line.Loading? ==> text == ""
    ensures line.Assignee? ==> text == line.name
    ensures line.NotFound? ==> text == "User not found"
    ensures text == "" <==> line.Loading? || line == Assignee("")
  {
    match line
    case Loading => ""
    case Assignee(name) => name
    case NotFound => "User not found"
  }

  /** The `memo` comparator: the card is not re-rendered when the project
      keeps its id and its updatedAt. */
  predicate SameCard(prev: Project, next: Project): (same: bool)
    ensures prev == next ==> same
    ensures same <==> prev.id == next.id && prev.updatedAt == next.updatedAt
  {
    prev.id == next.id && prev.updatedAt == next.updatedAt
  }

  /** The comparator is an equivalence, so skipping re-renders is
      consistent. */
  lemma SameCardIsEquivalence(a: Project, b: Project, c: Project)
    ensures SameCard(a, a)
    ensures SameCard(a, b) ==> SameCard(b, a)
    ensures SameCard(a, b) && SameCard(b, c) ==> SameCard(a, c)
  {
  }

  /** What the comparator means for the optimistic edit: a no-change edit
      skips the re-render; an edit with changes re-renders exactly when
      the clock reading differs from the old updatedAt (an edit stamped
      with the same instant leaves the card showing the old fields). */
  lemma OptimisticEditRerender(p: Project, req: UpdateProjectRequest, clock: string)
    requires p.id == req.id
    ensures !ProjectsCache.HasChanges(p, req) ==> SameCard(p, ProjectsCache.MergeUpdate(p, req, clock))
    ensures ProjectsCache.HasChanges(p, req) ==>
      (SameCard(p, ProjectsCache.MergeUpdate(p, req, clock)) <==> clock == p.updatedAt)
  {
  }
}
