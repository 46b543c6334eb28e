/** The server's in-memory project store (src/lib/data-store.ts): one
    mutable list, seeded with five records, changed by append, replace by id
    and delete by id. */
module DataStore {
  import opened Common
  import opened Types

  /** The five records the store starts with. */
  function SeedProjects(): (s: seq<Project>)
    ensures |s| == 5
    ensures s[0].id == "1" && s[1].id == "2" && s[2].id == "3" && s[3].id == "4" && s[4].id == "5"
    ensures IdsDistinct(s)
  {
    [ Project("1", "Website Redesign", InProgress, "2024-03-15", 1,
              "Complete redesign of company website with modern UI/UX",
              "2024-01-15T10:00:00Z", "2024-02-01T10:00:00Z"),
      Project("2", "Mobile App Development", ToDo, "2024-04-30", 2,
              "Develop cross-platform mobile app for customer engagement",
              "2024-01-20T10:00:00Z", "2024-01-20T10:00:00Z"),
      Project("3", "Database Migration", Completed, "2024-02-28", 3,
              "Migrate legacy database to new cloud infrastructure",
              "2024-01-10T10:00:00Z", "2024-02-25T10:00:00Z"),
      Project("4", "Security Audit", ToDo, "2024-03-30", 4,
              "Comprehensive security audit of all systems and applications",
              "2024-02-05T10:00:00Z", "2024-02-05T10:00:00Z"),
      Project("5", "API Documentation", InProgress, "2024-03-20", 5,
              "Create comprehensive API documentation for developers",
              "2024-01-25T10:00:00Z", "2024-02-10T10:00:00Z") ]
  }

  /** `findIndex(p => p.id === id)`: the position of the first record with
      id `id`, or -1 when there is none. */
  function FindIndex(s: seq<Project>, id: string): (r: int)
    ensures -1 <= r < |s|
    ensures r >= 0 ==> s[r].id == id && forall j :: 0 <= j < r ==> s[j].id != id
    ensures r == -1 <==> !HasId(s, id)
  {
    if |s| == 0 then -1
    else if s[0].id == id then 0
    else
      var k := FindIndex(s[1..], id);
      assert forall j :: 0 <= j < |s[1..]| ==> s[1..][j] == s[j + 1];
      if k == -1 then -1 else k + 1
  }

  /** `find(p => p.id === id)`: the first record with id `id`, if any. */
  function FindFirst(s: seq<Project>, id: string): (r: Option<Project>)
    ensures r.Some? <==> HasId(s, id)
    ensures r.Some? ==> r.value.id == id && r.value == s[FindIndex(s, id)]
  {
    var i := FindIndex(s, id);
    if i == -1 then None else Some(s[i])
  }

  /** The list after `updateProject(p)`: the first record whose id is
      `p.id` is replaced by `p`; without such a record nothing changes. */
  function WithReplaced(s: seq<Project>, p: Project): (r: seq<Project>)
    ensures |r| == |s|
    ensures !HasId(s, p.id) ==> r == s
    ensures HasId(s, p.id) ==> r[FindIndex(s, p.id)] == p
    ensures forall j :: 0 <= j < |s| && j != FindIndex(s, p.id) ==> r[j] == s[j]
  {
    var i := FindIndex(s, p.id);
    if i == -1 then s else s[i := p]
  }

  /** The list after `splice(i, 1)`: element `i` is gone and the others keep
      their order. */
  function WithoutIndex(s: seq<Project>, i: nat): (r: seq<Project>)
    requires i < |s|
    ensures |r| == |s| - 1
    ensures forall j :: 0 <= j < i ==> r[j] == s[j]
    ensures forall j :: i <= j < |r| ==> r[j] == s[j + 1]
  {
    s[..i] + s[i + 1..]
  }

  /** The shared store. */
  class ProjectStore {
    var projects: seq<Project>

    constructor ()
      ensures projects == SeedProjects()
    {
      projects := SeedProjects();
    }

    /** `getProjects`: the current list. */
    method GetProjects() returns (r: seq<Project>)
      ensures r == projects
    {
      r := projects;
    }

    /** `addProject`: append at the end. */
    method AddProject(project: Project)
      modifies this
      ensures projects == old(projects) + [project]
      ensures |projects| == |old(projects)| + 1 && projects[|projects| - 1] == project
      ensures forall j :: 0 <= j < |old(projects)| ==> projects[j] == old(projects)[j]
    {
      projects := projects + [project];
    }

    /** `updateProject`: replace the first record with the same id. */
    method UpdateProject(updated: Project)
      modifies this
      ensures projects == WithReplaced(old(projects), updated)
    {
      var index := FindIndex(projects, updated.id);
      if index != -1 {
        projects := projects[index := updated];
      }
    }

    /** `deleteProject`: remove the first record with the given id and
        return it, or return null and change nothing. */
    method DeleteProject(projectId: string) returns (deleted: Option<Project>)
      modifies this
      ensures !HasId(old(projects), projectId) ==> deleted == None && projects == old(projects)
      ensures HasId(old(projects), projectId) ==>
        var i := FindIndex(old(projects), projectId);
        deleted == Some(old(projects)[i]) && projects == WithoutIndex(old(projects), i)
    {
      var index := FindIndex(projects, projectId);
      if index != -1 {
        deleted := Some(projects[index]);
        projects := projects[..index] + projects[index + 1..];
      } else {
        deleted := None;
      }
    }

    /** `findProject`: the first record with the given id, if any. */
    method FindProject(projectId: string) returns (r: Option<Project>)
      ensures r == FindFirst(projects, projectId)
    {
      r := FindFirst(projects, projectId);
    }
  }

  // -----------------------------------------------------------------------
  // Properties of the store's operations
  // -----------------------------------------------------------------------

  /** After an append of a record with a fresh id, looking that id up finds
      the new record. */
  lemma FindAfterAdd(s: seq<Project>, p: Project)
    requires !HasId(s, p.id)
    ensures FindFirst(s + [p], p.id) == Some(p)
  {
    assert (s + [p])[|s|] == p;
    assert forall j :: 0 <= j < |s| ==> (s + [p])[j] == s[j];
  }

  /** After replacing a present record, looking its id up finds the
      replacement. */
  lemma FindAfterReplace(s: seq<Project>, p: Project)
    requires HasId(s, p.id)
    ensures FindFirst(WithReplaced(s, p), p.id) == Some(p)
  {
  }

  /** Replacing by id keeps the ids of the list distinct. */
  lemma ReplacePreservesDistinctIds(s: seq<Project>, p: Project)
    requires IdsDistinct(s)
    ensures IdsDistinct(WithReplaced(s, p))
  {
  }

  /** In a list with distinct ids, deleting a present id removes every
      record with that id, and the remaining ids stay distinct. */
  lemma DeleteRemovesId(s: seq<Project>, id: string)
    requires IdsDistinct(s) && HasId(s, id)
    ensures var r := WithoutIndex(s, FindIndex(s, id));
      !HasId(r, id) && IdsDistinct(r)
  {
  }

  /** The seed list's records are found by their ids "1" to "5". */
  lemma SeedLookup()
    ensures FindFirst(SeedProjects(), "3") == Some(SeedProjects()[2])
    ensures FindFirst(SeedProjects(), "6") == None
  {
  }
}
