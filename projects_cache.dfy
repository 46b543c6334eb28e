/** The client-side cache of the project list (src/hooks/useProjects.ts):
    the query keys, the pure updater functions handed to `setQueryData`,
    and a `Cache` whose methods are the mutation phases (optimistic apply,
    rollback on error, reconciliation on success). The phases run one after
    another; the clock readings a phase makes are its parameters. */
module ProjectsCache {
  import opened Common
  import opened Types
  import DataStore

  // -----------------------------------------------------------------------
  // Query keys (`projectsKeys`)
  // -----------------------------------------------------------------------

  /** One element of a query key: a string, or the `{ filters }` object. */
  datatype KeyPart = Segment(name: string) | FiltersPart(filters: map<string, string>)

  function AllKey(): seq<KeyPart>
  {
    [Segment("projects")]
  }

  function ListsKey(): (k: seq<KeyPart>)
    ensures IsPrefix(AllKey(), k) && k == [Segment("projects"), Segment("list")]
  {
    AllKey() + [Segment("list")]
  }

  function ListKey(filters: map<string, string>): (k: seq<KeyPart>)
    ensures IsPrefix(ListsKey(), k) && k == [Segment("projects"), Segment("list"), FiltersPart(filters)]
  {
    ListsKey() + [FiltersPart(filters)]
  }

  function DetailsKey(): (k: seq<KeyPart>)
    ensures IsPrefix(AllKey(), k) && k == [Segment("projects"), Segment("detail")]
    ensures k != ListsKey()
  {
    AllKey() + [Segment("detail")]
  }

  function DetailKey(id: string): (k: seq<KeyPart>)
    ensures IsPrefix(DetailsKey(), k) && k == [Segment("projects"), Segment("detail"), Segment(id)]
  {
    DetailsKey() + [Segment(id)]
  }

  /** The list keys and the detail keys are separate families: no list key
      starts with the details prefix and no detail key with the lists
      prefix, and distinct ids give distinct detail keys. */
  lemma KeyFamiliesDisjoint(filters: map<string, string>, id: string, other: string)
    ensures !IsPrefix(ListsKey(), DetailKey(id)) && !IsPrefix(ListsKey(), DetailsKey())
    ensures !IsPrefix(DetailsKey(), ListKey(filters)) && !IsPrefix(DetailsKey(), ListsKey())
    ensures id != other ==> DetailKey(id) != DetailKey(other)
  {
  }

  // -----------------------------------------------------------------------
  // Updaters
  // -----------------------------------------------------------------------

  /** Every record whose id is `id` becomes `replacement`; the others stay. */
  function ReplaceWhereId(s: seq<Project>, id: string, replacement: Project): (r: seq<Project>)
    ensures |r| == |s|
    ensures forall i :: 0 <= i < |s| ==> r[i] == (if s[i].id == id then replacement else s[i])
  {
    if s == [] then []
    else [if s[0].id == id then replacement else s[0]] + ReplaceWhereId(s[1..], id, replacement)
  }

  /** The temporary id `temp-<Date.now()>` of an optimistic record. */
  function TempId(nowMillis: nat): (id: string)
    ensures IsPrefix("temp-", id)
  {
    "temp-" + NatToString(nowMillis)
  }

  /** `{ ...newProject, id: temp-…, createdAt, updatedAt }`: the placeholder
      shown while a create is in flight. */
  function OptimisticProject(req: CreateProjectRequest, nowMillis: nat, createdClock: string, updatedClock: string): (p: Project)
    ensures p.id == TempId(nowMillis) && p.createdAt == createdClock && p.updatedAt == updatedClock
    ensures p.name == req.name && p.status == req.status && p.dueDate == req.dueDate
    ensures p.assignedTo == req.assignedTo && p.summary == req.summary
  {
    Project(TempId(nowMillis), req.name, req.status, req.dueDate, req.assignedTo, req.summary,
            createdClock, updatedClock)
  }

  /** Optimistic create: the placeholder appended to the cached list, or
      alone when nothing is cached. */
  function AppendOptimistic(cached: Option<seq<Project>>, p: Project): (r: seq<Project>)
    ensures |r| == |OrElse(cached, [])| + 1
    ensures r[..|r| - 1] == OrElse(cached, []) && r[|r| - 1] == p
  {
    if cached.Some? then cached.value + [p] else [p]
  }

  /** The five-field change detection of the optimistic update: the
      request changes something exactly when writing its five fields into
      the record gives a different record. */
  predicate HasChanges(p: Project, req: UpdateProjectRequest): (changed: bool)
    ensures !changed <==>
      p.(name := req.name, status := req.status, dueDate := req.dueDate,
         assignedTo := req.assignedTo, summary := req.summary) == p
  {
    || p.name != req.name
    || p.status != req.status
    || p.dueDate != req.dueDate
    || p.assignedTo != req.assignedTo
    || p.summary != req.summary
  }

  /** `{ ...project, ...updatedProject, id, updatedAt }`: the edited fields
      come from the request, createdAt from the cached record, and
      updatedAt moves to `clock` only when some edited field differs. */
  function MergeUpdate(p: Project, req: UpdateProjectRequest, clock: string): (r: Project)
    ensures r.id == req.id && r.createdAt == p.createdAt
    ensures r.name == req.name && r.status == req.status && r.dueDate == req.dueDate
    ensures r.assignedTo == req.assignedTo && r.summary == req.summary
    ensures r.updatedAt == (if HasChanges(p, req) then clock else p.updatedAt)
  {
    var hasChanges := HasChanges(p, req);
    Project(req.id, req.name, req.status, req.dueDate, req.assignedTo, req.summary,
            p.createdAt, if hasChanges then clock else p.updatedAt)
  }

  /** Every record whose id is the request's is merged with the request. */
  function PatchWhereId(s: seq<Project>, req: UpdateProjectRequest, clock: string): (r: seq<Project>)
    ensures |r| == |s|
    ensures forall i :: 0 <= i < |s| ==>
      r[i] == (if s[i].id == req.id then MergeUpdate(s[i], req, clock) else s[i])
  {
    if s == [] then []
    else [if s[0].id == req.id then MergeUpdate(s[0], req, clock) else s[0]]
         + PatchWhereId(s[1..], req, clock)
  }

  /** Optimistic update: an absent list becomes `[]`, otherwise every record
      with the request's id is merged with the request. */
  function OptimisticUpdate(cached: Option<seq<Project>>, req: UpdateProjectRequest, clock: string): (r: seq<Project>)
    ensures cached.None? ==> r == []
    ensures cached.Some? ==> r == PatchWhereId(cached.value, req, clock)
  {
    if cached.None? then [] else PatchWhereId(cached.value, req, clock)
  }

  /** The state the mutation hooks keep between phases. */
  datatype CreateContext = CreateContext(previousProjects: Option<seq<Project>>, optimisticProject: Project)
  datatype UpdateContext = UpdateContext(previousProjects: Option<seq<Project>>)

  /** Create success: with no list or no context the list becomes
      `[server]`; otherwise the placeholder (matched by its temporary id) is
      replaced by the server's record. */
  function ReconcileCreated(cached: Option<seq<Project>>, context: Option<CreateContext>, server: Project): (r: seq<Project>)
    ensures cached.None? || context.None? ==> r == [server]
    ensures cached.Some? && context.Some? ==>
      r == ReplaceWhereId(cached.value, context.value.optimisticProject.id, server)
  {
    if cached.None? || context.None? then [server]
    else ReplaceWhereId(cached.value, context.value.optimisticProject.id, server)
  }

  /** Update success: with no list the list becomes `[server]`; otherwise
      every record with the server record's id becomes that record, so no
      record with that id keeps an optimistic field. */
  function ReconcileUpdated(cached: Option<seq<Project>>, server: Project): (r: seq<Project>)
    ensures cached.None? ==> r == [server]
    ensures cached.Some? ==> |r| == |cached.value|
    ensures forall i :: 0 <= i < |r| && r[i].id == server.id ==> r[i] == server
    ensures cached.Some? ==> forall i :: 0 <= i < |r| && cached.value[i].id == server.id ==> r[i] == server
    ensures cached.Some? ==> forall i :: 0 <= i < |r| && cached.value[i].id != server.id ==> r[i] == cached.value[i]
  {
    if cached.None? then [server] else ReplaceWhereId(cached.value, server.id, server)
  }

  /** Delete success: with no list `[]`; otherwise the records whose id is
      not the deleted one, in their order. */
  function RemoveDeleted(cached: Option<seq<Project>>, projectId: string): (r: seq<Project>)
    ensures forall i :: 0 <= i < |r| ==> r[i].id != projectId && r[i] in OrElse(cached, [])
    ensures forall p :: p in OrElse(cached, []) && p.id != projectId ==> p in r
    ensures cached.Some? ==> r == Filter(cached.value, OtherThan(projectId)) && IsSubsequence(r, cached.value)
  {
    if cached.None? then []
    else
      FilterIsSubsequence(cached.value, OtherThan(projectId));
      Filter(cached.value, OtherThan(projectId))
  }

  /** The callback `old.filter(p => p.id !== projectId)` passes to `filter`. */
  function OtherThan(projectId: string): Project -> bool
  {
    (p: Project) => p.id != projectId
  }

  /** When the cached list is the server's list and ids are distinct (as the
      store's records are), removing the deleted id from the cache gives the
      list the server holds after its `splice`. */
  lemma RemoveDeletedMatchesStore(s: seq<Project>, projectId: string)
    requires IdsDistinct(s) && HasId(s, projectId)
    ensures RemoveDeleted(Some(s), projectId) == DataStore.WithoutIndex(s, DataStore.FindIndex(s, projectId))
  {
    var i := DataStore.FindIndex(s, projectId);
    var keep := OtherThan(projectId);
    var before, after := s[..i], s[i + 1..];
    assert forall j :: 0 <= j < |after| ==> after[j] == s[i + 1 + j];
    assert forall x :: x in before ==> x.id != projectId;
    assert forall x :: x in after ==> x.id != projectId;
    assert forall x: Project :: keep(x) == (x.id != projectId);
    assert s == before + [s[i]] + after;
    FilterDropsOne(before, s[i], after, keep);
  }

  // -----------------------------------------------------------------------
  // The cache and its mutation phases
  // -----------------------------------------------------------------------

  /** The query data stored under `projectsKeys.lists()`; None until the
      list has been loaded. */
  class Cache {
    var data: Option<seq<Project>>

    constructor ()
      ensures data == None
    {
      data := None;
    }

    /** A completed fetch of the list (initial load or the refetch that
        follows an invalidation) replaces the data wholesale. */
    method Fetched(projects: seq<Project>)
      modifies this
      ensures data == Some(projects)
    {
      data := Some(projects);
    }

    /** `onMutate` of the optimistic create: snapshot, then append the
        placeholder. */
    method BeginCreate(req: CreateProjectRequest, nowMillis: nat, createdClock: string, updatedClock: string)
      returns (context: CreateContext)
      modifies this
      ensures context.previousProjects == old(data)
      ensures context.optimisticProject == OptimisticProject(req, nowMillis, createdClock, updatedClock)
      ensures data == Some(AppendOptimistic(old(data), context.optimisticProject))
    {
      var previousProjects := data;
      var optimisticProject := OptimisticProject(req, nowMillis, createdClock, updatedClock);
      data := Some(AppendOptimistic(data, optimisticProject));
      context := CreateContext(previousProjects, optimisticProject);
    }

    /** `onMutate` of the optimistic update: snapshot, then patch. */
    method BeginUpdate(req: UpdateProjectRequest, clock: string) returns (context: UpdateContext)
      modifies this
      ensures context.previousProjects == old(data)
      ensures data == Some(OptimisticUpdate(old(data), req, clock))
    {
      context := UpdateContext(data);
      data := Some(OptimisticUpdate(data, req, clock));
    }

    /** `onError` of either optimistic hook; `previous` is
        `context?.previousProjects`. A snapshot that existed is restored
        verbatim; without one the data is left as it is. */
    method Rollback(previous: Option<seq<Project>>)
      modifies this
      ensures data == (if previous.Some? then previous else old(data))
    {
      if previous.Some? {
        data := previous;
      }
    }

    /** `onSuccess` of the optimistic create. */
    method CreateSucceeded(server: Project, context: Option<CreateContext>)
      modifies this
      ensures data == Some(ReconcileCreated(old(data), context, server))
    {
      data := Some(ReconcileCreated(data, context, server));
    }

    /** `onSuccess` of both update hooks (the plain and the optimistic one
        install the server's record the same way). */
    method UpdateSucceeded(server: Project)
      modifies this
      ensures data == Some(ReconcileUpdated(old(data), server))
    {
      data := Some(ReconcileUpdated(data, server));
    }

    /** `onSuccess` of the delete hook. */
    method DeleteSucceeded(projectId: string)
      modifies this
      ensures data == Some(RemoveDeleted(old(data), projectId))
    {
      data := Some(RemoveDeleted(data, projectId));
    }
  }

  // -----------------------------------------------------------------------
  // Properties of the protocol
  // -----------------------------------------------------------------------

  /** Placeholder ids never collide with the server's ids, and two
      placeholders made at different milliseconds have different ids. */
  lemma TempIdsAreDistinguishable(n: nat, m: nat, serverMillis: nat, fragment: string)
    ensures TempId(n) != "project_" + NatToString(serverMillis) + "_" + fragment
    ensures n != m ==> TempId(n) != TempId(m)
  {
    assert TempId(n)[0] == 't';
    assert ("project_" + NatToString(serverMillis) + "_" + fragment)[0] == 'p';
    if n != m {
      NatToStringInjective(n, m);
      assert TempId(n)[5..] == NatToString(n) && TempId(m)[5..] == NatToString(m);
    }
  }

  /** An update that changes none of the five fields leaves the record
      exactly as it was; one that changes a field yields a different record
      stamped with the clock reading. */
  lemma MergeUpdateNoChange(p: Project, req: UpdateProjectRequest, clock: string)
    requires p.id == req.id
    ensures !HasChanges(p, req) ==> MergeUpdate(p, req, clock) == p
    ensures HasChanges(p, req) ==> MergeUpdate(p, req, clock) != p
    ensures HasChanges(p, req) ==> MergeUpdate(p, req, clock).updatedAt == clock
  {
  }

  /** Replacing where the id matches distributes over concatenation. */
  lemma ReplaceWhereIdAppend(a: seq<Project>, b: seq<Project>, id: string, replacement: Project)
    ensures ReplaceWhereId(a + b, id, replacement) == ReplaceWhereId(a, id, replacement) + ReplaceWhereId(b, id, replacement)
  {
  }

  /** Replacing an id that no record has changes nothing. */
  lemma ReplaceAbsentId(s: seq<Project>, id: string, replacement: Project)
    requires !HasId(s, id)
    ensures ReplaceWhereId(s, id, replacement) == s
  {
  }

  /** Two creates in flight with placeholders T1 then T2 on top of a list
      without those ids: when T1's server record arrives first, the list
      holds that record where T1 was and still holds T2, with no duplicate
      and no orphaned T1. */
  lemma ConcurrentCreatesReconcile(s: seq<Project>, t1: Project, t2: Project, server: Project)
    requires t1.id != t2.id && !HasId(s, t1.id)
    ensures ReconcileCreated(Some(s + [t1, t2]), Some(CreateContext(Some(s), t1)), server) == s + [server, t2]
  {
  }

  /** Rollback after a failed optimistic update restores the snapshot:
      starting from list S, the patched list is visible while the request
      is in flight, and after the failure the data is S again. */
  method UpdateThenFail(cache: Cache, req: UpdateProjectRequest, clock: string)
    returns (inFlight: seq<Project>)
    requires cache.data.Some?
    modifies cache
    ensures inFlight == PatchWhereId(old(cache.data).value, req, clock)
    ensures cache.data == old(cache.data)
  {
    var context := cache.BeginUpdate(req, clock);
    inFlight := cache.data.value;
    cache.Rollback(context.previousProjects);
  }

  /** Whole-snapshot rollback is last-writer-wins: if a second optimistic
      update B is applied after A's snapshot was taken and A then fails, B's
      change is erased along with A's. */
  method InterleavedRollback(cache: Cache, a: UpdateProjectRequest, b: UpdateProjectRequest, clock: string)
    requires cache.data.Some?
    modifies cache
    ensures cache.data == old(cache.data)
  {
    var contextA := cache.BeginUpdate(a, clock);
    var contextB := cache.BeginUpdate(b, clock);
    cache.Rollback(contextA.previousProjects);
  }

  /** An optimistic create that fails while the list was not yet loaded
      has no snapshot to restore: the placeholder stays until the next
      fetch replaces the data. */
  method CreateFailsWithoutSnapshot(cache: Cache, req: CreateProjectRequest, nowMillis: nat, clock: string)
    requires cache.data.None?
    modifies cache
    ensures cache.data == Some([OptimisticProject(req, nowMillis, clock, clock)])
  {
    var context := cache.BeginCreate(req, nowMillis, clock, clock);
    cache.Rollback(context.previousProjects);
  }
}
