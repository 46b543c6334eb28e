# Project dashboard: a verified model of its data and cache layer

This project models the logic of a small project-tracking dashboard written in
TypeScript (Next.js on the server, React and react-query on the client). A
project has a name, a status (To-Do, In Progress or Completed), a due date, an
assignee and a summary. The model covers:

- the server's in-memory store of projects and the `/api/projects` collection
  endpoint (list and create);
- the client's query cache: the optimistic create and update, rollback on
  failure, and how server responses are merged back in;
- the derived list view: the status filter, text search and per-status counts;
- the form rules and the messages they produce;
- the retry and back-off policies of the query client and of the user query;
- how the HTTP layer turns a failed request into an error message, the update
  request it sends, and how it projects the external user directory;
- the decisions a project card makes, and how a notification's text and kind
  are chosen.

Each source file is one module. The store and the client cache change state in
place, so each is a class whose methods state their new state. Those methods
are proved against pure functions, and the functions have lemmas of their own.
The list counts and the error-map builder are loops in the source and are
methods with loop invariants here. Everything else is functions and lemmas.

Randomness, clocks and the network are inputs:

- the 1% fault draw is a `fault` flag;
- `Date.now()` is `nowMillis`;
- each `new Date().toISOString()` is a clock string of its own (the server
  reads the clock twice per created record);
- the random base-36 id fragment is `fragment`;
- the "date is today or later" check is a `notPast` flag;
- a date that date-fns parses is an instant in milliseconds (None when it
  does not parse);
- the formatted date is `formatted` (None when formatting throws).

Some proved properties are worth stating up front:

- The HTTP interceptors throw a new `Error` that carries only a message.
  So the retry policies' "never retry a 4xx" rule never applies to errors
  from these clients. A 404 from the server is retried twice as a query and
  once as a mutation (`Api.RetryAfterIntercept`). A query is limited to one
  retry whenever the thrown message contains "timeout" or "timed out". The
  interceptors' own timeout texts always do. A server's error text or the
  error's own message can too, for instance axios's "timeout of 30000ms
  exceeded" when the failure code is not `ECONNABORTED`.
- Rollback restores a whole snapshot. If a second optimistic update is
  applied before the first one fails, the second one's change is lost as well
  (`ProjectsCache.InterleavedRollback`).
- A failed optimistic create that had no snapshot leaves its placeholder in
  the cache until the next fetch (`ProjectsCache.CreateFailsWithoutSnapshot`).
- An empty name fails two schema checks under the same key. The map that
  `formatValidationError` builds keeps the later message ("must be at least
  3 characters"), while `validateProjectName` reports the first ("is
  required") (`Validations.EmptyNameInForm`). The form itself resolves the
  schema through its resolver, which is not part of this model.
- The create schema checks the name's and summary's lengths before it
  trims them. A name of three spaces passes the form, is sent as "", and the
  server refuses it as a missing field
  (`ProjectsRoute.ValidatedFormAtServer`, `ProjectsRoute.BlankNamePassesFormOnly`).
- A new record reads the clock twice, once for createdAt and once for
  updatedAt. This holds on the server (src/app/api/projects/route.ts:64-65)
  and for the optimistic placeholder (src/hooks/useProjects.ts:107-108).
  When the two reads fall in different milliseconds, a record nobody has
  edited shows the "Updated" line (`ProjectCard.NewRecordShowsUpdated`,
  `ProjectsRoute.CreateThenList`).
- Two placeholders made in the same millisecond share a temporary id.
  `ProjectsCache.ConcurrentCreatesReconcile` needs distinct placeholder ids,
  and `ProjectsCache.TempIdsAreDistinguishable` proves ids differ across
  milliseconds.

Two comments in the code promise more than the code does, and the model
follows the code:

- The comment "Don't retry 4xx errors" at
  src/app/providers/QueryProvider.tsx:28 and :53 describes a rule that never
  fires for these clients' errors, for the reason given above.
- The comments at src/hooks/useProjects.ts:120 and :190 say a failed mutation
  rolls back. The code rolls back only when a snapshot existed, which is
  when a list was cached before the mutation began.

## Model

| member | source | states |
|---|---|---|
| Common.ContainsIffOccurs | src/components/ProjectList.tsx:135-136 | `includes` is true exactly when the substring occurs at some offset |
| Common.TrimSpec | src/components/ProjectList.tsx:132 | `trim` keeps one contiguous stretch of the input, everything it drops before and after that stretch is whitespace, and neither end of the result is whitespace |
| Types.ParseStatus | src/lib/types.ts:19 | exactly the three labels "To-Do", "In Progress" and "Completed" name a status |
| Types.StatusLabelRoundTrip | src/lib/types.ts:19 | labels and statuses correspond one to one |
| DataStore.SeedProjects | src/lib/data-store.ts:6-57 | the store starts with five records whose ids "1" to "5" are pairwise distinct |
| DataStore.FindIndex | src/lib/data-store.ts:67 | `findIndex` gives the first position with the id, or -1 exactly when no record has it |
| DataStore.FindFirst | src/lib/data-store.ts:84 | `find` gives a record exactly when the id is present, and that record is the first match |
| DataStore.WithReplaced | src/lib/data-store.ts:66-71 | replacing by id keeps the length, puts the record at the first match, changes no other position, and changes nothing when the id is absent |
| DataStore.WithoutIndex | src/lib/data-store.ts:77 | `splice(i, 1)` drops position i and keeps the rest in order |
| DataStore.ProjectStore.constructor | src/lib/data-store.ts:6-57 | a new store holds the seed records |
| DataStore.ProjectStore.GetProjects | src/lib/data-store.ts:60 | returns the current list |
| DataStore.ProjectStore.AddProject | src/lib/data-store.ts:62-64 | the store grows by one, the new record is last, and earlier records are unchanged |
| DataStore.ProjectStore.UpdateProject | src/lib/data-store.ts:66-71 | the new list is the old one with the first record of the same id replaced |
| DataStore.ProjectStore.DeleteProject | src/lib/data-store.ts:73-81 | an absent id returns null and changes nothing; a present id returns the first match and removes exactly it |
| DataStore.ProjectStore.FindProject | src/lib/data-store.ts:83-85 | returns the first record with the id, if any |
| DataStore.FindAfterAdd | src/lib/data-store.ts:62-64 | after appending a record with a fresh id, looking that id up finds the record |
| DataStore.FindAfterReplace | src/lib/data-store.ts:66-71 | after replacing a present record, looking its id up finds the replacement |
| DataStore.ReplacePreservesDistinctIds | src/lib/data-store.ts:66-71 | replacing by id keeps the ids distinct |
| DataStore.DeleteRemovesId | src/lib/data-store.ts:73-81 | with distinct ids, deleting a present id leaves no record with that id and keeps the ids distinct |
| DataStore.SeedLookup | src/lib/data-store.ts:83-85 | id "3" finds the third seed record and id "6" finds none |
| ProjectsRoute.ServerId | src/app/api/projects/route.ts:63 | every server-assigned id begins with "project_" |
| ProjectsRoute.NewProject | src/app/api/projects/route.ts:61-66 | the new record carries the five submitted fields and the server's id and timestamps |
| ProjectsRoute.HasRequiredFields | src/app/api/projects/route.ts:40-46 | the body passes exactly when name, due date and summary are present and non-empty, status is present, and assignedTo is present and not 0 |
| ProjectsRoute.ValidatedFormAtServer | src/lib/validations.ts:7-40 | a form the create schema accepts passes the server's required-field check exactly when its name and summary are not all whitespace |
| ProjectsRoute.BlankNamePassesFormOnly | src/app/api/projects/route.ts:40-50 | a name of three spaces passes the create schema, then fails the server's required-field check |
| ProjectsRoute.Get | src/app/api/projects/route.ts:9-30 | a fault gives 500 with the error text; otherwise 200 with exactly the store's list and the Cache-Control header |
| ProjectsRoute.Post | src/app/api/projects/route.ts:33-77 | unparsable body gives 400 "Invalid request body"; a missing or falsy field gives 400 "Missing required fields" even when the fault fires; a fault on valid input gives 500; all three leave the store unchanged; otherwise 201 with the new record, which is appended to the store |
| ProjectsRoute.ServerFieldsOverrideBody | src/app/api/projects/route.ts:61-66 | id, createdAt and updatedAt sent by the client have no effect on the created record |
| ProjectsRoute.ServerIdsDifferAcrossMilliseconds | src/app/api/projects/route.ts:63 | ids made at different milliseconds differ, whatever the random fragments |
| ProjectsRoute.DigitsThenUnderscore | src/app/api/projects/route.ts:63 | a digit string followed by "_" can be split off in only one way |
| ProjectsRoute.CreateThenList | src/app/api/projects/route.ts:61-70 | the created project is exactly the submitted fields with the server's id and the two clock readings, it is listed last, and its createdAt equals its updatedAt exactly when the two readings are the same |
| ProjectsCache.ListsKey | src/hooks/useProjects.ts:12 | the lists key is ["projects", "list"] and extends the root key |
| ProjectsCache.ListKey | src/hooks/useProjects.ts:13-14 | a list key is ["projects", "list", filters] and extends the lists key |
| ProjectsCache.DetailsKey | src/hooks/useProjects.ts:15 | the details key is ["projects", "detail"], extends the root key, and differs from the lists key |
| ProjectsCache.DetailKey | src/hooks/useProjects.ts:16 | a detail key is ["projects", "detail", id] and extends the details key |
| ProjectsCache.KeyFamiliesDisjoint | src/hooks/useProjects.ts:10-17 | list keys and detail keys never share a prefix family, and distinct ids give distinct detail keys |
| ProjectsCache.ReplaceWhereId | src/hooks/useProjects.ts:132-134 | keeps the length; each record with the id becomes the replacement and the others stay |
| ProjectsCache.TempId | src/hooks/useProjects.ts:106 | every placeholder id begins with "temp-" |
| ProjectsCache.OptimisticProject | src/hooks/useProjects.ts:104-109 | the placeholder carries the request's fields, a temporary id and the two clock readings |
| ProjectsCache.AppendOptimistic | src/hooks/useProjects.ts:112-114 | the placeholder is appended after every cached record; with nothing cached the result is the placeholder alone |
| ProjectsCache.MergeUpdate | src/hooks/useProjects.ts:165-180 | the merged record takes the edited fields and the id from the request, keeps createdAt, and gets the clock reading as updatedAt exactly when a field changed |
| ProjectsCache.HasChanges | src/hooks/useProjects.ts:165-170 | an update counts as a change exactly when writing its five fields into the cached record gives a different record |
| ProjectsCache.PatchWhereId | src/hooks/useProjects.ts:162-183 | keeps the length; only records with the request's id change, each by `MergeUpdate` |
| ProjectsCache.OptimisticUpdate | src/hooks/useProjects.ts:160-184 | nothing cached gives an empty list; otherwise the patched list |
| ProjectsCache.ReconcileCreated | src/hooks/useProjects.ts:130-135 | without a list or a context the result is the server record alone; otherwise the placeholder is replaced by the server record and the rest is untouched |
| ProjectsCache.ReconcileUpdated | src/hooks/useProjects.ts:200-203 | nothing cached gives the server record alone; otherwise the length is kept, every cached record with the server id becomes the server record, and every other record is untouched |
| ProjectsCache.RemoveDeleted | src/hooks/useProjects.ts:77-80 | nothing cached gives []; otherwise the result is the cached list filtered by "id differs", so it is a subsequence of the cached list (order kept), holds no record with the deleted id and keeps every other record |
| ProjectsCache.RemoveDeletedMatchesStore | src/hooks/useProjects.ts:77-80 | for a cached list equal to the store's list with distinct ids, the cache after a delete equals the store's list after its `splice` of the same id |
| ProjectsCache.Cache.constructor | src/hooks/useProjects.ts:20-27 | the cache starts with no list |
| ProjectsCache.Cache.Fetched | src/hooks/useProjects.ts:20-27 | a completed fetch replaces the cached list |
| ProjectsCache.Cache.BeginCreate | src/hooks/useProjects.ts:94-118 | the context holds the old list as snapshot and the placeholder; the cache holds the old list with the placeholder appended |
| ProjectsCache.Cache.BeginUpdate | src/hooks/useProjects.ts:150-188 | the context holds the old list; the cache holds the optimistically updated list |
| ProjectsCache.Cache.Rollback | src/hooks/useProjects.ts:119-127 | a snapshot that exists is restored exactly; without one the cache is unchanged |
| ProjectsCache.Cache.CreateSucceeded | src/hooks/useProjects.ts:128-136 | the cache becomes the reconciled list after a create |
| ProjectsCache.Cache.UpdateSucceeded | src/hooks/useProjects.ts:198-204 | the cache becomes the reconciled list after an update |
| ProjectsCache.Cache.DeleteSucceeded | src/hooks/useProjects.ts:75-81 | the cache becomes the list without the deleted id |
| ProjectsCache.TempIdsAreDistinguishable | src/hooks/useProjects.ts:106 | a placeholder id never equals a server id, and placeholders from different milliseconds differ |
| ProjectsCache.MergeUpdateNoChange | src/hooks/useProjects.ts:165-180 | an edit that changes nothing returns the record unchanged; one that changes a field yields a different record stamped with the clock |
| ProjectsCache.ReplaceWhereIdAppend | src/hooks/useProjects.ts:132-134 | replacing by id distributes over concatenation |
| ProjectsCache.ReplaceAbsentId | src/hooks/useProjects.ts:132-134 | replacing an id no record has changes nothing |
| ProjectsCache.ConcurrentCreatesReconcile | src/hooks/useProjects.ts:130-135 | with two creates in flight, the first success swaps in its record where its placeholder was and keeps the second placeholder |
| ProjectsCache.UpdateThenFail | src/hooks/useProjects.ts:150-196 | a failed optimistic update shows the patched list while in flight and then restores the snapshot exactly |
| ProjectsCache.InterleavedRollback | src/hooks/useProjects.ts:189-196 | rolling back the first of two overlapping updates erases the second as well |
| ProjectsCache.CreateFailsWithoutSnapshot | src/hooks/useProjects.ts:119-127 | a failed create with no snapshot leaves the placeholder in the cache |
| ProjectList.FilteredProjects | src/components/ProjectList.tsx:120-141 | nothing cached gives nothing; otherwise the result holds exactly the cached projects that pass the status filter and, when the search box is not empty, match the lower-cased trimmed query in name or summary |
| ProjectList.FilteredIsOneFilter | src/components/ProjectList.tsx:123-140 | the chained filters equal one filter by the combined condition |
| ProjectList.FilteredIsSubsequence | src/components/ProjectList.tsx:123-140 | the shown projects keep their relative order from the cache |
| ProjectList.NoFilterShowsAll | src/components/ProjectList.tsx:126-131 | "all" with an empty search box shows every cached project |
| ProjectList.WhitespaceQueryKeepsStatusFiltered | src/components/ProjectList.tsx:131-137 | a whitespace-only query gives the same result as an empty search box |
| ProjectList.CountStatus | src/components/ProjectList.tsx:151 | a status count never exceeds the list length |
| ProjectList.ProjectCounts | src/components/ProjectList.tsx:144-159 | the counts have exactly the keys "all", "To-Do", "In Progress" and "Completed"; "all" is the list length and each status key counts its status; nothing cached gives all zeros |
| ProjectList.CountsAddUp | src/components/ProjectList.tsx:148-158 | the three status counts add up to the "all" count |
| ProjectList.CountMatchesFilter | src/components/ProjectList.tsx:144-159 | a status's count equals the number of cards shown when that status is selected and the search box is empty |
| Validations.NameIssues | src/lib/validations.ts:8-13 | the name has no issue exactly when it is 3 to 100 characters long, and every issue is under the given path |
| Validations.SummaryIssues | src/lib/validations.ts:34-39 | the summary has no issue exactly when it is 10 to 500 characters long |
| Validations.DueDateIssues | src/lib/validations.ts:17-30 | the due date has no issue exactly when it is non-empty and, when creating, not in the past |
| Validations.StatusIssues | src/lib/validations.ts:4 | the status has no issue exactly when it is one of the three labels |
| Validations.AssignedToIssues | src/lib/validations.ts:32 | the team member has no issue exactly when it is at least 1 |
| Validations.ParseForm | src/lib/validations.ts:7-65 | a form parses exactly when every field rule holds; the value holds the trimmed name and summary and the status as a value; a failure lists every issue, in field order |
| Validations.UpdateSchemaIsWeaker | src/lib/validations.ts:44-65 | the edit schema accepts every form the create schema accepts, and also past dates |
| Validations.FirstMessage | src/lib/validations.ts:78 | there is a message exactly when there is an issue |
| Validations.ValidateProjectName | src/lib/validations.ts:72-82 | null exactly for names of 3 to 100 characters; "" is "required", 1 or 2 characters "at least 3", over 100 "less than 100" |
| Validations.ValidateSummary | src/lib/validations.ts:103-113 | null exactly for summaries of 10 to 500 characters; "" is "required", 1 to 9 characters "at least 10", over 500 "less than 500" |
| Validations.ValidateDueDate | src/lib/validations.ts:84-101 | "" is always "required"; when editing any other string passes; when creating a non-empty date fails exactly when it is in the past |
| Validations.ValidatorsAgreeWithSchema | src/lib/validations.ts:72-113 | each single-field validator passes exactly when the form schema reports no issue for that field |
| Validations.FormatValidationError | src/lib/validations.ts:116-128 | the loop builds the dictionary `ErrorMap` defines |
| Validations.ErrorMapIsLastIssue | src/lib/validations.ts:121-125 | the keys are exactly the first path segments of the issues, and each key holds the message of the last issue under it |
| Validations.EmptyNameInForm | src/lib/validations.ts:121-125 | for an empty name, the map `formatValidationError` builds holds "at least 3 characters" under "name", while `validateProjectName` says "required" |
| QueryPolicy.QueryRetry | src/app/providers/QueryProvider.tsx:17-38 | a query is retried exactly while its failures are fewer than its budget: one for timeouts, none for 4xx, two otherwise |
| QueryPolicy.MutationRetry | src/app/providers/QueryProvider.tsx:42-63 | a mutation is retried exactly while its failures are fewer than its budget: none for timeouts or 4xx, one otherwise |
| QueryPolicy.RetryBounds | src/app/providers/QueryProvider.tsx:17-63 | retrying stops for good once it stops; queries retry at most twice and mutations at most once; a mutation is never retried where a query would not be |
| QueryPolicy.TimeoutBeforeClientError | src/app/providers/QueryProvider.tsx:22-35 | a timeout message wins over a 4xx status, and a 4xx status alone prevents a retry |
| QueryPolicy.QueryRetryDelay | src/app/providers/QueryProvider.tsx:39 | the delay is between 1 and 10 seconds |
| QueryPolicy.QueryRetryDelayShape | src/app/providers/QueryProvider.tsx:39 | the delay never decreases, doubles up to the fourth attempt and is 10 seconds from then on |
| Api.Classify | src/lib/api.ts:40-59 | the five branches in order, each holding exactly when its own test passes and every earlier one failed: timeout code with "timeout" in the message, network-error code, a truthy server error text, a non-empty own message, and none of these |
| Api.ProjectErrorMessage | src/lib/api.ts:40-59 | the thrown message is never empty and is exactly the timeout text, the network text, the server's text, the error's own message, or "An error occurred", by branch |
| Api.UsersErrorMessage | src/lib/api.ts:129-148 | the thrown message is never empty and is exactly the users' timeout text, the users' network text, the server's text, "User data error: " and the own message, or "Failed to fetch users", by branch |
| Api.Intercept | src/lib/api.ts:37-71 | success passes the response through unchanged; failure is always a rejection with no status whose message is exactly the project or the users chain's text for that failure, never empty |
| Api.InterceptorsAgree | src/lib/api.ts:129-148 | the two interceptors give the same text exactly when the server supplied it |
| Api.TimedOutInside | src/lib/api.ts:44-45 | a text with "timed out" inside contains "timed out" |
| Api.TimeoutMessagesAreTimeouts | src/lib/api.ts:44-45 | both timeout texts are recognised as timeouts by the retry policies |
| Api.RetryAfterIntercept | src/lib/api.ts:69 | an intercepted error never counts as a 4xx; a timeout gets one query retry, and any other error without a timeout text gets two query retries and one mutation retry |
| Api.UpdatePayload | src/lib/api.ts:98-104 | the payload has exactly the five editable fields and no id |
| Api.ProjectPath | src/lib/api.ts:107 | the id is carried only in the path after "/projects/" |
| Api.UpdateRequestRoundTrip | src/lib/api.ts:98-109 | reading path and payload back gives the original update request |
| Api.GetUsers | src/lib/api.ts:194-199 | one user per directory record, in order, with its id, name, username and email |
| Api.GetUsersForgetsExtras | src/lib/api.ts:194-199 | records that agree on the four kept fields give the same users |
| Users.UsersListKey | src/hooks/useUsers.ts:5-8 | the list key is ["users", "list"] and extends the root key |
| Users.UsersRetry | src/hooks/useUsers.ts:17 | the user query is retried after its first, second and third failure and never after that |
| Users.UsersRetryDelay | src/hooks/useUsers.ts:18 | the delay is between 1 and 30 seconds |
| Users.UsersRetryDelayShape | src/hooks/useUsers.ts:18 | the delay never decreases, doubles up to the fifth attempt and is 30 seconds from then on; the three retries wait 1, 2 and 4 seconds |
| Users.FindUserIn | src/hooks/useUsers.ts:26 | finds nothing exactly when no user has the id, and otherwise the first user with it |
| Users.FindUser | src/hooks/useUsers.ts:23-32 | nothing while users are not loaded, otherwise the first match |
| Users.UserOptions | src/hooks/useUsers.ts:38-43 | one option per loaded user in order, carrying id, name and email; none while not loaded |
| Users.OptionsAgreeWithLookup | src/hooks/useUsers.ts:26-43 | the picker offers an id exactly when looking it up finds a user |
| Users.FindInFetched | src/hooks/useUsers.ts:26 | looking up a fetched user gives the projection of the first directory record with that id |
| ProjectCard.StatusVariant | src/components/ProjectCard.tsx:37-48 | "default" exactly for Completed, "secondary" exactly for In Progress, "outline" for To-Do and anything else |
| ProjectCard.StatusColor | src/components/ProjectCard.tsx:51-62 | green for Completed, blue for In Progress, the muted class for To-Do and anything else |
| ProjectCard.BadgesDistinguishStatuses | src/components/ProjectCard.tsx:37-62 | distinct statuses get distinct variants, and To-Do looks like an unknown status |
| ProjectCard.IsOverdue | src/components/ProjectCard.tsx:65-68 | overdue exactly when not completed and now is strictly after a due date that parses |
| ProjectCard.OverdueIsPersistent | src/components/ProjectCard.tsx:65-68 | an overdue card stays overdue as time passes, and a completed one never is |
| ProjectCard.FormatDate | src/components/ProjectCard.tsx:77-83 | the input string is shown unchanged when formatting fails |
| ProjectCard.UpdatedLineAfterEdit | src/components/ProjectCard.tsx:193-195 | an edit that changes nothing does not change whether "Updated" is shown; one that changes a field shows it unless the clock reads the creation time |
| ProjectCard.ShowsUpdated | src/components/ProjectCard.tsx:193-195 | the "Updated" line is shown exactly when updatedAt differs from createdAt |
| ProjectCard.NewRecordShowsUpdated | src/app/api/projects/route.ts:64-65 | a new server record, or a new optimistic placeholder, shows "Updated" without any edit exactly when its two clock readings differ |
| ProjectCard.AssignedUserLine | src/components/ProjectCard.tsx:177-185 | a placeholder exactly while loading, then the user's name when found and "User not found" otherwise |
| ProjectCard.UserLineText | src/components/ProjectCard.tsx:177-185 | nothing while loading, the user's name when found, "User not found" otherwise; the text is empty only while loading or for an empty name |
| ProjectCard.SameCard | src/components/ProjectCard.tsx:202-207 | the card is kept exactly when id and updatedAt are unchanged; an identical record is always kept |
| ProjectCard.SameCardIsEquivalence | src/components/ProjectCard.tsx:202-207 | the memo comparator is reflexive, symmetric and transitive |
| ProjectCard.OptimisticEditRerender | src/components/ProjectCard.tsx:202-207 | a no-change edit skips the re-render; an edit with changes re-renders exactly when the clock reading differs from the old updatedAt |
| Toast.ToastMessage | src/hooks/use-toast.ts:11-13 | both parts present gives title, line break, description; one present gives that one; none gives "" |
| Toast.ToastChannel | src/hooks/use-toast.ts:15-19 | the error call is made exactly for the destructive variant, the success call otherwise, a missing variant included |
| Toast.ShowToast | src/hooks/use-toast.ts:10-19 | an error notice is raised exactly for the destructive variant; the text is empty exactly when there is neither title nor description, and begins with the title when there is one |
| Toast.ToastMessageShape | src/hooks/use-toast.ts:11-13 | the text is empty exactly when neither part is present, and it begins with the title when there is one |

## Left out

- The `/projects/{id}` handlers (PUT and DELETE): src/app/api/projects/[id]/route.ts is not part of this model. So server-side update and the 404 path are not modelled.
- Project status: a POST body whose status is any truthy value other than the three labels is accepted by the server, but the model's status has only the three values. Fields of the wrong JSON type are not represented either.
- ProjectsRoute.NewProject: the created record is `{...body, id, createdAt, updatedAt}` (src/app/api/projects/route.ts:61-66). Any extra keys the client sends are spread into the stored and returned record. The model's body has only the project's own fields, so extra keys are not represented.
- ProjectsRoute.HasRequiredFields: `assignedTo` is any truthy JSON number. A non-integer such as 0.5 passes the check and is stored as sent. The model's `assignedTo` is an integer, so such values are not represented.
- ProjectsRoute.Post: the simulated delay, the real JSON parser and the random draws are inputs. Only "the body could not be parsed" is represented.
- DataStore.ProjectStore.GetProjects: returns the list as a value. Aliasing of the live array, which callers could mutate, is not modelled.
- The query library's machinery is not modelled: cancelling and invalidating queries, refetch scheduling, stale times, and a stale fetch overtaking a newer one. The phases of each mutation run one after another; a refetch is `Cache.Fetched`.
- The plain `useCreateProject` hook only invalidates the list, so it has no cache updater of its own. The success handlers of the plain and optimistic update hooks are the same updater (`Cache.UpdateSucceeded`).
- ProjectsCache.OptimisticUpdate: one clock reading is used for every record that matches the id. The source reads the clock once per matching record.
- ProjectList.FilteredProjects: lower-casing covers ASCII letters only; Unicode case mapping is not modelled.
- Validations.NameIssues, Validations.SummaryIssues: lengths are counted in characters, not UTF-16 code units. The checks run on the string before it is trimmed.
- Validations.StatusIssues: the enum message uses the schema library's wording, which the source does not spell out.
- Validations.ValidateDueDate: the comparison with the start of today is the input `notPast`. Date parsing is not modelled.
- The validators' "not a schema error" branch, and the fallback for an empty first message, cannot be reached with string inputs. They are kept as written but no property is stated about them.
- Users.UsersRetry: a numeric `retry` setting is read as "retry while fewer failures than the setting". That is the query library's rule, not code in this repository.
- ProjectCard.IsOverdue: date parsing and the current time are inputs.
- ProjectCard.FormatDate: date formatting is an input.
- The HTTP transport, request logging, interceptor registration, `process.env` checks and base URLs are not modelled. The functions that unwrap `response.data.data` are not modelled either.
- Rendering, layout, dialogs and form widgets are not modelled. The notification library call is represented by its channel and text.
