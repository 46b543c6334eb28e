/** The HTTP client layer (src/lib/api.ts): how the two response
    interceptors turn a failed request into the message of the error they
    throw, the request the project update sends, and the projection of the
    external user directory onto `User`. The transport itself is not
    modelled: a request's outcome is an input. */
module Api {
  import opened Common
  import opened Types
  import QueryPolicy

  /** What the interceptors read from a failed request: the error code,
      the error's own message, and the `error` field of the response body
      when there is a response carrying one. */
  datatype RequestFailure = RequestFailure(code: Option<string>, message: string, bodyError: Option<string>)

  /** The outcome of a request as the response interceptor sees it. */
  datatype Outcome<R> = Succeeded(response: R) | Failed(failure: RequestFailure)

  /** What the interceptor hands on: the response unchanged, or the thrown
      error (a fresh `Error` with only a message). */
  datatype Settled<R> = Resolved(response: R) | Rejected(error: QueryPolicy.RequestError)

  /** Which branch of the interceptors' priority chain a failure takes. */
  datatype FailureKind = TimedOut | NetworkDown | ServerReported | OwnMessage | Unexplained

  /** The chain, first match wins: an ECONNABORTED code with "timeout" in
      the message; an ERR_NETWORK code; a non-empty `error` field in the
      response body; a non-empty message; nothing usable. */
  function Classify(f: RequestFailure): (k: FailureKind)
    // Each kind holds exactly when its own test passes and every earlier
    // test in the chain failed.
    ensures k == TimedOut <==> f.code == Some("ECONNABORTED") && Contains(f.message, "timeout")
    ensures k == NetworkDown <==>
      !(f.code == Some("ECONNABORTED") && Contains(f.message, "timeout")) && f.code == Some("ERR_NETWORK")
    ensures k == ServerReported <==>
      !(f.code == Some("ECONNABORTED") && Contains(f.message, "timeout")) && f.code != Some("ERR_NETWORK")
      && Truthy(f.bodyError)
    ensures k == OwnMessage <==>
      !(f.code == Some("ECONNABORTED") && Contains(f.message, "timeout")) && f.code != Some("ERR_NETWORK")
      && !Truthy(f.bodyError) && f.message != ""
    ensures k == Unexplained <==>
      !(f.code == Some("ECONNABORTED") && Contains(f.message, "timeout")) && f.code != Some("ERR_NETWORK")
      && !Truthy(f.bodyError) && f.message == ""
  {
    if f.code == Some("ECONNABORTED") && Contains(f.message, "timeout") then TimedOut
    else if f.code == Some("ERR_NETWORK") then NetworkDown
    else if Truthy(f.bodyError) then ServerReported
    else if f.message != "" then OwnMessage
    else Unexplained
  }

  // The timeout texts are written in pieces so that the words "timed out"
  // inside them are visible to the proofs below.
  const ProjectTimeoutMessage := "Request " + "timed out" + ". The server may be busy. Please try again."
  const ProjectNetworkMessage := "Network error. Please check your connection and try again."
  const ProjectDefaultMessage := "An error occurred"
  const UsersTimeoutMessage := "Request " + "timed out" + " while fetching user data. Please try again."
  const UsersNetworkMessage := "Network error while fetching user data. Please check your connection."
  const UsersDefaultMessage := "Failed to fetch users"

  /** The message the project API's interceptor throws. */
  function ProjectErrorMessage(f: RequestFailure): (r: string)
    ensures r != ""
    ensures Classify(f) == TimedOut ==> r == ProjectTimeoutMessage
    ensures Classify(f) == NetworkDown ==> r == ProjectNetworkMessage
    ensures Classify(f) == ServerReported ==> r == f.bodyError.value
    ensures Classify(f) == OwnMessage ==> r == f.message
    ensures Classify(f) == Unexplained ==> r == ProjectDefaultMessage
  {
    match Classify(f)
    case TimedOut => ProjectTimeoutMessage
    case NetworkDown => ProjectNetworkMessage
    case ServerReported => f.bodyError.value
    case OwnMessage => f.message
    case Unexplained => ProjectDefaultMessage
  }

  /** The message the user directory's interceptor throws: the same chain
      with its own texts, its own default, and the error's message under a
      "User data error: " prefix. */
  function UsersErrorMessage(f: RequestFailure): (r: string)
    ensures r != ""
    ensures Classify(f) == TimedOut ==> r == UsersTimeoutMessage
    ensures Classify(f) == NetworkDown ==> r == UsersNetworkMessage
    ensures Classify(f) == ServerReported ==> r == f.bodyError.value
    ensures Classify(f) == OwnMessage ==> r == "User data error: " + f.message
    ensures Classify(f) == Unexplained ==> r == UsersDefaultMessage
  {
    match Classify(f)
    case TimedOut => UsersTimeoutMessage
    case NetworkDown => UsersNetworkMessage
    case ServerReported => f.bodyError.value
    case OwnMessage => "User data error: " + f.message
    case Unexplained => UsersDefaultMessage
  }

  /** A response interceptor: success passes through untouched, failure
      always becomes a rejection with the chosen message and no status. */
  function Intercept<R>(outcome: Outcome<R>, forUsers: bool): (s: Settled<R>)
    ensures outcome.Succeeded? <==> s.Resolved?
    ensures outcome.Succeeded? ==> s.response == outcome.response
    ensures outcome.Failed? ==> s.error.status.None? && s.error.message.Some? && s.error.message.value != ""
    ensures outcome.Failed? ==> s.error == QueryPolicy.RequestError(
      Some(if forUsers then UsersErrorMessage(outcome.failure) else ProjectErrorMessage(outcome.failure)), None)
  {
    match outcome
    case Succeeded(response) => Resolved(response)
    case Failed(f) =>
      var message := if forUsers then UsersErrorMessage(f) else ProjectErrorMessage(f);
      Rejected(QueryPolicy.RequestError(Some(message), None))
  }

  /** The two interceptors classify every failure the same way; they
      differ only in wording. */
  lemma InterceptorsAgree(f: RequestFailure)
    ensures ProjectErrorMessage(f) == UsersErrorMessage(f) <==> Classify(f) == ServerReported
  {
  }

  /** "timed out" placed between two texts is contained in the result. */
  lemma TimedOutInside(before: string, after: string)
    ensures Contains(before + "timed out" + after, "timed out")
  {
    var text := before + "timed out" + after;
    assert text[|before|..|before| + 9] == "timed out";
    assert OccursAt(text, "timed out", |before|);
    ContainsIffOccurs(text, "timed out");
  }

  /** Both timeout texts are recognised as timeouts by the retry policies. */
  lemma TimeoutMessagesAreTimeouts()
    ensures Contains(ProjectTimeoutMessage, "timed out")
    ensures Contains(UsersTimeoutMessage, "timed out")
  {
    TimedOutInside("Request ", ". The server may be busy. Please try again.");
    TimedOutInside("Request ", " while fetching user data. Please try again.");
  }

  /** The thrown error keeps no HTTP status, so the retry policies' 4xx
      rule never applies to errors from these clients: a 404 reported by
      the server is retried like any other failure (twice as a query, once
      as a mutation), and only the timeout texts, which mention "timed
      out", limit a query to one retry. */
  lemma RetryAfterIntercept<R>(outcome: Outcome<R>, forUsers: bool)
    requires outcome.Failed?
    ensures var e := Intercept(outcome, forUsers).error;
      && !QueryPolicy.IsClientError(e)
      && (Classify(outcome.failure) == TimedOut ==> QueryPolicy.QueryRetryBudget(e) == 1)
      && (Classify(outcome.failure) != TimedOut && !QueryPolicy.IsTimeout(e) ==>
            QueryPolicy.QueryRetryBudget(e) == 2 && QueryPolicy.MutationRetryBudget(e) == 1)
  {
    TimeoutMessagesAreTimeouts();
  }

  // -----------------------------------------------------------------------
  // The update request
  // -----------------------------------------------------------------------

  /** A JSON value of the payload. */
  datatype Json = JString(text: string) | JNumber(number: int)

  const PayloadKeys: set<string> := {"name", "status", "dueDate", "assignedTo", "summary"}

  /** The body `updateProject` sends: the five editable fields. */
  function UpdatePayload(req: UpdateProjectRequest): (body: map<string, Json>)
    ensures body.Keys == PayloadKeys && "id" !in body
  {
    map["name" := JString(req.name),
        "status" := JString(StatusLabel(req.status)),
        "dueDate" := JString(req.dueDate),
        "assignedTo" := JNumber(req.assignedTo),
        "summary" := JString(req.summary)]
  }

  /** The path `updateProject` and `deleteProject` address: the id goes
      only here. */
  function ProjectPath(id: string): (path: string)
    ensures IsPrefix("/projects/", path) && path[|"/projects/"|..] == id
  {
    "/projects/" + id
  }

  /** How a receiver reads a project update back from path and body. */
  function DecodeUpdate(path: string, body: map<string, Json>): Option<UpdateProjectRequest>
  {
    if !IsPrefix("/projects/", path) then None
    else if !(PayloadKeys <= body.Keys) then None
    else if !(body["name"].JString? && body["status"].JString? && body["dueDate"].JString?
              && body["assignedTo"].JNumber? && body["summary"].JString?) then None
    else
      var status := ParseStatus(body["status"].text);
      if status.None? then None
      else Some(UpdateProjectRequest(path[|"/projects/"|..], body["name"].text, status.value,
                                     body["dueDate"].text, body["assignedTo"].number, body["summary"].text))
  }

  /** Path and payload together carry the whole request and nothing more. */
  lemma UpdateRequestRoundTrip(req: UpdateProjectRequest)
    ensures DecodeUpdate(ProjectPath(req.id), UpdatePayload(req)) == Some(req)
  {
  }

  // -----------------------------------------------------------------------
  // The user directory
  // -----------------------------------------------------------------------

  datatype Geo = Geo(lat: string, lng: string)
  datatype Address = Address(street: string, suite: string, city: string, zipcode: string, geo: Geo)
  datatype Company = Company(name: string, catchPhrase: string, bs: string)

  /** One record of the external directory. */
  datatype PlaceholderUser = PlaceholderUser(
    id: int, name: string, username: string, email: string,
    address: Address, phone: string, website: string, company: Company)

  /** `getUsers`: each directory record cut down to id, name, username
      and email, in order. */
  function GetUsers(raw: seq<PlaceholderUser>): (users: seq<User>)
    ensures |users| == |raw|
    ensures forall i :: 0 <= i < |raw| ==>
      users[i] == User(raw[i].id, raw[i].name, raw[i].username, raw[i].email)
  {
    if raw == [] then []
    else [User(raw[0].id, raw[0].name, raw[0].username, raw[0].email)] + GetUsers(raw[1..])
  }

  /** Two directory records that agree on the four kept fields give the
      same user: the projection forgets the address, phone, website and
      company. */
  lemma GetUsersForgetsExtras(a: seq<PlaceholderUser>, b: seq<PlaceholderUser>)
    requires |a| == |b|
    requires forall i :: 0 <= i < |a| ==>
      a[i].id == b[i].id && a[i].name == b[i].name && a[i].username == b[i].username && a[i].email == b[i].email
    ensures GetUsers(a) == GetUsers(b)
  {
  }
}
