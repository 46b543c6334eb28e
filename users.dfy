/** The user-directory hooks (src/hooks/useUsers.ts): the query keys, the
    query's retry settings, the lookup of one user by id and the options
    offered by the team-member picker. Each hook is modelled by what it
    computes from the loaded list (None while nothing is loaded). */
module Users {
  import opened Common
  import opened Types
  import Api

  /** `usersKeys.all` and `usersKeys.lists()`. */
  function UsersAllKey(): seq<string>
  {
    ["users"]
  }

  function UsersListKey(): (k: seq<string>)
    ensures IsPrefix(UsersAllKey(), k) && k == ["users", "list"]
  {
    UsersAllKey() + ["list"]
  }

  /** The query's numeric retry setting. */
  const UsersRetryCount := 3

  /** A numeric retry setting retries while fewer failures than it have
      occurred: the user query is retried after its first, second and third
      failure and then gives up. */
  function UsersRetry(failureCount: nat): (r: bool)
    ensures r <==> failureCount == 0 || failureCount == 1 || failureCount == 2
  {
    failureCount < UsersRetryCount
  }

  /** The query's `retryDelay`: `min(1000 * 2^attempt, 30000)`. */
  function UsersRetryDelay(attemptIndex: nat): (d: nat)
    ensures 1000 <= d <= 30000
  {
    Min(1000 * Pow2(attemptIndex), 30000)
  }

  /** The delay doubles from one second and saturates at thirty from the
      sixth attempt on; the three retries actually made wait 1, 2 and 4
      seconds. */
  lemma UsersRetryDelayShape(i: nat, j: nat)
    ensures i <= j ==> UsersRetryDelay(i) <= UsersRetryDelay(j)
    ensures i <= 4 ==> UsersRetryDelay(i) == 1000 * Pow2(i)
    ensures i >= 5 ==> UsersRetryDelay(i) == 30000
    ensures UsersRetryDelay(0) == 1000 && UsersRetryDelay(1) == 2000 && UsersRetryDelay(2) == 4000
  {
    if i <= j {
      Pow2Monotonic(i, j);
    }
    if i <= 4 {
      Pow2Monotonic(i, 4);
      assert Pow2(4) == 16;
    } else {
      Pow2Monotonic(5, i);
      assert Pow2(5) == 32;
    }
    assert Pow2(2) == 4;
  }

  /** The first user of `s` with id `userId`, if any. */
  function FindUserIn(s: seq<User>, userId: int): (r: Option<User>)
    ensures r.None? <==> forall i :: 0 <= i < |s| ==> s[i].id != userId
    ensures r.Some? ==> exists i :: 0 <= i < |s| && s[i] == r.value && r.value.id == userId
                          && forall j :: 0 <= j < i ==> s[j].id != userId
  {
    if s == [] then None
    else if s[0].id == userId then Some(s[0])
    else
      var r := FindUserIn(s[1..], userId);
      assert forall j :: 0 <= j < |s| - 1 ==> s[1..][j] == s[j + 1];
      r
  }

  /** `useUser(userId).data`: nothing while the list is not loaded,
      otherwise the first match. */
  function FindUser(users: Option<seq<User>>, userId: int): (r: Option<User>)
    ensures users.None? ==> r.None?
    ensures users.Some? ==> r == FindUserIn(users.value, userId)
  {
    if users.None? then None else FindUserIn(users.value, userId)
  }

  /** An entry of the team-member picker: `{ value, label, email }`, with
      `label` spelled `labelText` because `label` is a keyword here. */
  datatype UserOption = UserOption(value: int, labelText: string, email: string)

  /** `useUserOptions().options`: one entry per loaded user, in order;
      none while the list is not loaded. */
  function UserOptions(users: Option<seq<User>>): (r: seq<UserOption>)
    ensures |r| == |OrElse(users, [])|
    ensures forall i :: 0 <= i < |r| ==>
      r[i] == UserOption(users.value[i].id, users.value[i].name, users.value[i].email)
  {
    if users.None? then []
    else seq(|users.value|, i requires 0 <= i < |users.value| =>
               UserOption(users.value[i].id, users.value[i].name, users.value[i].email))
  }

  /** A picker entry exists for an id exactly when looking that id up finds
      a user, and the first such entry names that user. */
  lemma OptionsAgreeWithLookup(users: seq<User>, userId: int)
    ensures FindUser(Some(users), userId).Some? <==>
      exists i :: 0 <= i < |UserOptions(Some(users))| && UserOptions(Some(users))[i].value == userId
    ensures FindUser(Some(users), userId).Some? ==>
      exists i :: 0 <= i < |users| && UserOptions(Some(users))[i].labelText == FindUser(Some(users), userId).value.name
  {
    var options := UserOptions(Some(users));
    if FindUser(Some(users), userId).Some? {
      var i :| 0 <= i < |users| && users[i] == FindUser(Some(users), userId).value && users[i].id == userId;
      assert options[i].value == userId;
    }
  }

  /** Looking up a user in the fetched directory finds the projection of
      the first directory record with that id. */
  lemma {:induction false} FindInFetched(raw: seq<Api.PlaceholderUser>, userId: int)
    ensures var found := FindUser(Some(Api.GetUsers(raw)), userId);
      (found.None? <==> forall i :: 0 <= i < |raw| ==> raw[i].id != userId)
      && (found.Some? ==>
            exists i :: (0 <= i < |raw| && raw[i].id == userId
              && found.value == User(raw[i].id, raw[i].name, raw[i].username, raw[i].email)
              && forall j :: 0 <= j < i ==> raw[j].id != userId))
  {
  }
}
