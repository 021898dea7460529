/** The admin's user list: the role label, the role change and delete handlers with the
    list updates they make after the server agrees, and the rows' admin gating. */
module AllUsers {
  import opened Common
  import opened JsNumber
  import opened Lists

  datatype User = User(
    id: int,
    email: string,
    name: string,
    role: Role,
    password: string,
    createdAt: string,
    updatedAt: string)

  /** `toUpperCase` on one character, for the ASCII letters. */
  function UpperAscii(c: char): (u: char)
    ensures 'a' <= c <= 'z' ==> u as int == c as int - 32
    ensures !('a' <= c <= 'z') ==> u == c
  {
    if 'a' <= c <= 'z' then (c as int - 32) as char else c
  }

  /** `displayRole`: staff shows as Runner; any other role with its first character
      upper-cased and the rest as it is. */
  function DisplayRole(role: string): (shown: string)
    ensures role == "staff" ==> shown == "Runner"
    ensures role != "staff" ==> |shown| == |role|
    ensures role != "staff" && role != "" ==> shown[0] == UpperAscii(role[0]) && shown[1..] == role[1..]
  {
    if role == "staff" then "Runner"
    else if role == "" then ""
    else [UpperAscii(role[0])] + role[1..]
  }

  /** The labels the three roles get. */
  lemma RoleLabels()
    ensures DisplayRole(RoleName(Staff)) == "Runner"
    ensures DisplayRole(RoleName(Manager)) == "Manager"
    ensures DisplayRole(RoleName(Admin)) == "Admin"
  {
  }

  /** `users.map(user => user.id === userId ? { ...user, role: newRole } : user)` */
  function WithRole(users: seq<User>, userId: int, newRole: Role): (updated: seq<User>)
    ensures |updated| == |users|
    ensures forall i :: 0 <= i < |users| && users[i].id == userId ==> updated[i] == users[i].(role := newRole)
    ensures forall i :: 0 <= i < |users| && users[i].id != userId ==> updated[i] == users[i]
  {
    if users == [] then []
    else [if users[0].id == userId then users[0].(role := newRole) else users[0]]
         + WithRole(users[1..], userId, newRole)
  }

  /** Ids are unique within the list. */
  predicate UniqueIds(users: seq<User>) {
    forall i, j :: 0 <= i < j < |users| ==> users[i].id != users[j].id
  }

  predicate SameExceptRole(a: User, b: User) {
    a.id == b.id && a.email == b.email && a.name == b.name && a.password == b.password
    && a.createdAt == b.createdAt && a.updatedAt == b.updatedAt
  }

  /** After a role change the target holds the new role, every id stays where it was, and
      nothing but the target's role differs. */
  lemma RoleChangeOnlyTouchesTarget(users: seq<User>, userId: int, newRole: Role)
    ensures var r := WithRole(users, userId, newRole);
            && (forall u :: u in r && u.id == userId ==> u.role == newRole)
            && (forall i :: 0 <= i < |r| ==> SameExceptRole(r[i], users[i]))
            && (forall i :: 0 <= i < |r| && r[i] != users[i] ==> users[i].id == userId)
  {
  }

  /** Changing a user's role and then changing it back restores the list. */
  lemma RoleChangeUndone(users: seq<User>, k: nat, newRole: Role)
    requires k < |users| && UniqueIds(users)
    ensures WithRole(WithRole(users, users[k].id, newRole), users[k].id, users[k].role) == users
  {
  }

  /** The test `users.filter` applies when deleting. */
  function KeepsUnless(userId: int): User -> bool {
    (user: User) => user.id != userId
  }

  function WithoutUser(users: seq<User>, userId: int): seq<User> {
    Filter(users, KeepsUnless(userId))
  }

  /** After a delete no user with that id is left, every other user is kept as often as
      before, and the kept users keep their relative order. */
  lemma DeleteRemovesOnlyTarget(users: seq<User>, userId: int, before: seq<User>, after: seq<User>)
    requires users == before + after
    ensures forall u :: u in WithoutUser(users, userId) ==> u.id != userId
    ensures forall u :: multiset(WithoutUser(users, userId))[u] == if u.id == userId then 0 else multiset(users)[u]
    ensures WithoutUser(users, userId) == WithoutUser(before, userId) + WithoutUser(after, userId)
  {
    forall u ensures multiset(WithoutUser(users, userId))[u] == if u.id == userId then 0 else multiset(users)[u] {
      FilterCount(users, KeepsUnless(userId), u);
    }
    FilterConcat(before, after, KeepsUnless(userId));
  }

  /** Deleting an id nobody has leaves the list as it is. */
  lemma DeleteAbsentIsNoOp(users: seq<User>, userId: int)
    requires forall i :: 0 <= i < |users| ==> users[i].id != userId
    ensures WithoutUser(users, userId) == users
  {
    FilterKeepsAll(users, KeepsUnless(userId));
  }

  /** A row of the table; admins get neither the role selector nor the Delete button. */
  datatype UserRow = UserRow(email: string, name: string, roleLabel: string, roleSelector: bool, deleteButton: bool)

  function RowOf(user: User): (row: UserRow)
    ensures row.roleSelector <==> user.role != Admin
    ensures row.deleteButton <==> user.role != Admin
    ensures row.roleLabel == DisplayRole(RoleName(user.role))
  {
    UserRow(user.email, user.name, DisplayRole(RoleName(user.role)), user.role != Admin, user.role != Admin)
  }

  datatype Screen = LoadingUsers | UsersError(message: string) | UsersTable(rows: seq<UserRow>)

  const FetchErrorMessage := "Failed to fetch users"
  const RoleUpdatedMessage := "User role updated successfully!"
  const RoleUpdateFallback := "Failed to update user role"
  const DeletedMessage := "User deleted successfully!"
  const DeleteFallback := "Failed to delete user"

  function RoleChangePath(userId: int): string {
    "admin/" + IntToString(userId) + "/change-userrole"
  }

  function DeletePath(userId: int): string {
    "/admin/" + IntToString(userId)
  }

  class AllUsersPage {
    var users: seq<User>
    var loading: bool
    var error: string
    var trace: seq<Effect>

    constructor ()
      ensures users == [] && loading && error == "" && trace == []
    {
      users := [];
      loading := true;
      error := "";
      trace := [];
    }

    /** Loading is checked before the error; the table has one row per user, in order. */
    function View(): (screen: Screen)
      reads this
      ensures loading ==> screen == LoadingUsers
      ensures !loading && error != "" ==> screen == UsersError(error)
      ensures !loading && error == "" ==>
                && screen.UsersTable? && |screen.rows| == |users|
                && forall i :: 0 <= i < |users| ==> screen.rows[i] == RowOf(users[i])
    {
      if loading then LoadingUsers
      else if error != "" then UsersError(error)
      else UsersTable(seq(|users|, i requires 0 <= i < |users| reads this => RowOf(users[i])))
    }

    /** The mount effect once `GET /users` settles. */
    method ReceiveUsers(response: Outcome<seq<User>>)
      modifies this
      ensures !loading
      ensures response.Ok? ==> users == response.data && error == old(error) && trace == old(trace)
      ensures response.Fail? ==>
                && users == old(users) && error == FetchErrorMessage
                && trace == old(trace) + [ToastError(NonEmptyMessageIfError(response.failure, FetchErrorMessage))]
      ensures response.Fail? ==> View() == UsersError(FetchErrorMessage)
    {
      match response
      case Ok(list) =>
        users := list;
        loading := false;
      case Fail(f) =>
        error := FetchErrorMessage;
        trace := trace + [ToastError(NonEmptyMessageIfError(f, FetchErrorMessage))];
        loading := false;
    }

    /** `handleRoleChange`: the PUT, then on success a toast and the role updated in place;
        on failure only a toast. */
    method ChangeRole(userId: int, newRole: Role, response: Outcome<()>)
      modifies this`users, this`trace
      ensures response.Ok? ==>
                && users == WithRole(old(users), userId, newRole)
                && trace == old(trace) + [Request(Put, RoleChangePath(userId), RoleBody(newRole)),
                                          ToastSuccess(RoleUpdatedMessage)]
      ensures response.Fail? ==>
                && users == old(users)
                && trace == old(trace) + [Request(Put, RoleChangePath(userId), RoleBody(newRole)),
                                          ToastError(NonEmptyMessageIfError(response.failure, RoleUpdateFallback))]
    {
      trace := trace + [Request(Put, RoleChangePath(userId), RoleBody(newRole))];
      match response
      case Ok(_) =>
        trace := trace + [ToastSuccess(RoleUpdatedMessage)];
        users := WithRole(users, userId, newRole);
      case Fail(f) =>
        trace := trace + [ToastError(NonEmptyMessageIfError(f, RoleUpdateFallback))];
    }

    /** `handleDeleteUser`: the DELETE, then on success a toast and the user filtered out;
        on failure only a toast. */
    method DeleteUser(userId: int, response: Outcome<()>)
      modifies this`users, this`trace
      ensures response.Ok? ==>
                && users == WithoutUser(old(users), userId)
                && trace == old(trace) + [Request(Delete, DeletePath(userId), NoBody), ToastSuccess(DeletedMessage)]
      ensures response.Fail? ==>
                && users == old(users)
                && trace == old(trace) + [Request(Delete, DeletePath(userId), NoBody),
                                          ToastError(NonEmptyMessageIfError(response.failure, DeleteFallback))]
    {
      trace := trace + [Request(Delete, DeletePath(userId), NoBody)];
      match response
      case Ok(_) =>
        trace := trace + [ToastSuccess(DeletedMessage)];
        users := WithoutUser(users, userId);
      case Fail(f) =>
        trace := trace + [ToastError(NonEmptyMessageIfError(f, DeleteFallback))];
    }
  }
}
