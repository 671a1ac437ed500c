/** The user administration page: the role filter, the role change with its
    self-edit guard, and the delete with its self guard and conflict
    notice. Answers of the API are inputs. */
module AdminUsers {
  import opened Common

  /** The role selector; `AllRoles` is the "all" sentinel. */
  datatype RoleFilter = AllRoles | OnlyRole(role: UserType)

  const SelfRoleChange := "Você não pode alterar seu próprio tipo."
  const RoleChangeFailed := "Não foi possível atualizar o tipo."
  const SelfDelete := "Você não pode deletar a si mesmo."
  const UserDeleted := "Usuário deletado com sucesso."
  const UserHasOrders := "Não é possível deletar: este usuário possui pedidos cadastrados."
  const DeleteFailed := "Não foi possível deletar o usuário."

  function RoleName(role: UserType): string {
    match role
    case Client => "CLIENT"
    case Admin => "ADMIN"
  }

  function RoleChanged(role: UserType): string {
    "Tipo do usuário " + RoleName(role) + " atualizado com sucesso!"
  }

  /** `userId === adminUser?.id`: never true when nobody is signed in. */
  predicate IsSelf(admin: Option<User>, userId: string) {
    admin.Some? && admin.value.id == userId
  }

  /** `users.map(u => u.id === userId ? {...u, type: role} : u)` */
  function WithRole(users: seq<User>, userId: string, role: UserType): (r: seq<User>)
    ensures |r| == |users|
    ensures forall k :: 0 <= k < |users| && users[k].id == userId ==> r[k] == users[k].(userType := role)
    ensures forall k :: 0 <= k < |users| && users[k].id != userId ==> r[k] == users[k]
  {
    seq(|users|, k requires 0 <= k < |users| =>
      if users[k].id == userId then users[k].(userType := role) else users[k])
  }

  /** The filter `roleFilter === 'all' || user.type === roleFilter`. */
  function FilteredUsers(users: seq<User>, filter: RoleFilter): (r: seq<User>)
    ensures |r| <= |users|
  {
    if users == [] then []
    else if filter.AllRoles? || users[0].userType == filter.role
    then [users[0]] + FilteredUsers(users[1..], filter)
    else FilteredUsers(users[1..], filter)
  }

  /** `fetchUsers`: the list the server answers with, or the current list
      when the request fails. */
  function Reloaded(users: seq<User>, response: Response<seq<User>>): seq<User> {
    match response
    case Ok(data) => data
    case Failed(_) => users
  }

  datatype HandlerOutcome<B> = HandlerOutcome(request: Option<Request<B>>, users: seq<User>, toast: Toast)

  /** `handleRoleChange`. A failed update does not edit the list: it is
      reloaded instead. */
  function RoleChange(admin: Option<User>, users: seq<User>, userId: string, role: UserType,
                      put: Response<()>, reload: Response<seq<User>>): HandlerOutcome<UserType>
  {
    if IsSelf(admin, userId) then HandlerOutcome(None, users, ErrorToast(SelfRoleChange))
    else
      var request := Some(Put("/users/" + userId, role));
      match put
      case Ok(_) => HandlerOutcome(request, WithRole(users, userId, role), SuccessToast(RoleChanged(role)))
      case Failed(_) => HandlerOutcome(request, Reloaded(users, reload), ErrorToast(RoleChangeFailed))
  }

  /** `handleDelete`; `confirmed` is the answer to the confirmation dialog.
      The request is a DELETE of the path carried in the outcome. */
  function DeleteUser(admin: Option<User>, users: seq<User>, userId: string, confirmed: bool,
                  response: Response<()>, reload: Response<seq<User>>): HandlerOutcome<()>
  {
    if IsSelf(admin, userId) then HandlerOutcome(None, users, ErrorToast(SelfDelete))
    else if !confirmed then HandlerOutcome(None, users, NoToast)
    else
      var request := Some(Delete("/users/" + userId));
      match response
      case Ok(_) => HandlerOutcome(request, Reloaded(users, reload), SuccessToast(UserDeleted))
      case Failed(e) =>
        HandlerOutcome(request, users, ErrorToast(if HasStatus(e, 409) then UserHasOrders else DeleteFailed))
  }

  // ---------------------------------------------------------------------

  /** A role change aimed at the signed-in admin sends nothing and changes
      nothing. */
  lemma RoleChangeSelfGuard(admin: User, users: seq<User>, role: UserType,
                            put: Response<()>, reload: Response<seq<User>>)
    ensures var o := RoleChange(Some(admin), users, admin.id, role, put, reload);
      o.request == None && o.users == users && o.toast == ErrorToast(SelfRoleChange)
  {
  }

  /** A successful role change gives the new role to exactly the users with
      that id; every other user, and the length and order, are kept. */
  lemma RoleChangeSucceeds(admin: Option<User>, users: seq<User>, userId: string, role: UserType,
                           reload: Response<seq<User>>)
    requires !IsSelf(admin, userId)
    ensures var o := RoleChange(admin, users, userId, role, Ok(()), reload);
      && o.request == Some(Put("/users/" + userId, role))
      && |o.users| == |users|
      && (forall k :: 0 <= k < |users| && users[k].id == userId ==> o.users[k] == users[k].(userType := role))
      && (forall k :: 0 <= k < |users| && users[k].id != userId ==> o.users[k] == users[k])
  {
  }

  /** A failed role change leaves the list to the reload. */
  lemma RoleChangeFails(admin: Option<User>, users: seq<User>, userId: string, role: UserType,
                        e: ApiError, reload: Response<seq<User>>)
    requires !IsSelf(admin, userId)
    ensures var o := RoleChange(admin, users, userId, role, Failed(e), reload);
      && o.users == Reloaded(users, reload) && o.toast == ErrorToast(RoleChangeFailed)
      && (reload.Failed? ==> o.users == users)
  {
  }

  /** Deleting oneself sends nothing and shows the self notice, whatever
      the dialog and the server would answer; a declined dialog sends
      nothing; a confirmed delete sends DELETE `/users/{id}`, takes the
      reload on success, and on failure keeps the list with the "has orders"
      notice for 409 and the generic one otherwise. */
  lemma DeleteNotices(admin: Option<User>, users: seq<User>, userId: string, confirmed: bool,
                      response: Response<()>, reload: Response<seq<User>>)
    ensures IsSelf(admin, userId) ==>
      DeleteUser(admin, users, userId, confirmed, response, reload) == HandlerOutcome(None, users, ErrorToast(SelfDelete))
    ensures !IsSelf(admin, userId) ==>
      DeleteUser(admin, users, userId, false, response, reload) == HandlerOutcome(None, users, NoToast)
    ensures !IsSelf(admin, userId) ==>
      var o := DeleteUser(admin, users, userId, true, response, reload);
      && o.request == Some(Delete("/users/" + userId))
      && (response.Ok? ==> o.users == Reloaded(users, reload) && o.toast == SuccessToast(UserDeleted))
      && (response.Failed? ==> o.users == users)
      && (response.Failed? && HasStatus(response.error, 409) ==> o.toast == ErrorToast(UserHasOrders))
      && (response.Failed? && !HasStatus(response.error, 409) ==> o.toast == ErrorToast(DeleteFailed))
  {
  }

  /** The "all" filter keeps every user. */
  lemma {:induction false} FilterAllKeepsEveryone(users: seq<User>)
    ensures FilteredUsers(users, AllRoles) == users
  {
    if users != [] {
      FilterAllKeepsEveryone(users[1..]);
      assert users == [users[0]] + users[1..];
    }
  }

  /** A role filter keeps exactly the users of that role. */
  lemma {:induction false} FilterRoleMembers(users: seq<User>, role: UserType)
    ensures forall u :: u in FilteredUsers(users, OnlyRole(role)) <==> u in users && u.userType == role
  {
    if users != [] {
      FilterRoleMembers(users[1..], role);
      assert users == [users[0]] + users[1..];
    }
  }

  /** Filtering keeps the list's order: it commutes with concatenation. */
  lemma {:induction false} FilterConcat(a: seq<User>, b: seq<User>, filter: RoleFilter)
    ensures FilteredUsers(a + b, filter) == FilteredUsers(a, filter) + FilteredUsers(b, filter)
  {
    if a == [] {
      assert a + b == b;
    } else {
      assert (a + b)[0] == a[0];
      assert (a + b)[1..] == a[1..] + b;
      FilterConcat(a[1..], b, filter);
    }
  }

  // ---------------------------------------------------------------------

  class AdminUsersPage {
    var users: seq<User>
    var roleFilter: RoleFilter

    constructor ()
      ensures users == [] && roleFilter == AllRoles
    {
      users, roleFilter := [], AllRoles;
    }

    method FetchUsers(response: Response<seq<User>>)
      modifies this
      ensures users == Reloaded(old(users), response) && roleFilter == old(roleFilter)
    {
      if response.Ok? {
        users := response.data;
      }
    }

    method SetRoleFilter(filter: RoleFilter)
      modifies this
      ensures roleFilter == filter && users == old(users)
    {
      roleFilter := filter;
    }

    method HandleRoleChange(admin: Option<User>, userId: string, role: UserType,
                            put: Response<()>, reload: Response<seq<User>>)
      returns (request: Option<Request<UserType>>, toast: Toast)
      modifies this
      ensures var o := RoleChange(admin, old(users), userId, role, put, reload);
        request == o.request && toast == o.toast && users == o.users
      ensures roleFilter == old(roleFilter)
    {
      if admin.Some? && userId == admin.value.id {
        return None, ErrorToast(SelfRoleChange);
      }
      request := Some(Put("/users/" + userId, role));
      if put.Ok? {
        toast := SuccessToast(RoleChanged(role));
        users := WithRole(users, userId, role);
      } else {
        toast := ErrorToast(RoleChangeFailed);
        FetchUsers(reload);
      }
    }

    method HandleDelete(admin: Option<User>, userId: string, confirmed: bool,
                        response: Response<()>, reload: Response<seq<User>>)
      returns (request: Option<Request<()>>, toast: Toast)
      modifies this
      ensures var o := DeleteUser(admin, old(users), userId, confirmed, response, reload);
        request == o.request && toast == o.toast && users == o.users
      ensures roleFilter == old(roleFilter)
    {
      if admin.Some? && userId == admin.value.id {
        return None, ErrorToast(SelfDelete);
      }
      if !confirmed {
        return None, NoToast;
      }
      request := Some(Delete("/users/" + userId));
      match response {
        case Ok(_) =>
          toast := SuccessToast(UserDeleted);
          FetchUsers(reload);
        case Failed(e) =>
          if e.HttpError? && e.status == 409 {
            toast := ErrorToast(UserHasOrders);
          } else {
            toast := ErrorToast(DeleteFailed);
          }
      }
    }
  }
}
