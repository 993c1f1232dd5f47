/**
 * The user administration hook (`useUsersManagement`): the fetched accounts,
 * their role and e-mail filters, and creation, update and deletion.
 */
module UseUsers {
  import opened Wrappers
  import opened Schema
  import opened Http
  import opened Text
  import Seqs

  datatype UserFilters = UserFilters(role: Option<string>, search: Option<string>)

  const InitialUserFilters := UserFilters(None, None)

  /** The test `filteredUsers` applies to one account. */
  predicate UserMatches(f: UserFilters, u: UserRecord) {
    (Truthy(f.role) ==> u.role == f.role.value)
    && (Truthy(f.search) ==> Includes(ToLower(u.email), ToLower(f.search.value)))
  }

  /** `filteredUsers`: the accounts passing the filters in force, in their order. */
  function FilteredUsers(us: seq<UserRecord>, f: UserFilters): (r: seq<UserRecord>)
    ensures Seqs.IsSubsequence(r, us)
    ensures |r| == Seqs.CountIf(us, u => UserMatches(f, u))
    ensures forall i :: 0 <= i < |r| ==> Truthy(f.role) ==> r[i].role == f.role.value
    ensures forall i :: 0 <= i < |r| ==>
      Truthy(f.search) ==> Includes(ToLower(r[i].email), ToLower(f.search.value))
    ensures forall i :: 0 <= i < |us| && UserMatches(f, us[i]) ==> us[i] in r
  {
    Seqs.Filter(us, u => UserMatches(f, u))
  }

  /** With the initial filters every account is listed. */
  lemma InitialUserFiltersKeepAll(us: seq<UserRecord>)
    ensures FilteredUsers(us, InitialUserFilters) == us
  {
    Seqs.FilterAll(us, u => UserMatches(InitialUserFilters, u));
  }

  /** `prev.map(user => user._id === id ? updated : user)`. */
  function ReplaceUser(us: seq<UserRecord>, id: string, updated: UserRecord): (r: seq<UserRecord>)
    ensures |r| == |us|
    ensures forall i :: 0 <= i < |us| ==> r[i] == if us[i].id == id then updated else us[i]
  {
    Seqs.ReplaceWhere(us, (u: UserRecord) => u.id == id, updated)
  }

  /** The accounts without the id `id`. */
  function WithoutUser(us: seq<UserRecord>, id: string): (r: seq<UserRecord>)
    ensures Seqs.IsSubsequence(r, us)
    ensures |r| == Seqs.CountIf(us, (u: UserRecord) => u.id != id)
    ensures forall i :: 0 <= i < |r| ==> r[i].id != id
    ensures forall i :: 0 <= i < |us| && us[i].id != id ==> us[i] in r
  {
    Seqs.Filter(us, (u: UserRecord) => u.id != id)
  }

  class UsersStore {
    var users: seq<UserRecord>
    var loading: bool
    var error: Option<string>
    var filters: UserFilters

    constructor ()
      ensures users == [] && loading && error == None && filters == InitialUserFilters
    {
      users := [];
      loading := true;
      error := None;
      filters := InitialUserFilters;
    }

    /** `setFilters`. */
    method SetFilters(f: UserFilters)
      modifies this
      ensures filters == f && users == old(users) && loading == old(loading) && error == old(error)
    {
      filters := f;
    }

    /** `fetchUsers`: the response replaces the list; a failure keeps it and sets the error. */
    method FetchUsers(response: Response<seq<UserRecord>>)
      modifies this
      ensures !loading && filters == old(filters)
      ensures response.Ok? ==> users == response.data && error == None
      ensures response.Failed? ==> users == old(users)
      ensures response.Failed? ==>
        error == Some(ErrorText(response.message, "Erreur lors du chargement des utilisateurs"))
    {
      loading := true;
      error := None;
      match response {
        case Ok(us) => users := us;
        case Failed(message) =>
          error := Some(ErrorText(message, "Erreur lors du chargement des utilisateurs"));
      }
      loading := false;
    }

    /** `createUser`: the created account is appended; a failure sets the error and is passed on. */
    method CreateUser(response: Response<UserRecord>) returns (rethrown: bool)
      modifies this
      ensures response.Ok? ==> users == old(users) + [response.data] && error == old(error) && !rethrown
      ensures response.Failed? ==> users == old(users) && rethrown
      ensures response.Failed? ==>
        error == Some(ErrorText(response.message, "Erreur lors de la création de l'utilisateur"))
      ensures loading == old(loading) && filters == old(filters)
    {
      rethrown := false;
      match response {
        case Ok(u) => users := users + [u];
        case Failed(message) =>
          error := Some(ErrorText(message, "Erreur lors de la création de l'utilisateur"));
          rethrown := true;
      }
    }

    /** `updateUser(id, data)`: the accounts with that id are replaced by the server's answer. */
    method UpdateUser(id: string, response: Response<UserRecord>) returns (rethrown: bool)
      modifies this
      ensures response.Ok? ==> users == ReplaceUser(old(users), id, response.data)
      ensures response.Ok? ==> error == old(error) && !rethrown
      ensures response.Failed? ==> users == old(users) && rethrown
      ensures response.Failed? ==>
        error == Some(ErrorText(response.message, "Erreur lors de la mise à jour de l'utilisateur"))
      ensures loading == old(loading) && filters == old(filters)
    {
      rethrown := false;
      match response {
        case Ok(u) => users := ReplaceUser(users, id, u);
        case Failed(message) =>
          error := Some(ErrorText(message, "Erreur lors de la mise à jour de l'utilisateur"));
          rethrown := true;
      }
    }

    /**
     * `deleteUser(id)`: the account is dropped before the request; when the
     * request fails the list is fetched again (`refetch` is that fetch's
     * outcome), then the deletion error is set and the failure passed on.
     */
    method DeleteUser(id: string, outcome: Response<()>, refetch: Response<seq<UserRecord>>)
      returns (rethrown: bool)
      modifies this
      ensures outcome.Ok? ==> users == WithoutUser(old(users), id) && error == old(error)
      ensures outcome.Ok? ==> !rethrown && loading == old(loading)
      ensures outcome.Failed? && refetch.Ok? ==> users == refetch.data
      ensures outcome.Failed? && refetch.Failed? ==> users == WithoutUser(old(users), id)
      ensures outcome.Failed? ==> rethrown && !loading
      ensures outcome.Failed? ==>
        error == Some(ErrorText(outcome.message, "Erreur lors de la suppression de l'utilisateur"))
      ensures filters == old(filters)
    {
      users := WithoutUser(users, id);
      rethrown := false;
      if outcome.Failed? {
        FetchUsers(refetch);
        error := Some(ErrorText(outcome.message, "Erreur lors de la suppression de l'utilisateur"));
        rethrown := true;
      }
    }
  }
}
