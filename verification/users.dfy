/**
  `UsersService`: the admin's user list, fetched with passwords. It has the
  list, loading and error signals of a store but no selection and no role
  filter; the server is trusted to answer only admins. It reuses the
  generic `Store`, whose `selected` field `UsersService` does not have: no
  operation here ever changes it, so it plays no part.
*/
module Users {
  import opened Wrappers
  import opened Model
  import opened Transport
  import opened ErrorHandler
  import opened EntityStore

  /** A user as the admin endpoint returns it. */
  datatype UserWithPassword = UserWithPassword(user: User, password: Option<string>)

  /** `getUsers`: the whole answer replaces the list; a failure yields `[]` and keeps the old list. */
  function GetUsers(st: Store<UserWithPassword>, reply: Reply<seq<UserWithPassword>>)
    : (r: Step<UserWithPassword, seq<UserWithPassword>>)
    ensures !r.store.isLoading && r.store.selected == st.selected
    ensures reply.Ok? ==> r.store.items == reply.payload && r.out == reply.payload && r.store.error.None?
    ensures reply.Fail? ==> r.out == [] && r.store.items == st.items && r.store.error == Some(FriendlyMessage(reply.err))
  {
    FetchAll(st, reply, (xs: seq<UserWithPassword>) => xs)
  }

  /** A failed refresh after a successful one leaves the admin looking at the list the successful one stored. */
  lemma FailedRefreshKeepsUsers(st: Store<UserWithPassword>, xs: seq<UserWithPassword>, e: RawError)
    ensures GetUsers(GetUsers(st, Ok(xs)).store, Fail(e)).store.items == xs
    ensures GetUsers(GetUsers(st, Ok(xs)).store, Fail(e)).store.error == Some(FriendlyMessage(e))
  {
  }
}
