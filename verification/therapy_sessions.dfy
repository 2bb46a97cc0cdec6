/**
  `SessionsService`: the hand-written store for therapy sessions. Sessions
  are keyed by numeric id; the list fetch is scoped by `FilterSessions`, and
  the two totals read the cached list.
*/
module TherapySessions {
  import opened Wrappers
  import opened Model
  import opened Transport
  import opened ErrorHandler
  import opened EntityStore
  import opened ManualStore
  import opened RoleFilter
  import opened SessionPayment
  import Seqs

  function SessionId(s: TherapySession): int {
    s.id
  }

  /** `getSessions`: keeps exactly the fetched sessions the user may see. */
  function GetSessions(st: Store<TherapySession>, user: Option<User>, reply: Reply<seq<TherapySession>>)
    : (r: Step<TherapySession, seq<TherapySession>>)
    ensures !r.store.isLoading && r.store.selected == st.selected
    ensures reply.Ok? ==> r.out == r.store.items && r.store.error.None?
    ensures reply.Ok? ==> Seqs.IsSubseq(r.store.items, reply.payload)
    ensures reply.Ok? ==> r.store.items == FilterSessions(user, reply.payload)
    ensures reply.Ok? ==> forall s :: s in r.store.items <==> s in reply.payload && TherapySessionVisible(user, s)
    ensures reply.Fail? ==> r.out == [] && r.store.items == st.items && r.store.error == Some(FriendlyMessage(reply.err))
  {
    FetchAll(st, reply, (xs: seq<TherapySession>) => FilterSessions(user, xs))
  }

  /** `getSessionsByPatientId`: the server's answer is emitted as is, with no role filter and no caching. */
  function GetSessionsByPatientId(st: Store<TherapySession>, reply: Reply<seq<TherapySession>>)
    : (r: Step<TherapySession, seq<TherapySession>>)
    ensures !r.store.isLoading && r.store.items == st.items && r.store.selected == st.selected
    ensures reply.Ok? ==> r.out == reply.payload && r.store.error.None?
    ensures reply.Fail? ==> r.out == [] && r.store.error == Some(FriendlyMessage(reply.err))
  {
    FetchUncached(st, reply, (xs: seq<TherapySession>) => xs)
  }

  function GetSessionById(st: Store<TherapySession>, reply: Reply<TherapySession>)
    : (r: Step<TherapySession, Option<TherapySession>>)
    ensures !r.store.isLoading && r.store.items == st.items
    ensures reply.Ok? ==> r.out == Some(reply.payload) && r.store.selected == Some(reply.payload)
    ensures reply.Fail? ==> r.out.None? && r.store.selected == st.selected && r.store.error == Some(FriendlyMessage(reply.err))
  {
    FetchById(st, reply)
  }

  /** `createSession`: appends on success; on failure the error is re-thrown and loading stays on. */
  function CreateSession(st: Store<TherapySession>, reply: Reply<TherapySession>)
    : (r: Step<TherapySession, Emission<TherapySession>>)
    ensures reply.Ok? ==> r.store.items == st.items + [reply.payload] && !r.store.isLoading
    ensures reply.Fail? ==> r.out == Raised(reply.err) && r.store.items == st.items && r.store.isLoading
  {
    CreateRethrowing(st, reply)
  }

  /** `updateSession(id, ...)`: replaces the sessions with that id; the selection follows only if it had that id. */
  function UpdateSession(st: Store<TherapySession>, id: int, reply: Reply<TherapySession>)
    : (r: Step<TherapySession, Emission<TherapySession>>)
    ensures reply.Ok? ==> |r.store.items| == |st.items|
    ensures reply.Ok? ==> forall i :: 0 <= i < |st.items| ==>
              r.store.items[i] == (if st.items[i].id == id then reply.payload else st.items[i])
    ensures reply.Ok? ==> r.store.selected == (if st.selected.Some? && st.selected.value.id == id then Some(reply.payload) else st.selected)
    ensures reply.Fail? ==> r.out == Raised(reply.err) && r.store.items == st.items && r.store.isLoading
  {
    UpdateRethrowing(st, id, reply, SessionId)
  }

  function DeleteSession(st: Store<TherapySession>, id: int, reply: Reply<()>): (r: Step<TherapySession, bool>)
    ensures !r.store.isLoading
    ensures r.out <==> reply.Ok?
    ensures reply.Ok? ==> forall s :: s in r.store.items <==> s in st.items && s.id != id
    ensures reply.Ok? ==> Seqs.IsSubseq(r.store.items, st.items)
    ensures reply.Ok? ==> forall s :: multiset(r.store.items)[s] == if s.id != id then multiset(st.items)[s] else 0
    ensures reply.Ok? && st.selected.Some? && st.selected.value.id == id ==> r.store.selected.None?
    ensures reply.Fail? ==> r.store.items == st.items && r.store.error == Some(FriendlyMessage(reply.err))
  {
    Delete(st, id, reply, SessionId)
  }

  function SelectSession(st: Store<TherapySession>, session: Option<TherapySession>): (r: Store<TherapySession>)
    ensures r.selected == session && r.items == st.items
  {
    SelectItem(st, session)
  }

  /** `getTotalPendingPayments`: the pending total of the cached sessions. */
  function GetTotalPendingPayments(st: Store<TherapySession>): (r: int)
    ensures r == AmountWhere(st.items, false)
  {
    CalculateTotalPending(st.items)
  }

  /** `getTotalPaid`: the paid total of the cached sessions. */
  function GetTotalPaid(st: Store<TherapySession>): (r: int)
    ensures r == AmountWhere(st.items, true)
  {
    CalculateTotalPaid(st.items)
  }

  /** The store's two totals add up to the priced amount of everything it holds. */
  lemma StoreTotalsPartition(st: Store<TherapySession>)
    ensures GetTotalPaid(st) + GetTotalPendingPayments(st) == Sum(st.items)
  {
    TotalsPartition(st.items);
  }

  /** A failed fetch leaves both totals where they were; a failed create or update does too. */
  lemma FailuresKeepTotals(st: Store<TherapySession>, user: Option<User>, id: int, e: RawError)
    ensures GetTotalPaid(GetSessions(st, user, Fail(e)).store) == GetTotalPaid(st)
    ensures GetTotalPendingPayments(GetSessions(st, user, Fail(e)).store) == GetTotalPendingPayments(st)
    ensures GetTotalPaid(CreateSession(st, Fail(e)).store) == GetTotalPaid(st)
    ensures GetTotalPaid(UpdateSession(st, id, Fail(e)).store) == GetTotalPaid(st)
  {
  }

  /** Creating a session adds its price to exactly one of the two totals, chosen by its paid flag. */
  lemma {:induction false} CreateAddsToOneTotal(st: Store<TherapySession>, s: TherapySession)
    ensures GetTotalPaid(CreateSession(st, Ok(s)).store) == GetTotalPaid(st) + (if PaidPriced(s) then Amount(s) else 0)
    ensures GetTotalPendingPayments(CreateSession(st, Ok(s)).store)
            == GetTotalPendingPayments(st) + (if PendingPriced(s) then Amount(s) else 0)
  {
    var items := st.items + [s];
    assert CreateSession(st, Ok(s)).store.items == items;
    Seqs.FilterConcat(st.items, [s], PaidPriced);
    Seqs.FilterConcat(st.items, [s], PendingPriced);
    SumConcat(Seqs.Filter(st.items, PaidPriced), Seqs.Filter([s], PaidPriced));
    SumConcat(Seqs.Filter(st.items, PendingPriced), Seqs.Filter([s], PendingPriced));
  }
}
