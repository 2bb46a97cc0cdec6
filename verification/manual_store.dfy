/**
  The two hand-written stores (`SessionsService`, `PatientsService`) keep the
  same four signals as the entity store and fetch, select and delete alike,
  but differ in create and update: the error is re-thrown to the subscriber
  after the banner is set, so the trailing `isLoading` reset is skipped, and
  an update replaces the selection only when it has the updated id.
*/
module ManualStore {
  import opened Wrappers
  import opened Transport
  import opened ErrorHandler
  import opened EntityStore

  /** What a create or update hands its subscriber: the record, or the original error re-thrown. */
  datatype Emission<T> = Emitted(value: T) | Raised(err: RawError)

  function CreateRethrowing<T>(st: Store<T>, reply: Reply<T>): (r: Step<T, Emission<T>>)
    ensures r.store.selected == st.selected
    ensures reply.Ok? ==> r.out == Emitted(reply.payload) && r.store.items == st.items + [reply.payload]
    ensures reply.Ok? ==> !r.store.isLoading && r.store.error.None?
    ensures reply.Fail? ==> r.out == Raised(reply.err)
    ensures reply.Fail? ==> r.store == st.(isLoading := true, error := Some(FriendlyMessage(reply.err)))
  {
    var s := Begin(st);
    match reply
    case Ok(x) => Step(SetLoading(AddItem(s, x), false), Emitted(x))
    case Fail(e) => Step(HandleError(s, e), Raised(e))
  }

  function UpdateRethrowing<T, K(==)>(st: Store<T>, id: K, reply: Reply<T>, idOf: T -> K): (r: Step<T, Emission<T>>)
    ensures reply.Ok? ==> r.out == Emitted(reply.payload) && !r.store.isLoading && r.store.error.None?
    ensures reply.Ok? ==> |r.store.items| == |st.items|
    ensures reply.Ok? ==> forall i :: 0 <= i < |st.items| ==>
              r.store.items[i] == (if idOf(st.items[i]) == id then reply.payload else st.items[i])
    ensures reply.Ok? && st.selected.Some? && idOf(st.selected.value) == id ==> r.store.selected == Some(reply.payload)
    ensures reply.Ok? && !(st.selected.Some? && idOf(st.selected.value) == id) ==> r.store.selected == st.selected
    ensures reply.Fail? ==> r.out == Raised(reply.err)
    ensures reply.Fail? ==> r.store == st.(isLoading := true, error := Some(FriendlyMessage(reply.err)))
  {
    var s := Begin(st);
    match reply
    case Ok(x) =>
      var selected := if st.selected.Some? && idOf(st.selected.value) == id then Some(x) else st.selected;
      Step(SetLoading(s.(items := ReplaceWhere(s.items, id, x, idOf), selected := selected), false), Emitted(x))
    case Fail(e) => Step(HandleError(s, e), Raised(e))
  }

  /**
    The hand-written update and the base-class update store the same items;
    their selections agree exactly when the old selection had the updated id
    or already was the returned record.
  */
  lemma UpdateAgreesWithBase<T, K>(st: Store<T>, id: K, x: T, idOf: T -> K)
    ensures UpdateRethrowing(st, id, Ok(x), idOf).store.items == Update(st, id, Ok(x), idOf).store.items
    ensures UpdateRethrowing(st, id, Ok(x), idOf).store.selected == Update(st, id, Ok(x), idOf).store.selected
            <==> (st.selected.Some? && idOf(st.selected.value) == id) || st.selected == Some(x)
  {
    var a := UpdateRethrowing(st, id, Ok(x), idOf).store.items;
    var b := Update(st, id, Ok(x), idOf).store.items;
    assert |a| == |b|;
    assert forall i :: 0 <= i < |a| ==> a[i] == b[i];
  }

  /** After a failed create or update the loading flag stays on until the next request settles. */
  lemma FailureLeavesLoading<T, K>(st: Store<T>, id: K, e: RawError, idOf: T -> K)
    ensures CreateRethrowing(st, Fail(e)).store.isLoading
    ensures UpdateRethrowing(st, id, Fail(e), idOf).store.isLoading
    ensures !FetchAll(CreateRethrowing(st, Fail(e)).store, Fail(e), (xs: seq<T>) => xs).store.isLoading
  {
  }
}
