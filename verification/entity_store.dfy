/**
  The generic client-side store every pet-care service inherits
  (`BaseService<T>`): a list of items, the selected item, a loading flag and
  the banner error, plus the request shapes the services build from it.

  A request is a pure transition: it takes the store and the transport
  outcome and returns the new store together with what the caller receives.
  Every request starts with `Begin` (loading on, error cleared); the store
  writes happen in the success path before `catchError`, so a failure leaves
  the items exactly as they were.
*/
module EntityStore {
  import opened Wrappers
  import opened Transport
  import opened ErrorHandler
  import Seqs

  datatype Store<T> = Store(items: seq<T>, selected: Option<T>, isLoading: bool, error: Option<string>)

  /** The store after a request and the value the request's observable emits. */
  datatype Step<T, R> = Step(store: Store<T>, out: R)

  function Initial<T>(): Store<T> {
    Store([], None, false, None)
  }

  // ---------------------------------------------------------------------------
  // The protected helpers of the base class

  /** `handleError`: the banner gets the mapped sentence; the caller gets null. */
  function HandleError<T>(st: Store<T>, e: RawError): (r: Store<T>)
    ensures r.error == Some(FriendlyMessage(e)) && r.error.value != ""
    ensures r.items == st.items && r.selected == st.selected && r.isLoading == st.isLoading
  {
    st.(error := Some(FriendlyMessage(e)))
  }

  /** `setLoading`: only the flag changes. */
  function SetLoading<T>(st: Store<T>, isLoading: bool): (r: Store<T>)
    ensures r.isLoading == isLoading && r.(isLoading := st.isLoading) == st
  {
    st.(isLoading := isLoading)
  }

  /** `clearError`: the banner goes, nothing else changes. */
  function ClearError<T>(st: Store<T>): (r: Store<T>)
    ensures r.error.None? && r.(error := st.error) == st
  {
    st.(error := None)
  }

  /** `selectItem`: the selection is replaced (or cleared with `None`), nothing else changes. */
  function SelectItem<T>(st: Store<T>, item: Option<T>): (r: Store<T>)
    ensures r.selected == item && r.(selected := st.selected) == st
  {
    st.(selected := item)
  }

  /** Clearing the banner undoes a recorded error and nothing else. */
  lemma ClearErrorUndoesHandleError<T>(st: Store<T>, e: RawError)
    ensures ClearError(HandleError(st, e)) == ClearError(st)
  {
  }

  /** `selectItem` touches only the selection, and the last selection wins. */
  lemma SelectItemLastWins<T>(st: Store<T>, a: Option<T>, b: Option<T>)
    ensures SelectItem(SelectItem(st, a), b) == SelectItem(st, b)
    ensures SelectItem(st, a).(selected := st.selected) == st
  {
  }

  /** `addItem`: appends at the end. */
  function AddItem<T>(st: Store<T>, item: T): (r: Store<T>)
    ensures |r.items| == |st.items| + 1
    ensures r.items[..|st.items|] == st.items && r.items[|st.items|] == item
    ensures r.selected == st.selected && r.isLoading == st.isLoading && r.error == st.error
  {
    st.(items := st.items + [item])
  }

  /** Every element whose id is `id` replaced by `item`, in place. */
  function ReplaceWhere<T, K(==)>(items: seq<T>, id: K, item: T, idOf: T -> K): (r: seq<T>)
    ensures |r| == |items|
    ensures forall i :: 0 <= i < |items| && idOf(items[i]) == id ==> r[i] == item
    ensures forall i :: 0 <= i < |items| && idOf(items[i]) != id ==> r[i] == items[i]
    decreases |items|
  {
    if |items| == 0 then []
    else [if idOf(items[0]) == id then item else items[0]] + ReplaceWhere(items[1..], id, item, idOf)
  }

  /** `updateItem`: replaces by id and selects the new record unconditionally. */
  function UpdateItem<T, K(==)>(st: Store<T>, id: K, item: T, idOf: T -> K): (r: Store<T>)
    ensures |r.items| == |st.items|
    ensures forall i :: 0 <= i < |st.items| && idOf(st.items[i]) == id ==> r.items[i] == item
    ensures forall i :: 0 <= i < |st.items| && idOf(st.items[i]) != id ==> r.items[i] == st.items[i]
    ensures r.selected == Some(item)
    ensures r.isLoading == st.isLoading && r.error == st.error
  {
    st.(items := ReplaceWhere(st.items, id, item, idOf), selected := Some(item))
  }

  /** The test `removeItem` keeps elements by. */
  function NotId<T, K(==)>(idOf: T -> K, id: K): T -> bool {
    x => idOf(x) != id
  }

  /** `removeItem`: drops exactly the elements with that id; a selection with that id is cleared. */
  function RemoveItem<T(==,!new), K(==)>(st: Store<T>, id: K, idOf: T -> K): (r: Store<T>)
    ensures forall x :: x in r.items <==> x in st.items && idOf(x) != id
    ensures Seqs.IsSubseq(r.items, st.items)
    ensures forall x :: multiset(r.items)[x] == if idOf(x) != id then multiset(st.items)[x] else 0
    ensures st.selected.Some? && idOf(st.selected.value) == id ==> r.selected.None?
    ensures !(st.selected.Some? && idOf(st.selected.value) == id) ==> r.selected == st.selected
    ensures r.isLoading == st.isLoading && r.error == st.error
  {
    Seqs.FilterCount(st.items, NotId(idOf, id));
    var items := Seqs.Filter(st.items, NotId(idOf, id));
    if st.selected.Some? && idOf(st.selected.value) == id then st.(items := items, selected := None)
    else st.(items := items)
  }

  /** Removing the id of an item just added, whose id was new, gives back the old list. */
  lemma RemoveUndoesAdd<T(!new), K>(st: Store<T>, item: T, idOf: T -> K)
    requires forall y :: y in st.items ==> idOf(y) != idOf(item)
    ensures RemoveItem(AddItem(st, item), idOf(item), idOf).items == st.items
  {
    var keep := NotId(idOf, idOf(item));
    Seqs.FilterConcat(st.items, [item], keep);
    Seqs.FilterKeepsAll(st.items, keep);
    assert Seqs.Filter([item], keep) == [];
  }

  /** Updating twice with the same record is updating once. */
  lemma UpdateItemIdempotent<T, K>(st: Store<T>, id: K, item: T, idOf: T -> K)
    requires idOf(item) == id
    ensures UpdateItem(UpdateItem(st, id, item, idOf), id, item, idOf) == UpdateItem(st, id, item, idOf)
  {
    var once := UpdateItem(st, id, item, idOf);
    var twice := UpdateItem(once, id, item, idOf);
    assert twice.items == once.items;
  }

  /** After an update no element carries the id, save copies of the new record. */
  lemma UpdateThenRemove<T(!new), K>(st: Store<T>, id: K, item: T, idOf: T -> K)
    requires idOf(item) == id
    ensures RemoveItem(UpdateItem(st, id, item, idOf), id, idOf).items == RemoveItem(st, id, idOf).items
  {
    ReplaceThenFilter(st.items, id, item, idOf);
  }

  lemma {:induction false} ReplaceThenFilter<T(!new), K>(items: seq<T>, id: K, item: T, idOf: T -> K)
    requires idOf(item) == id
    ensures Seqs.Filter(ReplaceWhere(items, id, item, idOf), NotId(idOf, id)) == Seqs.Filter(items, NotId(idOf, id))
    decreases |items|
  {
    if |items| > 0 {
      ReplaceThenFilter(items[1..], id, item, idOf);
      var r := ReplaceWhere(items, id, item, idOf);
      assert r[1..] == ReplaceWhere(items[1..], id, item, idOf);
    }
  }

  // ---------------------------------------------------------------------------
  // Request shapes

  /** Entry of every request: `setLoading(true)` then `clearError()`. */
  function Begin<T>(st: Store<T>): (r: Store<T>)
    ensures r.isLoading && r.error.None?
    ensures r.items == st.items && r.selected == st.selected
  {
    ClearError(SetLoading(st, true))
  }

  /**
    A list fetch that owns the cache (`getPets`, `getSessions`, ...): on
    success the scoped list replaces the items wholesale and is emitted; on
    failure the caller gets `[]` while the items keep their previous value.
  */
  function FetchAll<T>(st: Store<T>, reply: Reply<seq<T>>, scope: seq<T> -> seq<T>): (r: Step<T, seq<T>>)
    ensures !r.store.isLoading && r.store.selected == st.selected
    ensures reply.Ok? ==> r.store.items == scope(reply.payload) && r.out == r.store.items && r.store.error.None?
    ensures reply.Fail? ==> r.out == [] && r.store == st.(isLoading := false, error := Some(FriendlyMessage(reply.err)))
  {
    var s := Begin(st);
    match reply
    case Ok(xs) => var ys := scope(xs); Step(SetLoading(s.(items := ys), false), ys)
    case Fail(e) => Step(SetLoading(HandleError(s, e), false), [])
  }

  /** A query by foreign key (`getPetsByOwnerId`, `getSessionsByPetId`, ...): emits its result, never touches the items. */
  function FetchUncached<T>(st: Store<T>, reply: Reply<seq<T>>, scope: seq<T> -> seq<T>): (r: Step<T, seq<T>>)
    ensures !r.store.isLoading && r.store.items == st.items && r.store.selected == st.selected
    ensures reply.Ok? ==> r.out == scope(reply.payload) && r.store.error.None?
    ensures reply.Fail? ==> r.out == [] && r.store.error == Some(FriendlyMessage(reply.err))
  {
    var s := Begin(st);
    match reply
    case Ok(xs) => Step(SetLoading(s, false), scope(xs))
    case Fail(e) => Step(SetLoading(HandleError(s, e), false), [])
  }

  /** `getXById`: the record becomes the selection; a failure yields null and keeps the selection. */
  function FetchById<T>(st: Store<T>, reply: Reply<T>): (r: Step<T, Option<T>>)
    ensures !r.store.isLoading && r.store.items == st.items
    ensures reply.Ok? ==> r.out == Some(reply.payload) && r.store.selected == r.out && r.store.error.None?
    ensures reply.Fail? ==> r.out.None? && r.store == st.(isLoading := false, error := Some(FriendlyMessage(reply.err)))
  {
    var s := Begin(st);
    match reply
    case Ok(x) => Step(SetLoading(SelectItem(s, Some(x)), false), Some(x))
    case Fail(e) => Step(SetLoading(HandleError(s, e), false), None)
  }

  /** `createX`: the server's record is appended as returned, without re-scoping. */
  function Create<T>(st: Store<T>, reply: Reply<T>): (r: Step<T, Option<T>>)
    ensures !r.store.isLoading && r.store.selected == st.selected
    ensures reply.Ok? ==> r.out == Some(reply.payload) && r.store.items == st.items + [reply.payload] && r.store.error.None?
    ensures reply.Fail? ==> r.out.None? && r.store == st.(isLoading := false, error := Some(FriendlyMessage(reply.err)))
  {
    var s := Begin(st);
    match reply
    case Ok(x) => Step(SetLoading(AddItem(s, x), false), Some(x))
    case Fail(e) => Step(SetLoading(HandleError(s, e), false), None)
  }

  /** `updateX(id, ...)`: the returned record replaces every element with that id and becomes the selection. */
  function Update<T, K(==)>(st: Store<T>, id: K, reply: Reply<T>, idOf: T -> K): (r: Step<T, Option<T>>)
    ensures !r.store.isLoading
    ensures reply.Ok? ==> r.out == Some(reply.payload) && r.store.selected == r.out && r.store.error.None?
    ensures reply.Ok? ==> |r.store.items| == |st.items|
    ensures reply.Ok? ==>
              forall i :: 0 <= i < |st.items| && idOf(st.items[i]) == id ==> r.store.items[i] == reply.payload
    ensures reply.Ok? ==>
              forall i :: 0 <= i < |st.items| && idOf(st.items[i]) != id ==> r.store.items[i] == st.items[i]
    ensures reply.Fail? ==> r.out.None? && r.store == st.(isLoading := false, error := Some(FriendlyMessage(reply.err)))
  {
    var s := Begin(st);
    match reply
    case Ok(x) => Step(SetLoading(UpdateItem(s, id, x, idOf), false), Some(x))
    case Fail(e) => Step(SetLoading(HandleError(s, e), false), None)
  }

  /** `deleteX(id)`: `true` and the id gone, or `false` with the store untouched but for the banner. */
  function Delete<T(==,!new), K(==)>(st: Store<T>, id: K, reply: Reply<()>, idOf: T -> K): (r: Step<T, bool>)
    ensures !r.store.isLoading
    ensures r.out <==> reply.Ok?
    ensures reply.Ok? ==> forall x :: x in r.store.items <==> x in st.items && idOf(x) != id
    ensures reply.Ok? ==> Seqs.IsSubseq(r.store.items, st.items) && r.store.error.None?
    ensures reply.Ok? ==> forall x :: multiset(r.store.items)[x] == if idOf(x) != id then multiset(st.items)[x] else 0
    ensures reply.Ok? && st.selected.Some? && idOf(st.selected.value) == id ==> r.store.selected.None?
    ensures reply.Ok? && !(st.selected.Some? && idOf(st.selected.value) == id) ==> r.store.selected == st.selected
    ensures reply.Fail? ==> r.store == st.(isLoading := false, error := Some(FriendlyMessage(reply.err)))
  {
    var s := Begin(st);
    match reply
    case Ok(_) => Step(SetLoading(RemoveItem(s, id, idOf), false), true)
    case Fail(e) => Step(SetLoading(HandleError(s, e), false), false)
  }

  /** Creating a record with a fresh id and deleting it again restores the items. */
  lemma CreateThenDelete<T(!new), K>(st: Store<T>, item: T, idOf: T -> K)
    requires forall y :: y in st.items ==> idOf(y) != idOf(item)
    ensures Delete(Create(st, Ok(item)).store, idOf(item), Ok(()), idOf).store.items == st.items
  {
    RemoveUndoesAdd(Begin(st), item, idOf);
  }
}
