/** `LocationsService`: the entity store instantiated for locations, scoped by `FilterLocations`. */
module Locations {
  import opened Wrappers
  import opened Model
  import opened Transport
  import opened ErrorHandler
  import opened EntityStore
  import opened RoleFilter
  import Seqs

  function LocationId(l: Location): string {
    l.id
  }

  function GetLocations(st: Store<Location>, user: Option<User>, reply: Reply<seq<Location>>)
    : (r: Step<Location, seq<Location>>)
    ensures !r.store.isLoading && r.store.selected == st.selected
    ensures reply.Ok? ==> r.out == r.store.items && r.store.error.None?
    ensures reply.Ok? ==> Seqs.IsSubseq(r.store.items, reply.payload)
    ensures reply.Ok? ==> r.store.items == FilterLocations(user, reply.payload)
    ensures reply.Ok? ==> forall l :: l in r.store.items <==> l in reply.payload && LocationVisible(user, l)
    ensures reply.Fail? ==> r.out == [] && r.store.items == st.items && r.store.error == Some(FriendlyMessage(reply.err))
  {
    FetchAll(st, reply, (xs: seq<Location>) => FilterLocations(user, xs))
  }

  /** `getLocationsByPetId`: unscoped, and the cache is left alone. */
  function GetLocationsByPetId(st: Store<Location>, reply: Reply<seq<Location>>): (r: Step<Location, seq<Location>>)
    ensures !r.store.isLoading && r.store.items == st.items && r.store.selected == st.selected
    ensures reply.Ok? ==> r.out == reply.payload
    ensures reply.Fail? ==> r.out == [] && r.store.error == Some(FriendlyMessage(reply.err))
  {
    FetchUncached(st, reply, (xs: seq<Location>) => xs)
  }

  function GetLocationById(st: Store<Location>, reply: Reply<Location>): (r: Step<Location, Option<Location>>)
    ensures !r.store.isLoading && r.store.items == st.items
    ensures reply.Ok? ==> r.out == Some(reply.payload) && r.store.selected == Some(reply.payload)
    ensures reply.Fail? ==> r.out.None? && r.store.selected == st.selected && r.store.error == Some(FriendlyMessage(reply.err))
  {
    FetchById(st, reply)
  }

  function CreateLocation(st: Store<Location>, reply: Reply<Location>): (r: Step<Location, Option<Location>>)
    ensures !r.store.isLoading
    ensures reply.Ok? ==> r.out == Some(reply.payload) && r.store.items == st.items + [reply.payload]
    ensures reply.Fail? ==> r.out.None? && r.store.items == st.items && r.store.error == Some(FriendlyMessage(reply.err))
  {
    Create(st, reply)
  }

  function UpdateLocation(st: Store<Location>, id: string, reply: Reply<Location>): (r: Step<Location, Option<Location>>)
    ensures !r.store.isLoading
    ensures reply.Ok? ==> r.store.selected == Some(reply.payload) && |r.store.items| == |st.items|
    ensures reply.Ok? ==> forall i :: 0 <= i < |st.items| ==>
              r.store.items[i] == (if st.items[i].id == id then reply.payload else st.items[i])
    ensures reply.Fail? ==> r.out.None? && r.store.items == st.items && r.store.selected == st.selected
  {
    Update(st, id, reply, LocationId)
  }

  function DeleteLocation(st: Store<Location>, id: string, reply: Reply<()>): (r: Step<Location, bool>)
    ensures !r.store.isLoading
    ensures r.out <==> reply.Ok?
    ensures reply.Ok? ==> forall l :: l in r.store.items <==> l in st.items && l.id != id
    ensures reply.Ok? ==> Seqs.IsSubseq(r.store.items, st.items)
    ensures reply.Ok? ==> forall l :: multiset(r.store.items)[l] == if l.id != id then multiset(st.items)[l] else 0
    ensures reply.Fail? ==> r.store.items == st.items && r.store.error == Some(FriendlyMessage(reply.err))
  {
    Delete(st, id, reply, LocationId)
  }

  function SelectLocation(st: Store<Location>, location: Option<Location>): (r: Store<Location>)
    ensures r.selected == location && r.items == st.items
  {
    SelectItem(st, location)
  }
}
