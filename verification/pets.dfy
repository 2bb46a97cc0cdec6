/** `PetsService`: the entity store instantiated for pets, scoped by `FilterPets`. */
module Pets {
  import opened Wrappers
  import opened Model
  import opened Transport
  import opened ErrorHandler
  import opened EntityStore
  import opened RoleFilter
  import Seqs

  function PetId(p: Pet): string {
    p.id
  }

  /** `getPets`: the store keeps exactly the fetched pets the user may see, in server order. */
  function GetPets(st: Store<Pet>, user: Option<User>, reply: Reply<seq<Pet>>): (r: Step<Pet, seq<Pet>>)
    ensures !r.store.isLoading && r.store.selected == st.selected
    ensures reply.Ok? ==> r.out == r.store.items && r.store.error.None?
    ensures reply.Ok? ==> Seqs.IsSubseq(r.store.items, reply.payload)
    ensures reply.Ok? ==> r.store.items == FilterPets(user, reply.payload)
    ensures reply.Ok? ==> forall p :: p in r.store.items <==> p in reply.payload && PetVisible(user, p)
    ensures reply.Fail? ==> r.out == [] && r.store.items == st.items && r.store.error == Some(FriendlyMessage(reply.err))
  {
    FetchAll(st, reply, (xs: seq<Pet>) => FilterPets(user, xs))
  }

  /** `getPetsByOwnerId`: role-filtered like `getPets`, but the cache is left alone. */
  function GetPetsByOwnerId(st: Store<Pet>, user: Option<User>, reply: Reply<seq<Pet>>): (r: Step<Pet, seq<Pet>>)
    ensures !r.store.isLoading && r.store.items == st.items && r.store.selected == st.selected
    ensures reply.Ok? ==> r.out == FilterPets(user, reply.payload)
    ensures reply.Ok? ==> Seqs.IsSubseq(r.out, reply.payload)
    ensures reply.Ok? ==> forall p :: p in r.out <==> p in reply.payload && PetVisible(user, p)
    ensures reply.Fail? ==> r.out == [] && r.store.error == Some(FriendlyMessage(reply.err))
  {
    FetchUncached(st, reply, (xs: seq<Pet>) => FilterPets(user, xs))
  }

  function GetPetById(st: Store<Pet>, reply: Reply<Pet>): (r: Step<Pet, Option<Pet>>)
    ensures !r.store.isLoading && r.store.items == st.items
    ensures reply.Ok? ==> r.out == Some(reply.payload) && r.store.selected == Some(reply.payload)
    ensures reply.Fail? ==> r.out.None? && r.store.selected == st.selected && r.store.error == Some(FriendlyMessage(reply.err))
  {
    FetchById(st, reply)
  }

  function CreatePet(st: Store<Pet>, reply: Reply<Pet>): (r: Step<Pet, Option<Pet>>)
    ensures !r.store.isLoading
    ensures reply.Ok? ==> r.out == Some(reply.payload) && r.store.items == st.items + [reply.payload]
    ensures reply.Fail? ==> r.out.None? && r.store.items == st.items && r.store.error == Some(FriendlyMessage(reply.err))
  {
    Create(st, reply)
  }

  function UpdatePet(st: Store<Pet>, id: string, reply: Reply<Pet>): (r: Step<Pet, Option<Pet>>)
    ensures !r.store.isLoading
    ensures reply.Ok? ==> r.store.selected == Some(reply.payload) && |r.store.items| == |st.items|
    ensures reply.Ok? ==> forall i :: 0 <= i < |st.items| ==>
              r.store.items[i] == (if st.items[i].id == id then reply.payload else st.items[i])
    ensures reply.Fail? ==> r.out.None? && r.store.items == st.items && r.store.selected == st.selected
  {
    Update(st, id, reply, PetId)
  }

  function DeletePet(st: Store<Pet>, id: string, reply: Reply<()>): (r: Step<Pet, bool>)
    ensures !r.store.isLoading
    ensures r.out <==> reply.Ok?
    ensures reply.Ok? ==> forall p :: p in r.store.items <==> p in st.items && p.id != id
    ensures reply.Ok? ==> Seqs.IsSubseq(r.store.items, st.items)
    ensures reply.Ok? ==> forall p :: multiset(r.store.items)[p] == if p.id != id then multiset(st.items)[p] else 0
    ensures reply.Fail? ==> r.store.items == st.items && r.store.error == Some(FriendlyMessage(reply.err))
  {
    Delete(st, id, reply, PetId)
  }

  function SelectPet(st: Store<Pet>, pet: Option<Pet>): (r: Store<Pet>)
    ensures r.selected == pet && r.items == st.items
  {
    SelectItem(st, pet)
  }
}
