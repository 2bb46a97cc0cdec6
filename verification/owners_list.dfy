/**
  The admin's owners page (`OwnersListComponent`): the owners among all
  users, each owner's pets and care sessions derived from the stores'
  caches and memoised per owner, the paid/pending counts, and per-owner
  pagination of both lists.
*/
module OwnersList {
  import opened Wrappers
  import opened Model
  import opened Users
  import Seqs

  /** The page's state: the three store lists it reads and its own per-owner maps. */
  datatype OwnersView = OwnersView(
    users: seq<UserWithPassword>,
    pets: seq<Pet>,
    sessions: seq<CareSession>,
    ownerPets: map<string, seq<Pet>>,
    ownerSessions: map<string, seq<CareSession>>,
    petsPage: map<string, int>,
    sessionsPage: map<string, int>)

  /** A read that may memoise: the value and the view after the call. */
  datatype Lookup<T> = Lookup(view: OwnersView, value: T)

  const PetsPageSize: nat := 6
  const SessionsPageSize: nat := 10

  predicate IsOwner(u: UserWithPassword) {
    u.user.role == Owner
  }

  /** `owners`: the users whose role is 'owner', in order. */
  function Owners(v: OwnersView): (r: seq<UserWithPassword>)
    ensures forall u :: u in r <==> u in v.users && u.user.role == Owner
    ensures forall u :: multiset(r)[u] == if u.user.role == Owner then multiset(v.users)[u] else 0
    ensures Seqs.IsSubseq(r, v.users)
  {
    Seqs.FilterCount(v.users, IsOwner);
    Seqs.Filter(v.users, IsOwner)
  }

  function OwnedBy(ownerId: string): Pet -> bool {
    (p: Pet) => p.ownerId == ownerId
  }

  /** `getOwnerPets`: computed from the pets list on the first call for an owner, then served from the memo. */
  function GetOwnerPets(v: OwnersView, ownerId: string): (r: Lookup<seq<Pet>>)
    ensures ownerId in v.ownerPets ==> r.value == v.ownerPets[ownerId] && r.view == v
    ensures ownerId !in v.ownerPets ==> forall p :: p in r.value <==> p in v.pets && p.ownerId == ownerId
    ensures ownerId !in v.ownerPets ==>
              forall p :: multiset(r.value)[p] == if p.ownerId == ownerId then multiset(v.pets)[p] else 0
    ensures ownerId !in v.ownerPets ==> Seqs.IsSubseq(r.value, v.pets)
    ensures ownerId !in v.ownerPets ==> r.view == v.(ownerPets := v.ownerPets[ownerId := r.value])
  {
    if ownerId !in v.ownerPets then
      Seqs.FilterCount(v.pets, OwnedBy(ownerId));
      var pets := Seqs.Filter(v.pets, OwnedBy(ownerId));
      Lookup(v.(ownerPets := v.ownerPets[ownerId := pets]), pets)
    else Lookup(v, v.ownerPets[ownerId])
  }

  /** The ids of a list of pets, in order (`ownerPets.map(pet => pet.id.toString())`). */
  function PetIdsOf(pets: seq<Pet>): (ids: seq<string>)
    ensures |ids| == |pets|
    ensures forall k :: 0 <= k < |pets| ==> ids[k] == pets[k].id
  {
    seq(|pets|, k requires 0 <= k < |pets| => pets[k].id)
  }

  /** An id is among the rendered ids exactly when some pet has it. */
  lemma PetIdsOfMembers(pets: seq<Pet>)
    ensures forall id :: id in PetIdsOf(pets) <==> exists p :: p in pets && p.id == id
  {
    var ids := PetIdsOf(pets);
    forall id | id in ids ensures exists p :: p in pets && p.id == id {
      var k :| 0 <= k < |ids| && ids[k] == id;
      assert pets[k] in pets;
    }
  }

  function OnPets(ids: seq<string>): CareSession -> bool {
    (s: CareSession) => s.petId in ids
  }

  /**
    `getOwnerCareSessions`: on the first call for an owner, the sessions whose
    pet is among that owner's pets (which memoises the pets too); then the memo.
  */
  function GetOwnerCareSessions(v: OwnersView, ownerId: string): (r: Lookup<seq<CareSession>>)
    ensures ownerId in v.ownerSessions ==> r.value == v.ownerSessions[ownerId] && r.view == v
    ensures ownerId !in v.ownerSessions ==>
              forall s :: s in r.value <==> s in v.sessions && exists p :: p in GetOwnerPets(v, ownerId).value && p.id == s.petId
    ensures ownerId !in v.ownerSessions ==>
              forall s :: multiset(r.value)[s] ==
                if exists p :: p in GetOwnerPets(v, ownerId).value && p.id == s.petId then multiset(v.sessions)[s] else 0
    ensures ownerId !in v.ownerSessions ==> Seqs.IsSubseq(r.value, v.sessions)
    ensures ownerId !in v.ownerSessions ==>
              r.view == GetOwnerPets(v, ownerId).view.(ownerSessions := v.ownerSessions[ownerId := r.value])
  {
    if ownerId !in v.ownerSessions then
      var pets := GetOwnerPets(v, ownerId);
      var ids := PetIdsOf(pets.value);
      Seqs.FilterCount(pets.view.sessions, OnPets(ids));
      var sessions := Seqs.Filter(pets.view.sessions, OnPets(ids));
      assert forall s: CareSession :: OnPets(ids)(s) <==> exists p :: p in pets.value && p.id == s.petId by {
        PetIdsOfMembers(pets.value);
      }
      Lookup(pets.view.(ownerSessions := pets.view.ownerSessions[ownerId := sessions]), sessions)
    else Lookup(v, v.ownerSessions[ownerId])
  }

  /** The memo of sessions only holds owners whose pets are memoised too. */
  predicate MemoConsistent(v: OwnersView) {
    forall id :: id in v.ownerSessions ==> id in v.ownerPets
  }

  /** Both memo reads keep the memos consistent, never drop an entry, and leave every other field alone. */
  lemma LookupsKeepMemo(v: OwnersView, ownerId: string)
    requires MemoConsistent(v)
    ensures MemoConsistent(GetOwnerPets(v, ownerId).view) && MemoConsistent(GetOwnerCareSessions(v, ownerId).view)
    ensures ownerId in GetOwnerCareSessions(v, ownerId).view.ownerSessions
    ensures ownerId in GetOwnerCareSessions(v, ownerId).view.ownerPets
    ensures v.ownerSessions.Keys <= GetOwnerCareSessions(v, ownerId).view.ownerSessions.Keys
    ensures GetOwnerCareSessions(v, ownerId).view.(ownerPets := v.ownerPets, ownerSessions := v.ownerSessions) == v
  {
  }

  /** A memoised list is served as stored even after the underlying store lists change. */
  lemma MemoIgnoresLaterLoads(v: OwnersView, ownerId: string, pets: seq<Pet>, sessions: seq<CareSession>)
    requires ownerId in v.ownerPets && ownerId in v.ownerSessions
    ensures GetOwnerPets(v.(pets := pets), ownerId).value == GetOwnerPets(v, ownerId).value
    ensures GetOwnerCareSessions(v.(pets := pets, sessions := sessions), ownerId).value
            == GetOwnerCareSessions(v, ownerId).value
  {
  }

  /** Asking twice gives the same list: the second call is served from the memo the first one filled. */
  lemma LookupStable(v: OwnersView, ownerId: string)
    ensures GetOwnerPets(GetOwnerPets(v, ownerId).view, ownerId) == Lookup(GetOwnerPets(v, ownerId).view, GetOwnerPets(v, ownerId).value)
    ensures GetOwnerCareSessions(GetOwnerCareSessions(v, ownerId).view, ownerId).value
            == GetOwnerCareSessions(v, ownerId).value
  {
  }

  // ---------------------------------------------------------------------------
  // Counts

  predicate IsPaid(s: CareSession) {
    s.paid
  }

  predicate IsUnpaid(s: CareSession) {
    !s.paid
  }

  /** Independent count: the sessions whose paid flag is `paid`, one by one. */
  function Tally(ss: seq<CareSession>, paid: bool): nat
    decreases |ss|
  {
    if |ss| == 0 then 0
    else (if ss[0].paid == paid then 1 else 0) + Tally(ss[1..], paid)
  }

  /** The filters the page counts with agree with the tally. */
  lemma {:induction false} FilterIsTally(ss: seq<CareSession>)
    ensures |Seqs.Filter(ss, IsPaid)| == Tally(ss, true)
    ensures |Seqs.Filter(ss, IsUnpaid)| == Tally(ss, false)
    decreases |ss|
  {
    if |ss| > 0 {
      FilterIsTally(ss[1..]);
    }
  }

  /** Every session is counted under exactly one flag. */
  lemma {:induction false} TalliesPartition(ss: seq<CareSession>)
    ensures Tally(ss, true) + Tally(ss, false) == |ss|
    decreases |ss|
  {
    if |ss| > 0 {
      TalliesPartition(ss[1..]);
    }
  }

  /** `getTotalPaid`: the number of paid sessions of the owner (a count, not an amount). */
  function GetTotalPaid(v: OwnersView, ownerId: string): (r: Lookup<nat>)
    ensures r.view == GetOwnerCareSessions(v, ownerId).view
    ensures r.value <= |GetOwnerCareSessions(v, ownerId).value|
    ensures r.value == Tally(GetOwnerCareSessions(v, ownerId).value, true)
  {
    FilterIsTally(GetOwnerCareSessions(v, ownerId).value);
    var sessions := GetOwnerCareSessions(v, ownerId);
    Lookup(sessions.view, |Seqs.Filter(sessions.value, IsPaid)|)
  }

  /** `getTotalPending`: the number of unpaid sessions of the owner. */
  function GetTotalPending(v: OwnersView, ownerId: string): (r: Lookup<nat>)
    ensures r.view == GetOwnerCareSessions(v, ownerId).view
    ensures r.value <= |GetOwnerCareSessions(v, ownerId).value|
    ensures r.value == Tally(GetOwnerCareSessions(v, ownerId).value, false)
  {
    FilterIsTally(GetOwnerCareSessions(v, ownerId).value);
    var sessions := GetOwnerCareSessions(v, ownerId);
    Lookup(sessions.view, |Seqs.Filter(sessions.value, IsUnpaid)|)
  }

  /** `getSessionCount`: every session of the owner, paid or not. */
  function GetSessionCount(v: OwnersView, ownerId: string): (r: Lookup<nat>)
    ensures r.view == GetOwnerCareSessions(v, ownerId).view
    ensures r.value == Tally(GetOwnerCareSessions(v, ownerId).value, true) + Tally(GetOwnerCareSessions(v, ownerId).value, false)
  {
    TalliesPartition(GetOwnerCareSessions(v, ownerId).value);
    var sessions := GetOwnerCareSessions(v, ownerId);
    Lookup(sessions.view, |sessions.value|)
  }

  /** Every session is either paid or unpaid. */
  lemma {:induction false} PaidUnpaidSplit(ss: seq<CareSession>)
    ensures |Seqs.Filter(ss, IsPaid)| + |Seqs.Filter(ss, IsUnpaid)| == |ss|
    decreases |ss|
  {
    if |ss| > 0 {
      PaidUnpaidSplit(ss[1..]);
    }
  }

  /** The paid and the pending count of an owner add up to the session count, in whichever order they are asked. */
  lemma CountsAddUp(v: OwnersView, ownerId: string)
    ensures GetTotalPaid(v, ownerId).value + GetTotalPending(v, ownerId).value == GetSessionCount(v, ownerId).value
    ensures GetTotalPaid(v, ownerId).value + GetTotalPending(GetTotalPaid(v, ownerId).view, ownerId).value
            == GetSessionCount(v, ownerId).value
  {
    PaidUnpaidSplit(GetOwnerCareSessions(v, ownerId).value);
  }

  // ---------------------------------------------------------------------------
  // Pagination

  /** `Array.prototype.slice`'s index normalisation: a negative index counts from the end; both are clamped to the length. */
  function SliceIndex(i: int, len: nat): (k: nat)
    ensures k <= len
    ensures 0 <= i <= len ==> k == i
    ensures i > len ==> k == len
    ensures i < 0 ==> k == Max0(len + i)
  {
    if i < 0 then (if len + i < 0 then 0 else len + i)
    else if i > len then len
    else i
  }

  function Max0(i: int): nat {
    if i < 0 then 0 else i
  }

  function Min(a: int, b: int): int {
    if a < b then a else b
  }

  /** `xs.slice(start, end)`: the run of consecutive elements between the two normalised indices, empty when they cross. */
  function JsSlice<T>(xs: seq<T>, start: int, end: int): (r: seq<T>)
    ensures 0 <= start <= end ==> |r| <= end - start
    ensures |r| <= |xs|
    ensures 0 <= start <= end ==> r == xs[Min(start, |xs|)..Min(end, |xs|)]
    ensures forall k :: 0 <= k < |r| ==> SliceIndex(start, |xs|) + k < |xs| && r[k] == xs[SliceIndex(start, |xs|) + k]
    ensures SliceIndex(end, |xs|) <= SliceIndex(start, |xs|) ==> r == []
  {
    var a, b := SliceIndex(start, |xs|), SliceIndex(end, |xs|);
    if a < b then xs[a..b] else []
  }

  /** The page an owner is on: the stored number, or 1 when there is none or it is 0 (`get(ownerId) || 1`). */
  function CurrentPage(pages: map<string, int>, ownerId: string): (p: int)
    ensures p != 0
    ensures ownerId !in pages ==> p == 1
    ensures ownerId in pages && pages[ownerId] != 0 ==> p == pages[ownerId]
  {
    if ownerId in pages && pages[ownerId] != 0 then pages[ownerId] else 1
  }

  /**
    `slice((page - 1) * size, (page - 1) * size + size)`: from page 1 on, the
    `size` entries starting at `(page - 1) * size`, cut at the end of the list.
  */
  function Paginate<T>(xs: seq<T>, page: int, size: nat): (r: seq<T>)
    ensures page >= 1 ==> r == xs[Min((page - 1) * size, |xs|)..Min((page - 1) * size + size, |xs|)]
    ensures page >= 1 ==> |r| == Min(size, Max0(|xs| - (page - 1) * size))
    ensures page >= 1 ==> |r| <= size
    ensures page >= 1 && (page - 1) * size < |xs| ==> |r| > 0 || size == 0
    ensures page >= 1 ==> forall k :: 0 <= k < |r| ==> (page - 1) * size + k < |xs| && r[k] == xs[(page - 1) * size + k]
    ensures page >= 1 && (page - 1) * size >= |xs| ==> r == []
  {
    var start := (page - 1) * size;
    assert page >= 1 ==> start >= 0 by {
      if page >= 1 { MulMonotone(0, page - 1, size); }
    }
    JsSlice(xs, start, start + size)
  }

  /** `Math.ceil(count / size)`. */
  function TotalPages(count: nat, size: nat): (n: nat)
    requires size > 0
    ensures count == 0 ==> n == 0
    ensures count > 0 ==> (n - 1) * size < count <= n * size
  {
    (count + size - 1) / size
  }

  /** A page from 1 on has entries exactly when its number is at most the page count. */
  lemma PageNonEmptyIff<T>(xs: seq<T>, page: int, size: nat)
    requires size > 0 && page >= 1
    ensures Paginate(xs, page, size) != [] <==> page <= TotalPages(|xs|, size)
  {
    var n := TotalPages(|xs|, size);
    if page <= n {
      assert (page - 1) * size <= (n - 1) * size by {
        MulMonotone(page - 1, n - 1, size);
      }
    } else {
      assert n * size <= (page - 1) * size by {
        MulMonotone(n, page - 1, size);
      }
    }
  }

  lemma MulMonotone(a: int, b: int, c: nat)
    requires a <= b
    ensures a * c <= b * c
  {
  }

  /**
    A page below 1 is not clamped: `slice` counts its negative bounds back
    from the end, so page -n shows the size-long window that ends n - 1
    pages before the end (cut at the front), and page 0 shows nothing.
  */
  lemma PageBelowOneCountsFromEnd<T>(xs: seq<T>, page: int, size: nat)
    requires page <= 0 && size > 0
    ensures page == 0 ==> Paginate(xs, page, size) == []
    ensures page < 0 ==> Paginate(xs, page, size) == xs[Max0(|xs| + (page - 1) * size)..Max0(|xs| + page * size)]
  {
    var start := (page - 1) * size;
    assert start + size == page * size;
    if page < 0 {
      MulMonotone(page, -1, size);
      MulMonotone(page - 1, page, size);
    } else {
      MulMonotone(page - 1, 0, size);
    }
  }

  function GetOwnerPetsPaginated(v: OwnersView, ownerId: string): (r: Lookup<seq<Pet>>)
    ensures r.view == GetOwnerPets(v, ownerId).view
    ensures r.value == Paginate(GetOwnerPets(v, ownerId).value, CurrentPage(v.petsPage, ownerId), PetsPageSize)
    ensures ownerId !in v.petsPage ==> r.value == GetOwnerPets(v, ownerId).value[..if |GetOwnerPets(v, ownerId).value| < 6 then |GetOwnerPets(v, ownerId).value| else 6]
  {
    var pets := GetOwnerPets(v, ownerId);
    Lookup(pets.view, Paginate(pets.value, CurrentPage(pets.view.petsPage, ownerId), PetsPageSize))
  }

  function GetTotalPetsPages(v: OwnersView, ownerId: string): (r: Lookup<nat>)
    ensures r.view == GetOwnerPets(v, ownerId).view
    ensures r.value == TotalPages(|GetOwnerPets(v, ownerId).value|, PetsPageSize)
    ensures GetOwnerPets(v, ownerId).value == [] ==> r.value == 0
    ensures GetOwnerPets(v, ownerId).value != [] ==>
              (r.value - 1) * PetsPageSize < |GetOwnerPets(v, ownerId).value| <= r.value * PetsPageSize
  {
    var pets := GetOwnerPets(v, ownerId);
    Lookup(pets.view, TotalPages(|pets.value|, PetsPageSize))
  }

  function GetOwnerCareSessionsPaginated(v: OwnersView, ownerId: string): (r: Lookup<seq<CareSession>>)
    ensures r.view == GetOwnerCareSessions(v, ownerId).view
    ensures r.value == Paginate(GetOwnerCareSessions(v, ownerId).value, CurrentPage(v.sessionsPage, ownerId), SessionsPageSize)
    ensures CurrentPage(v.sessionsPage, ownerId) >= 1 ==> |r.value| <= SessionsPageSize
    ensures ownerId !in v.sessionsPage ==> r.value == GetOwnerCareSessions(v, ownerId).value[..Min(|GetOwnerCareSessions(v, ownerId).value|, 10)]
  {
    var sessions := GetOwnerCareSessions(v, ownerId);
    Lookup(sessions.view, Paginate(sessions.value, CurrentPage(sessions.view.sessionsPage, ownerId), SessionsPageSize))
  }

  function GetTotalSessionsPages(v: OwnersView, ownerId: string): (r: Lookup<nat>)
    ensures r.view == GetOwnerCareSessions(v, ownerId).view
    ensures r.value == TotalPages(|GetOwnerCareSessions(v, ownerId).value|, SessionsPageSize)
    ensures GetOwnerCareSessions(v, ownerId).value == [] ==> r.value == 0
    ensures GetOwnerCareSessions(v, ownerId).value != [] ==>
              (r.value - 1) * SessionsPageSize < |GetOwnerCareSessions(v, ownerId).value| <= r.value * SessionsPageSize
  {
    var sessions := GetOwnerCareSessions(v, ownerId);
    Lookup(sessions.view, TotalPages(|sessions.value|, SessionsPageSize))
  }

  /** The pets pager: from page 1 on, the owner's page shows pets exactly when it is within the page count. */
  lemma PetsPageNonEmptyIff(v: OwnersView, ownerId: string)
    requires CurrentPage(v.petsPage, ownerId) >= 1
    ensures GetOwnerPetsPaginated(v, ownerId).value != []
            <==> CurrentPage(v.petsPage, ownerId) <= GetTotalPetsPages(v, ownerId).value
  {
    PageNonEmptyIff(GetOwnerPets(v, ownerId).value, CurrentPage(v.petsPage, ownerId), PetsPageSize);
  }

  /** The sessions pager: the same, at ten sessions per page. */
  lemma SessionsPageNonEmptyIff(v: OwnersView, ownerId: string)
    requires CurrentPage(v.sessionsPage, ownerId) >= 1
    ensures GetOwnerCareSessionsPaginated(v, ownerId).value != []
            <==> CurrentPage(v.sessionsPage, ownerId) <= GetTotalSessionsPages(v, ownerId).value
  {
    PageNonEmptyIff(GetOwnerCareSessions(v, ownerId).value, CurrentPage(v.sessionsPage, ownerId), SessionsPageSize);
  }

  /** `setPetsPage`: the owner's page is set; every other owner's page and every other field is unchanged. */
  function SetPetsPage(v: OwnersView, ownerId: string, page: int): (r: OwnersView)
    ensures CurrentPage(r.petsPage, ownerId) == (if page != 0 then page else 1)
    ensures forall other :: other != ownerId ==> CurrentPage(r.petsPage, other) == CurrentPage(v.petsPage, other)
    ensures r.(petsPage := v.petsPage) == v
  {
    v.(petsPage := v.petsPage[ownerId := page])
  }

  /** `setSessionsPage`: the same for the sessions list. */
  function SetSessionsPage(v: OwnersView, ownerId: string, page: int): (r: OwnersView)
    ensures CurrentPage(r.sessionsPage, ownerId) == (if page != 0 then page else 1)
    ensures forall other :: other != ownerId ==> CurrentPage(r.sessionsPage, other) == CurrentPage(v.sessionsPage, other)
    ensures r.(sessionsPage := v.sessionsPage) == v
  {
    v.(sessionsPage := v.sessionsPage[ownerId := page])
  }
}
