/**
  The role-scoping policy (`RoleFilterService`): from the current user (or
  none), a raw list fetched from the backend and optional auxiliary id lists,
  the sub-list that user may see; plus the route allow-list.

  The filters are written branch for branch as the service writes them
  (`None` user, then admin, then owner, sitter, ...). Next to them, one
  per-record predicate per entity states the allow-list as a table row; each
  filter is proved equal to filtering by its row, which makes the
  fail-closed guards visible as consequences rather than as code.
*/
module RoleFilter {
  import opened Wrappers
  import opened Model
  import opened Strings
  import Seqs

  predicate IsAdmin(user: Option<User>) {
    user.Some? && user.value.role == Admin
  }

  /** A present (truthy) optional id that occurs in `ids`. */
  predicate IdIn(id: Option<string>, ids: seq<string>) {
    Present(id) && id.value in ids
  }

  // ---------------------------------------------------------------------------
  // The allow-list, one record at a time

  predicate PetVisible(user: Option<User>, p: Pet) {
    match user
    case None => false
    case Some(u) => u.role == Admin || (u.role == Owner && p.ownerId == u.id)
  }

  predicate CareSessionVisible(user: Option<User>, ownerPetIds: Option<seq<string>>, s: CareSession) {
    match user
    case None => false
    case Some(u) =>
      || u.role == Admin
      || (u.role == Owner && ownerPetIds.Some? && s.petId in ownerPetIds.value)
      || (u.role == Sitter && s.sitterId == u.id)
  }

  predicate ReportVisible(user: Option<User>, ownerPetIds: Option<seq<string>>,
                          sitterSessionIds: Option<seq<string>>, r: SessionReport) {
    match user
    case None => false
    case Some(u) =>
      || u.role == Admin
      || (u.role == Owner && ownerPetIds.Some? && IdIn(Some(r.petId), ownerPetIds.value))
      || (u.role == Sitter && sitterSessionIds.Some? && IdIn(Some(r.careSessionId), sitterSessionIds.value))
  }

  predicate LocationVisible(user: Option<User>, l: Location) {
    match user
    case None => false
    case Some(u) => u.role == Admin || (u.role == Owner && l.ownerId == u.id)
  }

  /** The owner row tests `careSessionId` against the owner's PET ids, as the service does. */
  predicate PhotoVisible(user: Option<User>, ownerPetIds: Option<seq<string>>,
                         sitterSessionIds: Option<seq<string>>, p: Photo) {
    match user
    case None => false
    case Some(u) =>
      || u.role == Admin
      || (u.role == Owner && ownerPetIds.Some?
          && (IdIn(p.petId, ownerPetIds.value) || IdIn(p.careSessionId, ownerPetIds.value)))
      || (u.role == Sitter && sitterSessionIds.Some? && IdIn(p.careSessionId, sitterSessionIds.value))
  }

  predicate PatientVisible(user: Option<User>, p: Patient) {
    match user
    case None => false
    case Some(u) =>
      u.role == Admin || u.role == Therapist || (u.role == PatientRole && IntToString(p.id) == u.id)
  }

  predicate TherapySessionVisible(user: Option<User>, s: TherapySession) {
    match user
    case None => false
    case Some(u) =>
      || u.role == Admin || u.role == Therapist
      || (u.role == PatientRole && s.patientId.Some? && IntToString(s.patientId.value) == u.id)
  }

  // ---------------------------------------------------------------------------
  // The filters

  function FilterPets(user: Option<User>, pets: seq<Pet>): (r: seq<Pet>)
    ensures user.None? ==> r == []
    ensures IsAdmin(user) ==> r == pets
    ensures Seqs.IsSubseq(r, pets)
    ensures forall p :: p in r <==> p in pets && PetVisible(user, p)
  {
    if user.None? then []
    else
      var u := user.value;
      if u.role == Admin then Seqs.SubseqRefl(pets); pets
      else if u.role == Owner then Seqs.Filter(pets, (p: Pet) => p.ownerId == u.id)
      else if u.role == Sitter then []
      else []
  }

  function FilterCareSessions(user: Option<User>, sessions: seq<CareSession>,
                              ownerPetIds: Option<seq<string>>): (r: seq<CareSession>)
    ensures user.None? ==> r == []
    ensures IsAdmin(user) ==> r == sessions
    ensures user.Some? && user.value.role == Owner && (ownerPetIds.None? || |ownerPetIds.value| == 0) ==> r == []
    ensures Seqs.IsSubseq(r, sessions)
    ensures forall s :: s in r <==> s in sessions && CareSessionVisible(user, ownerPetIds, s)
  {
    if user.None? then []
    else
      var u := user.value;
      if u.role == Admin then Seqs.SubseqRefl(sessions); sessions
      else if u.role == Owner then
        if ownerPetIds.Some? && |ownerPetIds.value| > 0 then
          Seqs.Filter(sessions, (s: CareSession) => s.petId in ownerPetIds.value)
        else []
      else if u.role == Sitter then Seqs.Filter(sessions, (s: CareSession) => s.sitterId == u.id)
      else []
  }

  function FilterSessionReports(user: Option<User>, reports: seq<SessionReport>,
                                ownerPetIds: Option<seq<string>>,
                                sitterSessionIds: Option<seq<string>>): (r: seq<SessionReport>)
    ensures user.None? ==> r == []
    ensures IsAdmin(user) ==> r == reports
    ensures user.Some? && user.value.role == Owner && (ownerPetIds.None? || |ownerPetIds.value| == 0) ==> r == []
    ensures user.Some? && user.value.role == Sitter && (sitterSessionIds.None? || |sitterSessionIds.value| == 0) ==> r == []
    ensures Seqs.IsSubseq(r, reports)
    ensures forall x :: x in r <==> x in reports && ReportVisible(user, ownerPetIds, sitterSessionIds, x)
  {
    if user.None? then []
    else
      var u := user.value;
      if u.role == Admin then Seqs.SubseqRefl(reports); reports
      else if u.role == Owner && ownerPetIds.Some? && |ownerPetIds.value| > 0 then
        Seqs.Filter(reports, (x: SessionReport) => x.petId != "" && x.petId in ownerPetIds.value)
      else if u.role == Sitter && sitterSessionIds.Some? && |sitterSessionIds.value| > 0 then
        Seqs.Filter(reports, (x: SessionReport) => x.careSessionId != "" && x.careSessionId in sitterSessionIds.value)
      else if u.role == Owner || u.role == Sitter then []
      else []
  }

  function FilterLocations(user: Option<User>, locations: seq<Location>): (r: seq<Location>)
    ensures user.None? ==> r == []
    ensures IsAdmin(user) ==> r == locations
    ensures Seqs.IsSubseq(r, locations)
    ensures forall l :: l in r <==> l in locations && LocationVisible(user, l)
  {
    if user.None? then []
    else
      var u := user.value;
      if u.role == Admin then Seqs.SubseqRefl(locations); locations
      else if u.role == Owner then Seqs.Filter(locations, (l: Location) => l.ownerId == u.id)
      else []
  }

  function FilterPhotos(user: Option<User>, photos: seq<Photo>,
                        ownerPetIds: Option<seq<string>>,
                        sitterSessionIds: Option<seq<string>>): (r: seq<Photo>)
    ensures user.None? ==> r == []
    ensures IsAdmin(user) ==> r == photos
    ensures user.Some? && user.value.role == Owner && (ownerPetIds.None? || |ownerPetIds.value| == 0) ==> r == []
    ensures user.Some? && user.value.role == Sitter && (sitterSessionIds.None? || |sitterSessionIds.value| == 0) ==> r == []
    ensures Seqs.IsSubseq(r, photos)
    ensures forall x :: x in r <==> x in photos && PhotoVisible(user, ownerPetIds, sitterSessionIds, x)
  {
    if user.None? then []
    else
      var u := user.value;
      if u.role == Admin then Seqs.SubseqRefl(photos); photos
      else if u.role == Owner && ownerPetIds.Some? && |ownerPetIds.value| > 0 then
        Seqs.Filter(photos, (x: Photo) => IdIn(x.petId, ownerPetIds.value) || IdIn(x.careSessionId, ownerPetIds.value))
      else if u.role == Sitter && sitterSessionIds.Some? && |sitterSessionIds.value| > 0 then
        Seqs.Filter(photos, (x: Photo) => IdIn(x.careSessionId, sitterSessionIds.value))
      else if u.role == Owner || u.role == Sitter then []
      else []
  }

  function FilterPatients(user: Option<User>, patients: seq<Patient>): (r: seq<Patient>)
    ensures user.None? ==> r == []
    ensures user.Some? && user.value.role in {Admin, Therapist} ==> r == patients
    ensures user.Some? && user.value.role !in {Admin, Therapist, PatientRole} ==> r == []
    ensures Seqs.IsSubseq(r, patients)
    ensures forall p :: p in r <==> p in patients && PatientVisible(user, p)
  {
    if user.None? then []
    else
      var u := user.value;
      if u.role == Admin || u.role == Therapist then Seqs.SubseqRefl(patients); patients
      else if u.role == PatientRole then Seqs.Filter(patients, (p: Patient) => IntToString(p.id) == u.id)
      else []
  }

  function FilterSessions(user: Option<User>, sessions: seq<TherapySession>): (r: seq<TherapySession>)
    ensures user.None? ==> r == []
    ensures user.Some? && user.value.role in {Admin, Therapist} ==> r == sessions
    ensures user.Some? && user.value.role !in {Admin, Therapist, PatientRole} ==> r == []
    ensures Seqs.IsSubseq(r, sessions)
    ensures forall s :: s in r <==> s in sessions && TherapySessionVisible(user, s)
  {
    if user.None? then []
    else
      var u := user.value;
      if u.role == Admin || u.role == Therapist then Seqs.SubseqRefl(sessions); sessions
      else if u.role == PatientRole then
        Seqs.Filter(sessions, (s: TherapySession) => s.patientId.Some? && IntToString(s.patientId.value) == u.id)
      else []
  }

  // ---------------------------------------------------------------------------
  // Each filter is exactly "keep the records its table row allows"

  lemma FilterPetsIsPolicy(user: Option<User>, pets: seq<Pet>)
    ensures FilterPets(user, pets) == Seqs.Filter(pets, (p: Pet) => PetVisible(user, p))
  {
    var policy := (p: Pet) => PetVisible(user, p);
    if user.None? || user.value.role !in {Admin, Owner} {
      Seqs.FilterKeepsNone(pets, policy);
    } else if user.value.role == Admin {
      Seqs.FilterKeepsAll(pets, policy);
    } else {
      Seqs.FilterExt(pets, (p: Pet) => p.ownerId == user.value.id, policy);
    }
  }

  lemma FilterCareSessionsIsPolicy(user: Option<User>, sessions: seq<CareSession>, ownerPetIds: Option<seq<string>>)
    ensures FilterCareSessions(user, sessions, ownerPetIds)
            == Seqs.Filter(sessions, (s: CareSession) => CareSessionVisible(user, ownerPetIds, s))
  {
    var policy := (s: CareSession) => CareSessionVisible(user, ownerPetIds, s);
    if user.None? || user.value.role !in {Admin, Owner, Sitter} {
      Seqs.FilterKeepsNone(sessions, policy);
    } else if user.value.role == Admin {
      Seqs.FilterKeepsAll(sessions, policy);
    } else if user.value.role == Owner {
      if ownerPetIds.Some? && |ownerPetIds.value| > 0 {
        Seqs.FilterExt(sessions, (s: CareSession) => s.petId in ownerPetIds.value, policy);
      } else {
        Seqs.FilterKeepsNone(sessions, policy);
      }
    } else {
      Seqs.FilterExt(sessions, (s: CareSession) => s.sitterId == user.value.id, policy);
    }
  }

  lemma FilterSessionReportsIsPolicy(user: Option<User>, reports: seq<SessionReport>,
                                     ownerPetIds: Option<seq<string>>, sitterSessionIds: Option<seq<string>>)
    ensures FilterSessionReports(user, reports, ownerPetIds, sitterSessionIds)
            == Seqs.Filter(reports, (x: SessionReport) => ReportVisible(user, ownerPetIds, sitterSessionIds, x))
  {
    var policy := (x: SessionReport) => ReportVisible(user, ownerPetIds, sitterSessionIds, x);
    if user.None? || user.value.role !in {Admin, Owner, Sitter} {
      Seqs.FilterKeepsNone(reports, policy);
    } else if user.value.role == Admin {
      Seqs.FilterKeepsAll(reports, policy);
    } else if user.value.role == Owner && ownerPetIds.Some? && |ownerPetIds.value| > 0 {
      Seqs.FilterExt(reports, (x: SessionReport) => x.petId != "" && x.petId in ownerPetIds.value, policy);
    } else if user.value.role == Sitter && sitterSessionIds.Some? && |sitterSessionIds.value| > 0 {
      Seqs.FilterExt(reports, (x: SessionReport) => x.careSessionId != "" && x.careSessionId in sitterSessionIds.value, policy);
    } else {
      Seqs.FilterKeepsNone(reports, policy);
    }
  }

  lemma FilterLocationsIsPolicy(user: Option<User>, locations: seq<Location>)
    ensures FilterLocations(user, locations) == Seqs.Filter(locations, (l: Location) => LocationVisible(user, l))
  {
    var policy := (l: Location) => LocationVisible(user, l);
    if user.None? || user.value.role !in {Admin, Owner} {
      Seqs.FilterKeepsNone(locations, policy);
    } else if user.value.role == Admin {
      Seqs.FilterKeepsAll(locations, policy);
    } else {
      Seqs.FilterExt(locations, (l: Location) => l.ownerId == user.value.id, policy);
    }
  }

  lemma FilterPhotosIsPolicy(user: Option<User>, photos: seq<Photo>,
                             ownerPetIds: Option<seq<string>>, sitterSessionIds: Option<seq<string>>)
    ensures FilterPhotos(user, photos, ownerPetIds, sitterSessionIds)
            == Seqs.Filter(photos, (x: Photo) => PhotoVisible(user, ownerPetIds, sitterSessionIds, x))
  {
    var policy := (x: Photo) => PhotoVisible(user, ownerPetIds, sitterSessionIds, x);
    if user.None? || user.value.role !in {Admin, Owner, Sitter} {
      Seqs.FilterKeepsNone(photos, policy);
    } else if user.value.role == Admin {
      Seqs.FilterKeepsAll(photos, policy);
    } else if user.value.role == Owner && ownerPetIds.Some? && |ownerPetIds.value| > 0 {
      Seqs.FilterExt(photos, (x: Photo) => IdIn(x.petId, ownerPetIds.value) || IdIn(x.careSessionId, ownerPetIds.value), policy);
    } else if user.value.role == Sitter && sitterSessionIds.Some? && |sitterSessionIds.value| > 0 {
      Seqs.FilterExt(photos, (x: Photo) => IdIn(x.careSessionId, sitterSessionIds.value), policy);
    } else {
      Seqs.FilterKeepsNone(photos, policy);
    }
  }

  lemma FilterPatientsIsPolicy(user: Option<User>, patients: seq<Patient>)
    ensures FilterPatients(user, patients) == Seqs.Filter(patients, (p: Patient) => PatientVisible(user, p))
  {
    var policy := (p: Patient) => PatientVisible(user, p);
    if user.None? || user.value.role !in {Admin, Therapist, PatientRole} {
      Seqs.FilterKeepsNone(patients, policy);
    } else if user.value.role in {Admin, Therapist} {
      Seqs.FilterKeepsAll(patients, policy);
    } else {
      Seqs.FilterExt(patients, (p: Patient) => IntToString(p.id) == user.value.id, policy);
    }
  }

  lemma FilterSessionsIsPolicy(user: Option<User>, sessions: seq<TherapySession>)
    ensures FilterSessions(user, sessions) == Seqs.Filter(sessions, (s: TherapySession) => TherapySessionVisible(user, s))
  {
    var policy := (s: TherapySession) => TherapySessionVisible(user, s);
    if user.None? || user.value.role !in {Admin, Therapist, PatientRole} {
      Seqs.FilterKeepsNone(sessions, policy);
    } else if user.value.role in {Admin, Therapist} {
      Seqs.FilterKeepsAll(sessions, policy);
    } else {
      Seqs.FilterExt(sessions, (s: TherapySession) => s.patientId.Some? && IntToString(s.patientId.value) == user.value.id, policy);
    }
  }

  /** A patient sees records of at most one patient id: the one whose decimal rendering is their user id. */
  lemma PatientSeesOneId(user: Option<User>, patients: seq<Patient>, a: Patient, b: Patient)
    requires user.Some? && user.value.role == PatientRole
    requires a in FilterPatients(user, patients) && b in FilterPatients(user, patients)
    ensures a.id == b.id
  {
    IntToStringInjective(a.id, b.id);
  }

  // ---------------------------------------------------------------------------
  // Routes

  /** The route table of `canAccessRoute`: route -> roles allowed to open it. */
  const RoutePermissions: map<string, seq<Role>> := map[
    "/dashboard" := [Owner, Sitter, Admin, Therapist, PatientRole],
    "/users" := [Admin],
    "/patients" := [Admin, Therapist],
    "/calendar" := [Owner, Sitter, Admin, Therapist],
    "/pets" := [Owner, Admin],
    "/care-sessions" := [Owner, Sitter, Admin],
    "/session-reports" := [Owner, Sitter, Admin],
    "/locations" := [Owner, Admin],
    "/photos" := [Owner, Sitter, Admin],
    "/map" := [Owner, Sitter, Admin]
  ]

  function CanAccessRoute(user: Option<User>, route: string): (r: bool)
    ensures user.None? ==> !r
    ensures IsAdmin(user) ==> r
    ensures user.Some? && !IsAdmin(user) && route !in RoutePermissions ==> !r
    ensures user.Some? && !IsAdmin(user) && route in RoutePermissions ==>
              (r <==> user.value.role in RoutePermissions[route])
  {
    if user.None? then false
    else if user.value.role == Admin then true
    else if route !in RoutePermissions then false
    else user.value.role in RoutePermissions[route]
  }

  /** What each non-admin role may open, read off the table. */
  lemma RouteAccessByRole(u: User, route: string)
    ensures u.role == Unrecognized ==> !CanAccessRoute(Some(u), route)
    ensures u.role == PatientRole ==> (CanAccessRoute(Some(u), route) <==> route == "/dashboard")
    ensures u.role == Therapist ==>
              (CanAccessRoute(Some(u), route) <==> route in {"/dashboard", "/patients", "/calendar"})
    ensures u.role == Sitter ==>
              (CanAccessRoute(Some(u), route) <==>
                 route in {"/dashboard", "/calendar", "/care-sessions", "/session-reports", "/photos", "/map"})
    ensures u.role == Owner ==>
              (CanAccessRoute(Some(u), route) <==>
                 route in RoutePermissions && route !in {"/users", "/patients"})
    ensures CanAccessRoute(Some(u), "/users") <==> u.role == Admin
  {
  }
}
