# theratrack-front-pet — a Dafny model of the front-end core

This project models the client-side core of the theratrack pet-care and therapy front-end, an Angular application. It covers:

- **Role scoping** (`RoleFilterService`). Every list fetched from the backend is cut down to what the logged-in user may see. The rules depend on the user's role: owner, sitter, admin, therapist or patient. Some rules also use id lists cached in other stores. A route table decides which pages a role may open.
- **The entity stores** (`BaseService` and its pets, care-session, session-report, location and photo instantiations). Each store holds items, a selection, a loading flag and an error banner. It offers fetch, fetch-by-key, fetch-by-id, create, update, delete and select. Failures are absorbed into the error banner.
- **The hand-written stores** for therapy sessions, patients and users. Their create and update re-throw errors to the caller.
- **Error translation** (`ErrorHandlerUtil`). A failed request is turned into the Spanish sentence the banner shows.
- **Authentication** (`AuthService` over `StorageService`). This covers start-up restore, login with user normalisation, logout and `checkAuth`.
- **Payment totals** over therapy sessions, the generic search and criteria filters, and photo-reference resolution.
- **Status and location-type tables**, the sidebar menu, the owners page (memoised per-owner lists, counts, pagination) and the map's address normalisation.

Most modules follow one source file. There are three exceptions. `ManualStore` holds the store shape that both `sessions.service.ts` and `patients.service.ts` write by hand. `ScopeKeys` holds the cache-to-key dispatch that `session-reports.service.ts` and `photos.service.ts` each repeat. `EntityStore` pairs the helpers of `base.service.ts` with the request shapes its subclasses such as `pets.service.ts` build on them. `Transport.Reply<T>` stands in for an HTTP request: the caller supplies either the decoded payload (`Ok`) or the error the call raised (`Fail`). A store operation is a pure function from the current store and that reply to the next store and the value emitted to the subscriber (`EntityStore.Step`). Browser storage, IndexedDB lookups and the photo-save outcome are parameters in the same way.

Shared modules:
- `Wrappers`: `Option` and JavaScript truthiness of optional strings.
- `Seqs`: `filter`, the subsequence relation and the filter algebra.
- `Strings`: lower-casing, trimming, `includes`, `split`, decimal rendering and `parseInt`.
- `Model`: the records.

## Model

| member | source | states |
|---|---|---|
| ErrorHandler.GetUserFriendlyMessage | src/app/core/utils/error-handler.util.ts:74-90 | the first table key, in table order, that occurs in the lower-cased message selects its sentence; with no key the message is returned unchanged |
| ErrorHandler.HandleHttpError | src/app/core/utils/error-handler.util.ts:34-72 | the sentence for statuses 0, 400 (body message first), 401, 403, 404 and 500; any other status is named in the sentence and in `HTTP <status>` |
| ErrorHandler.GetErrorMessage | src/app/core/utils/error-handler.util.ts:9-32 | an HTTP failure goes to the status switch; a non-HTTP error with an inner message is translated through the table; otherwise the generic sentence, reporting the error's own message when it has one and 'Unknown error' when it has none |
| ErrorHandler.FriendlyMessage | src/app/core/utils/error-handler.util.ts:9-72 | the banner text derived from any failure is never empty |
| ErrorHandler.IsUnauthorizedError | src/app/core/utils/error-handler.util.ts:92-94 | holds exactly for the HTTP failures the mapper reports as `Unauthorized` with the expired-session sentence (status 401), so its banner is that sentence |
| ErrorHandler.IsNetworkError | src/app/core/utils/error-handler.util.ts:96-98 | holds exactly for the HTTP failures the mapper reports as `Network error` with the no-connection sentence (status 0); such an error is never also unauthorized |
| RoleFilter.FilterPets | src/app/core/services/role-filter.service.ts:24-45 | no user gives nothing; an admin sees all; an owner sees exactly their pets; a sitter sees nothing; the result keeps server order |
| RoleFilter.FilterCareSessions | src/app/core/services/role-filter.service.ts:52-76 | an owner sees the sessions whose pet is among the supplied pet ids (nothing without ids); a sitter sees their own sessions; an admin sees all |
| RoleFilter.FilterSessionReports | src/app/core/services/role-filter.service.ts:84-114 | an owner is scoped by pet ids and a sitter by care-session ids, each failing closed without its key list; an admin sees all |
| RoleFilter.FilterLocations | src/app/core/services/role-filter.service.ts:119-135 | an owner sees the locations they own; an admin sees all; every other role sees nothing |
| RoleFilter.FilterPhotos | src/app/core/services/role-filter.service.ts:143-173 | an owner sees photos whose pet id or care-session id is among the pet ids; a sitter sees photos whose care-session id is among the session ids; an admin sees all |
| RoleFilter.FilterPatients | src/app/core/services/role-filter.service.ts:178-194 | admins and therapists see all patients; a patient sees the records whose rendered id equals their user id |
| RoleFilter.FilterSessions | src/app/core/services/role-filter.service.ts:199-214 | admins and therapists see all therapy sessions; a patient sees the sessions whose patient id renders to their user id |
| RoleFilter.FilterPetsIsPolicy | src/app/core/services/role-filter.service.ts:24-45 | the branchy filter equals one plain filter by the per-pet visibility predicate |
| RoleFilter.FilterCareSessionsIsPolicy | src/app/core/services/role-filter.service.ts:52-76 | the care-session filter equals a plain filter by its visibility predicate |
| RoleFilter.FilterSessionReportsIsPolicy | src/app/core/services/role-filter.service.ts:84-114 | the report filter equals a plain filter by its visibility predicate |
| RoleFilter.FilterLocationsIsPolicy | src/app/core/services/role-filter.service.ts:119-135 | the location filter equals a plain filter by its visibility predicate |
| RoleFilter.FilterPhotosIsPolicy | src/app/core/services/role-filter.service.ts:143-173 | the photo filter equals a plain filter by its visibility predicate |
| RoleFilter.FilterPatientsIsPolicy | src/app/core/services/role-filter.service.ts:178-194 | the patient filter equals a plain filter by its visibility predicate |
| RoleFilter.FilterSessionsIsPolicy | src/app/core/services/role-filter.service.ts:199-214 | the therapy-session filter equals a plain filter by its visibility predicate |
| RoleFilter.PatientSeesOneId | src/app/core/services/role-filter.service.ts:178-194 | all the patients a patient-role user can see carry one and the same id |
| RoleFilter.CanAccessRoute | src/app/core/services/role-filter.service.ts:219-249 | logged out never, admin always, an unlisted route never, otherwise the role must be in the route's list |
| RoleFilter.RouteAccessByRole | src/app/core/services/role-filter.service.ts:229-240 | the exact set of routes each non-admin role can open; only admins open '/users'; an unrecognised role opens nothing |
| ScopeKeys.PetIds | src/app/features/session-reports/services/session-reports.service.ts:42-43 | the id list has one entry per cached pet, and an id is in it exactly when some cached pet has it |
| ScopeKeys.CareSessionIds | src/app/features/session-reports/services/session-reports.service.ts:46-47 | the id list has one entry per cached session, and an id is in it exactly when some cached session has it |
| ScopeKeys.AuxKeys | src/app/features/session-reports/services/session-reports.service.ts:39-51 | owners pass cached pet ids, sitters pass cached care-session ids, everybody else passes neither |
| EntityStore.HandleError | src/app/core/services/base.service.ts:35-40 | the banner is set to exactly the sentence the error mapper gives for the failure, which is non-empty, and nothing else changes |
| EntityStore.SetLoading | src/app/core/services/base.service.ts:46-48 | the loading flag takes the given value and nothing else in the store changes |
| EntityStore.ClearError | src/app/core/services/base.service.ts:53-55 | the banner is removed and nothing else in the store changes |
| EntityStore.SelectItem | src/app/core/services/base.service.ts:61-63 | the selection becomes the given item, or none, and nothing else in the store changes |
| EntityStore.ClearErrorUndoesHandleError | src/app/core/services/base.service.ts:35-55 | clearing the error after a failure restores the store as it was with no banner |
| EntityStore.SelectItemLastWins | src/app/core/services/base.service.ts:61-63 | selecting twice leaves the second selection |
| EntityStore.AddItem | src/app/core/services/base.service.ts:77-79 | the list grows by one: the old list followed by the new item |
| EntityStore.UpdateItem | src/app/core/services/base.service.ts:87-92 | same length; exactly the elements with the id are replaced; the new record becomes the selection |
| EntityStore.RemoveItem | src/app/core/services/base.service.ts:99-104 | the elements with the id disappear and every other element stays, in order and with all its copies; a selection with that id is cleared, any other kept |
| EntityStore.RemoveUndoesAdd | src/app/core/services/base.service.ts:77-104 | removing the id of a just-added item with a fresh id gives back the old list |
| EntityStore.UpdateItemIdempotent | src/app/core/services/base.service.ts:87-92 | updating twice with the same record equals updating once |
| EntityStore.UpdateThenRemove | src/app/core/services/base.service.ts:87-104 | update-then-remove of an id leaves the same list as removing directly |
| EntityStore.FetchAll | src/app/features/pets/services/pets.service.ts:29-42 | success replaces the items by the scoped list and emits it; failure emits `[]`, keeps the items and sets the banner; loading ends off |
| EntityStore.FetchUncached | src/app/features/pets/services/pets.service.ts:47-59 | the result is emitted without touching the items; failure emits `[]` with a banner |
| EntityStore.FetchById | src/app/features/pets/services/pets.service.ts:64-76 | success selects and emits the record; failure emits null and keeps the selection |
| EntityStore.Create | src/app/features/pets/services/pets.service.ts:81-93 | success appends and emits the record; failure emits null and leaves the items |
| EntityStore.Update | src/app/features/pets/services/pets.service.ts:98-110 | success replaces by id and selects the record; failure emits null and leaves the store but for the banner |
| EntityStore.Delete | src/app/features/pets/services/pets.service.ts:115-132 | emits true exactly on success, and then the id's elements are gone while every other element stays, in order and with all its copies; failure emits false and sets the mapped banner |
| EntityStore.CreateThenDelete | src/app/core/services/base.service.ts:77-104 | creating a record with a fresh id and deleting it restores the list |
| Pets.GetPets | src/app/features/pets/services/pets.service.ts:29-42 | the cached pets are the role filter's answer for the fetched list: the pets the user may see, in server order and with their copies; a failure keeps the cache and sets the mapped banner |
| Pets.GetPetsByOwnerId | src/app/features/pets/services/pets.service.ts:47-59 | the emitted pets are the role filter's answer for the fetched list, in server order; the cache is untouched |
| Pets.GetPetById | src/app/features/pets/services/pets.service.ts:64-76 | the fetched pet becomes the selection |
| Pets.CreatePet | src/app/features/pets/services/pets.service.ts:81-93 | the created pet is appended |
| Pets.UpdatePet | src/app/features/pets/services/pets.service.ts:98-110 | pets with the id are replaced in place and the new pet selected |
| Pets.DeletePet | src/app/features/pets/services/pets.service.ts:115-132 | on success the pets with the id disappear, and every other one stays in order with all its copies; a failure keeps the list and sets the mapped banner |
| Pets.SelectPet | src/app/features/pets/services/pets.service.ts:137-139 | the given pet, or none, becomes the selection; the list is untouched |
| CareSessions.GetSessions | src/app/features/care-sessions/services/care-sessions.service.ts:31-50 | the cache is the care-session filter's answer with the pets cache as owner pet ids for every role; an owner with an empty pets cache gets nothing |
| CareSessions.OwnerSessionsFollowPetCache | src/app/features/care-sessions/services/care-sessions.service.ts:36-40 | for an owner, a session is kept exactly when its pet is in the pets cache |
| CareSessions.GetSessionsByPetId | src/app/features/care-sessions/services/care-sessions.service.ts:55-68 | the answer is emitted unfiltered and the cache is untouched |
| CareSessions.GetSessionById | src/app/features/care-sessions/services/care-sessions.service.ts:73-85 | the fetched session becomes the selection |
| CareSessions.CreateSession | src/app/features/care-sessions/services/care-sessions.service.ts:90-105 | the created session is appended |
| CareSessions.UpdateSession | src/app/features/care-sessions/services/care-sessions.service.ts:117-132 | the patch goes to the id's path; on success the sessions with that id are replaced |
| CareSessions.MarkAsPaid | src/app/features/care-sessions/services/care-sessions.service.ts:110-112 | sends an update whose patch sets only `paid := true` |
| CareSessions.MarkAsPaidSetsPaid | src/app/features/care-sessions/services/care-sessions.service.ts:110-132 | when the server echoes the paid session, every stored session with that id is paid |
| CareSessions.DeleteSession | src/app/features/care-sessions/services/care-sessions.service.ts:137-154 | on success the sessions with the id disappear, and every other one stays in order with all its copies; a failure keeps the list and sets the mapped banner |
| CareSessions.SelectSession | src/app/features/care-sessions/services/care-sessions.service.ts:159-161 | the given session, or none, becomes the selection; the list is untouched |
| SessionReports.GetReports | src/app/features/session-reports/services/session-reports.service.ts:34-59 | the cached reports are the report filter's answer under the role's auxiliary keys: visible ones, in server order and with their copies |
| SessionReports.GetReportsByRole | src/app/features/session-reports/services/session-reports.service.ts:39-51 | an admin keeps all; an owner keeps reports whose pet is cached; a sitter keeps reports whose session is cached |
| SessionReports.GetReportsByPetId | src/app/features/session-reports/services/session-reports.service.ts:64-77 | emitted unfiltered, cache untouched |
| SessionReports.GetReportsBySessionId | src/app/features/session-reports/services/session-reports.service.ts:82-95 | emitted unfiltered, cache untouched |
| SessionReports.GetReportById | src/app/features/session-reports/services/session-reports.service.ts:100-112 | the fetched report becomes the selection |
| SessionReports.CreateReport | src/app/features/session-reports/services/session-reports.service.ts:117-132 | the created report is appended |
| SessionReports.UpdateReport | src/app/features/session-reports/services/session-reports.service.ts:137-152 | reports with the id are replaced in place |
| SessionReports.DeleteReport | src/app/features/session-reports/services/session-reports.service.ts:157-174 | on success the reports with the id disappear and a matching selection is cleared, and every other one stays in order with all its copies; a failure keeps the list and sets the mapped banner |
| SessionReports.SelectReport | src/app/features/session-reports/services/session-reports.service.ts:179-181 | the given report, or none, becomes the selection; the list is untouched |
| Locations.GetLocations | src/app/features/locations/services/locations.service.ts:29-42 | the cached locations are the location filter's answer: the ones the user may see, in server order and with their copies |
| Locations.GetLocationsByPetId | src/app/features/locations/services/locations.service.ts:47-60 | emitted unfiltered, cache untouched |
| Locations.GetLocationById | src/app/features/locations/services/locations.service.ts:65-77 | the fetched location becomes the selection |
| Locations.CreateLocation | src/app/features/locations/services/locations.service.ts:82-97 | the created location is appended |
| Locations.UpdateLocation | src/app/features/locations/services/locations.service.ts:102-117 | locations with the id are replaced in place |
| Locations.DeleteLocation | src/app/features/locations/services/locations.service.ts:122-139 | on success the locations with the id disappear, and every other one stays in order with all its copies; a failure keeps the list and sets the mapped banner |
| Locations.SelectLocation | src/app/features/locations/services/locations.service.ts:144-146 | the given location, or none, becomes the selection; the list is untouched |
| Photos.GetPhotos | src/app/features/photos/services/photos.service.ts:38-63 | the cached photos are the photo filter's answer under the role's auxiliary keys: visible ones, in server order and with their copies |
| Photos.OwnerPhotoSessionMatchesPetIds | src/app/core/services/role-filter.service.ts:155-160 | a pet-less photo is shown to an owner exactly when its care-session id equals one of the owner's pet ids |
| Photos.GetPhotosByPetId | src/app/features/photos/services/photos.service.ts:68-81 | emitted unfiltered, cache untouched |
| Photos.GetPhotosBySessionId | src/app/features/photos/services/photos.service.ts:86-99 | emitted unfiltered, cache untouched |
| Photos.GetPhotoById | src/app/features/photos/services/photos.service.ts:104-116 | the fetched photo becomes the selection |
| Photos.ChooseFolder | src/app/features/photos/services/photos.service.ts:142 | the explicit folder wins; otherwise 'sessions' when a care session is given, else 'avatars' |
| Photos.UploadPhoto | src/app/features/photos/services/photos.service.ts:122-176 | a missing user or id, and a non-numeric id, stop before saving with their messages; for a valid user a failed save posts nothing and shows the save error; after a save the metadata is posted with the parsed uploader and the request's fields, the file is kept exactly when the post succeeds and discarded exactly when it fails, with the post error shown |
| Photos.UploadGuardsPassNumericIds | src/app/features/photos/services/photos.service.ts:127-139 | a user whose id is a rendered number always passes both guards, and is recorded as uploader with that number |
| Photos.UpdatePhoto | src/app/features/photos/services/photos.service.ts:181-196 | photos with the id are replaced in place |
| Photos.DeletePhoto | src/app/features/photos/services/photos.service.ts:201-218 | on success the photos with the id disappear, and every other one stays in order with all its copies; a failure keeps the list and sets the mapped banner |
| Photos.SelectPhoto | src/app/features/photos/services/photos.service.ts:223-225 | the given photo, or none, becomes the selection; the list is untouched |
| ManualStore.CreateRethrowing | src/app/features/sessions/services/sessions.service.ts:101-118 | success appends and ends loading; failure re-raises the error with the banner set and loading left on |
| ManualStore.UpdateRethrowing | src/app/features/sessions/services/sessions.service.ts:123-145 | replaces by id; the selection follows only if it had that id; failure re-raises with loading left on |
| ManualStore.UpdateAgreesWithBase | src/app/features/sessions/services/sessions.service.ts:128-134 | the hand-written update stores the same items as the base update; the selections agree exactly when the old selection had the id or already was the record |
| ManualStore.FailureLeavesLoading | src/app/features/sessions/services/sessions.service.ts:110-116 | after a failed create or update the store stays loading until the next request ends |
| TherapySessions.GetSessions | src/app/features/sessions/services/sessions.service.ts:35-53 | the cached sessions are the session filter's answer: the ones the user may see, in server order and with their copies |
| TherapySessions.GetSessionsByPatientId | src/app/features/sessions/services/sessions.service.ts:58-74 | the server's answer is emitted as is, with no filter and no caching |
| TherapySessions.GetSessionById | src/app/features/sessions/services/sessions.service.ts:79-96 | the fetched session becomes the selection |
| TherapySessions.CreateSession | src/app/features/sessions/services/sessions.service.ts:101-118 | appends on success; on failure the error is re-raised and loading stays on |
| TherapySessions.UpdateSession | src/app/features/sessions/services/sessions.service.ts:123-145 | replaces by numeric id; the selection changes only if it had that id |
| TherapySessions.DeleteSession | src/app/features/sessions/services/sessions.service.ts:150-172 | on success the sessions with the id disappear and a matching selection is cleared, and every other one stays in order with all its copies; a failure keeps the list and sets the mapped banner |
| TherapySessions.SelectSession | src/app/features/sessions/services/sessions.service.ts:177-179 | the given session, or none, becomes the selection; the list is untouched |
| TherapySessions.GetTotalPendingPayments | src/app/features/sessions/services/sessions.service.ts:184-186 | the prices of the cached unpaid sessions, added one by one |
| TherapySessions.GetTotalPaid | src/app/features/sessions/services/sessions.service.ts:191-193 | the prices of the cached paid sessions, added one by one |
| TherapySessions.StoreTotalsPartition | src/app/features/sessions/services/sessions.service.ts:184-193 | the store's paid and pending totals add up to the priced amount of all its sessions |
| TherapySessions.FailuresKeepTotals | src/app/features/sessions/services/sessions.service.ts:35-145 | failed fetches, creates and updates leave both totals unchanged |
| TherapySessions.CreateAddsToOneTotal | src/app/features/sessions/services/sessions.service.ts:101-118 | a created session adds its price to the paid or the pending total, according to its paid flag |
| Patients.GetPatients | src/app/features/patients/services/patients.service.ts:34-52 | the cached patients are the patient filter's answer: the ones the user may see, in server order and with their copies |
| Patients.PatientListIsOwnRecord | src/app/features/patients/services/patients.service.ts:39 | a patient-role user's list holds records of one id only |
| Patients.GetPatientById | src/app/features/patients/services/patients.service.ts:57-74 | the fetched patient becomes the selection |
| Patients.CreatePatient | src/app/features/patients/services/patients.service.ts:79-96 | appends on success; on failure the error is re-raised and loading stays on |
| Patients.UpdatePatient | src/app/features/patients/services/patients.service.ts:101-123 | replaces by numeric id; the selection changes only if it had that id |
| Patients.DeletePatient | src/app/features/patients/services/patients.service.ts:128-150 | on success the patients with the id disappear and a matching selection is cleared, and every other one stays in order with all its copies; a failure keeps the list and sets the mapped banner |
| Patients.UpdateThenDeletePatient | src/app/features/patients/services/patients.service.ts:101-150 | update then delete of an id leaves the same list as deleting directly |
| Patients.SelectPatient | src/app/features/patients/services/patients.service.ts:155-157 | the given patient, or none, becomes the selection; the list is untouched |
| Users.GetUsers | src/app/features/users/services/users.service.ts:32-49 | the whole answer becomes the list; failure emits `[]` and keeps the old list |
| Users.FailedRefreshKeepsUsers | src/app/features/users/services/users.service.ts:32-49 | a failed refresh after a successful one keeps the list that one stored and shows the failure's sentence |
| SessionPayment.CalculateTotalPaid | src/app/core/utils/session-payment.util.ts:11-15 | equals a one-by-one walk adding the price of every paid session, a missing price adding nothing |
| SessionPayment.CalculateTotalPending | src/app/core/utils/session-payment.util.ts:20-24 | equals a one-by-one walk adding the price of every unpaid session |
| SessionPayment.CalculateTotalPaidForPatient | src/app/core/utils/session-payment.util.ts:29-32 | equals a one-by-one walk adding the price of every paid session of that patient; sessions without a patient never count |
| SessionPayment.CalculateTotalPendingForPatient | src/app/core/utils/session-payment.util.ts:37-40 | equals a one-by-one walk adding the price of every unpaid session of that patient |
| SessionPayment.TotalsPartition | src/app/core/utils/session-payment.util.ts:11-24 | paid plus pending equals the sum over priced sessions, which equals the sum over all sessions |
| SessionPayment.ZeroTotals | src/app/core/utils/session-payment.util.ts:11-24 | with nothing paid the paid total is 0; with nothing unpaid the pending total is 0 |
| SessionPayment.PatientTotalsPartition | src/app/core/utils/session-payment.util.ts:29-40 | a patient's paid and pending totals partition that patient's sessions |
| SessionPayment.PatientPaidIsJointFilter | src/app/core/utils/session-payment.util.ts:29-32 | the per-patient paid total is the sum over sessions of that patient that are paid and priced |
| SessionPayment.GetSessionCountForPatient | src/app/core/utils/session-payment.util.ts:45-47 | the count never exceeds the number of sessions |
| SessionPayment.SessionCountIsCount | src/app/core/utils/session-payment.util.ts:45-47 | the count equals an element-by-element tally of that patient's sessions |
| Auth.InitializeAuth | src/app/core/services/auth.service.ts:42-65 | a user is restored exactly when a non-empty token and a stored user exist; a token without a user is removed; storage is otherwise untouched |
| Auth.IdString | src/app/core/services/auth.service.ts:98 | a numeric id renders to a string that parses back to the number |
| Auth.Normalise | src/app/core/services/auth.service.ts:95-99 | email and role kept; a present name kept; otherwise the name is the email's text before its first '@' |
| Auth.Login | src/app/core/services/auth.service.ts:70-103 | success stores the token and the normalised user in memory and storage; failure changes only the loading flag |
| Auth.Logout | src/app/core/services/auth.service.ts:116-122 | both storage slots and the user are cleared |
| Auth.CheckAuth | src/app/core/services/auth.service.ts:127-129 | implies `isAuthenticated`, and for a logged-in page holds exactly when a non-empty token is stored |
| Auth.AuthenticatedIgnoresStorage | src/app/core/services/auth.service.ts:27 | `isAuthenticated` holds exactly when a user is held; storage and the loading flag never change it |
| Auth.LoginSurvivesReload | src/app/core/services/auth.service.ts:42-103 | after a login with a non-empty token `checkAuth` holds and a restart restores the same user |
| Auth.EmptyTokenLogin | src/app/core/services/auth.service.ts:92-129 | a login answered with an empty token authenticates the page, yet `checkAuth` fails and a restart forgets the user |
| Auth.LogoutThenReload | src/app/core/services/auth.service.ts:116-129 | after logout neither the page nor a restarted page is authenticated |
| Auth.InitializeAuthStable | src/app/core/services/auth.service.ts:42-65 | start-up is idempotent and a restored user always passes `checkAuth` |
| Auth.FailedLoginKeepsSession | src/app/core/services/auth.service.ts:81-85 | a failed login keeps the previous user and storage |
| Search.FilterItems | src/app/core/services/search.service.ts:20-36 | a blank term (after lower-casing and trimming) returns all items; otherwise the items with a field containing the term, in order, each kept as often as it occurs in the input |
| Search.AnyFieldMatchesExists | src/app/core/services/search.service.ts:30-33 | the `some` over fields holds exactly when one field matches |
| Search.SearchIgnoresTermCase | src/app/core/services/search.service.ts:26 | lower-casing the term beforehand changes no result |
| Search.SearchNarrows | src/app/core/services/search.service.ts:26-34 | a longer term containing a shorter non-blank term finds no item the shorter misses |
| Search.FilterByCriteria | src/app/core/services/search.service.ts:44-62 | the loop result is the items passing every defined test, in order |
| PhotoUtil.GetPhotoUrl | src/app/core/utils/photo.util.ts:10-33 | empty gives null; http, https and blob URLs pass through; three-piece 'photos/…' references are looked up by filename and folder; anything else gives null |
| PhotoUtil.StoredPathShape | src/app/core/utils/photo.util.ts:23-26 | a reference passing the shape check is exactly `photos/<folder>/<filename>` |
| PhotoUtil.PhotoPathResolves | src/app/core/utils/photo.util.ts:23-32 | a reference built from a slash-free folder and filename is looked up under exactly those names |
| PhotoUtil.PhotoUrlSignalAsWritten | src/app/core/utils/photo.util.ts:41-77 | the returned signal is always null |
| PhotoUtil.SignalAsWrittenNeverLoads | src/app/core/utils/photo.util.ts:45-57 | an https reference that `getPhotoUrl` returns as is leaves the signal null |
| PhotoUtil.PhotoUrlSignal | src/app/core/utils/photo.util.ts:48-74 | the signal with its loading logic run settles on the same value as `getPhotoUrl` |
| PhotoUtil.SignalLoadsStoredPhoto | src/app/core/utils/photo.util.ts:62-70 | the corrected signal shows a stored photo under the names it was stored with |
| StatusUtil.GetStatusConfig | src/app/core/utils/status.util.ts:74-76 | a row exists exactly for the four statuses, and its label differs from the status |
| StatusUtil.GetStatusColor | src/app/core/utils/status.util.ts:50-57 | unknown statuses get the gray classes (plus the gray border on request); a known status without border gets exactly its row's classes, and with border starts with them |
| StatusUtil.GetStatusLabel | src/app/core/utils/status.util.ts:64-67 | the label equals the raw status exactly when the status is unknown |
| StatusUtil.BorderExtendsColor | src/app/core/utils/status.util.ts:50-57 | the bordered classes are the plain ones plus a space and one border class |
| StatusUtil.ColorIdentifiesStatus | src/app/core/utils/status.util.ts:17-38 | the four statuses have pairwise different colours, all different from the fallback |
| LocationUtil.GetTypeConfig | src/app/core/utils/location.util.ts:96-98 | a row exists exactly for the five types, with a non-empty label different from the type and a non-empty icon |
| LocationUtil.GetTypeColor | src/app/core/utils/location.util.ts:61-69 | without border, exactly the row's classes, those of 'other' for an unknown type; with border, they start the result |
| LocationUtil.GetTypeLabel | src/app/core/utils/location.util.ts:76-79 | the label equals the raw type exactly when the type is unknown |
| LocationUtil.GetTypeIcon | src/app/core/utils/location.util.ts:86-89 | never empty; the pin of 'other' for an unknown type |
| LocationUtil.BorderExtendsTypeColor | src/app/core/utils/location.util.ts:61-69 | the bordered classes are the plain ones plus a space and the border class |
| LocationUtil.UnknownTypeLooksLikeOther | src/app/core/utils/location.util.ts:61-89 | an unknown type shows the colour and icon of 'other' but its own text as label |
| Sidebar.VisibleNavItems | src/app/shared/components/sidebar/sidebar.component.ts:45-59 | nothing when logged out; otherwise the menu entries passing the admin test or the route policy, in menu order |
| Sidebar.ShowsRouteIff | src/app/shared/components/sidebar/sidebar.component.ts:31-59 | a route shows exactly when it is a table route and the user is admin (admin-only entries) or may open it |
| Sidebar.MenuByRole | src/app/shared/components/sidebar/sidebar.component.ts:31-59 | the exact menu of each role; therapists lose '/patients' and sitters lose '/pets' and '/locations' |
| Sidebar.MenuWithinRoutePolicy | src/app/shared/components/sidebar/sidebar.component.ts:50-58 | every shown entry's route can be opened by the user |
| Sidebar.RolesFieldIgnored | src/app/shared/components/sidebar/sidebar.component.ts:35 | the pets entry lists sitters, yet a sitter does not see it |
| OwnersList.Owners | src/app/features/owners/owners-list/owners-list.component.ts:38-40 | the users with role owner, in order, each kept as often as it occurs; no other user |
| OwnersList.GetOwnerPets | src/app/features/owners/owners-list/owners-list.component.ts:91-100 | first call: the pets whose owner id matches, in order and with their multiplicity, memoised; later calls: the memo unchanged |
| OwnersList.GetOwnerCareSessions | src/app/features/owners/owners-list/owners-list.component.ts:102-115 | first call: the sessions on that owner's pets, in order and with their multiplicity, memoised along with the pets; later calls: the memo |
| OwnersList.LookupsKeepMemo | src/app/features/owners/owners-list/owners-list.component.ts:91-115 | the lookups never drop a memo entry, keep the session memo within the pet memo and touch no other field |
| OwnersList.MemoIgnoresLaterLoads | src/app/features/owners/owners-list/owners-list.component.ts:92-99 | once memoised, later changes to the stores' lists are not seen |
| OwnersList.LookupStable | src/app/features/owners/owners-list/owners-list.component.ts:91-115 | asking twice gives the same list |
| OwnersList.GetTotalPaid | src/app/features/owners/owners-list/owners-list.component.ts:117-122 | the number of the owner's sessions flagged paid, equal to a one-by-one tally |
| OwnersList.GetTotalPending | src/app/features/owners/owners-list/owners-list.component.ts:124-129 | the number of the owner's sessions not flagged paid, equal to a one-by-one tally |
| OwnersList.GetSessionCount | src/app/features/owners/owners-list/owners-list.component.ts:131-133 | the paid tally plus the unpaid tally of the owner's sessions |
| OwnersList.CountsAddUp | src/app/features/owners/owners-list/owners-list.component.ts:117-133 | paid count plus pending count equals the session count |
| OwnersList.PaidUnpaidSplit | src/app/features/owners/owners-list/owners-list.component.ts:119-128 | every session is counted as paid or as unpaid, never both |
| OwnersList.JsSlice | src/app/features/owners/owners-list/owners-list.component.ts:176 | for indices 0 <= start <= end, the elements from start to end cut at the length; in general a run of consecutive elements from the normalised start, empty when the normalised bounds cross |
| OwnersList.CurrentPage | src/app/features/owners/owners-list/owners-list.component.ts:184-186 | a stored non-zero page is returned as is; page 1 when none is stored or it is 0 |
| OwnersList.Paginate | src/app/features/owners/owners-list/owners-list.component.ts:170-177 | from page 1 on: exactly the list's slice from (page-1)*size, size entries long or cut at the end, so its length is min(size, what remains) |
| OwnersList.TotalPages | src/app/features/owners/owners-list/owners-list.component.ts:179-182 | the least number of pages of the given size that hold all entries |
| OwnersList.PageNonEmptyIff | src/app/features/owners/owners-list/owners-list.component.ts:170-182 | a page from 1 on has entries exactly when its number is at most the page count |
| OwnersList.PageBelowOneCountsFromEnd | src/app/features/owners/owners-list/owners-list.component.ts:170-177 | page 0 shows nothing; a negative page shows the window of `slice` counted back from the end, cut at the front |
| OwnersList.GetOwnerPetsPaginated | src/app/features/owners/owners-list/owners-list.component.ts:170-177 | the owner's current page of pets; the first six pets when no page was set |
| OwnersList.GetTotalPetsPages | src/app/features/owners/owners-list/owners-list.component.ts:179-182 | 0 pages for no pets, else the least number of six-pet pages that hold all the owner's pets |
| OwnersList.GetOwnerCareSessionsPaginated | src/app/features/owners/owners-list/owners-list.component.ts:195-202 | from page 1 on at most ten sessions; the first ten sessions when no page was set |
| OwnersList.GetTotalSessionsPages | src/app/features/owners/owners-list/owners-list.component.ts:204-207 | 0 pages for no sessions, else the least number of ten-session pages that hold all the owner's sessions |
| OwnersList.PetsPageNonEmptyIff | src/app/features/owners/owners-list/owners-list.component.ts:170-182 | the owner's pets page (from 1 on) shows pets exactly when it is within the pets page count |
| OwnersList.SessionsPageNonEmptyIff | src/app/features/owners/owners-list/owners-list.component.ts:195-207 | the owner's sessions page (from 1 on) shows sessions exactly when it is within the sessions page count |
| OwnersList.SetPetsPage | src/app/features/owners/owners-list/owners-list.component.ts:188-192 | the owner's pets page becomes the number (or 1 for 0); other owners and fields unchanged |
| OwnersList.SetSessionsPage | src/app/features/owners/owners-list/owners-list.component.ts:213-217 | the owner's sessions page becomes the number (or 1 for 0); other owners and fields unchanged |
| MapView.FullAddress | src/app/shared/components/map-view/map-view.component.ts:202-213 | '' without a location; else the trimmed address, followed by ', Chile' unless it ends in 'chile' in any case; the result always ends in 'chile' |
| MapView.CommaBranchIsDead | src/app/shared/components/map-view/map-view.component.ts:206-211 | ending in ', chile' implies ending in 'chile', so the second test never decides |
| MapView.StreetNamedChileGetsNoSuffix | src/app/shared/components/map-view/map-view.component.ts:205-212 | an address ending in a street named Chile gets no ', Chile', despite the comment promising that suffix |
| MapView.FullAddressIdempotent | src/app/shared/components/map-view/map-view.component.ts:204-212 | feeding the result back as the address returns it unchanged |
| Strings.ParseIntToString | src/app/features/photos/services/photos.service.ts:134 | `parseInt` of a rendered integer gives the integer back |
| Strings.SplitFirst | src/app/core/services/auth.service.ts:97 | the first piece of a split is the text before the first separator, or all of it |

## Left out

- Transport, logging and routing are left out. HTTP is replaced by the `Reply` input. Logger calls and the navigation to '/login' on logout are dropped. Request URLs and the bodies of create and update requests are not modelled, apart from the care-session patch and the photo metadata.
- Concurrency and timing are left out. RxJS streams are modelled as one request/answer step. Overlapping requests, `forkJoin` in the owners page and the 500 ms `setTimeout` of `toggleOwnerDetails` are out. So are `loadData`, the expanded-owner and button-loading sets, and the `computed` signals, which are re-read as functions of the state.
- IndexedDB and Leaflet are left out. `PhotoStorageService` appears only as the save outcome and the lookup function. The map component is modelled only through `getFullAddress`.
- Case and whitespace: lower-casing maps ASCII letters only. Non-ASCII case mapping is not modelled.
- Table lookups: lookups in the route, status and type tables treat only real keys as present. JavaScript would also find prototype keys such as 'constructor'.
- SessionPayment.Amount: a price is taken as an integer. The `Number(...) || 0` coercion of non-numeric or NaN prices is not modelled.
- Photos.UploadPhoto: `Number(user.id)` for a non-string id is not modelled, because `User.id` is always a string after login. A failure of the local photo delete after a failed post is modelled as a successful delete. The delete is not awaited and only logs on failure.
- PhotoUtil.GetPhotoUrl: a rejected storage lookup is folded into `None`. In `getPhotoUrl` it would reject the promise instead.
- Users.GetUsers: ids in the users list are taken as strings.
- Auth.InitializeAuth: the JSON serialisation of the stored user is assumed to round-trip faithfully. A corrupt entry that fails to parse counts as no stored user, as `getUser` returns null.
- A null or malformed payload, where the source would throw a TypeError, is not modelled. Payloads are assumed well-typed.
- Fetch failures keep the items. On failure, the `catchError` of every list fetch only sets the banner through `handleError` and emits `[]` (src/app/features/pets/services/pets.service.ts:29-42, src/app/core/services/base.service.ts:35-40). It never touches the cached list, so the previous items stay in place.
- The pets service unit test (src/app/features/pets/services/pets.service.spec.ts) expects `getPets` to error on a network failure. The code absorbs the error and emits `[]`, and the model follows the code.
- The owner row of the photo filter compares a photo's `careSessionId` against the owner's pet ids. This is kept as written and exhibited by `Photos.OwnerPhotoSessionMatchesPetIds`. The intent is not clear enough to claim a correction.
- Model.Patient: a patient is reduced to `{id: int, name: string}`. The patient record's own definition (patient.model.ts) is not part of this model; only the numeric id takes part in any decision.
- Model.CareSession: the care-session record declares no `paid` field (src/app/core/models/care-session.model.ts:1-11). Yet the owners page reads `s.paid` and `markAsPaid` sends `{paid: true}`. The model carries `paid` as a boolean and takes a session without the field as `false`, which is how the falsy `undefined` behaves in `filter(s => s.paid)`.
- The icons and labels of the sidebar entries are not modelled beyond the route, label text and flags.

## Findings

| source | as written | input that shows it | evidently intended | confidence | as-written member | corrected member |
|---|---|---|---|---|---|---|
| src/app/core/utils/photo.util.ts:48-74 | the loading logic sits in a `computed` whose result is discarded; a `computed` only runs when read, so the returned signal never leaves `null` | the reference 'https://a': `getPhotoUrl` returns it as is, the signal stays `null` | run the logic as an `effect`, so the signal settles on what `getPhotoUrl` returns | high (Angular `computed` is lazy); not executed | PhotoUtil.SignalAsWrittenNeverLoads | PhotoUtil.PhotoUrlSignal |
