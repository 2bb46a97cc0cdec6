/**
  `PhotosService`: the entity store for photos. The list fetch dispatches
  auxiliary keys like the reports store; an upload first saves the file
  locally, then posts its metadata, and removes the local copy again when
  the post fails.
*/
module Photos {
  import opened Wrappers
  import opened Model
  import opened Strings
  import opened Transport
  import opened EntityStore
  import opened RoleFilter
  import opened ScopeKeys
  import Seqs
  import opened ErrorHandler

  function PhotoId(p: Photo): string {
    p.id
  }

  function GetPhotos(st: Store<Photo>, user: Option<User>, cachedPets: seq<Pet>,
                     cachedSessions: seq<CareSession>, reply: Reply<seq<Photo>>): (r: Step<Photo, seq<Photo>>)
    ensures !r.store.isLoading && r.store.selected == st.selected
    ensures reply.Ok? ==> r.out == r.store.items && r.store.error.None?
    ensures reply.Ok? ==> Seqs.IsSubseq(r.store.items, reply.payload)
    ensures reply.Ok? ==> r.store.items == FilterPhotos(user, reply.payload, AuxKeys(user, cachedPets, cachedSessions).0, AuxKeys(user, cachedPets, cachedSessions).1)
    ensures reply.Ok? ==> forall x :: x in r.store.items <==>
              (x in reply.payload && PhotoVisible(user, AuxKeys(user, cachedPets, cachedSessions).0,
                                                 AuxKeys(user, cachedPets, cachedSessions).1, x))
    ensures reply.Fail? ==> r.out == [] && r.store.items == st.items && r.store.error == Some(FriendlyMessage(reply.err))
  {
    var keys := AuxKeys(user, cachedPets, cachedSessions);
    FetchAll(st, reply, (xs: seq<Photo>) => FilterPhotos(user, xs, keys.0, keys.1))
  }

  /**
    The owner row compares a photo's `careSessionId` with the owner's PET ids:
    a photo tied only to a care session of the owner's pet stays hidden,
    while one whose session id happens to equal a pet id is shown.
  */
  lemma OwnerPhotoSessionMatchesPetIds(st: Store<Photo>, u: User, cachedPets: seq<Pet>,
                                       cachedSessions: seq<CareSession>, x: Photo)
    requires u.role == Owner && !Present(x.petId)
    ensures x in GetPhotos(st, Some(u), cachedPets, cachedSessions, Ok([x])).store.items <==>
              Present(x.careSessionId) && exists p :: p in cachedPets && p.id == x.careSessionId.value
  {
  }

  /** `getPhotosByPetId`: unscoped, and the cache is left alone. */
  function GetPhotosByPetId(st: Store<Photo>, reply: Reply<seq<Photo>>): (r: Step<Photo, seq<Photo>>)
    ensures !r.store.isLoading && r.store.items == st.items && r.store.selected == st.selected
    ensures reply.Ok? ==> r.out == reply.payload
    ensures reply.Fail? ==> r.out == [] && r.store.error == Some(FriendlyMessage(reply.err))
  {
    FetchUncached(st, reply, (xs: seq<Photo>) => xs)
  }

  /** `getPhotosBySessionId`: unscoped, and the cache is left alone. */
  function GetPhotosBySessionId(st: Store<Photo>, reply: Reply<seq<Photo>>): (r: Step<Photo, seq<Photo>>)
    ensures !r.store.isLoading && r.store.items == st.items && r.store.selected == st.selected
    ensures reply.Ok? ==> r.out == reply.payload
    ensures reply.Fail? ==> r.out == [] && r.store.error == Some(FriendlyMessage(reply.err))
  {
    FetchUncached(st, reply, (xs: seq<Photo>) => xs)
  }

  function GetPhotoById(st: Store<Photo>, reply: Reply<Photo>): (r: Step<Photo, Option<Photo>>)
    ensures !r.store.isLoading && r.store.items == st.items
    ensures reply.Ok? ==> r.out == Some(reply.payload) && r.store.selected == Some(reply.payload)
    ensures reply.Fail? ==> r.out.None? && r.store.selected == st.selected && r.store.error == Some(FriendlyMessage(reply.err))
  {
    FetchById(st, reply)
  }

  // ---------------------------------------------------------------------------
  // Upload

  datatype Folder = Avatars | Sessions

  /** `CreatePhotoRequest` without the file itself. */
  datatype UploadRequest = UploadRequest(
    petId: Option<string>,
    careSessionId: Option<string>,
    sessionReportId: Option<string>,
    description: Option<string>,
    tags: Option<seq<string>>,
    folder: Option<Folder>)

  /** The metadata posted to the backend once the file is saved locally. */
  datatype PhotoDto = PhotoDto(
    filename: string,
    folder: Folder,
    uploadedBy: int,
    petId: Option<string>,
    careSessionId: Option<string>,
    sessionReportId: Option<string>,
    description: Option<string>,
    tags: Option<seq<string>>)

  /** What an upload leaves in local photo storage. */
  datatype LocalEffect =
    | NotAttempted
    | SaveFailed
    | Kept(folder: Folder, filename: string)
    | Discarded(folder: Folder, filename: string)

  datatype Upload = Upload(step: Step<Photo, Option<Photo>>, posted: Option<PhotoDto>, local: LocalEffect)

  const NotAuthenticatedMessage := "Usuario no autenticado"
  const InvalidUserIdMessage := "ID de usuario inv\U{E1}lido"

  /** The folder: the explicit one if given, else `sessions` for a photo with a session, else `avatars`. */
  function ChooseFolder(req: UploadRequest): (f: Folder)
    ensures req.folder.Some? ==> f == req.folder.value
    ensures req.folder.None? && Present(req.careSessionId) ==> f == Sessions
    ensures req.folder.None? && !Present(req.careSessionId) ==> f == Avatars
  {
    match req.folder
    case Some(f) => f
    case None => if Present(req.careSessionId) then Sessions else Avatars
  }

  /**
    `uploadPhoto`. `save` is the outcome of saving the file locally (the
    generated filename, or the failure); `post` is the backend's answer to
    the metadata, consulted only after a successful save.
  */
  function UploadPhoto(st: Store<Photo>, user: Option<User>, req: UploadRequest,
                       save: Reply<string>, post: Reply<Photo>): (r: Upload)
    ensures !r.step.store.isLoading && r.step.store.selected == st.selected
    ensures r.step.out.Some? <==> r.local.Kept?
    ensures (user.None? || user.value.id == "") ==>
              r.step.out.None? && r.posted.None? && r.local == NotAttempted
              && r.step.store == st.(isLoading := false, error := Some(NotAuthenticatedMessage))
    ensures user.Some? && user.value.id != "" && ParseInt(user.value.id).None? ==>
              r.step.out.None? && r.posted.None? && r.local == NotAttempted
              && r.step.store == st.(isLoading := false, error := Some(InvalidUserIdMessage))
    ensures r.posted.Some? ==>
              && user.Some? && ParseInt(user.value.id) == Some(r.posted.value.uploadedBy)
              && save == Ok(r.posted.value.filename)
              && r.posted.value.folder == ChooseFolder(req)
              && r.posted.value.petId == req.petId && r.posted.value.careSessionId == req.careSessionId
              && r.posted.value.sessionReportId == req.sessionReportId
              && r.posted.value.description == req.description && r.posted.value.tags == req.tags
    ensures r.local.Kept? || r.local.Discarded? ==>
              r.posted.Some? && r.local.folder == r.posted.value.folder && r.local.filename == r.posted.value.filename
    ensures r.local.Kept? ==> post.Ok? && r.step.out == Some(post.payload)
    ensures r.local.Kept? ==> r.step.store.items == st.items + [post.payload] && r.step.store.error.None?
    ensures !r.local.Kept? ==> r.step.store.items == st.items && r.step.store.error.Some?
    ensures user.Some? && user.value.id != "" && ParseInt(user.value.id).Some? && save.Fail? ==>
              r.local == SaveFailed && r.posted.None? && r.step.out.None?
              && r.step.store.error == Some(FriendlyMessage(save.err))
    ensures user.Some? && user.value.id != "" && ParseInt(user.value.id).Some? && save.Ok? ==>
              && r.posted.Some?
              && (r.local.Kept? <==> post.Ok?)
              && (r.local.Discarded? <==> post.Fail?)
    ensures r.local.Discarded? ==> post.Fail? && r.step.store.error == Some(FriendlyMessage(post.err))
  {
    var s := Begin(st);
    if user.None? || user.value.id == "" then
      Upload(Step(s.(error := Some(NotAuthenticatedMessage), isLoading := false), None), None, NotAttempted)
    else match ParseInt(user.value.id)
      case None =>
        Upload(Step(s.(error := Some(InvalidUserIdMessage), isLoading := false), None), None, NotAttempted)
      case Some(uploadedBy) =>
        var folder := ChooseFolder(req);
        match save
        case Fail(e) => Upload(Step(SetLoading(HandleError(s, e), false), None), None, SaveFailed)
        case Ok(filename) =>
          var dto := PhotoDto(filename, folder, uploadedBy, req.petId, req.careSessionId,
                              req.sessionReportId, req.description, req.tags);
          match post
          case Ok(p) => Upload(Step(SetLoading(AddItem(s, p), false), Some(p)), Some(dto), Kept(folder, filename))
          case Fail(e) => Upload(Step(SetLoading(HandleError(s, e), false), None), Some(dto), Discarded(folder, filename))
  }

  /** A logged-in user whose id is the rendering of a number always gets past both guards. */
  lemma UploadGuardsPassNumericIds(st: Store<Photo>, u: User, n: int, req: UploadRequest,
                                   filename: string, post: Reply<Photo>)
    requires u.id == IntToString(n)
    ensures UploadPhoto(st, Some(u), req, Ok(filename), post).posted.Some?
    ensures UploadPhoto(st, Some(u), req, Ok(filename), post).posted.value.uploadedBy == n
  {
    ParseIntToString(n);
  }

  function UpdatePhoto(st: Store<Photo>, id: string, reply: Reply<Photo>): (r: Step<Photo, Option<Photo>>)
    ensures !r.store.isLoading
    ensures reply.Ok? ==> r.store.selected == Some(reply.payload) && |r.store.items| == |st.items|
    ensures reply.Ok? ==> forall i :: 0 <= i < |st.items| ==>
              r.store.items[i] == (if st.items[i].id == id then reply.payload else st.items[i])
    ensures reply.Fail? ==> r.out.None? && r.store.items == st.items && r.store.selected == st.selected
  {
    Update(st, id, reply, PhotoId)
  }

  function DeletePhoto(st: Store<Photo>, id: string, reply: Reply<()>): (r: Step<Photo, bool>)
    ensures !r.store.isLoading
    ensures r.out <==> reply.Ok?
    ensures reply.Ok? ==> forall x :: x in r.store.items <==> x in st.items && x.id != id
    ensures reply.Ok? ==> Seqs.IsSubseq(r.store.items, st.items)
    ensures reply.Ok? ==> forall x :: multiset(r.store.items)[x] == if x.id != id then multiset(st.items)[x] else 0
    ensures reply.Fail? ==> r.store.items == st.items && r.store.error == Some(FriendlyMessage(reply.err))
  {
    Delete(st, id, reply, PhotoId)
  }

  function SelectPhoto(st: Store<Photo>, photo: Option<Photo>): (r: Store<Photo>)
    ensures r.selected == photo && r.items == st.items
  {
    SelectItem(st, photo)
  }
}
