/**
  Resolving a stored photo reference to something an `<img>` can show
  (`photo.util.ts`). Absolute and blob URLs pass through; a local reference
  has the shape `photos/<folder>/<filename>` and is looked up in the
  browser's photo storage, which the model takes as a parameter.
*/
module PhotoUtil {
  import opened Wrappers
  import opened Strings

  /** Already displayable: `http://`, `https://` or `blob:`. */
  predicate IsDirectUrl(url: string) {
    StartsWith(url, "http://") || StartsWith(url, "https://") || StartsWith(url, "blob:")
  }

  /** The three-piece shape check on `url.split('/')`. */
  predicate IsStoredPath(url: string) {
    |Split(url, '/')| == 3 && Split(url, '/')[0] == "photos"
  }

  /** The reference an uploaded file is stored under. */
  function PhotoPath(folder: string, filename: string): string {
    "photos/" + folder + "/" + filename
  }

  /**
    `getPhotoUrl`. `lookup(filename, folder)` is the photo storage's answer:
    a blob URL, or `None` when nothing is stored under that name. The folder
    piece is passed on unchecked, as the source's cast does.
  */
  function GetPhotoUrl(url: Option<string>, lookup: (string, string) -> Option<string>): (r: Option<string>)
    ensures !Present(url) ==> r.None?
    ensures Present(url) && IsDirectUrl(url.value) ==> r == url
    ensures Present(url) && !IsDirectUrl(url.value) && !IsStoredPath(url.value) ==> r.None?
    ensures Present(url) && !IsDirectUrl(url.value) && IsStoredPath(url.value) ==>
              r == lookup(Split(url.value, '/')[2], Split(url.value, '/')[1])
  {
    if !Present(url) then None
    else if IsDirectUrl(url.value) then url
    else
      var parts := Split(url.value, '/');
      if |parts| != 3 || parts[0] != "photos" then None
      else lookup(parts[2], parts[1])
  }

  /** The shape check accepts exactly the references built by `PhotoPath` from slash-free pieces. */
  lemma StoredPathShape(url: string)
    ensures IsStoredPath(url) ==> url == PhotoPath(Split(url, '/')[1], Split(url, '/')[2])
  {
    if IsStoredPath(url) {
      var parts := Split(url, '/');
      JoinSplit(url, '/');
      assert parts[1..][1..] == [parts[2]];
      assert Join(parts[1..][1..], '/') == parts[2];
      assert Join(parts[1..], '/') == parts[1] + ['/'] + parts[2];
      assert Join(parts, '/') == parts[0] + ['/'] + (parts[1] + ['/'] + parts[2]);
    }
  }

  /** A reference built from a slash-free folder and filename is looked up under exactly those two names. */
  lemma PhotoPathResolves(folder: string, filename: string, lookup: (string, string) -> Option<string>)
    requires '/' !in folder && '/' !in filename
    ensures GetPhotoUrl(Some(PhotoPath(folder, filename)), lookup) == lookup(filename, folder)
  {
    var url := PhotoPath(folder, filename);
    var parts := ["photos", folder, filename];
    assert Join(parts[2..], '/') == filename;
    assert Join(parts[1..], '/') == folder + ['/'] + filename;
    assert Join(parts, '/') == url;
    SplitJoin(parts, '/');
    assert !StartsWith(url, "http://") && !StartsWith(url, "https://") && !StartsWith(url, "blob:") by {
      assert url[0] == 'p';
    }
  }

  // ---------------------------------------------------------------------------
  // The reactive wrapper

  /**
    `createPhotoUrlSignal` as written: the `computed` that would load the
    photo is created and dropped, and a `computed` only runs when read, so
    the returned signal keeps its initial `null` whatever the reference.
  */
  function PhotoUrlSignalAsWritten(url: Option<string>, lookup: (string, string) -> Option<string>): (r: Option<string>)
    ensures r.None?
  {
    None
  }

  /** A plain `https` reference that `getPhotoUrl` returns as is, while the signal as written stays empty. */
  lemma SignalAsWrittenNeverLoads(lookup: (string, string) -> Option<string>)
    ensures GetPhotoUrl(Some("https://a"), lookup) == Some("https://a")
    ensures PhotoUrlSignalAsWritten(Some("https://a"), lookup).None?
  {
    assert StartsWith("https://a", "https://");
  }

  /**
    The wrapper with its loading logic actually run (an `effect` instead of a
    discarded `computed`): the value the signal settles on once the lookup,
    if any, has answered. A failed lookup sets `null`, as the `catch` does.
  */
  function PhotoUrlSignal(url: Option<string>, lookup: (string, string) -> Option<string>): (r: Option<string>)
    ensures r == GetPhotoUrl(url, lookup)
  {
    if !Present(url) then None
    else
      var u := url.value;
      if StartsWith(u, "http://") || StartsWith(u, "https://") || StartsWith(u, "blob:") then Some(u)
      else
        var parts := Split(u, '/');
        if |parts| == 3 && parts[0] == "photos" then lookup(parts[2], parts[1]) else None
  }

  /** The corrected signal shows a locally stored photo under the names it was stored with. */
  lemma SignalLoadsStoredPhoto(folder: string, filename: string, lookup: (string, string) -> Option<string>)
    requires '/' !in folder && '/' !in filename
    ensures PhotoUrlSignal(Some(PhotoPath(folder, filename)), lookup) == lookup(filename, folder)
  {
    PhotoPathResolves(folder, filename, lookup);
  }
}
