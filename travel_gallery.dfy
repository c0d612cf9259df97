/**
 * The photo gallery of `src/pages/TravelGallery.tsx`: the search filter, the featured
 * and like toggles, picking an image file, the two-step upload, cancelling it, the
 * upload form's validation and the download file name.
 */
module TravelGallery {
  import opened Wrappers
  import opened Text
  import Seqs

  datatype Photo = Photo(id: string, title: string, location: string, date: string, imageUrl: string, featured: bool)

  /** The values of the upload form. */
  datatype PhotoForm = PhotoForm(title: string, location: string, date: string)

  /** A picked file: only its name and MIME type matter here. */
  datatype FileInfo = FileInfo(name: string, mimeType: string)

  // ------------------------------------------------------------ the upload form

  const TitleMessage := "Title must be at least 2 characters long"
  const LocationMessage := "Location must be at least 2 characters long"
  const DateMessage := "Date is required"

  /** `photoFormSchema`: the messages of the fields that fail their minimum length, in field order. */
  function FormErrors(v: PhotoForm): (r: seq<string>)
    ensures r == [] <==> |v.title| >= 2 && |v.location| >= 2 && |v.date| >= 1
    ensures TitleMessage in r <==> |v.title| < 2
    ensures LocationMessage in r <==> |v.location| < 2
    ensures DateMessage in r <==> |v.date| < 1
    ensures |r| <= 3
  {
    (if |v.title| < 2 then [TitleMessage] else [])
    + (if |v.location| < 2 then [LocationMessage] else [])
    + (if |v.date| < 1 then [DateMessage] else [])
  }

  // ------------------------------------------------------------ search

  /** A photo matches when the lowercased term occurs in its lowercased title or location. */
  predicate Matches(p: Photo, term: string)
  {
    Includes(LowerStr(p.title), LowerStr(term)) || Includes(LowerStr(p.location), LowerStr(term))
  }

  /** `filteredPhotos`. */
  function FilteredPhotos(photos: seq<Photo>, term: string): (r: seq<Photo>)
    ensures |r| <= |photos|
    ensures forall i :: 0 <= i < |r| ==> r[i] in photos && Matches(r[i], term)
    ensures forall i :: 0 <= i < |photos| && Matches(photos[i], term) ==> photos[i] in r
  {
    Seqs.Filter(photos, (p: Photo) => Matches(p, term))
  }

  /** The shown photos keep their order: filtering a concatenation filters each part. */
  lemma FilteredKeepsOrder(a: seq<Photo>, b: seq<Photo>, term: string)
    ensures FilteredPhotos(a + b, term) == FilteredPhotos(a, term) + FilteredPhotos(b, term)
  {
    Seqs.FilterConcat(a, b, (p: Photo) => Matches(p, term));
  }

  /** An empty search shows every photo, in order. */
  lemma EmptySearchShowsAll(photos: seq<Photo>)
    ensures FilteredPhotos(photos, "") == photos
  {
    forall i | 0 <= i < |photos| ensures Matches(photos[i], "") {
      IncludesEmpty(LowerStr(photos[i].title));
    }
    Seqs.FilterKeepsAll(photos, (p: Photo) => Matches(p, ""));
  }

  lemma LowerIdempotent(s: string)
    ensures LowerStr(LowerStr(s)) == LowerStr(s)
  {
  }

  /** The search ignores the case of the term. */
  lemma SearchIgnoresCase(photos: seq<Photo>, term: string)
    ensures FilteredPhotos(photos, LowerStr(term)) == FilteredPhotos(photos, term)
  {
    LowerIdempotent(term);
    Seqs.FilterAgree(photos, (p: Photo) => Matches(p, LowerStr(term)), (p: Photo) => Matches(p, term));
  }

  // ------------------------------------------------------------ featured and liked

  /** `handleToggleFeatured`. */
  function ToggleFeatured(photos: seq<Photo>, id: string): (r: seq<Photo>)
    ensures |r| == |photos|
    ensures forall i :: 0 <= i < |photos| ==> r[i].(featured := photos[i].featured) == photos[i]
  {
    seq(|photos|, i requires 0 <= i < |photos| =>
      if photos[i].id == id then photos[i].(featured := !photos[i].featured) else photos[i])
  }

  /** Only the photos with that id change, and only in `featured`; toggling twice restores the list. */
  lemma ToggleFeaturedSpec(photos: seq<Photo>, id: string)
    ensures forall i :: 0 <= i < |photos| && photos[i].id != id ==> ToggleFeatured(photos, id)[i] == photos[i]
    ensures forall i :: 0 <= i < |photos| && photos[i].id == id ==>
      ToggleFeatured(photos, id)[i] == photos[i].(featured := !photos[i].featured)
    ensures ToggleFeatured(ToggleFeatured(photos, id), id) == photos
  {
  }

  /** `handleToggleLike` on the liked set. */
  function ToggleLike(liked: set<string>, id: string): (r: set<string>)
    ensures id in r <==> id !in liked
  {
    if id in liked then liked - {id} else liked + {id}
  }

  /** A like toggle changes the membership of that id only, and toggling twice restores the set. */
  lemma ToggleLikeSpec(liked: set<string>, id: string, other: string)
    requires other != id
    ensures other in ToggleLike(liked, id) <==> other in liked
    ensures ToggleLike(ToggleLike(liked, id), id) == liked
  {
  }

  // ------------------------------------------------------------ download

  /** The input with its leading whitespace removed. */
  function SkipSpaces(s: string): (r: string)
    ensures |r| <= |s| && r == s[|s| - |r|..]
    ensures r == [] || !IsSpace(r[0])
  {
    if s != [] && IsSpace(s[0]) then
      var r := SkipSpaces(s[1..]);
      assert s[1..][|s| - 1 - |r|..] == s[|s| - |r|..];
      r
    else s
  }

  /** `replace(/\s+/g, '-')`: every run of whitespace becomes one dash. */
  function Dashed(s: string): (r: string)
    ensures |r| <= |s|
    ensures forall i :: 0 <= i < |r| ==> !IsSpace(r[i])
    decreases |s|
  {
    if s == [] then []
    else if IsSpace(s[0]) then "-" + Dashed(SkipSpaces(s))
    else [s[0]] + Dashed(s[1..])
  }

  predicate NoSpace(s: string)
  {
    forall i :: 0 <= i < |s| ==> !IsSpace(s[i])
  }

  /** A title without whitespace keeps its characters, and with whitespace it changes. */
  lemma {:induction false} DashedIdentityIff(s: string)
    ensures Dashed(s) == s <==> NoSpace(s)
    decreases |s|
  {
    if s != [] {
      if IsSpace(s[0]) {
        assert Dashed(s)[0] != s[0];
      } else {
        DashedIdentityIff(s[1..]);
        assert Dashed(s) == [s[0]] + Dashed(s[1..]);
        if NoSpace(s) {
          assert NoSpace(s[1..]);
        } else {
          assert !NoSpace(s[1..]);
        }
      }
    }
  }

  /** A dash run between two words: the words are joined by a single dash however long the gap. */
  lemma {:induction false} DashedJoin(a: string, gap: string, b: string)
    requires NoSpace(a) && gap != [] && (forall i :: 0 <= i < |gap| ==> IsSpace(gap[i]))
    requires b == [] || !IsSpace(b[0])
    ensures Dashed(a + gap + b) == Dashed(a) + "-" + Dashed(b)
    decreases |a|
  {
    if a == [] {
      assert a + gap + b == gap + b;
      DashedGap(gap, b);
    } else {
      var tail := a[1..] + gap + b;
      assert NoSpace(a[1..]) by {
        forall i | 0 <= i < |a[1..]| ensures !IsSpace(a[1..][i]) {
          assert a[1..][i] == a[i + 1];
        }
      }
      calc {
        Dashed(a + gap + b);
      == { assert a + gap + b == [a[0]] + tail; }
        Dashed([a[0]] + tail);
      == { DashedCons(a[0], tail); }
        [a[0]] + Dashed(tail);
      == { DashedJoin(a[1..], gap, b); }
        [a[0]] + (Dashed(a[1..]) + "-" + Dashed(b));
      == { DashedCons(a[0], a[1..]); assert a == [a[0]] + a[1..]; }
        Dashed(a) + "-" + Dashed(b);
      }
    }
  }

  /** A leading whitespace run before a word becomes one dash. */
  lemma DashedGap(gap: string, b: string)
    requires gap != [] && (forall i :: 0 <= i < |gap| ==> IsSpace(gap[i]))
    requires b == [] || !IsSpace(b[0])
    ensures Dashed(gap + b) == "-" + Dashed(b)
  {
    assert (gap + b)[0] == gap[0];
    SkipGap(gap, b);
  }

  /** A non-space character in front passes through unchanged. */
  lemma DashedCons(c: char, t: string)
    requires !IsSpace(c)
    ensures Dashed([c] + t) == [c] + Dashed(t)
  {
    assert ([c] + t)[1..] == t;
  }

  lemma {:induction false} SkipGap(gap: string, b: string)
    requires forall i :: 0 <= i < |gap| ==> IsSpace(gap[i])
    requires b == [] || !IsSpace(b[0])
    ensures SkipSpaces(gap + b) == b
    decreases |gap|
  {
    if gap == [] {
      assert gap + b == b;
    } else {
      assert (gap + b)[1..] == gap[1..] + b;
      SkipGap(gap[1..], b);
    }
  }

  /** The `download` attribute: the dashed title, lowercased, with `.jpg` appended. */
  function DownloadName(title: string): (r: string)
    ensures |r| >= 4 && r[|r| - 4..] == ".jpg"
    ensures NoSpace(r)
    ensures forall i :: 0 <= i < |r| ==> !IsUpper(r[i])
  {
    var d := LowerStr(Dashed(title));
    assert forall i :: 0 <= i < |d| ==> !IsSpace(d[i]) && !IsUpper(d[i]);
    assert forall i :: 0 <= i < 4 ==> !IsSpace(".jpg"[i]) && !IsUpper(".jpg"[i]);
    d + ".jpg"
  }

  // ------------------------------------------------------------ page state

  /** The state values of the page that the handlers touch. */
  datatype GalleryState = GalleryState(photos: seq<Photo>, liked: set<string>, searchTerm: string,
                                       selectedFile: Option<FileInfo>, previewUrl: Option<string>,
                                       uploadOpen: bool, uploading: bool)

  function Initial(demo: seq<Photo>): GalleryState
  {
    GalleryState(demo, {}, "", None, None, false, false)
  }

  /** `!previewUrl` is false only for a non-empty URL. */
  predicate HasPreview(s: GalleryState)
  {
    s.previewUrl.Some? && s.previewUrl.value != ""
  }

  /** `handleFileSelect`; the object URL the browser makes for the file is a parameter. */
  function AfterFileSelect(s: GalleryState, file: Option<FileInfo>, objectUrl: string): (r: GalleryState)
    ensures r.photos == s.photos && r.liked == s.liked && r.uploading == s.uploading
    ensures file.None? || !StartsWith(file.value.mimeType, "image/") ==> r == s
    ensures r != s ==> r.selectedFile == file && HasPreview(r) == (objectUrl != "") && r.uploadOpen
  {
    if file.None? || !StartsWith(file.value.mimeType, "image/") then s
    else s.(selectedFile := file, previewUrl := Some(objectUrl), uploadOpen := true)
  }

  /** The upload the timer will complete: the form values and the preview URL it captured. */
  datatype PendingUpload = PendingUpload(values: PhotoForm, url: string)

  /** The synchronous part of `handleUpload`: reject, or mark uploading and schedule the photo. */
  function StartUpload(s: GalleryState, values: PhotoForm): (r: (GalleryState, Option<PendingUpload>))
    ensures r.1.None? <==> s.selectedFile.None? || !HasPreview(s)
    ensures r.1.None? ==> r.0 == s
    ensures r.1.Some? ==> r.0 == s.(uploading := true) && r.1.value.values == values && r.1.value.url != ""
  {
    if s.selectedFile.None? || !HasPreview(s) then (s, None)
    else (s.(uploading := true), Some(PendingUpload(values, s.previewUrl.value)))
  }

  /** The timer callback of `handleUpload`; the id (`Date.now()`) is a parameter. */
  function FinishUpload(s: GalleryState, p: PendingUpload, freshId: string): (r: GalleryState)
    ensures |r.photos| == |s.photos| + 1 && r.photos[1..] == s.photos && r.photos[0].id == freshId && !r.photos[0].featured
    ensures !r.uploading && !r.uploadOpen && r.selectedFile.None? && !HasPreview(r)
    ensures r.liked == s.liked && r.searchTerm == s.searchTerm
  {
    var photo := Photo(freshId, p.values.title, p.values.location, p.values.date, p.url, false);
    s.(photos := [photo] + s.photos, uploading := false, selectedFile := None, previewUrl := None, uploadOpen := false)
  }

  /** `cancelUpload`. */
  function AfterCancel(s: GalleryState): (r: GalleryState)
    ensures r.selectedFile.None? && !HasPreview(r) && !r.uploadOpen
    ensures r.photos == s.photos && r.liked == s.liked && r.uploading == s.uploading
  {
    s.(selectedFile := None, previewUrl := None, uploadOpen := false)
  }

  // ------------------------------------------------------------ properties

  /** No file, or a file that is not an image, changes nothing: no file becomes selected. */
  lemma FileSelectRejects(s: GalleryState, file: Option<FileInfo>, objectUrl: string)
    requires file.None? || !StartsWith(file.value.mimeType, "image/")
    ensures AfterFileSelect(s, file, objectUrl) == s
  {
  }

  /** An image file becomes the selection, its URL the preview, and the dialog opens. */
  lemma FileSelectAccepts(s: GalleryState, f: FileInfo, objectUrl: string)
    requires StartsWith(f.mimeType, "image/")
    ensures var t := AfterFileSelect(s, Some(f), objectUrl);
      t.selectedFile == Some(f) && t.previewUrl == Some(objectUrl) && t.uploadOpen
      && t.photos == s.photos && t.liked == s.liked
  {
  }

  /** Without a selected file or preview the upload is refused and nothing is scheduled. */
  lemma UploadRejected(s: GalleryState, values: PhotoForm)
    requires s.selectedFile.None? || !HasPreview(s)
    ensures StartUpload(s, values) == (s, None)
  {
  }

  /** A started upload, once finished, puts the new unfeatured photo first and clears the selection. */
  lemma UploadPrepends(s: GalleryState, values: PhotoForm, freshId: string)
    requires s.selectedFile.Some? && HasPreview(s)
    ensures var (t, p) := StartUpload(s, values);
      && t.uploading && p.Some?
      && var u := FinishUpload(t, p.value, freshId);
      && u.photos == [Photo(freshId, values.title, values.location, values.date, s.previewUrl.value, false)] + s.photos
      && u.selectedFile.None? && u.previewUrl.None? && !u.uploadOpen && !u.uploading
      && u.liked == s.liked && u.searchTerm == s.searchTerm
  {
  }

  /** Cancelling twice is the same as cancelling once, and keeps the photos. */
  lemma CancelIdempotent(s: GalleryState)
    ensures AfterCancel(AfterCancel(s)) == AfterCancel(s)
    ensures AfterCancel(s).photos == s.photos && !HasPreview(AfterCancel(s))
  {
  }

  // ------------------------------------------------------------ the page

  class GalleryPage {
    var photos: seq<Photo>
    var liked: set<string>
    var searchTerm: string
    var selectedFile: Option<FileInfo>
    var previewUrl: Option<string>
    var uploadOpen: bool
    var uploading: bool

    function State(): GalleryState
      reads this
    {
      GalleryState(photos, liked, searchTerm, selectedFile, previewUrl, uploadOpen, uploading)
    }

    constructor (demo: seq<Photo>)
      ensures State() == Initial(demo)
    {
      photos, liked, searchTerm := demo, {}, "";
      selectedFile, previewUrl, uploadOpen, uploading := None, None, false, false;
    }

    method SetSearch(term: string)
      modifies this
      ensures State() == old(State()).(searchTerm := term)
    {
      searchTerm := term;
    }

    method SelectFile(file: Option<FileInfo>, objectUrl: string)
      modifies this
      ensures State() == AfterFileSelect(old(State()), file, objectUrl)
    {
      if file.None? {
        return;
      }
      if !StartsWith(file.value.mimeType, "image/") {
        return;
      }
      selectedFile := file;
      previewUrl := Some(objectUrl);
      uploadOpen := true;
    }

    method Upload(values: PhotoForm) returns (pending: Option<PendingUpload>)
      modifies this
      ensures (State(), pending) == StartUpload(old(State()), values)
    {
      if selectedFile.None? || previewUrl.None? || previewUrl.value == "" {
        return None;
      }
      uploading := true;
      pending := Some(PendingUpload(values, previewUrl.value));
    }

    method UploadTimerFired(p: PendingUpload, freshId: string)
      modifies this
      ensures State() == FinishUpload(old(State()), p, freshId)
    {
      var photo := Photo(freshId, p.values.title, p.values.location, p.values.date, p.url, false);
      photos := [photo] + photos;
      uploading := false;
      selectedFile := None;
      previewUrl := None;
      uploadOpen := false;
    }

    method CancelUpload()
      modifies this
      ensures State() == AfterCancel(old(State()))
    {
      selectedFile := None;
      previewUrl := None;
      uploadOpen := false;
    }

    method ToggleFeaturedPhoto(id: string)
      modifies this
      ensures State() == old(State()).(photos := ToggleFeatured(old(photos), id))
    {
      photos := ToggleFeatured(photos, id);
    }

    /** The liked set is copied, then the copy loses or gains the id. */
    method ToggleLikePhoto(id: string)
      modifies this
      ensures State() == old(State()).(liked := ToggleLike(old(liked), id))
    {
      var newLikes := liked;
      if id in newLikes {
        newLikes := newLikes - {id};
      } else {
        newLikes := newLikes + {id};
      }
      liked := newLikes;
    }
  }
}
