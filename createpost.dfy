/** The post composer: the two parallel lists of selected files and their
    previews, the submit guard, the upload loop and the record stored for a
    new post (src/pages/CreatePost.tsx). */
module CreatePost {
  import opened Backend
  import opened Account
  import Text

  /** A file picked in the browser's file dialog. */
  datatype File = File(name: string, size: nat)

  /** The document written to the "posts" collection (its server
      timestamp is not modelled). */
  datatype PostRecord = PostRecord(
    userId: string, username: string, userAvatar: string, caption: string,
    location: string, images: seq<string>, likes: int, comments: int,
    isLiked: bool, isBookmarked: bool)

  /** The composer's two parallel lists. */
  datatype Buffers = Buffers(images: seq<File>, previews: seq<string>)

  /** The invariant the composer relies on: one preview per selected file. */
  predicate Paired(b: Buffers) {
    |b.images| == |b.previews|
  }

  /** The previews created for a batch of files, one per file, in order. */
  function Previews(files: seq<File>, previewOf: File -> string): (r: seq<string>)
    ensures |r| == |files|
    ensures forall i :: 0 <= i < |files| ==> r[i] == previewOf(files[i])
  {
    if files == [] then [] else [previewOf(files[0])] + Previews(files[1..], previewOf)
  }

  /** The file input's change handler: append the files and their previews;
      nothing happens when the input holds no file list. */
  function AddFiles(b: Buffers, files: Option<seq<File>>, previewOf: File -> string): (r: Buffers)
    ensures files.None? ==> r == b
    ensures files.Some? ==> |r.images| == |b.images| + |files.value| && |r.previews| == |b.previews| + |files.value|
    ensures Paired(b) ==> Paired(r)
  {
    match files
    case None => b
    case Some(fs) => Buffers(b.images + fs, b.previews + Previews(fs, previewOf))
  }

  /** Where `Array.prototype.splice(i, ...)` starts on a list of length
      `len`: negative positions count from the end, and positions are
      clamped to the list. */
  function SpliceStart(len: nat, i: int): (k: nat)
    ensures k <= len
    ensures 0 <= i <= len ==> k == i
    ensures i < 0 ==> k == (if len + i < 0 then 0 else len + i)
    ensures i > len ==> k == len
  {
    if i < 0 then (if len + i < 0 then 0 else len + i)
    else if i > len then len
    else i
  }

  /** `s.splice(i, 1)` applied to a copy: removes the element at the start
      position if there is one. */
  function SpliceOne<T>(s: seq<T>, i: int): (r: seq<T>)
    ensures SpliceStart(|s|, i) < |s| ==> |r| == |s| - 1
    ensures SpliceStart(|s|, i) == |s| ==> r == s
    ensures forall k :: 0 <= k < SpliceStart(|s|, i) && k < |r| ==> r[k] == s[k]
    ensures forall k :: SpliceStart(|s|, i) <= k < |r| ==> r[k] == s[k + 1]
  {
    var k := SpliceStart(|s|, i);
    if k < |s| then s[..k] + s[k + 1..] else s
  }

  /** The remove button of preview `index`: the same position is spliced out
      of both lists. */
  function RemoveAt(b: Buffers, index: int): (r: Buffers)
    ensures Paired(b) ==> Paired(r)
    ensures SpliceStart(|b.images|, index) < |b.images| ==> |r.images| == |b.images| - 1
    ensures Paired(b) && SpliceStart(|b.images|, index) == |b.images| ==> r == b
  {
    Buffers(SpliceOne(b.images, index), SpliceOne(b.previews, index))
  }

  /** Adding files keeps the lists paired and appends, in order, the files
      and one preview per file. */
  lemma AddFilesKeepsPairs(b: Buffers, files: seq<File>, previewOf: File -> string)
    requires Paired(b)
    ensures Paired(AddFiles(b, Some(files), previewOf))
    ensures AddFiles(b, Some(files), previewOf).images[..|b.images|] == b.images
    ensures AddFiles(b, Some(files), previewOf).previews[..|b.previews|] == b.previews
    ensures forall i :: 0 <= i < |files| ==>
      var r := AddFiles(b, Some(files), previewOf);
      r.images[|b.images| + i] == files[i] && r.previews[|b.images| + i] == previewOf(files[i])
  {
    var ps := Previews(files, previewOf);
    var r := AddFiles(b, Some(files), previewOf);
    assert r.images == b.images + files;
    assert r.previews == b.previews + ps;
    AppendKeepsParts(b.images, files);
    AppendKeepsParts(b.previews, ps);
  }

  /** What `[...a, ...b]` holds: `a` first, then `b` element by element. */
  lemma AppendKeepsParts<T>(a: seq<T>, b: seq<T>)
    ensures (a + b)[..|a|] == a
    ensures forall i :: 0 <= i < |b| ==> (a + b)[|a| + i] == b[i]
  {
  }

  /** The pairs of a paired buffer. */
  function Zip(b: Buffers): (z: seq<(File, string)>)
    requires Paired(b)
    ensures |z| == |b.images|
    ensures forall k :: 0 <= k < |z| ==> z[k] == (b.images[k], b.previews[k])
    decreases |b.images|
  {
    if b.images == [] then []
    else [(b.images[0], b.previews[0])] + Zip(Buffers(b.images[1..], b.previews[1..]))
  }

  /** Removing keeps the lists paired, and the remaining (file, preview)
      pairs are the old ones with the chosen pair spliced out: no preview
      ends up beside another file. */
  lemma RemoveKeepsPairs(b: Buffers, index: int)
    requires Paired(b)
    ensures Paired(RemoveAt(b, index))
    ensures Zip(RemoveAt(b, index)) == SpliceOne(Zip(b), index)
  {
    var r := RemoveAt(b, index);
    var k := SpliceStart(|b.images|, index);
    assert Paired(r);
    var lhs, rhs := Zip(r), SpliceOne(Zip(b), index);
    assert |lhs| == |rhs|;
    forall j | 0 <= j < |lhs|
      ensures lhs[j] == rhs[j]
    {
      if j < k {
        assert lhs[j] == (b.images[j], b.previews[j]);
      } else {
        assert lhs[j] == (b.images[j + 1], b.previews[j + 1]);
      }
    }
  }

  /** Selecting files is not capped at ten: the "Add more photos" control is
      only hidden, so one selection can take the composer past ten images. */
  lemma UploadNotCapped(b: Buffers, files: seq<File>, previewOf: File -> string)
    requires |b.images| == 9 && |files| == 2
    ensures OffersMorePhotos(|b.images|)
    ensures |AddFiles(b, Some(files), previewOf).images| == 11
    ensures !OffersMorePhotos(|AddFiles(b, Some(files), previewOf).images|)
  {
  }

  /** "Add more photos" belongs to the preview grid, shown once at least
      one image is held, and is offered only while fewer than ten are held.
      With no image the "Upload Photos" area is shown instead. */
  predicate OffersMorePhotos(imageCount: int)
    ensures 1 <= imageCount < 10 ==> OffersMorePhotos(imageCount)
    ensures imageCount == 0 ==> !OffersMorePhotos(imageCount)
    ensures imageCount >= 10 ==> !OffersMorePhotos(imageCount)
  {
    imageCount != 0 && imageCount < 10
  }

  /** `!caption.trim() && images.length === 0`: nothing to share. */
  predicate NothingToShare(caption: string, imageCount: int)
    ensures NothingToShare(caption, imageCount) <==>
      imageCount == 0 && forall i :: 0 <= i < |caption| ==> Text.IsSpace(caption[i])
  {
    Text.BlankIffAllSpace(caption);
    Text.IsBlank(caption) && imageCount == 0
  }

  /** The Share button's `disabled` attribute. */
  predicate ShareDisabled(caption: string, imageCount: int, loading: bool)
    ensures loading ==> ShareDisabled(caption, imageCount, loading)
    ensures imageCount != 0 ==> (ShareDisabled(caption, imageCount, loading) <==> loading)
    ensures (exists i :: 0 <= i < |caption| && !Text.IsSpace(caption[i])) ==>
      (ShareDisabled(caption, imageCount, loading) <==> loading)
  {
    NothingToShare(caption, imageCount) || loading
  }

  /** The first line of `handleSubmit`: it proceeds only with a user and
      something to share. */
  predicate SubmitProceeds(user: Option<User>, caption: string, imageCount: int)
    ensures SubmitProceeds(user, caption, imageCount) <==>
      user.Some? && (imageCount != 0 || exists i :: 0 <= i < |caption| && !Text.IsSpace(caption[i]))
  {
    user.Some? && !NothingToShare(caption, imageCount)
  }

  /** The button and the handler agree: an enabled Share button with a user
      signed in always submits, and a submission that proceeds finds the
      button enabled unless a previous one is still loading. The handler
      itself does not look at `loading`. */
  lemma ShareButtonMatchesGuard(user: Option<User>, caption: string, imageCount: int, loading: bool)
    ensures user.Some? && !ShareDisabled(caption, imageCount, loading) ==> SubmitProceeds(user, caption, imageCount)
    ensures SubmitProceeds(user, caption, imageCount) ==> (ShareDisabled(caption, imageCount, loading) <==> loading)
    ensures ShareDisabled(caption, imageCount, loading) <==>
      loading || (imageCount == 0 && forall i :: 0 <= i < |caption| ==> Text.IsSpace(caption[i]))
  {
    Text.BlankIffAllSpace(caption);
  }

  /** `user.displayName || user.email?.split("@")[0] || "Anonymous"`: the
      author name stored with a post. Never empty and, unless it is the
      display name, free of "@". */
  function AuthorName(u: User): (r: string)
    ensures r != ""
    ensures Present(u.displayName) ==> r == u.displayName.value
    ensures !Present(u.displayName) && Present(EmailPrefix(u)) ==> r == EmailPrefix(u).value && '@' !in r
    ensures !Present(u.displayName) && !Present(EmailPrefix(u)) ==> r == "Anonymous"
  {
    match OrElse(u.displayName, EmailPrefix(u))
    case Some(name) => if name != "" then name else "Anonymous"
    case None => "Anonymous"
  }

  /** An email starting with "@" has an empty prefix, so the name falls
      through to "Anonymous". */
  lemma EmptyPrefixIsAnonymous(u: User)
    requires !Present(u.displayName) && u.email.Some? && |u.email.value| > 0 && u.email.value[0] == '@'
    ensures AuthorName(u) == "Anonymous"
  {
    assert EmailPrefix(u) == Some("");
  }

  /** The record `handleSubmit` stores: a fresh post with no likes or
      comments, not liked or bookmarked, the uploaded URLs in upload order
      and the caption as typed, of whatever length. */
  function NewPost(u: User, caption: string, location: string, urls: seq<string>): (p: PostRecord)
    ensures p.likes == 0 && p.comments == 0 && !p.isLiked && !p.isBookmarked
    ensures p.images == urls && p.caption == caption && p.location == location
    ensures p.userId == u.uid && p.username == AuthorName(u) && p.username != ""
    ensures p.userAvatar == (if Present(u.photoURL) then u.photoURL.value else "")
  {
    PostRecord(
      u.uid, AuthorName(u), if Present(u.photoURL) then u.photoURL.value else "",
      caption, location, urls, 0, 0, false, false)
  }

  /** Whether every upload succeeded. */
  predicate AllUploaded(images: seq<File>, upload: File -> Option<string>) {
    forall i :: 0 <= i < |images| ==> upload(images[i]).Some?
  }

  /** The upload loop: uploads the images one at a time, in order, and
      collects their download URLs; the first failing upload throws, which
      ends the loop. `attempted` is how many uploads were started: all of
      them on success, up to and including the first failing one
      otherwise. */
  method UploadAll(images: seq<File>, upload: File -> Option<string>)
    returns (urls: Option<seq<string>>, attempted: nat)
    ensures urls.Some? <==> AllUploaded(images, upload)
    ensures urls.Some? ==> |urls.value| == |images|
    ensures urls.Some? ==> forall i :: 0 <= i < |images| ==> urls.value[i] == upload(images[i]).value
    ensures urls.Some? ==> attempted == |images|
    ensures urls.None? ==> 1 <= attempted <= |images| && upload(images[attempted - 1]).None?
    ensures urls.None? ==> forall j :: 0 <= j < attempted - 1 ==> upload(images[j]).Some?
  {
    var imageUrls: seq<string> := [];
    var i := 0;
    while i < |images|
      invariant 0 <= i <= |images|
      invariant |imageUrls| == i
      invariant forall j :: 0 <= j < i ==> upload(images[j]).Some? && imageUrls[j] == upload(images[j]).value
    {
      match upload(images[i])
      case None =>
        return None, i + 1;
      case Some(url) =>
        imageUrls := imageUrls + [url];
      i := i + 1;
    }
    return Some(imageUrls), i;
  }

  /** The composer page's state. */
  class Composer {
    var caption: string
    var location: string
    var images: seq<File>
    var imagePreviews: seq<string>
    var loading: bool
    /** Paths passed to `navigate`, oldest first. */
    var navigations: seq<string>

    function Lists(): Buffers
      reads this
    {
      Buffers(images, imagePreviews)
    }

    ghost predicate Valid()
      reads this
    {
      Paired(Lists())
    }

    constructor ()
      ensures Valid()
      ensures caption == "" && location == "" && images == [] && imagePreviews == []
      ensures !loading && navigations == []
    {
      caption, location := "", "";
      images, imagePreviews := [], [];
      loading := false;
      navigations := [];
    }

    method SetCaption(text: string)
      modifies this
      ensures caption == text
      ensures Lists() == old(Lists()) && location == old(location)
      ensures loading == old(loading) && navigations == old(navigations)
    {
      caption := text;
    }

    method SetLocation(text: string)
      modifies this
      ensures location == text
      ensures Lists() == old(Lists()) && caption == old(caption)
      ensures loading == old(loading) && navigations == old(navigations)
    {
      location := text;
    }

    /** `handleImageUpload`; `previewOf` stands for the browser's object-URL
        service. */
    method HandleImageUpload(files: Option<seq<File>>, previewOf: File -> string)
      requires Valid()
      modifies this
      ensures Valid()
      ensures Lists() == AddFiles(old(Lists()), files, previewOf)
      ensures caption == old(caption) && location == old(location)
      ensures loading == old(loading) && navigations == old(navigations)
    {
      if files.Some? {
        var fs := files.value;
        images := images + fs;
        var previews := Previews(fs, previewOf);
        imagePreviews := imagePreviews + previews;
      }
    }

    /** `removeImage(index)`: both lists are copied, the copies spliced at
        `index` and stored back. */
    method RemoveImage(index: int)
      requires Valid()
      modifies this
      ensures Valid()
      ensures Lists() == RemoveAt(old(Lists()), index)
      ensures caption == old(caption) && location == old(location)
      ensures loading == old(loading) && navigations == old(navigations)
    {
      var newImages := SpliceOne(images, index);
      var newPreviews := SpliceOne(imagePreviews, index);
      images := newImages;
      imagePreviews := newPreviews;
    }

    /** `handleSubmit`. `upload` stands for storing one image and fetching
        its download URL, `stored` for whether writing the record succeeds.
        Returns the record written, if any. `busy` is the value of
        `loading` while the uploads and the write are awaited. */
    method HandleSubmit(user: Option<User>, upload: File -> Option<string>, stored: bool)
      returns (written: Option<PostRecord>, ghost busy: bool)
      requires Valid()
      modifies this
      ensures Valid()
      ensures Lists() == old(Lists()) && caption == old(caption) && location == old(location)
      ensures !SubmitProceeds(user, old(caption), |old(images)|) ==>
        written.None? && loading == old(loading) && navigations == old(navigations)
      ensures SubmitProceeds(user, old(caption), |old(images)|) ==> busy && !loading
      ensures written.Some? <==>
        SubmitProceeds(user, old(caption), |old(images)|) && AllUploaded(old(images), upload) && stored
      ensures written.Some? ==> navigations == old(navigations) + ["/"]
      ensures written.Some? ==> exists urls ::
        |urls| == |old(images)| &&
        (forall i :: 0 <= i < |urls| ==> urls[i] == upload(old(images)[i]).value) &&
        written.value == NewPost(user.value, old(caption), old(location), urls)
      ensures written.None? ==> navigations == old(navigations)
    {
      busy := loading;
      written := None;
      if user.None? || (Text.IsBlank(caption) && |images| == 0) {
        return;
      }
      loading := true;
      busy := loading;
      var urls, _ := UploadAll(images, upload);
      if urls.Some? {
        var post := NewPost(user.value, caption, location, urls.value);
        if stored {
          navigations := navigations + ["/"];
          written := Some(post);
        }
      }
      loading := false;
    }
  }
}
