/** The upload widget (frontend/src/components/FileUpload.jsx): the client-side
    extension check, the preview URL it owns, the upload outcome with its
    storage writes, and removal. `handleSelect` is split at its `await`. */
module FileUploadWidget {
  import opened Wrappers
  import opened Text
  import opened Ui
  import Wire
  import Api
  import Browser

  /** The allow-list of the file picker's check. */
  const SupportedExtensions: seq<string> :=
    ["pdf", "doc", "docx", "jpg", "jpeg", "png", "bmp", "tiff", "gif"]

  /** Lowering a name keeps the dots where they are and adds none. */
  lemma LowerKeepsDots(name: string)
    ensures '.' in Lower(name) <==> '.' in name
  {
    if '.' in Lower(name) {
      var i :| 0 <= i < |name| && Lower(name)[i] == '.';
      assert name[i] == '.';
    }
    if '.' in name {
      var i :| 0 <= i < |name| && name[i] == '.';
      assert Lower(name)[i] == '.';
    }
  }

  /** `file.name.toLowerCase().split('.').pop()`: the lowered text after the
      last `.`, or the whole lowered name when it has no `.`. */
  function Extension(name: string): (r: string)
    ensures '.' !in r
    ensures EndPiece(Lower(name), r, '.')
    ensures '.' !in name ==> r == Lower(name)
  {
    var lowered := Lower(name);
    SplitLast(lowered, '.');
    LowerKeepsDots(name);
    Last(Split(lowered, '.'))
  }

  /** A listed extension that ends the lowered name after a `.` (or is all
      of it) is the name's extension. */
  lemma ListedEndings(name: string)
    ensures forall e :: e in SupportedExtensions && EndPiece(Lower(name), e, '.') ==> Extension(name) == e
  {
    forall e | e in SupportedExtensions && EndPiece(Lower(name), e, '.') ensures Extension(name) == e {
      assert '.' !in e;
      EndPieceUnique(Lower(name), e, Extension(name), '.');
    }
  }

  /** The file picker's check: the lowered name is a listed extension, or ends
      with `.` and one. */
  predicate IsSupported(name: string)
    ensures IsSupported(name) <==> exists e :: e in SupportedExtensions && EndPiece(Lower(name), e, '.')
  {
    ListedEndings(name);
    Extension(name) in SupportedExtensions
  }

  /** Nine parts joined, in three groups of three. */
  lemma JoinNine(a: string, b: string, c: string, d: string, e: string, f: string, g: string, h: string, i: string,
                 sep: string)
    ensures Join([a, b, c, d, e, f, g, h, i], sep)
            == (a + sep + b + sep + c + sep) + (d + sep + e + sep + f + sep) + (g + sep + h + sep + i)
  {
    JoinCons(h, [i], sep);
    assert [g] + [h, i] == [g, h, i];
    JoinCons(g, [h, i], sep);
    assert [d, e, f] + [g, h, i] == [d, e, f, g, h, i];
    JoinThree(d, e, f, [g, h, i], sep);
    assert [a, b, c] + [d, e, f, g, h, i] == [a, b, c, d, e, f, g, h, i];
    JoinThree(a, b, c, [d, e, f, g, h, i], sep);
  }

  /** The three groups of the list, spelled out. */
  lemma FormatsGroups()
    ensures "pdf" + ", " + "doc" + ", " + "docx" + ", " == "pdf, doc, docx, "
    ensures "jpg" + ", " + "jpeg" + ", " + "png" + ", " == "jpg, jpeg, png, "
    ensures "bmp" + ", " + "tiff" + ", " + "gif" == "bmp, tiff, gif"
  {
  }

  /** ... and put together. */
  lemma FormatsSpelled()
    ensures "pdf, doc, docx, " + "jpg, jpeg, png, " + "bmp, tiff, gif" == "pdf, doc, docx, jpg, jpeg, png, bmp, tiff, gif"
  {
  }

  /** The nine extensions joined with `, `, spelled out. */
  lemma FormatsLiteral()
    ensures Join(SupportedExtensions, ", ") == "pdf, doc, docx, jpg, jpeg, png, bmp, tiff, gif"
  {
    JoinNine("pdf", "doc", "docx", "jpg", "jpeg", "png", "bmp", "tiff", "gif", ", ");
    FormatsGroups();
    FormatsSpelled();
  }

  /** The toast of a rejected file: `upload.unsupported` with the list, joined
      with `, `, as its `formats` parameter, so that every listed extension is
      named in it. */
  function UnsupportedToast(): (r: Toast)
    ensures r.Error? && r.msg.Key? && r.msg.key == "upload.unsupported"
    ensures |r.msg.params| == 1 && r.msg.params[0].0 == "formats"
            && forall e :: e in SupportedExtensions ==> Contains(r.msg.params[0].1, e)
    ensures r.msg.params[0].1 == "pdf, doc, docx, jpg, jpeg, png, bmp, tiff, gif"
  {
    JoinContains(SupportedExtensions, ", ");
    FormatsLiteral();
    Error(Key("upload.unsupported", [("formats", Join(SupportedExtensions, ", "))]))
  }

  /** A name without a dot that spells an allowed extension passes the check. */
  lemma BareExtensionPasses()
    ensures Extension("pdf") == "pdf" && IsSupported("pdf")
  {
    var name := "pdf";
    assert name[0] != '.' && name[1] != '.' && name[2] != '.';
    assert '.' !in name;
    assert Lower(name) == name;
    assert SupportedExtensions[0] == name;
  }

  /** The upload is taken as done exactly when `res.ok` holds and the body parses. */
  predicate Uploaded(res: Api.Response<Wire.UploadReply>) {
    res.Response? && Api.IsOk(res.status) && res.body.Json?
  }

  /** The widget's state: the preview URL it holds (`previewUrlRef`), the
      loading flag, the shown name, and the object URLs it has created and not
      yet revoked. */
  class FileUpload {
    const store: Browser.LocalStorage
    var previewUrl: string
    var liveUrls: set<string>
    var isLoading: bool
    var selectedName: string

    /** At most one object URL is live: the one the widget holds. */
    ghost predicate Valid()
      reads this
    {
      liveUrls == if previewUrl == "" then {} else {previewUrl}
    }

    /** The `useRef` / `useState` defaults. */
    constructor (store: Browser.LocalStorage)
      ensures this.store == store
      ensures previewUrl == "" && liveUrls == {} && !isLoading && selectedName == ""
      ensures Valid()
    {
      this.store := store;
      previewUrl := "";
      liveUrls := {};
      isLoading := false;
      selectedName := "";
    }

    /** The mount effect: a stored, non-empty file name is shown. */
    method RestoreName()
      modifies this`selectedName
      ensures Truthy(store.GetItem(Browser.DocNameKey)) ==> selectedName == store.items[Browser.DocNameKey]
      ensures !Truthy(store.GetItem(Browser.DocNameKey)) ==> selectedName == old(selectedName)
    {
      var saved := store.GetItem(Browser.DocNameKey).GetOr("");
      if saved != "" {
        selectedName := saved;
      }
    }

    /** `handleSelect` up to `await fetch(...)`. `file` is the picked file's
        name (`None` when nothing was picked); `blob` is what
        `URL.createObjectURL` returns, `None` when it throws. A supported file
        replaces the preview (revoking the old URL), reports it through
        `onPreviewReady`, sets `isLoading` and yields the name to upload. */
    method SelectStart(file: Option<string>, blob: Option<string>)
      returns (upload: Option<string>, toast: Option<Toast>, preview: Notice<string>)
      requires Valid()
      requires blob.Some? ==> blob.value != "" && blob.value !in liveUrls
      modifies this`previewUrl, this`liveUrls, this`isLoading
      ensures Valid()
      ensures file.None? ==> upload.None? && toast.None? && preview.NotCalled?
      ensures file.Some? && !IsSupported(file.value)
              ==> upload.None? && toast == Some(UnsupportedToast()) && preview.NotCalled?
      ensures !(file.Some? && IsSupported(file.value))
              ==> previewUrl == old(previewUrl) && liveUrls == old(liveUrls) && isLoading == old(isLoading)
      ensures file.Some? && IsSupported(file.value)
              ==> upload == file && toast.None? && isLoading
      ensures file.Some? && IsSupported(file.value) && blob.Some?
              ==> previewUrl == blob.value && liveUrls == {blob.value} && preview == Called(blob.value)
      ensures file.Some? && IsSupported(file.value) && blob.None?
              ==> previewUrl == old(previewUrl) && liveUrls == old(liveUrls) && preview.NotCalled?
    {
      upload, toast, preview := None, None, NotCalled;
      if file.None? {
        return;
      }
      var name := file.value;
      if Extension(name) !in SupportedExtensions {
        toast := Some(UnsupportedToast());
        return;
      }
      if blob.Some? {
        var url := blob.value;
        liveUrls := liveUrls + {url};
        if previewUrl != "" {
          liveUrls := liveUrls - {previewUrl};
        }
        previewUrl := url;
        preview := Called(url);
      }
      isLoading := true;
      upload := Some(name);
    }

    /** `handleSelect` from the response to `fetch`: on success the toast, the
        shown name, both storage keys and `onUploaded(doc_id)`; on any failure
        only the error toast. `isLoading` ends false either way. */
    method SelectComplete(name: string, res: Api.Response<Wire.UploadReply>)
      returns (toast: Toast, uploaded: Notice<Option<string>>)
      modifies this`isLoading, this`selectedName, store
      ensures !isLoading
      ensures Uploaded(res) ==> toast == Success(KeyOnly("upload.success")) && selectedName == name
                                && uploaded == Called(Some(res.body.data.docId))
                                && store.items == old(store.items)[Browser.DocIdKey := res.body.data.docId]
                                                                 [Browser.DocNameKey := name]
      ensures !Uploaded(res) ==> toast == Error(KeyOnly("upload.error")) && selectedName == old(selectedName)
                                 && uploaded.NotCalled? && store.items == old(store.items)
    {
      if Uploaded(res) {
        var data := res.body.data;
        toast := Success(KeyOnly("upload.success"));
        selectedName := name;
        store.SetItem(Browser.DocIdKey, data.docId);
        store.SetItem(Browser.DocNameKey, name);
        uploaded := Called(Some(data.docId));
      } else {
        toast := Error(KeyOnly("upload.error"));
        uploaded := NotCalled;
      }
      isLoading := false;
    }

    /** `handleRemove`: both keys go, the name is cleared, `onUploaded(null)`,
        the preview is revoked and cleared, and `onPreviewReady('')`. */
    method Remove() returns (toast: Toast, uploaded: Notice<Option<string>>, preview: Notice<string>)
      requires Valid()
      modifies this`selectedName, this`previewUrl, this`liveUrls, store
      ensures Valid() && previewUrl == "" && liveUrls == {}
      ensures selectedName == ""
      ensures store.items == old(store.items) - {Browser.DocIdKey, Browser.DocNameKey}
      ensures uploaded == Called(None) && preview == Called("")
      ensures toast == Success(KeyOnly("upload.removed"))
    {
      store.RemoveItem(Browser.DocIdKey);
      store.RemoveItem(Browser.DocNameKey);
      selectedName := "";
      uploaded := Called(None);
      if previewUrl != "" {
        liveUrls := liveUrls - {previewUrl};
        previewUrl := "";
      }
      preview := Called("");
      toast := Success(KeyOnly("upload.removed"));
    }
  }
}
