/**
 * The image upload handler (`handleImageUpload` in main.go): an ordered
 * sequence of early-exit checks that ends in exactly one JSON response.
 * The multipart form, the content-type sniffer, the clock, the random
 * source and the outcomes of the filesystem calls are all inputs.
 */
module Upload {
  import opened Wrappers
  import opened Http
  import Naming
  import GoTypes

  /** The directory uploads are stored in, relative to the working directory. */
  const UploadsDir: string := "static/uploads"

  /** The public path prefix under which stored uploads are served. */
  const PublicPrefix: string := "/static/uploads/"

  /** How many leading bytes are handed to the content-type sniffer at most. */
  const SniffLen: nat := 512

  /** The accepted sniffed content types and the extension each is stored with. */
  const ExtMap: map<string, string> := map[
    "image/jpeg" := ".jpg",
    "image/png" := ".png",
    "image/gif" := ".gif",
    "image/webp" := ".webp"
  ]

  /**
   * Exactly four types are accepted; no two share an extension; every
   * extension is a '.' followed by letters, so it holds no '/' or '_'.
   */
  lemma ExtMapTable()
    ensures ExtMap.Keys == {"image/jpeg", "image/png", "image/gif", "image/webp"}
    ensures forall t, t' :: t in ExtMap && t' in ExtMap && t != t' ==> ExtMap[t] != ExtMap[t']
    ensures forall t :: t in ExtMap ==>
      (|ExtMap[t]| >= 2 && ExtMap[t][0] == '.' && forall i :: 1 <= i < |ExtMap[t]| ==> 'a' <= ExtMap[t][i] <= 'z')
  {
  }

  /** How the first read of the upload ended. */
  datatype ReadErr = NoError | EOF | ReadFailed

  /**
   * The multipart file under the field "image": the client's file name and
   * declared type (which the handler never consults), its bytes, whether
   * opening it succeeds, and how many bytes the first Read delivered and
   * with what error.
   */
  datatype UploadedFile = UploadedFile(
    clientName: string,
    clientType: string,
    content: seq<Byte>,
    opens: bool,
    readCount: nat,
    readErr: ReadErr)

  /**
   * What io.Reader guarantees of the first Read into the 512-byte buffer:
   * it delivers at most 512 bytes, and they are the first bytes of the file.
   */
  predicate ReaderContract(f: UploadedFile)
  {
    f.readCount <= SniffLen && f.readCount <= |f.content|
  }

  /** The bytes the sniffer sees: `header[:n]`. */
  function Header(f: UploadedFile): (h: seq<Byte>)
    requires ReaderContract(f)
    ensures |h| == f.readCount
    ensures |h| <= SniffLen && |h| <= |f.content| && h == f.content[..|h|]
  {
    f.content[..f.readCount]
  }

  /** A filesystem call the handler makes. */
  datatype DiskCall = MkdirAll(path: string) | Save(path: string, data: seq<Byte>)

  /** `filepath.Join(UploadsDir, name)` for a name without separators or dot segments. */
  function StoredPath(name: string): (path: string)
    ensures |path| == |UploadsDir| + 1 + |name|
    ensures path[..|UploadsDir| + 1] == UploadsDir + "/"
    ensures path[|UploadsDir| + 1..] == name
  {
    UploadsDir + "/" + name
  }

  /** The filesystem calls made and the JSON response written, in that order. */
  datatype Outcome = Outcome(calls: seq<DiskCall>, status: int, body: JsonBody)

  /**
   * The checks of `handleImageUpload`, in their order: missing field (400),
   * open failure (500), read failure other than EOF (500), unsupported
   * sniffed type (400), mkdir failure (500), save failure (500), else 200
   * with the public URL.
   */
  function UploadOutcome(form: Option<UploadedFile>, sniff: seq<Byte> -> string,
                         mkdirOk: bool, saveOk: bool, now: GoTypes.Int64, rnd: GoTypes.Uint32): (o: Outcome)
    requires form.Some? ==> ReaderContract(form.value)
    ensures o.status in {StatusOK, StatusBadRequest, StatusInternalServerError}
    ensures o.body.UrlBody? <==> o.status == StatusOK
    ensures |o.calls| <= 2 && (o.calls != [] ==> o.calls[0] == MkdirAll(UploadsDir))
    ensures |o.calls| == 2 ==> form.Some? && o.calls[1].Save? && o.calls[1].data == form.value.content
  {
    if form.None? then Outcome([], StatusBadRequest, ErrorBody("no image provided"))
    else
      var f := form.value;
      if !f.opens || f.readErr == ReadFailed then
        Outcome([], StatusInternalServerError, ErrorBody("failed to read image"))
      else
        var ct := sniff(Header(f));
        if ct !in ExtMap then
          Outcome([], StatusBadRequest, ErrorBody("unsupported image type; use JPEG, PNG, GIF or WebP"))
        else if !mkdirOk then
          Outcome([MkdirAll(UploadsDir)], StatusInternalServerError, ErrorBody("storage error"))
        else
          var name := Naming.Filename(now, rnd, ExtMap[ct]);
          var calls := [MkdirAll(UploadsDir), Save(StoredPath(name), f.content)];
          if !saveOk then Outcome(calls, StatusInternalServerError, ErrorBody("failed to save image"))
          else Outcome(calls, StatusOK, UrlBody(PublicPrefix + name))
  }

  /** Whether the upload passes the three checks before any filesystem call. */
  predicate Admissible(form: Option<UploadedFile>, sniff: seq<Byte> -> string)
    requires form.Some? ==> ReaderContract(form.value)
  {
    form.Some? && form.value.opens && form.value.readErr != ReadFailed && sniff(Header(form.value)) in ExtMap
  }

  /**
   * Nothing touches the filesystem unless the field is present, opens,
   * reads and sniffs as an accepted type; a missing field or an
   * unsupported type is a 400 with no filesystem call at all.
   */
  lemma RejectedUploadWritesNothing(form: Option<UploadedFile>, sniff: seq<Byte> -> string,
                                    mkdirOk: bool, saveOk: bool, now: GoTypes.Int64, rnd: GoTypes.Uint32)
    requires form.Some? ==> ReaderContract(form.value)
    ensures var o := UploadOutcome(form, sniff, mkdirOk, saveOk, now, rnd);
      && (o.calls == [] <==> !Admissible(form, sniff))
      && (o.status == StatusBadRequest <==>
            form.None? || (form.value.opens && form.value.readErr != ReadFailed && !Admissible(form, sniff)))
      && (o.status == StatusBadRequest ==> o.calls == [])
  {
  }

  /**
   * The filesystem calls follow a fixed order: the directory is created
   * before anything is saved, a save is attempted only after the directory
   * exists, and at most one file is written, inside UploadsDir, holding the
   * whole upload.
   */
  lemma UploadDiskCalls(form: Option<UploadedFile>, sniff: seq<Byte> -> string,
                        mkdirOk: bool, saveOk: bool, now: GoTypes.Int64, rnd: GoTypes.Uint32)
    requires form.Some? ==> ReaderContract(form.value)
    ensures var o := UploadOutcome(form, sniff, mkdirOk, saveOk, now, rnd);
      && |o.calls| <= 2
      && (o.calls != [] ==> o.calls[0] == MkdirAll(UploadsDir))
      && (|o.calls| == 2 <==> Admissible(form, sniff) && mkdirOk)
      && (|o.calls| == 2 ==>
            (o.calls[1].Save? && o.calls[1].data == form.value.content &&
             o.calls[1].path[..|UploadsDir| + 1] == UploadsDir + "/"))
  {
  }

  /** The response is 200 exactly when every check passes and both filesystem calls succeed. */
  lemma UploadStatus(form: Option<UploadedFile>, sniff: seq<Byte> -> string,
                     mkdirOk: bool, saveOk: bool, now: GoTypes.Int64, rnd: GoTypes.Uint32)
    requires form.Some? ==> ReaderContract(form.value)
    ensures var o := UploadOutcome(form, sniff, mkdirOk, saveOk, now, rnd);
      o.status == StatusOK <==> Admissible(form, sniff) && mkdirOk && saveOk
  {
  }

  /**
   * On success the URL is the public path of the file just saved, named by
   * the timestamp, the random value and the extension of the sniffed type.
   */
  lemma UploadSuccess(f: UploadedFile, sniff: seq<Byte> -> string, now: GoTypes.Int64, rnd: GoTypes.Uint32)
    requires ReaderContract(f) && Admissible(Some(f), sniff)
    ensures var o := UploadOutcome(Some(f), sniff, true, true, now, rnd);
      var name := Naming.Filename(now, rnd, ExtMap[sniff(Header(f))]);
      && o.status == StatusOK
      && o.body == UrlBody(PublicPrefix + name)
      && o.calls == [MkdirAll(UploadsDir), Save(StoredPath(name), f.content)]
      && o.body.url == "/" + StoredPath(name)
  {
    var name := Naming.Filename(now, rnd, ExtMap[sniff(Header(f))]);
    PublicUrlIsStoredPath(name);
  }

  /** The public URL of a stored file is its storage path, rooted at "/". */
  lemma PublicUrlIsStoredPath(name: string)
    ensures PublicPrefix + name == "/" + StoredPath(name)
  {
    assert PublicPrefix == "/" + UploadsDir + "/";
  }

  /**
   * Only the sniffed header decides: two uploads that agree on how opening
   * and the first read went and on the bytes read get the same response,
   * whatever their client-declared name and type and whatever follows the
   * header.
   */
  lemma DecisionSeesOnlyHeader(f: UploadedFile, f': UploadedFile, sniff: seq<Byte> -> string,
                               mkdirOk: bool, saveOk: bool, now: GoTypes.Int64, rnd: GoTypes.Uint32)
    requires ReaderContract(f) && ReaderContract(f')
    requires f.opens == f'.opens && f.readErr == f'.readErr && Header(f) == Header(f')
    ensures var o := UploadOutcome(Some(f), sniff, mkdirOk, saveOk, now, rnd);
      var o' := UploadOutcome(Some(f'), sniff, mkdirOk, saveOk, now, rnd);
      o.status == o'.status && o.body == o'.body && |o.calls| == |o'.calls|
  {
  }

  /**
   * Two successful uploads whose (timestamp, random) pairs differ are stored
   * under different paths and get different URLs.
   */
  lemma DistinctStampsDistinctFiles(form: Option<UploadedFile>, form': Option<UploadedFile>,
                                    sniff: seq<Byte> -> string,
                                    now: GoTypes.Int64, rnd: GoTypes.Uint32, now': GoTypes.Int64, rnd': GoTypes.Uint32)
    requires form.Some? ==> ReaderContract(form.value)
    requires form'.Some? ==> ReaderContract(form'.value)
    requires (now, rnd) != (now', rnd')
    ensures var o := UploadOutcome(form, sniff, true, true, now, rnd);
      var o' := UploadOutcome(form', sniff, true, true, now', rnd');
      o.status == StatusOK && o'.status == StatusOK ==>
        o.body.url != o'.body.url && o.calls[1].path != o'.calls[1].path
  {
    var o := UploadOutcome(form, sniff, true, true, now, rnd);
    var o' := UploadOutcome(form', sniff, true, true, now', rnd');
    if o.status == StatusOK && o'.status == StatusOK {
      var ext := ExtMap[sniff(Header(form.value))];
      var ext' := ExtMap[sniff(Header(form'.value))];
      var name := Naming.Filename(now, rnd, ext);
      var name' := Naming.Filename(now', rnd', ext');
      if name == name' {
        Naming.FilenameInjective(now, rnd, ext, now', rnd', ext');
      }
      assert o.body.url == PublicPrefix + name && o'.body.url == PublicPrefix + name';
      assert o.calls[1].path == StoredPath(name) && o'.calls[1].path == StoredPath(name');
      assert (PublicPrefix + name)[|PublicPrefix|..] == name;
      assert (PublicPrefix + name')[|PublicPrefix|..] == name';
      assert StoredPath(name)[|UploadsDir| + 1..] == name;
      assert StoredPath(name')[|UploadsDir| + 1..] == name';
    }
  }

  /** A stored filename has no '/', so `filepath.Join` places it directly in UploadsDir. */
  lemma StoredNameHasNoSeparator(now: GoTypes.Int64, rnd: GoTypes.Uint32, ct: string)
    requires ct in ExtMap
    ensures forall i :: 0 <= i < |Naming.Filename(now, rnd, ExtMap[ct])| ==> Naming.Filename(now, rnd, ExtMap[ct])[i] != '/'
  {
    var ext := ExtMap[ct];
    var ts := Naming.FormatInt(now);
    var name := Naming.Filename(now, rnd, ext);
    ExtMapTable();
    forall i | 0 <= i < |name|
      ensures name[i] != '/'
    {
      if i < |ts| {
        assert name[i] == ts[i];
      } else if i == |ts| {
      } else if i < |ts| + 9 {
        assert name[i] == Naming.Hex8(rnd)[i - |ts| - 1];
      } else {
        assert name[i] == ext[i - |ts| - 9];
      }
    }
  }

  /** The filesystem as seen by one upload: whether each call succeeds, and the calls made. */
  class Disk {
    const mkdirOk: bool
    const saveOk: bool
    var calls: seq<DiskCall>

    constructor (mkdirOk: bool, saveOk: bool)
      ensures this.mkdirOk == mkdirOk && this.saveOk == saveOk && calls == []
    {
      this.mkdirOk := mkdirOk;
      this.saveOk := saveOk;
      calls := [];
    }

    /** `os.MkdirAll(path, 0o755)`. */
    method MkdirAllDir(path: string) returns (ok: bool)
      modifies this
      ensures ok == mkdirOk && calls == old(calls) + [MkdirAll(path)]
    {
      calls := calls + [MkdirAll(path)];
      ok := mkdirOk;
    }

    /** `c.SaveUploadedFile(file, dst)`: copies the whole upload to `dst`. */
    method SaveUploadedFile(data: seq<Byte>, dst: string) returns (ok: bool)
      modifies this
      ensures ok == saveOk && calls == old(calls) + [Save(dst, data)]
    {
      calls := calls + [Save(dst, data)];
      ok := saveOk;
    }
  }

  /**
   * `handleImageUpload`: runs the checks in order, returning at the first
   * failure; makes exactly the filesystem calls of UploadOutcome and writes
   * exactly its one JSON response.
   */
  method HandleImageUpload<R>(c: Context<R>, disk: Disk, form: Option<UploadedFile>,
                              sniff: seq<Byte> -> string, now: GoTypes.Int64, rnd: GoTypes.Uint32)
    requires form.Some? ==> ReaderContract(form.value)
    modifies c, disk
    ensures var o := UploadOutcome(form, sniff, disk.mkdirOk, disk.saveOk, now, rnd);
      c.sent == old(c.sent) + [Json(o.status, o.body)] && disk.calls == old(disk.calls) + o.calls
  {
    if form.None? {
      c.JSON(StatusBadRequest, ErrorBody("no image provided"));
      return;
    }
    var file := form.value;
    if !file.opens {
      c.JSON(StatusInternalServerError, ErrorBody("failed to read image"));
      return;
    }
    var n, err := file.readCount, file.readErr;
    if err == ReadFailed {
      c.JSON(StatusInternalServerError, ErrorBody("failed to read image"));
      return;
    }
    var ct := sniff(file.content[..n]);
    if ct !in ExtMap {
      c.JSON(StatusBadRequest, ErrorBody("unsupported image type; use JPEG, PNG, GIF or WebP"));
      return;
    }
    var ext := ExtMap[ct];
    var ok := disk.MkdirAllDir(UploadsDir);
    if !ok {
      c.JSON(StatusInternalServerError, ErrorBody("storage error"));
      return;
    }
    var filename := Naming.Filename(now, rnd, ext);
    var dst := StoredPath(filename);
    ok := disk.SaveUploadedFile(file.content, dst);
    if !ok {
      c.JSON(StatusInternalServerError, ErrorBody("failed to save image"));
      return;
    }
    c.JSON(StatusOK, UrlBody(PublicPrefix + filename));
  }
}
