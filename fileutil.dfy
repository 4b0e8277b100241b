/** The media-name helpers of utils/file/file.go, and the file-system calls the services
    make, as an environment of outcomes. */
module FileUtil {
  import opened Wrappers
  import opened GoStrings
  import ApiError

  /** An uploaded multipart file, known by its client-side name. */
  datatype FileHeader = FileHeader(filename: string)

  /** The outcome of `os.Remove`. */
  datatype RemoveResult = Removed | NotExist | RemoveFailed(text: string)

  /** What each file-system call answers; `None` is success, `Some(text)` the error text.
      `saveFile` is fiber's `SaveFile`. */
  datatype FileSystem = FileSystem(
    mkdirAll: string -> Option<string>,
    open: FileHeader -> Option<string>,
    create: string -> Option<string>,
    copy: (FileHeader, string) -> Option<string>,
    remove: string -> RemoveResult,
    saveFile: (FileHeader, string) -> Option<string>)

  /** `SaveMedia(ctx, file, path)`: open the upload, create the target, copy; the first
      step that fails names itself in the error. */
  function SaveMedia(fs: FileSystem, file: FileHeader, path: string): (r: Option<ApiError.Err>)
    ensures r.None? <==> fs.open(file).None? && fs.create(path).None? && fs.copy(file, path).None?
    ensures fs.open(file).Some? ==>
      r == Some(ApiError.Plain("failed to open uploaded file: " + fs.open(file).value))
    ensures fs.open(file).None? && fs.create(path).Some? ==>
      r == Some(ApiError.Plain("failed to create file on disk: " + fs.create(path).value))
    ensures fs.open(file).None? && fs.create(path).None? && fs.copy(file, path).Some? ==>
      r == Some(ApiError.Plain("failed to copy file to disk: " + fs.copy(file, path).value))
  {
    if fs.open(file).Some? then Some(ApiError.Plain("failed to open uploaded file: " + fs.open(file).value))
    else if fs.create(path).Some? then Some(ApiError.Plain("failed to create file on disk: " + fs.create(path).value))
    else if fs.copy(file, path).Some? then Some(ApiError.Plain("failed to copy file to disk: " + fs.copy(file, path).value))
    else None
  }

  /** `filepath.Ext` on a slash-separated path: the suffix from the final '.' of the
      final path element, or "" when that element has no '.'. */
  function Ext(path: string): (r: string)
    ensures |r| <= |path| && r == path[|path| - |r|..]
    ensures r != [] ==> r[0] == '.' && forall i :: 1 <= i < |r| ==> r[i] != '.' && r[i] != '/'
    ensures r == [] ==> forall i :: 0 <= i < |path| && (forall j :: i < j < |path| ==> path[j] != '/') ==> path[i] != '.'
  {
    ExtFrom(path, |path|)
  }

  /** Scans `path[..i]` backwards, stopping at a separator. */
  function ExtFrom(path: string, i: nat): (r: string)
    requires i <= |path|
    requires forall j :: i <= j < |path| ==> path[j] != '.' && path[j] != '/'
    ensures |r| <= |path| && r == path[|path| - |r|..]
    ensures r != [] ==> r[0] == '.' && forall k :: 1 <= k < |r| ==> r[k] != '.' && r[k] != '/'
    ensures r == [] ==> forall k :: 0 <= k < |path| && (forall j :: k < j < |path| ==> path[j] != '/') ==> path[k] != '.'
    decreases i
  {
    if i == 0 then ""
    else if path[i - 1] == '/' then ""
    else if path[i - 1] == '.' then path[i - 1..]
    else ExtFrom(path, i - 1)
  }

  const ImageExtensions: seq<string> := [".jpg", ".jpeg", ".png", ".gif", ".bmp"]
  const VideoExtensions: seq<string> := [".mp4", ".avi", ".mov", ".mkv", ".flv", ".webm"]
  /** The list `IsValidImageExtension` checks: no ".bmp". */
  const ImageExtensionsStrict: seq<string> := [".jpg", ".jpeg", ".png", ".gif"]

  /** `IsValidImage(file)`, given the uploaded file's name. */
  predicate IsValidImage(filename: string) {
    ToLower(Ext(filename)) in ImageExtensions
  }

  /** `IsValidVideo(file)`, given the uploaded file's name. */
  predicate IsValidVideo(filename: string) {
    ToLower(Ext(filename)) in VideoExtensions
  }

  /** `IsValidImageExtension(ext)`: an exact, case-sensitive comparison. */
  predicate IsValidImageExtension(ext: string) {
    ext in ImageExtensionsStrict
  }

  /** `IsVideo(extension)`: compares the lowercased extension. */
  predicate IsVideo(extension: string) {
    ToLower(extension) in VideoExtensions
  }

  /** `GenerateMediaName(productID)` with the clock reading `nanos`; it never fails. */
  function GenerateMediaName(productId: string, nanos: int): (r: string)
    ensures HasPrefix(r, productId + "_")
    ensures r == productId + "_" + IntToString(nanos)
  {
    productId + "_" + IntToString(nanos)
  }

  /** The name made by `GenerateMediaName` gives back the clock reading after its
      "<productID>_" prefix. */
  lemma MediaNameRoundTrip(productId: string, nanos: int)
    ensures Atoi(TrimPrefix(GenerateMediaName(productId, nanos), productId + "_")) == Some(nanos)
  {
    var name := GenerateMediaName(productId, nanos);
    assert TrimPrefix(name, productId + "_") == IntToString(nanos);
    AtoiOfIntToString(nanos);
  }

  lemma LowercaseFixed(e: string)
    requires forall i :: 0 <= i < |e| ==> !('A' <= e[i] <= 'Z')
    ensures ToLower(e) == e
  {
  }

  /** Every extension `IsValidImageExtension` accepts is written in lower case and is
      also on the list of `IsValidImage`. */
  lemma StrictExtensionsLower(e: string)
    requires e in ImageExtensionsStrict
    ensures forall i :: 0 <= i < |e| ==> !('A' <= e[i] <= 'Z')
    ensures e in ImageExtensions
  {
    assert ImageExtensions[..4] == ImageExtensionsStrict;
  }

  /** An extension `IsValidImageExtension` accepts is also accepted, in any file name
      that ends with it, by `IsValidImage`. */
  lemma StrictImageImpliesImage(filename: string)
    requires IsValidImageExtension(Ext(filename))
    ensures IsValidImage(filename)
  {
    var e := Ext(filename);
    StrictExtensionsLower(e);
    LowercaseFixed(e);
  }

  /** `IsVideo` on a file's extension agrees with `IsValidVideo` on the file. */
  lemma VideoChecksAgree(filename: string)
    ensures IsVideo(Ext(filename)) <==> IsValidVideo(filename)
  {
  }

  /** A name ending in a '.' followed by no '.' or '/' has exactly that ending as its
      extension. */
  lemma ExtOfSuffix(stem: string, ext: string)
    requires |ext| >= 1 && ext[0] == '.'
    requires forall i :: 1 <= i < |ext| ==> ext[i] != '.' && ext[i] != '/'
    ensures Ext(stem + ext) == ext
  {
    var path := stem + ext;
    assert path[|stem|..] == ext;
  }

  /** A name whose last path element has no '.' has no extension. */
  lemma ExtAfterSlash(path: string, i: nat)
    requires i < |path| && path[i] == '/'
    requires forall j :: i < j < |path| ==> path[j] != '.' && path[j] != '/'
    ensures Ext(path) == ""
  {
  }

  /** The two image checks disagree on an upper-case ".BMP". */
  lemma UpperBmpDiffers()
    ensures IsValidImage("photo.BMP") && !IsValidImageExtension(Ext("photo.BMP"))
  {
    assert "photo" + ".BMP" == "photo.BMP";
    ExtOfSuffix("photo", ".BMP");
    assert ToLower(".BMP") == ".bmp";
    assert ImageExtensions[4] == ".bmp";
  }

  /** The two image checks disagree on ".bmp", which only `IsValidImage` lists. */
  lemma LowerBmpDiffers()
    ensures IsValidImage("photo.bmp") && !IsValidImageExtension(Ext("photo.bmp"))
  {
    assert "photo" + ".bmp" == "photo.bmp";
    ExtOfSuffix("photo", ".bmp");
    LowercaseFixed(".bmp");
    assert ImageExtensions[4] == ".bmp";
  }

  /** The two image checks disagree on an upper-case ".JPG" and agree on ".jpg". */
  lemma JpgCaseDiffers()
    ensures IsValidImage("photo.JPG") && !IsValidImageExtension(Ext("photo.JPG"))
    ensures IsValidImageExtension(Ext("photo.jpg"))
  {
    assert "photo" + ".JPG" == "photo.JPG";
    assert "photo" + ".jpg" == "photo.jpg";
    ExtOfSuffix("photo", ".JPG");
    ExtOfSuffix("photo", ".jpg");
    assert ToLower(".JPG") == ".jpg";
    assert ImageExtensions[0] == ".jpg";
  }

  /** The extension is taken from the last path element only. */
  lemma ExtOfDirectoryDot()
    ensures !IsValidImage("a.png/photo")
    ensures IsValidImage("archive.tar.gif")
  {
    ExtAfterSlash("a.png/photo", 5);
    assert ToLower("") == "";
    assert "archive.tar" + ".gif" == "archive.tar.gif";
    ExtOfSuffix("archive.tar", ".gif");
    assert ToLower(".gif") == ".gif";
    assert ImageExtensions[3] == ".gif";
  }
}
