// Media uploads for visual queries: the size and type check of an uploaded
// file, and the names and storage paths it is given.

module MediaServiceModel {
  import opened Common

  /** The four media kinds the type check distinguishes. */
  datatype MediaType = Image | Video | Audio | Document

  /** The "valid" and "message" entries of the map validateFile returns. */
  datatype Validation = Validation(valid: bool, message: string)

  /** 50 MiB */
  const MaxFileSize: int := 50 * 1024 * 1024

  /** The content types accepted for each media kind. */
  predicate TypeMatches(mediaType: MediaType, contentType: string) {
    match mediaType
    case Image => StartsWith(contentType, "image/")
    case Video => StartsWith(contentType, "video/")
    case Audio => StartsWith(contentType, "audio/")
    case Document => contentType == "application/pdf"
                     || StartsWith(contentType, "application/msword")
                     || StartsWith(contentType, "application/vnd.openxmlformats-officedocument")
                     || StartsWith(contentType, "text/")
  }

  /**
   * validateFile: too large, then no content type, then a content type that
   * does not fit the media kind; each with its message, in that order.
   */
  function ValidateFile(size: int, contentType: Option<string>, mediaType: MediaType): (r: Validation)
    ensures r.valid <==> size <= MaxFileSize && contentType.Some? && TypeMatches(mediaType, contentType.value)
    ensures size > MaxFileSize ==> r == Validation(false, "File size exceeds maximum allowed size of 50MB")
    ensures size <= MaxFileSize && contentType.None? ==> r == Validation(false, "Cannot determine file type")
    ensures r.valid ==> r.message == "File is valid"
  {
    if size > MaxFileSize then Validation(false, "File size exceeds maximum allowed size of 50MB")
    else if contentType.None? then Validation(false, "Cannot determine file type")
    else if !TypeMatches(mediaType, contentType.value) then Validation(false, "File type does not match expected media type")
    else Validation(true, "File is valid")
  }

  /** A content type passes for at most one of image, video and audio. */
  lemma MediaKindsAreExclusive(contentType: string)
    ensures !(TypeMatches(Image, contentType) && TypeMatches(Video, contentType))
    ensures !(TypeMatches(Image, contentType) && TypeMatches(Audio, contentType))
    ensures !(TypeMatches(Video, contentType) && TypeMatches(Audio, contentType))
  {
  }

  /** The position of the last occurrence of c in s, or -1 (String.lastIndexOf). */
  function LastIndexOf(s: string, c: char): (i: int)
    ensures -1 <= i < |s|
    ensures i >= 0 ==> s[i] == c
    ensures forall j :: i < j < |s| ==> s[j] != c
    decreases |s|
  {
    if s == [] then -1
    else if s[|s| - 1] == c then |s| - 1
    else LastIndexOf(s[..|s| - 1], c)
  }

  /** The original name's extension: from its last '.' on, or empty when it has none. */
  function Extension(originalName: Option<string>): (e: string)
    ensures originalName.None? ==> e == ""
    ensures e != "" ==> originalName.Some? && e[0] == '.' && |e| <= |originalName.value|
                        && originalName.value[|originalName.value| - |e|..] == e
    ensures e != "" ==> forall j :: 1 <= j < |e| ==> e[j] != '.'
  {
    if originalName.None? then ""
    else
      var i := LastIndexOf(originalName.value, '.');
      if i < 0 then "" else originalName.value[i..]
  }

  function MediaTypeName(t: MediaType): string {
    match t
    case Image => "image"
    case Video => "video"
    case Audio => "audio"
    case Document => "document"
  }

  /** generateUniqueFileName: the lower-case kind, '_', the timestamp in decimal, and the original extension. */
  function UniqueFileName(originalName: Option<string>, mediaType: MediaType, timestampMillis: nat): (r: string)
    ensures StartsWith(r, MediaTypeName(mediaType) + "_")
    ensures |Extension(originalName)| <= |r| && r[|r| - |Extension(originalName)|..] == Extension(originalName)
  {
    var head := MediaTypeName(mediaType) + "_" + DecimalText(timestampMillis);
    assert (head + Extension(originalName))[..|MediaTypeName(mediaType) + "_"|] == MediaTypeName(mediaType) + "_";
    head + Extension(originalName)
  }

  predicate NoDot(s: string) {
    forall j :: 0 <= j < |s| ==> s[j] != '.'
  }

  lemma NameHeadHasNoDot(mediaType: MediaType, timestampMillis: nat)
    ensures NoDot(MediaTypeName(mediaType) + "_" + DecimalText(timestampMillis))
  {
    var n := MediaTypeName(mediaType);
    var d := DecimalText(timestampMillis);
    assert NoDot(n) by {
      match mediaType
      case Image =>
      case Video =>
      case Audio =>
      case Document =>
    }
    var h := n + "_" + d;
    forall j | 0 <= j < |h|
      ensures h[j] != '.'
    {
      if j < |n| {
        assert h[j] == n[j];
      } else if j > |n| {
        assert h[j] == d[j - |n| - 1];
      }
    }
  }

  /** The last '.' of a dot-free head followed by an extension is where the extension starts. */
  lemma LastDotOfConcat(h: string, e: string)
    requires NoDot(h)
    requires e == [] || (e[0] == '.' && forall j :: 1 <= j < |e| ==> e[j] != '.')
    ensures LastIndexOf(h + e, '.') == (if e == [] then -1 else |h|)
  {
    var r := h + e;
    if e == [] {
      assert r == h;
    } else {
      assert r[|h|] == '.';
      assert forall j :: |h| < j < |r| ==> r[j] == e[j - |h|];
    }
  }

  /** The generated name keeps the original's extension: its own extension is the original's one. */
  lemma UniqueFileNameKeepsExtension(originalName: Option<string>, mediaType: MediaType, timestampMillis: nat)
    ensures Extension(Some(UniqueFileName(originalName, mediaType, timestampMillis))) == Extension(originalName)
  {
    var h := MediaTypeName(mediaType) + "_" + DecimalText(timestampMillis);
    var e := Extension(originalName);
    NameHeadHasNoDot(mediaType, timestampMillis);
    LastDotOfConcat(h, e);
    assert UniqueFileName(originalName, mediaType, timestampMillis) == h + e;
    if e != [] {
      assert (h + e)[|h|..] == e;
    }
  }

  /** generateFilePath: "queries/", the query id, "/", the file name. */
  function FilePath(queryId: string, fileName: string): (r: string)
    ensures |r| == 8 + |queryId| + 1 + |fileName|
    ensures StartsWith(r, "queries/")
  {
    "queries/" + queryId + "/" + fileName
  }

  /** Reads the query id and the file name back out of a storage path. */
  function ParseFilePath(path: string): Option<(string, string)> {
    if !StartsWith(path, "queries/") then None
    else
      var rest := path[8..];
      var i := FirstIndexOf(rest, '/');
      if i < 0 then None else Some((rest[..i], rest[i + 1..]))
  }

  function FirstIndexOf(s: string, c: char): (i: int)
    ensures -1 <= i < |s|
    ensures i >= 0 ==> s[i] == c
    ensures forall j :: 0 <= j < |s| && (i < 0 || j < i) ==> s[j] != c
    decreases |s|
  {
    if s == [] then -1
    else if s[0] == c then 0
    else
      var k := FirstIndexOf(s[1..], c);
      assert forall j :: 1 <= j < |s| ==> s[j] == s[1..][j - 1];
      if k < 0 then -1 else k + 1
  }

  /** Distinct queries get distinct directories: a path gives back its query id and file name when the id has no '/'. */
  lemma FilePathRoundTrip(queryId: string, fileName: string)
    requires forall j :: 0 <= j < |queryId| ==> queryId[j] != '/'
    ensures ParseFilePath(FilePath(queryId, fileName)) == Some((queryId, fileName))
  {
    var path := FilePath(queryId, fileName);
    var rest := path[8..];
    assert rest == queryId + "/" + fileName;
    assert rest[|queryId|] == '/';
    assert forall j :: 0 <= j < |queryId| ==> rest[j] == queryId[j];
    assert FirstIndexOf(rest, '/') == |queryId|;
    assert rest[..|queryId|] == queryId;
    assert rest[|queryId| + 1..] == fileName;
  }
}
