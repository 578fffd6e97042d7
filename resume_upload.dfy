/**
 * The resume upload and delete actions: the file checks, the text taken
 * from the PDF, the storage path and the bucket of stored resumes.
 */
module ResumeUpload {
  import opened Wrappers
  import opened Text

  /** An uploaded file as the form delivers it. */
  datatype File = File(name: string, contentType: string, size: int)

  const PdfType := "application/pdf"

  /** The largest accepted file, 10 MiB. */
  const MaxSize := 10 * 1024 * 1024

  datatype UploadResult =
    | UploadFailed(error: string)
    | Uploaded(url: string, path: string, text: string)

  /** The first check the file fails, if any: presence, then the content
      type, then the size. */
  function FileError(file: Option<File>): (e: Option<string>)
    ensures file.None? ==> e == Some("No file provided")
    ensures file.Some? && file.value.contentType != PdfType ==>
              e == Some("Invalid file type. Only PDF files are allowed.")
    ensures file.Some? && file.value.contentType == PdfType ==>
              (e.Some? <==> file.value.size > MaxSize)
    ensures e.Some? ==> e.value != []
  {
    if file.None? then Some("No file provided")
    else if file.value.contentType != PdfType then Some("Invalid file type. Only PDF files are allowed.")
    else if file.value.size > MaxSize then Some("File size exceeds 10MB limit.")
    else None
  }

  /** The size limit is inclusive, and the type is checked before it. */
  lemma SizeLimitBoundary(name: string, contentType: string)
    ensures FileError(Some(File(name, PdfType, 10485760))).None?
    ensures FileError(Some(File(name, PdfType, 10485761))) == Some("File size exceeds 10MB limit.")
    ensures contentType != PdfType ==>
              FileError(Some(File(name, contentType, 10485761)))
              == Some("Invalid file type. Only PDF files are allowed.")
  {
  }

  /** The text of the PDF: its pages joined by line breaks, or the empty
      text when reading the PDF failed (`None`). */
  function ExtractedText(pages: Option<seq<string>>): (t: string)
    ensures pages.None? ==> t == []
    ensures pages.Some? && |pages.value| == 1 ==> t == pages.value[0]
  {
    match pages
    case None => []
    case Some(ps) => JoinLines(ps)
  }

  /** The folder a resume goes to: the application's id, or "temp" when
      no application is named. */
  function Folder(applicationId: Option<string>): string {
    if TruthyOpt(applicationId) then applicationId.value else "temp"
  }

  /** Where the file is stored: the folder, then the time and the file
      name. */
  function StoragePath(applicationId: Option<string>, timestamp: nat, fileName: string): string {
    Folder(applicationId) + "/" + (IntToString(timestamp) + "-" + fileName)
  }

  /** Two texts each followed by the same separator, which neither holds,
      give equal texts only if both parts are equal. */
  lemma SplitAtSeparator(a1: string, b1: string, a2: string, b2: string, sep: char)
    requires sep !in a1 && sep !in a2
    requires a1 + [sep] + b1 == a2 + [sep] + b2
    ensures a1 == a2 && b1 == b2
  {
    var s1 := a1 + [sep] + b1;
    var s2 := a2 + [sep] + b2;
    assert s2[|a1|] == sep;
    assert s1[|a2|] == sep;
    assert |a1| == |a2|;
    assert a1 == s1[..|a1|];
    assert a2 == s2[..|a2|];
    assert b1 == s1[|a1| + 1..];
    assert b2 == s2[|a2| + 1..];
  }

  /** A folder name without '/' can be read back out of a path. */
  predicate PlainFolder(applicationId: Option<string>) {
    applicationId.None? || '/' !in applicationId.value
  }

  lemma FolderHasNoSlash(applicationId: Option<string>)
    requires PlainFolder(applicationId)
    ensures '/' !in Folder(applicationId)
  {
    assert "temp" == ['t', 'e', 'm', 'p'];
  }

  lemma TimeHasNoDash(t: nat)
    ensures '-' !in IntToString(t)
  {
    var d := IntToString(t);
    assert forall i | 0 <= i < |d| :: IsDecimalDigit(d[i]);
  }

  /** The path names its folder, time and file name unambiguously: equal
      paths come from the same folder, the same time and the same name. */
  lemma StoragePathInjective(id1: Option<string>, t1: nat, n1: string,
                             id2: Option<string>, t2: nat, n2: string)
    requires PlainFolder(id1) && PlainFolder(id2)
    requires StoragePath(id1, t1, n1) == StoragePath(id2, t2, n2)
    ensures Folder(id1) == Folder(id2) && t1 == t2 && n1 == n2
  {
    FolderHasNoSlash(id1);
    FolderHasNoSlash(id2);
    TimeHasNoDash(t1);
    TimeHasNoDash(t2);
    SplitAtSeparator(Folder(id1), IntToString(t1) + "-" + n1, Folder(id2), IntToString(t2) + "-" + n2, '/');
    SplitAtSeparator(IntToString(t1), n1, IntToString(t2), n2, '-');
    IntToStringInjective(t1, t2);
  }

  /**
   * `uploadResume` as a function of its inputs and of what storage
   * answers: `uploadAccepted` is whether the upload call succeeds, and
   * `signedUrl` the link storage signs, if any.
   */
  function UploadOutcome(file: Option<File>, applicationId: Option<string>, pages: Option<seq<string>>,
                         timestamp: nat, uploadAccepted: bool, signedUrl: Option<string>): (r: UploadResult)
    ensures FileError(file).Some? ==> r == UploadFailed(FileError(file).value)
    ensures FileError(file).None? && !uploadAccepted ==> r == UploadFailed("Failed to upload file to storage.")
    ensures FileError(file).None? && uploadAccepted && signedUrl.None? ==>
              r == UploadFailed("Failed to generate file URL.")
    ensures r.Uploaded? <==> FileError(file).None? && uploadAccepted && signedUrl.Some?
    ensures r.Uploaded? ==> r.url == signedUrl.value && r.text == ExtractedText(pages) &&
                            r.path == StoragePath(applicationId, timestamp, file.value.name)
    ensures r.UploadFailed? ==> r.error != []
  {
    match FileError(file)
    case Some(e) => UploadFailed(e)
    case None =>
      if !uploadAccepted then UploadFailed("Failed to upload file to storage.")
      else if signedUrl.None? then UploadFailed("Failed to generate file URL.")
      else Uploaded(signedUrl.value, StoragePath(applicationId, timestamp, file.value.name), ExtractedText(pages))
  }

  /** Failing to read the PDF does not fail the upload: only the text
      differs. */
  lemma ExtractionFailureDoesNotFailUpload(file: Option<File>, applicationId: Option<string>, pages: seq<string>,
                                           timestamp: nat, uploadAccepted: bool, signedUrl: Option<string>)
    ensures var ok := UploadOutcome(file, applicationId, Some(pages), timestamp, uploadAccepted, signedUrl);
            var failed := UploadOutcome(file, applicationId, None, timestamp, uploadAccepted, signedUrl);
            ok.Uploaded? == failed.Uploaded? &&
            (ok.Uploaded? ==> failed == ok.(text := []))
  {
  }

  /** The resume bucket. */
  class Bucket {
    var objects: map<string, File>

    constructor (initial: map<string, File>)
      ensures objects == initial
    {
      objects := initial;
    }

    /**
     * `uploadResume`. The upload never replaces a stored object; whether
     * storage accepts it otherwise is `uploadAccepted`. A file stored
     * before the signed link fails stays stored.
     */
    method UploadResume(file: Option<File>, applicationId: Option<string>, pages: Option<seq<string>>,
                        timestamp: nat, uploadAccepted: bool, signedUrl: Option<string>)
      returns (r: UploadResult)
      modifies this
      ensures FileError(file).Some? ==>
                r == UploadFailed(FileError(file).value) && objects == old(objects)
      ensures FileError(file).None? ==>
                var path := StoragePath(applicationId, timestamp, file.value.name);
                var stored := uploadAccepted && path !in old(objects);
                r == UploadOutcome(file, applicationId, pages, timestamp, stored, signedUrl) &&
                objects == if stored then old(objects)[path := file.value] else old(objects)
    {
      var error := FileError(file);
      if error.Some? {
        return UploadFailed(error.value);
      }
      var text := ExtractedText(pages);
      var path := StoragePath(applicationId, timestamp, file.value.name);
      if !uploadAccepted || path in objects {
        return UploadFailed("Failed to upload file to storage.");
      }
      objects := objects[path := file.value];
      if signedUrl.None? {
        return UploadFailed("Failed to generate file URL.");
      }
      r := Uploaded(signedUrl.value, path, text);
    }

    /** `deleteResume`: succeeds exactly when storage reports no error
        (`removed`), and then the object is gone. */
    method DeleteResume(path: string, removed: bool) returns (ok: bool, error: string)
      modifies this
      ensures ok == removed
      ensures ok ==> objects == old(objects) - {path} && error == []
      ensures !ok ==> objects == old(objects) && error == "Failed to delete file."
    {
      if !removed {
        return false, "Failed to delete file.";
      }
      objects := objects - {path};
      ok, error := true, [];
    }
  }
}
