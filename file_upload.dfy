/**
 * The upload widget: which files it accepts in video or image mode, and how its
 * `dragActive`, `isUploading` and `progress` state moves with drag, drop and upload events.
 */
module FileUpload {
  import opened Wrappers
  import opened JsString

  const MaxVideoSize: nat := 100 * 1024 * 1024
  const MaxImageSize: nat := 10 * 1024 * 1024
  const AllowedVideoTypes: seq<string> := ["video/mp4", "video/webm", "video/quicktime", "video/x-msvideo"]
  const AllowedImageTypes: seq<string> := ["image/jpeg", "image/png", "image/gif", "image/webp"]

  /** The `fileType` prop when none is given. */
  const DefaultFileType := "video"

  predicate IsVideo(fileType: string) {
    fileType == "video"
  }

  function AllowedTypes(fileType: string): seq<string> {
    if IsVideo(fileType) then AllowedVideoTypes else AllowedImageTypes
  }

  function MaxSize(fileType: string): nat {
    if IsVideo(fileType) then MaxVideoSize else MaxImageSize
  }

  /** The chosen file's MIME type and size in bytes. */
  datatype SelectedFile = SelectedFile(mimeType: string, size: int)

  datatype Verdict = Accepted | Rejected(message: string)

  /**
   * `validateFile(file)`: a file is accepted exactly when it is present, its type is in the
   * mode's allow-list and its size does not exceed the mode's limit; otherwise the first
   * failing check gives the message.
   */
  function ValidateFile(file: Option<SelectedFile>, fileType: string): (v: Verdict)
    ensures v.Accepted? <==>
      file.Some? && file.value.mimeType in AllowedTypes(fileType) && file.value.size <= MaxSize(fileType)
    ensures file.None? ==> v == Rejected("No file selected")
  {
    match file
    case None => Rejected("No file selected")
    case Some(f) =>
      if f.mimeType !in AllowedTypes(fileType) then
        Rejected("Invalid file type. Please upload a " + (if IsVideo(fileType) then "video" else "image") + " file.")
      else if f.size > MaxSize(fileType) then
        Rejected("File too large. Maximum size is " + (if IsVideo(fileType) then "100" else "10") + "MB.")
      else Accepted
  }

  /** The limits are inclusive: a file of exactly the limit is accepted, one byte more is not. */
  lemma SizeLimitInclusive(mimeType: string, fileType: string)
    requires mimeType in AllowedTypes(fileType)
    ensures ValidateFile(Some(SelectedFile(mimeType, MaxSize(fileType))), fileType) == Accepted
    ensures ValidateFile(Some(SelectedFile(mimeType, MaxSize(fileType) + 1)), fileType).Rejected?
  {
  }

  /** Video mode (the default) allows the four video types up to 100 MiB; any other mode the four image types up to 10 MiB. */
  lemma ModeLimits(fileType: string)
    ensures IsVideo(DefaultFileType)
    ensures IsVideo(fileType) ==>
      MaxSize(fileType) == 104857600 && |AllowedTypes(fileType)| == 4
      && "video/mp4" in AllowedTypes(fileType) && "image/png" !in AllowedTypes(fileType)
    ensures !IsVideo(fileType) ==>
      MaxSize(fileType) == 10485760 && |AllowedTypes(fileType)| == 4
      && "image/png" in AllowedTypes(fileType) && "video/mp4" !in AllowedTypes(fileType)
  {
  }

  /** A type outside the mode's list is rejected whatever the size. */
  lemma WrongTypeRejected(file: SelectedFile, fileType: string)
    requires file.mimeType !in AllowedTypes(fileType)
    ensures ValidateFile(Some(file), fileType).Rejected?
  {
  }

  /** The upload service's answer on success; `thumbnailUrl` may be missing. */
  datatype UploadResponse = UploadResponse(
    url: string, fileId: string, name: string, filePath: string,
    thumbnailUrl: Option<string>, fileType: string)

  /** What `onUploadSuccess` receives. */
  datatype UploadedFile = UploadedFile(
    url: string, fileId: string, name: string, filePath: string,
    thumbnailUrl: string, fileType: string)

  /** The payload built in `handleUploadSuccess`: the response's fields, with a missing thumbnail as "". */
  function SuccessPayload(res: UploadResponse): (f: UploadedFile)
    ensures f.url == res.url && f.fileId == res.fileId && f.name == res.name
    ensures f.filePath == res.filePath && f.fileType == res.fileType
    ensures IsFalsy(res.thumbnailUrl) ==> f.thumbnailUrl == ""
    ensures !IsFalsy(res.thumbnailUrl) ==> f.thumbnailUrl == res.thumbnailUrl.value
  {
    UploadedFile(res.url, res.fileId, res.name, res.filePath, OrElse(res.thumbnailUrl, ""), res.fileType)
  }

  /** The file input behind `uploadRef`; its `value` is cleared when a chosen file is refused. */
  class FileInput {
    var value: string

    constructor ()
      ensures value == ""
    {
      value := "";
    }
  }

  /** The widget's component state. `input` is `uploadRef.current`, null until mounted. */
  class Uploader {
    const fileType: string
    const input: FileInput?
    var isUploading: bool
    var progress: int
    var dragActive: bool

    constructor (fileType: string, input: FileInput?)
      ensures this.fileType == fileType && this.input == input
      ensures !isUploading && progress == 0 && !dragActive
    {
      this.fileType := fileType;
      this.input := input;
      isUploading, progress, dragActive := false, 0, false;
    }

    /** `handleUploadStart`: a refused file clears the input; an accepted one starts the upload at 0%. */
    method HandleUploadStart(file: Option<SelectedFile>) returns (verdict: Verdict)
      modifies this, input
      ensures verdict == ValidateFile(file, fileType)
      ensures verdict.Accepted? ==>
        isUploading && progress == 0 && (input != null ==> input.value == old(input.value))
      ensures verdict.Rejected? ==>
        isUploading == old(isUploading) && progress == old(progress) && (input != null ==> input.value == "")
      ensures dragActive == old(dragActive)
    {
      verdict := ValidateFile(file, fileType);
      if verdict.Rejected? {
        if input != null {
          input.value := "";
        }
        return;
      }
      isUploading := true;
      progress := 0;
    }

    /**
     * `handleUploadProgress`: records the percentage and reports it to the parent. The
     * percentage itself is computed in floating point and arrives here as `percent`.
     */
    method HandleUploadProgress(percent: int) returns (reported: int)
      modifies this
      ensures progress == percent && reported == percent
      ensures isUploading == old(isUploading) && dragActive == old(dragActive)
    {
      progress := percent;
      reported := percent;
    }

    /** `handleUploadSuccess`: the upload is over at 100%, a success toast, and the payload is handed on. */
    method HandleUploadSuccess(res: UploadResponse) returns (toast: string, payload: UploadedFile)
      modifies this
      ensures !isUploading && progress == 100 && dragActive == old(dragActive)
      ensures toast == "Upload successful!"
      ensures payload == SuccessPayload(res)
    {
      isUploading := false;
      progress := 100;
      toast := "Upload successful!";
      payload := SuccessPayload(res);
    }

    /** The timer set on success: two seconds later the progress goes back to 0. */
    method ResetProgress()
      modifies this
      ensures progress == 0 && isUploading == old(isUploading) && dragActive == old(dragActive)
    {
      progress := 0;
    }

    /** `handleUploadError`: the upload is over and progress is back to 0; the message falls back to a generic one. */
    method HandleUploadError(message: Option<string>) returns (toast: string)
      modifies this
      ensures !isUploading && progress == 0 && dragActive == old(dragActive)
      ensures toast == OrElse(message, "Upload failed. Please try again.")
    {
      isUploading := false;
      progress := 0;
      toast := OrElse(message, "Upload failed. Please try again.");
    }

    /** `handleDrag`: entering or hovering turns the highlight on, leaving turns it off, other events change nothing. */
    method HandleDrag(eventType: string)
      modifies this
      ensures eventType == "dragenter" || eventType == "dragover" ==> dragActive
      ensures eventType == "dragleave" ==> !dragActive
      ensures eventType !in {"dragenter", "dragover", "dragleave"} ==> dragActive == old(dragActive)
      ensures isUploading == old(isUploading) && progress == old(progress)
    {
      if eventType == "dragenter" || eventType == "dragover" {
        dragActive := true;
      } else if eventType == "dragleave" {
        dragActive := false;
      }
    }

    /**
     * `handleDrop`: the highlight goes off; a dropped file is validated and, when accepted
     * and the input is mounted, handed to the input (`dispatched`).
     */
    method HandleDrop(file: Option<SelectedFile>) returns (verdict: Option<Verdict>, dispatched: bool)
      modifies this
      ensures !dragActive && isUploading == old(isUploading) && progress == old(progress)
      ensures file.None? ==> verdict.None?
      ensures file.Some? ==> verdict == Some(ValidateFile(file, fileType))
      ensures dispatched <==> file.Some? && ValidateFile(file, fileType).Accepted? && input != null
    {
      dragActive := false;
      verdict, dispatched := None, false;
      if file.Some? {
        verdict := Some(ValidateFile(file, fileType));
        dispatched := verdict.value.Accepted? && input != null;
      }
    }
  }
}
