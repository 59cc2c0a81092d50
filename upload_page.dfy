/** The second, simpler upload page: files are uploaded and recorded one at a
    time, with no analysis step. Each backend call's outcome is an input. */
module UploadPage {
  import opened Common
  import Upload

  type FileStatus = Upload.FileStatus

  /** `uploadStatus[i]`: `{ progress, status, error }`. */
  datatype PageEntry = PageEntry(progress: int, status: FileStatus, error: Option<string>)

  /** `{ progress: 0, status: 'pending', error: null }` */
  const FreshEntry := PageEntry(0, Upload.Pending, None)

  /** The five form fields, all empty at first and after a reset. */
  datatype Metadata = Metadata(machineId: string, sensorPosition: string, axis: string, samplingRate: string, duration: string)

  const BlankMetadata := Metadata("", "", "", "", "")

  /** The two calls for one file: a call throws, with or without a message,
      or both succeed. */
  datatype PageOutcome = UploadThrows(message: Option<string>) | CreateThrows(message: Option<string>) | Created

  const UploadFailed := "Upload failed"

  /** `err?.message || 'Upload failed'` */
  function ErrorText(message: Option<string>): (t: string)
    ensures t != ""
    ensures message.Some? && message.value != "" ==> t == message.value
    ensures message.None? || message.value == "" ==> t == UploadFailed
  {
    if message.Some? && message.value != "" then message.value else UploadFailed
  }

  /** The entry a file ends with after its turn, starting from `prev`. */
  function FileResult(prev: PageEntry, o: PageOutcome): (e: PageEntry)
    ensures e.status == Upload.Completed <==> o.Created?
    ensures e.status == Upload.Error <==> !o.Created?
    ensures o.Created? ==> e.progress == 100 && e.error == prev.error
    ensures o.UploadThrows? ==> e.progress == 10 && e.error == Some(ErrorText(o.message))
    ensures o.CreateThrows? ==> e.progress == 60 && e.error == Some(ErrorText(o.message))
  {
    match o
    case UploadThrows(msg) => PageEntry(10, Upload.Error, Some(ErrorText(msg)))
    case CreateThrows(msg) => PageEntry(60, Upload.Error, Some(ErrorText(msg)))
    case Created => PageEntry(100, Upload.Completed, prev.error)
  }

  /** Every failed file carries a non-empty error text. */
  lemma FailedFilesExplain(prev: PageEntry, o: PageOutcome)
    ensures FileResult(prev, o).status == Upload.Error ==>
      FileResult(prev, o).error.Some? && FileResult(prev, o).error.value != ""
  {
  }

  class UploadPageSession {
    var selectedFiles: seq<string>
    var uploadStatus: map<int, PageEntry>
    var isUploading: bool
    var metadata: Metadata

    /** The status map has exactly one entry per selected file index. */
    ghost predicate Valid()
      reads this
    {
      forall k :: k in uploadStatus <==> 0 <= k < |selectedFiles|
    }

    constructor()
      ensures Valid()
      ensures selectedFiles == [] && uploadStatus == map[] && !isUploading && metadata == BlankMetadata
    {
      selectedFiles := [];
      uploadStatus := map[];
      isUploading := false;
      metadata := BlankMetadata;
    }

    /** `hasErrors`: some file failed, so at least one file is listed. */
    predicate HasErrors(): (r: bool)
      reads this
      ensures r ==> uploadStatus != map[]
    {
      exists k :: k in uploadStatus && uploadStatus[k].status == Upload.Error
    }

    /** `allCompleted`: at least one file, and every file completed, so the
        page never shows both the success and the error notice. */
    predicate AllCompleted(): (r: bool)
      reads this
      ensures r ==> uploadStatus != map[] && !HasErrors()
    {
      |uploadStatus| > 0 && forall k :: k in uploadStatus ==> uploadStatus[k].status == Upload.Completed
    }

    /** `handleFileSelect`: one fresh entry per file index. */
    method HandleFileSelect(files: seq<string>)
      modifies this
      ensures Valid()
      ensures selectedFiles == files
      ensures forall k :: k in uploadStatus ==> uploadStatus[k] == FreshEntry
      ensures isUploading == old(isUploading) && metadata == old(metadata)
    {
      var status: map<int, PageEntry> := map[];
      for i := 0 to |files|
        invariant forall k :: k in status <==> 0 <= k < i
        invariant forall k :: k in status ==> status[k] == FreshEntry
      {
        status := status[i := FreshEntry];
      }
      selectedFiles := files;
      uploadStatus := status;
    }

    /** One file's turn: uploading at 10, 60 after the upload, completed at
        100 after the record is created; a throwing call marks it as an error
        and keeps the progress it had reached. */
    method ProcessFile(i: int, o: PageOutcome)
      requires i in uploadStatus
      modifies this
      ensures uploadStatus == old(uploadStatus)[i := FileResult(old(uploadStatus)[i], o)]
      ensures selectedFiles == old(selectedFiles) && metadata == old(metadata) && isUploading == old(isUploading)
    {
      uploadStatus := uploadStatus[i := uploadStatus[i].(status := Upload.Uploading, progress := 10)];
      match o
      case UploadThrows(msg) =>
        uploadStatus := uploadStatus[i := uploadStatus[i].(status := Upload.Error, error := Some(ErrorText(msg)))];
      case CreateThrows(msg) =>
        uploadStatus := uploadStatus[i := uploadStatus[i].(progress := 60)];
        uploadStatus := uploadStatus[i := uploadStatus[i].(status := Upload.Error, error := Some(ErrorText(msg)))];
      case Created =>
        uploadStatus := uploadStatus[i := uploadStatus[i].(progress := 60)];
        uploadStatus := uploadStatus[i := uploadStatus[i].(status := Upload.Completed, progress := 100)];
    }

    /** `processFiles`: nothing happens without files or a machine; otherwise
        every file takes its turn and the page is no longer uploading after. */
    method ProcessFiles(outcomes: seq<PageOutcome>)
      requires Valid() && |outcomes| == |selectedFiles|
      modifies this
      ensures Valid()
      ensures selectedFiles == old(selectedFiles) && metadata == old(metadata)
      ensures (selectedFiles == [] || metadata.machineId == "") ==>
        uploadStatus == old(uploadStatus) && isUploading == old(isUploading)
      ensures selectedFiles != [] && metadata.machineId != "" ==>
        && !isUploading
        && (forall i :: 0 <= i < |outcomes| ==> uploadStatus[i] == FileResult(old(uploadStatus)[i], outcomes[i]))
        && (AllCompleted() <==> forall i :: 0 <= i < |outcomes| ==> outcomes[i].Created?)
        && (HasErrors() <==> exists i :: 0 <= i < |outcomes| && !outcomes[i].Created?)
    {
      if |selectedFiles| == 0 || metadata.machineId == "" {
        return;
      }
      isUploading := true;
      for i := 0 to |selectedFiles|
        invariant selectedFiles == old(selectedFiles) && metadata == old(metadata)
        invariant Valid()
        invariant forall k :: k in old(uploadStatus) <==> 0 <= k < |selectedFiles|
        invariant forall j :: 0 <= j < i ==> uploadStatus[j] == FileResult(old(uploadStatus)[j], outcomes[j])
        invariant forall j :: i <= j < |selectedFiles| ==> uploadStatus[j] == old(uploadStatus)[j]
      {
        ProcessFile(i, outcomes[i]);
      }
      isUploading := false;
      StatusSummary(outcomes);
    }

    /** After a pass, the page's two flags follow from the outcomes. */
    lemma StatusSummary(outcomes: seq<PageOutcome>)
      requires Valid() && |outcomes| == |selectedFiles| && selectedFiles != []
      requires forall i :: 0 <= i < |outcomes| ==> uploadStatus[i].status == FileResult(FreshEntry, outcomes[i]).status
      ensures AllCompleted() <==> forall i :: 0 <= i < |outcomes| ==> outcomes[i].Created?
      ensures HasErrors() <==> exists i :: 0 <= i < |outcomes| && !outcomes[i].Created?
    {
      assert 0 in uploadStatus;
      if forall i :: 0 <= i < |outcomes| ==> outcomes[i].Created? {
        assert forall k :: k in uploadStatus ==> uploadStatus[k].status == Upload.Completed;
      }
      if exists i :: 0 <= i < |outcomes| && !outcomes[i].Created? {
        var i :| 0 <= i < |outcomes| && !outcomes[i].Created?;
        assert uploadStatus[i].status == Upload.Error;
      }
    }

    /** `resetUpload`: no files, no statuses, every form field blank. */
    method ResetUpload()
      modifies this
      ensures Valid()
      ensures selectedFiles == [] && uploadStatus == map[] && metadata == BlankMetadata
      ensures isUploading == old(isUploading)
    {
      selectedFiles := [];
      uploadStatus := map[];
      metadata := BlankMetadata;
    }
  }
}
