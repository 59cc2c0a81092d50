/** The upload-and-analyse page: selected files get a status entry each, are
    uploaded and recorded one at a time, and the recorded ids are then sent
    for analysis, either all of them or only those whose analysis failed.
    Every call to the backend is an outcome taken from an input sequence. */
module Upload {
  import opened Common
  import opened AnalysisTypes

  datatype FileStatus = Pending | Uploading | Completed | Error

  /** `uploadStatus[i]`: `{ progress, status, error, record_id }`. */
  datatype StatusEntry = StatusEntry(progress: int, status: FileStatus, error: Option<string>, recordId: Option<string>)

  /** `{ progress: 0, status: "pending", error: null }` */
  const FreshEntry := StatusEntry(0, Pending, None, None)

  datatype Metadata = Metadata(machineId: string, sensorPosition: string, axis: string, samplingRate: string)

  /** The form's defaults for a given machine id. */
  function DefaultMetadata(machineId: string): Metadata {
    Metadata(machineId, "Drive End", "Horizontal", "12000")
  }

  /** What the two calls for one file do: the upload throws, the record
      creation throws, or both succeed and the record has an id. */
  datatype UploadOutcome = UploadFails(message: string) | RecordFails(message: string) | Recorded(recordId: string)

  /** A toast. */
  datatype Notice = Success(text: string) | Failure(text: string)

  const SelectFilesFirst := "Please select files and a machine."
  const AllUploaded := "All files uploaded and processed successfully!"
  const SomeUploadsFailed := "Some files failed to upload. Check the details above."

  /** `prev[i]`, or an entry with nothing set when there is none. */
  function Prev(m: map<int, StatusEntry>, i: int): StatusEntry {
    if i in m then m[i] else StatusEntry(0, Pending, None, None)
  }

  /** The entry a file ends with after its turn in `processFiles`, starting from `prev`. */
  function FileResult(prev: StatusEntry, o: UploadOutcome): (e: StatusEntry)
    ensures e.status == Completed <==> o.Recorded?
    ensures e.status == Error <==> !o.Recorded?
    ensures o.Recorded? ==> e.progress == 100 && e.recordId == Some(o.recordId) && e.error == prev.error
    ensures o.UploadFails? ==> e.progress == 10 && e.error == Some(o.message) && e.recordId == prev.recordId
    ensures o.RecordFails? ==> e.progress == 50 && e.error == Some(o.message) && e.recordId == prev.recordId
  {
    match o
    case UploadFails(msg) => StatusEntry(10, Error, Some(msg), prev.recordId)
    case RecordFails(msg) => StatusEntry(50, Error, Some(msg), prev.recordId)
    case Recorded(id) => StatusEntry(100, Completed, prev.error, Some(id))
  }

  /** From a fresh entry, a file has a record id exactly when it completed. */
  lemma FreshRecordIdIffCompleted(o: UploadOutcome)
    ensures FileResult(FreshEntry, o).recordId.Some? <==> FileResult(FreshEntry, o).status == Completed
  {
  }

  // ---------------------------------------------------------------------------
  // Analysis
  // ---------------------------------------------------------------------------

  /** What was thrown by a failing analysis call. */
  datatype Thrown = ErrorValue(message: string) | NonError

  datatype AnalysisOutcome = Analyzed(result: AnalysisResult) | Failed(thrown: Thrown)

  const NetworkMessage := "Network connection failed. Please check your internet connection and try again."
  const TimeoutMessage := "Analysis timed out. The file may be too large or the server is busy."
  const ValidationMessage := "Invalid file format or corrupted data. Please check your file."
  const ServerMessage := "Server error occurred during analysis. Please try again later."
  const GenericMessage := "Analysis failed"

  datatype Classified = Classified(message: string, kind: ErrorKind)

  /** The error class of a failed analysis: the first of the substrings
      `fetch`, `timeout`, `400`, `500` found in the message decides. */
  function Classify(t: Thrown): (c: Classified)
    ensures t.NonError? ==> c == Classified(GenericMessage, Unknown)
    ensures c.kind == Network <==> t.ErrorValue? && Includes(t.message, "fetch")
    ensures c.kind == Timeout <==> t.ErrorValue? && !Includes(t.message, "fetch") && Includes(t.message, "timeout")
    ensures c.kind == Validation <==>
      t.ErrorValue? && !Includes(t.message, "fetch") && !Includes(t.message, "timeout") && Includes(t.message, "400")
    ensures c.kind == Server <==>
      t.ErrorValue? && !Includes(t.message, "fetch") && !Includes(t.message, "timeout")
      && !Includes(t.message, "400") && Includes(t.message, "500")
    ensures t.ErrorValue? && c.kind == Unknown ==> c.message == t.message
  {
    match t
    case NonError => Classified(GenericMessage, Unknown)
    case ErrorValue(msg) =>
      if Includes(msg, "fetch") then Classified(NetworkMessage, Network)
      else if Includes(msg, "timeout") then Classified(TimeoutMessage, Timeout)
      else if Includes(msg, "400") then Classified(ValidationMessage, Validation)
      else if Includes(msg, "500") then Classified(ServerMessage, Server)
      else Classified(msg, Unknown)
  }

  /** A known class always replaces the message by its fixed text. */
  lemma {:induction false} ClassifiedMessages(t: Thrown)
    ensures Classify(t).kind == Network ==> Classify(t).message == NetworkMessage
    ensures Classify(t).kind == Timeout ==> Classify(t).message == TimeoutMessage
    ensures Classify(t).kind == Validation ==> Classify(t).message == ValidationMessage
    ensures Classify(t).kind == Server ==> Classify(t).message == ServerMessage
  {
    match t
    case NonError =>
    case ErrorValue(msg) =>
  }

  /** The error entry built for a failed analysis. */
  function ErrorResult(recordId: string, t: Thrown): (r: AnalysisResult)
    ensures r.recordId == recordId && r.status == "error"
    ensures r.errorMessage == Some(Classify(t).message) && r.errorType == Some(Classify(t).kind)
  {
    AnalysisResult(recordId, "error", Some(Classify(t).message), Some(Classify(t).kind), None, None)
  }

  /** The entry one analysis call contributes. */
  function ResultFor(recordId: string, o: AnalysisOutcome): AnalysisResult {
    match o
    case Analyzed(res) => res
    case Failed(t) => ErrorResult(recordId, t)
  }

  /** The call's answer is about the record it was asked about. */
  predicate Echoes(recordId: string, o: AnalysisOutcome) {
    o.Analyzed? ==> o.result.recordId == recordId
  }

  /** `Object.values(uploadStatus).filter(s => s.record_id).map(s => s.record_id)`
      over the keys below `n`, in ascending key order. */
  function UploadCandidates(m: map<int, StatusEntry>, n: nat): (ids: seq<string>)
    ensures |ids| <= n
    ensures forall x :: x in ids ==> x != ""
  {
    if n == 0 then []
    else
      var e := Prev(m, n - 1);
      UploadCandidates(m, n - 1) + (if (n - 1) in m && e.recordId.Some? && e.recordId.value != "" then [e.recordId.value] else [])
  }

  lemma {:induction false} UploadCandidatesMembers(m: map<int, StatusEntry>, n: nat, x: string)
    ensures x in UploadCandidates(m, n) <==> exists i :: 0 <= i < n && i in m && m[i].recordId == Some(x) && x != ""
  {
    if n > 0 {
      UploadCandidatesMembers(m, n - 1, x);
      var e := Prev(m, n - 1);
      if (n - 1) in m && e.recordId == Some(x) && x != "" {
        assert x in UploadCandidates(m, n);
      }
    }
  }

  /** `analysisResults.filter(r => r.status === "error").map(r => r.record_id)` */
  function RetryCandidates(rs: seq<AnalysisResult>): (ids: seq<string>)
    ensures |ids| == ErrorCount(rs) <= |rs|
    ensures forall x :: x in ids ==> exists r :: r in rs && r.recordId == x && r.status == "error"
    ensures forall j :: 0 <= j < |rs| && rs[j].status == "error" ==> rs[j].recordId in ids
  {
    if rs == [] then []
    else
      var last := rs[|rs| - 1];
      var p := RetryCandidates(rs[..|rs| - 1]);
      assert forall r :: r in rs[..|rs| - 1] ==> r in rs;
      assert forall j :: 0 <= j < |rs| - 1 ==> rs[j] == rs[..|rs| - 1][j];
      ErrorCountBound(rs[..|rs| - 1]);
      p + (if last.status == "error" then [last.recordId] else [])
  }

  /** The retry candidates keep the order of the results: the candidates of a
      concatenation are those of the first part, then those of the second. */
  lemma {:induction false} RetryCandidatesConcat(rs: seq<AnalysisResult>, ts: seq<AnalysisResult>)
    ensures RetryCandidates(rs + ts) == RetryCandidates(rs) + RetryCandidates(ts)
    decreases |ts|
  {
    if ts == [] {
      assert rs + ts == rs;
    } else {
      var init := ts[..|ts| - 1];
      assert (rs + ts)[..|rs + ts| - 1] == rs + init;
      assert (rs + ts)[|rs + ts| - 1] == ts[|ts| - 1];
      RetryCandidatesConcat(rs, init);
    }
  }

  /** A full pass: one entry per candidate, in candidate order. */
  function FullPass(ids: seq<string>, os: seq<AnalysisOutcome>): (rs: seq<AnalysisResult>)
    requires |os| == |ids|
    ensures |rs| == |ids|
    ensures forall i :: 0 <= i < |ids| && os[i].Failed? ==> rs[i] == ErrorResult(ids[i], os[i].thrown)
    ensures forall i :: 0 <= i < |ids| && os[i].Analyzed? ==> rs[i] == os[i].result
  {
    seq(|ids|, i requires 0 <= i < |ids| => ResultFor(ids[i], os[i]))
  }

  /** `results.findIndex(r => r.record_id === recordId)` */
  function FindIndex(rs: seq<AnalysisResult>, recordId: string): (k: Option<nat>)
    ensures k.Some? ==> k.value < |rs| && rs[k.value].recordId == recordId
    ensures k.Some? ==> forall j :: 0 <= j < k.value ==> rs[j].recordId != recordId
    ensures k.None? ==> forall j :: 0 <= j < |rs| ==> rs[j].recordId != recordId
  {
    if rs == [] then None
    else if rs[0].recordId == recordId then Some(0)
    else
      var k := FindIndex(rs[1..], recordId);
      if k.Some? then Some(k.value + 1) else None
  }

  /** A retried entry replaces the first entry with that id, or is appended. */
  function Place(rs: seq<AnalysisResult>, recordId: string, x: AnalysisResult): seq<AnalysisResult> {
    var k := FindIndex(rs, recordId);
    if k.Some? then rs[k.value := x] else rs + [x]
  }

  /** A retry pass over the first `|ids|` candidates. */
  function RetryPass(rs: seq<AnalysisResult>, ids: seq<string>, os: seq<AnalysisOutcome>): seq<AnalysisResult>
    requires |os| == |ids|
  {
    if ids == [] then rs
    else
      var n := |ids| - 1;
      Place(RetryPass(rs, ids[..n], os[..n]), ids[n], ResultFor(ids[n], os[n]))
  }

  /** Retrying never touches an entry whose id was not retried, and never
      shortens the list. */
  lemma {:induction false} RetryKeepsOthers(rs: seq<AnalysisResult>, ids: seq<string>, os: seq<AnalysisOutcome>)
    requires |os| == |ids|
    ensures |RetryPass(rs, ids, os)| >= |rs|
    ensures forall j :: 0 <= j < |rs| && rs[j].recordId !in ids ==> RetryPass(rs, ids, os)[j] == rs[j]
  {
    if ids != [] {
      var n := |ids| - 1;
      RetryKeepsOthers(rs, ids[..n], os[..n]);
      var prev := RetryPass(rs, ids[..n], os[..n]);
      forall j | 0 <= j < |rs| && rs[j].recordId !in ids
        ensures RetryPass(rs, ids, os)[j] == rs[j]
      {
        assert forall x :: x in ids[..n] ==> x in ids;
        assert prev[j] == rs[j];
        assert rs[j].recordId != ids[n] by { assert ids[n] in ids; }
      }
    }
  }

  /** When every successful call answers about the record it was asked about,
      each retried id keeps its position: the list keeps its length and its
      sequence of ids. */
  lemma {:induction false} RetryKeepsIds(rs: seq<AnalysisResult>, ids: seq<string>, os: seq<AnalysisOutcome>)
    requires |os| == |ids|
    requires forall i :: 0 <= i < |ids| ==> Echoes(ids[i], os[i])
    requires forall x :: x in ids ==> exists j :: 0 <= j < |rs| && rs[j].recordId == x
    ensures |RetryPass(rs, ids, os)| == |rs|
    ensures forall j :: 0 <= j < |rs| ==> RetryPass(rs, ids, os)[j].recordId == rs[j].recordId
  {
    if ids != [] {
      var n := |ids| - 1;
      assert forall x :: x in ids[..n] ==> x in ids;
      RetryKeepsIds(rs, ids[..n], os[..n]);
      var prev := RetryPass(rs, ids[..n], os[..n]);
      assert ids[n] in ids;
      var j :| 0 <= j < |rs| && rs[j].recordId == ids[n];
      assert prev[j].recordId == ids[n];
      var k := FindIndex(prev, ids[n]);
      assert k.Some?;
      assert ResultFor(ids[n], os[n]).recordId == ids[n];
    }
  }

  /** A retried entry lands on the first entry carrying its id. */
  lemma RetryOverwritesFirst(rs: seq<AnalysisResult>, recordId: string, x: AnalysisResult, k: nat)
    requires k < |rs| && rs[k].recordId == recordId
    requires forall j :: 0 <= j < k ==> rs[j].recordId != recordId
    ensures Place(rs, recordId, x) == rs[k := x]
  {
  }

  datatype AnalysisNotice =
    | NoRecords          // "No records found to process"
    | NoFailedRecords    // "No failed records to retry"
    | AllSucceeded
    | SomeFailed(errorCount: nat, successCount: nat)
    | AllFailed

  function ErrorCount(rs: seq<AnalysisResult>): nat {
    if rs == [] then 0 else ErrorCount(rs[..|rs| - 1]) + (if rs[|rs| - 1].status == "error" then 1 else 0)
  }

  lemma {:induction false} ErrorCountBound(rs: seq<AnalysisResult>)
    ensures ErrorCount(rs) <= |rs|
    ensures ErrorCount(rs) == 0 <==> forall j :: 0 <= j < |rs| ==> rs[j].status != "error"
  {
    if rs != [] {
      ErrorCountBound(rs[..|rs| - 1]);
    }
  }

  /** The toast after a pass, from the counts of error and other entries. */
  function NoticeFor(rs: seq<AnalysisResult>): (n: AnalysisNotice)
    ensures n == AllSucceeded <==> forall j :: 0 <= j < |rs| ==> rs[j].status != "error"
    ensures n.SomeFailed? <==> 0 < ErrorCount(rs) < |rs|
    ensures n == AllFailed <==> rs != [] && ErrorCount(rs) == |rs|
    ensures n.SomeFailed? ==> n.errorCount == ErrorCount(rs) && n.successCount == |rs| - ErrorCount(rs)
    ensures n.SomeFailed? ==> n.errorCount > 0 && n.successCount > 0 && n.errorCount + n.successCount == |rs|
    ensures n.AllSucceeded? || n.SomeFailed? || n.AllFailed?
  {
    ErrorCountBound(rs);
    var errors := ErrorCount(rs);
    if errors == 0 then AllSucceeded
    else if |rs| - errors > 0 then SomeFailed(errors, |rs| - errors)
    else AllFailed
  }

  // ---------------------------------------------------------------------------
  // The page
  // ---------------------------------------------------------------------------

  class UploadSession {
    var machines: seq<string>
    var selectedFiles: seq<string>
    var uploadStatus: map<int, StatusEntry>
    var isUploading: bool
    var isProcessing: bool
    var analysisResults: seq<AnalysisResult>
    var showResults: bool
    var metadata: Metadata

    /** The status map has exactly one entry per selected file index. */
    ghost predicate Valid()
      reads this
    {
      forall k :: k in uploadStatus <==> 0 <= k < |selectedFiles|
    }

    /** The candidates an analysis pass would send. */
    function Candidates(retryFailedOnly: bool): seq<string>
      reads this
    {
      if retryFailedOnly then RetryCandidates(analysisResults) else UploadCandidates(uploadStatus, |selectedFiles|)
    }

    /** The page as first rendered, with the machine ids it loaded. */
    constructor(machineIds: seq<string>)
      ensures Valid()
      ensures machines == machineIds && selectedFiles == [] && uploadStatus == map[]
      ensures !isUploading && !isProcessing && analysisResults == [] && !showResults
      ensures metadata == DefaultMetadata("")
    {
      machines := machineIds;
      selectedFiles := [];
      uploadStatus := map[];
      isUploading := false;
      isProcessing := false;
      analysisResults := [];
      showResults := false;
      metadata := DefaultMetadata("");
    }

    /** `hasErrors`: some file failed, so at least one file is listed. */
    predicate HasErrors(): (r: bool)
      reads this
      ensures r ==> uploadStatus != map[]
    {
      exists k :: k in uploadStatus && uploadStatus[k].status == Error
    }

    /** `allCompleted`: at least one file, and every file completed, so the
        page never shows both the success and the error notice. */
    predicate AllCompleted(): (r: bool)
      reads this
      ensures r ==> uploadStatus != map[] && !HasErrors()
    {
      |uploadStatus| > 0 && forall k :: k in uploadStatus ==> uploadStatus[k].status == Completed
    }

    /** `handleFileSelect`: one fresh entry per file index, nothing else. */
    method HandleFileSelect(files: seq<string>)
      modifies this
      ensures Valid()
      ensures selectedFiles == files
      ensures forall k :: k in uploadStatus ==> uploadStatus[k] == FreshEntry
      ensures machines == old(machines) && isUploading == old(isUploading) && isProcessing == old(isProcessing)
      ensures analysisResults == old(analysisResults) && showResults == old(showResults) && metadata == old(metadata)
    {
      var status: map<int, StatusEntry> := map[];
      for i := 0 to |files|
        invariant forall k :: k in status <==> 0 <= k < i
        invariant forall k :: k in status ==> status[k] == FreshEntry
      {
        status := status[i := FreshEntry];
      }
      selectedFiles := files;
      uploadStatus := status;
    }

    /** `processFiles`: every file in index order, each through its two calls;
        a failure marks only that file and the loop goes on. */
    method ProcessFiles(outcomes: seq<UploadOutcome>) returns (notice: Notice)
      requires Valid() && |outcomes| == |selectedFiles|
      modifies this
      ensures Valid()
      ensures selectedFiles == old(selectedFiles) && machines == old(machines) && metadata == old(metadata)
      ensures isProcessing == old(isProcessing) && analysisResults == old(analysisResults) && showResults == old(showResults)
      ensures (selectedFiles == [] || metadata.machineId == "") ==>
        && notice == Failure(SelectFilesFirst)
        && uploadStatus == old(uploadStatus) && isUploading == old(isUploading)
      ensures selectedFiles != [] && metadata.machineId != "" ==>
        && !isUploading
        && (forall i :: 0 <= i < |outcomes| ==> uploadStatus[i] == FileResult(old(uploadStatus)[i], outcomes[i]))
        && (notice == Success(AllUploaded) <==> forall i :: 0 <= i < |outcomes| ==> outcomes[i].Recorded?)
        && (notice != Success(AllUploaded) ==> notice == Failure(SomeUploadsFailed))
        && (AllCompleted() <==> forall i :: 0 <= i < |outcomes| ==> outcomes[i].Recorded?)
        && (HasErrors() <==> exists i :: 0 <= i < |outcomes| && !outcomes[i].Recorded?)
    {
      if |selectedFiles| == 0 || metadata.machineId == "" {
        return Failure(SelectFilesFirst);
      }
      isUploading := true;
      var allSuccessful := true;
      for i := 0 to |selectedFiles|
        invariant selectedFiles == old(selectedFiles) && machines == old(machines) && metadata == old(metadata)
        invariant isProcessing == old(isProcessing) && analysisResults == old(analysisResults) && showResults == old(showResults)
        invariant Valid()
        invariant forall k :: k in old(uploadStatus) <==> 0 <= k < |selectedFiles|
        invariant forall j :: 0 <= j < i ==> uploadStatus[j] == FileResult(old(uploadStatus)[j], outcomes[j])
        invariant forall j :: i <= j < |selectedFiles| ==> uploadStatus[j] == old(uploadStatus)[j]
        invariant allSuccessful <==> forall j :: 0 <= j < i ==> outcomes[j].Recorded?
      {
        var ok := ProcessFile(i, outcomes[i]);
        allSuccessful := allSuccessful && ok;
      }
      isUploading := false;
      notice := if allSuccessful then Success(AllUploaded) else Failure(SomeUploadsFailed);
      StatusSummary(outcomes);
    }

    /** One file's turn: its entry goes to uploading at 10, to 50 after the
        upload, to 80 with the record id after the record is created, and to
        completed at 100; a failing call marks it as an error and stops there. */
    method ProcessFile(i: int, o: UploadOutcome) returns (ok: bool)
      requires i in uploadStatus
      modifies this
      ensures ok <==> o.Recorded?
      ensures uploadStatus == old(uploadStatus)[i := FileResult(old(uploadStatus)[i], o)]
      ensures selectedFiles == old(selectedFiles) && machines == old(machines) && metadata == old(metadata)
      ensures isProcessing == old(isProcessing) && analysisResults == old(analysisResults) && showResults == old(showResults)
      ensures isUploading == old(isUploading)
    {
      uploadStatus := uploadStatus[i := uploadStatus[i].(status := Uploading, progress := 10)];
      match o
      case UploadFails(msg) =>
        ok := false;
        uploadStatus := uploadStatus[i := uploadStatus[i].(status := Error, error := Some(msg))];
      case RecordFails(msg) =>
        uploadStatus := uploadStatus[i := uploadStatus[i].(progress := 50)];
        ok := false;
        uploadStatus := uploadStatus[i := uploadStatus[i].(status := Error, error := Some(msg))];
      case Recorded(id) =>
        uploadStatus := uploadStatus[i := uploadStatus[i].(progress := 50)];
        uploadStatus := uploadStatus[i := uploadStatus[i].(progress := 80, recordId := Some(id))];
        uploadStatus := uploadStatus[i := uploadStatus[i].(status := Completed, progress := 100)];
        ok := true;
    }

    /** After a pass, the page's two flags follow from the outcomes. */
    lemma StatusSummary(outcomes: seq<UploadOutcome>)
      requires Valid() && |outcomes| == |selectedFiles| && selectedFiles != []
      requires forall i :: 0 <= i < |outcomes| ==> uploadStatus[i].status == FileResult(Prev(uploadStatus, i), outcomes[i]).status
      ensures AllCompleted() <==> forall i :: 0 <= i < |outcomes| ==> outcomes[i].Recorded?
      ensures HasErrors() <==> exists i :: 0 <= i < |outcomes| && !outcomes[i].Recorded?
    {
      assert 0 in uploadStatus;
      if forall i :: 0 <= i < |outcomes| ==> outcomes[i].Recorded? {
        assert forall k :: k in uploadStatus ==> uploadStatus[k].status == Completed;
      }
      if exists i :: 0 <= i < |outcomes| && !outcomes[i].Recorded? {
        var i :| 0 <= i < |outcomes| && !outcomes[i].Recorded?;
        assert uploadStatus[i].status == Error;
      }
    }

    /** `processAnalysis(retryFailedOnly)`: a full pass replaces the results by
        one entry per recorded id; a retry pass re-analyses the failed entries
        in place. */
    method ProcessAnalysis(retryFailedOnly: bool, outcomes: seq<AnalysisOutcome>) returns (notice: AnalysisNotice)
      requires Valid() && |outcomes| == |Candidates(retryFailedOnly)|
      modifies this
      ensures Valid()
      ensures !isProcessing
      ensures selectedFiles == old(selectedFiles) && uploadStatus == old(uploadStatus) && machines == old(machines)
      ensures metadata == old(metadata) && isUploading == old(isUploading)
      ensures old(Candidates(retryFailedOnly)) == [] ==>
        && notice == (if retryFailedOnly then NoFailedRecords else NoRecords)
        && analysisResults == (if retryFailedOnly then old(analysisResults) else [])
        && showResults == old(showResults)
      ensures old(Candidates(retryFailedOnly)) != [] ==>
        && showResults
        && notice == NoticeFor(analysisResults)
        && analysisResults == (if retryFailedOnly then RetryPass(old(analysisResults), old(Candidates(retryFailedOnly)), outcomes)
                               else FullPass(old(Candidates(retryFailedOnly)), outcomes))
    {
      isProcessing := true;
      if !retryFailedOnly {
        analysisResults := [];
      }
      var recordIds: seq<string>;
      if retryFailedOnly {
        recordIds := FailedIds(analysisResults);
      } else {
        recordIds := RecordedIds(uploadStatus, |selectedFiles|);
      }
      if |recordIds| == 0 {
        notice := if retryFailedOnly then NoFailedRecords else NoRecords;
        isProcessing := false;
        return;
      }
      var results := AnalyzeAll(retryFailedOnly, if retryFailedOnly then analysisResults else [], recordIds, outcomes);
      analysisResults := results;
      showResults := true;
      notice := NoticeFor(results);
      isProcessing := false;
    }

    /** The loop of `processAnalysis`: each id is analysed in turn and its
        entry appended or, when retrying, placed over the first entry with that id. */
    static method AnalyzeAll(retryFailedOnly: bool, start: seq<AnalysisResult>, recordIds: seq<string>, outcomes: seq<AnalysisOutcome>)
      returns (results: seq<AnalysisResult>)
      requires |outcomes| == |recordIds|
      requires !retryFailedOnly ==> start == []
      ensures retryFailedOnly ==> results == RetryPass(start, recordIds, outcomes)
      ensures !retryFailedOnly ==> results == FullPass(recordIds, outcomes)
    {
      results := start;
      for i := 0 to |recordIds|
        invariant retryFailedOnly ==> results == RetryPass(start, recordIds[..i], outcomes[..i])
        invariant !retryFailedOnly ==> results == FullPass(recordIds[..i], outcomes[..i])
      {
        var recordId := recordIds[i];
        var entry := match outcomes[i]
          case Analyzed(res) => res
          case Failed(t) => ErrorResult(recordId, t);
        assert recordIds[..i + 1][..i] == recordIds[..i] && outcomes[..i + 1][..i] == outcomes[..i];
        if retryFailedOnly {
          var index := FindIndex(results, recordId);
          if index.Some? {
            results := results[index.value := entry];
          } else {
            results := results + [entry];
          }
        } else {
          results := results + [entry];
        }
      }
      assert recordIds[..|recordIds|] == recordIds && outcomes[..|outcomes|] == outcomes;
    }

    /** The failed entries' ids, in list order. */
    static method FailedIds(rs: seq<AnalysisResult>) returns (ids: seq<string>)
      ensures ids == RetryCandidates(rs)
    {
      ids := [];
      for i := 0 to |rs|
        invariant ids == RetryCandidates(rs[..i])
      {
        assert rs[..i + 1][..i] == rs[..i];
        if rs[i].status == "error" {
          ids := ids + [rs[i].recordId];
        }
      }
      assert rs[..|rs|] == rs;
    }

    /** The recorded ids of the status map, in key order. */
    static method RecordedIds(m: map<int, StatusEntry>, n: nat) returns (ids: seq<string>)
      ensures ids == UploadCandidates(m, n)
    {
      ids := [];
      for i := 0 to n
        invariant ids == UploadCandidates(m, i)
      {
        if i in m && m[i].recordId.Some? && m[i].recordId.value != "" {
          ids := ids + [m[i].recordId.value];
        }
      }
    }

    /** The "Process & Analyze Files" button as wired: the click event arrives
        as `retryFailedOnly` and, being an object, counts as true. */
    method ClickAnalyzeAsWritten(outcomes: seq<AnalysisOutcome>) returns (notice: AnalysisNotice)
      requires Valid() && |outcomes| == |Candidates(true)|
      modifies this
      ensures Valid()
      ensures selectedFiles == old(selectedFiles) && uploadStatus == old(uploadStatus)
      ensures old(analysisResults) == [] ==> analysisResults == [] && notice == NoFailedRecords
    {
      notice := ProcessAnalysis(true, outcomes);
    }

    /** The button as intended: a full pass over the recorded ids. */
    method ClickAnalyze(outcomes: seq<AnalysisOutcome>) returns (notice: AnalysisNotice)
      requires Valid() && |outcomes| == |Candidates(false)|
      modifies this
      ensures Valid()
      ensures selectedFiles == old(selectedFiles) && uploadStatus == old(uploadStatus)
      ensures old(Candidates(false)) != [] ==> |analysisResults| == |old(Candidates(false))| > 0 && showResults
      ensures old(Candidates(false)) != [] ==> analysisResults == FullPass(old(Candidates(false)), outcomes)
    {
      notice := ProcessAnalysis(false, outcomes);
    }

    /** "Retry failed": only the failed entries are analysed again. */
    method RetryFailed(outcomes: seq<AnalysisOutcome>) returns (notice: AnalysisNotice)
      requires Valid() && |outcomes| == |Candidates(true)|
      modifies this
      ensures Valid()
      ensures !isProcessing
      ensures selectedFiles == old(selectedFiles) && uploadStatus == old(uploadStatus) && machines == old(machines)
      ensures metadata == old(metadata) && isUploading == old(isUploading)
      ensures old(Candidates(true)) == [] ==>
        notice == NoFailedRecords && analysisResults == old(analysisResults) && showResults == old(showResults)
      ensures old(Candidates(true)) != [] ==>
        && showResults
        && notice == NoticeFor(analysisResults)
        && analysisResults == RetryPass(old(analysisResults), old(Candidates(true)), outcomes)
      ensures |analysisResults| >= |old(analysisResults)|
      ensures forall j :: 0 <= j < |old(analysisResults)| && old(analysisResults)[j].recordId !in old(Candidates(true)) ==>
        analysisResults[j] == old(analysisResults)[j]
    {
      ghost var before := analysisResults;
      ghost var ids := Candidates(true);
      notice := ProcessAnalysis(true, outcomes);
      RetryKeepsOthers(before, ids, outcomes);
    }

    /** `resetUpload` */
    method ResetUpload()
      modifies this
      ensures Valid()
      ensures selectedFiles == [] && uploadStatus == map[] && !isProcessing && analysisResults == [] && !showResults
      ensures metadata == DefaultMetadata(if |old(machines)| > 0 then old(machines)[0] else "")
      ensures machines == old(machines) && isUploading == old(isUploading)
    {
      selectedFiles := [];
      uploadStatus := map[];
      isProcessing := false;
      analysisResults := [];
      showResults := false;
      metadata := DefaultMetadata(if |machines| > 0 then machines[0] else "");
    }
  }

  /** One file uploaded and recorded as `id`: a full pass would analyse `id`,
      while the retry branch, the one the analyse button reaches with no
      results yet, finds nothing to send. */
  lemma ClickAfterUploadSendsNothing(id: string)
    requires id != ""
    ensures UploadCandidates(map[0 := FileResult(FreshEntry, Recorded(id))], 1) == [id]
    ensures RetryCandidates([]) == []
  {
    var m := map[0 := FileResult(FreshEntry, Recorded(id))];
    assert UploadCandidates(m, 0) == [];
  }

  /** After a fresh batch, the ids a full pass sends are exactly the ids of the
      files whose record was created. */
  lemma {:induction false} FreshBatchCandidates(outcomes: seq<UploadOutcome>, x: string)
    ensures var m := map i | 0 <= i < |outcomes| :: FileResult(FreshEntry, outcomes[i]);
      x in UploadCandidates(m, |outcomes|) <==>
        exists i :: 0 <= i < |outcomes| && outcomes[i] == Recorded(x) && x != ""
  {
    var m := map i | 0 <= i < |outcomes| :: FileResult(FreshEntry, outcomes[i]);
    UploadCandidatesMembers(m, |outcomes|, x);
    if exists i :: 0 <= i < |outcomes| && outcomes[i] == Recorded(x) && x != "" {
      var i :| 0 <= i < |outcomes| && outcomes[i] == Recorded(x) && x != "";
      assert m[i].recordId == Some(x);
    }
    if exists i :: 0 <= i < |outcomes| && i in m && m[i].recordId == Some(x) && x != "" {
      var i :| 0 <= i < |outcomes| && i in m && m[i].recordId == Some(x) && x != "";
      assert outcomes[i] == Recorded(x);
    }
  }
}
