/**
 * The document upload panel, src/components/organisms/DocumentUpload.jsx:
 * the list of staged files that `addFiles` and `removeFile` edit, the
 * guards and the result split of `handleUpload`, and the search over the
 * stored documents. The panel's file ids (`Date.now() + Math.random()`)
 * and the stored files' paths are given as parameters.
 */
module DocumentUpload {
  import opened Outcomes
  import opened Domain
  import Seqs
  import Text
  import Documents

  datatype StageStatus = StagePending | StageUploading | StageCompleted | StageError

  /** An entry of the `files` list: the file, its panel id, its progress and its status. */
  datatype StagedFile = StagedFile(file: FileInfo, id: int, progress: int, status: StageStatus)

  /** The panel's own size check: at most 10 MB. */
  predicate FitsSize(f: FileInfo) { f.size <= Documents.MaxSize }

  /**
   * The entries `addFiles` appends for `newFiles`, where `ids[i]` is the id
   * drawn for the i-th file that passes: the files within the size limit,
   * in order, each with its id, progress 0 and status pending.
   */
  function Staged(newFiles: seq<FileInfo>, ids: seq<int>): (r: seq<StagedFile>)
    requires |ids| == |Seqs.Filter(newFiles, FitsSize)|
    ensures |r| == |ids|
    ensures forall i :: 0 <= i < |r| ==>
      r[i] == StagedFile(Seqs.Filter(newFiles, FitsSize)[i], ids[i], 0, StagePending)
    ensures forall e :: e in r ==> FitsSize(e.file) && e.file in newFiles
  {
    var valid := Seqs.Filter(newFiles, FitsSize);
    seq(|valid|, i requires 0 <= i < |valid| => StagedFile(valid[i], ids[i], 0, StagePending))
  }

  /** Which results carry an error. */
  predicate IsError(r: Documents.UploadResult) { r.Rejected? }

  predicate IsSuccess(r: Documents.UploadResult) { !r.Rejected? }

  /** What `handleUpload` did. */
  datatype UploadOutcome =
    | NoResident
    | NoFiles
    | Finished(results: seq<Documents.UploadResult>,
               errors: seq<Documents.UploadResult>, successes: seq<Documents.UploadResult>)

  /**
   * The results split into those with an error and those without: the
   * two parts together hold every result once, and the successes are the
   * uploaded documents.
   */
  lemma SplitResults(results: seq<Documents.UploadResult>)
    ensures |Seqs.Filter(results, IsError)| + |Seqs.Filter(results, IsSuccess)| == |results|
    ensures forall r :: r in Seqs.Filter(results, IsError) ==> r.Rejected?
    ensures forall r :: r in Seqs.Filter(results, IsSuccess) ==> r.Uploaded?
    ensures |Seqs.Filter(results, IsSuccess)| == |Documents.UploadedDocs(results)|
  {
    Seqs.FilterSplit(results, IsError, IsSuccess);
    SuccessesAreUploads(results);
  }

  lemma {:induction false} SuccessesAreUploads(results: seq<Documents.UploadResult>)
    ensures |Seqs.Filter(results, IsSuccess)| == |Documents.UploadedDocs(results)|
  {
    if results != [] {
      SuccessesAreUploads(results[1..]);
      assert results == [results[0]] + results[1..];
    }
  }

  /** The files of the staged entries, in order: `files.map(f => f.file)`. */
  function FilesOf(staged: seq<StagedFile>): (r: seq<FileInfo>)
    ensures |r| == |staged|
    ensures forall i :: 0 <= i < |staged| ==> r[i] == staged[i].file
  {
    Seqs.Map(staged, (e: StagedFile) => e.file)
  }

  /** One result per file, in order, each the answer `uploadFile` gives for its file. */
  predicate AnswersEach(results: seq<Documents.UploadResult>, files: seq<FileInfo>, residentId: int,
                        category: string, paths: seq<string>, now: int)
  {
    |results| == |files| == |paths| &&
    forall i :: 0 <= i < |files| ==> Documents.Answers(results[i], files[i], residentId, category, paths[i], now)
  }

  /**
   * `results` answer `files` one by one, and `errors` and `successes` are
   * the results with and without an error, each in order.
   */
  predicate SplitUpload(results: seq<Documents.UploadResult>, errors: seq<Documents.UploadResult>,
                        successes: seq<Documents.UploadResult>, files: seq<FileInfo>, residentId: int,
                        category: string, paths: seq<string>, now: int)
  {
    AnswersEach(results, files, residentId, category, paths, now) &&
    errors == Seqs.Filter(results, IsError) && successes == Seqs.Filter(results, IsSuccess)
  }

  /** Whether a file passes `validateFile`. */
  predicate Passes(f: FileInfo) { Documents.ValidateFile(f).None? }

  /**
   * When each result answers its file, the successes are as many as the
   * files that pass validation, and the errors as many as those that fail.
   */
  lemma SplitMatchesValidation(results: seq<Documents.UploadResult>, files: seq<FileInfo>,
                               residentId: int, category: string, paths: seq<string>, now: int)
    requires AnswersEach(results, files, residentId, category, paths, now)
    ensures |Seqs.Filter(results, IsSuccess)| == |Seqs.Filter(files, Passes)|
    ensures |Seqs.Filter(results, IsError)| == |files| - |Seqs.Filter(files, Passes)|
  {
    forall i | 0 <= i < |files|
      ensures IsSuccess(results[i]) <==> Passes(files[i])
    {
      assert Documents.Answers(results[i], files[i], residentId, category, paths[i], now);
    }
    SuccessesFollowFiles(results, files);
  }

  /** Results that succeed exactly where their files pass are split as the files are. */
  lemma {:induction false} SuccessesFollowFiles(results: seq<Documents.UploadResult>, files: seq<FileInfo>)
    requires |results| == |files|
    requires forall i :: 0 <= i < |files| ==> (IsSuccess(results[i]) <==> Passes(files[i]))
    ensures |Seqs.Filter(results, IsSuccess)| == |Seqs.Filter(files, Passes)|
    ensures |Seqs.Filter(results, IsError)| == |files| - |Seqs.Filter(files, Passes)|
  {
    if files != [] {
      var rs, fs := results[1..], files[1..];
      assert forall i :: 0 <= i < |fs| ==> rs[i] == results[i + 1] && fs[i] == files[i + 1];
      SuccessesFollowFiles(rs, fs);
      FilterLength(results, IsSuccess);
      FilterLength(results, IsError);
      FilterLength(files, Passes);
    }
  }

  /** Filtering a non-empty sequence keeps its head or not, then filters the tail. */
  lemma FilterLength<T(!new)>(s: seq<T>, p: T -> bool)
    requires s != []
    ensures |Seqs.Filter(s, p)| == (if p(s[0]) then 1 else 0) + |Seqs.Filter(s[1..], p)|
  {
    assert s == [s[0]] + s[1..];
    Seqs.FilterCons(s[0], s[1..], p);
  }

  /**
   * The upload step of `handleUpload`: every file goes to
   * `uploadMultipleFiles`, whose results, one per file in order, are split
   * into those with an error and the rest. The errors are the files that
   * fail validation, the successes those that pass, and the stored
   * documents grow by exactly the uploaded ones, in order.
   */
  method UploadAndSplit(service: Documents.DocumentService, files: seq<FileInfo>, residentId: int,
                        category: string, paths: seq<string>, now: int)
    returns (results: seq<Documents.UploadResult>,
             errors: seq<Documents.UploadResult>, successes: seq<Documents.UploadResult>)
    requires |service.documents| > 0
    requires |paths| == |files|
    modifies service
    ensures SplitUpload(results, errors, successes, files, residentId, category, paths, now)
    ensures |errors| + |successes| == |files|
    ensures forall r :: r in errors ==> r.Rejected?
    ensures forall r :: r in successes ==> r.Uploaded?
    ensures service.documents == old(service.documents) + Documents.UploadedDocs(results)
  {
    results := service.UploadMultipleFiles(files, residentId, category, paths, now);
    errors := Seqs.Filter(results, IsError);
    successes := Seqs.Filter(results, IsSuccess);
    SplitResults(results);

  }

  /** The name shown for a document's resident: the first resident with that Id, or "Unknown". */
  function ResidentName(residents: seq<Resident>, residentId: int): (name: string)
    ensures (exists i :: 0 <= i < |residents| && residents[i].Id == residentId) ==>
      exists i :: 0 <= i < |residents| && residents[i].Id == residentId && residents[i].name == name
    ensures (forall i :: 0 <= i < |residents| ==> residents[i].Id != residentId) ==> name == "Unknown"
  {
    var i := Seqs.FirstIndex(residents, (r: Resident) => r.Id == residentId);
    if i == -1 then "Unknown" else residents[i].name
  }

  /** The search test: file name, original name, resident name or category contain the term, ignoring case. */
  function MatchesSearch(residents: seq<Resident>, term: string): Document -> bool
  {
    (d: Document) =>
      Text.ContainsIgnoringCase(d.fileName, term) || Text.ContainsIgnoringCase(d.originalName, term) ||
      Text.ContainsIgnoringCase(ResidentName(residents, d.residentId), term) ||
      Text.ContainsIgnoringCase(d.category, term)
  }

  /** `filteredDocuments`: in stored order, the documents that match the search. */
  function FilteredDocuments(docs: seq<Document>, residents: seq<Resident>, term: string): (r: seq<Document>)
    ensures Seqs.IsSubsequence(r, docs)
    ensures forall d {:trigger multiset(r)[d]} :: multiset(r)[d] == if MatchesSearch(residents, term)(d) then multiset(docs)[d] else 0
    ensures forall d :: d in r <==> d in docs && MatchesSearch(residents, term)(d)
  {
    Seqs.Filter(docs, MatchesSearch(residents, term))
  }

  /**
   * A document whose resident is not loaded is listed under the name
   * "Unknown", so searching "unknown", in any case, finds it.
   */
  lemma MissingResidentFoundAsUnknown(docs: seq<Document>, residents: seq<Resident>, d: Document)
    requires d in docs
    requires forall i :: 0 <= i < |residents| ==> residents[i].Id != d.residentId
    ensures d in FilteredDocuments(docs, residents, "unknown")
    ensures d in FilteredDocuments(docs, residents, "UNKNOWN")
  {
    var name := ResidentName(residents, d.residentId);
    assert name == "Unknown";
    assert Text.Lower("Unknown") == "unknown" == Text.Lower("unknown") == Text.Lower("UNKNOWN");
    Text.ContainsSelf("unknown");
  }

  /** The panel's state. */
  class UploadPanel {
    var files: seq<StagedFile>
    var uploading: bool
    var uploadProgress: int
    var selectedResident: Option<int>
    var selectedCategory: string
    var existingDocuments: seq<Document>

    constructor (docs: seq<Document>)
      ensures files == [] && !uploading && uploadProgress == 0
      ensures selectedResident == None && selectedCategory == "identification"
      ensures existingDocuments == docs
    {
      files := [];
      uploading := false;
      uploadProgress := 0;
      selectedResident := None;
      selectedCategory := "identification";
      existingDocuments := docs;
    }

    /**
     * `addFiles`: the files within 10 MB are appended after the staged
     * ones, in the order given, each pending with progress 0; larger files
     * are dropped. Nothing else changes.
     */
    method AddFiles(newFiles: seq<FileInfo>, ids: seq<int>)
      requires |ids| == |Seqs.Filter(newFiles, FitsSize)|
      modifies this
      ensures files == old(files) + Staged(newFiles, ids)
      ensures |files| <= |old(files)| + |newFiles|
      ensures forall i :: |old(files)| <= i < |files| ==> FitsSize(files[i].file) && files[i].progress == 0
      ensures uploading == old(uploading) && uploadProgress == old(uploadProgress)
      ensures selectedResident == old(selectedResident) && existingDocuments == old(existingDocuments)
      ensures selectedCategory == old(selectedCategory)
    {
      files := files + Staged(newFiles, ids);
    }

    /** `removeFile`: drop the entries with that id and keep the rest in order. */
    method RemoveFile(id: int)
      modifies this
      ensures forall e :: e in files <==> e in old(files) && e.id != id
      ensures forall e {:trigger multiset(files)[e]} ::
        multiset(files)[e] == if e.id != id then multiset(old(files))[e] else 0
      ensures Seqs.IsSubsequence(files, old(files))
      ensures uploading == old(uploading) && uploadProgress == old(uploadProgress)
      ensures selectedResident == old(selectedResident) && existingDocuments == old(existingDocuments)
      ensures selectedCategory == old(selectedCategory)
    {
      files := Seqs.Filter(files, (e: StagedFile) => e.id != id);
    }

    /**
     * `handleUpload`: with no resident selected (checked first) or no file
     * staged, nothing is uploaded and nothing changes. Otherwise every
     * staged file goes to `uploadMultipleFiles`; the results are split
     * into errors and successes; the staged list is cleared and the
     * document list reloaded only when something succeeded; and
     * `uploading` and the progress end at false and 0.
     */
    method HandleUpload(service: Documents.DocumentService, paths: seq<string>, now: int)
      returns (outcome: UploadOutcome)
      requires |service.documents| > 0
      requires |paths| == |files|
      modifies this, service
      ensures old(selectedResident).None? ==>
        outcome == NoResident && service.documents == old(service.documents) && files == old(files) &&
        uploading == old(uploading) && uploadProgress == old(uploadProgress) &&
        existingDocuments == old(existingDocuments)
      ensures old(selectedResident).Some? && old(files) == [] ==>
        outcome == NoFiles && service.documents == old(service.documents) && files == old(files) &&
        uploading == old(uploading) && uploadProgress == old(uploadProgress) &&
        existingDocuments == old(existingDocuments)
      ensures outcome.Finished? ==>
        old(selectedResident).Some? && old(files) != [] &&
        SplitUpload(outcome.results, outcome.errors, outcome.successes, FilesOf(old(files)),
                    old(selectedResident).value, old(selectedCategory), paths, now) &&
        |outcome.errors| + |outcome.successes| == |old(files)| &&
        (forall r :: r in outcome.errors ==> r.Rejected?) &&
        (forall r :: r in outcome.successes ==> r.Uploaded?) &&
        service.documents == old(service.documents) + Documents.UploadedDocs(outcome.results) &&
        (|outcome.successes| > 0 ==> files == [] && existingDocuments == service.documents) &&
        (|outcome.successes| == 0 ==> files == old(files) && existingDocuments == old(existingDocuments)) &&
        !uploading && uploadProgress == 0
      ensures selectedResident == old(selectedResident) && selectedCategory == old(selectedCategory)
    {
      if selectedResident.None? {
        return NoResident;
      }
      if |files| == 0 {
        return NoFiles;
      }
      var results, errors, successes := UploadStaged(service, paths, now);
      outcome := Finished(results, errors, successes);
    }

    /**
     * The upload branch of `handleUpload`, once a resident is selected and
     * files are staged: the staged files are uploaded and split; on a
     * success the staged list is cleared and the document list reloaded;
     * the flags end at false and 0 either way.
     */
    method UploadStaged(service: Documents.DocumentService, paths: seq<string>, now: int)
      returns (results: seq<Documents.UploadResult>,
               errors: seq<Documents.UploadResult>, successes: seq<Documents.UploadResult>)
      requires selectedResident.Some? && files != []
      requires |service.documents| > 0
      requires |paths| == |files|
      modifies this, service
      ensures SplitUpload(results, errors, successes, FilesOf(old(files)),
                          old(selectedResident).value, old(selectedCategory), paths, now)
      ensures |errors| + |successes| == |old(files)|
      ensures forall r :: r in errors ==> r.Rejected?
      ensures forall r :: r in successes ==> r.Uploaded?
      ensures service.documents == old(service.documents) + Documents.UploadedDocs(results)
      ensures |successes| > 0 ==> files == [] && existingDocuments == service.documents
      ensures |successes| == 0 ==> files == old(files) && existingDocuments == old(existingDocuments)
      ensures !uploading && uploadProgress == 0
      ensures selectedResident == old(selectedResident) && selectedCategory == old(selectedCategory)
    {
      uploading := true;
      uploadProgress := 0;
      results, errors, successes :=
        UploadAndSplit(service, FilesOf(files), selectedResident.value, selectedCategory, paths, now);
      if |successes| > 0 {
        existingDocuments := service.documents;
        files := [];
      }
      uploading := false;
      uploadProgress := 0;
    }
  }
}
