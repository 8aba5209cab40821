/**
 * The document store of src/services/api/documentService.js: file
 * validation, an array of document records changed in place by `create`,
 * `update` and `delete`, uploads of one or several files, the search and
 * filter views, and the statistics accumulated over the store.
 *
 * The upload timestamp is the parameter `now`; the stored file path, built
 * from the clock and the file name, is the parameter `path`.
 */
module Documents {
  import opened Outcomes
  import opened Domain
  import Seqs
  import Text

  const NotFound: string := "Document not found"

  /** `10 * 1024 * 1024` bytes. */
  const MaxSize: int := 10485760

  const AllowedTypes: seq<string> := [
    "application/pdf",
    "image/jpeg",
    "image/png",
    "image/gif",
    "application/msword",
    "application/vnd.openxmlformats-officedocument.wordprocessingml.document",
    "text/plain"
  ]

  const DangerousExtensions: seq<string> := [".exe", ".bat", ".cmd", ".com", ".pif", ".scr", ".vbs", ".js"]

  /** Why `validateFile` rejects a file. */
  datatype FileError = UnsupportedType(fileType: string) | TooLarge(size: int) | Forbidden

  /** The lower-cased name ends with one of the dangerous extensions. */
  predicate HasDangerousExtension(name: string)
  {
    exists ext :: ext in DangerousExtensions && Text.EndsWith(Text.Lower(name), ext)
  }

  /**
   * `validateFile`: the MIME type must be on the allow-list, then the size
   * at most 10 MB, then the lower-cased name must not end with a dangerous
   * extension; the first failing check decides the error.
   */
  function ValidateFile(file: FileInfo): (r: Option<FileError>)
    ensures r.None? <==>
      file.fileType in AllowedTypes && file.size <= MaxSize && !HasDangerousExtension(file.name)
    ensures file.fileType !in AllowedTypes ==> r == Some(UnsupportedType(file.fileType))
    ensures file.fileType in AllowedTypes && file.size > MaxSize ==> r == Some(TooLarge(file.size))
    ensures r == Some(Forbidden) <==>
      file.fileType in AllowedTypes && file.size <= MaxSize && HasDangerousExtension(file.name)
  {
    if file.fileType !in AllowedTypes then Some(UnsupportedType(file.fileType))
    else if file.size > MaxSize then Some(TooLarge(file.size))
    else if HasDangerousExtension(file.name) then Some(Forbidden)
    else None
  }

  /** A file of exactly 10 MB passes the size check; one byte more does not. */
  lemma SizeLimitIsInclusive(name: string)
    requires !HasDangerousExtension(name)
    ensures ValidateFile(FileInfo(name, "application/pdf", MaxSize)).None?
    ensures ValidateFile(FileInfo(name, "application/pdf", MaxSize + 1)) == Some(TooLarge(MaxSize + 1))
  {
  }

  /** Upper case does not hide a dangerous extension: "SETUP.EXE" is refused like "setup.exe". */
  lemma DangerousExtensionIgnoresCase(name: string)
    ensures HasDangerousExtension(name) <==> HasDangerousExtension(Text.Lower(name))
  {
    Text.LowerIdempotent(name);
  }

  /** What `uploadMultipleFiles` reports for one file. */
  datatype UploadResult = Uploaded(doc: Document) | Rejected(error: FileError, fileName: string)

  /**
   * `r` is what uploading `f` answers: rejected, with the validation
   * message and the file name, exactly when validation fails, and
   * otherwise a stored document carrying the file's name as both names,
   * its type, size and path, the chosen resident and category, and the
   * upload instant `now`.
   */
  predicate Answers(r: UploadResult, f: FileInfo, residentId: int, category: string, path: string, now: int)
  {
    (r.Rejected? <==> ValidateFile(f).Some?) &&
    (r.Rejected? ==> r == Rejected(ValidateFile(f).value, f.name)) &&
    (r.Uploaded? ==>
       r.doc.fileName == f.name && r.doc.originalName == f.name && r.doc.fileType == f.fileType &&
       r.doc.fileSize == Some(f.size) && r.doc.filePath == path && r.doc.residentId == residentId &&
       r.doc.category == category && r.doc.uploadDate == now)
  }

  /** The documents among the results, in order. */
  function UploadedDocs(rs: seq<UploadResult>): (ds: seq<Document>)
    ensures |ds| <= |rs|
    ensures forall d :: d in ds <==> Uploaded(d) in rs
  {
    if rs == [] then []
    else
      var rest := UploadedDocs(rs[1..]);
      assert rs == [rs[0]] + rs[1..];
      (if rs[0].Uploaded? then [rs[0].doc] else []) + rest
  }

  lemma UploadedDocsSnoc(rs: seq<UploadResult>, x: UploadResult)
    ensures UploadedDocs(rs + [x]) == UploadedDocs(rs) + (if x.Uploaded? then [x.doc] else [])
  {
    if rs != [] {
      assert (rs + [x])[1..] == rs[1..] + [x];
      UploadedDocsSnoc(rs[1..], x);
    }
  }

  /** `downloadDocument`'s answer. */
  datatype Download = Download(downloadUrl: string, fileName: string, fileType: string)

  /** What `getDocumentStats` reports. */
  datatype DocumentStats = DocumentStats(
    total: nat, byCategory: map<string, nat>, byResident: map<int, nat>, totalSize: int)

  function DocumentId(d: Document): int { d.Id }
  function CategoryOf(d: Document): string { d.category }
  function ResidentOf(d: Document): int { d.residentId }

  /** `doc.fileSize || 0`. */
  function SizeOf(d: Document): int { d.fileSize.GetOr(0) }

  /**
   * The merge of `update`: every field the patch carries except `Id`,
   * `uploadDate` and `filePath`, which the service strips first.
   */
  function MergeDocument(d: Document, p: DocumentPatch): (r: Document)
    ensures r.Id == d.Id && r.uploadDate == d.uploadDate && r.filePath == d.filePath
    ensures r.fileName == p.fileName.GetOr(d.fileName) && r.originalName == p.originalName.GetOr(d.originalName)
    ensures r.fileType == p.fileType.GetOr(d.fileType) && r.fileSize == p.fileSize.GetOr(d.fileSize)
    ensures r.residentId == p.residentId.GetOr(d.residentId) && r.category == p.category.GetOr(d.category)
  {
    Document(d.Id, p.fileName.GetOr(d.fileName), p.originalName.GetOr(d.originalName),
             p.fileType.GetOr(d.fileType), p.fileSize.GetOr(d.fileSize), p.residentId.GetOr(d.residentId),
             p.category.GetOr(d.category), d.uploadDate, d.filePath)
  }

  /** A search hit: the query occurs, ignoring case, in the file name, original name or category. */
  function Matches(query: string): Document -> bool
  {
    (d: Document) =>
      Text.ContainsIgnoringCase(d.fileName, query) ||
      Text.ContainsIgnoringCase(d.originalName, query) ||
      Text.ContainsIgnoringCase(d.category, query)
  }

  /** Every document contains the empty query, so searching for it changes nothing. */
  lemma EmptyQueryMatchesAll(ds: seq<Document>)
    ensures Seqs.Filter(ds, Matches("")) == ds
  {
    forall d | d in ds
      ensures Matches("")(d)
    {
      Text.ContainsEmpty(Text.Lower(d.fileName));
    }
    Seqs.FilterKeepsAll(ds, Matches(""));
  }

  /** Counting one more document bumps its category's and its resident's tallies and adds its size. */
  lemma StatsStep(ds: seq<Document>, k: int)
    requires 0 <= k < |ds|
    ensures var before := Seqs.Tally(ds[..k], CategoryOf);
      Seqs.Tally(ds[..k + 1], CategoryOf) ==
        before[ds[k].category := (if ds[k].category in before then before[ds[k].category] else 0) + 1]
    ensures var before := Seqs.Tally(ds[..k], ResidentOf);
      Seqs.Tally(ds[..k + 1], ResidentOf) ==
        before[ds[k].residentId := (if ds[k].residentId in before then before[ds[k].residentId] else 0) + 1]
    ensures Seqs.Sum(ds[..k + 1], SizeOf) == Seqs.Sum(ds[..k], SizeOf) + SizeOf(ds[k])
  {
    assert ds[..k + 1] == ds[..k] + [ds[k]];
    Seqs.SumSnoc(ds[..k], ds[k], SizeOf);
    Seqs.TallySnoc(ds[..k], ds[k], CategoryOf);
    Seqs.TallySnoc(ds[..k], ds[k], ResidentOf);
  }

  /** Both tallies hold each key's count, and each sums to the number of documents. */
  lemma TallyFacts(ds: seq<Document>)
    ensures forall c :: c in Seqs.Tally(ds, CategoryOf) ==> Seqs.Tally(ds, CategoryOf)[c] == Seqs.CountOf(ds, CategoryOf, c)
    ensures forall c :: c in Seqs.Tally(ds, ResidentOf) ==> Seqs.Tally(ds, ResidentOf)[c] == Seqs.CountOf(ds, ResidentOf, c)
    ensures Seqs.SumAt(Seqs.Tally(ds, CategoryOf), Seqs.Keys(ds, CategoryOf)) == |ds|
    ensures Seqs.SumAt(Seqs.Tally(ds, ResidentOf), Seqs.Keys(ds, ResidentOf)) == |ds|
  {
    Seqs.TallyCounts(ds, CategoryOf);
    Seqs.TallyCounts(ds, ResidentOf);
    Seqs.TallyTotal(ds, CategoryOf);
    Seqs.TallyTotal(ds, ResidentOf);
  }

  class DocumentService {
    var documents: seq<Document>

    constructor (seed: seq<Document>)
      ensures documents == seed
    {
      documents := seed;
    }

    /** `findIndex(d => d.Id === id)`. */
    function IndexOf(id: int): (i: int)
      reads this
      ensures -1 <= i < |documents|
      ensures i == -1 <==> forall j :: 0 <= j < |documents| ==> documents[j].Id != id
      ensures 0 <= i ==> documents[i].Id == id && forall j :: 0 <= j < i ==> documents[j].Id != id
    {
      Seqs.FirstIndex(documents, (d: Document) => d.Id == id)
    }

    /** `getById`: the first document with that Id, or "Document not found". */
    function GetById(id: int): (r: Result<Document>)
      reads this
      ensures r.Ok? <==> exists j :: 0 <= j < |documents| && documents[j].Id == id
      ensures r.Ok? ==> r.value in documents && r.value.Id == id
      ensures r.Err? ==> r.message == NotFound
    {
      var i := IndexOf(id);
      if i == -1 then Err(NotFound) else Ok(documents[i])
    }

    /** `getByResident`: the documents of one resident, in store order. */
    function GetByResident(residentId: int): (r: seq<Document>)
      reads this
      ensures forall d :: d in r <==> d in documents && d.residentId == residentId
      ensures Seqs.IsSubsequence(r, documents)
      ensures forall d {:trigger multiset(r)[d]} :: multiset(r)[d] == if d.residentId == residentId then multiset(documents)[d] else 0
    {
      Seqs.Filter(documents, (d: Document) => d.residentId == residentId)
    }

    /**
     * `create`: append the data with `Id` one above the largest stored Id,
     * the upload instant `now`, and a missing size replaced by 0. The store
     * must not be empty.
     */
    method Create(data: Document, now: int) returns (d: Document)
      requires |documents| > 0
      modifies this
      ensures d.Id == Seqs.NextId(old(documents), DocumentId)
      ensures forall i :: 0 <= i < |old(documents)| ==> old(documents)[i].Id < d.Id
      ensures d.uploadDate == now
      ensures d.fileSize == Some(data.fileSize.GetOr(0))
      ensures d.(Id := data.Id, uploadDate := data.uploadDate, fileSize := data.fileSize) == data
      ensures documents == old(documents) + [d]
    {
      d := data.(Id := Seqs.NextId(documents, DocumentId), uploadDate := now, fileSize := Some(data.fileSize.GetOr(0)));
      documents := documents + [d];
    }

    /**
     * `uploadFile`: validate first, and only then create the record with the
     * file's name as both names, its type and size, the resident and the
     * category, which is "other" when the caller gives none.
     */
    method UploadFile(file: FileInfo, residentId: int, category: string := "other", path: string, now: int)
      returns (r: UploadResult)
      requires |documents| > 0
      modifies this
      ensures ValidateFile(file).Some? ==>
        r == Rejected(ValidateFile(file).value, file.name) && documents == old(documents)
      ensures ValidateFile(file).None? ==>
        r.Uploaded? && documents == old(documents) + [r.doc]
      ensures r.Uploaded? ==>
        r.doc.Id == Seqs.NextId(old(documents), DocumentId) &&
        r.doc.fileName == file.name && r.doc.originalName == file.name &&
        r.doc.fileType == file.fileType && r.doc.fileSize == Some(file.size) &&
        r.doc.residentId == residentId && r.doc.category == category &&
        r.doc.uploadDate == now && r.doc.filePath == path
      ensures Answers(r, file, residentId, category, path, now)
      ensures documents == old(documents) + (if r.Uploaded? then [r.doc] else [])
      ensures |documents| > 0
    {
      var check := ValidateFile(file);
      if check.Some? {
        return Rejected(check.value, file.name);
      }
      var d := Create(Document(0, file.name, file.name, file.fileType, Some(file.size), residentId, category, now, path), now);
      r := Uploaded(d);
    }

    /**
     * `uploadMultipleFiles`: one result per file, in input order; a rejected
     * file yields its error and name and does not stop the others. The store
     * grows by exactly the uploaded documents, in order.
     */
    method UploadMultipleFiles(files: seq<FileInfo>, residentId: int, category: string := "other",
                               paths: seq<string>, now: int)
      returns (results: seq<UploadResult>)
      requires |documents| > 0
      requires |paths| == |files|
      modifies this
      ensures |results| == |files|
      ensures forall i :: 0 <= i < |files| ==> Answers(results[i], files[i], residentId, category, paths[i], now)
      ensures documents == old(documents) + UploadedDocs(results)
    {
      results := [];
      var k := 0;
      while k < |files|
        invariant 0 <= k <= |files|
        invariant |results| == k
        invariant |documents| > 0
        invariant forall i :: 0 <= i < k ==> Answers(results[i], files[i], residentId, category, paths[i], now)
        invariant documents == old(documents) + UploadedDocs(results)
      {
        var r := UploadFile(files[k], residentId, category, paths[k], now);
        UploadedDocsSnoc(results, r);
        var before := results;
        results := results + [r];
        assert forall i :: 0 <= i < k ==> results[i] == before[i];
        k := k + 1;
      }
    }

    /** `update`: merge the patch, minus `Id`, `uploadDate` and `filePath`, into the first document with that Id. */
    method Update(id: int, patch: DocumentPatch) returns (r: Result<Document>)
      modifies this
      ensures old(IndexOf(id)) == -1 ==> r == Err(NotFound) && documents == old(documents)
      ensures old(IndexOf(id)) >= 0 ==>
        var i := old(IndexOf(id));
        r == Ok(MergeDocument(old(documents[i]), patch)) &&
        documents == old(documents)[i := r.value]
      ensures forall j :: 0 <= j < |documents| ==>
        documents[j].Id == old(documents[j].Id) &&
        documents[j].uploadDate == old(documents[j].uploadDate) &&
        documents[j].filePath == old(documents[j].filePath)
    {
      var i := IndexOf(id);
      if i == -1 {
        return Err(NotFound);
      }
      documents := documents[i := MergeDocument(documents[i], patch)];
      r := Ok(documents[i]);
    }

    /** `delete`: splice out the first document with that Id and return it. */
    method Delete(id: int) returns (r: Result<Document>)
      modifies this
      ensures old(IndexOf(id)) == -1 ==> r == Err(NotFound) && documents == old(documents)
      ensures old(IndexOf(id)) >= 0 ==>
        var i := old(IndexOf(id));
        r == Ok(old(documents[i])) && r.value.Id == id &&
        documents == Seqs.RemoveAt(old(documents), i) && |documents| == |old(documents)| - 1
    {
      var i := IndexOf(id);
      if i == -1 {
        return Err(NotFound);
      }
      r := Ok(documents[i]);
      documents := Seqs.RemoveAt(documents, i);
    }

    /** `downloadDocument`: the stored path, original name and type of the first document with that Id. */
    function DownloadDocument(id: int): (r: Result<Download>)
      reads this
      ensures r.Err? <==> IndexOf(id) == -1
      ensures r.Err? ==> r.message == NotFound
      ensures r.Ok? ==> (exists j :: 0 <= j < |documents| && documents[j].Id == id &&
                          r.value == Download(documents[j].filePath, documents[j].originalName, documents[j].fileType))
    {
      var i := IndexOf(id);
      if i == -1 then Err(NotFound)
      else Ok(Download(documents[i].filePath, documents[i].originalName, documents[i].fileType))
    }

    /** `getDocumentsByCategory`: the documents of one category, in store order. */
    function GetDocumentsByCategory(category: string): (r: seq<Document>)
      reads this
      ensures forall d :: d in r <==> d in documents && d.category == category
      ensures Seqs.IsSubsequence(r, documents)
      ensures forall d {:trigger multiset(r)[d]} :: multiset(r)[d] == if d.category == category then multiset(documents)[d] else 0
    {
      Seqs.Filter(documents, (d: Document) => d.category == category)
    }

    /**
     * `searchDocuments`: the documents whose file name, original name or
     * category contains the query, ignoring case, in store order. The empty
     * query matches every document.
     */
    function SearchDocuments(query: string): (r: seq<Document>)
      reads this
      ensures forall d :: d in r <==> d in documents && Matches(query)(d)
      ensures Seqs.IsSubsequence(r, documents)
      ensures forall d {:trigger multiset(r)[d]} :: multiset(r)[d] == if Matches(query)(d) then multiset(documents)[d] else 0
      ensures query == [] ==> r == documents
    {
      EmptyQueryMatchesAll(documents);
      Seqs.Filter(documents, Matches(query))
    }

    /**
     * `getDocumentStats`: one pass over the store counting documents per
     * category and per resident and adding up the sizes (a missing size
     * counts as 0). The per-category and the per-resident counts each add
     * up to the total.
     */
    method GetDocumentStats() returns (st: DocumentStats)
      ensures st.total == |documents|
      ensures st.byCategory == Seqs.Tally(documents, CategoryOf)
      ensures st.byResident == Seqs.Tally(documents, ResidentOf)
      ensures forall c :: c in st.byCategory ==> st.byCategory[c] == Seqs.CountOf(documents, CategoryOf, c)
      ensures forall c :: c in st.byResident ==> st.byResident[c] == Seqs.CountOf(documents, ResidentOf, c)
      ensures Seqs.SumAt(st.byCategory, Seqs.Keys(documents, CategoryOf)) == st.total
      ensures Seqs.SumAt(st.byResident, Seqs.Keys(documents, ResidentOf)) == st.total
      ensures st.totalSize == Seqs.Sum(documents, SizeOf)
    {
      var byCategory: map<string, nat> := map[];
      var byResident: map<int, nat> := map[];
      var totalSize := 0;
      var k := 0;
      while k < |documents|
        invariant 0 <= k <= |documents|
        invariant byCategory == Seqs.Tally(documents[..k], CategoryOf)
        invariant byResident == Seqs.Tally(documents[..k], ResidentOf)
        invariant totalSize == Seqs.Sum(documents[..k], SizeOf)
      {
        var d := documents[k];
        StatsStep(documents, k);
        byCategory := byCategory[d.category := (if d.category in byCategory then byCategory[d.category] else 0) + 1];
        byResident := byResident[d.residentId := (if d.residentId in byResident then byResident[d.residentId] else 0) + 1];
        totalSize := totalSize + SizeOf(d);
        k := k + 1;
      }
      assert documents[..k] == documents;
      st := DocumentStats(|documents|, byCategory, byResident, totalSize);
      TallyFacts(documents);
    }
  }
}
