/**
 * The upload gate of the file upload component: the MIME-type allow-list and size
 * ceiling, the csv/xlsx classification, and the list of uploaded-file records that
 * a batch of files is appended to, that single entries are removed from and that
 * is split into successful and failed uploads.
 */
module FileUpload {
  import opened Wrappers

  /** The browser `File` as far as the component looks at it. */
  datatype FileInfo = FileInfo(name: string, mimeType: string, size: nat)

  datatype FileKind = Csv | Xlsx

  datatype Status = Pending | Success | Error

  /** `{ isValid, error? }` returned by `validateFile`. */
  datatype Validation = Validation(isValid: bool, error: Option<string>)

  /** One entry of `uploadedFiles`. */
  datatype UploadedFile = UploadedFile(
    id: string,
    file: FileInfo,
    name: string,
    size: nat,
    kind: FileKind,
    status: Status,
    errorMessage: Option<string>)

  const CsvType := "text/csv"
  const XlsxType := "application/vnd.openxmlformats-officedocument.spreadsheetml.sheet"
  const XlsType := "application/vnd.ms-excel"

  /** `allowedTypes`, in source order. */
  const AllowedTypes: seq<string> := [CsvType, XlsxType, XlsType]

  /** 10 MiB, the largest accepted size in bytes. */
  const MaxFileSize: nat := 10 * 1024 * 1024

  const UnsupportedTypeMessage := "CSVまたはXLSXファイルのみアップロード可能です"
  const TooLargeMessage := "ファイルサイズは10MB以下にしてください"

  /** `validateFile`: the type check first, then the size check. */
  function ValidateFile(f: FileInfo): (v: Validation)
    ensures v.isValid <==> f.mimeType in AllowedTypes && f.size <= MaxFileSize
    ensures v.isValid <==> v.error == None
    ensures f.mimeType !in AllowedTypes ==> v.error == Some(UnsupportedTypeMessage)
    ensures f.mimeType in AllowedTypes && f.size > MaxFileSize ==> v.error == Some(TooLargeMessage)
  {
    if f.mimeType !in AllowedTypes then
      Validation(false, Some(UnsupportedTypeMessage))
    else if f.size > MaxFileSize then
      Validation(false, Some(TooLargeMessage))
    else
      Validation(true, None)
  }

  /** `getFileType`: only `text/csv` is a csv file; every other type, even a rejected one, is xlsx. */
  function GetFileType(f: FileInfo): (k: FileKind)
    ensures k == Csv <==> f.mimeType == CsvType
  {
    if f.mimeType == CsvType then Csv else Xlsx
  }

  /** The record `processFiles` pushes for file `f` under the generated id `id`. */
  function NewRecord(f: FileInfo, id: string): (u: UploadedFile)
    ensures u.id == id && u.file == f && u.name == f.name && u.size == f.size
    ensures u.kind == GetFileType(f)
    ensures u.status != Pending
    ensures u.status == Success <==> f.mimeType in AllowedTypes && f.size <= MaxFileSize
    ensures u.errorMessage == ValidateFile(f).error
  {
    var v := ValidateFile(f);
    UploadedFile(id, f, f.name, f.size, GetFileType(f), if v.isValid then Success else Error, v.error)
  }

  /** The records of a whole batch: one per file, in the order the files came, none pending. */
  function Records(files: seq<FileInfo>, ids: seq<string>): (rs: seq<UploadedFile>)
    requires |ids| == |files|
    ensures |rs| == |files|
    ensures NoPending(rs)
  {
    seq(|files|, k requires 0 <= k < |files| => NewRecord(files[k], ids[k]))
  }

  /** `Array.prototype.filter` on the file list: the entries satisfying `p`, in their original order. */
  function Filter(s: seq<UploadedFile>, p: UploadedFile -> bool): (r: seq<UploadedFile>)
    ensures |r| <= |s|
    ensures forall x :: x in r <==> x in s && p(x)
  {
    if s == [] then []
    else (if p(s[0]) then [s[0]] else []) + Filter(s[1..], p)
  }

  predicate IsSuccess(u: UploadedFile) { u.status == Success }
  predicate IsError(u: UploadedFile) { u.status == Error }
  predicate IsPending(u: UploadedFile) { u.status == Pending }

  /** No record is left in the `pending` state. */
  predicate NoPending(files: seq<UploadedFile>)
  {
    forall u :: u in files ==> u.status != Pending
  }

  /** The entries `removeFile(id)` keeps. */
  function Without(files: seq<UploadedFile>, id: string): (r: seq<UploadedFile>)
    ensures forall u :: u in r <==> u in files && u.id != id
  {
    Filter(files, (u: UploadedFile) => u.id != id)
  }

  /** The file upload component's state: the list of uploaded files. */
  class FileUploadComponent {
    var uploadedFiles: seq<UploadedFile>

    /** Every record was produced by validation, so none is pending. */
    ghost predicate Valid()
      reads this
    {
      NoPending(uploadedFiles)
    }

    constructor ()
      ensures Valid() && uploadedFiles == []
    {
      uploadedFiles := [];
    }

    /** `processFiles`: the batch's records are appended after the existing ones. */
    method ProcessFiles(files: seq<FileInfo>, ids: seq<string>)
      requires Valid()
      requires |ids| == |files|
      modifies this
      ensures Valid()
      ensures uploadedFiles == old(uploadedFiles) + Records(files, ids)
    {
      var newFiles := BuildNewFiles(files, ids);
      uploadedFiles := uploadedFiles + newFiles;
    }

    /** `removeFile`: every entry with id `id` goes, the rest keep their order. */
    method RemoveFile(id: string)
      requires Valid()
      modifies this
      ensures Valid()
      ensures uploadedFiles == Without(old(uploadedFiles), id)
    {
      uploadedFiles := Without(uploadedFiles, id);
    }

    /** `clearAllFiles`. */
    method ClearAllFiles()
      modifies this
      ensures Valid() && uploadedFiles == []
    {
      uploadedFiles := [];
    }

    /** `successFiles`. */
    function SuccessFiles(): (r: seq<UploadedFile>)
      reads this
      ensures forall u :: u in r <==> u in uploadedFiles && u.status == Success
    {
      Filter(uploadedFiles, IsSuccess)
    }

    /** `errorFiles`; with no pending record, it holds every entry `successFiles` lacks. */
    function ErrorFiles(): (r: seq<UploadedFile>)
      reads this
      ensures forall u :: u in r <==> u in uploadedFiles && u.status == Error
      ensures NoPending(uploadedFiles) ==> |SuccessFiles()| + |r| == |uploadedFiles|
    {
      PartitionCounts(uploadedFiles);
      Filter(uploadedFiles, IsError)
    }
  }

  /** The `forEach`/`push` loop of `processFiles` that builds `newFiles`. */
  method BuildNewFiles(files: seq<FileInfo>, ids: seq<string>) returns (newFiles: seq<UploadedFile>)
    requires |ids| == |files|
    ensures newFiles == Records(files, ids)
  {
    newFiles := [];
    var i := 0;
    while i < |files|
      invariant 0 <= i <= |files|
      invariant |newFiles| == i
      invariant forall k :: 0 <= k < i ==> newFiles[k] == NewRecord(files[k], ids[k])
    {
      newFiles := newFiles + [NewRecord(files[i], ids[i])];
      i := i + 1;
    }
  }

  // ---------------------------------------------------------------------------
  // Properties of the specification functions

  /** The type check runs first: a disallowed type gets the type error whatever its size. */
  lemma TypeErrorPrecedesSizeError(f: FileInfo)
    requires f.mimeType !in AllowedTypes && f.size > MaxFileSize
    ensures ValidateFile(f) == Validation(false, Some(UnsupportedTypeMessage))
  {
  }

  /** The size ceiling is inclusive: 10485760 bytes pass, 10485761 bytes get the size error. */
  lemma SizeBoundInclusive(name: string, mimeType: string)
    requires mimeType in AllowedTypes
    ensures ValidateFile(FileInfo(name, mimeType, 10485760)) == Validation(true, None)
    ensures ValidateFile(FileInfo(name, mimeType, 10485761)) == Validation(false, Some(TooLargeMessage))
  {
  }

  /** A file rejected for its type is still classified, as xlsx. */
  lemma RejectedTypesAreXlsx(f: FileInfo)
    requires f.mimeType !in AllowedTypes
    ensures GetFileType(f) == Xlsx
  {
  }

  /** One record per file, in order, none pending, and each record built from its own file. */
  lemma RecordsOnePerFile(files: seq<FileInfo>, ids: seq<string>)
    requires |ids| == |files|
    ensures |Records(files, ids)| == |files|
    ensures NoPending(Records(files, ids))
    ensures forall k :: 0 <= k < |files| ==>
      Records(files, ids)[k].name == files[k].name &&
      Records(files, ids)[k].size == files[k].size &&
      Records(files, ids)[k].id == ids[k] &&
      (Records(files, ids)[k].status == Success <==> ValidateFile(files[k]).isValid) &&
      Records(files, ids)[k].errorMessage == ValidateFile(files[k]).error
  {
  }

  /** Two batches processed one after the other give the records of the joined batch. */
  lemma RecordsAppend(f1: seq<FileInfo>, i1: seq<string>, f2: seq<FileInfo>, i2: seq<string>)
    requires |i1| == |f1| && |i2| == |f2|
    ensures Records(f1 + f2, i1 + i2) == Records(f1, i1) + Records(f2, i2)
  {
    var l, r := Records(f1 + f2, i1 + i2), Records(f1, i1) + Records(f2, i2);
    forall k | 0 <= k < |l| ensures l[k] == r[k] {
      if k >= |f1| {
        assert (f1 + f2)[k] == f2[k - |f1|] && (i1 + i2)[k] == i2[k - |f1|];
      }
    }
  }

  /** A rejected file does not keep the accepted files of the same batch from being accepted. */
  lemma MixedBatch(good: FileInfo, big: FileInfo, doc: FileInfo, ids: seq<string>)
    requires |ids| == 3
    requires good.mimeType == CsvType && good.size == 1024
    requires big.mimeType == CsvType && big.size == 12 * 1024 * 1024
    requires doc.mimeType == "application/vnd.openxmlformats-officedocument.wordprocessingml.document"
    ensures Records([good, big, doc], ids)[0].status == Success
    ensures Records([good, big, doc], ids)[1].errorMessage == Some(TooLargeMessage)
    ensures Records([good, big, doc], ids)[2].errorMessage == Some(UnsupportedTypeMessage)
  {
  }

  /** Filtering distributes over concatenation, so it keeps the original relative order. */
  lemma {:induction false} FilterAppend(a: seq<UploadedFile>, b: seq<UploadedFile>, p: UploadedFile -> bool)
    ensures Filter(a + b, p) == Filter(a, p) + Filter(b, p)
  {
    if a == [] {
      assert a + b == b;
    } else {
      assert (a + b)[0] == a[0] && (a + b)[1..] == a[1..] + b;
      FilterAppend(a[1..], b, p);
    }
  }

  /** Filtering a list none of whose elements is dropped leaves it unchanged. */
  lemma {:induction false} FilterKeepsAll(s: seq<UploadedFile>, p: UploadedFile -> bool)
    requires forall x :: x in s ==> p(x)
    ensures Filter(s, p) == s
  {
    if s != [] {
      FilterKeepsAll(s[1..], p);
    }
  }

  /** `removeFile` of an id that no entry has leaves the list as it was. */
  lemma RemoveAbsentIdIsIdentity(files: seq<UploadedFile>, id: string)
    requires forall u :: u in files ==> u.id != id
    ensures Without(files, id) == files
  {
    FilterKeepsAll(files, (u: UploadedFile) => u.id != id);
  }

  /** Removal works entry by entry: it commutes with appending and removes exactly the matching singletons. */
  lemma RemoveKeepsOrder(a: seq<UploadedFile>, b: seq<UploadedFile>, id: string)
    ensures Without(a + b, id) == Without(a, id) + Without(b, id)
    ensures forall u :: Without([u], id) == if u.id == id then [] else [u]
  {
    FilterAppend(a, b, (u: UploadedFile) => u.id != id);
  }

  /** Every entry is counted exactly once among the success, error and pending filters. */
  lemma {:induction false} PartitionCounts(files: seq<UploadedFile>)
    ensures |Filter(files, IsSuccess)| + |Filter(files, IsError)| + |Filter(files, IsPending)| == |files|
    ensures NoPending(files) ==> Filter(files, IsPending) == []
  {
    if files != [] {
      PartitionCounts(files[1..]);
    }
  }
}
