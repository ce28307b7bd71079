/** The upload validator of backend/app/middleware/file_validation.py:
    `allowed_file` and the `validate_files(max_files)` decorator, which checks
    the `files[]` field of a multipart request in a fixed order and lets the
    first failing check decide the reply; the wrapped view runs only when every
    check passes. Measuring a file's size moves its stream position, which is
    modelled by the `FileStorage` class. */
module FileValidation {
  import opened Base
  import opened Text
  import opened ServerErrors

  const MAX_FILE_SIZE: nat := 10 * 1024 * 1024
  const DEFAULT_MAX_FILES := 10
  const BAD_REQUEST := 400

  /** The reason a request is refused; each check has one. */
  datatype Rejection =
    | NoFiles
    | TooManyFiles(maxFiles: int)
    | EmptyFilename
    | InvalidFileType(filename: string)
    | FileTooLarge(filename: string)

  /** The error body of each rejection. `MAX_FILE_SIZE/1024/1024` is a true
      division in Python 3, so the size limit prints as `10.0`. */
  function RejectionBody(r: Rejection): (b: ErrorBody)
    ensures r.InvalidFileType? || r.FileTooLarge? <==> b.filename.Some?
    ensures r.InvalidFileType? || r.FileTooLarge? ==> b.filename == Some(r.filename)
  {
    match r
    case NoFiles => ErrorBody("No files provided", "NO_FILES", None)
    case TooManyFiles(m) => ErrorBody("Too many files. Maximum allowed is " + IntToString(m), "TOO_MANY_FILES", None)
    case EmptyFilename => ErrorBody("Empty filename detected", "EMPTY_FILENAME", None)
    case InvalidFileType(n) =>
      ErrorBody("Invalid file type. Only PDF files are allowed", "INVALID_FILE_TYPE", Some(n))
    case FileTooLarge(n) =>
      ErrorBody("File too large. Maximum size is 10.0MB", "FILE_TOO_LARGE", Some(n))
  }

  /** The index of the last '.' in `s`, or -1 when there is none. */
  function LastDot(s: string): (i: int)
    ensures -1 <= i < |s|
    ensures i == -1 <==> '.' !in s
    ensures i >= 0 ==> s[i] == '.'
    ensures forall j :: i < j < |s| ==> s[j] != '.'
  {
    if |s| == 0 then -1
    else if s[|s| - 1] == '.' then |s| - 1
    else
      var i := LastDot(s[..|s| - 1]);
      assert forall j :: 0 <= j < |s| - 1 ==> s[..|s| - 1][j] == s[j];
      i
  }

  /** `allowed_file(filename)`: there is a '.', and the text after the last
      one (`rsplit('.', 1)[1]`), lower-cased, is `pdf`. */
  predicate AllowedFile(filename: string)
  {
    '.' in filename && Lower(filename[LastDot(filename) + 1..]) == "pdf"
  }

  /** The name ends in `.pdf`, in any letter case. */
  predicate EndsWithPdf(filename: string)
  {
    |filename| >= 4 && filename[|filename| - 4] == '.' && Lower(filename[|filename| - 3..]) == "pdf"
  }

  /** `allowed_file` holds exactly of the names that end in `.pdf`, in any
      letter case. */
  lemma AllowedFileSuffix(filename: string)
    ensures AllowedFile(filename) <==> EndsWithPdf(filename)
  {
    var n := |filename|;
    if EndsWithPdf(filename) {
      PdfExtensionHasNoDot(filename[n - 3..]);
      LastDotIsLast(filename, n - 4);
    }
    if AllowedFile(filename) {
      assert |Lower(filename[LastDot(filename) + 1..])| == 3;
    }
  }

  /** Text that lower-cases to `pdf` holds no '.'. */
  lemma PdfExtensionHasNoDot(ext: string)
    requires Lower(ext) == "pdf"
    ensures '.' !in ext
  {
    forall j | 0 <= j < |ext| ensures ext[j] != '.' {
      assert Lower(ext)[j] == LowerChar(ext[j]);
    }
  }

  /** `allowed_file` holds iff some '.' is followed by no other '.' and by text
      that lower-cases to `pdf`. */
  lemma AllowedFileIff(filename: string)
    ensures AllowedFile(filename) <==>
              exists i :: 0 <= i < |filename| && filename[i] == '.' && '.' !in filename[i + 1..]
                          && Lower(filename[i + 1..]) == "pdf"
  {
    var k := LastDot(filename);
    if AllowedFile(filename) {
      assert filename[k] == '.' && '.' !in filename[k + 1..];
    }
    forall i | 0 <= i < |filename| && filename[i] == '.' && '.' !in filename[i + 1..]
      ensures i == k
    {
      LastDotIsLast(filename, i);
    }
  }

  /** A '.' with no '.' after it is the last one. */
  lemma LastDotIsLast(s: string, i: int)
    requires 0 <= i < |s| && s[i] == '.' && '.' !in s[i + 1..]
    ensures LastDot(s) == i
  {
  }

  /** Upper-case extensions and a bare extension pass; a missing extension, a
      double extension ending elsewhere and an empty extension fail. */
  lemma AllowedFileExamples()
    ensures AllowedFile("a.PDF")
    ensures AllowedFile(".pdf")
    ensures !AllowedFile("pdf")
    ensures !AllowedFile("a.pdf.exe")
    ensures !AllowedFile("a.")
  {
    assert LastDot("a.PDF") == 1;
    assert "a.PDF"[2..] == "PDF";
    assert LastDot(".pdf") == 0;
    assert ".pdf"[1..] == "pdf";
    var exe := "a.pdf.exe";
    assert exe[5] == '.' && exe[6] != '.' && exe[7] != '.' && exe[8] != '.';
    assert LastDot(exe) == 5;
    assert Lower("a.pdf.exe"[6..])[0] == 'e';
  }

  /** What the validator knows of one uploaded file: its name and the length
      of its stream. */
  datatype Upload = Upload(filename: string, size: nat)

  /** The checks on one file, in their order: name, then type, then size. */
  function CheckFile(f: Upload): (r: Option<Rejection>)
    ensures r.None? <==> f.filename != "" && AllowedFile(f.filename) && f.size <= MAX_FILE_SIZE
    ensures f.filename == "" ==> r == Some(EmptyFilename)
    ensures f.filename != "" && !AllowedFile(f.filename) ==> r == Some(InvalidFileType(f.filename))
    ensures f.filename != "" && AllowedFile(f.filename) && f.size > MAX_FILE_SIZE ==>
              r == Some(FileTooLarge(f.filename))
  {
    if f.filename == "" then Some(EmptyFilename)
    else if !AllowedFile(f.filename) then Some(InvalidFileType(f.filename))
    else if f.size > MAX_FILE_SIZE then Some(FileTooLarge(f.filename))
    else None
  }

  /** The verdict on the first file that fails, in list order. */
  function FirstFailure(fs: seq<Upload>): (r: Option<Rejection>)
    ensures r.None? <==> forall j :: 0 <= j < |fs| ==> CheckFile(fs[j]).None?
  {
    if fs == [] then None
    else if CheckFile(fs[0]).Some? then CheckFile(fs[0])
    else
      var rest := FirstFailure(fs[1..]);
      assert forall j :: 1 <= j < |fs| ==> fs[j] == fs[1..][j - 1];
      rest
  }

  /** The number of files, from the front, that pass every check. */
  function LeadingPasses(fs: seq<Upload>): nat
  {
    if fs == [] || CheckFile(fs[0]).Some? then 0 else 1 + LeadingPasses(fs[1..])
  }

  /** The whole check sequence of `validate_files`: presence of `files[]`
      (an empty list: werkzeug lists a present field with at least one file),
      then the count, then each file in order. */
  function Check(fs: seq<Upload>, maxFiles: int): (r: Option<Rejection>)
    ensures r.None? <==> 0 < |fs| <= maxFiles && forall j :: 0 <= j < |fs| ==> CheckFile(fs[j]).None?
  {
    if |fs| == 0 then Some(NoFiles)
    else if |fs| > maxFiles then Some(TooManyFiles(maxFiles))
    else FirstFailure(fs)
  }

  /** The reply of the decorated view. */
  function ValidationReply<R>(verdict: Option<Rejection>, view: R): (r: Reply<R>)
    ensures verdict.None? <==> r == Passed(view)
    ensures verdict.Some? ==> r == JsonError(RejectionBody(verdict.value), BAD_REQUEST)
  {
    if verdict.None? then Passed(view) else JsonError(RejectionBody(verdict.value), BAD_REQUEST)
  }

  /** First failure wins: when the first `k` files pass and file `k` fails (or
      there is none), exactly `k` files lead and the verdict is file `k`'s. */
  lemma {:induction false} FirstFailureAt(fs: seq<Upload>, k: nat)
    requires k <= |fs|
    requires forall j :: 0 <= j < k ==> CheckFile(fs[j]).None?
    requires k < |fs| ==> CheckFile(fs[k]).Some?
    ensures LeadingPasses(fs) == k
    ensures FirstFailure(fs) == if k == |fs| then None else CheckFile(fs[k])
  {
    if k > 0 {
      assert CheckFile(fs[0]).None?;
      assert forall j :: 0 <= j < k - 1 ==> fs[1..][j] == fs[j + 1];
      FirstFailureAt(fs[1..], k - 1);
    }
  }

  /** The verdict passes iff every file passes; a failing verdict is the first
      failing file's, after files that all pass. */
  lemma {:induction false} FirstFailureSpec(fs: seq<Upload>)
    ensures LeadingPasses(fs) <= |fs|
    ensures forall j :: 0 <= j < LeadingPasses(fs) ==> CheckFile(fs[j]).None?
    ensures FirstFailure(fs).None? <==> forall j :: 0 <= j < |fs| ==> CheckFile(fs[j]).None?
    ensures FirstFailure(fs).Some? ==>
              LeadingPasses(fs) < |fs| && FirstFailure(fs) == CheckFile(fs[LeadingPasses(fs)])
  {
    if fs != [] && CheckFile(fs[0]).None? {
      FirstFailureSpec(fs[1..]);
      assert forall j :: 1 <= j < |fs| ==> fs[j] == fs[1..][j - 1];
    }
  }

  /** The request-level checks come before any per-file check: no files gives
      `NO_FILES`, more than `maxFiles` gives `TOO_MANY_FILES` whatever the files
      are, and exactly `maxFiles` files go on to the per-file checks. */
  lemma CheckOrder(fs: seq<Upload>, maxFiles: int)
    ensures |fs| == 0 ==> Check(fs, maxFiles) == Some(NoFiles)
    ensures |fs| > 0 && |fs| > maxFiles ==> Check(fs, maxFiles) == Some(TooManyFiles(maxFiles))
    ensures |fs| > 0 && |fs| <= maxFiles ==> Check(fs, maxFiles) == FirstFailure(fs)
  {
  }

  /** The size limit is inclusive. */
  lemma SizeBoundary(filename: string)
    requires filename != "" && AllowedFile(filename)
    ensures CheckFile(Upload(filename, MAX_FILE_SIZE)).None?
    ensures CheckFile(Upload(filename, MAX_FILE_SIZE + 1)) == Some(FileTooLarge(filename))
  {
  }

  /** The number of files whose size the validator measures: those that pass,
      and a failing file whose name and type passed. */
  function Measured(fs: seq<Upload>, maxFiles: int): nat
  {
    if |fs| == 0 || |fs| > maxFiles then 0
    else
      var k := LeadingPasses(fs);
      if k < |fs| && fs[k].filename != "" && AllowedFile(fs[k].filename) then k + 1 else k
  }

  /** When the first `i` files pass and file `i` fails, file `i`'s verdict is
      the request's, and the files measured are the first `i`, plus file `i`
      itself when its name and type passed. */
  lemma VerdictAt(fs: seq<Upload>, maxFiles: int, i: nat)
    requires 0 < |fs| <= maxFiles && i < |fs|
    requires forall j :: 0 <= j < i ==> CheckFile(fs[j]).None?
    requires CheckFile(fs[i]).Some?
    ensures Check(fs, maxFiles) == CheckFile(fs[i])
    ensures Measured(fs, maxFiles) == if fs[i].filename != "" && AllowedFile(fs[i].filename) then i + 1 else i
  {
    FirstFailureAt(fs, i);
  }

  /** When every file passes, the request passes and every file is measured. */
  lemma AllPass(fs: seq<Upload>, maxFiles: int)
    requires 0 < |fs| <= maxFiles
    requires forall j :: 0 <= j < |fs| ==> CheckFile(fs[j]).None?
    ensures Check(fs, maxFiles).None? && Measured(fs, maxFiles) == |fs|
  {
    FirstFailureAt(fs, |fs|);
  }

  /** A werkzeug `FileStorage`: a name, a stream of fixed length and the
      stream's current position. */
  class FileStorage {
    const filename: string
    const length: nat
    var position: nat

    constructor (filename: string, length: nat, position: nat)
      ensures this.filename == filename && this.length == length && this.position == position
    {
      this.filename := filename;
      this.length := length;
      this.position := position;
    }

    /** `seek(0, os.SEEK_END)` */
    method SeekEnd()
      modifies this
      ensures position == length
    {
      position := length;
    }

    /** `seek(0)` */
    method Rewind()
      modifies this
      ensures position == 0
    {
      position := 0;
    }

    /** `tell()` */
    method Tell() returns (p: nat)
      ensures p == position
    {
      p := position;
    }
  }

  /** The validator's view of the request's files. */
  function Describe(files: seq<FileStorage>): (d: seq<Upload>)
    ensures |d| == |files|
    ensures forall i :: 0 <= i < |files| ==> d[i] == Upload(files[i].filename, files[i].length)
  {
    seq(|files|, i requires 0 <= i < |files| => Upload(files[i].filename, files[i].length))
  }

  /** The size measurement: seek to the end, read the position, and seek
      back to the start. */
  method MeasureSize(file: FileStorage) returns (size: nat)
    modifies file
    ensures size == file.length && file.position == 0
  {
    file.SeekEnd();
    size := file.Tell();
    file.Rewind();
  }

  /** The checks on one file, in their order; the size is measured only once
      the name and the type have passed. */
  method CheckOne(file: FileStorage) returns (verdict: Option<Rejection>)
    modifies file
    ensures verdict == CheckFile(Upload(file.filename, file.length))
    ensures file.filename != "" && AllowedFile(file.filename) ==> file.position == 0
    ensures file.filename == "" || !AllowedFile(file.filename) ==> file.position == old(file.position)
  {
    if file.filename == "" {
      return Some(EmptyFilename);
    }
    if !AllowedFile(file.filename) {
      return Some(InvalidFileType(file.filename));
    }
    var size := MeasureSize(file);
    if size > MAX_FILE_SIZE {
      return Some(FileTooLarge(file.filename));
    }
    return None;
  }

  /** The decorated view: runs the checks over `files` (the `files[]` list)
      and returns the first rejection, or calls the wrapped view, whose result
      is `view`. Every measured file is left at position 0; no other file
      is touched. */
  method ValidateFiles<R>(files: seq<FileStorage>, maxFiles: int, view: R) returns (reply: Reply<R>, called: bool)
    modifies set f | f in files
    ensures reply == ValidationReply(Check(Describe(files), maxFiles), view)
    ensures called <==> Check(Describe(files), maxFiles).None?
    ensures var m := Measured(Describe(files), maxFiles);
            && m <= |files|
            && (forall j :: 0 <= j < m ==> files[j].position == 0)
            && (forall j :: m <= j < |files| && files[j] !in files[..m] ==>
                  files[j].position == old(files[j].position))
  {
    // The proof goes through `CheckOne`, `VerdictAt` and `AllPass`; the
    // definition of the type check is not needed here.
    hide AllowedFile;
    ghost var d := Describe(files);
    if |files| == 0 {
      reply, called := ValidationReply(Some(NoFiles), view), false;
      return;
    }
    if |files| > maxFiles {
      reply, called := ValidationReply(Some(TooManyFiles(maxFiles)), view), false;
      return;
    }
    var i := 0;
    while i < |files|
      invariant 0 <= i <= |files|
      invariant forall j :: 0 <= j < i ==> CheckFile(d[j]).None?
      invariant forall j :: 0 <= j < i ==> files[j].position == 0
      invariant forall j :: i <= j < |files| && files[j] !in files[..i] ==>
                  files[j].position == old(files[j].position)
    {
      var file := files[i];
      var verdict := CheckOne(file);
      assert files[..i + 1] == files[..i] + [file];
      if verdict.Some? {
        VerdictAt(d, maxFiles, i);
        reply, called := ValidationReply(verdict, view), false;
        return;
      }
      i := i + 1;
    }
    AllPass(d, maxFiles);
    reply, called := ValidationReply(None, view), true;
  }
}
