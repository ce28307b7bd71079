/** The state logic of the merge page (frontend/src/pages/MergePdfUpload.tsx):
    the staged file list with its all-or-nothing batch admission, removal by
    index, drag reordering, the submit-enabled test and the upload handler.
    The dropzone library's own size and type screening is an input: it hands
    the page the accepted files and the rejected ones with their error codes.
    Rendering and the PDF previews are not modelled. */
module MergePage {
  import opened Base
  import opened Text
  import opened Axios
  import opened ClientErrors
  import opened UploadApi
  import FileValidation

  const MAX_FILE_SIZE: nat := 10 * 1024 * 1024
  const MAX_FILES: nat := 10
  const TOO_MANY_FILES_MESSAGE := "Maximum 10 files allowed"
  const UPLOAD_FAILED_MESSAGE := "Upload failed. Please try again."
  const FILE_TOO_LARGE_CODE := "file-too-large"
  const FILE_INVALID_TYPE_CODE := "file-invalid-type"
  const TOO_LARGE_SUFFIX := " is too large. Maximum size is 10MB"
  const NOT_PDF_SUFFIX := " is not a PDF file"
  const NOT_UPLOADED_SUFFIX := " could not be uploaded"
  const FORM_FIELD := "files[]"
  const PROCESSING_ROUTE := "/processing/"
  /** The `max_files` the merge route passes to the upload validator. */
  const MERGE_ROUTE_MAX_FILES := 10

  /** A browser `File`: its name and size in bytes. */
  datatype PdfFile = PdfFile(name: string, size: nat)

  /** A file the dropzone refused, with its error codes in order. */
  datatype FileRejection = FileRejection(file: PdfFile, errors: seq<string>)

  /** One `formData.append(key, file)`. */
  datatype FormEntry = FormEntry(key: string, file: PdfFile)

  /** The body of an accepted merge request (`response.job_id`). */
  datatype MergeAccepted = MergeAccepted(jobId: Option<string>)

  /** `file.errors?.[0]?.code` */
  function FirstCode(r: FileRejection): Option<string>
  {
    if |r.errors| > 0 then Some(r.errors[0]) else None
  }

  /** The line shown for one rejected file: its name, then a text chosen by
      its first error code alone. */
  function RejectionMessage(r: FileRejection): (m: string)
    ensures |m| > |r.file.name| && m[..|r.file.name|] == r.file.name
    ensures m[|r.file.name|..] == TOO_LARGE_SUFFIX <==> FirstCode(r) == Some(FILE_TOO_LARGE_CODE)
    ensures m[|r.file.name|..] == NOT_PDF_SUFFIX <==> FirstCode(r) == Some(FILE_INVALID_TYPE_CODE)
    ensures m[|r.file.name|..] == NOT_UPLOADED_SUFFIX <==>
              FirstCode(r) != Some(FILE_TOO_LARGE_CODE) && FirstCode(r) != Some(FILE_INVALID_TYPE_CODE)
  {
    var suffix :=
      if FirstCode(r) == Some(FILE_TOO_LARGE_CODE) then TOO_LARGE_SUFFIX
      else if FirstCode(r) == Some(FILE_INVALID_TYPE_CODE) then NOT_PDF_SUFFIX
      else NOT_UPLOADED_SUFFIX;
    var m := r.file.name + suffix;
    assert m[|r.file.name|..] == suffix;
    m
  }

  /** `rejectedFiles.map(...)`: one line per rejected file, in order. */
  function RejectionMessages(rs: seq<FileRejection>): (ms: seq<string>)
    ensures |ms| == |rs|
    ensures forall i :: 0 <= i < |rs| ==> ms[i] == RejectionMessage(rs[i])
  {
    seq(|rs|, i requires 0 <= i < |rs| => RejectionMessage(rs[i]))
  }

  /** The error shown after a drop with rejected files. */
  function DropError(rs: seq<FileRejection>): (e: string)
    ensures rs == [] <==> e == ""
    // the error opens with the first rejected file's message
    ensures rs != [] ==> var m := RejectionMessage(rs[0]); |e| >= |m| && e[..|m|] == m
  {
    Join(RejectionMessages(rs), '\n')
  }

  /** The message depends on nothing but the name and the first error code. */
  lemma MessageDependsOnFirstCode(r1: FileRejection, r2: FileRejection)
    requires r1.file.name == r2.file.name && FirstCode(r1) == FirstCode(r2)
    ensures RejectionMessage(r1) == RejectionMessage(r2)
  {
  }

  /** The drop error holds one line per rejected file, in order: splitting it
      at newlines gives back exactly the per-file messages. */
  lemma DropErrorLines(rs: seq<FileRejection>)
    requires |rs| > 0
    requires forall i :: 0 <= i < |rs| ==> '\n' !in rs[i].file.name
    ensures Split(DropError(rs), '\n') == RejectionMessages(rs)
  {
    var ms := RejectionMessages(rs);
    forall i | 0 <= i < |ms| ensures '\n' !in ms[i] {
      MessageOneLine(rs[i]);
    }
    SplitJoin(ms, '\n');
  }

  /** A file name without a newline gives a one-line message. */
  lemma MessageOneLine(r: FileRejection)
    requires '\n' !in r.file.name
    ensures '\n' !in RejectionMessage(r)
  {
    var n := r.file.name;
    var m := RejectionMessage(r);
    assert m == n + m[|n|..];
    assert '\n' !in m[|n|..];
  }

  /** `prev.filter((_, i) => i !== index)`, written as the filter walks. */
  function Without<T>(s: seq<T>, index: int): (r: seq<T>)
    ensures |r| == if 0 <= index < |s| then |s| - 1 else |s|
    ensures forall x :: x in r ==> x in s
  {
    if s == [] then [] else (if index == 0 then [] else [s[0]]) + Without(s[1..], index - 1)
  }

  /** Removing an index inside the list deletes exactly that element and keeps
      the others in order; an index outside it changes nothing. */
  lemma {:induction false} WithoutSpec<T>(s: seq<T>, index: int)
    ensures 0 <= index < |s| ==> Without(s, index) == s[..index] + s[index + 1..]
    ensures !(0 <= index < |s|) ==> Without(s, index) == s
  {
    if s != [] {
      WithoutSpec(s[1..], index - 1);
      if index == 0 {
        assert s[..0] + s[1..] == s[1..];
      } else if 0 < index < |s| {
        assert s[..index] == [s[0]] + s[1..][..index - 1];
        assert s[index + 1..] == s[1..][index..];
      } else {
        assert [s[0]] + s[1..] == s;
      }
    }
  }

  /** `items.splice(start, 1)`: the list without its element at `start`. */
  function SpliceOut<T>(s: seq<T>, start: nat): seq<T>
    requires start < |s|
  {
    s[..start] + s[start + 1..]
  }

  /** `items.splice(start, 0, x)`: `x` inserted before position `start`. */
  function SpliceIn<T>(s: seq<T>, start: nat, x: T): seq<T>
    requires start <= |s|
  {
    s[..start] + [x] + s[start..]
  }

  /** The list after dragging the element at `source` to `destination`. */
  function Reorder<T>(s: seq<T>, source: nat, destination: nat): (r: seq<T>)
    requires source < |s| && destination < |s|
    ensures |r| == |s|
  {
    SpliceIn(SpliceOut(s, source), destination, s[source])
  }

  /** A reorder keeps the length and the multiset of elements, puts the moved
      element at the destination, and leaves the others in their relative
      order. */
  lemma ReorderSpec<T>(s: seq<T>, source: nat, destination: nat)
    requires source < |s| && destination < |s|
    ensures var r := Reorder(s, source, destination);
            && |r| == |s|
            && r[destination] == s[source]
            && SpliceOut(r, destination) == SpliceOut(s, source)
            && multiset(r) == multiset(s)
  {
    var a := SpliceOut(s, source);
    var r := Reorder(s, source, destination);
    assert r == a[..destination] + [s[source]] + a[destination..];
    assert r[..destination] == a[..destination];
    assert r[destination + 1..] == a[destination..];
    assert a[..destination] + a[destination..] == a;
    assert s == s[..source] + [s[source]] + s[source + 1..];
    calc {
      multiset(r);
      multiset(a[..destination]) + multiset([s[source]]) + multiset(a[destination..]);
      multiset(a) + multiset([s[source]]);
      multiset(s[..source]) + multiset(s[source + 1..]) + multiset([s[source]]);
      multiset(s);
    }
  }

  /** Dragging an element back to where it came from undoes a reorder. */
  lemma ReorderInverse<T>(s: seq<T>, source: nat, destination: nat)
    requires source < |s| && destination < |s|
    ensures Reorder(Reorder(s, source, destination), destination, source) == s
  {
    ReorderSpec(s, source, destination);
    var a := SpliceOut(s, source);
    assert a[..source] == s[..source];
    assert a[source..] == s[source + 1..];
    assert s == s[..source] + [s[source]] + s[source + 1..];
  }

  /** `error.response?.data?.error || 'Upload failed. Please try again.'` */
  function UploadErrorMessage(t: Thrown): (m: string)
    ensures t.axios.Some? && Truthy(DataError(t.axios.value)) ==> m == DataError(t.axios.value).value
    ensures t.axios.None? || !Truthy(DataError(t.axios.value)) ==> m == UPLOAD_FAILED_MESSAGE
  {
    if t.axios.Some? then OrElse(DataError(t.axios.value), UPLOAD_FAILED_MESSAGE) else UPLOAD_FAILED_MESSAGE
  }

  /** The page shows the server's `error` field for a failed upload that
      keeps its response and is not a 413; a 413, a timeout and a network
      failure all reach the page as plain errors and show the generic text. */
  lemma UploadFailureMessages(e: AxiosError)
    ensures var r := UploadFiles<MergeAccepted>(Failed(e));
            && r.Err?
            && (e.code != Some(TIMEOUT_CODE) && e.response.Some? && !HasStatus(e, PAYLOAD_TOO_LARGE) ==>
                  UploadErrorMessage(r.error) == OrElse(DataError(e), UPLOAD_FAILED_MESSAGE))
            && (e.code == Some(TIMEOUT_CODE) || e.response.None? || HasStatus(e, PAYLOAD_TOO_LARGE) ==>
                  UploadErrorMessage(r.error) == UPLOAD_FAILED_MESSAGE)
  {
    UploadFailureClassification<MergeAccepted>(e);
  }

  /** As written, a 413 on the merge POST is rethrown by `uploadFiles` as a
      plain error carrying the size message, but that error has no
      `response`, so the page shows the generic text instead. */
  lemma TooLargeTextNeverShown(e: AxiosError)
    requires e.code != Some(TIMEOUT_CODE) && HasStatus(e, PAYLOAD_TOO_LARGE)
    ensures UploadFiles<MergeAccepted>(Failed(e)).error.message == TOO_LARGE_MESSAGE
    ensures UploadErrorMessage(UploadFiles<MergeAccepted>(Failed(e)).error) == UPLOAD_FAILED_MESSAGE
  {
    UploadFailureClassification<MergeAccepted>(e);
  }

  /** The message the upload handler evidently means to show: the server's
      `error` field, else the thrown error's own message, else the generic
      text (`error.response?.data?.error || error.message || …`). */
  function IntendedUploadErrorMessage(t: Thrown): (m: string)
    ensures t.axios.Some? && Truthy(DataError(t.axios.value)) ==> m == DataError(t.axios.value).value
    ensures (t.axios.None? || !Truthy(DataError(t.axios.value))) && t.message != "" ==> m == t.message
    ensures m != ""
  {
    if t.axios.Some? && Truthy(DataError(t.axios.value)) then DataError(t.axios.value).value
    else OrElse(Some(t.message), UPLOAD_FAILED_MESSAGE)
  }

  /** With the intended message, the page shows the size message for a 413,
      and the timeout and network messages for those failures. */
  lemma IntendedUploadMessages(e: AxiosError)
    ensures var t := UploadFiles<MergeAccepted>(Failed(e)).error;
            && (e.code != Some(TIMEOUT_CODE) && HasStatus(e, PAYLOAD_TOO_LARGE) ==>
                  IntendedUploadErrorMessage(t) == TOO_LARGE_MESSAGE)
            && (e.code == Some(TIMEOUT_CODE) ==> IntendedUploadErrorMessage(t) == TIMEOUT_MESSAGE)
            && (e.code != Some(TIMEOUT_CODE) && e.response.None? ==> IntendedUploadErrorMessage(t) == NETWORK_MESSAGE)
  {
    UploadFailureClassification<MergeAccepted>(e);
  }

  /** The route `navigate` is sent to after an accepted upload. */
  function ProcessingPath(data: MergeAccepted): (path: string)
    ensures |path| >= |PROCESSING_ROUTE| && path[..|PROCESSING_ROUTE|] == PROCESSING_ROUTE
    ensures data.jobId.Some? ==> path[|PROCESSING_ROUTE|..] == data.jobId.value
    ensures data.jobId.None? ==> path[|PROCESSING_ROUTE|..] == "undefined"
  {
    var id := if data.jobId.Some? then data.jobId.value else "undefined";
    assert (PROCESSING_ROUTE + id)[|PROCESSING_ROUTE|..] == id;
    PROCESSING_ROUTE + id
  }

  /** The merge button's test: disabled while fewer than two files are staged
      or an upload is running. */
  predicate SubmitEnabled(files: seq<PdfFile>, isUploading: bool)
    ensures SubmitEnabled(files, isUploading) <==> 2 <= |files| && !isUploading
  {
    !(|files| < 2 || isUploading)
  }

  /** The staged files as the back end's validator sees them. */
  function AsUploads(files: seq<PdfFile>): (us: seq<FileValidation.Upload>)
    ensures |us| == |files|
    ensures forall i :: 0 <= i < |files| ==> us[i] == FileValidation.Upload(files[i].name, files[i].size)
  {
    seq(|files|, i requires 0 <= i < |files| => FileValidation.Upload(files[i].name, files[i].size))
  }

  /** A merge the page lets through (two to ten staged files) is never turned
      away by the merge route for its number of files: the validator's verdict
      is that of its first failing file, and none at all when every file has a
      non-empty `.pdf` name and is within the size limit. */
  lemma EnabledMergeValidation(files: seq<PdfFile>, isUploading: bool)
    requires SubmitEnabled(files, isUploading) && |files| <= MAX_FILES
    ensures FileValidation.Check(AsUploads(files), MERGE_ROUTE_MAX_FILES) == FileValidation.FirstFailure(AsUploads(files))
    ensures (forall i :: 0 <= i < |files| ==>
               files[i].name != "" && FileValidation.AllowedFile(files[i].name) && files[i].size <= MAX_FILE_SIZE)
            ==> FileValidation.Check(AsUploads(files), MERGE_ROUTE_MAX_FILES).None?
  {
    var us := AsUploads(files);
    FileValidation.CheckOrder(us, MERGE_ROUTE_MAX_FILES);
    FileValidation.FirstFailureSpec(us);
    if forall i :: 0 <= i < |files| ==>
         files[i].name != "" && FileValidation.AllowedFile(files[i].name) && files[i].size <= MAX_FILE_SIZE
    {
      forall j | 0 <= j < |us| ensures FileValidation.CheckFile(us[j]).None? {
        assert us[j] == FileValidation.Upload(files[j].name, files[j].size);
      }
    }
  }

  /** `files.forEach(file => formData.append('files[]', file))` */
  method BuildFormData(files: seq<PdfFile>) returns (form: seq<FormEntry>)
    ensures |form| == |files|
    ensures forall i :: 0 <= i < |files| ==> form[i] == FormEntry(FORM_FIELD, files[i])
  {
    form := [];
    var i := 0;
    while i < |files|
      invariant 0 <= i <= |files|
      invariant |form| == i
      invariant forall j :: 0 <= j < i ==> form[j] == FormEntry(FORM_FIELD, files[j])
    {
      form := form + [FormEntry(FORM_FIELD, files[i])];
      i := i + 1;
    }
  }

  /** The merge page's component state. */
  class MergePdfUpload {
    var files: seq<PdfFile>
    var error: Option<string>
    var isUploading: bool
    /** The route last passed to `navigate`. */
    var location: Option<string>

    constructor ()
      ensures files == [] && error == None && !isUploading && location == None
    {
      files := [];
      error := None;
      isUploading := false;
      location := None;
    }

    /** `onDrop(acceptedFiles, rejectedFiles)` */
    method OnDrop(accepted: seq<PdfFile>, rejected: seq<FileRejection>)
      modifies this
      ensures |rejected| > 0 ==> files == old(files) && error == Some(DropError(rejected))
      ensures |rejected| == 0 && |old(files)| + |accepted| > MAX_FILES ==>
                files == old(files) && error == Some(TOO_MANY_FILES_MESSAGE)
      ensures |rejected| == 0 && |old(files)| + |accepted| <= MAX_FILES ==>
                files == old(files) + accepted && error == None
      ensures |old(files)| <= MAX_FILES ==> |files| <= MAX_FILES
      ensures isUploading == old(isUploading) && location == old(location)
    {
      if |rejected| > 0 {
        var errors := RejectionMessages(rejected);
        error := Some(Join(errors, '\n'));
        return;
      }
      if |files| + |accepted| > MAX_FILES {
        error := Some(TOO_MANY_FILES_MESSAGE);
        return;
      }
      files := files + accepted;
      error := None;
    }

    /** `handleRemoveFile(index)` */
    method RemoveFile(index: int)
      modifies this
      ensures 0 <= index < |old(files)| ==> files == old(files)[..index] + old(files)[index + 1..]
      ensures !(0 <= index < |old(files)|) ==> files == old(files)
      ensures error == old(error) && isUploading == old(isUploading) && location == old(location)
    {
      WithoutSpec(files, index);
      files := Without(files, index);
    }

    /** `onDragEnd(result)`, with the source index and the optional
        destination index the drag library reports (both inside the list). */
    method OnDragEnd(source: int, destination: Option<int>)
      requires destination.Some? ==> 0 <= source < |files| && 0 <= destination.value < |files|
      modifies this
      ensures destination.None? ==> files == old(files)
      ensures destination.Some? ==> files == Reorder(old(files), source, destination.value)
      ensures |files| == |old(files)| && multiset(files) == multiset(old(files))
      ensures error == old(error) && isUploading == old(isUploading) && location == old(location)
    {
      if destination.None? {
        return;
      }
      ReorderSpec(files, source, destination.value);
      var items := files;
      var reordered := items[source];
      items := SpliceOut(items, source);
      items := SpliceIn(items, destination.value, reordered);
      files := items;
    }

    /** `handleUpload()`, given the transport's reply to the merge POST;
        returns the form data that was posted. */
    method HandleUpload(reply: Reply<MergeAccepted>) returns (form: seq<FormEntry>)
      modifies this
      ensures |form| == |files| && forall i :: 0 <= i < |files| ==> form[i] == FormEntry(FORM_FIELD, files[i])
      ensures files == old(files) && !isUploading
      ensures reply.Answered? ==>
                error == None && location == Some(ProcessingPath(reply.response.data))
      ensures reply.Failed? ==>
                error == Some(UploadErrorMessage(UploadFiles(reply).error)) && location == old(location)
    {
      isUploading := true;
      error := None;
      form := BuildFormData(files);
      var result := UploadFiles(reply);
      match result {
        case Ok(data) =>
          location := Some(ProcessingPath(data));
        case Err(thrown) =>
          error := Some(UploadErrorMessage(thrown));
      }
      isUploading := false;
    }
  }
}
