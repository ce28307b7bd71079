# fileops core in Dafny

This project models the stateful logic of the fileops PDF tool and proves properties about it. It covers four parts:

- **The merge page's staging list** (`MergePdfUpload.tsx`). It has all-or-nothing batch admission, removal by index, drag reordering, the submit-enabled test and the upload handler with its error message.
- **The back end's upload validator** (`file_validation.py`). It checks in a fixed order, the first failing file decides the reply, and measuring a file's size moves its stream position.
- **The authenticated axios client** (`base.ts`) and the auth service on top of it (`auth.service.ts`). The client attaches the bearer token, and a first 401 triggers a refresh and at most one resend of the request. Login and logout write and remove the stored tokens.
- **Error normalisation on both sides.** On the front end this is `handleApiError`, plus the timeout, network-error and 413 mapping in `api.ts`. On the back end it is the `AppError` hierarchy and the `handle_errors` decorator.

The network is modelled by oracle values: for one request, the reply to the first send, the outcome of the refresh POST, and the reply to the resend. `localStorage` is modelled as two optional tokens and `window.location.href` as an optional location. The dropzone library's size and type screening is an input to `OnDrop`: the files it accepted, and the files it rejected with their error codes.

Modules:

| module | file | models |
|---|---|---|
| `Base` | base.dfy | `Option`, `Result`, JavaScript truthiness and the `\|\|` fallback |
| `Text` | text.dfy | `join` and `split` on one character, ASCII lower-casing, integer rendering |
| `Axios` | axios.dfy | axios errors, responses, and a transport reply |
| `ClientErrors` | client_errors.dfy | `AppError` and `handleApiError` (front end) |
| `UploadApi` | upload_api.dfy | the `api.ts` interceptor and `uploadFiles` |
| `ApiGateway` | gateway.dfy | `ApiService` and its two interceptors |
| `AuthService` | auth_service.dfy | `login`, `logout`, `getCurrentUser` |
| `ServerErrors` | server_errors.dfy | `AppError`, its subclasses, and `handle_errors` (back end) |
| `FileValidation` | file_validation.dfy | `allowed_file` and `validate_files` |
| `MergePage` | merge_page.dfy | the merge page component's state logic |

Each imperative operation is a method that is proved against a pure function, and the properties are proved as lemmas about that function:

- `ApiService.Request` is proved against `Transact`.
- The auth methods are proved against `LoginEffect`, `LogoutEffect` and `CurrentUserEffect`.
- `ValidateFiles` is proved against `Check` and `ValidationReply`.
- The merge page's methods are proved against `Without`, `Reorder`, `DropError` and `UploadErrorMessage`.

Some behaviour of the source worth knowing before reading the model:

- A drop that would take the staged list past 10 files is refused as a whole, and nothing of the batch is admitted (frontend/src/pages/MergePdfUpload.tsx:60-63).
- Staged files carry no identifier; the list's order is the order in which the files are merged.
- Each request that fails with a 401 starts its own refresh; nothing makes concurrent requests share one (frontend/src/services/api/base.ts:37-41).
- Job status is polled by a react-query refetch interval (frontend/src/pages/Processing.tsx:14), which this model leaves out.

## Model

| member | source | states |
|---|---|---|
| MergePage.RejectionMessage | frontend/src/pages/MergePdfUpload.tsx:45-54 | the line for a rejected file is its name followed by "is too large…" iff the first error code is `file-too-large`, "is not a PDF file" iff it is `file-invalid-type`, and "could not be uploaded" for every other code or no code |
| MergePage.RejectionMessages | frontend/src/pages/MergePdfUpload.tsx:45-54 | one message per rejected file, in the dropzone's order |
| MergePage.DropError | frontend/src/pages/MergePdfUpload.tsx:55 | the drop error is empty exactly when nothing was rejected, and otherwise opens with the first rejected file's message; its line structure is stated by `DropErrorLines` |
| MergePage.MessageDependsOnFirstCode | frontend/src/pages/MergePdfUpload.tsx:46-53 | two rejections with the same name and the same first code get the same message, whatever their later codes |
| MergePage.DropErrorLines | frontend/src/pages/MergePdfUpload.tsx:55 | splitting the drop error at newlines gives back exactly the per-file messages in order, when no file name contains a newline |
| MergePage.MessageOneLine | frontend/src/pages/MergePdfUpload.tsx:45-53 | a file name without a newline gives a one-line message |
| MergePage.Without | frontend/src/pages/MergePdfUpload.tsx:79 | the filter drops one element for an index inside the list and none otherwise, and keeps only elements of the list; its closed form is `WithoutSpec` |
| MergePage.WithoutSpec | frontend/src/pages/MergePdfUpload.tsx:78-80 | removing an index inside the list deletes exactly that element and keeps the rest in order; an index outside the list changes nothing |
| MergePage.Reorder | frontend/src/pages/MergePdfUpload.tsx:105-107 | the two splices keep the list's length; the rest of the drag's meaning is `ReorderSpec` and `ReorderInverse` |
| MergePage.ReorderSpec | frontend/src/pages/MergePdfUpload.tsx:102-110 | a drag keeps the length and the multiset of files, puts the dragged file at the destination, and leaves the other files in their relative order |
| MergePage.ReorderInverse | frontend/src/pages/MergePdfUpload.tsx:105-107 | dragging the file back from the destination to the source restores the list |
| MergePage.UploadErrorMessage | frontend/src/pages/MergePdfUpload.tsx:95 | the upload error shown is the response's `data.error` when it is a non-empty string, and "Upload failed. Please try again." otherwise |
| MergePage.UploadFailureMessages | frontend/src/pages/MergePdfUpload.tsx:94-96 | a failed merge POST that keeps its response and is not a 413 shows the server's `error` field (or the generic text); a 413, a timeout or a network failure always shows "Upload failed. Please try again." |
| MergePage.TooLargeTextNeverShown | frontend/src/pages/MergePdfUpload.tsx:95 | a 413 on the merge POST is thrown with the size message, yet the page shows "Upload failed. Please try again." |
| MergePage.IntendedUploadErrorMessage | frontend/src/pages/MergePdfUpload.tsx:95 | the corrected message: the server's `error` field, else the thrown error's own message, else the generic text; never empty |
| MergePage.IntendedUploadMessages | frontend/src/pages/MergePdfUpload.tsx:94-96 | with the corrected message, a 413 shows the size message, a timeout the timeout message, and a network failure the network message |
| MergePage.ProcessingPath | frontend/src/pages/MergePdfUpload.tsx:93 | the route after an accepted upload is `/processing/` followed by the job id, or by `undefined` when the reply has none |
| MergePage.SubmitEnabled | frontend/src/pages/MergePdfUpload.tsx:290 | the merge button is enabled iff at least two files are staged and no upload is running |
| MergePage.EnabledMergeValidation | frontend/src/pages/MergePdfUpload.tsx:290 | a merge the page enables with at most 10 staged files is never refused by the merge route's validator (`max_files=10`) for its file count; the validator passes it when every file has a non-empty `.pdf` name and is within 10 MiB |
| MergePage.BuildFormData | frontend/src/pages/MergePdfUpload.tsx:87-90 | the form holds one `files[]` entry per staged file, in staged order |
| MergePage.MergePdfUpload.constructor | frontend/src/pages/MergePdfUpload.tsx:35-37 | the page starts with no files, no error and no upload running |
| MergePage.MergePdfUpload.OnDrop | frontend/src/pages/MergePdfUpload.tsx:42-67 | with any rejected file, the list is unchanged and the error is the joined rejection messages; otherwise a batch that would exceed 10 files leaves the list unchanged with "Maximum 10 files allowed"; otherwise the batch is appended in order and the error cleared; a list of at most 10 files stays at most 10 |
| MergePage.MergePdfUpload.RemoveFile | frontend/src/pages/MergePdfUpload.tsx:78-80 | the staged list loses exactly the element at the index, or is unchanged for an index outside it; nothing else changes |
| MergePage.MergePdfUpload.OnDragEnd | frontend/src/pages/MergePdfUpload.tsx:102-110 | no destination leaves the list unchanged; otherwise the list becomes the reorder of the source to the destination, a same-length permutation |
| MergePage.MergePdfUpload.HandleUpload | frontend/src/pages/MergePdfUpload.tsx:82-100 | posts the staged files in order; afterwards no upload is running and the list is unchanged; success clears the error and navigates to `/processing/<job_id>`; failure sets the error to the upload error message and does not navigate |
| UploadApi.Intercept | frontend/src/services/api.ts:13-26 | responses pass unchanged; `ECONNABORTED` becomes the timeout error before the response is looked at; an error without a response becomes the network error; any other error is rethrown as it is |
| UploadApi.UploadFiles | frontend/src/services/api.ts:53-70 | success yields `response.data`; a failure is an error; no error that reaches the caller still carries status 413 |
| UploadApi.IsPayloadTooLarge | frontend/src/services/api.ts:65 | the 413 test holds iff the error is an axios error whose response status is 413; such an error would normalise with status 413 |
| UploadApi.UploadFailureClassification | frontend/src/services/api.ts:64-69 | a failed merge POST becomes the timeout error, the network error, the 413 message, or the axios error unchanged, each in exactly its case |
| UploadApi.TransportFailureIsNeverTooLarge | frontend/src/services/api.ts:16-22 | timeouts and network failures are never reported as a payload that is too large |
| ClientErrors.NewAppError | frontend/src/utils/error-handling.ts:9-18 | `AppError` keeps its message and takes code `UNKNOWN_ERROR` and status 500 when they are not given |
| ClientErrors.HandleApiError | frontend/src/utils/error-handling.ts:20-43 | an axios error takes each field from the response with its own fallback (message, `API_ERROR`, 500); an `AppError` is copied; anything else is the unknown-error constant; outside the `AppError` case every field is non-empty or non-zero |
| ClientErrors.AxiosTakesPriority | frontend/src/utils/error-handling.ts:21-30 | a value that is both an axios error and an `AppError` normalises as the axios error |
| ClientErrors.AppErrorRoundTrip | frontend/src/utils/error-handling.ts:30-36 | every `AppError` normalises to its own fields, and a default one to `UNKNOWN_ERROR` and 500 |
| ClientErrors.NoResponseNormalisation | frontend/src/utils/error-handling.ts:23-27 | an axios error with no response normalises to the generic message, `API_ERROR` and 500 |
| ServerErrors.NewAppError | backend/app/utils/error_handling.py:11-16 | `AppError` keeps its message and takes code `INTERNAL_ERROR` and status 500 when they are not given |
| ServerErrors.ValidationError | backend/app/utils/error_handling.py:18-20 | a `ValidationError` is the base `AppError` built with `VALIDATION_ERROR` and 400 |
| ServerErrors.NotFoundError | backend/app/utils/error_handling.py:22-24 | a `NotFoundError` is the base `AppError` built with `NOT_FOUND` and 404 |
| ServerErrors.AuthenticationError | backend/app/utils/error_handling.py:26-28 | an `AuthenticationError` is the base `AppError` built with `AUTHENTICATION_ERROR` and 401 |
| ServerErrors.HandleErrors | backend/app/utils/error_handling.py:30-47 | a normal return passes through unchanged; any `AppError` becomes its message and code with its own status; any other exception becomes the generic body with 500 |
| ServerErrors.SubclassReplies | backend/app/utils/error_handling.py:18-28 | `ValidationError`, `NotFoundError` and `AuthenticationError` reach the client as 400, 404 and 401 with their fixed codes, and a bare `AppError` as `INTERNAL_ERROR` with 500 |
| ServerErrors.UnexpectedTextHidden | backend/app/utils/error_handling.py:41-46 | the reply to an unexpected exception does not depend on its text |
| FileValidation.RejectionBody | backend/app/middleware/file_validation.py:18-58 | a rejection body names the file exactly for the type and size failures |
| FileValidation.LastDot | backend/app/middleware/file_validation.py:11 | the index of the last '.' of the name, or -1 exactly when there is none |
| FileValidation.AllowedFile | backend/app/middleware/file_validation.py:9-11 | `allowed_file`: a '.' is present and the text after the last one, lower-cased, is `pdf`; its meaning is stated by `AllowedFileIff` and `AllowedFileSuffix` |
| FileValidation.AllowedFileSuffix | backend/app/middleware/file_validation.py:9-11 | a name is allowed iff it ends in `.pdf`, in any letter case |
| FileValidation.AllowedFileIff | backend/app/middleware/file_validation.py:9-11 | a name is allowed iff it contains '.' and the text after its last '.', lower-cased, is `pdf` |
| FileValidation.AllowedFileExamples | backend/app/middleware/file_validation.py:9-11 | "a.PDF" and ".pdf" are allowed; "pdf", "a.pdf.exe" and "a." are not |
| FileValidation.CheckFile | backend/app/middleware/file_validation.py:34-58 | a file passes iff its name is non-empty, allowed and its size at most 10 MiB; the failure reported is the first of empty name, type, size |
| FileValidation.FirstFailure | backend/app/middleware/file_validation.py:34-60 | the per-file loop gives no verdict iff every file passes each check |
| FileValidation.Check | backend/app/middleware/file_validation.py:18-60 | the request passes iff it has at least one file, at most `max_files`, and every file passes |
| FileValidation.ValidationReply | backend/app/middleware/file_validation.py:18-60 | the view's own result is returned iff there is no rejection; a rejection is its body with status 400 |
| FileValidation.FirstFailureAt | backend/app/middleware/file_validation.py:34-60 | when the first `k` files pass and file `k` fails, the verdict is file `k`'s |
| FileValidation.FirstFailureSpec | backend/app/middleware/file_validation.py:34-60 | the files pass iff each file passes; a failing verdict is that of the first failing file |
| FileValidation.CheckOrder | backend/app/middleware/file_validation.py:18-31 | no files gives `NO_FILES` first; more than `max_files` gives `TOO_MANY_FILES` before any per-file check; exactly `max_files` goes on to the per-file checks |
| FileValidation.SizeBoundary | backend/app/middleware/file_validation.py:53 | exactly 10 MiB passes and one byte more fails with `FILE_TOO_LARGE` |
| FileValidation.FileStorage.SeekEnd | backend/app/middleware/file_validation.py:49 | the stream position moves to its end |
| FileValidation.FileStorage.Tell | backend/app/middleware/file_validation.py:50 | reports the stream position |
| FileValidation.FileStorage.Rewind | backend/app/middleware/file_validation.py:51 | the stream position returns to 0 |
| FileValidation.VerdictAt | backend/app/middleware/file_validation.py:34-58 | when the first `i` files pass and file `i` fails, the request's verdict is file `i`'s, and the files measured are the first `i`, plus file `i` when its name and type passed |
| FileValidation.AllPass | backend/app/middleware/file_validation.py:34-60 | when every file passes, the request passes and every file is measured |
| FileValidation.MeasureSize | backend/app/middleware/file_validation.py:49-51 | the size read is the stream's length, and the stream is left at position 0 |
| FileValidation.CheckOne | backend/app/middleware/file_validation.py:35-58 | the verdict on one file is `CheckFile`'s; the stream is measured, and left at 0, only when the name and type passed, and is otherwise not moved |
| FileValidation.ValidateFiles | backend/app/middleware/file_validation.py:13-62 | the reply is that of the first failing check, or the view's result; the view is called iff every check passes; each measured file is left at position 0 and no other file is moved |
| ApiGateway.Authorize | frontend/src/services/api/base.ts:21-28 | a request gets `Bearer <token>` iff a non-empty access token is stored; otherwise it is untouched, and no other field ever changes |
| ApiGateway.OnError | frontend/src/services/api/base.ts:37-56 | a refresh starts iff the error is a 401 on a request not marked `_retry`; otherwise the rejection is `handleApiError(error)` |
| ApiGateway.Transact | frontend/src/services/api/base.ts:21-57 | the request is sent first with the stored token attached, at most three sends happen, the refresh token is never overwritten (kept, or cleared together with the redirect to `/signin`), and a request that resolves leaves the refresh token and location alone |
| ApiGateway.NoRefreshPath | frontend/src/services/api/base.ts:32-56 | a response passes unchanged and an error other than a first 401 is rejected normalised; the storage is unchanged and the request is sent once |
| ApiGateway.RetriedUnauthorizedRejected | frontend/src/services/api/base.ts:37 | a 401 on a request already marked `_retry` is rejected without a refresh |
| ApiGateway.RefreshSuccess | frontend/src/services/api/base.ts:38-47 | one refresh POST carries the stored refresh token; the new access token replaces the stored one and the refresh token is kept; the request is resent once, marked and with the new bearer, and its outcome is the caller's |
| ApiGateway.RefreshFailure | frontend/src/services/api/base.ts:48-53 | both tokens are removed, the location becomes `/signin`, the refresh error is the rejection and nothing is resent |
| ApiGateway.ResendFailureKeepsTokens | frontend/src/services/api/base.ts:44-48 | a failure of the resent request reaches the caller normalised and leaves the tokens as the refresh set them |
| ApiGateway.ResentAtMostOnce | frontend/src/services/api/base.ts:37-47 | the original request is sent once, plus exactly one resend when a first 401 led to a successful refresh |
| ApiGateway.NestedRefreshUnbounded | frontend/src/services/api/base.ts:37-41 | as written, `k` successive 401s on `/auth/refresh` lead to `k + 1` refresh POSTs |
| ApiGateway.OnErrorGuarded | frontend/src/services/api/base.ts:37 | the corrected handler starts a refresh iff an unmarked 401 arrives on a request other than `/auth/refresh`, and agrees with the handler on every other request |
| ApiGateway.GuardedRefreshOnce | frontend/src/services/api/base.ts:37-41 | with the corrected handler a first 401 leads to exactly one refresh POST |
| ApiGateway.ApiService.constructor | frontend/src/services/api/base.ts:8-18 | the client starts over the given browser state |
| ApiGateway.ApiService.AttachToken | frontend/src/services/api/base.ts:22-27 | the request interceptor, reading the stored token, is `Authorize` |
| ApiGateway.ApiService.Request | frontend/src/services/api/base.ts:32-57 | the outcome, the new stored state and the configs sent are exactly those of `Transact` on the old state |
| AuthService.LoginSuccessStoresTokens | frontend/src/services/api/auth.service.ts:12-22 | a login that the server answers stores `data.token` and `data.refreshToken` and returns `data` unchanged |
| AuthService.LoginFailureKeepsStorage | frontend/src/services/api/auth.service.ts:13-19 | a login POST that fails with anything but a 401 is rejected normalised and leaves the storage unchanged |
| AuthService.LoginEffect | frontend/src/services/api/auth.service.ts:12-22 | a login that resolves ends with both tokens from its own response stored and the location unchanged |
| AuthService.LogoutClearsOnlyOnSuccess | frontend/src/services/api/auth.service.ts:24-28 | logout removes both tokens when it resolves; a failed POST other than a 401 leaves both tokens in place |
| AuthService.LogoutEffect | frontend/src/services/api/auth.service.ts:24-28 | a logout that resolves ends with no token stored; one rejected without a refresh keeps both tokens |
| AuthService.GetCurrentUserReadsOnly | frontend/src/services/api/auth.service.ts:30-33 | `getCurrentUser` changes the storage only as the client's refresh protocol does, and not at all without a first 401 |
| AuthService.CurrentUserEffect | frontend/src/services/api/auth.service.ts:30-33 | the refresh token is never written (kept, or cleared with the redirect), and a returned user leaves the refresh token and location alone |
| AuthService.Login | frontend/src/services/api/auth.service.ts:12-22 | the result and the new client state are those of `LoginEffect` |
| AuthService.Logout | frontend/src/services/api/auth.service.ts:24-28 | the result and the new client state are those of `LogoutEffect` |
| AuthService.GetCurrentUser | frontend/src/services/api/auth.service.ts:30-33 | the result and the new client state are those of `CurrentUserEffect` |

## Left out

- Job polling (`Processing.tsx`) is not part of this model. It is a react-query refetch interval with no terminal state, so it holds no state machine to model.
- `uploadDocument`, `processDocument`, `getJobStatus` and `getDocuments` (`api.ts`) are not modelled separately. Each is the interceptor (`Intercept`) followed by `response.data`; unlike `uploadFiles` they have no catch, so a 413 reaches their callers unchanged.
- The upload-progress callback of `uploadFiles` is left out. Its value is floating point and is never used.
- The PDF previews, `numPages`, the pdf.js worker set-up and all rendering are left out.
- Concurrency is left out. Requests are modelled one at a time, so overlapping requests that each refresh on a 401 are not modelled.
- In `Transact` the refresh POST is an oracle outcome whose rejection is already normalised. A 401 on the refresh POST starts another refresh (see Findings); the storage effects and the final outcome of such a nested chain are not modelled.
- The refresh's `response.data.token` is taken to be a string. Responses of another shape are not modelled.
- A page reload caused by assigning `window.location.href` is not modelled. The location is a stored value.
- Time is not modelled. The 30-second axios timeout reaches the model as a failed reply with code `ECONNABORTED`.
- `localStorage` failures (quota, disabled storage) are not modelled.
- Logging in `handle_errors` is not modelled.
- Flask routes, services, Celery tasks, JWT checking and PDF merging are not part of this model. The route-level `max_files=10` is used only as a constant.
- `FileValidation.AllowedFile`: lower-casing covers ASCII only. Python's `str.lower` also maps other letters, but no non-ASCII letter lower-cases to `p`, `d` or `f`, so the verdict is the same.
- `MergePage.MergePdfUpload.OnDragEnd` requires both indices to lie inside the list. The drag library reports only such indices, and `splice` outside the list is not modelled.
- `MergePage.MergePdfUpload.OnDrop` reads the current list for the capacity test. The stale-closure case is not modelled: the callback captures `files` while `setFiles` appends to `prev`, and the model treats both as the same list.
- `MergePage.MergePdfUpload.HandleUpload` states only the final state. The intermediate `isUploading == true` state while the POST is outstanding is not modelled.
- `MergePage.ProcessingPath` renders a missing `job_id` as `undefined`. A non-string `job_id` is not modelled.
- `AuthService.LoginFailureKeepsStorage` is weaker than "a failed login leaves the storage unchanged". It excludes a 401, because a 401 on the login POST goes through the refresh path, which may write or clear tokens.
- `AuthService.LogoutClearsOnlyOnSuccess` likewise speaks of a failed POST other than a 401, for the same reason.
- `AuthService.GetCurrentUserReadsOnly` is weaker than "never modifies the token store". On a 401, the client's refresh protocol may write or clear the tokens.

## Findings

| source | as written | input that shows it | evidently intended | confidence | as-written member | corrected member |
|---|---|---|---|---|---|---|
| frontend/src/pages/MergePdfUpload.tsx:95 | the page reads `error.response?.data?.error`, but `uploadFiles` rethrows a 413 as a plain `Error` without a `response` (api.ts:65-66), so its size message is never shown | a merge POST answered with status 413 | the page shows "File too large. Please try with smaller files." | high; not executed | MergePage.TooLargeTextNeverShown | MergePage.IntendedUploadErrorMessage |
| frontend/src/services/api/base.ts:37-41 | the refresh POST goes through the same response handler as a new request without `_retry`, so a 401 on `/auth/refresh` starts another refresh, and so on while the server keeps answering 401 | every POST to `/auth/refresh` answered with 401, as for an expired refresh token | the refresh request is kept out of the refresh path, so one first 401 leads to one refresh POST | high; not executed | ApiGateway.NestedRefreshUnbounded | ApiGateway.GuardedRefreshOnce |
