# Plate-solve session of the astrometry.net WinForms example

This project models the session logic of the WinForms example client for the
astrometry.net plate-solving service (`Form1.cs`). The form keeps a client
object, a submission id, a status (`SolverStatus`) and a message. `Login`,
`SendImage` and the button handler move them; `GetSolution` only reads them:

- `Login` contacts the service only when the form is `NotConnected`.
- `SendImage` logs in, then uploads the image file.
- `GetSolution` asks for the submission's jobs, then for the first job's
  status, then for its calibration. It turns the answers into a `Solution`.
- `Solve` sequences those steps, and the button handler runs `Solve` after
  resetting the status to `NotConnected`.

Layout:

- `wrappers.dfy`: `Option`. `None` stands for a C# `null`.
- `astrometry_net.dfy`: the shapes of the client library's responses. It also
  defines the `Call` values that record each request the form makes on the
  library.
- `session.dfy`: the state machine as pure functions over `FormState`, plus
  the lemmas about it.
- `form1.dfy`: the class `Form1`. Its fields are updated in place. Each method
  is proved to have exactly the effect of the matching `Session` function.

The remote service is not modelled. Every answer it gives is an input: a
`Remote` value holds the login and upload responses, the submission status,
and the job status and calibration as functions of the job id. The text boxes
(API key, file path) are inputs too. The cancellation token is a
`Cancellation` value: one boolean per place where the code consults it. These
places are the start of the `Task.Factory.StartNew` body, the
`ThrowIfCancellationRequested` in `Solve`, and the three tests in
`GetSolution`. `Monotone` requires that once a cancellation has been seen it
stays seen. Exceptions the code can raise are `Threw` outcomes:

- a null client dereferenced;
- an empty job list indexed;
- a cancelled operation.

Doubles are carried as 64-bit patterns and never computed with. Their default
is the zero pattern.

The model follows the code as written; in particular:

- A successful login copies the service's message into `Message`; it does not
  clear it.
- A present but empty job list faults at `jobs[0]` (`EmptyJobListFaults`). It
  is not treated as "no job yet".
- Cancellation requested after a successful upload makes `Solve` throw
  (`CanceledAfterUpload`). It does not produce a `Canceled` solution.
- The submission id is not tied to the status. After a failed re-login the
  previous run's id survives while the status is `NotConnected`
  (`StaleSubmissionIdAfterFailedLogin`).
- The button resets the status to `NotConnected`, so every run logs in again.
  `Login` itself is idempotent once connected (`LoginIdempotent`).
- The default status of a new form is `Connected`, the first enum member.
  Calling `SendImage` before the button has ever been pressed therefore skips
  the login and dereferences a null client (`SendImageOnFreshFormFaults`).
- There is a single polling round, with no retry loop.

## Model

| member | source | states |
|---|---|---|
| Session.Login | Form1.cs:78-100 | From `NotConnected` it builds a client for the key and makes one login request. It ends `Connected` with the service's message exactly when the login succeeds, otherwise `NotConnected` with the error text. From any other status it only sets `Connected`: no request, message and client untouched. The submission id is never touched. |
| Session.LoginIdempotent | Form1.cs:96-99 | Once a login left the form `Connected`, a second login changes nothing and makes no request. |
| Session.SendImage | Form1.cs:102-128 | Returns true exactly when the status becomes `ImageSent`; then the submission id is the upload's `subid` and the message is the file path. Once the upload is reached, it returns whether the service accepted the upload. If the token was cancelled before the task started, nothing changes and it throws; that is the only way it ends cancelled. A failed login returns false without uploading and keeps the old submission id. A failed upload returns false with no submission id, the error text, and status `Connected`. A connected form without a client throws. The requests made are exactly a login (only from `NotConnected`) followed by an upload (only when reached). |
| Session.SendImageOnFreshFormFaults | Form1.cs:106-115 | On a newly constructed form (status `Connected`, no client), `SendImage` skips the login, makes no request and faults on the null client. |
| Session.GetSolution | Form1.cs:134-167 | Without a client it faults before asking anything. Otherwise it asks the submission status first. It faults only on an empty job list with no cancellation at the first test, and then with an index fault. Every answer is `Success`, `Canceled` or `Failure`. `Success` holds exactly when the first job is solved and no cancellation was seen before the calibration; then RA/Dec/Radius are that job's calibration. Otherwise cancellation at the last test picks `Canceled` over `Failure`, with zero coordinates. Only the first job is asked about: its status exactly when a first job exists and no cancellation was seen, its calibration exactly on success. |
| Session.CancellationBeforeJobStatus | Form1.cs:141-163 | A cancellation seen at the first test gives `Canceled` with zero coordinates, and no job-level request is made. |
| Session.AbsentJobListFails | Form1.cs:141-166 | No job list and no cancellation gives `Failure` with zero coordinates after the single submission-status request. |
| Session.EmptyJobListFaults | Form1.cs:141-144 | A present but empty job list, with no cancellation at the first test, faults on `jobs[0]`. |
| Session.Solve | Form1.cs:54-76 | A faulted send propagates. A send that returns false reports the message, and `GetSolution` is not called. A successful send followed by a cancellation throws before any further request. Otherwise the solution is asked for, and only the request log changes: `GetSolution` writes none of status, submission id or message. Whenever a solution is reported, the message (what the log shows for a solution other than `Success`) is still the file path. |
| Session.Click | Form1.cs:47-52 | After a button press the status is `Connected`, `NotConnected` or `ImageSent`, and the run never meets a null client. The earlier request log is kept. The run's requests are a prefix of login, upload, submission status, first job's status, calibration. No request is made exactly when the token was cancelled before the task started. |
| Session.ClicksWellOrdered | Form1.cs:47-167 | Over any sequence of button presses, each made after the previous run has ended, every upload directly follows a login, every submission-status request follows an upload, every job-status request follows a submission-status request, and every calibration request follows the same job's status request. |
| Session.ClicksKeepFieldStatus | Form1.cs:47-167 | Over any sequence of button presses, each made after the previous run has ended, the status field only holds `Connected`, `NotConnected` or `ImageSent`. |
| Session.StaleSubmissionIdAfterFailedLogin | Form1.cs:106-111 | After a run that sent its image, a run whose login fails leaves the old submission id in place with status `NotConnected` and the login's error text. |
| Session.SolvedRun | Form1.cs:54-157 | Login and upload succeed, the first job is solved, and there is no cancellation. The run reports that job's calibration as a `Success` solution after exactly the five requests in protocol order. |
| Session.CanceledAfterUpload | Form1.cs:56-63 | Cancellation requested after a successful upload makes `Solve` throw, and the submission status is never requested. |
| Session.RefusedLogin | Form1.cs:56-94 | A refused login ends the run reporting the message: status `NotConnected`, message the error text, the login the only request. |
| Session.ProtocolPrefixWellOrdered | Form1.cs:102-167 | Every prefix of one run's full request sequence is in protocol order. |
| WinForm.Form1.constructor | Form1.cs:34-45 | A new form has no client, no submission id, no message and status `Connected`. |
| WinForm.Form1.Login | Form1.cs:78-100 | Updates the fields exactly as `Session.Login` describes. |
| WinForm.Form1.SendImage | Form1.cs:102-128 | Updates the fields and returns exactly as `Session.SendImage` describes. |
| WinForm.Form1.Solve | Form1.cs:54-76 | Updates the fields and reports exactly as `Session.Solve` describes. |
| WinForm.Form1.Click | Form1.cs:47-52 | Updates the fields and reports exactly as `Session.Click` describes. |

## Left out

- User interface: `InitializeComponent` and the reads and writes of the log, file and API-key text boxes. The two text values are inputs. `Solve` returns a report from which the log line follows: the message for `NotSent` and for a solution other than `Success`, the coordinates for `Success`.
- `async`/`await`, `Task.Factory.StartNew` and the cancellation token source are not modelled as concurrency. The token becomes one boolean observation per check point, and nothing in `Form1` ever calls `Cancel` on it.
- Overlapping runs: `Solve` is `async void`, so the button can be pressed again while a run is still in progress, and the two runs then interleave their updates of the same fields. `Clicks` and the lemmas over it cover only presses made after the previous run has ended.
- What an unhandled exception does to the application after it escapes the `async void` `Solve`. It is reported as a `Threw` outcome.
- The client library's behaviour (HTTP, JSON, its own timeouts and cancellation handling). Its responses are inputs. It is assumed to return a response, never `null`, and not to throw.
- Any response-status or job-status values other than `success`, `error` and `failure`. The code only tests for `success`, so any other value would behave like `error` or `failure`.
- Floating-point values are carried as bit patterns with no arithmetic.
- A bounded polling or retry loop, clearing of the message, an idempotent credential store and sharing a session between concurrent runs. The code implements none of these.
