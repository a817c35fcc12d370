/**
 * The plate-solve session of the WinForms example as a pure state machine.
 *
 * `FormState` is the state the form keeps between calls (the client object,
 * the submission id, the status and the message) together with the log of
 * requests made on the client library. Each operation of the form is a
 * function from the old state and the remote answers to the new state and
 * the operation's result; the class in module WinForm is proved to agree
 * with these functions.
 */
module Session {
  import opened Wrappers
  import opened AstrometryNet

  /** The form's status values, in declaration order. */
  datatype SolverStatus = Connected | NotConnected | ImageSent | Solving | Success | Failure | Error | Canceled

  /** `default(SolverStatus)` is the first member, `Connected`. */
  const DefaultStatus: SolverStatus := Connected

  /** The value `GetSolution` hands back. */
  datatype Solution = Solution(ra: Double, dec: Double, radius: Double, status: SolverStatus)

  /** `new Solution()`: every field at its default. */
  const DefaultSolution: Solution := Solution(Zero, Zero, Zero, DefaultStatus)

  /** The exceptions the form's code can raise. */
  datatype Fault = NullReference | IndexOutOfRange | OperationCanceled

  /** How a call ends: with a value, or by throwing. */
  datatype Completion<T> = Done(value: T) | Threw(fault: Fault)

  /**
   * What the cancellation token reports at each point where it is consulted:
   * when `Task.Factory.StartNew` is about to run SendImage's body, at the
   * `ThrowIfCancellationRequested` in Solve, and at the three tests inside
   * GetSolution.
   */
  datatype Cancellation = Cancellation(
    atStart: bool,
    beforeSolve: bool,
    beforeJobStatus: bool,
    beforeCalibration: bool,
    beforeReport: bool)

  /** A token cannot be un-cancelled: once observed, cancellation stays observed. */
  predicate Monotone(c: Cancellation) {
    && (c.atStart ==> c.beforeSolve)
    && (c.beforeSolve ==> c.beforeJobStatus)
    && (c.beforeJobStatus ==> c.beforeCalibration)
    && (c.beforeCalibration ==> c.beforeReport)
  }

  /** What the remote service answers during one run. */
  datatype Remote = Remote(
    login: LoginResponse,
    upload: UploadResponse,
    submission: SubmissionStatusResponse,
    jobStatus: JobId -> JobStatusResponse,
    calibration: JobId -> CalibrationResponse)

  /** The inputs of one run: the two text boxes, the token and the service's answers. */
  datatype RunInputs = RunInputs(apiKey: string, file: string, cancel: Cancellation, remote: Remote)

  /**
   * The form's fields. `client` is `Some(k)` once a client was built for the API
   * key `k`; `calls` is every request made on a client so far.
   */
  datatype FormState = FormState(
    client: Option<string>,
    submissionId: Option<string>,
    status: SolverStatus,
    message: Option<string>,
    calls: seq<Call>)

  /** A freshly constructed form: every field at its default. */
  const Initial: FormState := FormState(None, None, DefaultStatus, None, [])

  /** A new state together with an operation's result. */
  datatype After<T> = After(state: FormState, result: T)

  /** What `GetSolution` produces: its outcome and the requests it made. */
  datatype SolutionRun = SolutionRun(result: Completion<Solution>, calls: seq<Call>)

  /**
   * How Solve ends. For `NotSent` the log shows the form's message; for
   * `Solved` it shows the coordinates when the solution's status is
   * `Success`, and the form's message otherwise.
   */
  datatype SolveReport = NotSent | Solved(solution: Solution)

  /** The only status values the form's `status` field ever takes. */
  predicate FieldStatus(st: SolverStatus) {
    st == Connected || st == NotConnected || st == ImageSent
  }

  /** SendImage reaches the upload: the body runs, the login does not fail, and a client exists. */
  predicate Uploads(s: FormState, startCanceled: bool, login: LoginResponse) {
    !startCanceled && !LoginFails(s, login) && (s.status == NotConnected || s.client.Some?)
  }

  /** Login fails when it has to contact the service and the service refuses. */
  predicate LoginFails(s: FormState, login: LoginResponse) {
    s.status == NotConnected && login.status != ResponseStatus.success
  }

  // ---------------------------------------------------------------------------
  // Login
  // ---------------------------------------------------------------------------

  /**
   * Only a form that is not connected builds a client and logs in; from any
   * other status the form is declared connected without contacting anyone.
   */
  function Login(s: FormState, apiKey: string, response: LoginResponse): (t: FormState)
    ensures t.submissionId == s.submissionId
    ensures s.status == NotConnected ==>
      && t.client == Some(apiKey)
      && t.calls == s.calls + [LoginCall(apiKey)]
      && (t.status == Connected <==> response.status == ResponseStatus.success)
      && (t.status == NotConnected <==> response.status != ResponseStatus.success)
      && t.message == (if response.status == ResponseStatus.success then response.message else response.errormessage)
    ensures s.status != NotConnected ==> t == s.(status := Connected)
  {
    if s.status == NotConnected then
      var built := s.(client := Some(apiKey), calls := s.calls + [LoginCall(apiKey)]);
      if response.status == ResponseStatus.success then
        built.(message := response.message, status := Connected)
      else
        built.(message := response.errormessage, status := NotConnected)
    else
      s.(status := Connected)
  }

  /** Once logged in, logging in again changes nothing and contacts nobody. */
  lemma LoginIdempotent(s: FormState, apiKey: string, first: LoginResponse, second: LoginResponse)
    requires Login(s, apiKey, first).status == Connected
    ensures Login(Login(s, apiKey, first), apiKey, second) == Login(s, apiKey, first)
  {
  }

  // ---------------------------------------------------------------------------
  // SendImage
  // ---------------------------------------------------------------------------

  /**
   * SendImage: the task body runs only if the token is not yet cancelled; it
   * logs in, gives up unless connected, clears the submission id, and uploads.
   */
  function SendImage(s: FormState, file: string, apiKey: string, startCanceled: bool,
                     login: LoginResponse, upload: UploadResponse): (r: After<Completion<bool>>)
    // the value returned says whether the image is now on the service
    ensures r.result.Done? ==> (r.result.value <==> r.state.status == ImageSent)
    ensures r.result == Done(true) ==>
      && r.state.submissionId == upload.subid
      && r.state.message == Some(file)
      && upload.status == ResponseStatus.success
    // a cancelled token keeps the body from running at all, and is the only way to a cancelled task
    ensures startCanceled ==> r == After(s, Threw(OperationCanceled))
    ensures r.result == Threw(OperationCanceled) <==> startCanceled
    // a failed login stops before the upload and keeps the old submission id
    ensures !startCanceled && LoginFails(s, login) ==>
      && r.result == Done(false)
      && r.state.status == NotConnected
      && r.state.submissionId == s.submissionId
      && r.state.message == login.errormessage
      && r.state.calls == s.calls + [LoginCall(apiKey)]
    // a connected form without a client object faults on the upload
    ensures r.result == Threw(NullReference) <==> !startCanceled && s.status != NotConnected && s.client.None?
    // once the upload is reached, the value returned is whether the service accepted it
    ensures Uploads(s, startCanceled, login) ==> r.result == Done(upload.status == ResponseStatus.success)
    // a refused upload leaves the form connected, without a submission id
    ensures Uploads(s, startCanceled, login) && upload.status != ResponseStatus.success ==>
      && r.result == Done(false)
      && r.state.status == Connected
      && r.state.submissionId == None
      && r.state.message == upload.errormessage
    // it logs in only from NotConnected, and uploads only once connected with a client
    ensures r.state.calls == s.calls
      + (if !startCanceled && s.status == NotConnected then [LoginCall(apiKey)] else [])
      + (if Uploads(s, startCanceled, login) then [UploadCall(file)] else [])
  {
    if startCanceled then
      After(s, Threw(OperationCanceled))
    else
      var l := Login(s, apiKey, login);
      if l.status != Connected then
        After(l, Done(false))
      else
        var cleared := l.(submissionId := None);
        if cleared.client.None? then
          After(cleared, Threw(NullReference))
        else
          var asked := cleared.(calls := cleared.calls + [UploadCall(file)]);
          if upload.status == ResponseStatus.success then
            After(asked.(submissionId := upload.subid, message := Some(file), status := ImageSent), Done(true))
          else
            After(asked.(message := upload.errormessage), Done(false))
  }

  /**
   * On a freshly constructed form the status is `Connected` (the enum's
   * default), so SendImage skips the login, never builds a client, and the
   * upload dereferences a null client.
   */
  lemma SendImageOnFreshFormFaults(file: string, apiKey: string, login: LoginResponse, upload: UploadResponse)
    ensures SendImage(Initial, file, apiKey, false, login, upload) == After(Initial, Threw(NullReference))
  {
  }

  // ---------------------------------------------------------------------------
  // GetSolution
  // ---------------------------------------------------------------------------

  /** The first job exists and the service reports it solved. */
  predicate FirstJobSolved(remote: Remote) {
    var jobs := remote.submission.jobs;
    jobs.Some? && |jobs.value| > 0 && remote.jobStatus(jobs.value[0]).status == ResponseJobStatus.success
  }

  /**
   * GetSolution: ask for the submission's jobs; unless cancelled, ask for the
   * status of the first job; if that job is solved and still not cancelled,
   * fetch its calibration. It reads the form but writes none of its fields.
   */
  function GetSolution(client: Option<string>, submissionId: Option<string>, remote: Remote, c: Cancellation): (r: SolutionRun)
    requires Monotone(c)
    // without a client object nothing is asked and the call faults
    ensures client.None? ==> r == SolutionRun(Threw(NullReference), [])
    // with one, the submission status is always asked first
    ensures client.Some? ==> 1 <= |r.calls| <= 3 && r.calls[0] == SubmissionStatusCall(submissionId)
    // indexing an empty job list is the only other fault
    ensures r.result.Threw? <==>
      client.None? || (remote.submission.jobs == Some([]) && !c.beforeJobStatus)
    ensures client.Some? && remote.submission.jobs == Some([]) && !c.beforeJobStatus ==>
      r.result == Threw(IndexOutOfRange)
    // every answer it gives is one of three
    ensures r.result.Done? ==>
      var st := r.result.value.status;
      st == Success || st == Canceled || st == Failure
    // success exactly when the first job is solved and no cancellation was seen
    ensures r.result.Done? ==>
      (r.result.value.status == Success <==> FirstJobSolved(remote) && !c.beforeCalibration)
    // otherwise cancellation at the last test decides between the other two
    ensures r.result.Done? && r.result.value.status != Success ==>
      (r.result.value.status == Canceled <==> c.beforeReport)
    // coordinates are those of the first job's calibration, or all zero
    ensures r.result.Done? && r.result.value.status == Success ==>
      var cal := remote.calibration(remote.submission.jobs.value[0]);
      r.result.value.ra == cal.ra && r.result.value.dec == cal.dec && r.result.value.radius == cal.radius
    ensures r.result.Done? && r.result.value.status != Success ==>
      r.result.value.ra == Zero && r.result.value.dec == Zero && r.result.value.radius == Zero
    // the first job's status is asked exactly when there is a first job and no cancellation yet
    ensures 2 <= |r.calls| <==>
      client.Some? && remote.submission.jobs.Some? && |remote.submission.jobs.value| > 0 && !c.beforeJobStatus
    ensures 2 <= |r.calls| ==> r.calls[1] == JobStatusCall(remote.submission.jobs.value[0])
    // its calibration is fetched exactly on success
    ensures |r.calls| == 3 <==> r.result.Done? && r.result.value.status == Success
    ensures |r.calls| == 3 ==> r.calls[2] == CalibrationCall(remote.submission.jobs.value[0])
  {
    if client.None? then
      SolutionRun(Threw(NullReference), [])
    else
      var jobs := remote.submission.jobs;
      var asked := [SubmissionStatusCall(submissionId)];
      if jobs.Some? && !c.beforeJobStatus && |jobs.value| == 0 then
        SolutionRun(Threw(IndexOutOfRange), asked)
      else
        var queried := jobs.Some? && !c.beforeJobStatus;
        var jobStatus := if queried then remote.jobStatus(jobs.value[0]) else JobStatusResponse(ResponseJobStatus.failure);
        var askedJob := if queried then asked + [JobStatusCall(jobs.value[0])] else asked;
        if jobs.Some? && jobStatus.status == ResponseJobStatus.success && !c.beforeCalibration then
          var cal := remote.calibration(jobs.value[0]);
          var solution := DefaultSolution.(ra := cal.ra, dec := cal.dec, radius := cal.radius, status := Success);
          SolutionRun(Done(solution), askedJob + [CalibrationCall(jobs.value[0])])
        else if c.beforeReport then
          SolutionRun(Done(DefaultSolution.(status := Canceled)), askedJob)
        else
          SolutionRun(Done(DefaultSolution.(status := Failure)), askedJob)
  }

  /**
   * A cancellation seen at the first test wins: no job is asked about and the
   * answer is `Canceled` with zero coordinates.
   */
  lemma CancellationBeforeJobStatus(client: string, submissionId: Option<string>, remote: Remote, c: Cancellation)
    requires Monotone(c) && c.beforeJobStatus
    ensures GetSolution(Some(client), submissionId, remote, c)
         == SolutionRun(Done(Solution(Zero, Zero, Zero, Canceled)), [SubmissionStatusCall(submissionId)])
  {
  }

  /** No job list and no cancellation: `Failure` with zero coordinates. */
  lemma AbsentJobListFails(client: string, submissionId: Option<string>, remote: Remote, c: Cancellation)
    requires Monotone(c) && remote.submission.jobs.None? && !c.beforeReport
    ensures GetSolution(Some(client), submissionId, remote, c)
         == SolutionRun(Done(Solution(Zero, Zero, Zero, Failure)), [SubmissionStatusCall(submissionId)])
  {
  }

  /** An empty (but present) job list is indexed at its first element and faults. */
  lemma EmptyJobListFaults(client: string, submissionId: Option<string>, remote: Remote, c: Cancellation)
    requires Monotone(c) && remote.submission.jobs == Some([]) && !c.beforeJobStatus
    ensures GetSolution(Some(client), submissionId, remote, c)
         == SolutionRun(Threw(IndexOutOfRange), [SubmissionStatusCall(submissionId)])
  {
  }

  // ---------------------------------------------------------------------------
  // Solve and the button
  // ---------------------------------------------------------------------------

  /** A solution's completion as a completion of Solve. */
  function Report(r: Completion<Solution>): Completion<SolveReport> {
    match r
    case Done(solution) => Done(Solved(solution))
    case Threw(f) => Threw(f)
  }

  /**
   * Solve: send the image; if that failed report the message; otherwise throw
   * if cancellation was requested, else ask for the solution.
   */
  function Solve(s: FormState, inputs: RunInputs): (r: After<Completion<SolveReport>>)
    requires Monotone(inputs.cancel)
    ensures var sent := SendImage(s, inputs.file, inputs.apiKey, inputs.cancel.atStart, inputs.remote.login, inputs.remote.upload);
      // a faulted send propagates, an unsent image reports the message; neither asks for a solution
      && (sent.result.Threw? ==> r == After(sent.state, Threw(sent.result.fault)))
      && (sent.result == Done(false) ==> r == After(sent.state, Done(NotSent)))
      // a cancellation seen after a successful send throws before anything is asked
      && (sent.result == Done(true) && inputs.cancel.beforeSolve ==> r == After(sent.state, Threw(OperationCanceled)))
      // otherwise the solution is asked for, and only the request log changes
      && (sent.result == Done(true) && !inputs.cancel.beforeSolve ==>
            var run := GetSolution(sent.state.client, sent.state.submissionId, inputs.remote, inputs.cancel);
            && r.state == sent.state.(calls := sent.state.calls + run.calls)
            && r.result == Report(run.result))
      // an unsuccessful solution is logged with the form's message, which still echoes the file
      && (r.result.Done? && r.result.value.Solved? ==> r.state.message == Some(inputs.file))
  {
    var sent := SendImage(s, inputs.file, inputs.apiKey, inputs.cancel.atStart, inputs.remote.login, inputs.remote.upload);
    match sent.result
    case Threw(f) => After(sent.state, Threw(f))
    case Done(imageSent) =>
      if !imageSent then
        After(sent.state, Done(NotSent))
      else if inputs.cancel.beforeSolve then
        After(sent.state, Threw(OperationCanceled))
      else
        var run := GetSolution(sent.state.client, sent.state.submissionId, inputs.remote, inputs.cancel);
        After(sent.state.(calls := sent.state.calls + run.calls), Report(run.result))
  }

  /** The request `calls[i]` is preceded by the request it depends on. */
  predicate Justified(calls: seq<Call>, i: nat)
    requires i < |calls|
  {
    match calls[i]
    case LoginCall(_) => true
    case UploadCall(_) => 0 < i && calls[i - 1].LoginCall?
    case SubmissionStatusCall(_) => 0 < i && calls[i - 1].UploadCall?
    case JobStatusCall(_) => 0 < i && calls[i - 1].SubmissionStatusCall?
    case CalibrationCall(job) => 0 < i && calls[i - 1] == JobStatusCall(job)
  }

  /**
   * Requests happen in protocol order: upload right after a login, the
   * submission status right after an upload, a job status right after the
   * submission status, a calibration right after that job's status.
   */
  predicate WellOrdered(calls: seq<Call>) {
    forall i :: 0 <= i < |calls| ==> Justified(calls, i)
  }

  /**
   * The requests of a run that goes all the way, in the order made: login,
   * upload, the submission's status, then the first job's status and its
   * calibration when there is a first job.
   */
  function Protocol(inputs: RunInputs): seq<Call> {
    var base := [LoginCall(inputs.apiKey), UploadCall(inputs.file), SubmissionStatusCall(inputs.remote.upload.subid)];
    var jobs := inputs.remote.submission.jobs;
    if jobs.Some? && |jobs.value| > 0 then base + [JobStatusCall(jobs.value[0]), CalibrationCall(jobs.value[0])] else base
  }

  /** Any prefix of the protocol is in protocol order. */
  lemma ProtocolPrefixWellOrdered(p: seq<Call>, inputs: RunInputs)
    requires p <= Protocol(inputs)
    ensures WellOrdered(p)
  {
  }

  /**
   * The button: a fresh token, the status reset to `NotConnected`, then Solve.
   * Every run therefore logs in anew, never meets a null client, and makes a
   * prefix of the protocol's requests, each at most once.
   */
  function Click(s: FormState, inputs: RunInputs): (r: After<Completion<SolveReport>>)
    requires Monotone(inputs.cancel)
    ensures FieldStatus(r.state.status)
    ensures r.result != Threw(NullReference)
    ensures |s.calls| <= |r.state.calls| && r.state.calls[..|s.calls|] == s.calls
    ensures r.state.calls[|s.calls|..] <= Protocol(inputs)
    ensures inputs.cancel.atStart <==> r.state.calls == s.calls
  {
    Solve(s.(status := NotConnected), inputs)
  }

  /** The state after pressing the button once per element of `runs`. */
  function Clicks(s: FormState, runs: seq<RunInputs>): FormState
    requires forall k :: 0 <= k < |runs| ==> Monotone(runs[k].cancel)
    decreases |runs|
  {
    if runs == [] then s else Clicks(Click(s, runs[0]).state, runs[1..])
  }

  /** Appending a run that starts with a login keeps the protocol order. */
  lemma WellOrderedAppend(a: seq<Call>, b: seq<Call>)
    requires WellOrdered(a) && WellOrdered(b)
    requires b != [] ==> b[0].LoginCall?
    ensures WellOrdered(a + b)
  {
    forall i | 0 <= i < |a + b|
      ensures Justified(a + b, i)
    {
      if i < |a| {
        assert Justified(a, i);
        assert (a + b)[i] == a[i];
        assert 0 < i ==> (a + b)[i - 1] == a[i - 1];
      } else {
        assert Justified(b, i - |a|);
        assert (a + b)[i] == b[i - |a|];
        assert i - |a| > 0 ==> (a + b)[i - 1] == b[i - |a| - 1];
      }
    }
  }

  /** Over any number of button presses, requests stay in protocol order. */
  lemma {:induction false} ClicksWellOrdered(s: FormState, runs: seq<RunInputs>)
    requires forall k :: 0 <= k < |runs| ==> Monotone(runs[k].cancel)
    requires WellOrdered(s.calls)
    ensures WellOrdered(Clicks(s, runs).calls)
    decreases |runs|
  {
    if runs != [] {
      var t := Click(s, runs[0]).state;
      var added := t.calls[|s.calls|..];
      assert t.calls == s.calls + added;
      ProtocolPrefixWellOrdered(added, runs[0]);
      WellOrderedAppend(s.calls, added);
      ClicksWellOrdered(t, runs[1..]);
    }
  }

  /**
   * Over any number of button presses the `status` field only ever holds
   * `Connected`, `NotConnected` or `ImageSent`: the other values occur only
   * in a `Solution`.
   */
  lemma {:induction false} ClicksKeepFieldStatus(s: FormState, runs: seq<RunInputs>)
    requires forall k :: 0 <= k < |runs| ==> Monotone(runs[k].cancel)
    requires FieldStatus(s.status)
    ensures FieldStatus(Clicks(s, runs).status)
    decreases |runs|
  {
    if runs != [] {
      ClicksKeepFieldStatus(Click(s, runs[0]).state, runs[1..]);
    }
  }

  /**
   * A run whose login fails leaves the previous run's submission id in place
   * while the status is `NotConnected`.
   */
  lemma StaleSubmissionIdAfterFailedLogin(s: FormState, first: RunInputs, second: RunInputs)
    requires Monotone(first.cancel) && Monotone(second.cancel)
    requires Click(s, first).state.status == ImageSent
    requires !second.cancel.atStart && second.remote.login.status != ResponseStatus.success
    ensures var t := Click(Click(s, first).state, second).state;
      && t.status == NotConnected
      && t.submissionId == first.remote.upload.subid
      && t.message == second.remote.login.errormessage
  {
  }

  // ---------------------------------------------------------------------------
  // End-to-end runs
  // ---------------------------------------------------------------------------

  /** No cancellation anywhere. */
  const NeverCanceled: Cancellation := Cancellation(false, false, false, false, false)

  /** Login, upload, a solved first job: the solution carries that job's calibration. */
  lemma SolvedRun(s: FormState, inputs: RunInputs)
    requires inputs.cancel == NeverCanceled
    requires inputs.remote.login.status == ResponseStatus.success
    requires inputs.remote.upload.status == ResponseStatus.success
    requires FirstJobSolved(inputs.remote)
    ensures var job := inputs.remote.submission.jobs.value[0];
      var cal := inputs.remote.calibration(job);
      var r := Click(s, inputs);
      && r.result == Done(Solved(Solution(cal.ra, cal.dec, cal.radius, Success)))
      && r.state.calls == s.calls + [LoginCall(inputs.apiKey), UploadCall(inputs.file),
           SubmissionStatusCall(inputs.remote.upload.subid), JobStatusCall(job), CalibrationCall(job)]
  {
  }

  /**
   * Cancellation requested right after a successful upload: Solve throws and
   * the submission status is never asked for.
   */
  lemma CanceledAfterUpload(s: FormState, inputs: RunInputs)
    requires Monotone(inputs.cancel) && !inputs.cancel.atStart && inputs.cancel.beforeSolve
    requires inputs.remote.login.status == ResponseStatus.success
    requires inputs.remote.upload.status == ResponseStatus.success
    ensures var r := Click(s, inputs);
      && r.result == Threw(OperationCanceled)
      && r.state.calls == s.calls + [LoginCall(inputs.apiKey), UploadCall(inputs.file)]
  {
  }

  /** A refused login halts with the service's error text and status `NotConnected`. */
  lemma RefusedLogin(s: FormState, inputs: RunInputs)
    requires Monotone(inputs.cancel) && !inputs.cancel.atStart
    requires inputs.remote.login.status != ResponseStatus.success
    ensures var r := Click(s, inputs);
      && r.result == Done(NotSent)
      && r.state.status == NotConnected
      && r.state.message == inputs.remote.login.errormessage
      && r.state.calls == s.calls + [LoginCall(inputs.apiKey)]
  {
  }
}
