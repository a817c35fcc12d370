/**
 * The form itself: its fields are updated in place by Login, SendImage,
 * Solve and the button handler. Each method is proved to have the effect the
 * corresponding function of module Session describes, so the properties
 * proved there hold of the object.
 */
module WinForm {
  import opened Wrappers
  import opened AstrometryNet
  import opened Session

  class Form1 {
    var client: Option<string>        // Some(k): a client built for API key k
    var submissionId: Option<string>
    var status: SolverStatus
    var message: Option<string>
    ghost var calls: seq<Call>        // every request made on a client so far

    /** The form's fields as a value. */
    ghost function State(): FormState
      reads this
    {
      FormState(client, submissionId, status, message, calls)
    }

    /** A new form leaves every field at its default; in particular the status is `Connected`. */
    constructor ()
      ensures State() == Initial
    {
      client := None;
      submissionId := None;
      status := DefaultStatus;
      message := None;
      calls := [];
    }

    /** Log in when not connected; otherwise declare the form connected. */
    method Login(apiKey: string, response: LoginResponse)
      modifies this
      ensures State() == Session.Login(old(State()), apiKey, response)
    {
      if status == NotConnected {
        client := Some(apiKey);
        calls := calls + [LoginCall(apiKey)];
        if response.status == ResponseStatus.success {
          message := response.message;
          status := Connected;
        } else {
          message := response.errormessage;
          status := NotConnected;
        }
      } else {
        status := Connected;
      }
    }

    /**
     * Log in, then upload `file`. `startCanceled` is whether the token was
     * already cancelled when the task was to start; the body then never runs.
     */
    method SendImage(file: string, apiKey: string, startCanceled: bool, login: LoginResponse, upload: UploadResponse)
      returns (r: Completion<bool>)
      modifies this
      ensures After(State(), r) == Session.SendImage(old(State()), file, apiKey, startCanceled, login, upload)
    {
      if startCanceled {
        return Threw(OperationCanceled);
      }
      Login(apiKey, login);
      if status != Connected {
        return Done(false);
      }
      submissionId := None;
      if client.None? {
        return Threw(NullReference);
      }
      calls := calls + [UploadCall(file)];
      if upload.status == ResponseStatus.success {
        submissionId := upload.subid;
        message := Some(file);
        status := ImageSent;
        return Done(true);
      }
      message := upload.errormessage;
      return Done(false);
    }

    /** Send the image and, unless that failed or cancellation was requested, ask for the solution. */
    method Solve(inputs: RunInputs) returns (r: Completion<SolveReport>)
      requires Monotone(inputs.cancel)
      modifies this
      ensures After(State(), r) == Session.Solve(old(State()), inputs)
    {
      var sent := SendImage(inputs.file, inputs.apiKey, inputs.cancel.atStart, inputs.remote.login, inputs.remote.upload);
      if sent.Threw? {
        return Threw(sent.fault);
      }
      if !sent.value {
        return Done(NotSent);
      }
      if inputs.cancel.beforeSolve {
        return Threw(OperationCanceled);
      }
      var run := GetSolution(client, submissionId, inputs.remote, inputs.cancel);
      calls := calls + run.calls;
      r := Report(run.result);
    }

    /** The button: reset the status to `NotConnected` and solve. */
    method Click(inputs: RunInputs) returns (r: Completion<SolveReport>)
      requires Monotone(inputs.cancel)
      modifies this
      ensures After(State(), r) == Session.Click(old(State()), inputs)
    {
      status := NotConnected;
      r := Solve(inputs);
    }
  }
}
