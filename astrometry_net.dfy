/**
 * The data the form exchanges with the astrometry.net client library
 * (namespace software.elendil.AstrometryNet). The library itself is not part
 * of this model: its responses are inputs, and the calls the form makes on it
 * are recorded as `Call` values.
 */
module AstrometryNet {
  import opened Wrappers

  /** A .NET `double`, carried as its IEEE 754 bit pattern; nothing here computes with it. */
  datatype Double = Double(bits: bv64)

  /** `default(double)`, i.e. +0.0. */
  const Zero: Double := Double(0)

  /** Outcome of a login or an upload, as the library reports it. */
  datatype ResponseStatus = success | error

  /** Outcome of a job, as the library reports it. */
  datatype ResponseJobStatus = success | failure

  /** The library's job identifier. */
  type JobId = string

  datatype LoginResponse = LoginResponse(status: ResponseStatus, message: Option<string>, errormessage: Option<string>)

  datatype UploadResponse = UploadResponse(status: ResponseStatus, subid: Option<string>, errormessage: Option<string>)

  /** `jobs` is `None` when the service reported no job list at all. */
  datatype SubmissionStatusResponse = SubmissionStatusResponse(jobs: Option<seq<JobId>>)

  datatype JobStatusResponse = JobStatusResponse(status: ResponseJobStatus)

  datatype CalibrationResponse = CalibrationResponse(ra: Double, dec: Double, radius: Double)

  /** One request the form makes on the client library, with its argument. */
  datatype Call =
    | LoginCall(apiKey: string)          // `new Client(apiKey)` followed by `Login()`
    | UploadCall(file: string)
    | SubmissionStatusCall(submissionId: Option<string>)
    | JobStatusCall(job: JobId)
    | CalibrationCall(job: JobId)
}
