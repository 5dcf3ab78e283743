/**
 * The export-job submission response as both scripts read it: 202 carries the job id (the
 * body with its surrounding quotes stripped), 403 and every other code end the run with
 * `exit()` before any status request is made.
 */
module JobSubmission {
  import PyStr
  import opened JobPoll

  /** How the script reads the submission response. */
  datatype Submission =
    | Accepted(jobId: string)            // 202: the job id
    | Throttled(body: string)            // 403: "Please wait and try again later", then exit()
    | Rejected(code: int, body: string)  // any other code: logged, then exit()

  /** What one run of `main` does from the submission on, up to the end of the poll. */
  datatype Extraction =
    | Exited(submission: Submission)
    | Polled(outcome: Outcome, trace: seq<Effect>)

  /** The 202 / 403 / other dispatch on the submission response. */
  function Dispatch(code: int, body: string): (s: Submission)
    ensures s.Accepted? <==> code == 202
    ensures s.Throttled? <==> code == 403
    ensures s.Rejected? ==> s.code == code && code != 202 && code != 403
    ensures s.Throttled? ==> s.body == body
    ensures s.Rejected? ==> s.body == body
  {
    if code == 202 then Accepted(PyStr.Strip(body, '"'))
    else if code == 403 then Throttled(body)
    else Rejected(code, body)
  }

  /**
   * The id taken from a 202 response is the body with the quotes at both ends removed and
   * nothing else: a contiguous slice of the body, starting and ending on a non-quote, with
   * only quotes outside it; stripping it again changes nothing.
   */
  lemma AcceptedJobId(body: string) returns (i: int, j: int)
    ensures PyStr.IsStrippedSlice(body, '"', i, j)
    ensures Dispatch(202, body).jobId == body[i..j]
    ensures PyStr.Strip(Dispatch(202, body).jobId, '"') == Dispatch(202, body).jobId
  {
    assert Dispatch(202, body).jobId == PyStr.Strip(body, '"');
    i, j := PyStr.StripIsSlice(body, '"');
    PyStr.StripIdempotent(body, '"');
  }
}
