/**
 * sendtoblob.py: the variant of the extraction script that uploads the export to blob
 * storage. Its `get_job_status` returns `None` on a non-200 status response.
 */
module SendToBlob {
  import opened Wrappers
  import PyStr
  import opened JobPoll
  import opened JobSubmission

  /**
   * `get_job_status(job_id, headers, max_retries)`: strips the quotes around the job id, then
   * polls the job's status URL at most `max_retries` times, sleeping ten seconds after each
   * non-terminal answer. `server(i)` is the answer to the request made when `retries == i`.
   */
  method GetJobStatus(jobId: string, server: nat -> Response, maxRetries: int)
    returns (outcome: Outcome, trace: seq<Effect>)
    ensures Run(outcome, trace) == Poll(BlobSink, StatusUrl(PyStr.Strip(jobId, '"')), server, 0, maxRetries)
    ensures outcome.Returned?
  {
    var link := PyStr.Strip(jobId, '"');
    var url := StatusUrl(link);
    CopiesDifferOnlyOnTransportError(url, server, 0, maxRetries);
    var retries: nat := 0;
    trace := [];
    while retries < maxRetries
      invariant Poll(BlobSink, url, server, 0, maxRetries) == Prepend(trace, Poll(BlobSink, url, server, retries, maxRetries))
      decreases maxRetries - retries
    {
      var response := server(retries);
      PollStep(BlobSink, url, server, retries, maxRetries, trace);
      trace := trace + [Get(url)];
      if response.code == 200 {
        var jobStatus := response.status;
        if jobStatus.None? {
          // status not available yet: retry
        } else if PyStr.Upper(jobStatus.value) == "SUCCEEDED" {
          return Returned(response.url), trace;
        } else if PyStr.Upper(jobStatus.value) in ["FAILED", "CANCELLED"] {
          return Returned(None), trace;
        }
      } else {
        return Returned(None), trace;
      }
      retries := retries + 1;
      trace := trace + [Sleep(PollDelaySeconds)];
    }
    outcome := Returned(None);
  }

  /**
   * `main` from the submission response on: only a 202 reaches the poller, with the id
   * stripped once here and once more inside the poller, which polls the same URL as a
   * single strip would; 403 and every other code exit first.
   */
  method RunExtraction(submitCode: int, submitBody: string, server: nat -> Response)
    returns (result: Extraction)
    ensures result.Polled? <==> submitCode == 202
    ensures result.Exited? ==> result.submission == Dispatch(submitCode, submitBody)
    ensures result.Polled? ==>
              Run(result.outcome, result.trace) == Poll(BlobSink, StatusUrl(PyStr.Strip(submitBody, '"')), server, 0, DefaultMaxRetries)
  {
    var submission := Dispatch(submitCode, submitBody);
    if submission.Accepted? {
      PyStr.StripIdempotent(submitBody, '"');
      var outcome, trace := GetJobStatus(submission.jobId, server, DefaultMaxRetries);
      result := Polled(outcome, trace);
    } else {
      result := Exited(submission);
    }
  }
}
