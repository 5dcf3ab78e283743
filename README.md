# Export-job status poller of the call-center data-extraction scripts

The repository holds two near-identical extraction scripts. `sendtoblob.py` uploads the
export to blob storage and `test_de.py` writes it to a local file. Each script submits a
data-extraction job for recording-interaction metadata. A 202 response carries the job id
in quotes; 403 and every other code end the run with `exit()`. The script then calls its
own copy of `get_job_status`. That function polls `…/data-extraction/v1/jobs/<id>` up to
`max_retries` (default 5) times and sleeps ten seconds after every non-terminal answer. It
returns `jobStatus.result.url` on SUCCEEDED and `None` on FAILED or CANCELLED. The status
comparison is case-insensitive through `.upper()`. A run that never reaches a terminal
status falls off the end of the function, which returns `None`.

This project models that poller, the quote stripping of the job id, and the submission
dispatch in front of the poller:

- `PyStr` (py_str.dfy) defines `str.strip(c)` as CPython computes it. One index moves
  right over the leading `c`s, a second moves left over the trailing ones, and the result
  is the slice between them. It also defines `.upper()` restricted to ASCII, and a
  case-insensitive comparison that is independent of `Upper`.
- `JobPoll` (job_poll.dfy) defines the status-response record and the outcome of a call
  (`Returned(url-or-None)` or `RaisedNameError`). It also defines the trace of effects
  (`Get(url)` for a status request, `Sleep(10)` for `time.sleep(10)`). `Classify` gives the
  branch of the loop body taken on one response. `Poll` is the whole loop as a recursive
  function of the server's answers. The lemmas state what the scripts promise about it.
- `JobSubmission` (job_submission.dfy) holds the 202 / 403 / other dispatch.
- `SendToBlob` (send_to_blob.dfy) and `TestDe` (test_de.dfy) hold each script's
  `get_job_status`. Each is an imperative `while retries < max_retries` loop with early
  returns, proved equal to `Poll` for its variant. Each module also has `RunExtraction`,
  which is `main` from the submission response to the end of polling.

`requests.get` is a parameter `server: nat -> Response`, where `server(i)` is the answer to
the request made when `retries == i`. The loop issues exactly one request per iteration,
so this is the i-th request of the call. A response records the HTTP code and the parsed
`jobStatus.status` and `jobStatus.result.url`. Either value is `None` when absent or null.

The two copies differ in one place. On a non-200 status, `sendtoblob.py` returns `None`.
At test_de.py:42, `test_de.py` evaluates `return none`, an undefined name, so the call
raises `NameError` instead of returning. The model keeps this difference as
`TransportError(FileSink) == RaisedNameError("none")`.
`JobPoll.CopiesDifferOnlyOnTransportError` proves that this is the only difference. The
two copies make the same requests and sleeps for every server. Their outcomes differ only
when a non-200 response stopped the loop. A poller that returns `None` on a non-200
status never raises; `test_de.py`'s copy does, and the model follows the code.

## Model

| member | source | states |
|---|---|---|
| PyStr.SkipForward | sendtoblob.py:95 | The left scan of `strip('"')` stops at the first non-quote at or after its start, having passed only quotes. |
| PyStr.SkipBackward | sendtoblob.py:95 | The right scan stops at the end of the last non-quote, never crosses the left index, and passes only quotes. |
| PyStr.StripIsSlice | sendtoblob.py:95 | `strip(c)` returns one contiguous slice of the input. Only `c` lies outside it, and a non-empty result starts and ends with another character, so interior characters are kept. |
| PyStr.StrippedSliceIsStrip | sendtoblob.py:95 | Any slice shaped like that is exactly what `strip(c)` returns, so the result is fully determined (the converse of StripIsSlice). |
| PyStr.StripIdempotent | sendtoblob.py:25 | Stripping the already stripped id again in `get_job_status` changes nothing. |
| PyStr.StripQuotedJobId | sendtoblob.py:95 | The body `"abc-123"` (quotes included) gives the job id `abc-123`. |
| PyStr.Upper | sendtoblob.py:38 | `.upper()` keeps the length and maps each character through ASCII upper-casing. |
| PyStr.UpperEqualsIff | sendtoblob.py:38-42 | `s.upper() == T`, for an upper-case constant `T`, holds exactly when `s` spells `T` up to letter case. |
| JobPoll.ClassifyCases | sendtoblob.py:32-49 | One response, in five cases that cover all inputs. A non-200 code stops with the variant's transport-error outcome. An absent status retries. SUCCEEDED in any case stops with `result.url`, or `None` if absent. FAILED or CANCELLED in any case stops with `None`. Any other status retries. |
| JobPoll.StopsAtFirstTerminal | sendtoblob.py:29-52 | Suppose response `i` is the first terminal one and `i < max_retries`. Then the call returns that response's outcome after exactly `i + 1` requests and `i` sleeps, in the order request, sleep, …, request. |
| JobPoll.ExhaustsBudget | sendtoblob.py:29-52 | If every response within the budget is non-terminal, the call returns `None` after exactly `max_retries` requests and `max_retries` sleeps, or none of either when `max_retries <= 0`. |
| JobPoll.AtMostMaxRetries | sendtoblob.py:27-30 | For every server and both copies, at most `max_retries` requests are made and there are no more sleeps than requests. With `max_retries <= 0` no request is made and the result is `None`. |
| JobPoll.LaterAnswersIgnored | sendtoblob.py:38-49 | Answers after the first terminal one cannot change the call. Two servers that agree up to and including that answer give the same outcome and the same trace, so no request follows it. |
| JobPoll.FileSinkRaisesIff | test_de.py:40-42 | test_de.py's copy raises `NameError` exactly when the first loop-ending answer within the budget has a non-200 code. |
| JobPoll.CopiesDifferOnlyOnTransportError | test_de.py:40-42 | Both copies have identical request and sleep traces. The sendtoblob.py copy never raises `NameError`. Outcomes differ only where sendtoblob.py returns `None` and test_de.py raises `NameError`, which requires a non-200 response within the budget. |
| JobPoll.PendingRetries | sendtoblob.py:45-46 | A 200 response with status PENDING is non-terminal. |
| JobPoll.SucceededStops | test_de.py:31-34 | A 200 response with status `Succeeded` stops with its `result.url`. |
| JobPoll.PendingPendingSucceeded | sendtoblob.py:29-52 | PENDING, PENDING, then `Succeeded` with a link, at the default budget of 5: the call returns the link after 3 requests and exactly 2 sleeps. |
| JobSubmission.Dispatch | sendtoblob.py:94-101 | A submission is accepted exactly for code 202 and throttled exactly for 403. Every other code is rejected and keeps the code. Both the throttled and the rejected results keep the response body that the script logs before `exit()`. |
| JobSubmission.AcceptedJobId | sendtoblob.py:94-95 | The id taken from a 202 body is that body with its surrounding quotes cut, and stripping it again leaves it unchanged. |
| SendToBlob.GetJobStatus | sendtoblob.py:24-52 | The loop's outcome and its request/sleep trace equal `Poll` for the blob variant at the stripped id's status URL, and the call returns for every sequence of answers (it never raises `NameError`). |
| SendToBlob.RunExtraction | sendtoblob.py:94-104 | Polling happens exactly for a 202 submission, and it polls the URL of the once-stripped body with the default budget of 5. 403 and every other code exit with the dispatched submission. |
| TestDe.GetJobStatus | test_de.py:17-45 | The loop equals `Poll` for the file variant. It raises `NameError` exactly when the first answer within the budget that ends the loop has a non-200 code. |
| TestDe.RunExtraction | test_de.py:83-94 | Polling happens exactly for a 202 submission, with the once-stripped body's URL and a budget of 5. Every other code exits first. |

## Left out

- Reading credentials and the storage settings from the environment (sendtoblob.py:11-18, test_de.py:8-11): process configuration, not logic.
- The extraction window from `date.today()` and `strftime` (sendtoblob.py:19-20, test_de.py:12-13): wall-clock time. The submission body's dates are not modelled.
- The token request and its 200/other branch (sendtoblob.py:54-69, test_de.py:47-62): only network I/O and `exit()`. `RunExtraction` starts at the submission response.
- The headers passed to every request: the server answers are given directly. The bearer token is not represented.
- Real HTTP: the submission response is given as a code and a body, and status answers come from `server`. No network, timing or repeated-call behaviour of the remote service is assumed.
- `requests.get` failing at the transport level (sendtoblob.py:30, test_de.py:23): a connection error raised by the call, or a call that blocks forever because it has no `timeout=`. `server` always answers, so neither is modelled.
- `time.sleep(10)` as elapsed time: it appears only as a `Sleep(10)` entry in the trace.
- Failures that a malformed status body would cause: `response.json()` on a non-JSON body, `jobStatus` being JSON null, a non-string status (where `.upper()` raises), and a null `result`. The model's `Response` holds only the two optional strings.
- PyStr.Upper: upper-cases ASCII letters only. Python's `str.upper` also maps non-ASCII letters, for example `ſ` to `S`, so a status such as `ſucceeded` matches SUCCEEDED in Python but not in the model.
- PyStr.Strip: models `strip` with a single-character argument only, which is the only form the scripts use.
- `exit()` is modelled as the `Exited` result of `RunExtraction`, not as process termination.
- Everything after polling: `pd.read_csv` on the returned link (including the failure when it is `None`), `fillna`, CSV serialisation, the blob upload and its caught exception (sendtoblob.py:105-125), and the local directory and file write (test_de.py:95-102). These are foreign library calls and storage I/O.
- `print` logging.
