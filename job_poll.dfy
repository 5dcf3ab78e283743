/**
 * The export-job status poller shared by both scripts: what one status response means,
 * and `Poll`, the behaviour of the whole `while retries < max_retries` loop as a function
 * of the responses the status endpoint gives. The two copies of `get_job_status` differ
 * only in what a non-200 response produces, which `Variant` selects.
 */
module JobPoll {
  import opened Wrappers
  import PyStr

  /** Base URL of the data-extraction jobs endpoint; a job's status lives under `/<id>`. */
  const JobsEndpoint: string := "https://na1.nice-incontact.com/data-extraction/v1/jobs"
  /** The default `max_retries` used by both scripts' callers. */
  const DefaultMaxRetries: int := 5
  /** `time.sleep(10)` after every response that is not terminal. */
  const PollDelaySeconds: nat := 10

  /** The URL that `get_job_status` polls for an already stripped job id. */
  function StatusUrl(link: string): string
  {
    JobsEndpoint + "/" + link
  }

  /**
   * One answer of the status endpoint: the HTTP status code, `jobStatus.status` and
   * `jobStatus.result.url` of the JSON body (`None` where the key is absent or null).
   */
  datatype Response = Response(code: int, status: Option<string>, url: Option<string>)

  /** What a call of `get_job_status` ends with: a returned value or a raised `NameError`. */
  datatype Outcome = Returned(value: Option<string>) | RaisedNameError(name: string)

  /** One observable effect of the poller: a status request or a blocking sleep. */
  datatype Effect = Get(url: string) | Sleep(seconds: nat)

  /** The outcome and the effects of one call, in order. */
  datatype Run = Run(outcome: Outcome, trace: seq<Effect>)

  /** Which copy of the poller: sendtoblob.py (blob sink) or test_de.py (file sink). */
  datatype Variant = BlobSink | FileSink

  /** What the loop does with one response: leave with an outcome, or sleep and go round again. */
  datatype Step = Stop(outcome: Outcome) | Retry

  /**
   * The non-200 branch: sendtoblob.py returns `None`; test_de.py evaluates the undefined
   * name `none`, which raises `NameError`.
   */
  function TransportError(v: Variant): Outcome
  {
    match v
    case BlobSink => Returned(None)
    case FileSink => RaisedNameError("none")
  }

  /** The branches of the loop body for one response. */
  function Classify(v: Variant, r: Response): Step
  {
    if r.code != 200 then Stop(TransportError(v))
    else match r.status
      case None => Retry
      case Some(s) =>
        if PyStr.Upper(s) == "SUCCEEDED" then Stop(Returned(r.url))
        else if PyStr.Upper(s) in ["FAILED", "CANCELLED"] then Stop(Returned(None))
        else Retry
  }

  /**
   * The loop from the iteration where `retries` has the given value: `server(i)` is the
   * response to the request issued when `retries == i`. Running out of budget falls off
   * the end of the Python function, which returns `None`.
   */
  function Poll(v: Variant, url: string, server: nat -> Response, retries: nat, maxRetries: int): Run
    decreases maxRetries - retries
  {
    if retries >= maxRetries then Run(Returned(None), [])
    else match Classify(v, server(retries))
      case Stop(o) => Run(o, [Get(url)])
      case Retry => Prepend([Get(url), Sleep(PollDelaySeconds)], Poll(v, url, server, retries + 1, maxRetries))
  }

  /** `run` preceded by the effects in `t`. */
  function Prepend(t: seq<Effect>, run: Run): Run
  {
    Run(run.outcome, t + run.trace)
  }

  /** One iteration of the loop, from the loop's own state: `trace` is what came before. */
  lemma PollStep(v: Variant, url: string, server: nat -> Response, r: nat, maxRetries: int, trace: seq<Effect>)
    requires r < maxRetries
    ensures Classify(v, server(r)).Stop? ==>
              Prepend(trace, Poll(v, url, server, r, maxRetries)) == Run(Classify(v, server(r)).outcome, trace + [Get(url)])
    ensures Classify(v, server(r)).Retry? ==>
              Prepend(trace, Poll(v, url, server, r, maxRetries))
              == Prepend(trace + [Get(url)] + [Sleep(PollDelaySeconds)], Poll(v, url, server, r + 1, maxRetries))
  {
    assert trace + [Get(url)] + [Sleep(PollDelaySeconds)] == trace + [Get(url), Sleep(PollDelaySeconds)];
  }

  /** `n` non-terminal rounds: a request followed by a ten-second sleep, `n` times. */
  function Cycles(url: string, n: nat): seq<Effect>
  {
    if n == 0 then [] else [Get(url), Sleep(PollDelaySeconds)] + Cycles(url, n - 1)
  }

  /** The number of status requests in a trace. */
  function Requests(t: seq<Effect>): nat
  {
    if t == [] then 0 else (if t[0].Get? then 1 else 0) + Requests(t[1..])
  }

  /** The number of sleeps in a trace. */
  function Sleeps(t: seq<Effect>): nat
  {
    if t == [] then 0 else (if t[0].Sleep? then 1 else 0) + Sleeps(t[1..])
  }

  /** `max(n, 0)`: a non-positive budget allows no iteration. */
  function Budget(maxRetries: int): nat
  {
    if maxRetries < 0 then 0 else maxRetries
  }

  lemma {:induction false} CyclesCounts(url: string, n: nat)
    ensures Requests(Cycles(url, n)) == n && Sleeps(Cycles(url, n)) == n
    ensures Requests(Cycles(url, n) + [Get(url)]) == n + 1 && Sleeps(Cycles(url, n) + [Get(url)]) == n
  {
    if n > 0 {
      CyclesCounts(url, n - 1);
      var c := Cycles(url, n - 1);
      assert ([Get(url), Sleep(PollDelaySeconds)] + c)[1..] == [Sleep(PollDelaySeconds)] + c;
      assert ([Get(url), Sleep(PollDelaySeconds)] + (c + [Get(url)]))[1..] == [Sleep(PollDelaySeconds)] + (c + [Get(url)]);
      assert Cycles(url, n) + [Get(url)] == [Get(url), Sleep(PollDelaySeconds)] + (c + [Get(url)]);
    } else {
      assert Cycles(url, n) + [Get(url)] == [Get(url)];
    }
  }

  /**
   * Answers after the first terminal one cannot change the call: two servers that agree up
   * to and including that answer give the same outcome and the same trace, so no request
   * is made after it.
   */
  lemma {:induction false} LaterAnswersIgnored(v: Variant, url: string, s1: nat -> Response, s2: nat -> Response,
                                               r: nat, maxRetries: int, i: nat)
    requires r <= i < maxRetries && Classify(v, s1(i)).Stop?
    requires forall j :: r <= j <= i ==> s1(j) == s2(j)
    ensures Poll(v, url, s1, r, maxRetries) == Poll(v, url, s2, r, maxRetries)
    decreases i - r
  {
    assert s1(r) == s2(r);
    if r < i && Classify(v, s1(r)) == Retry {
      LaterAnswersIgnored(v, url, s1, s2, r + 1, maxRetries, i);
    }
  }

  /**
   * Answer `i` is the first one from `r` on that ends the loop, it lies within the budget,
   * and it carries a non-200 code.
   */
  predicate FirstStopIsTransportError(server: nat -> Response, r: nat, maxRetries: int, i: nat)
  {
    && r <= i < maxRetries && server(i).code != 200
    && forall j :: r <= j < i ==> Classify(FileSink, server(j)) == Retry
  }

  /**
   * test_de.py's copy raises `NameError` exactly when the first answer within the budget
   * that ends the loop is a non-200 one.
   */
  lemma {:induction false} FileSinkRaisesIff(url: string, server: nat -> Response, r: nat, maxRetries: int)
    ensures Poll(FileSink, url, server, r, maxRetries).outcome.RaisedNameError?
        <==> exists i :: FirstStopIsTransportError(server, r, maxRetries, i)
    decreases maxRetries - r
  {
    if r < maxRetries {
      if server(r).code != 200 {
        assert FirstStopIsTransportError(server, r, maxRetries, r);
      } else if Classify(FileSink, server(r)) == Retry {
        FileSinkRaisesIff(url, server, r + 1, maxRetries);
        RetryConsumesOneRound(FileSink, url, server, r, maxRetries);
        if exists i :: FirstStopIsTransportError(server, r, maxRetries, i) {
          var i :| FirstStopIsTransportError(server, r, maxRetries, i);
          assert FirstStopIsTransportError(server, r + 1, maxRetries, i);
        }
        var next := r + 1;
        if exists i :: FirstStopIsTransportError(server, next, maxRetries, i) {
          var i :| FirstStopIsTransportError(server, next, maxRetries, i);
          assert FirstStopIsTransportError(server, r, maxRetries, i);
        }
      } else {
        StopEndsCall(FileSink, url, server, r, maxRetries);
        forall i | r <= i ensures !FirstStopIsTransportError(server, r, maxRetries, i) {
        }
      }
    }
  }

  /** Peeling one round off the front of `n + 1` rounds followed by a final request. */
  lemma CyclesThenGet(url: string, n: nat)
    ensures Cycles(url, n + 1) + [Get(url)] == [Get(url), Sleep(PollDelaySeconds)] + (Cycles(url, n) + [Get(url)])
  {
  }

  lemma {:induction false} StopsAtFirstTerminalFrom(v: Variant, url: string, server: nat -> Response, r: nat, maxRetries: int, i: nat)
    requires r <= i < maxRetries
    requires forall j :: r <= j < i ==> Classify(v, server(j)) == Retry
    requires Classify(v, server(i)).Stop?
    ensures Poll(v, url, server, r, maxRetries) == Run(Classify(v, server(i)).outcome, Cycles(url, i - r) + [Get(url)])
    decreases i - r
  {
    if r < i {
      StopsAtFirstTerminalFrom(v, url, server, r + 1, maxRetries, i);
      RetryConsumesOneRound(v, url, server, r, maxRetries);
      CyclesThenGet(url, i - r - 1);
    } else {
      StopEndsCall(v, url, server, r, maxRetries);
      assert Cycles(url, 0) + [Get(url)] == [Get(url)];
    }
  }

  lemma {:induction false} ExhaustsBudgetFrom(v: Variant, url: string, server: nat -> Response, r: nat, maxRetries: int)
    requires forall j :: r <= j < maxRetries ==> Classify(v, server(j)) == Retry
    ensures Poll(v, url, server, r, maxRetries) == Run(Returned(None), Cycles(url, if r < maxRetries then maxRetries - r else 0))
    decreases maxRetries - r
  {
    if r < maxRetries {
      ExhaustsBudgetFrom(v, url, server, r + 1, maxRetries);
    }
  }

  /**
   * The first terminal response decides the call: if responses `0..i-1` are non-terminal
   * and response `i` (within the budget) is terminal, the call issues exactly `i + 1`
   * requests, sleeps exactly `i` times (once after each non-terminal response, never after
   * the terminal one) and ends with that response's outcome.
   */
  lemma StopsAtFirstTerminal(v: Variant, url: string, server: nat -> Response, maxRetries: int, i: nat)
    requires i < maxRetries
    requires forall j :: 0 <= j < i ==> Classify(v, server(j)) == Retry
    requires Classify(v, server(i)).Stop?
    ensures Poll(v, url, server, 0, maxRetries) == Run(Classify(v, server(i)).outcome, Cycles(url, i) + [Get(url)])
    ensures Requests(Poll(v, url, server, 0, maxRetries).trace) == i + 1
    ensures Sleeps(Poll(v, url, server, 0, maxRetries).trace) == i
  {
    StopsAtFirstTerminalFrom(v, url, server, 0, maxRetries, i);
    CyclesCounts(url, i);
  }

  /**
   * Only non-terminal responses within the budget: the call returns `None` after exactly
   * `max_retries` requests and `max_retries` sleeps (none at all when `max_retries <= 0`).
   */
  lemma ExhaustsBudget(v: Variant, url: string, server: nat -> Response, maxRetries: int)
    requires forall j :: 0 <= j < maxRetries ==> Classify(v, server(j)) == Retry
    ensures Poll(v, url, server, 0, maxRetries) == Run(Returned(None), Cycles(url, Budget(maxRetries)))
    ensures Requests(Poll(v, url, server, 0, maxRetries).trace) == Budget(maxRetries)
    ensures Sleeps(Poll(v, url, server, 0, maxRetries).trace) == Budget(maxRetries)
  {
    ExhaustsBudgetFrom(v, url, server, 0, maxRetries);
    CyclesCounts(url, Budget(maxRetries));
  }

  lemma {:induction false} AtMostBudgetFrom(v: Variant, url: string, server: nat -> Response, r: nat, maxRetries: int)
    ensures Requests(Poll(v, url, server, r, maxRetries).trace) <= Budget(maxRetries - r)
    ensures Sleeps(Poll(v, url, server, r, maxRetries).trace) <= Requests(Poll(v, url, server, r, maxRetries).trace)
    ensures Requests(Poll(v, url, server, r, maxRetries).trace) == 0 ==> r >= maxRetries
    decreases maxRetries - r
  {
    if r < maxRetries {
      var t := [Get(url), Sleep(PollDelaySeconds)];
      match Classify(v, server(r))
      case Stop(o) =>
        assert [Get(url)][1..] == [];
      case Retry =>
        AtMostBudgetFrom(v, url, server, r + 1, maxRetries);
        var rest := Poll(v, url, server, r + 1, maxRetries).trace;
        assert (t + rest)[1..] == [Sleep(PollDelaySeconds)] + rest;
        assert ([Sleep(PollDelaySeconds)] + rest)[1..] == rest;
    }
  }

  /**
   * Whatever the server answers, one call issues at most `max_retries` status requests and
   * sleeps no more often than it requests; with `max_retries <= 0` it issues none and
   * returns `None`.
   */
  lemma AtMostMaxRetries(v: Variant, url: string, server: nat -> Response, maxRetries: int)
    ensures Requests(Poll(v, url, server, 0, maxRetries).trace) <= Budget(maxRetries)
    ensures Sleeps(Poll(v, url, server, 0, maxRetries).trace) <= Requests(Poll(v, url, server, 0, maxRetries).trace)
    ensures maxRetries <= 0 ==> Poll(v, url, server, 0, maxRetries) == Run(Returned(None), [])
  {
    AtMostBudgetFrom(v, url, server, 0, maxRetries);
  }

  /**
   * A non-terminal response consumes one retry: the call makes that request, sleeps ten
   * seconds and then behaves as the loop with `retries + 1`.
   */
  lemma RetryConsumesOneRound(v: Variant, url: string, server: nat -> Response, r: nat, maxRetries: int)
    requires r < maxRetries && Classify(v, server(r)) == Retry
    ensures Poll(v, url, server, r, maxRetries)
         == Prepend([Get(url), Sleep(PollDelaySeconds)], Poll(v, url, server, r + 1, maxRetries))
  {
  }

  /** A terminal response ends the call: that request, no sleep, and the response's outcome. */
  lemma StopEndsCall(v: Variant, url: string, server: nat -> Response, r: nat, maxRetries: int)
    requires r < maxRetries && Classify(v, server(r)).Stop?
    ensures Poll(v, url, server, r, maxRetries) == Run(Classify(v, server(r)).outcome, [Get(url)])
  {
  }

  /**
   * What each response means, stated with a case-insensitive comparison instead of `upper()`:
   * a non-200 code stops with the variant's transport-error outcome; an absent status, or one
   * that is none of SUCCEEDED, FAILED, CANCELLED in any letter case, is non-terminal;
   * SUCCEEDED in any case stops with `jobStatus.result.url` (`None` when absent); FAILED or
   * CANCELLED in any case stops with `None`. The five cases cover every response.
   */
  lemma ClassifyCases(v: Variant, r: Response)
    ensures r.code != 200 ==> Classify(v, r) == Stop(TransportError(v))
    ensures r.code == 200 && r.status.None? ==> Classify(v, r) == Retry
    ensures r.code == 200 && r.status.Some? && PyStr.EqualsIgnoringCase(r.status.value, "SUCCEEDED")
            ==> Classify(v, r) == Stop(Returned(r.url))
    ensures r.code == 200 && r.status.Some?
            && (PyStr.EqualsIgnoringCase(r.status.value, "FAILED") || PyStr.EqualsIgnoringCase(r.status.value, "CANCELLED"))
            ==> Classify(v, r) == Stop(Returned(None))
    ensures r.code == 200 && r.status.Some?
            && !PyStr.EqualsIgnoringCase(r.status.value, "SUCCEEDED")
            && !PyStr.EqualsIgnoringCase(r.status.value, "FAILED")
            && !PyStr.EqualsIgnoringCase(r.status.value, "CANCELLED")
            ==> Classify(v, r) == Retry
  {
    if r.code == 200 && r.status.Some? {
      var s := r.status.value;
      PyStr.UpperEqualsIff(s, "SUCCEEDED");
      PyStr.UpperEqualsIff(s, "FAILED");
      PyStr.UpperEqualsIff(s, "CANCELLED");
    }
  }

  /**
   * The two copies of the poller make the same requests and sleeps for every server; their
   * results differ only when a non-200 response stops the loop, where sendtoblob.py returns
   * `None` and test_de.py raises `NameError` for the name `none`.
   */
  lemma {:induction false} CopiesDifferOnlyOnTransportError(url: string, server: nat -> Response, r: nat, maxRetries: int)
    ensures Poll(BlobSink, url, server, r, maxRetries).trace == Poll(FileSink, url, server, r, maxRetries).trace
    ensures Poll(BlobSink, url, server, r, maxRetries).outcome.Returned?
    ensures Poll(BlobSink, url, server, r, maxRetries).outcome != Poll(FileSink, url, server, r, maxRetries).outcome
            ==> Poll(BlobSink, url, server, r, maxRetries).outcome == Returned(None)
                && Poll(FileSink, url, server, r, maxRetries).outcome == RaisedNameError("none")
    ensures Poll(FileSink, url, server, r, maxRetries).outcome.RaisedNameError?
            ==> exists i :: r <= i < maxRetries && server(i).code != 200
    decreases maxRetries - r
  {
    if r < maxRetries {
      if server(r).code == 200 {
        assert Classify(BlobSink, server(r)) == Classify(FileSink, server(r));
        if Classify(BlobSink, server(r)) == Retry {
          CopiesDifferOnlyOnTransportError(url, server, r + 1, maxRetries);
        }
      }
    }
  }

  /** PENDING is none of the terminal statuses, in any letter case. */
  lemma PendingRetries(v: Variant)
    ensures Classify(v, Response(200, Some("PENDING"), None)) == Retry
  {
    ClassifyCases(v, Response(200, Some("PENDING"), None));
    assert !PyStr.SameLetter("PENDING"[0], "FAILED"[0]);
  }

  /** `Succeeded` stops the loop with its result link. */
  lemma SucceededStops(v: Variant, link: string)
    ensures Classify(v, Response(200, Some("Succeeded"), Some(link))) == Stop(Returned(Some(link)))
  {
    assert PyStr.EqualsIgnoringCase("Succeeded", "SUCCEEDED") by {
      forall k | 0 <= k < 9 ensures PyStr.SameLetter("Succeeded"[k], "SUCCEEDED"[k]) {
        assert k == 0 || "Succeeded"[k] as int == "SUCCEEDED"[k] as int + 32;
      }
    }
    ClassifyCases(v, Response(200, Some("Succeeded"), Some(link)));
  }

  /**
   * For example, PENDING, PENDING, then Succeeded with a result link. With the
   * default budget the call returns that link after three requests and exactly two sleeps.
   */
  lemma PendingPendingSucceeded(v: Variant, url: string, link: string, server: nat -> Response)
    requires forall i: nat :: server(i) == if i < 2 then Response(200, Some("PENDING"), None)
                                          else Response(200, Some("Succeeded"), Some(link))
    ensures Poll(v, url, server, 0, DefaultMaxRetries)
         == Run(Returned(Some(link)), [Get(url), Sleep(10), Get(url), Sleep(10), Get(url)])
    ensures Requests(Poll(v, url, server, 0, DefaultMaxRetries).trace) == 3
    ensures Sleeps(Poll(v, url, server, 0, DefaultMaxRetries).trace) == 2
  {
    PendingRetries(v);
    SucceededStops(v, link);
    ScenarioPoll(v, url, server, Returned(Some(link)));
  }

  /** Two non-terminal responses and then a terminal one, at the default budget. */
  lemma ScenarioPoll(v: Variant, url: string, server: nat -> Response, o: Outcome)
    requires Classify(v, server(0)) == Retry && Classify(v, server(1)) == Retry
    requires Classify(v, server(2)) == Stop(o)
    ensures Poll(v, url, server, 0, DefaultMaxRetries) == Run(o, [Get(url), Sleep(10), Get(url), Sleep(10), Get(url)])
    ensures Requests(Poll(v, url, server, 0, DefaultMaxRetries).trace) == 3
    ensures Sleeps(Poll(v, url, server, 0, DefaultMaxRetries).trace) == 2
  {
    StopsAtFirstTerminal(v, url, server, DefaultMaxRetries, 2);
  }
}
