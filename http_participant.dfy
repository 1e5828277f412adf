/** The callback dispatcher of lib/scriptoria-core/http_participant.rb: the
    backoff formula, the retry-or-give-up decision, the 2xx success rule and
    the control flow of the activation and cancellation callbacks. The HTTP
    call is an input (`Outcome`); the engine's `re_dispatch` and `super` are
    returned as a `Reaction` instead of being performed. */
module HttpParticipant {
  import opened Json
  import opened Results
  import opened Decimal
  import opened Workitems

  /** After this many retries the activation callback gives up. */
  const MaxRetries: nat := 10

  /** The only request header sent. */
  const ContentType: string := "application/json"

  // ---------------------------------------------------------------------
  // Backoff

  function Pow(b: nat, e: nat): nat
    decreases e
  {
    if e == 0 then 1 else b * Pow(b, e - 1)
  }

  lemma {:induction false} PowZeroIff(b: nat, e: nat)
    requires e > 0
    ensures Pow(b, e) == 0 <==> b == 0
    decreases e
  {
    if e > 1 {
      PowZeroIff(b, e - 1);
    }
  }

  lemma {:induction false} PowStrictlyIncreasing(a: nat, b: nat, e: nat)
    requires a < b && e > 0
    ensures Pow(a, e) < Pow(b, e)
    decreases e
  {
    if e == 1 {
      assert Pow(a, 0) == 1 && Pow(b, 0) == 1;
    } else {
      PowStrictlyIncreasing(a, b, e - 1);
      var pa, pb := Pow(a, e - 1), Pow(b, e - 1);
      assert a * pa <= a * pb;
      assert a * pb < b * pb;
    }
  }

  /** `seconds_to_delay`: `count ** 5 + 30`. At least 30, and 30 only for
      the first retry. */
  function SecondsToDelay(count: nat): (d: nat)
    ensures d >= 30
    ensures d == 30 <==> count == 0
    ensures d - 30 == Pow(count, 5)
  {
    PowZeroIff(count, 5);
    Pow(count, 5) + 30
  }

  /** Each retry waits strictly longer than the one before. */
  lemma DelayStrictlyIncreasing(m: nat, n: nat)
    requires m < n
    ensures SecondsToDelay(m) < SecondsToDelay(n)
  {
    PowStrictlyIncreasing(m, n, 5);
  }

  /** The delays at counts 0, 1 and 2, and at MAX_RETRIES. */
  lemma DelayValues()
    ensures SecondsToDelay(0) == 30 && SecondsToDelay(1) == 31
    ensures SecondsToDelay(2) == 62 && SecondsToDelay(10) == 100030
  {
  }

  /** The time of retry `k` after the first attempt, when every attempt
      fails and the engine redelivers without delay of its own: the sum of
      the delays of retries 0..k. */
  function CumulativeDelay(k: nat): (t: nat)
    ensures t >= SecondsToDelay(k)
    decreases k
  {
    if k == 0 then SecondsToDelay(0) else CumulativeDelay(k - 1) + SecondsToDelay(k)
  }

  /** The table in the comment above `seconds_to_delay`. */
  const DocumentedRetryTimes: seq<nat> :=
    [30, 61, 123, 396, 1450, 4605, 12411, 29248, 62046, 121125, 221155]

  /** The documented table is the running sum of the formula. */
  lemma RetryTimesMatchDocumentation()
    ensures |DocumentedRetryTimes| == MaxRetries + 1
    ensures forall k :: 0 <= k <= MaxRetries ==> CumulativeDelay(k) == DocumentedRetryTimes[k]
  {
    assert CumulativeDelay(0) == 30;
    assert CumulativeDelay(1) == 61;
    assert CumulativeDelay(2) == 123;
    assert CumulativeDelay(3) == 396;
    assert CumulativeDelay(4) == 1450;
    assert CumulativeDelay(5) == 4605;
    assert CumulativeDelay(6) == 12411;
    assert CumulativeDelay(7) == 29248;
    assert CumulativeDelay(8) == 62046;
    assert CumulativeDelay(9) == 121125;
    assert CumulativeDelay(10) == 221155;
  }

  // ---------------------------------------------------------------------
  // Retry decision

  /** What `attempt_retry` does: ask for a redispatch after the delay, or
      raise `RetriesExceededError`. */
  datatype RetryDecision = Redispatch(delay: nat) | GiveUp

  /** `attempt_retry` for a work item redispatched `count` times. */
  function AttemptRetry(count: nat): (r: RetryDecision)
    ensures r.Redispatch? <==> count <= MaxRetries
    ensures r.Redispatch? ==> r.delay == SecondsToDelay(count)
  {
    if count <= MaxRetries then Redispatch(SecondsToDelay(count)) else GiveUp
  }

  /** The argument of `re_dispatch(in: ...)`: the delay in decimal followed
      by "s". */
  function RedispatchArgument(delay: nat): (a: string)
    ensures |a| >= 2 && a[|a| - 1] == 's'
    ensures AllDigits(a[..|a| - 1]) && StringToNat(a[..|a| - 1]) == delay
    ensures a[0] == '0' ==> delay == 0
  {
    NatToStringRoundTrip(delay);
    var a := NatToString(delay) + "s";
    assert a[..|a| - 1] == NatToString(delay);
    a
  }

  lemma FirstRedispatchArgument()
    ensures AttemptRetry(0) == Redispatch(30)
    ensures RedispatchArgument(30) == "30s"
  {
  }

  /** The delays scheduled, in order, when every activation callback from
      redispatch count `count` on fails: each redispatch is delivered again
      with the count one higher, until `attempt_retry` gives up. */
  function ScheduledDelays(count: nat): (s: seq<nat>)
    ensures count <= MaxRetries ==> |s| <= MaxRetries + 1 - count
    ensures count > MaxRetries ==> s == []
    decreases MaxRetries + 1 - count
  {
    match AttemptRetry(count)
    case Redispatch(d) => [d] + ScheduledDelays(count + 1)
    case GiveUp => []
  }

  /** At most eleven redispatches are ever scheduled, the i-th after
      `seconds_to_delay(count + i)`. */
  lemma {:induction false} ScheduledDelaysShape(count: nat)
    ensures |ScheduledDelays(count)| == if count <= MaxRetries then MaxRetries + 1 - count else 0
    ensures forall i :: 0 <= i < |ScheduledDelays(count)| ==>
      ScheduledDelays(count)[i] == SecondsToDelay(count + i)
    decreases MaxRetries + 1 - count
  {
    if count <= MaxRetries {
      ScheduledDelaysShape(count + 1);
      var s := ScheduledDelays(count);
      assert s == [SecondsToDelay(count)] + ScheduledDelays(count + 1);
      forall i | 0 <= i < |s| ensures s[i] == SecondsToDelay(count + i) {
        if i > 0 {
          assert s[i] == ScheduledDelays(count + 1)[i - 1];
        }
      }
    }
  }

  function Sum(s: seq<nat>): nat
    decreases |s|
  {
    if s == [] then 0 else Sum(s[..|s| - 1]) + s[|s| - 1]
  }

  /** A sequence whose i-th entry is `seconds_to_delay(i)` has the running
      sums of the retry table as its prefix sums. */
  lemma {:induction false} PrefixSumsAreCumulative(s: seq<nat>, k: nat)
    requires k < |s|
    requires forall i :: 0 <= i < |s| ==> s[i] == SecondsToDelay(i)
    ensures Sum(s[..k + 1]) == CumulativeDelay(k)
    decreases k
  {
    if k == 0 {
      assert s[..1] == [s[0]];
      assert s[..1][..0] == [];
    } else {
      PrefixSumsAreCumulative(s, k - 1);
      assert s[..k + 1][..k] == s[..k];
    }
  }

  /** From the first attempt, the first k + 1 scheduled delays add up to the
      time of retry k in the documented table. */
  lemma ScheduledDelaysAddUp(k: nat)
    requires k <= MaxRetries
    ensures |ScheduledDelays(0)| == MaxRetries + 1
    ensures Sum(ScheduledDelays(0)[..k + 1]) == CumulativeDelay(k)
  {
    ScheduledDelaysShape(0);
    PrefixSumsAreCumulative(ScheduledDelays(0), k);
  }

  // ---------------------------------------------------------------------
  // The HTTP call

  /** What the POST produced: a response with a status code, or an
      exception raised by the transport. */
  datatype Outcome = Response(code: int) | TransportError

  /** The success rule of `make_callback_request!`: a 2xx response. */
  function RequestSucceeded(o: Outcome): (ok: bool)
    ensures ok <==> o.Response? && 200 <= o.code < 300
  {
    match o
    case Response(code) => code >= 200 && code < 300
    case TransportError => false
  }

  /** The rule is the Successful class of section 15.3 of RFC 9110: the
      first digit of the three-digit code is 2. */
  lemma SuccessIsClassTwo(o: Outcome)
    requires o.Response? && 100 <= o.code <= 599
    ensures RequestSucceeded(o) <==> o.code / 100 == 2
  {
  }

  /** The POST `make_callback_request!` sends. */
  datatype Request = Request(url: Value, contentType: string, body: Value)

  /** The request for a callback of the given kind, or the exception
      `callback_url` raises. The payload is the one for that kind. */
  function CallbackRequest(rw: RuoteWorkitem, kind: CallbackKind, baseUrl: string)
    : (r: Result<Request, WorkitemError>)
    reads rw
    ensures r.Failure? <==> CallbackUrlIn(rw.fields, rw.participantName).Failure?
    ensures r.Failure? ==> r.error == CallbackUrlIn(rw.fields, rw.participantName).error
    ensures r.Success? ==>
      && r.value.url == CallbackUrlIn(rw.fields, rw.participantName).value
      && r.value.contentType == ContentType
      && r.value.body == PayloadJson(CallbackPayloadFor(kind, baseUrl, rw.wfid, rw.storageId,
                                                        rw.participantName, rw.fields))
  {
    var payload := CallbackPayloadFor(kind, baseUrl, rw.wfid, rw.storageId, rw.participantName, rw.fields);
    match CallbackUrlIn(rw.fields, rw.participantName)
    case Failure(e) => Failure(e)
    case Success(url) => Success(Request(url, ContentType, PayloadJson(payload)))
  }

  /** What `make_callback_request!` did once the URL was found: the request
      it posted and whether the response counted as a success. */
  datatype Posted = Posted(request: Request, ok: bool)

  /** `make_callback_request!`: it posts the request for the given kind, to
      the participant's callback URL, with the payload for that kind; `ok`
      is `true` exactly for a 2xx response, and any transport exception
      inside the `begin`/`rescue` yields `false`. The URL lookup happens
      before that block, so its exception propagates whatever the outcome
      would have been. */
  function MakeCallbackRequest(rw: RuoteWorkitem, kind: CallbackKind, baseUrl: string, o: Outcome)
    : (r: Result<Posted, WorkitemError>)
    reads rw
    ensures r.Failure? <==> CallbackUrlIn(rw.fields, rw.participantName).Failure?
    ensures r.Failure? ==> r.error == CallbackUrlIn(rw.fields, rw.participantName).error
    ensures r.Success? ==>
      && r.value.request == CallbackRequest(rw, kind, baseUrl).value
      && r.value.request.url == CallbackUrlIn(rw.fields, rw.participantName).value
      && r.value.request.contentType == ContentType
      && PayloadFromJson(r.value.request.body) ==
           Some(CallbackPayloadFor(kind, baseUrl, rw.wfid, rw.storageId, rw.participantName, rw.fields))
      && (r.value.ok <==> o.Response? && 200 <= o.code < 300)
  {
    PayloadJsonRoundTrip(CallbackPayloadFor(kind, baseUrl, rw.wfid, rw.storageId, rw.participantName, rw.fields));
    match CallbackRequest(rw, kind, baseUrl)
    case Failure(e) => Failure(e)
    case Success(request) => Success(Posted(request, RequestSucceeded(o)))
  }

  /** The exceptions that leave a participant handler. */
  datatype Fault =
    | Callback(error: WorkitemError)
    | RetriesExceededError
    | ArgumentError

  /** What a handler did: it ran to the end, calling `super`, after asking
      for a redispatch (with the `in:` argument) or not; or it raised. */
  datatype Reaction = Handled(reDispatchIn: Option<string>) | Raised(fault: Fault)

  /** `on_workitem`: the activation callback. Success hands over to
      `super`; failure asks `attempt_retry`, which redispatches after
      `seconds_to_delay(count)` while `count <= MAX_RETRIES` and raises after
      that; a missing URL is raised at once. */
  method OnWorkitem(rw: RuoteWorkitem, reDispatchCount: nat, baseUrl: string, o: Outcome)
    returns (r: Reaction, sent: Option<Request>)
    ensures sent.Some? <==> CallbackUrlIn(rw.fields, rw.participantName).Success?
    ensures sent.Some? ==> Success(sent.value) == CallbackRequest(rw, Activation, baseUrl)
    ensures sent.Some? ==>
      PayloadFromJson(sent.value.body).Some? && PayloadFromJson(sent.value.body).value.status == Active
    ensures CallbackUrlIn(rw.fields, rw.participantName).Failure? ==>
      r == Raised(Callback(CallbackUrlIn(rw.fields, rw.participantName).error))
    ensures CallbackUrlIn(rw.fields, rw.participantName).Success? ==>
      && (RequestSucceeded(o) ==> r == Handled(None))
      && (!RequestSucceeded(o) && reDispatchCount <= MaxRetries ==>
            r == Handled(Some(RedispatchArgument(SecondsToDelay(reDispatchCount)))))
      && (!RequestSucceeded(o) && reDispatchCount > MaxRetries ==> r == Raised(RetriesExceededError))
  {
    var made := MakeCallbackRequest(rw, Activation, baseUrl, o);
    match made {
      case Failure(e) =>
        r, sent := Raised(Callback(e)), None;
      case Success(posted) =>
        sent := Some(posted.request);
        if posted.ok {
          r := Handled(None);
        } else {
          var decision := AttemptRetry(reDispatchCount);
          match decision {
            case Redispatch(delay) =>
              r := Handled(Some(RedispatchArgument(delay)));
            case GiveUp =>
              r := Raised(RetriesExceededError);
          }
        }
    }
  }

  /** `on_cancel`: the cancellation callback is posted once; whatever the
      outcome, nothing is redispatched and `super` follows. Only a missing
      URL raises. */
  method OnCancel(rw: RuoteWorkitem, baseUrl: string, o: Outcome) returns (r: Reaction, sent: Option<Request>)
    ensures r.Raised? <==> CallbackUrlIn(rw.fields, rw.participantName).Failure?
    ensures r.Raised? ==> r.fault == Callback(CallbackUrlIn(rw.fields, rw.participantName).error)
    ensures r.Handled? ==> r.reDispatchIn == None
    ensures sent.Some? <==> CallbackUrlIn(rw.fields, rw.participantName).Success?
    ensures sent.Some? ==> Success(sent.value) == CallbackRequest(rw, Cancellation, baseUrl)
    ensures sent.Some? ==>
      PayloadFromJson(sent.value.body).Some? &&
      PayloadFromJson(sent.value.body).value.status ==
        (if StatusOf(rw.fields) == Active then Cancel else StatusOf(rw.fields))
  {
    var made := MakeCallbackRequest(rw, Cancellation, baseUrl, o);
    match made {
      case Failure(e) =>
        r, sent := Raised(Callback(e)), None;
      case Success(posted) =>
        r, sent := Handled(None), Some(posted.request);
    }
  }

  // ---------------------------------------------------------------------
  // The call as written

  /** Ruby's argument-count check for a method whose parameters are all
      required positional ones, with no optional or rest parameters:
      calling a method that declares `declared` of them with `given`
      arguments raises ArgumentError before its body runs, unless the two
      agree. */
  function ArityCheck(declared: nat, given: nat): (r: Option<Fault>)
    ensures r.Some? <==> declared != given
    ensures r.Some? ==> r.value == ArgumentError
  {
    if declared == given then None else Some(ArgumentError)
  }

  /** The number of parameters `callback_payload` declares in workitem.rb:
      none, and no optional or rest parameters either. */
  const CallbackPayloadArity: nat := 0

  /** `make_callback_request!` against a `callback_payload` that declares
      `payloadArity` required positional parameters, with no optional or
      rest parameters. Line 66 calls it with one argument, `state`,
      before anything else is done; with one parameter the call succeeds and
      the rest is `MakeCallbackRequest`. */
  function MakeCallbackRequestAgainst(payloadArity: nat, rw: RuoteWorkitem, kind: CallbackKind,
                                      baseUrl: string, o: Outcome)
    : (r: Result<Posted, Fault>)
    reads rw
    ensures payloadArity != 1 ==> r == Failure(ArgumentError)
    ensures payloadArity == 1 ==>
      && (r.Failure? <==> MakeCallbackRequest(rw, kind, baseUrl, o).Failure?)
      && (r.Failure? ==> r.error == Callback(MakeCallbackRequest(rw, kind, baseUrl, o).error))
      && (r.Success? ==> r.value == MakeCallbackRequest(rw, kind, baseUrl, o).value)
  {
    match ArityCheck(payloadArity, 1)
    case Some(fault) => Failure(fault)
    case None =>
      match MakeCallbackRequest(rw, kind, baseUrl, o)
      case Failure(e) => Failure(Callback(e))
      case Success(posted) => Success(posted)
  }

  /** `make_callback_request!` as written, against the parameterless
      `callback_payload`: every call raises ArgumentError before any request
      is made. */
  function MakeCallbackRequestAsWritten(rw: RuoteWorkitem, kind: CallbackKind, baseUrl: string, o: Outcome)
    : (r: Result<Posted, Fault>)
    reads rw
    ensures r == Failure(ArgumentError)
  {
    MakeCallbackRequestAgainst(CallbackPayloadArity, rw, kind, baseUrl, o)
  }

  /** `on_workitem` as written: the ArgumentError leaves
      `make_callback_request!`, is rescued at line 28 and raised again, so
      nothing is posted and neither `attempt_retry` nor `super` runs. */
  method OnWorkitemAsWritten(rw: RuoteWorkitem, reDispatchCount: nat, baseUrl: string, o: Outcome)
    returns (r: Reaction, sent: Option<Request>)
    ensures r == Raised(ArgumentError)
    ensures sent == None
  {
    var made := MakeCallbackRequestAsWritten(rw, Activation, baseUrl, o);
    match made {
      case Failure(fault) =>
        r, sent := Raised(fault), None;
      case Success(posted) =>
        r, sent := Handled(None), Some(posted.request);
    }
  }

  /** Every callback fails as written, even one the corrected model posts
      and reports as a success. */
  lemma AsWrittenCallbackAlwaysRaises(rw: RuoteWorkitem, kind: CallbackKind, baseUrl: string)
    requires CallbackUrlIn(rw.fields, rw.participantName).Success?
    ensures MakeCallbackRequestAsWritten(rw, kind, baseUrl, Response(200)) == Failure(ArgumentError)
    ensures MakeCallbackRequestAgainst(1, rw, kind, baseUrl, Response(200)).Success?
    ensures MakeCallbackRequestAgainst(1, rw, kind, baseUrl, Response(200)).value.ok
  {
  }
}
