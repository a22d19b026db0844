/** The `POST` handler of the analyze route as a sequential state machine:
    read the body, call the upstream ensure endpoint, pick a cache key, call
    the series endpoint, summarise, and answer with a JSON envelope and a
    status code. The two upstream calls (including the deadline race) are
    inputs: each either answers with a payload, answers non-ok with a body
    text, or throws. */
module Analyze {
  import opened Js
  import opened Summary
  import opened Timeframe

  /** The request body after `req.json()`; absent fields are None / Undefined. */
  datatype Body = Body(instrument: Option<string>, tf: Option<seq<string>>, count: Cell, indicators: Option<Json>)

  /** The body posted to the upstream ensure endpoint; None fields are
      dropped by `JSON.stringify`. */
  datatype EnsureRequest = EnsureRequest(instrument: Option<string>, tf: Option<seq<string>>, count: Cell, indicators: Option<Json>)

  /** The parsed reply of the ensure endpoint. */
  datatype EnsureReply = EnsureReply(latest: Option<Json>, cacheKeys: Option<map<string, string>>)

  /** How one upstream call, wrapped in the deadline, settles: a successful
      reply whose JSON was read, a non-ok reply with its body text, a thrown
      error (network failure, unreadable JSON), or the deadline firing. */
  datatype Reply<+T> = Ok(payload: T) | NotOk(text: string) | Rejected(exn: Exn) | TimedOut

  /** An upstream call the handler issues, in order. */
  datatype Call = EnsureCall(request: EnsureRequest) | SeriesCall(key: Option<string>)

  datatype Step = EnsureStep | SeriesStep

  /** The JSON envelope: `{ok: true, latest, key, view, raw}`,
      `{ok: false, step, error}`, or `{ok: false, error}` from the catch. */
  datatype Envelope =
    | Success(latest: Option<Json>, key: Option<string>, view: View, raw: Series)
    | StepFailure(step: Step, error: string)
    | Failure(error: string)

  datatype Response = Response(envelope: Envelope, status: nat)

  /** What one request does: the upstream calls issued and the response. */
  datatype Exchange = Exchange(calls: seq<Call>, response: Response)

  const DefaultCount := 240.0
  const StatusOk: nat := 200
  const StatusBadGateway: nat := 502
  const StatusServerError: nat := 500

  /** `count = 240` in the destructuring: the default replaces only undefined. */
  function EffectiveCount(c: Cell): (r: Cell)
    ensures r != Undefined
    ensures c != Undefined ==> r == c
    ensures c == Undefined ==> r == Num(DefaultCount)
  {
    if c.Undefined? then Num(DefaultCount) else c
  }

  /** The ensure request body: the request's fields forwarded, count defaulted. */
  function RequestFor(b: Body): (r: EnsureRequest)
    ensures r.instrument == b.instrument && r.tf == b.tf && r.indicators == b.indicators
    ensures r.count != Undefined
    ensures b.count == Undefined ==> r.count == Num(DefaultCount)
    ensures b.count != Undefined ==> r.count == b.count
  {
    EnsureRequest(b.instrument, b.tf, EffectiveCount(b.count), b.indicators)
  }

  /** The catch clause: status 500 and the error's text, no step. */
  function Caught(e: Exn): (r: Response)
    ensures r.status == StatusServerError && r.envelope.Failure? && r.envelope.error == ErrorText(e)
    ensures e == TimeoutError ==> r.envelope.error == "timeout"
  {
    Response(Failure(ErrorText(e)), StatusServerError)
  }

  /** The series stage onward, once the ensure call succeeded and `key` was looked up. */
  function AfterSeries(latest: Option<Json>, key: Option<string>, seriesReply: Reply<Series>): (r: Response)
    ensures seriesReply.NotOk? ==> r == Response(StepFailure(SeriesStep, seriesReply.text), StatusBadGateway)
    ensures seriesReply.TimedOut? ==> r == Response(Failure("timeout"), StatusServerError)
    ensures seriesReply.Rejected? ==> r == Caught(seriesReply.exn)
    ensures seriesReply.Ok? && Summarize(seriesReply.payload).Abrupt? ==>
              r == Caught(Summarize(seriesReply.payload).exn)
    ensures r.envelope.Success? <==> seriesReply.Ok? && Summarize(seriesReply.payload).Normal?
    ensures r.envelope.Success? ==>
              r == Response(Success(latest, key, Summarize(seriesReply.payload).value, seriesReply.payload), StatusOk)
  {
    match seriesReply
    case TimedOut => Caught(TimeoutError)
    case Rejected(e) => Caught(e)
    case NotOk(t) => Response(StepFailure(SeriesStep, t), StatusBadGateway)
    case Ok(series) =>
      match Summarize(series)
      case Abrupt(e) => Caught(e)
      case Normal(view) => Response(Success(latest, key, view, series), StatusOk)
  }

  /** True when the handler gets as far as the series call. */
  predicate ReachesSeries(body: Completion<Body>, ensureReply: Reply<EnsureReply>) {
    body.Normal? && ensureReply.Ok? && body.value.tf.Some? && ensureReply.payload.cacheKeys.Some?
  }

  /** `POST(req)` */
  function Post(body: Completion<Body>, ensureReply: Reply<EnsureReply>, seriesReply: Reply<Series>): (x: Exchange)
    // a body that cannot be read fails before any upstream call
    ensures body.Abrupt? ==> x == Exchange([], Caught(body.exn))
    // otherwise the ensure call comes first, with count defaulted
    ensures body.Normal? ==> |x.calls| >= 1 && x.calls[0] == EnsureCall(RequestFor(body.value))
    // the series call is made only after a successful ensure, with the picked key
    ensures |x.calls| <= 2
    ensures |x.calls| == 2 <==> ReachesSeries(body, ensureReply)
    ensures |x.calls| == 2 ==>
              x.calls[1] == SeriesCall(CacheKey(ensureReply.payload.cacheKeys.value, body.value.tf.value))
    // status follows the envelope
    ensures x.response.status == StatusOk <==> x.response.envelope.Success?
    ensures x.response.status == StatusBadGateway <==> x.response.envelope.StepFailure?
    ensures x.response.status == StatusServerError <==> x.response.envelope.Failure?
    // a non-ok ensure reply is reported as the ensure step with its body text
    ensures body.Normal? && ensureReply.NotOk? ==>
              x == Exchange([EnsureCall(RequestFor(body.value))],
                            Response(StepFailure(EnsureStep, ensureReply.text), StatusBadGateway))
    ensures x.response.envelope.StepFailure? && x.response.envelope.step == EnsureStep ==>
              body.Normal? && ensureReply.NotOk?
    // a non-ok series reply is reported as the series step with its body text
    ensures x.response.envelope.StepFailure? && x.response.envelope.step == SeriesStep <==>
              ReachesSeries(body, ensureReply) && seriesReply.NotOk?
    ensures ReachesSeries(body, ensureReply) && seriesReply.NotOk? ==>
              x.response.envelope.error == seriesReply.text
    // a deadline firing on either call is a 500 with the text "timeout"
    ensures body.Normal? && ensureReply.TimedOut? ==> x.response == Response(Failure("timeout"), StatusServerError)
    ensures ReachesSeries(body, ensureReply) && seriesReply.TimedOut? ==>
              x.response == Response(Failure("timeout"), StatusServerError)
    // any other thrown error is caught: status 500, its text, no step
    ensures body.Normal? && ensureReply.Rejected? ==>
              x == Exchange([EnsureCall(RequestFor(body.value))], Caught(ensureReply.exn))
    ensures ReachesSeries(body, ensureReply) && seriesReply.Rejected? ==> x.response == Caught(seriesReply.exn)
    ensures ReachesSeries(body, ensureReply) && seriesReply.Ok? && Summarize(seriesReply.payload).Abrupt? ==>
              x.response == Caught(Summarize(seriesReply.payload).exn)
    // a missing `tf` or `cache_keys` throws after the ensure call, before the series call
    ensures body.Normal? && ensureReply.Ok? && !ReachesSeries(body, ensureReply) ==>
              |x.calls| == 1 && x.response.status == StatusServerError && x.response.envelope.Failure?
    // success needs both replies and a summary that did not throw
    ensures x.response.envelope.Success? <==>
              ReachesSeries(body, ensureReply) && seriesReply.Ok? && Summarize(seriesReply.payload).Normal?
    ensures x.response.envelope.Success? ==>
              x.response.envelope == Success(ensureReply.payload.latest, x.calls[1].key,
                                             Summarize(seriesReply.payload).value, seriesReply.payload)
  {
    match body
    case Abrupt(e) => Exchange([], Caught(e))
    case Normal(b) =>
      var sent := [EnsureCall(RequestFor(b))];
      match ensureReply
      case TimedOut => Exchange(sent, Caught(TimeoutError))
      case Rejected(e) => Exchange(sent, Caught(e))
      case NotOk(t) => Exchange(sent, Response(StepFailure(EnsureStep, t), StatusBadGateway))
      case Ok(ensured) =>
        if b.tf.None? then Exchange(sent, Caught(ReadError(false, "includes")))
        else if ensured.cacheKeys.None? then
          Exchange(sent, Caught(ReadError(false, PropertyKey(Pick(b.tf.value)))))
        else
          var key := CacheKey(ensured.cacheKeys.value, b.tf.value);
          Exchange(sent + [SeriesCall(key)], AfterSeries(ensured.latest, key, seriesReply))
  }

  /** The series reply matters only once the series call is issued: before
      that, any two series replies give the same exchange. */
  lemma SeriesReplyUnusedBeforeSeriesCall(body: Completion<Body>, ensureReply: Reply<EnsureReply>,
                                         s1: Reply<Series>, s2: Reply<Series>)
    requires !ReachesSeries(body, ensureReply)
    ensures Post(body, ensureReply, s1) == Post(body, ensureReply, s2)
    ensures |Post(body, ensureReply, s1).calls| <= 1
  {
  }

  /** Whatever goes wrong before a summary exists, no `raw` payload is returned. */
  lemma FailureBeforeSeriesHasNoRaw(body: Completion<Body>, ensureReply: Reply<EnsureReply>, seriesReply: Reply<Series>)
    requires !ensureReply.Ok? || !seriesReply.Ok?
    ensures !Post(body, ensureReply, seriesReply).response.envelope.Success?
  {
  }

  /** A constant series of `n` bars. */
  function Flat(n: nat, v: real): seq<Cell> {
    seq(n, _ => Num(v))
  }

  /** Request tf = [M15, H1, D1] against cache keys {M15: k1, H1: k2, H4: k3}:
      the series call uses k2 and the success envelope reports it. */
  lemma ScenarioPreferredKey(series: Series)
    requires Summarize(series).Normal?
    ensures var body := Body(Some("USD_JPY"), Some(["M15", "H1", "D1"]), Undefined, None);
            var keys := map["M15" := "k1", "H1" := "k2", "H4" := "k3"];
            var x := Post(Normal(body), Ok(EnsureReply(None, Some(keys))), Ok(series));
            && x.calls == [EnsureCall(EnsureRequest(Some("USD_JPY"), Some(["M15", "H1", "D1"]), Num(240.0), None)),
                           SeriesCall(Some("k2"))]
            && x.response.status == 200
            && x.response.envelope.key == Some("k2")
  {
  }

  /** The ensure endpoint answering non-ok with body "boom" yields
      `{ok: false, step: "ensure", error: "boom"}` with status 502. */
  lemma ScenarioEnsureBoom(body: Body, seriesReply: Reply<Series>)
    ensures Post(Normal(body), NotOk("boom"), seriesReply).response ==
            Response(StepFailure(EnsureStep, "boom"), 502)
  {
  }

  /** RSI 75 with close 112 above the upper band 110 (lower 100): the notes
      are an overbought RSI note followed by the upper-band note. */
  lemma ScenarioOverboughtUpperBand()
    ensures var bands := Bands(Some(Flat(30, 105.0)), Some(Flat(30, 110.0)), Some(Flat(30, 100.0)));
            var s := Series(Some(Ohlcv(Some(Flat(30, 0.0)), Some(Flat(30, 112.0)))),
                            Some(Indicators(Some(Flat(30, 75.0)), Some(bands), None)));
            Summarize(s) == Normal(Notes(Num(112.0), [RsiOverbought(75.0), BandUpper]))
  {
    var bands := Bands(Some(Flat(30, 105.0)), Some(Flat(30, 110.0)), Some(Flat(30, 100.0)));
    var s := Series(Some(Ohlcv(Some(Flat(30, 0.0)), Some(Flat(30, 112.0)))),
                    Some(Indicators(Some(Flat(30, 75.0)), Some(bands), None)));
    assert BarCount(s) == 30;
    assert RsiRule(RsiArray(s), 29) == Normal([RsiOverbought(75.0)]);
    assert BandRule(BandsOf(s), Num(112.0), 29) == Normal([BandUpper]);
    assert MacdRule(MacdOf(s), 29) == Normal([]);
    assert ReadLast(s.ohlcv.value.close, 29) == Normal(Num(112.0));
    assert [RsiOverbought(75.0)] + [BandUpper] + [] == [RsiOverbought(75.0), BandUpper];
  }

  /** The same scenario without a mid array: reading `bb.mid[lastIdx]` throws,
      so the summary fails and the request ends in a 500 without a step. */
  lemma ScenarioBandsWithoutMidThrow(body: Body, ensured: EnsureReply)
    requires body.tf.Some? && ensured.cacheKeys.Some?
    ensures var bands := Bands(None, Some(Flat(30, 110.0)), Some(Flat(30, 100.0)));
            var s := Series(Some(Ohlcv(Some(Flat(30, 0.0)), Some(Flat(30, 112.0)))),
                            Some(Indicators(Some(Flat(30, 75.0)), Some(bands), None)));
            && Throws(s)
            && Summarize(s).Abrupt?
            && Post(Normal(body), Ok(ensured), Ok(s)).response.status == StatusServerError
            && Post(Normal(body), Ok(ensured), Ok(s)).response.envelope.Failure?
  {
  }
}
