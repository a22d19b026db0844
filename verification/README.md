# fx-bff analyze route — Dafny model

This project models the analyze endpoint of the fx-bff backend-for-frontend
(`app/api/analyze/route.ts`). The endpoint takes an instrument, a list of
timeframes, a bar count and indicator settings. It asks the upstream indicators
service to compute and cache ("ensure"). It picks one timeframe and fetches that
timeframe's series by cache key. It then turns the last bar into a few rule-based
notes and answers with a JSON envelope and an HTTP status.

The model follows the code as written. In particular:

- The handler does not validate the instrument, rename, de-duplicate or filter timeframes, apply presets, or compute an ADX note.
- The summary never falls back to a "no signal" text. With no notes it is just the close header.
- The MACD rule reads the sign of the histogram. It does not compare the MACD line with the signal line.
- The Bollinger rule tests the upper band first, so a close that touches both bands gives the upper-band note.
- A missing cache key is not a separate failure stage. The series call is made with an undefined key.
- A timeout has no step tag of its own. Like every other thrown error, it gives a 500 envelope without `step`.
- The success envelope carries the summary under `view`.

Modules:

- `Js` (`js.dfy`): the runtime behaviour the handler depends on.
  - Array cells are a number, `null`, or `undefined` past the end of the array.
  - `<=` and `>=` go through ToNumber: `null` becomes 0 and `undefined` becomes NaN, so every comparison with it is false.
  - Truthiness, `Array.prototype.includes`, and the `"undefined"` property key of an undefined index.
  - `String(e?.message || e)` on a caught error.
- `Summary` (`summary.dfy`): `summarize` over a series datatype. The output is
  `ReferenceOnly` or a close header with tagged notes (`RsiOverbought`,
  `RsiOversold`, `RsiPlain`, `BandUpper`, `BandLower`, `BandMid`, `MacdHist`).
  The notes stand in for the formatted strings.
- `Timeframe` (`timeframe.dfy`): the H1-preferring timeframe pick and the cache-key lookup.
- `Analyze` (`analyze.dfy`): `POST` as a pure function.
  - Inputs: the body read, and how each upstream call settled (`Ok`, `NotOk` with body text, `Rejected` with an error, `TimedOut`).
  - Output: an `Exchange`, which is the list of upstream calls issued plus the response (envelope and status).

Edge cases the model reproduces from the code:

- An RSI value of `null` at the last bar satisfies `null <= 30`. The oversold
  branch then calls `toFixed` on `null`, which throws, so the request ends in a 500.
- An RSI array that is too short gives the plain note with the value `undefined`.
- When neither band is touched, a mid band value of 0, `null` or `undefined` gives no band note.
- An empty `tf` list picks `tf[0]`, which is undefined, so the lookup uses the property name `"undefined"`.
- A missing `tf` still sends the ensure call. `tf.includes` then throws, which gives a 500.
- `count` defaults to 240 only when it is absent. An explicit `null` is forwarded unchanged.

## Model

| member | source | states |
|---|---|---|
| Js.Includes | app/api/analyze/route.ts:41 | `tf.includes(x)` is a scan that holds exactly when `x` is a member of `tf` |
| Js.ErrorText | app/api/analyze/route.ts:55 | the caught error's text is its message when that is non-empty, else its name; it is empty only when both are |
| Js.ComparisonSemantics | app/api/analyze/route.ts:73-81 | `>=` and `<=` on array cells (`AtLeast`, `AtMost`) are converses; they fail together exactly when undefined (NaN) is involved; null compares as 0; `if (mid)` (`Truthy`) holds exactly for nonzero numbers |
| Timeframe.Pick | app/api/analyze/route.ts:41 | the pick is "H1" whenever "H1" is requested; otherwise it is the first entry; an empty list picks undefined; a pick is always a requested timeframe |
| Timeframe.CacheKey | app/api/analyze/route.ts:42 | the key is the `cache_keys` entry of the picked timeframe, or undefined when the map lacks it; an empty list looks up "undefined" |
| Timeframe.PreferredWinsAnywhere | app/api/analyze/route.ts:41 | "H1" is picked whatever comes before or after it |
| Timeframe.PickIgnoresTailOrder | app/api/analyze/route.ts:41 | two requests with the same first entry and the same timeframes in any order pick the same timeframe |
| Summary.BarCount | app/api/analyze/route.ts:61 | the bar count is exactly the length of `ohlcv.time` when it is present, and 0 when the price data or the time array is missing |
| Summary.MissingTimeIsReferenceOnly | app/api/analyze/route.ts:61-62 | a series without price data or timestamps yields only the reference result, whatever its indicators |
| Summary.ReadLast | app/api/analyze/route.ts:65-78 | indexing a present array yields its cell at the last bar, or undefined past its end; a missing array throws |
| Summary.RsiRule | app/api/analyze/route.ts:71-76 | no RSI array gives no note; otherwise exactly one RSI note: overbought iff value >= 70, else oversold iff <= 30, else plain; undefined gives plain; null throws |
| Summary.BandRule | app/api/analyze/route.ts:77-82 | at most one band note: upper when close >= upper even if close <= lower, else lower when close <= lower, else the mid value only when it is a nonzero number; a missing band array throws |
| Summary.MacdRule | app/api/analyze/route.ts:83-88 | a MACD note iff the histogram at the last bar is a number (not null or undefined), bullish iff it is > 0, so 0 is bearish; a missing histogram array throws |
| Summary.Summarize | app/api/analyze/route.ts:60-90 | fewer than 30 bars (missing time array counts as 0) gives the reference-only result; otherwise it throws exactly when `Throws` holds, and else gives the last close as header and notes in RSI, BB, MACD order, at most 3 |
| Summary.RankOrderedBound | app/api/analyze/route.ts:70-89 | notes in strict rule order can number at most three |
| Summary.SummaryIsConcatenation | app/api/analyze/route.ts:70-89 | a successful summary of a long series is the RSI rule's notes, then the band rule's, then the MACD rule's, none of the rules having thrown |
| Summary.NotesByRule | app/api/analyze/route.ts:70-89 | the notes of each rule in a summary are exactly what that rule emitted |
| Summary.RsiNoteOfSummary | app/api/analyze/route.ts:71-76 | a summary holds one RSI note, decided by zone, when the RSI array is present, and none otherwise |
| Summary.BandNoteOfSummary | app/api/analyze/route.ts:77-82 | a summary holds at most one band note, decided upper, then lower, then truthy mid |
| Summary.MacdNoteOfSummary | app/api/analyze/route.ts:83-88 | a summary holds a MACD note iff the last histogram value is a number, bullish iff positive |
| Analyze.EffectiveCount | app/api/analyze/route.ts:23 | an absent count becomes 240; any other value, null included, is forwarded unchanged |
| Analyze.RequestFor | app/api/analyze/route.ts:23-30 | the ensure request forwards instrument, `tf` and indicators unchanged; its count is never undefined: 240 when absent, else the given value |
| Analyze.AfterSeries | app/api/analyze/route.ts:43-53 | from the series reply on: non-ok gives step "series" with its text and 502; a timeout gives 500 "timeout"; a rejection or a throwing summary gives the caught error; success iff the reply is ok and the summary does not throw, carrying latest, key, view and raw |
| Analyze.Caught | app/api/analyze/route.ts:54-55 | a thrown error becomes status 500 with the error's text and no step; the deadline's error reads "timeout" |
| Analyze.Post | app/api/analyze/route.ts:21-56 | details in the list below |
| Analyze.SeriesReplyUnusedBeforeSeriesCall | app/api/analyze/route.ts:34-47 | when the series call is not reached, the series reply cannot affect the exchange, and at most the ensure call was made |
| Analyze.FailureBeforeSeriesHasNoRaw | app/api/analyze/route.ts:26-53 | if either upstream call does not succeed, including a timeout, there is no success envelope and so no `raw` payload |
| Analyze.ScenarioPreferredKey | app/api/analyze/route.ts:41-43 | tf [M15, H1, D1] with keys {M15: k1, H1: k2, H4: k3} sends count 240 to ensure, fetches series k2 and reports key k2 |
| Analyze.ScenarioEnsureBoom | app/api/analyze/route.ts:34-37 | ensure answering non-ok with "boom" yields step "ensure", error "boom", status 502 |
| Analyze.ScenarioOverboughtUpperBand | app/api/analyze/route.ts:71-82 | a 30-bar series with RSI 75, bands lower 100, mid 105, upper 110 and close 112 gives the overbought note followed by the upper-band note; the mid array must be present, see the next row |
| Analyze.ScenarioBandsWithoutMidThrow | app/api/analyze/route.ts:77-78 | the same series with no mid array throws when `bb.mid[lastIdx]` is read, so the request ends in a 500 without a step |

What the contract of `Analyze.Post` states:

- An unreadable body gives a 500 and no upstream call.
- Otherwise the ensure call comes first, with `count` defaulted.
- The series call, with the picked key, is made iff ensure succeeded and both `tf` and `cache_keys` exist.
- A non-ok ensure reply gives step "ensure" with the body text and status 502, and no series call.
- A non-ok series reply gives step "series" with its text and status 502.
- A timeout on either call gives 500 with the error "timeout".
- A rejected ensure or series call, or a summary that throws, gives 500 with that error's text.
- A missing `tf` or `cache_keys` gives 500 after the ensure call and before any series call.
- Status 200, 502 and 500 match the success, step-failure and caught-error envelopes one to one.
- Success holds iff both calls succeed and the summary does not throw. The success envelope carries `latest`, the looked-up key, the view and the raw series.

## Left out

- `withTimeout` (route.ts:14-19) is a `Promise.race` against an 8000 ms timer. Timers and concurrency are not modelled. The race surfaces only as the `TimedOut` reply, which rejects with `Error("timeout")`. The losing request is not modelled.
- `fetch`, `req.json()`, `.text()`, `.json()`, `NextResponse.json`, `encodeURIComponent` and `process.env` are I/O and library calls. Their results are inputs.
  - A body that cannot be read or destructured is an `Abrupt` body.
  - A reply whose JSON cannot be read is a `Rejected` reply.
  - The URL encoding of the key is not modelled, and neither is the base URL.
  - A `.text()` call that rejects is not modelled.
- The `toFixed` formatting, the message strings, the `" / "` join and the newline after the close header are text formatting. Notes are tags that carry the underlying values.
- The JSON payloads are assumed to have the expected shapes.
  - Array cells are numbers, `null` or `undefined`. NaN, strings and other JSON types in numeric arrays are not modelled.
  - `series` itself is always an object.
  - Fields and arrays are present or absent, never `null`. This covers the request's `instrument`, `tf` and `indicators`, and the series' `ohlcv`, `ohlcv.time`, `ohlcv.close`, `indicators`, `bb`, `bb.mid`/`upper`/`lower`, `macd`, `macd.hist`, `latest` and `cache_keys`. The code treats a `null` field differently from an absent one. `JSON.stringify` forwards `"tf": null` upstream but drops an undefined field. Reading an index of a `null` array throws "Cannot read properties of null", where the model builds the "of undefined" wording. Array cells are the exception: `null` cells are modelled.
  - `tf` is an array of strings when present.
  - Thrown values are Error objects.
- Timeframe.CacheKey: treats every name absent from the `cache_keys` map as undefined. In JavaScript the lookup also finds names inherited from `Object.prototype`, such as `toString`, `constructor` or `__proto__`. With such a timeframe the series URL would carry the string form of a function or object. Inherited names are not modelled because the model has no representation of the object prototype chain.
- Analyze.RequestFor: `count` is a number, `null` or absent in this model. The handler forwards any other JSON value, such as the string `"240"`, unchanged; such values are not modelled.
- Js.ReadError: the text of a runtime TypeError is engine-defined. The model uses V8's wording for reading a property of undefined, or of a null RSI value. It does not prove anything about that text.
- `app/api/health/route.ts` (a liveness passthrough) and `app/layout.tsx` (page metadata) are not part of this model.
- Instrument validation, timeframe canonicalisation, de-duplication, presets and merging, the ADX rule, and the `cache_key`, `validate`, `parse`, `auth` and `timeout` step tags are not in the code and are not modelled.
