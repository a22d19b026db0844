/** The rule-based note generator `summarize` of the analyze route: from the
    last bar of a series it derives a close-price header and a short list of
    categorical notes (RSI zone, Bollinger band touch, MACD histogram sign).
    The formatted text is abstracted into tagged notes carrying the values. */
module Summary {
  import opened Js

  /** Price data; only the number of timestamps and the close prices are read. */
  datatype Ohlcv = Ohlcv(time: Option<seq<Cell>>, close: Option<seq<Cell>>)

  datatype Bands = Bands(mid: Option<seq<Cell>>, upper: Option<seq<Cell>>, lower: Option<seq<Cell>>)

  datatype Macd = Macd(hist: Option<seq<Cell>>)

  datatype Indicators = Indicators(rsi: Option<seq<Cell>>, bb: Option<Bands>, macd: Option<Macd>)

  /** The payload of the upstream series call. */
  datatype Series = Series(ohlcv: Option<Ohlcv>, indicators: Option<Indicators>)

  /** Fewer bars than this yield only the reference note. */
  const MinBars: nat := 30
  const OverboughtLevel := 70.0
  const OversoldLevel := 30.0

  /** One note. `RsiPlain` carries a cell because an RSI array too short to
      reach the last bar is reported as "undefined". */
  datatype Note =
    | RsiOverbought(rsi: real)
    | RsiOversold(rsi: real)
    | RsiPlain(value: Cell)
    | BandUpper
    | BandLower
    | BandMid(mid: real)
    | MacdHist(hist: real, bullish: bool)

  /** What `summarize` returns: the fixed short-series message, or the close
      header followed by the notes. */
  datatype View = ReferenceOnly | Notes(close: Cell, notes: seq<Note>)

  /** Position of a note's rule in the fixed output order RSI, BB, MACD. */
  function Rank(n: Note): nat {
    match n
    case RsiOverbought(_) => 0
    case RsiOversold(_) => 0
    case RsiPlain(_) => 0
    case BandUpper => 1
    case BandLower => 1
    case BandMid(_) => 1
    case MacdHist(_, _) => 2
  }

  /** Notes appear in rule order, at most one per rule. */
  predicate RankOrdered(notes: seq<Note>) {
    forall i, j :: 0 <= i < j < |notes| ==> Rank(notes[i]) < Rank(notes[j])
  }

  /** In a rule-ordered list the note at position k belongs to rule k or a later one. */
  lemma {:induction false} RankAtLeastPosition(notes: seq<Note>, k: nat)
    requires RankOrdered(notes)
    requires k < |notes|
    ensures k <= Rank(notes[k])
  {
    if k > 0 {
      RankAtLeastPosition(notes, k - 1);
    }
  }

  /** Ordering by rule alone bounds the number of notes by the number of rules. */
  lemma {:induction false} RankOrderedBound(notes: seq<Note>)
    requires RankOrdered(notes)
    ensures |notes| <= 3
  {
    if |notes| > 0 {
      RankAtLeastPosition(notes, |notes| - 1);
    }
  }

  /** `series?.ohlcv?.time?.length ?? 0` */
  function BarCount(s: Series): (n: nat)
    ensures s.ohlcv.None? || s.ohlcv.value.time.None? ==> n == 0
    ensures s.ohlcv.Some? && s.ohlcv.value.time.Some? ==> n == |s.ohlcv.value.time.value|
  {
    if s.ohlcv.Some? && s.ohlcv.value.time.Some? then |s.ohlcv.value.time.value| else 0
  }

  /** `series?.indicators?.rsi` */
  function RsiArray(s: Series): Option<seq<Cell>> {
    if s.indicators.Some? then s.indicators.value.rsi else None
  }

  /** `series?.indicators?.bb` */
  function BandsOf(s: Series): Option<Bands> {
    if s.indicators.Some? then s.indicators.value.bb else None
  }

  /** `series?.indicators?.macd` */
  function MacdOf(s: Series): Option<Macd> {
    if s.indicators.Some? then s.indicators.value.macd else None
  }

  /** The RSI zone of a numeric reading, stated on the reals. */
  function RsiZone(v: real): Note {
    if v >= OverboughtLevel then RsiOverbought(v)
    else if v <= OversoldLevel then RsiOversold(v)
    else RsiPlain(Num(v))
  }

  /** The RSI rule on the cell at the last bar, for a present RSI array. */
  function RsiRule(rsi: Option<seq<Cell>>, last: nat): (r: Completion<seq<Note>>)
    ensures rsi.None? ==> r == Normal([])
    ensures r.Abrupt? <==> rsi.Some? && At(rsi.value, last) == Null
    ensures rsi.Some? && r.Normal? ==> |r.value| == 1 && Rank(r.value[0]) == 0
    ensures rsi.Some? && At(rsi.value, last).Num? ==> r == Normal([RsiZone(At(rsi.value, last).v)])
    ensures rsi.Some? && At(rsi.value, last) == Undefined ==> r == Normal([RsiPlain(Undefined)])
  {
    if rsi.None? then Normal([])
    else
      var v := At(rsi.value, last);
      if AtLeast(v, Num(OverboughtLevel)) then Normal([RsiOverbought(v.v)])
      else if AtMost(v, Num(OversoldLevel)) then
        // `null <= 30` holds, and the note then calls `toFixed` on null
        if v.Null? then Abrupt(ReadError(true, "toFixed")) else Normal([RsiOversold(v.v)])
      else Normal([RsiPlain(v)])
  }

  /** `a[lastIdx]` on a series array (close, a band, the histogram): the
      cell at the last bar, or a throw when the array itself is missing. */
  function ReadLast(a: Option<seq<Cell>>, last: nat): (r: Completion<Cell>)
    ensures r.Normal? <==> a.Some?
    ensures a.Some? ==> r.value == At(a.value, last)
  {
    match a
    case Some(cells) => Normal(At(cells, last))
    case None => Abrupt(ReadError(false, Decimal(last)))
  }

  /** The Bollinger rule: upper touch wins over lower touch, and the mid value
      is reported only when neither band is touched and it is truthy. */
  function BandRule(bb: Option<Bands>, close: Cell, last: nat): (r: Completion<seq<Note>>)
    ensures bb.None? ==> r == Normal([])
    ensures r.Abrupt? <==> bb.Some? && (bb.value.mid.None? || bb.value.upper.None? || bb.value.lower.None?)
    ensures r.Normal? ==> |r.value| <= 1 && (|r.value| == 1 ==> Rank(r.value[0]) == 1)
    ensures bb.Some? && r.Normal? ==>
              var mid := At(bb.value.mid.value, last);
              var up := At(bb.value.upper.value, last);
              var lo := At(bb.value.lower.value, last);
              && (AtLeast(close, up) ==> r.value == [BandUpper])
              && (!AtLeast(close, up) && AtMost(close, lo) ==> r.value == [BandLower])
              && (!AtLeast(close, up) && !AtMost(close, lo) ==>
                    (mid.Num? && mid.v != 0.0 ==> r.value == [BandMid(mid.v)]) &&
                    (!mid.Num? || mid.v == 0.0 ==> r.value == []))
  {
    if bb.None? then Normal([])
    else
      var mid :- ReadLast(bb.value.mid, last);
      var up :- ReadLast(bb.value.upper, last);
      var lo :- ReadLast(bb.value.lower, last);
      if AtLeast(close, up) then Normal([BandUpper])
      else if AtMost(close, lo) then Normal([BandLower])
      else if Truthy(mid) then Normal([BandMid(mid.v)])
      else Normal([])
  }

  /** The MACD rule: a note iff the histogram at the last bar is a number,
      bullish iff it is positive. */
  function MacdRule(macd: Option<Macd>, last: nat): (r: Completion<seq<Note>>)
    ensures macd.None? ==> r == Normal([])
    ensures r.Abrupt? <==> macd.Some? && macd.value.hist.None?
    ensures r.Normal? ==> |r.value| <= 1 && (|r.value| == 1 ==> Rank(r.value[0]) == 2)
    ensures macd.Some? && macd.value.hist.Some? ==>
              var h := At(macd.value.hist.value, last);
              && (h.Num? ==> r == Normal([MacdHist(h.v, h.v > 0.0)]))
              && (!h.Num? ==> r == Normal([]))
  {
    if macd.None? then Normal([])
    else
      var h :- ReadLast(macd.value.hist, last);
      if h != Null && h != Undefined then Normal([MacdHist(h.v, h.v > 0.0)])
      else Normal([])
  }

  /** When `summarize` throws on a series long enough to be read: the close
      array is missing, the RSI value at the last bar is null, or a present
      band or MACD object lacks one of its arrays. */
  predicate Throws(s: Series)
    requires BarCount(s) >= MinBars
  {
    var last := BarCount(s) - 1;
    || s.ohlcv.value.close.None?
    || (RsiArray(s).Some? && At(RsiArray(s).value, last) == Null)
    || (BandsOf(s).Some? &&
        var bb := BandsOf(s).value; bb.mid.None? || bb.upper.None? || bb.lower.None?)
    || (MacdOf(s).Some? && MacdOf(s).value.hist.None?)
  }

  /** `summarize(series)` */
  function Summarize(s: Series): (r: Completion<View>)
    ensures BarCount(s) < MinBars ==> r == Normal(ReferenceOnly)
    ensures BarCount(s) >= MinBars ==> (r.Abrupt? <==> Throws(s))
    ensures BarCount(s) >= MinBars && r.Normal? ==>
              r.value.Notes? && r.value.close == At(s.ohlcv.value.close.value, BarCount(s) - 1)
    ensures r.Normal? && r.value.Notes? ==> RankOrdered(r.value.notes) && |r.value.notes| <= 3
  {
    var n := BarCount(s);
    if n < MinBars then Normal(ReferenceOnly)
    else
      var last := n - 1;
      var close :- ReadLast(s.ohlcv.value.close, last);
      var rsi :- RsiRule(RsiArray(s), last);
      var bb :- BandRule(BandsOf(s), close, last);
      var macd :- MacdRule(MacdOf(s), last);
      Normal(Notes(close, rsi + bb + macd))
  }

  /** The notes produced by rule `k` (0 RSI, 1 BB, 2 MACD), in order. */
  function OfRule(notes: seq<Note>, k: nat): seq<Note> {
    if |notes| == 0 then []
    else (if Rank(notes[0]) == k then [notes[0]] else []) + OfRule(notes[1..], k)
  }

  lemma {:induction false} OfRuleAppend(a: seq<Note>, b: seq<Note>, k: nat)
    ensures OfRule(a + b, k) == OfRule(a, k) + OfRule(b, k)
  {
    if |a| == 0 {
      assert a + b == b;
    } else {
      assert (a + b)[1..] == a[1..] + b;
      OfRuleAppend(a[1..], b, k);
    }
  }

  /** A list of at most one note, all of rule `r`, filtered by rule `k`. */
  lemma OfRuleSingle(a: seq<Note>, r: nat, k: nat)
    requires |a| <= 1 && (|a| == 1 ==> Rank(a[0]) == r)
    ensures OfRule(a, k) == if r == k then a else []
  {
  }

  /** A successful summary of a long series is the three rules' notes, concatenated. */
  lemma SummaryIsConcatenation(s: Series)
    requires BarCount(s) >= MinBars && Summarize(s).Normal?
    ensures var last := BarCount(s) - 1;
            && RsiRule(RsiArray(s), last).Normal?
            && BandRule(BandsOf(s), Summarize(s).value.close, last).Normal?
            && MacdRule(MacdOf(s), last).Normal?
            && Summarize(s).value.notes == RsiRule(RsiArray(s), last).value
                                        + BandRule(BandsOf(s), Summarize(s).value.close, last).value
                                        + MacdRule(MacdOf(s), last).value
  {
  }

  /** Filtering the concatenation of one list per rule recovers each list. */
  lemma OfRuleOfThree(a: seq<Note>, b: seq<Note>, c: seq<Note>)
    requires |a| <= 1 && (|a| == 1 ==> Rank(a[0]) == 0)
    requires |b| <= 1 && (|b| == 1 ==> Rank(b[0]) == 1)
    requires |c| <= 1 && (|c| == 1 ==> Rank(c[0]) == 2)
    ensures OfRule(a + b + c, 0) == a && OfRule(a + b + c, 1) == b && OfRule(a + b + c, 2) == c
  {
    forall k: nat | k <= 2
      ensures OfRule(a + b + c, k) == OfRule(a, k) + OfRule(b, k) + OfRule(c, k)
    {
      OfRuleAppend(a + b, c, k);
      OfRuleAppend(a, b, k);
    }
    OfRuleSingle(a, 0, 0);
    OfRuleSingle(a, 0, 1);
    OfRuleSingle(a, 0, 2);
    OfRuleSingle(b, 1, 0);
    OfRuleSingle(b, 1, 1);
    OfRuleSingle(b, 1, 2);
    OfRuleSingle(c, 2, 0);
    OfRuleSingle(c, 2, 1);
    OfRuleSingle(c, 2, 2);
    assert a + [] + [] == a;
    assert [] + b + [] == b;
    assert [] + [] + c == c;
  }

  /** The notes of a successful summary, split by rule. */
  lemma NotesByRule(s: Series)
    requires BarCount(s) >= MinBars && Summarize(s).Normal?
    ensures var last := BarCount(s) - 1;
            var notes := Summarize(s).value.notes;
            && OfRule(notes, 0) == RsiRule(RsiArray(s), last).value
            && OfRule(notes, 1) == BandRule(BandsOf(s), Summarize(s).value.close, last).value
            && OfRule(notes, 2) == MacdRule(MacdOf(s), last).value
  {
    var last := BarCount(s) - 1;
    SummaryIsConcatenation(s);
    OfRuleOfThree(RsiRule(RsiArray(s), last).value,
                  BandRule(BandsOf(s), Summarize(s).value.close, last).value,
                  MacdRule(MacdOf(s), last).value);
  }

  /** With an RSI array exactly one RSI note is emitted, chosen by zone;
      without one, none. */
  lemma RsiNoteOfSummary(s: Series)
    requires BarCount(s) >= MinBars && Summarize(s).Normal?
    ensures var notes := Summarize(s).value.notes;
            && (RsiArray(s).None? ==> OfRule(notes, 0) == [])
            && (RsiArray(s).Some? ==>
                  var v := At(RsiArray(s).value, BarCount(s) - 1);
                  && (v.Num? ==> OfRule(notes, 0) == [RsiZone(v.v)])
                  && (v.Undefined? ==> OfRule(notes, 0) == [RsiPlain(Undefined)]))
  {
    NotesByRule(s);
  }

  /** With bands present at most one band note is emitted: upper touch first
      (even when the lower band is touched too), then lower touch, then a
      truthy mid value; a mid of 0 emits nothing. */
  lemma BandNoteOfSummary(s: Series)
    requires BarCount(s) >= MinBars && Summarize(s).Normal?
    ensures var notes := Summarize(s).value.notes;
            var close := Summarize(s).value.close;
            var last := BarCount(s) - 1;
            && |OfRule(notes, 1)| <= 1
            && (BandsOf(s).None? ==> OfRule(notes, 1) == [])
            && (BandsOf(s).Some? ==>
                  var b := BandsOf(s).value;
                  var mid, up, lo := At(b.mid.value, last), At(b.upper.value, last), At(b.lower.value, last);
                  && (AtLeast(close, up) ==> OfRule(notes, 1) == [BandUpper])
                  && (!AtLeast(close, up) && AtMost(close, lo) ==> OfRule(notes, 1) == [BandLower])
                  && (!AtLeast(close, up) && !AtMost(close, lo) && mid.Num? && mid.v != 0.0 ==>
                        OfRule(notes, 1) == [BandMid(mid.v)])
                  && (!AtLeast(close, up) && !AtMost(close, lo) && (!mid.Num? || mid.v == 0.0) ==>
                        OfRule(notes, 1) == []))
  {
    NotesByRule(s);
  }

  /** A MACD note is emitted iff the histogram at the last bar is a number
      (neither null nor undefined), bullish iff it is positive. */
  lemma MacdNoteOfSummary(s: Series)
    requires BarCount(s) >= MinBars && Summarize(s).Normal?
    ensures var notes := Summarize(s).value.notes;
            && (MacdOf(s).None? ==> OfRule(notes, 2) == [])
            && (MacdOf(s).Some? ==>
                  var h := At(MacdOf(s).value.hist.value, BarCount(s) - 1);
                  && (h.Num? ==> OfRule(notes, 2) == [MacdHist(h.v, h.v > 0.0)])
                  && (!h.Num? ==> OfRule(notes, 2) == []))
  {
    NotesByRule(s);
  }

  /** A series without price data or without timestamps counts as zero bars
      and yields only the reference note, whatever indicators it carries. */
  lemma MissingTimeIsReferenceOnly(s: Series)
    requires s.ohlcv.None? || s.ohlcv.value.time.None?
    ensures Summarize(s) == Normal(ReferenceOnly)
  {
  }
}
