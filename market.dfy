/**
 * The trend reading of `Predictor.analyze_market_structure` (predictor.py):
 * moving averages of the closing prices over the last 12 and 48 candles and
 * over the whole window, and the cascade that names the trend from them.
 */
module MarketStructure {
  import opened Wrappers

  /** Fewer closes than this and the analysis returns an empty result. */
  const MIN_CANDLES: nat := 12

  datatype Trend = StrongUptrend | Uptrend | StrongDowntrend | Downtrend | Ranging
  {
    function Name(): string {
      match this
      case StrongUptrend => "STRONG UPTREND"
      case Uptrend => "UPTREND"
      case StrongDowntrend => "STRONG DOWNTREND"
      case Downtrend => "DOWNTREND"
      case Ranging => "RANGING/CHOPPY"
    }

    /** The same reading of the price series turned upside down. */
    function Mirror(): Trend {
      match this
      case StrongUptrend => StrongDowntrend
      case Uptrend => Downtrend
      case StrongDowntrend => StrongUptrend
      case Downtrend => Uptrend
      case Ranging => Ranging
    }
  }

  datatype Structure = Structure(trend: Trend, ma1h: real, ma4h: real, ma24h: real)

  function Sum(s: seq<real>): real
    decreases |s|
  {
    if s == [] then 0.0 else Sum(s[..|s| - 1]) + s[|s| - 1]
  }

  function Mean(s: seq<real>): real
    requires |s| > 0
  {
    Sum(s) / |s| as real
  }

  /**
   * The trend cascade: a strict rise through price, 1h and 4h averages is
   * an uptrend (strong when the 24h average is below too), the mirror image
   * a downtrend, anything else ranging; a tie anywhere in the chain breaks it.
   */
  function TrendOf(current: real, ma12: real, ma48: real, ma288: real): (t: Trend)
    ensures t.StrongUptrend? <==> current > ma12 > ma48 > ma288
    ensures t.Uptrend? <==> current > ma12 > ma48 && !(ma48 > ma288)
    ensures t.StrongDowntrend? <==> current < ma12 < ma48 < ma288
    ensures t.Downtrend? <==> current < ma12 < ma48 && !(ma48 < ma288)
    ensures t.Ranging? <==> !(current > ma12 > ma48) && !(current < ma12 < ma48)
  {
    if current > ma12 > ma48 > ma288 then StrongUptrend
    else if current > ma12 > ma48 then Uptrend
    else if current < ma12 < ma48 < ma288 then StrongDowntrend
    else if current < ma12 < ma48 then Downtrend
    else Ranging
  }

  /** `analyze_market_structure`, trend part: None (the empty result) below 12 closes. */
  function AnalyzeMarketStructure(closes: seq<real>): (r: Option<Structure>)
    ensures r.None? <==> |closes| < MIN_CANDLES
    ensures r.Some? ==> r.value.ma24h == Mean(closes) && r.value.ma1h == Mean(closes[|closes| - 12..])
    ensures r.Some? ==>
      r.value.trend == TrendOf(closes[|closes| - 1], r.value.ma1h, r.value.ma4h, r.value.ma24h)
    ensures r.Some? && |closes| < 48 ==> r.value.ma4h == r.value.ma24h
    ensures r.Some? && |closes| >= 48 ==> r.value.ma4h == Mean(closes[|closes| - 48..])
  {
    if |closes| < MIN_CANDLES then None
    else
      var n := |closes|;
      var ma12 := Sum(closes[n - 12..]) / 12.0;
      var ma48 := if n >= 48 then Sum(closes[n - 48..]) / 48.0 else Sum(closes) / n as real;
      var ma288 := Sum(closes) / n as real;
      Some(Structure(TrendOf(closes[n - 1], ma12, ma48, ma288), ma12, ma48, ma288))
  }

  lemma {:induction false} SumConstant(s: seq<real>, c: real)
    requires forall i :: 0 <= i < |s| ==> s[i] == c
    ensures Sum(s) == |s| as real * c
    decreases |s|
  {
    if s != [] {
      SumConstant(s[..|s| - 1], c);
    }
  }

  /** A flat market reads as ranging, however long the window. */
  lemma FlatMarketRanges(closes: seq<real>, c: real)
    requires |closes| >= MIN_CANDLES
    requires forall i :: 0 <= i < |closes| ==> closes[i] == c
    ensures AnalyzeMarketStructure(closes).value.trend == Ranging
  {
    var n := |closes|;
    SumConstant(closes[n - 12..], c);
    SumConstant(closes, c);
    if n >= 48 {
      SumConstant(closes[n - 48..], c);
    }
  }

  function Negate(s: seq<real>): (r: seq<real>)
    ensures |r| == |s| && forall i :: 0 <= i < |s| ==> r[i] == -s[i]
  {
    seq(|s|, i requires 0 <= i < |s| => -s[i])
  }

  lemma {:induction false} SumNegate(s: seq<real>)
    ensures Sum(Negate(s)) == -Sum(s)
    decreases |s|
  {
    if s != [] {
      assert Negate(s)[..|s| - 1] == Negate(s[..|s| - 1]);
      SumNegate(s[..|s| - 1]);
    }
  }

  lemma TrendOfMirror(current: real, ma12: real, ma48: real, ma288: real)
    ensures TrendOf(-current, -ma12, -ma48, -ma288) == TrendOf(current, ma12, ma48, ma288).Mirror()
  {
  }

  lemma NegateDiv(x: real, d: real)
    requires d > 0.0
    ensures -x / d == -(x / d)
  {
  }

  /** The cascade is symmetric: turning the price series upside down mirrors the trend. */
  lemma MirroredSeriesMirrorsTrend(closes: seq<real>)
    requires |closes| >= MIN_CANDLES
    ensures AnalyzeMarketStructure(Negate(closes)).value.trend == AnalyzeMarketStructure(closes).value.trend.Mirror()
  {
    var n := |closes|;
    var m := Negate(closes);
    assert m[n - 12..] == Negate(closes[n - 12..]);
    SumNegate(closes[n - 12..]);
    NegateDiv(Sum(closes[n - 12..]), 12.0);
    SumNegate(closes);
    NegateDiv(Sum(closes), n as real);
    if n >= 48 {
      assert m[n - 48..] == Negate(closes[n - 48..]);
      SumNegate(closes[n - 48..]);
      NegateDiv(Sum(closes[n - 48..]), 48.0);
    }
    var s := AnalyzeMarketStructure(closes).value;
    var t := AnalyzeMarketStructure(m).value;
    assert t.ma1h == -s.ma1h && t.ma4h == -s.ma4h && t.ma24h == -s.ma24h;
    TrendOfMirror(closes[n - 1], s.ma1h, s.ma4h, s.ma24h);
  }
}
