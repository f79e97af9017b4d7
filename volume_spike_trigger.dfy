/** The volume spike monitor: the current volume is the average volume
    scaled by a factor drawn uniformly from [0.5, 3.5], and its percentage of
    the average is compared with a percentage threshold. The factor and the
    formatted check time are inputs. */
module VolumeSpikeTrigger {
  import opened Values
  import opened Models

  const Name := "Volume Spike Monitor"
  const Description := "Detects unusual volume activity significantly above average."

  /** Parameters the rule form is pre-populated with. */
  function DefaultParams(): (p: Params)
    ensures p.Keys == {"ticker", "avg_volume", "threshold_percent"}
    ensures Runnable(p)
    ensures AverageVolume(p) == 1000000.0 && PercentThreshold(p) == 200.0
    ensures Get(p, "ticker", Str("UNKNOWN")) == Str("NVDA")
  {
    map["ticker" := Str("NVDA"), "avg_volume" := Num(1000000.0), "threshold_percent" := Num(200.0)]
  }

  /** The range the volume factor is drawn from. */
  predicate IsFactor(factor: real)
  {
    0.5 <= factor <= 3.5
  }

  /** The average volume in force: `avg_volume`, 1000000 when missing. */
  function AverageVolume(params: Params): real
    requires NumberOrAbsent(params, "avg_volume")
  {
    FloatParam(params, "avg_volume", 1000000.0)
  }

  /** The percentage threshold in force: `threshold_percent`, 200 when missing. */
  function PercentThreshold(params: Params): real
    requires NumberOrAbsent(params, "threshold_percent")
  {
    FloatParam(params, "threshold_percent", 200.0)
  }

  /** The parameters the check can run on: numeric values where numbers are
      read, and an average volume that is not zero (the percentage divides by
      it). */
  predicate Runnable(params: Params)
  {
    && NumberOrAbsent(params, "avg_volume")
    && NumberOrAbsent(params, "threshold_percent")
    && AverageVolume(params) != 0.0
  }

  /** `int(x)`: truncation toward zero. */
  function Truncate(x: real): (i: int)
    ensures x >= 0.0 ==> i as real <= x < i as real + 1.0
    ensures x < 0.0 ==> i as real - 1.0 < x <= i as real
  {
    if x >= 0.0 then x.Floor else -((-x).Floor)
  }

  function Check(params: Params, factor: real, stamp: string): (o: AlertOutput)
    requires Runnable(params)
    requires IsFactor(factor)
    ensures o.importance == "medium"
    ensures o.ticker == Get(params, "ticker", Str("UNKNOWN"))
    ensures "current_volume" in o.metadata && "increase_pct" in o.metadata
    ensures o.metadata["current_volume"] == Num(AverageVolume(params) * factor)
    ensures o.metadata["increase_pct"].Num?
    ensures o.triggered <==> o.metadata["increase_pct"].n > PercentThreshold(params)
    ensures o.message == [Text("Volume Spike: "), Shown(o.ticker), Text(" volume is "),
                          Shown(Num(Truncate(o.metadata["current_volume"].n) as real)),
                          Text(" ("), Shown(o.metadata["increase_pct"]), Text("% of avg)")]
    ensures o.timestamp == stamp
  {
    var ticker := Get(params, "ticker", Str("UNKNOWN"));
    var avg := AverageVolume(params);
    var threshold := PercentThreshold(params);
    var current := avg * factor;
    var increase := current / avg * 100.0;
    AlertOutput(
      triggered := increase > threshold,
      importance := "medium",
      ticker := ticker,
      message := [Text("Volume Spike: "), Shown(ticker), Text(" volume is "), Shown(Num(Truncate(current) as real)),
                  Text(" ("), Shown(Num(increase)), Text("% of avg)")],
      metadata := map["current_volume" := Num(current), "increase_pct" := Num(increase)],
      timestamp := stamp)
  }

  /** The average volume cancels out: the reported percentage is the drawn
      factor times 100, so the check fires exactly when `factor * 100`
      exceeds the threshold. */
  lemma PercentIsFactor(params: Params, factor: real, stamp: string)
    requires Runnable(params) && IsFactor(factor)
    ensures Check(params, factor, stamp).metadata["increase_pct"] == Num(factor * 100.0)
    ensures Check(params, factor, stamp).triggered <==> factor * 100.0 > PercentThreshold(params)
  {
    Cancel(AverageVolume(params), factor);
  }

  lemma Cancel(avg: real, factor: real)
    requires avg != 0.0
    ensures avg * factor / avg * 100.0 == factor * 100.0
  {
    assert avg * factor / avg == factor;
  }

  /** The percentage stays within [50, 350]: a threshold of 350 or more never
      fires and one below 50 always fires. */
  lemma ThresholdExtremes(params: Params, factor: real, stamp: string)
    requires Runnable(params) && IsFactor(factor)
    ensures PercentThreshold(params) >= 350.0 ==> !Check(params, factor, stamp).triggered
    ensures PercentThreshold(params) < 50.0 ==> Check(params, factor, stamp).triggered
  {
    PercentIsFactor(params, factor, stamp);
  }

  /** Without parameters the check watches "UNKNOWN" with an average of
      1000000 and a 200% threshold; the default parameters watch "NVDA" with
      the same numbers. */
  lemma Fallbacks(factor: real, stamp: string)
    requires IsFactor(factor)
    ensures Runnable(map[]) && Runnable(DefaultParams())
    ensures Check(map[], factor, stamp).ticker == Str("UNKNOWN")
    ensures Check(map[], factor, stamp).triggered <==> factor > 2.0
    ensures Check(DefaultParams(), factor, stamp).ticker == Str("NVDA")
    ensures Check(DefaultParams(), factor, stamp).triggered <==> factor > 2.0
  {
    PercentIsFactor(map[], factor, stamp);
    PercentIsFactor(DefaultParams(), factor, stamp);
  }
}
