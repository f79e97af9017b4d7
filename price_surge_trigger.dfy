/** The price surge monitor: a sampled price, the threshold moved by a delta
    drawn uniformly from [-10, 20], is compared with the threshold. The
    delta and the formatted check time are inputs. */
module PriceSurgeTrigger {
  import opened Values
  import opened Models

  const Name := "Price Surge Monitor"
  const Description := "Detects if a stock price exceeds a specific threshold."

  /** Parameters the rule form is pre-populated with. Their threshold, 150.0,
      is not the 100.0 the check falls back on when `threshold` is missing. */
  function DefaultParams(): (p: Params)
    ensures p.Keys == {"ticker", "threshold"}
    ensures NumberOrAbsent(p, "threshold") && Threshold(p) == 150.0
    ensures Get(p, "ticker", Str("UNKNOWN")) == Str("AAPL")
  {
    map["ticker" := Str("AAPL"), "threshold" := Num(150.0)]
  }

  /** The range the price delta is drawn from. */
  predicate IsDelta(delta: real)
  {
    -10.0 <= delta <= 20.0
  }

  /** The threshold in force: the `threshold` parameter, 100.0 when missing. */
  function Threshold(params: Params): real
    requires NumberOrAbsent(params, "threshold")
  {
    FloatParam(params, "threshold", 100.0)
  }

  function Check(params: Params, delta: real, stamp: string): (o: AlertOutput)
    requires NumberOrAbsent(params, "threshold")
    requires IsDelta(delta)
    ensures o.importance == "high"
    ensures o.ticker == Get(params, "ticker", Str("UNKNOWN"))
    ensures "current_price" in o.metadata && "threshold" in o.metadata
    ensures o.metadata["threshold"] == Num(Threshold(params))
    ensures o.metadata["current_price"] == Num(Threshold(params) + delta)
    ensures o.triggered <==> o.metadata["current_price"].n > Threshold(params)
    ensures o.message == [Text("Price Surge Alert: "), Shown(o.ticker), Text(" is at "), Shown(o.metadata["current_price"]),
                          Text(" (Threshold: "), Shown(o.metadata["threshold"]), Text(")")]
    ensures o.timestamp == stamp
  {
    var ticker := Get(params, "ticker", Str("UNKNOWN"));
    var threshold := Threshold(params);
    var price := threshold + delta;
    AlertOutput(
      triggered := price > threshold,
      importance := "high",
      ticker := ticker,
      message := [Text("Price Surge Alert: "), Shown(ticker), Text(" is at "), Shown(Num(price)),
                  Text(" (Threshold: "), Shown(Num(threshold)), Text(")")],
      metadata := map["current_price" := Num(price), "threshold" := Num(threshold)],
      timestamp := stamp)
  }

  /** In exact arithmetic the price exceeds the threshold exactly when the
      drawn delta is positive, whatever the threshold, and the reported price
      lies within [threshold - 10, threshold + 20]. */
  lemma TriggeredIffDeltaPositive(params: Params, delta: real, stamp: string)
    requires NumberOrAbsent(params, "threshold") && IsDelta(delta)
    ensures Check(params, delta, stamp).triggered <==> delta > 0.0
    ensures var o := Check(params, delta, stamp);
      Threshold(params) - 10.0 <= o.metadata["current_price"].n <= Threshold(params) + 20.0
  {
  }

  /** A missing threshold means 100.0 and a missing ticker "UNKNOWN"; the
      default parameters instead carry 150.0 and "AAPL", so the two setups
      report different thresholds. */
  lemma FallbacksDifferFromDefaults(delta: real, stamp: string)
    requires IsDelta(delta)
    ensures Check(map[], delta, stamp).metadata["threshold"] == Num(100.0)
    ensures Check(map[], delta, stamp).ticker == Str("UNKNOWN")
    ensures Check(DefaultParams(), delta, stamp).metadata["threshold"] == Num(150.0)
    ensures Check(DefaultParams(), delta, stamp).ticker == Str("AAPL")
    ensures Check(map[], delta, stamp).metadata["threshold"] != Check(DefaultParams(), delta, stamp).metadata["threshold"]
  {
  }
}
