/** The CPU usage monitor: compares a sampled load percentage with a
    threshold. The sampled load, drawn uniformly from [10, 100], and the
    formatted check time are inputs. */
module CpuUsageTrigger {
  import opened Values
  import opened Models

  const Name := "CPU Usage Monitor"
  const Description := "Alerts when CPU usage exceeds critical limits."

  /** Parameters the rule form is pre-populated with. */
  function DefaultParams(): (p: Params)
    ensures p.Keys == {"server", "threshold"}
    ensures NumberOrAbsent(p, "threshold") && Threshold(p) == 90.0
    ensures Get(p, "server", Str("localhost")) == Str("PROD-DB-01")
  {
    map["server" := Str("PROD-DB-01"), "threshold" := Num(90.0)]
  }

  /** The range the load percentage is drawn from. */
  predicate IsLoad(load: real)
  {
    10.0 <= load <= 100.0
  }

  /** The threshold in force: the `threshold` parameter, 90 when missing. */
  function Threshold(params: Params): real
    requires NumberOrAbsent(params, "threshold")
  {
    FloatParam(params, "threshold", 90.0)
  }

  function Check(params: Params, load: real, stamp: string): (o: AlertOutput)
    requires NumberOrAbsent(params, "threshold")
    requires IsLoad(load)
    ensures o.triggered <==> load > Threshold(params)
    ensures o.importance == "critical" <==> load > 95.0
    ensures o.importance == "high" <==> load <= 95.0
    ensures o.ticker == Get(params, "server", Str("localhost"))
    ensures o.metadata == map["load" := Num(load)]
    ensures o.message == [Text("High CPU Load on "), Shown(o.ticker), Text(": "), Shown(o.metadata["load"]),
                          Text("% (Threshold: "), Shown(Num(Threshold(params))), Text("%)")]
    ensures o.timestamp == stamp
  {
    var server := Get(params, "server", Str("localhost"));
    var threshold := Threshold(params);
    AlertOutput(
      triggered := load > threshold,
      importance := if load > 95.0 then "critical" else "high",
      ticker := server,
      message := [Text("High CPU Load on "), Shown(server), Text(": "), Shown(Num(load)),
                  Text("% (Threshold: "), Shown(Num(threshold)), Text("%)")],
      metadata := map["load" := Num(load)],
      timestamp := stamp)
  }

  /** The load never exceeds 100, so a threshold of 100 or more never fires. */
  lemma HighThresholdNeverTriggers(params: Params, load: real, stamp: string)
    requires NumberOrAbsent(params, "threshold") && IsLoad(load)
    requires Threshold(params) >= 100.0
    ensures !Check(params, load, stamp).triggered
  {
  }

  /** The load never falls below 10, so a threshold under 10 always fires. */
  lemma LowThresholdAlwaysTriggers(params: Params, load: real, stamp: string)
    requires NumberOrAbsent(params, "threshold") && IsLoad(load)
    requires Threshold(params) < 10.0
    ensures Check(params, load, stamp).triggered
  {
  }

  /** Importance depends on the load alone: neither the threshold nor whether
      the check fired changes it. A load of exactly 95 is "high". */
  lemma ImportanceIgnoresThreshold(p1: Params, p2: Params, load: real, stamp: string)
    requires NumberOrAbsent(p1, "threshold") && NumberOrAbsent(p2, "threshold") && IsLoad(load)
    ensures Check(p1, load, stamp).importance == Check(p2, load, stamp).importance
    ensures Check(p1, 95.0, stamp).importance == "high"
  {
  }

  /** Without parameters the check reports on "localhost" against a threshold
      of 90; with the default parameters it reports on "PROD-DB-01" against 90. */
  lemma Fallbacks(load: real, stamp: string)
    requires IsLoad(load)
    ensures Check(map[], load, stamp).ticker == Str("localhost")
    ensures Check(map[], load, stamp).triggered <==> load > 90.0
    ensures Check(DefaultParams(), load, stamp).ticker == Str("PROD-DB-01")
    ensures Check(DefaultParams(), load, stamp).triggered <==> load > 90.0
  {
  }
}
