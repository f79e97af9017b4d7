/** The memory leak detector: the memory in use is the limit scaled by a
    factor drawn uniformly from [0.6, 1.2] and is compared with the limit.
    The factor and the formatted check time are inputs. */
module MemoryLeakTrigger {
  import opened Values
  import opened Models

  const Name := "Memory Leak Detector"
  const Description := "Monitors memory usage trends for potential leaks."

  /** Parameters the rule form is pre-populated with. */
  function DefaultParams(): (p: Params)
    ensures p.Keys == {"service", "limit_mb"}
    ensures NumberOrAbsent(p, "limit_mb") && Limit(p) == 512.0
    ensures Get(p, "service", Str("unknown")) == Str("api-gateway")
  {
    map["service" := Str("api-gateway"), "limit_mb" := Num(512.0)]
  }

  /** The range the usage factor is drawn from. */
  predicate IsFactor(factor: real)
  {
    0.6 <= factor <= 1.2
  }

  /** The limit in force: the `limit_mb` parameter, 512 when missing. */
  function Limit(params: Params): real
    requires NumberOrAbsent(params, "limit_mb")
  {
    FloatParam(params, "limit_mb", 512.0)
  }

  function Check(params: Params, factor: real, stamp: string): (o: AlertOutput)
    requires NumberOrAbsent(params, "limit_mb")
    requires IsFactor(factor)
    ensures o.importance == "medium"
    ensures o.ticker == Get(params, "service", Str("unknown"))
    ensures "used_mb" in o.metadata && "limit_mb" in o.metadata
    ensures o.metadata["limit_mb"] == Num(Limit(params))
    ensures o.metadata["used_mb"] == Num(Limit(params) * factor)
    ensures o.triggered <==> o.metadata["used_mb"].n > Limit(params)
    ensures o.message == [Text("Potential Memory Leak in "), Shown(o.ticker), Text(": "), Shown(o.metadata["used_mb"]),
                          Text("MB used (Limit: "), Shown(o.metadata["limit_mb"]), Text("MB)")]
    ensures o.timestamp == stamp
  {
    var service := Get(params, "service", Str("unknown"));
    var limit := Limit(params);
    var used := limit * factor;
    AlertOutput(
      triggered := used > limit,
      importance := "medium",
      ticker := service,
      message := [Text("Potential Memory Leak in "), Shown(service), Text(": "), Shown(Num(used)),
                  Text("MB used (Limit: "), Shown(Num(limit)), Text("MB)")],
      metadata := map["used_mb" := Num(used), "limit_mb" := Num(limit)],
      timestamp := stamp)
  }

  /** For a positive limit the check fires exactly when the factor exceeds 1;
      a negative limit inverts that (it fires exactly when the factor is below
      1); a zero limit never fires. */
  lemma TriggeredIffFactorAboveOne(params: Params, factor: real, stamp: string)
    requires NumberOrAbsent(params, "limit_mb") && IsFactor(factor)
    ensures Limit(params) > 0.0 ==> (Check(params, factor, stamp).triggered <==> factor > 1.0)
    ensures Limit(params) < 0.0 ==> (Check(params, factor, stamp).triggered <==> factor < 1.0)
    ensures Limit(params) == 0.0 ==> !Check(params, factor, stamp).triggered
  {
    var limit := Limit(params);
    if limit > 0.0 {
      ScaleAbove(limit, factor);
    } else if limit < 0.0 {
      ScaleAbove(-limit, 2.0 - factor);
    }
  }

  lemma ScaleAbove(limit: real, factor: real)
    requires limit > 0.0
    ensures limit * factor > limit <==> factor > 1.0
  {
    assert limit * factor - limit == limit * (factor - 1.0);
  }

  /** Without parameters the check watches "unknown" against 512 MB; the
      default parameters watch "api-gateway" against the same limit. */
  lemma Fallbacks(factor: real, stamp: string)
    requires IsFactor(factor)
    ensures Check(map[], factor, stamp).ticker == Str("unknown")
    ensures Check(map[], factor, stamp).metadata["limit_mb"] == Num(512.0)
    ensures Check(DefaultParams(), factor, stamp).ticker == Str("api-gateway")
    ensures Check(DefaultParams(), factor, stamp).metadata["limit_mb"] == Num(512.0)
  {
  }
}
