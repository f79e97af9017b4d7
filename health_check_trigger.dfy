/** The health check monitor: reports a service endpoint as healthy or
    unhealthy. The health verdict (drawn as `random() > 0.2`) and the
    formatted check time are inputs. */
module HealthCheckTrigger {
  import opened Values
  import opened Models

  const Name := "Health Check Monitor"
  const Description := "Monitors service endpoints and returns status (Healthy/Unhealthy)."

  /** Parameters the rule form is pre-populated with. */
  function DefaultParams(): (p: Params)
    ensures p.Keys == {"service", "endpoint"}
    ensures Get(p, "service", Str("unknown")) == Str("Auth-API")
    ensures Get(p, "endpoint", Str("localhost")) == Str("https://api.sentinel.io/health")
  {
    map["service" := Str("Auth-API"), "endpoint" := Str("https://api.sentinel.io/health")]
  }

  function Status(healthy: bool): (s: string)
    ensures s == "Healthy" <==> healthy
    ensures s == "Unhealthy" <==> !healthy
  {
    if healthy then "Healthy" else "Unhealthy"
  }

  function Check(params: Params, healthy: bool, stamp: string): (o: AlertOutput)
    ensures o.triggered
    ensures o.importance == "low" <==> healthy
    ensures o.importance == "critical" <==> !healthy
    ensures o.ticker == Get(params, "service", Str("unknown"))
    ensures o.message == [Text("Health Check for "), Shown(o.ticker), Text(" ("),
                          Shown(Get(params, "endpoint", Str("localhost"))), Text("): "), Text(Status(healthy))]
    ensures o.metadata == map["status" := Str(Status(healthy)), "is_healthy" := Bool(healthy),
                              "endpoint" := Get(params, "endpoint", Str("localhost"))]
    ensures o.timestamp == stamp
  {
    var service := Get(params, "service", Str("unknown"));
    var endpoint := Get(params, "endpoint", Str("localhost"));
    var status := Status(healthy);
    AlertOutput(
      triggered := true,
      importance := if healthy then "low" else "critical",
      ticker := service,
      message := [Text("Health Check for "), Shown(service), Text(" ("), Shown(endpoint), Text("): "), Text(status)],
      metadata := map["status" := Str(status), "is_healthy" := Bool(healthy), "endpoint" := endpoint],
      timestamp := stamp)
  }

  /** The reported status, the health flag in the metadata and the
      importance all tell the same story, and the message ends with the
      status text. */
  lemma MetadataAgrees(params: Params, healthy: bool, stamp: string)
    ensures var o := Check(params, healthy, stamp);
      && o.metadata["is_healthy"] == Bool(healthy)
      && (o.metadata["status"] == Str("Healthy") <==> o.importance == "low")
      && o.message[|o.message| - 1] == Text(o.metadata["status"].s)
  {
  }

  /** Without parameters the check reports on "unknown" at "localhost"; the
      default parameters report on "Auth-API" at its health URL. */
  lemma Fallbacks(healthy: bool, stamp: string)
    ensures Check(map[], healthy, stamp).ticker == Str("unknown")
    ensures Check(map[], healthy, stamp).metadata["endpoint"] == Str("localhost")
    ensures Check(DefaultParams(), healthy, stamp).ticker == Str("Auth-API")
    ensures Check(DefaultParams(), healthy, stamp).metadata["endpoint"] == Str("https://api.sentinel.io/health")
  {
  }
}
