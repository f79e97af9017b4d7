/** The workflow deployment runner: invokes a deployment and reports whether
    the invocation succeeded. Whether it succeeded (drawn as
    `random() > 0.1`), the fresh flow run id (a `uuid4`) and the formatted
    check time are inputs. */
module PrefectDeploymentTrigger {
  import opened Values
  import opened Models

  const Name := "Prefect Deployment Runner"
  const Description := "Invokes a Prefect Deployment and monitors its initial state."

  /** Parameters the rule form is pre-populated with. */
  function DefaultParams(): (p: Params)
    ensures p.Keys == {"deployment_id", "flow_name", "parameters"}
    ensures FlowName(p) == Str("data-pipeline-daily")
    ensures Get(p, "deployment_id", Null) == Str("dep-12345678")
    ensures p["parameters"] == Object(map[])
  {
    map["deployment_id" := Str("dep-12345678"), "flow_name" := Str("data-pipeline-daily"),
        "parameters" := Object(map[])]
  }

  /** The flow name shown in messages: `flow_name`, "Unknown Flow" when missing. */
  function FlowName(params: Params): Value
  {
    Get(params, "flow_name", Str("Unknown Flow"))
  }

  function Check(params: Params, success: bool, flowRunId: string, stamp: string): (o: AlertOutput)
    ensures o.triggered <==> success
    ensures o.importance == (if success then "medium" else "low")
    ensures o.ticker == Str("PREFECT")
    ensures success ==> o.message == [Text("Triggered Flow: "), Shown(FlowName(params))]
    ensures !success ==> o.message == [Text("Failed to trigger "), Shown(FlowName(params))]
    ensures success ==> o.metadata == map["deployment_id" := Get(params, "deployment_id", Null),
                                          "flow_run_id" := Str(flowRunId),
                                          "initial_state" := Str("SCHEDULED")]
    ensures !success ==> o.metadata == map[]
    ensures o.timestamp == stamp
  {
    var deploymentId := Get(params, "deployment_id", Null);
    var flowName := FlowName(params);
    if success then
      AlertOutput(
        triggered := true,
        importance := "medium",
        ticker := Str("PREFECT"),
        message := [Text("Triggered Flow: "), Shown(flowName)],
        metadata := map["deployment_id" := deploymentId, "flow_run_id" := Str(flowRunId),
                        "initial_state" := Str("SCHEDULED")],
        timestamp := stamp)
    else
      AlertOutput(
        triggered := false,
        importance := "low",
        ticker := Str("PREFECT"),
        message := [Text("Failed to trigger "), Shown(flowName)],
        metadata := map[],
        timestamp := stamp)
  }

  /** A fired output always carries a flow run id and the SCHEDULED initial
      state, and a run is reported only when the invocation succeeded; a
      missing deployment id is carried through as absent (null). */
  lemma RunLinkage(params: Params, success: bool, flowRunId: string, stamp: string)
    ensures var o := Check(params, success, flowRunId, stamp);
      ("flow_run_id" in o.metadata <==> o.triggered)
      && (o.triggered ==> o.metadata["flow_run_id"] == Str(flowRunId)
                          && o.metadata["initial_state"] == Str("SCHEDULED"))
    ensures "deployment_id" !in params && success ==>
      Check(params, success, flowRunId, stamp).metadata["deployment_id"] == Null
  {
  }

  /** Without a flow name the messages name "Unknown Flow"; the default
      parameters name "data-pipeline-daily" and deployment "dep-12345678",
      with an empty object of flow parameters. */
  lemma Fallbacks(success: bool, flowRunId: string, stamp: string)
    ensures Check(map[], success, flowRunId, stamp).message[1] == Shown(Str("Unknown Flow"))
    ensures Check(DefaultParams(), success, flowRunId, stamp).message[1] == Shown(Str("data-pipeline-daily"))
    ensures success ==> Check(DefaultParams(), success, flowRunId, stamp).metadata["deployment_id"] == Str("dep-12345678")
    ensures DefaultParams()["parameters"] == Object(map[])
  {
  }
}
