/** The records of the alert system: rules, recorded events, and the output
    every trigger returns. Fields with a default value take it when a record
    is built without naming them, as with the keyword defaults of the
    original records. */
module Models {
  import opened Values

  /** A point in time (a `datetime`), as a count of some fixed unit since an epoch. */
  type Instant = int

  /** A monitoring definition. `name` has no default and must always be given;
      `id` stays `None` until the store assigns one. */
  datatype AlertRule = AlertRule(
    id: Option<int> := None,
    name: string,
    parameters: string := "{}",
    importance: string := "medium",
    periodSeconds: int := 60,
    actionConfig: string := "{}",
    comment: Option<string> := None,
    isActive: bool := true)

  /** One recorded occurrence of a rule firing. `ruleId`, `timestamp`,
      `message` and `importance` have no default and must always be given. */
  datatype AlertEvent = AlertEvent(
    id: Option<int> := None,
    ruleId: int,
    timestamp: Instant,
    message: Message,
    importance: string,
    isAcknowledged: bool := false,
    acknowledgedTimestamp: Option<Instant> := None,
    actionTaken: Option<string> := None,
    comment: Option<string> := None)

  /** The result every trigger's check returns. `timestamp` is the check time
      already formatted as "YYYY-MM-DD HH:MM:SS". */
  datatype AlertOutput = AlertOutput(
    triggered: bool,
    importance: string,
    ticker: Value,
    message: Message,
    metadata: map<string, Value>,
    timestamp: string)

  predicate IsActive(r: AlertRule)
  {
    r.isActive
  }

  predicate IsUnacknowledged(e: AlertEvent)
  {
    !e.isAcknowledged
  }

  /** A rule given only its name carries every documented default and is
      therefore active and counted among the active rules. */
  lemma NewRuleDefaults(name: string)
    ensures var r := AlertRule(name := name);
      && r.id == None && r.name == name
      && r.parameters == "{}" && r.importance == "medium"
      && r.periodSeconds == 60 && r.actionConfig == "{}"
      && r.comment == None && r.isActive && IsActive(r)
  {
  }

  /** An event given only its required fields starts unacknowledged, with no
      acknowledgement time, action or comment, and no id. */
  lemma NewEventDefaults(ruleId: int, at: Instant, message: Message, importance: string)
    ensures var e := AlertEvent(ruleId := ruleId, timestamp := at, message := message, importance := importance);
      && e.id == None && e.ruleId == ruleId && e.timestamp == at
      && e.message == message && e.importance == importance
      && !e.isAcknowledged && IsUnacknowledged(e)
      && e.acknowledgedTimestamp == None && e.actionTaken == None && e.comment == None
  {
  }
}
