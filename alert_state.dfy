/** The rule and event bookkeeping behind the dashboard: the persisted rule
    and event tables, seeding them, loading them into the dashboard state
    with its four counters, and the mock alert sweep over the active rules.

    Randomness, the clock and JSON decoding are inputs: the sweep receives,
    for each active rule in order, the `random()` roll and the
    `randint(1, 20)` draw, one clock reading `now`, and the decoder as a
    partial function from text to an optional value. */
module AlertStates {
  import opened Values
  import opened Models

  // ---------------------------------------------------------------------
  // Filtering: the list comprehensions and WHERE clauses of the state.
  // ---------------------------------------------------------------------

  /** The elements of `s` that satisfy `keep`, in order. */
  function Filter<T(==)>(s: seq<T>, keep: T -> bool): (r: seq<T>)
    ensures |r| <= |s|
    ensures forall x :: x in r ==> x in s && keep(x)
    ensures forall x :: x in s && keep(x) ==> x in r
  {
    if s == [] then [] else (if keep(s[0]) then [s[0]] else []) + Filter(s[1..], keep)
  }

  /** Filtering distributes over concatenation. */
  lemma {:induction false} FilterAppend<T>(a: seq<T>, b: seq<T>, keep: T -> bool)
    ensures Filter(a + b, keep) == Filter(a, keep) + Filter(b, keep)
  {
    if a == [] {
      assert a + b == b;
    } else {
      assert (a + b)[0] == a[0];
      assert (a + b)[1..] == a[1..] + b;
      FilterAppend(a[1..], b, keep);
    }
  }

  /** Reordering a list does not change how many of its elements a filter
      keeps. */
  lemma {:induction false} FilterCountPermutation<T>(a: seq<T>, b: seq<T>, keep: T -> bool)
    requires multiset(a) == multiset(b)
    ensures |Filter(a, keep)| == |Filter(b, keep)|
    decreases |a|
  {
    if a == [] {
      assert |b| == |multiset(b)| == 0;
    } else {
      var x := a[0];
      assert x in multiset(b);
      var k :| 0 <= k < |b| && b[k] == x;
      var rest := b[..k] + b[k + 1..];
      assert b == b[..k] + ([x] + b[k + 1..]);
      assert a == [x] + a[1..];
      assert multiset(a) == multiset{x} + multiset(a[1..]);
      assert multiset(b) == multiset(b[..k]) + multiset{x} + multiset(b[k + 1..]);
      assert multiset(rest) == multiset(b[..k]) + multiset(b[k + 1..]);
      assert multiset(a[1..]) == multiset(a) - multiset{x};
      assert multiset(rest) == multiset(b) - multiset{x};
      FilterCountPermutation(a[1..], rest, keep);
      FilterAppend(b[..k], [x] + b[k + 1..], keep);
      FilterAppend([x], b[k + 1..], keep);
      FilterAppend(b[..k], b[k + 1..], keep);
      FilterAppend([x], a[1..], keep);
    }
  }

  // ---------------------------------------------------------------------
  // Ordering: `ORDER BY timestamp DESC` when the events are loaded.
  // ---------------------------------------------------------------------

  ghost predicate NewestFirst(s: seq<AlertEvent>)
  {
    forall i, j :: 0 <= i < j < |s| ==> s[i].timestamp >= s[j].timestamp
  }

  /** Inserts `e` into a newest-first list, ahead of events with the same
      timestamp. */
  function InsertByTime(e: AlertEvent, s: seq<AlertEvent>): (r: seq<AlertEvent>)
    requires NewestFirst(s)
    ensures NewestFirst(r)
    ensures multiset(r) == multiset(s) + multiset{e}
    ensures |r| == |s| + 1
    ensures r[0] == e || (s != [] && r[0] == s[0])
  {
    if s == [] || e.timestamp >= s[0].timestamp then [e] + s
    else
      assert s == [s[0]] + s[1..];
      [s[0]] + InsertByTime(e, s[1..])
  }

  /** The events ordered newest first; events with equal timestamps keep
      their table order. */
  function SortNewestFirst(events: seq<AlertEvent>): (r: seq<AlertEvent>)
    ensures NewestFirst(r)
    ensures multiset(r) == multiset(events)
    ensures |r| == |events|
  {
    if events == [] then []
    else
      assert events == [events[0]] + events[1..];
      InsertByTime(events[0], SortNewestFirst(events[1..]))
  }

  // ---------------------------------------------------------------------
  // The persisted tables.
  // ---------------------------------------------------------------------

  /** Every rule has an id below `next`, and ids increase along the table. */
  ghost predicate RulesKeyed(rules: seq<AlertRule>, next: int)
  {
    && (forall i :: 0 <= i < |rules| ==> rules[i].id.Some? && rules[i].id.value < next)
    && (forall i, j :: 0 <= i < j < |rules| ==> rules[i].id.value < rules[j].id.value)
  }

  /** Every event has an id below `next`, and ids increase along the table. */
  ghost predicate EventsKeyed(events: seq<AlertEvent>, next: int)
  {
    && (forall i :: 0 <= i < |events| ==> events[i].id.Some? && events[i].id.value < next)
    && (forall i, j :: 0 <= i < j < |events| ==> events[i].id.value < events[j].id.value)
  }

  /** The rows as the store writes them: the i-th row gets id `start + i`. */
  function NumberRules(rows: seq<AlertRule>, start: int): (r: seq<AlertRule>)
    ensures |r| == |rows|
    ensures forall i :: 0 <= i < |rows| ==> r[i] == rows[i].(id := Some(start + i))
  {
    seq(|rows|, i requires 0 <= i < |rows| => rows[i].(id := Some(start + i)))
  }

  /** The rows as the store writes them: the i-th row gets id `start + i`. */
  function NumberEvents(rows: seq<AlertEvent>, start: int): (r: seq<AlertEvent>)
    ensures |r| == |rows|
    ensures forall i :: 0 <= i < |rows| ==> r[i] == rows[i].(id := Some(start + i))
  {
    seq(|rows|, i requires 0 <= i < |rows| => rows[i].(id := Some(start + i)))
  }

  /** The rule and event tables, with the counters the store draws ids from. */
  class Store {
    var rules: seq<AlertRule>
    var events: seq<AlertEvent>
    var nextRuleId: int
    var nextEventId: int

    ghost predicate Valid()
      reads this
    {
      RulesKeyed(rules, nextRuleId) && EventsKeyed(events, nextEventId)
    }

    constructor ()
      ensures Valid() && rules == [] && events == []
    {
      rules, events := [], [];
      nextRuleId, nextEventId := 1, 1;
    }

    /** `session.add_all(rows)` and `commit()` on the rule table: the rows are
        appended with fresh, increasing ids. */
    method AddRules(rows: seq<AlertRule>)
      requires Valid()
      modifies this
      ensures Valid()
      ensures rules == old(rules) + NumberRules(rows, old(nextRuleId))
      ensures nextRuleId == old(nextRuleId) + |rows| >= old(nextRuleId)
      ensures events == old(events) && nextEventId == old(nextEventId)
    {
      var added := NumberRules(rows, nextRuleId);
      rules := rules + added;
      nextRuleId := nextRuleId + |rows|;
    }

    /** `session.add_all(rows)` and `commit()` on the event table: the rows are
        appended with fresh, increasing ids. */
    method AddEvents(rows: seq<AlertEvent>)
      requires Valid()
      modifies this
      ensures Valid()
      ensures events == old(events) + NumberEvents(rows, old(nextEventId))
      ensures nextEventId == old(nextEventId) + |rows| >= old(nextEventId)
      ensures rules == old(rules) && nextRuleId == old(nextRuleId)
    {
      var added := NumberEvents(rows, nextEventId);
      events := events + added;
      nextEventId := nextEventId + |rows|;
    }
  }

  // ---------------------------------------------------------------------
  // Seeding.
  // ---------------------------------------------------------------------

  /** The four rules an empty store is seeded with. */
  function SeedRules(): (r: seq<AlertRule>)
    ensures |r| == 4
    ensures forall i :: 0 <= i < 4 ==> r[i].id == None
    ensures forall i :: 0 <= i < 4 ==> (r[i].isActive <==> i < 3)
    ensures [r[0].name, r[1].name, r[2].name, r[3].name]
         == ["High CPU Usage", "Memory Leak Warning", "Low Disk Space", "API Latency Spike"]
    ensures [r[0].importance, r[1].importance, r[2].importance, r[3].importance] == ["high", "medium", "critical", "low"]
    ensures [r[0].periodSeconds, r[1].periodSeconds, r[2].periodSeconds, r[3].periodSeconds] == [300, 600, 3600, 60]
  {
    [ AlertRule(
        name := "High CPU Usage",
        parameters := "{\"metric\": \"cpu\", \"threshold\": 90, \"ticker\": \"SRV-001\"}",
        importance := "high",
        periodSeconds := 300,
        actionConfig := "{\"email\": \"admin@example.com\"}",
        comment := Some("Critical server monitoring"),
        isActive := true),
      AlertRule(
        name := "Memory Leak Warning",
        parameters := "{\"metric\": \"memory\", \"threshold\": 85, \"ticker\": \"SRV-DB-02\"}",
        importance := "medium",
        periodSeconds := 600,
        actionConfig := "{\"slack\": \"#dev-ops\"}",
        comment := Some("Monitor for potential leaks"),
        isActive := true),
      AlertRule(
        name := "Low Disk Space",
        parameters := "{\"metric\": \"disk\", \"threshold\": 10, \"ticker\": \"SRV-STORAGE\"}",
        importance := "critical",
        periodSeconds := 3600,
        actionConfig := "{\"pagerduty\": \"urgent\"}",
        comment := Some("Storage capacity warning"),
        isActive := true),
      AlertRule(
        name := "API Latency Spike",
        parameters := "{\"metric\": \"latency\", \"threshold\": 500, \"ticker\": \"API-GATEWAY\"}",
        importance := "low",
        periodSeconds := 60,
        actionConfig := "{\"log\": \"true\"}",
        comment := Some("Performance degradation check"),
        isActive := false) ]
  }

  /** The rule table after seeding: the seed rules, numbered from `next`, when
      the table is empty; the table itself otherwise. */
  function SeedIfEmpty(rules: seq<AlertRule>, next: int): (r: seq<AlertRule>)
    ensures r != []
    ensures rules != [] ==> r == rules
  {
    if rules == [] then NumberRules(SeedRules(), next) else rules
  }

  /** Seeding an empty table yields exactly four rules, three of them active;
      "API Latency Spike" is the inactive one. The seeded rules get the ids
      `next` to `next + 3`. */
  lemma SeedingEmptyTable(next: int)
    ensures var r := SeedIfEmpty([], next);
      && |r| == 4
      && |Filter(r, IsActive)| == 3
      && r[3].name == "API Latency Spike" && !r[3].isActive
      && RulesKeyed(r, next + 4)
  {
    var r := SeedIfEmpty([], next);
    var flags := [true, true, true, false];
    assert forall i :: 0 <= i < 4 ==> r[i].isActive == flags[i];
    ActiveOfFour(r, flags);
  }

  lemma ActiveOfFour(r: seq<AlertRule>, flags: seq<bool>)
    requires |r| == 4 && flags == [true, true, true, false]
    requires forall i :: 0 <= i < 4 ==> r[i].isActive == flags[i]
    ensures |Filter(r, IsActive)| == 3
  {
    assert r[3..][1..] == [];
    assert Filter(r[3..], IsActive) == [];
    assert r[2..][1..] == r[3..];
    assert Filter(r[2..], IsActive) == [r[2]];
    assert r[1..][1..] == r[2..];
    assert Filter(r[1..], IsActive) == [r[1], r[2]];
  }

  /** Seeding twice adds nothing the first seeding did not. */
  lemma SeedIdempotent(rules: seq<AlertRule>, next: int, later: int)
    ensures SeedIfEmpty(SeedIfEmpty(rules, next), later) == SeedIfEmpty(rules, next)
  {
  }

  // ---------------------------------------------------------------------
  // The mock alert sweep.
  // ---------------------------------------------------------------------

  /** A rule is swept when its `random()` roll is below this chance. */
  const MockChance: real := 0.4

  /** What the sweep relies on once it has decoded a rule's parameters: an
      object whose `threshold`, when present, is a number. */
  predicate SweepableParams(decoded: Option<Value>)
  {
    decoded.Some? ==> decoded.value.Object? && NumberOrAbsent(decoded.value.fields, "threshold")
  }

  /** The inputs for one active rule: a stored rule (it has an id), a draw in
      [1, 20], and parameters the sweep can read if the roll makes it decode
      them. */
  predicate SampleReady(rule: AlertRule, roll: real, draw: int, decode: string -> Option<Value>)
  {
    && rule.id.Some?
    && 1 <= draw <= 20
    && (roll < MockChance ==> SweepableParams(decode(rule.parameters)))
  }

  /** The inputs of a sweep over the active rules: one roll and one draw per
      rule, each ready as above. */
  predicate SweepReady(active: seq<AlertRule>, rolls: seq<real>, draws: seq<int>, decode: string -> Option<Value>)
  {
    && |rolls| == |active|
    && |draws| == |active|
    && forall i :: 0 <= i < |active| ==> SampleReady(active[i], rolls[i], draws[i], decode)
  }

  /** What a mock alert reports: ticker, metric and threshold read from the
      parameters, and the value the metric supposedly reached. */
  datatype Reading = Reading(ticker: Value, metric: Value, threshold: Value, value: real)

  /** The reading for a rule's parameters and a `randint(1, 20)` draw. */
  function MockReading(params: Params, draw: int): (r: Reading)
    requires NumberOrAbsent(params, "threshold") && 1 <= draw <= 20
    ensures r.ticker == Get(params, "ticker", Str("UNKNOWN"))
    ensures r.metric == Get(params, "metric", Str("unknown_metric"))
    ensures r.threshold == Get(params, "threshold", Num(0.0)) && Numeric(r.threshold)
    ensures ToFloat(r.threshold) < r.value <= ToFloat(r.threshold) + 20.0
    ensures r.value - ToFloat(r.threshold) == draw as real
  {
    var threshold := Get(params, "threshold", Num(0.0));
    Reading(
      Get(params, "ticker", Str("UNKNOWN")),
      Get(params, "metric", Str("unknown_metric")),
      threshold,
      ToFloat(threshold) + draw as real)
  }

  /** "Alert triggered for {ticker}: {metric} is {value} (Threshold:
      {threshold})": the reading's four parts, shown in that order. */
  function MockMessage(r: Reading): (m: Message)
    ensures |m| == 9
    ensures m[1] == Shown(r.ticker) && m[3] == Shown(r.metric)
    ensures m[5] == Shown(Num(r.value)) && m[7] == Shown(r.threshold)
    ensures m[0] == Text("Alert triggered for ") && m[2] == Text(": ") && m[4] == Text(" is ")
    ensures m[6] == Text(" (Threshold: ") && m[8] == Text(")")
  {
    [Text("Alert triggered for "), Shown(r.ticker), Text(": "), Shown(r.metric), Text(" is "),
     Shown(Num(r.value)), Text(" (Threshold: "), Shown(r.threshold), Text(")")]
  }

  /** The message shows the whole reading: two readings with the same
      message are the same reading. */
  lemma MockMessageDeterminesReading(r1: Reading, r2: Reading)
    requires MockMessage(r1) == MockMessage(r2)
    ensures r1 == r2
  {
    assert MockMessage(r1)[5] == MockMessage(r2)[5];
  }

  /** The event one active rule contributes to a sweep, if any: one exactly
      when the roll is below the chance and the parameters decode. */
  function MockEvent(rule: AlertRule, roll: real, draw: int, now: Instant, decode: string -> Option<Value>): (e: Option<AlertEvent>)
    requires SampleReady(rule, roll, draw, decode)
    ensures e.Some? <==> roll < MockChance && decode(rule.parameters).Some?
    ensures e.Some? ==>
      && e.value.ruleId == rule.id.value
      && e.value.importance == rule.importance
      && !e.value.isAcknowledged
      && e.value.timestamp == now
      && e.value.id == None
    ensures e.Some? ==> e.value.message == MockMessage(MockReading(decode(rule.parameters).value.fields, draw))
  {
    if roll < MockChance then
      match decode(rule.parameters)
      case None => None
      case Some(params) =>
        Some(AlertEvent(
          ruleId := rule.id.value,
          message := MockMessage(MockReading(params.fields, draw)),
          importance := rule.importance,
          timestamp := now,
          isAcknowledged := false))
    else None
  }

  /** `MockEvent` as a list of at most one event. */
  function SweepStep(rule: AlertRule, roll: real, draw: int, now: Instant, decode: string -> Option<Value>): (out: seq<AlertEvent>)
    requires SampleReady(rule, roll, draw, decode)
    ensures |out| <= 1
    ensures |out| == 1 <==> roll < MockChance && decode(rule.parameters).Some?
    ensures forall e :: e in out ==>
      && e.ruleId == rule.id.value && e.importance == rule.importance
      && !e.isAcknowledged && e.timestamp == now && e.id == None
  {
    var e := MockEvent(rule, roll, draw, now, decode);
    if e.Some? then [e.value] else []
  }

  /** The events a sweep over the active rules creates, in rule order. */
  function MockSweep(active: seq<AlertRule>, rolls: seq<real>, draws: seq<int>, now: Instant,
                     decode: string -> Option<Value>): (out: seq<AlertEvent>)
    requires SweepReady(active, rolls, draws, decode)
    ensures |out| <= |active|
    decreases |active|
  {
    if active == [] then []
    else
      var n := |active| - 1;
      assert SweepReady(active[..n], rolls[..n], draws[..n], decode) by {
        forall i | 0 <= i < n ensures SampleReady(active[..n][i], rolls[..n][i], draws[..n][i], decode) {
          assert SampleReady(active[i], rolls[i], draws[i], decode);
        }
      }
      assert SampleReady(active[n], rolls[n], draws[n], decode);
      MockSweep(active[..n], rolls[..n], draws[..n], now, decode)
        + SweepStep(active[n], rolls[n], draws[n], now, decode)
  }

  /** A sweep's prefix is ready whenever the sweep is. */
  lemma PrefixReady(active: seq<AlertRule>, rolls: seq<real>, draws: seq<int>, decode: string -> Option<Value>, n: nat)
    requires SweepReady(active, rolls, draws, decode) && n <= |active|
    ensures SweepReady(active[..n], rolls[..n], draws[..n], decode)
  {
    forall i | 0 <= i < n ensures SampleReady(active[..n][i], rolls[..n][i], draws[..n][i], decode) {
      assert SampleReady(active[i], rolls[i], draws[i], decode);
    }
  }

  /** Sweeping one more rule appends that rule's step. */
  lemma SweepExtend(active: seq<AlertRule>, rolls: seq<real>, draws: seq<int>, now: Instant,
                    decode: string -> Option<Value>, i: nat)
    requires SweepReady(active, rolls, draws, decode) && i < |active|
    ensures SweepReady(active[..i], rolls[..i], draws[..i], decode)
    ensures SweepReady(active[..i + 1], rolls[..i + 1], draws[..i + 1], decode)
    ensures SampleReady(active[i], rolls[i], draws[i], decode)
    ensures MockSweep(active[..i + 1], rolls[..i + 1], draws[..i + 1], now, decode)
         == MockSweep(active[..i], rolls[..i], draws[..i], now, decode)
            + SweepStep(active[i], rolls[i], draws[i], now, decode)
  {
    PrefixReady(active, rolls, draws, decode, i);
    PrefixReady(active, rolls, draws, decode, i + 1);
    assert active[..i + 1][..i] == active[..i];
    assert rolls[..i + 1][..i] == rolls[..i];
    assert draws[..i + 1][..i] == draws[..i];
    assert active[..i + 1][i] == active[i] && rolls[..i + 1][i] == rolls[i] && draws[..i + 1][i] == draws[i];
  }

  /** Every swept event is new (no id), unacknowledged, stamped `now`, and
      copies the id and importance of one of the swept rules. */
  lemma {:induction false} SweepEventsFromRules(active: seq<AlertRule>, rolls: seq<real>, draws: seq<int>,
                                                now: Instant, decode: string -> Option<Value>)
    requires SweepReady(active, rolls, draws, decode)
    ensures var out := MockSweep(active, rolls, draws, now, decode);
      forall e :: e in out ==>
        && e.id == None && !e.isAcknowledged && e.timestamp == now
        && exists i :: 0 <= i < |active| && e.ruleId == active[i].id.value
                                          && e.importance == active[i].importance
    decreases |active|
  {
    if active != [] {
      var n := |active| - 1;
      PrefixReady(active, rolls, draws, decode, n);
      assert SampleReady(active[n], rolls[n], draws[n], decode);
      SweepEventsFromRules(active[..n], rolls[..n], draws[..n], now, decode);
      var pre := MockSweep(active[..n], rolls[..n], draws[..n], now, decode);
      var last := SweepStep(active[n], rolls[n], draws[n], now, decode);
      assert MockSweep(active, rolls, draws, now, decode) == pre + last;
      forall e: AlertEvent | e in pre + last
        ensures exists i :: 0 <= i < |active| && e.ruleId == active[i].id.value
                                               && e.importance == active[i].importance
      {
        if e in pre {
          var i :| 0 <= i < n && e.ruleId == active[..n][i].id.value
                              && e.importance == active[..n][i].importance;
          assert active[..n][i] == active[i];
        } else {
          assert e.ruleId == active[n].id.value && e.importance == active[n].importance;
        }
      }
    }
  }

  /** Distinct ids along a rule list. */
  ghost predicate DistinctIds(rules: seq<AlertRule>)
  {
    forall i, j :: 0 <= i < j < |rules| ==> rules[i].id != rules[j].id
  }

  /** When the swept rules have distinct ids, a sweep creates at most one
      event per rule. */
  lemma {:induction false} AtMostOnePerRule(active: seq<AlertRule>, rolls: seq<real>, draws: seq<int>,
                                            now: Instant, decode: string -> Option<Value>, id: int)
    requires SweepReady(active, rolls, draws, decode) && DistinctIds(active)
    ensures |Filter(MockSweep(active, rolls, draws, now, decode), (e: AlertEvent) => e.ruleId == id)| <= 1
    decreases |active|
  {
    if active != [] {
      var n := |active| - 1;
      var keep := (e: AlertEvent) => e.ruleId == id;
      PrefixReady(active, rolls, draws, decode, n);
      assert SampleReady(active[n], rolls[n], draws[n], decode);
      var pre := MockSweep(active[..n], rolls[..n], draws[..n], now, decode);
      var last := SweepStep(active[n], rolls[n], draws[n], now, decode);
      assert MockSweep(active, rolls, draws, now, decode) == pre + last;
      assert DistinctIds(active[..n]);
      AtMostOnePerRule(active[..n], rolls[..n], draws[..n], now, decode, id);
      FilterAppend(pre, last, keep);
      if Filter(last, keep) != [] {
        var e :| e in Filter(last, keep);
        assert active[n].id.value == id;
        EarlierRulesDiffer(active, rolls, draws, now, decode);
        NoneKept(pre, keep);
      }
    }
  }

  /** With distinct rule ids, no event swept from the rules before the last
      one carries the last rule's id. */
  lemma EarlierRulesDiffer(active: seq<AlertRule>, rolls: seq<real>, draws: seq<int>,
                           now: Instant, decode: string -> Option<Value>)
    requires SweepReady(active, rolls, draws, decode) && DistinctIds(active) && active != []
    ensures var n := |active| - 1;
      SweepReady(active[..n], rolls[..n], draws[..n], decode)
      && forall e :: e in MockSweep(active[..n], rolls[..n], draws[..n], now, decode) ==>
           e.ruleId != active[n].id.value
  {
    var n := |active| - 1;
    PrefixReady(active, rolls, draws, decode, n);
    SweepEventsFromRules(active[..n], rolls[..n], draws[..n], now, decode);
    forall e | e in MockSweep(active[..n], rolls[..n], draws[..n], now, decode)
      ensures e.ruleId != active[n].id.value
    {
      var i :| 0 <= i < n && e.ruleId == active[..n][i].id.value;
      assert active[..n][i] == active[i];
      assert active[i].id != active[n].id;
    }
  }

  /** Filtering a keyed rule table keeps it keyed: the kept rules still
      have ids below `next`, in increasing order. */
  lemma {:induction false} FilterKeepsKeyed(rules: seq<AlertRule>, next: int, keep: AlertRule -> bool)
    requires RulesKeyed(rules, next)
    ensures RulesKeyed(Filter(rules, keep), next)
  {
    if rules != [] {
      var rest := rules[1..];
      KeyedTail(rules, next);
      FilterKeepsKeyed(rest, next, keep);
      if keep(rules[0]) {
        var tail := Filter(rest, keep);
        forall y | y in tail ensures rules[0].id.value < y.id.value {
          var k :| 0 <= k < |rest| && rest[k] == y;
          assert rules[k + 1] == y;
        }
        KeyedCons(rules[0], tail, next);
      }
    }
  }

  lemma KeyedTail(rules: seq<AlertRule>, next: int)
    requires RulesKeyed(rules, next) && rules != []
    ensures RulesKeyed(rules[1..], next)
  {
    var rest := rules[1..];
    forall i, j | 0 <= i < j < |rest| ensures rest[i].id.value < rest[j].id.value {
      assert rest[i] == rules[i + 1] && rest[j] == rules[j + 1];
    }
  }

  lemma KeyedCons(x: AlertRule, tail: seq<AlertRule>, next: int)
    requires RulesKeyed(tail, next) && x.id.Some? && x.id.value < next
    requires forall y :: y in tail ==> x.id.value < y.id.value
    ensures RulesKeyed([x] + tail, next)
  {
    var r := [x] + tail;
    forall i, j | 0 <= i < j < |r| ensures r[i].id.value < r[j].id.value {
      assert r[j] == tail[j - 1];
      if i == 0 {
        assert tail[j - 1] in tail;
      } else {
        assert r[i] == tail[i - 1];
      }
    }
  }

  /** In a store whose ids are fresh and increasing, the active rules have
      distinct ids. */
  lemma ActiveRulesDistinct(rules: seq<AlertRule>, next: int)
    requires RulesKeyed(rules, next)
    ensures DistinctIds(Filter(rules, IsActive))
  {
    FilterKeepsKeyed(rules, next, IsActive);
  }

  /** With distinct rule ids, the events of one sweep carry pairwise distinct
      rule ids. */
  lemma {:induction false} SweepRuleIdsDistinct(active: seq<AlertRule>, rolls: seq<real>, draws: seq<int>,
                                                now: Instant, decode: string -> Option<Value>)
    requires SweepReady(active, rolls, draws, decode) && DistinctIds(active)
    ensures var out := MockSweep(active, rolls, draws, now, decode);
      forall i, j :: 0 <= i < j < |out| ==> out[i].ruleId != out[j].ruleId
    decreases |active|
  {
    if active != [] {
      var n := |active| - 1;
      PrefixReady(active, rolls, draws, decode, n);
      assert SampleReady(active[n], rolls[n], draws[n], decode);
      var pre := MockSweep(active[..n], rolls[..n], draws[..n], now, decode);
      var last := SweepStep(active[n], rolls[n], draws[n], now, decode);
      var out := MockSweep(active, rolls, draws, now, decode);
      assert out == pre + last;
      assert DistinctIds(active[..n]);
      SweepRuleIdsDistinct(active[..n], rolls[..n], draws[..n], now, decode);
      assert var o := MockSweep(active[..n], rolls[..n], draws[..n], now, decode);
        forall a, b :: 0 <= a < b < |o| ==> o[a].ruleId != o[b].ruleId;
      EarlierRulesDiffer(active, rolls, draws, now, decode);
      forall i, j | 0 <= i < j < |out| ensures out[i].ruleId != out[j].ruleId {
        if j < |pre| {
          assert out[i] == pre[i] && out[j] == pre[j];
          assert pre[i].ruleId != pre[j].ruleId;
        } else {
          assert out[i] == pre[i] && pre[i] in pre;
          assert out[j] == last[j - |pre|] && last[j - |pre|] in last;
          assert out[j].ruleId == active[n].id.value;
          assert pre[i].ruleId != active[n].id.value;
        }
      }
    }
  }

  lemma {:induction false} AllKept<T>(s: seq<T>, keep: T -> bool)
    requires forall x :: x in s ==> keep(x)
    ensures Filter(s, keep) == s
  {
    if s != [] {
      assert s[0] in s;
      assert forall x :: x in s[1..] ==> x in s;
      AllKept(s[1..], keep);
      assert s == [s[0]] + s[1..];
    }
  }

  lemma NoneKept<T>(s: seq<T>, keep: T -> bool)
    requires forall x :: x in s ==> !keep(x)
    ensures Filter(s, keep) == []
  {
    if Filter(s, keep) != [] {
      assert Filter(s, keep)[0] in Filter(s, keep);
    }
  }

  /** A sweep over two runs of rules is the sweep over the first followed by
      the sweep over the second: each rule is handled on its own. */
  lemma {:induction false} SweepAppend(a: seq<AlertRule>, ra: seq<real>, da: seq<int>,
                                       b: seq<AlertRule>, rb: seq<real>, db: seq<int>,
                                       now: Instant, decode: string -> Option<Value>)
    requires SweepReady(a, ra, da, decode) && SweepReady(b, rb, db, decode)
    ensures SweepReady(a + b, ra + rb, da + db, decode)
    ensures MockSweep(a + b, ra + rb, da + db, now, decode)
         == MockSweep(a, ra, da, now, decode) + MockSweep(b, rb, db, now, decode)
    decreases |b|
  {
    AppendReady(a, ra, da, b, rb, db, decode);
    if b == [] {
      assert a + b == a && ra + rb == ra && da + db == da;
    } else {
      var n := |b| - 1;
      var ab, rab, dab := a + b, ra + rb, da + db;
      PrefixReady(b, rb, db, decode, n);
      SweepAppend(a, ra, da, b[..n], rb[..n], db[..n], now, decode);
      SweepExtend(ab, rab, dab, now, decode, |a| + n);
      SweepExtend(b, rb, db, now, decode, n);
      assert ab[..|a| + n] == a + b[..n] && rab[..|a| + n] == ra + rb[..n] && dab[..|a| + n] == da + db[..n];
      assert ab[..|a| + n + 1] == ab && rab[..|a| + n + 1] == rab && dab[..|a| + n + 1] == dab;
      assert b[..n + 1] == b && rb[..n + 1] == rb && db[..n + 1] == db;
      assert ab[|a| + n] == b[n] && rab[|a| + n] == rb[n] && dab[|a| + n] == db[n];
      var sa, sb := MockSweep(a, ra, da, now, decode), MockSweep(b[..n], rb[..n], db[..n], now, decode);
      var step := SweepStep(b[n], rb[n], db[n], now, decode);
      assert MockSweep(ab, rab, dab, now, decode) == (sa + sb) + step;
      assert MockSweep(b, rb, db, now, decode) == sb + step;
      ConcatAssoc(sa, sb, step);
    }
  }

  lemma ConcatAssoc<T>(x: seq<T>, y: seq<T>, z: seq<T>)
    ensures (x + y) + z == x + (y + z)
  {
  }

  lemma AppendReady(a: seq<AlertRule>, ra: seq<real>, da: seq<int>,
                    b: seq<AlertRule>, rb: seq<real>, db: seq<int>, decode: string -> Option<Value>)
    requires SweepReady(a, ra, da, decode) && SweepReady(b, rb, db, decode)
    ensures SweepReady(a + b, ra + rb, da + db, decode)
  {
    forall i | 0 <= i < |a + b|
      ensures SampleReady((a + b)[i], (ra + rb)[i], (da + db)[i], decode)
    {
      if i < |a| {
        assert SampleReady(a[i], ra[i], da[i], decode);
      } else {
        assert SampleReady(b[i - |a|], rb[i - |a|], db[i - |a|], decode);
      }
    }
  }

  /** A rule whose parameters do not decode contributes no event, and the
      rules after it are still swept. */
  lemma SweepSkipsUndecodable(a: seq<AlertRule>, ra: seq<real>, da: seq<int>,
                              rule: AlertRule, roll: real, draw: int,
                              b: seq<AlertRule>, rb: seq<real>, db: seq<int>,
                              now: Instant, decode: string -> Option<Value>)
    requires SweepReady(a, ra, da, decode) && SweepReady(b, rb, db, decode)
    requires SampleReady(rule, roll, draw, decode)
    requires decode(rule.parameters) == None
    ensures SweepReady(a + [rule] + b, ra + [roll] + rb, da + [draw] + db, decode)
    ensures MockSweep(a + [rule] + b, ra + [roll] + rb, da + [draw] + db, now, decode)
         == MockSweep(a, ra, da, now, decode) + MockSweep(b, rb, db, now, decode)
  {
    var front, frontRolls, frontDraws := a + [rule], ra + [roll], da + [draw];
    assert SweepReady(front, frontRolls, frontDraws, decode)
        && MockSweep(front, frontRolls, frontDraws, now, decode) == MockSweep(a, ra, da, now, decode) by {
      SingleUndecodable(rule, roll, draw, now, decode);
      SweepAppend(a, ra, da, [rule], [roll], [draw], now, decode);
    }
    SweepAppend(front, frontRolls, frontDraws, b, rb, db, now, decode);
  }

  lemma SingleUndecodable(rule: AlertRule, roll: real, draw: int, now: Instant, decode: string -> Option<Value>)
    requires SampleReady(rule, roll, draw, decode) && decode(rule.parameters) == None
    ensures SweepReady([rule], [roll], [draw], decode)
    ensures MockSweep([rule], [roll], [draw], now, decode) == []
  {
    assert [rule][..0] == [] && [roll][..0] == [] && [draw][..0] == [];
    assert SweepStep(rule, roll, draw, now, decode) == [];
  }

  /** The loop over the active rules: for each one whose roll is below the
      chance, decode its parameters and build an unacknowledged event from
      them; a rule whose parameters do not decode is skipped and the loop
      goes on. */
  method SweepActive(active: seq<AlertRule>, rolls: seq<real>, draws: seq<int>, now: Instant,
                     decode: string -> Option<Value>) returns (newEvents: seq<AlertEvent>)
    requires SweepReady(active, rolls, draws, decode)
    ensures newEvents == MockSweep(active, rolls, draws, now, decode)
  {
    newEvents := [];
    for i := 0 to |active|
      invariant SweepReady(active[..i], rolls[..i], draws[..i], decode)
      invariant newEvents == MockSweep(active[..i], rolls[..i], draws[..i], now, decode)
    {
      SweepExtend(active, rolls, draws, now, decode, i);
      ghost var step := SweepStep(active[i], rolls[i], draws[i], now, decode);
      if rolls[i] < MockChance {
        var decoded := decode(active[i].parameters);
        if decoded.Some? {
          var reading := MockReading(decoded.value.fields, draws[i]);
          var event := AlertEvent(
            ruleId := active[i].id.value,
            message := MockMessage(reading),
            importance := active[i].importance,
            timestamp := now,
            isAcknowledged := false);
          assert step == [event];
          newEvents := newEvents + [event];
        } else {
          // the decoding error is logged and the rule skipped
          assert step == [];
        }
      } else {
        assert step == [];
      }
    }
    assert active[..|active|] == active && rolls[..|active|] == rolls && draws[..|active|] == draws;
  }

  /** Storing a sweep's events adds exactly that many unacknowledged events
      to a table. */
  lemma SweptEventsUnacknowledged(before: seq<AlertEvent>, active: seq<AlertRule>, rolls: seq<real>,
                                  draws: seq<int>, now: Instant, decode: string -> Option<Value>, start: int)
    requires SweepReady(active, rolls, draws, decode)
    ensures var added := NumberEvents(MockSweep(active, rolls, draws, now, decode), start);
      Filter(before + added, IsUnacknowledged) == Filter(before, IsUnacknowledged) + added
  {
    var swept := MockSweep(active, rolls, draws, now, decode);
    var added := NumberEvents(swept, start);
    SweepEventsFromRules(active, rolls, draws, now, decode);
    forall e | e in added ensures IsUnacknowledged(e) {
      var k :| 0 <= k < |added| && added[k] == e;
      assert swept[k] in swept;
    }
    AllKept(added, IsUnacknowledged);
    FilterAppend(before, added, IsUnacknowledged);
  }

  /** Storing a sweep over the active rules of a keyed table adds events
      with pairwise distinct rule ids: at most one per active rule. */
  lemma OneEventPerRule(before: seq<AlertEvent>, active: seq<AlertRule>, rolls: seq<real>, draws: seq<int>,
                        now: Instant, decode: string -> Option<Value>, rules: seq<AlertRule>, nextRule: int, start: int)
    requires RulesKeyed(rules, nextRule) && active == Filter(rules, IsActive)
    requires SweepReady(active, rolls, draws, decode)
    ensures var all := before + NumberEvents(MockSweep(active, rolls, draws, now, decode), start);
      forall i, j :: |before| <= i < j < |all| ==> all[i].ruleId != all[j].ruleId
  {
    var out := MockSweep(active, rolls, draws, now, decode);
    var all := before + NumberEvents(out, start);
    ActiveRulesDistinct(rules, nextRule);
    SweepRuleIdsDistinct(active, rolls, draws, now, decode);
    assert var o := MockSweep(active, rolls, draws, now, decode);
      forall a, b :: 0 <= a < b < |o| ==> o[a].ruleId != o[b].ruleId;
    forall i, j | |before| <= i < j < |all| ensures all[i].ruleId != all[j].ruleId {
      var added := NumberEvents(out, start);
      assert all[i] == added[i - |before|] && all[j] == added[j - |before|];
      assert added[i - |before|].ruleId == out[i - |before|].ruleId;
      assert added[j - |before|].ruleId == out[j - |before|].ruleId;
      assert out[i - |before|].ruleId != out[j - |before|].ruleId;
    }
  }

  /** The message a sweep shows when it is done. */
  function MockToast(count: nat): (t: string)
    ensures count == 0 ==> t == "No alerts generated this time."
    ensures count > 0 ==>
      && |t| > 27 && t[..10] == "Generated " && t[|t| - 17..] == " new mock alerts."
      && t[10..|t| - 17] == Decimal(count)
  {
    if count > 0 then "Generated " + Decimal(count) + " new mock alerts."
    else "No alerts generated this time."
  }

  /** The toast tells how many events a sweep stored: different counts give
      different toasts. */
  lemma ToastDeterminesCount(a: nat, b: nat)
    requires MockToast(a) == MockToast(b)
    ensures a == b
  {
    if a > 0 && b > 0 {
      DecimalInjective(a, b);
    }
  }

  // ---------------------------------------------------------------------
  // The dashboard state.
  // ---------------------------------------------------------------------

  /** The rules and events shown by the dashboard, with its four counters. */
  class AlertState {
    var rules: seq<AlertRule>
    var events: seq<AlertEvent>
    var totalRules: int
    var activeRulesCount: int
    var totalEvents: int
    var unacknowledgedEvents: int

    constructor ()
      ensures rules == [] && events == []
      ensures totalRules == 0 && activeRulesCount == 0 && totalEvents == 0 && unacknowledgedEvents == 0
    {
      rules, events := [], [];
      totalRules, activeRulesCount, totalEvents, unacknowledgedEvents := 0, 0, 0, 0;
    }

    /** The state shows the store: its rules, its events newest first, and
        counters computed from those lists. */
    ghost predicate Mirrors(db: Store)
      reads this, db
    {
      && rules == db.rules
      && events == SortNewestFirst(db.events)
      && totalRules == |rules|
      && activeRulesCount == |Filter(rules, IsActive)|
      && totalEvents == |events|
      && unacknowledgedEvents == |Filter(events, IsUnacknowledged)|
    }

    /** Loads both tables and recomputes the counters. Each counter is
        bounded by the size of its table, and the unacknowledged count is
        that of the table, whatever the display order. */
    method LoadData(db: Store)
      modifies this
      ensures Mirrors(db)
      ensures 0 <= activeRulesCount <= totalRules == |db.rules|
      ensures 0 <= unacknowledgedEvents <= totalEvents == |db.events|
      ensures unacknowledgedEvents == |Filter(db.events, IsUnacknowledged)|
    {
      rules := db.rules;
      events := SortNewestFirst(db.events);
      totalRules := |rules|;
      activeRulesCount := |Filter(rules, IsActive)|;
      totalEvents := |events|;
      unacknowledgedEvents := |Filter(events, IsUnacknowledged)|;
      FilterCountPermutation(events, db.events, IsUnacknowledged);
    }

    /** Seeds the rule table when it is empty, then loads the data. */
    method InitializeDb(db: Store)
      requires db.Valid()
      modifies this, db
      ensures db.Valid()
      ensures db.rules == SeedIfEmpty(old(db.rules), old(db.nextRuleId))
      ensures db.events == old(db.events)
      ensures db.nextRuleId == old(db.nextRuleId) + |db.rules| - |old(db.rules)|
      ensures db.nextEventId == old(db.nextEventId)
      ensures Mirrors(db)
    {
      var existing := db.rules;
      if existing == [] {
        db.AddRules(SeedRules());
      }
      LoadData(db);
    }

    /** Sweeps the active rules, stores the events the sweep creates (only
        when there are any), reloads the data and returns the toast text. */
    method GenerateMockAlerts(db: Store, rolls: seq<real>, draws: seq<int>, now: Instant,
                              decode: string -> Option<Value>) returns (toast: string)
      requires db.Valid()
      requires SweepReady(Filter(db.rules, IsActive), rolls, draws, decode)
      modifies this, db
      ensures db.Valid()
      ensures db.rules == old(db.rules) && db.nextRuleId == old(db.nextRuleId)
      ensures db.nextEventId == old(db.nextEventId) + |db.events| - |old(db.events)|
      ensures db.events == old(db.events)
        + NumberEvents(MockSweep(Filter(old(db.rules), IsActive), rolls, draws, now, decode), old(db.nextEventId))
      ensures toast == MockToast(|db.events| - |old(db.events)|)
      ensures Mirrors(db)
      ensures |db.events| - |old(db.events)| <= activeRulesCount
      ensures forall i, j :: |old(db.events)| <= i < j < |db.events| ==> db.events[i].ruleId != db.events[j].ruleId
      ensures unacknowledgedEvents == |Filter(old(db.events), IsUnacknowledged)| + (|db.events| - |old(db.events)|)
    {
      var newEvents := SweepActive(Filter(db.rules, IsActive), rolls, draws, now, decode);
      ghost var before := db.events;
      if newEvents != [] {
        db.AddEvents(newEvents);
      }
      SweptEventsUnacknowledged(before, Filter(old(db.rules), IsActive), rolls, draws, now, decode, old(db.nextEventId));
      OneEventPerRule(before, Filter(old(db.rules), IsActive), rolls, draws, now, decode, old(db.rules), old(db.nextRuleId), old(db.nextEventId));
      LoadData(db);
      toast := MockToast(|newEvents|);
    }
  }
}
