/**
 * The graph variant of the workflow. The state is a JSON dict; each node
 * takes the dict and returns a new one, and the nodes run in a line:
 * anonymize, analyze, route, communicate. A node first fills in the fields
 * that are missing (`ensure_defaults`). Every node but the first passes on
 * a state whose status starts with FAILED as it is. An exception inside a
 * node's body is caught: its text is appended to the errors with the node's
 * prefix and the status becomes the node's failure. An exception outside the
 * body is not caught, and the node yields `None`. Such an exception comes
 * from filling in the fields, from reading a status that is not a string, or
 * from appending to errors that are not a list.
 *
 * What the agents do inside a node is a parameter: each one either raises
 * (`Threw`) or returns its final state, dumped to JSON (`Returned`).
 */
module ComplaintGraph {
  import opened Wrappers
  import opened JsonValue
  import opened Schemas
  import opened Text

  /** A state as LangGraph passes it to a node: any dict. */
  type Dict = map<string, Json>

  // The fields of `ComplaintGraphState`.
  const COMPLAINT_ID := "complaint_id"
  const SOURCE := "source"
  const RAW := "complaint_raw"
  const ANONYMIZED := "complaint_anonymized"
  const ANALYZED := "complaint_analyzed"
  const ROUTING := "routing_decision"
  const TICKET := "ticket_info"
  const NOTIFICATION := "notification_info"
  const STEP := "current_step"
  const STATUS := "workflow_status"
  const ERRORS := "errors"
  const STARTED_AT := "started_at"
  const COMPLETED_AT := "completed_at"

  /**
   * `ComplaintGraphState` with every field present: what `ensure_defaults`
   * returns, and so what every node returns.
   */
  datatype GraphState = GraphState(
    complaintId: Json,
    source: Json,
    raw: Json,
    anonymized: Json,
    analyzed: Json,
    routing: Json,
    ticket: Json,
    notification: Json,
    step: Json,
    status: Json,
    errors: Json,
    startedAt: Json,
    completedAt: Json)

  /** The dict a node returns. */
  function AsDict(g: GraphState): Dict {
    map[COMPLAINT_ID := g.complaintId, SOURCE := g.source, RAW := g.raw, ANONYMIZED := g.anonymized,
        ANALYZED := g.analyzed, ROUTING := g.routing, TICKET := g.ticket, NOTIFICATION := g.notification,
        STEP := g.step, STATUS := g.status, ERRORS := g.errors, STARTED_AT := g.startedAt,
        COMPLETED_AT := g.completedAt]
  }

  const UNKNOWN_ID := "unknown"
  const UNKNOWN_SOURCE := "UNKNOWN"

  /** The status of a failed anonymisation, which is not a `WorkflowStatus` value. */
  const FAILED_ANONYMIZATION := "FAILED" + "_ANONYMIZATION"

  const NO_RAW := "complaint_raw is required"
  const NO_ANALYSIS := "No analysis data available for routing"
  const NO_ROUTING := "No routing decision available"
  /** What `Model(**d)` raises when `d` is not a dict. */
  const NOT_A_MAPPING := "argument after ** must be a mapping"

  /** The raw complaint dict, or `{}` when absent. */
  function RawOf(state: Dict): Json {
    Get(state, RAW, JObj(map[]))
  }

  /**
   * `get_complaint_id`: the root `complaint_id` when that key exists (whatever
   * its value), else the raw dict's id, else its external id, else "unknown".
   */
  function ComplaintId(state: Dict): (r: Json)
    ensures COMPLAINT_ID in state ==> r == state[COMPLAINT_ID]
    ensures COMPLAINT_ID !in state ==> Truthy(r)
  {
    if COMPLAINT_ID in state then state[COMPLAINT_ID]
    else match RawOf(state)
      case JObj(raw) => Or(Or(Get(raw, "id", JNull), Get(raw, "external_id", JNull)), JStr(UNKNOWN_ID))
      case _ => JStr(UNKNOWN_ID)
  }

  /** Without a root id, a truthy raw id wins over the external id, which wins over "unknown". */
  lemma ComplaintIdPrecedence(state: Dict, raw: map<string, Json>)
    requires COMPLAINT_ID !in state && RawOf(state) == JObj(raw)
    ensures Truthy(Get(raw, "id", JNull)) ==> ComplaintId(state) == raw["id"]
    ensures !Truthy(Get(raw, "id", JNull)) && Truthy(Get(raw, "external_id", JNull)) ==>
      ComplaintId(state) == raw["external_id"]
    ensures ComplaintId(state) == JStr(UNKNOWN_ID) <==>
      (Get(raw, "id", JNull) == JStr(UNKNOWN_ID)
       || (!Truthy(Get(raw, "id", JNull)) && Get(raw, "external_id", JNull) == JStr(UNKNOWN_ID))
       || (!Truthy(Get(raw, "id", JNull)) && !Truthy(Get(raw, "external_id", JNull))))
  {
  }

  /** The source of the raw dict `raw`, or "UNKNOWN"; `None` when `raw` is not a dict, whose missing `get` raises. */
  function RawSource(raw: Json): Option<Json> {
    match raw
    case JObj(fields) => Some(Get(fields, SOURCE, JStr(UNKNOWN_SOURCE)))
    case _ => None
  }

  /** The source `ensure_defaults` keeps: the state's own when truthy, otherwise the raw dict's. */
  function SourceOf(state: Dict): Option<Json> {
    var given := Get(state, SOURCE, JNull);
    if Truthy(given) then Some(given) else RawSource(RawOf(state))
  }

  /**
   * `ensure_defaults`: the graph's fields, present values kept and missing
   * ones filled in; the clock reading `now` is the start time when there is
   * none.
   */
  function EnsureDefaults(state: Dict, now: Timestamp): (r: Option<GraphState>)
    ensures r.None? <==> !Truthy(Get(state, SOURCE, JNull)) && !RawOf(state).JObj?
    ensures r.Some? ==> r.value.complaintId == ComplaintId(state) && r.value.raw == RawOf(state)
  {
    match SourceOf(state)
    case None => None
    case Some(source) =>
      Some(GraphState(
        ComplaintId(state),
        source,
        RawOf(state),
        Get(state, ANONYMIZED, JNull),
        Get(state, ANALYZED, JNull),
        Get(state, ROUTING, JNull),
        Get(state, TICKET, JNull),
        Get(state, NOTIFICATION, JNull),
        Get(state, STEP, JStr("new")),
        Get(state, STATUS, JStr(StatusValue(New))),
        Get(state, ERRORS, JArr([])),
        Get(state, STARTED_AT, JStr(now)),
        Get(state, COMPLETED_AT, JNull)))
  }

  /**
   * `ensure_defaults` raises exactly when the state has no truthy source
   * and its raw value is not a dict. Otherwise every field other than the
   * id and the source keeps its value when present; a missing status is
   * NEW, a missing step "new", a missing error list empty, a missing start
   * time `now`, and any other missing field is `None`. Keys that are not
   * fields of the graph's state are dropped.
   */
  lemma DefaultsKeepAndFill(state: Dict, now: Timestamp)
    ensures EnsureDefaults(state, now).None? <==> !Truthy(Get(state, SOURCE, JNull)) && !RawOf(state).JObj?
    ensures EnsureDefaults(state, now).Some? ==>
      var g := EnsureDefaults(state, now).value;
      g.raw == Get(state, RAW, JObj(map[]))
      && g.anonymized == Get(state, ANONYMIZED, JNull) && g.analyzed == Get(state, ANALYZED, JNull)
      && g.routing == Get(state, ROUTING, JNull) && g.ticket == Get(state, TICKET, JNull)
      && g.notification == Get(state, NOTIFICATION, JNull) && g.step == Get(state, STEP, JStr("new"))
      && g.status == Get(state, STATUS, JStr(StatusValue(New))) && g.errors == Get(state, ERRORS, JArr([]))
      && g.startedAt == Get(state, STARTED_AT, JStr(now)) && g.completedAt == Get(state, COMPLETED_AT, JNull)
    ensures EnsureDefaults(state, now).Some? ==>
      (AsDict(EnsureDefaults(state, now).value).Keys ==
         {COMPLAINT_ID, SOURCE, RAW, ANONYMIZED, ANALYZED, ROUTING, TICKET, NOTIFICATION, STEP, STATUS, ERRORS,
          STARTED_AT, COMPLETED_AT})
  {
  }

  /** Reading a field back from the dict a node returns gives the field. */
  lemma AsDictFields(g: GraphState)
    ensures COMPLAINT_ID in AsDict(g) && AsDict(g)[COMPLAINT_ID] == g.complaintId
    ensures Get(AsDict(g), SOURCE, JNull) == g.source && RawOf(AsDict(g)) == g.raw
    ensures Get(AsDict(g), ANONYMIZED, JNull) == g.anonymized && Get(AsDict(g), ANALYZED, JNull) == g.analyzed
    ensures Get(AsDict(g), ROUTING, JNull) == g.routing && Get(AsDict(g), TICKET, JNull) == g.ticket
    ensures Get(AsDict(g), NOTIFICATION, JNull) == g.notification
    ensures Get(AsDict(g), STEP, JStr("new")) == g.step && Get(AsDict(g), STATUS, JStr(StatusValue(New))) == g.status
    ensures Get(AsDict(g), ERRORS, JArr([])) == g.errors
    ensures forall now :: Get(AsDict(g), STARTED_AT, JStr(now)) == g.startedAt
    ensures Get(AsDict(g), COMPLETED_AT, JNull) == g.completedAt
  {
  }

  /** The source is the one `ensure_defaults` takes from the state itself: truthy, or else the raw dict's. */
  predicate Settled(g: GraphState) {
    if Truthy(g.source) then true else RawSource(g.raw) == Some(g.source)
  }

  /** `ensure_defaults` gives back a settled state as it is, whatever the clock says. */
  lemma SettledFixed(g: GraphState, now: Timestamp)
    requires Settled(g)
    ensures EnsureDefaults(AsDict(g), now) == Some(g)
  {
    AsDictFields(g);
  }

  /** What `ensure_defaults` returns is settled. */
  lemma DefaultsSettled(state: Dict, now: Timestamp)
    requires EnsureDefaults(state, now).Some?
    ensures Settled(EnsureDefaults(state, now).value)
  {
  }

  /** Filling in the fields twice is filling them in once, whatever the clock says the second time. */
  lemma DefaultsIdempotent(state: Dict, now: Timestamp, later: Timestamp)
    requires EnsureDefaults(state, now).Some?
    ensures EnsureDefaults(AsDict(EnsureDefaults(state, now).value), later) == EnsureDefaults(state, now)
  {
    DefaultsSettled(state, now);
    SettledFixed(EnsureDefaults(state, now).value, later);
  }

  // ---------------------------------------------------------------------
  // Nodes.

  /** What rebuilding each record from its dict raises when the dict fails validation, if anything. */
  datatype Checks = Checks(raw: Option<string>, anonymized: Option<string>, analyzed: Option<string>,
                           routing: Option<string>)

  /** The fields of the agent's final `ComplaintState` that the nodes read, each dumped to JSON (`null` for `None`). */
  datatype AgentResult = AgentResult(anonymized: Json, analyzed: Json, routing: Json, ticket: Json,
                                     notification: Json, status: WorkflowStatus)

  /** What running the agent does: it raises with a text, or it returns its final state. */
  datatype AgentOutcome = Threw(message: string) | Returned(result: AgentResult)

  /** `Model(**d)`: a value that is not a dict raises, a dict raises what its validation raises. */
  function Rebuild(d: Json, invalid: Option<string>): Option<string> {
    if !d.JObj? then Some(NOT_A_MAPPING) else invalid
  }

  /** Of two steps of a body run in order, the first exception raised. */
  function Then(first: Option<string>, next: Option<string>): (r: Option<string>)
    ensures r.None? <==> first.None? && next.None?
    ensures first.Some? ==> r == first
  {
    if first.Some? then first else next
  }

  function AgentError(agent: AgentOutcome): Option<string> {
    if agent.Threw? then Some(agent.message) else None
  }

  /**
   * A node's `except` branch: the text appended to the state's errors with
   * the node's prefix, and the node's failure status. `None` when the
   * errors are not a list, whose missing `append` raises.
   */
  function Failed(s: GraphState, prefix: string, message: string, failure: string): (r: Option<GraphState>)
    ensures r.Some? <==> s.errors.JArr?
    ensures r.Some? ==> r.value == s.(errors := JArr(s.errors.items + [JStr(prefix + message)]), status := JStr(failure))
  {
    match s.errors
    case JArr(items) => Some(s.(errors := JArr(items + [JStr(prefix + message)]), status := JStr(failure)))
    case _ => None
  }

  /** `state.get("workflow_status", "").startswith("FAILED")`; `None` when the status is not a string. */
  function FailedBefore(s: GraphState): Option<bool> {
    match s.status
    case JStr(v) => Some(StartsWith(v, "FAILED"))
    case _ => None
  }

  /** What the anonymize node's body raises, if anything: an empty raw dict is an error of its own. */
  function AnonymizeThrown(s: GraphState, checks: Checks, agent: AgentOutcome): Option<string> {
    Then(if !Truthy(s.raw) then Some(NO_RAW) else Rebuild(s.raw, checks.raw), AgentError(agent))
  }

  /**
   * `anonymize_node`: never skips, so the status it leaves is always its
   * own. It changes only the anonymised record, the step, the status and
   * the errors.
   */
  function AnonymizeNode(state: Dict, now: Timestamp, checks: Checks, agent: AgentOutcome): (r: Option<GraphState>)
    ensures r.Some? ==> EnsureDefaults(state, now).Some?
    ensures r.Some? ==> var s := EnsureDefaults(state, now).value;
      r.value.(anonymized := s.anonymized, step := s.step, status := s.status, errors := s.errors) == s
    ensures r.Some? ==> r.value.status == JStr(StatusValue(Anonymized)) || r.value.status == JStr(FAILED_ANONYMIZATION)
  {
    match EnsureDefaults(state, now)
    case None => None
    case Some(s) =>
      var thrown := AnonymizeThrown(s, checks, agent);
      if thrown.Some? then Failed(s, "Anonymization error: ", thrown.value, FAILED_ANONYMIZATION)
      else Some(s.(anonymized := agent.result.anonymized, step := JStr("anonymized"),
                   status := JStr(StatusValue(Anonymized))))
  }

  /** What the analyze node's body raises, if anything. */
  function AnalyzeThrown(s: GraphState, checks: Checks, agent: AgentOutcome): Option<string> {
    Then(Rebuild(s.raw, checks.raw),
      Then(if Truthy(s.anonymized) then Rebuild(s.anonymized, checks.anonymized) else None, AgentError(agent)))
  }

  /**
   * `analyze_node`: the status it stores is the analyst's, whatever it is.
   * Besides skipping a failed state, it changes only the analysis, the
   * step, the status and the errors.
   */
  function AnalyzeNode(state: Dict, now: Timestamp, checks: Checks, agent: AgentOutcome): (r: Option<GraphState>)
    ensures r.Some? ==> EnsureDefaults(state, now).Some?
    ensures r.Some? ==> var s := EnsureDefaults(state, now).value;
      r.value.(analyzed := s.analyzed, step := s.step, status := s.status, errors := s.errors) == s
    ensures EnsureDefaults(state, now).Some? && FailedBefore(EnsureDefaults(state, now).value) == Some(true) ==>
      r == EnsureDefaults(state, now)
  {
    match EnsureDefaults(state, now)
    case None => None
    case Some(s) =>
      match FailedBefore(s)
      case None => None
      case Some(skip) =>
        if skip then Some(s)
        else
          var thrown := AnalyzeThrown(s, checks, agent);
          if thrown.Some? then Failed(s, "Analysis error: ", thrown.value, StatusValue(FailedLlm))
          else Some(s.(analyzed := agent.result.analyzed, step := JStr("analyzed"),
                       status := JStr(StatusValue(agent.result.status))))
  }

  /** What the route node's body raises, if anything: a missing analysis is an error of its own. */
  function RouteThrown(s: GraphState, checks: Checks, agent: AgentOutcome): Option<string> {
    Then(Rebuild(s.raw, checks.raw),
      Then(if !Truthy(s.analyzed) then Some(NO_ANALYSIS) else Rebuild(s.analyzed, checks.analyzed), AgentError(agent)))
  }

  /**
   * `route_node`: besides skipping a failed state, it changes only the
   * routing decision, the step, the status and the errors.
   */
  function RouteNode(state: Dict, now: Timestamp, checks: Checks, agent: AgentOutcome): (r: Option<GraphState>)
    ensures r.Some? ==> EnsureDefaults(state, now).Some?
    ensures r.Some? ==> var s := EnsureDefaults(state, now).value;
      r.value.(routing := s.routing, step := s.step, status := s.status, errors := s.errors) == s
    ensures EnsureDefaults(state, now).Some? && FailedBefore(EnsureDefaults(state, now).value) == Some(true) ==>
      r == EnsureDefaults(state, now)
  {
    match EnsureDefaults(state, now)
    case None => None
    case Some(s) =>
      match FailedBefore(s)
      case None => None
      case Some(skip) =>
        if skip then Some(s)
        else
          var thrown := RouteThrown(s, checks, agent);
          if thrown.Some? then Failed(s, "Routing error: ", thrown.value, StatusValue(FailedRouting))
          else Some(s.(routing := agent.result.routing, step := JStr("routed"),
                       status := JStr(StatusValue(agent.result.status))))
  }

  /** `if result.ticket_info:`: the communicator returned with a ticket filed. */
  predicate Filed(agent: AgentOutcome) {
    agent.Returned? && !agent.result.ticket.JNull?
  }

  /** The text of the `AttributeError` pydantic raises on reading `ticket_key`, which `TicketInfo` does not have. */
  const NO_TICKET_KEY := "'TicketInfo' object has no attribute 'ticket_key'"

  /**
   * What the communicate node's body raises before it logs the ticket: a
   * missing routing decision is an error of its own, then the agent's own.
   * This is all the body raises once the log line reads the ticket's
   * `jira_key`.
   */
  function IntendedCommunicateThrown(s: GraphState, checks: Checks, agent: AgentOutcome): (r: Option<string>)
    ensures r.None? ==> agent.Returned?
    ensures (!Truthy(s.routing) && Rebuild(s.raw, checks.raw).None?
             && (Truthy(s.analyzed) ==> Rebuild(s.analyzed, checks.analyzed).None?)) ==> r == Some(NO_ROUTING)
  {
    Then(Rebuild(s.raw, checks.raw),
      Then(if Truthy(s.analyzed) then Rebuild(s.analyzed, checks.analyzed) else None,
        Then(if !Truthy(s.routing) then Some(NO_ROUTING) else Rebuild(s.routing, checks.routing), AgentError(agent))))
  }

  /**
   * What the communicate node's body raises as written: after a filed
   * ticket the log line reads `ticket_key`, so the body returns only when
   * the communicator filed no ticket.
   */
  function CommunicateThrown(s: GraphState, checks: Checks, agent: AgentOutcome): (r: Option<string>)
    ensures r.None? <==> IntendedCommunicateThrown(s, checks, agent).None? && !Filed(agent)
    ensures r.None? ==> agent.Returned? && agent.result.ticket.JNull?
    ensures IntendedCommunicateThrown(s, checks, agent).None? && Filed(agent) ==> r == Some(NO_TICKET_KEY)
  {
    Then(IntendedCommunicateThrown(s, checks, agent), if Filed(agent) then Some(NO_TICKET_KEY) else None)
  }

  /**
   * The communicate node's `try` after its body raised `thrown`, or
   * returned: the ticket, the notification, the communicator's status and
   * the completion time `doneAt`, whatever that status is.
   */
  function CommunicateOutcome(s: GraphState, doneAt: Timestamp, thrown: Option<string>, agent: AgentOutcome)
    : Option<GraphState>
    requires thrown.None? ==> agent.Returned?
  {
    if thrown.Some? then Failed(s, "Communication error: ", thrown.value, StatusValue(FailedJira))
    else Some(s.(ticket := agent.result.ticket, notification := agent.result.notification,
                 step := JStr("completed"), status := JStr(StatusValue(agent.result.status)),
                 completedAt := JStr(doneAt)))
  }

  /**
   * `communicate_node` as written. Besides skipping a failed state, it
   * changes only the ticket, the notification, the step, the status, the
   * errors and the completion time.
   */
  function CommunicateNode(state: Dict, now: Timestamp, doneAt: Timestamp, checks: Checks, agent: AgentOutcome)
    : (r: Option<GraphState>)
    ensures r.Some? ==> EnsureDefaults(state, now).Some?
    ensures r.Some? ==> var s := EnsureDefaults(state, now).value;
      r.value.(ticket := s.ticket, notification := s.notification, step := s.step, status := s.status,
               errors := s.errors, completedAt := s.completedAt) == s
    ensures EnsureDefaults(state, now).Some? && FailedBefore(EnsureDefaults(state, now).value) == Some(true) ==>
      r == EnsureDefaults(state, now)
  {
    match EnsureDefaults(state, now)
    case None => None
    case Some(s) =>
      match FailedBefore(s)
      case None => None
      case Some(skip) =>
        if skip then Some(s) else CommunicateOutcome(s, doneAt, CommunicateThrown(s, checks, agent), agent)
  }

  /** `communicate_node` with its log line reading the ticket's `jira_key`. */
  function IntendedCommunicateNode(state: Dict, now: Timestamp, doneAt: Timestamp, checks: Checks,
                                   agent: AgentOutcome): (r: Option<GraphState>)
    ensures r.Some? ==> EnsureDefaults(state, now).Some?
    ensures r.Some? ==> var s := EnsureDefaults(state, now).value;
      r.value.(ticket := s.ticket, notification := s.notification, step := s.step, status := s.status,
               errors := s.errors, completedAt := s.completedAt) == s
    ensures EnsureDefaults(state, now).Some? && FailedBefore(EnsureDefaults(state, now).value) == Some(true) ==>
      r == EnsureDefaults(state, now)
  {
    match EnsureDefaults(state, now)
    case None => None
    case Some(s) =>
      match FailedBefore(s)
      case None => None
      case Some(skip) =>
        if skip then Some(s) else CommunicateOutcome(s, doneAt, IntendedCommunicateThrown(s, checks, agent), agent)
  }

  /**
   * As written, a communicator that files a ticket makes the node fail: the
   * ticket and the notification are not recorded, no completion time is
   * stamped, and the status is FAILED_JIRA with one more error.
   */
  lemma FiledTicketFails(state: Dict, runs: Runs, s: GraphState)
    requires WellFormed(runs) && EnsureDefaults(state, runs.now) == Some(s) && FailedBefore(s) == Some(false)
    requires IntendedCommunicateThrown(s, runs.checks, runs.agents[3]).None? && Filed(runs.agents[3])
    requires s.errors.JArr?
    ensures Node(3, state, runs) ==
      Some(s.(errors := JArr(s.errors.items + [JStr("Communication error: " + NO_TICKET_KEY)]),
              status := JStr(StatusValue(FailedJira))))
  {
  }

  /**
   * Once the log line reads `jira_key`, a communicator that completes makes
   * the node complete: the ticket and the notification are recorded, the
   * step is "completed", the status COMPLETED and the completion time
   * stamped, with the errors as they were.
   */
  lemma IntendedNodeCompletes(state: Dict, now: Timestamp, doneAt: Timestamp, checks: Checks, agent: AgentOutcome,
                              s: GraphState)
    requires EnsureDefaults(state, now) == Some(s) && FailedBefore(s) == Some(false)
    requires IntendedCommunicateThrown(s, checks, agent).None? && agent.result.status == Completed
    ensures IntendedCommunicateNode(state, now, doneAt, checks, agent) ==
      Some(s.(ticket := agent.result.ticket, notification := agent.result.notification, step := JStr("completed"),
              status := JStr(StatusValue(Completed)), completedAt := JStr(doneAt)))
  {
  }

  // ---------------------------------------------------------------------
  // The graph.

  /** The nodes in the order of the graph's edges, START to END. */
  const NODES := ["anonymize", "analyze", "route", "communicate"]

  /** What happens inside each node when the graph runs, and the clock readings. */
  datatype Runs = Runs(checks: Checks, agents: seq<AgentOutcome>, now: Timestamp, doneAt: Timestamp)

  predicate WellFormed(runs: Runs) {
    |runs.agents| == |NODES|
  }

  /** The node `NODES[k]`: no node changes the complaint's id, its source, its raw record or its start time. */
  function Node(k: nat, state: Dict, runs: Runs): (r: Option<GraphState>)
    requires k < |NODES| && WellFormed(runs)
    ensures r.Some? ==> EnsureDefaults(state, runs.now).Some? && SameComplaint(r.value, EnsureDefaults(state, runs.now).value)
  {
    if k == 0 then AnonymizeNode(state, runs.now, runs.checks, runs.agents[0])
    else if k == 1 then AnalyzeNode(state, runs.now, runs.checks, runs.agents[1])
    else if k == 2 then RouteNode(state, runs.now, runs.checks, runs.agents[2])
    else CommunicateNode(state, runs.now, runs.doneAt, runs.checks, runs.agents[3])
  }

  /** Two states about the same complaint: the same id, source, raw record and start time. */
  predicate SameComplaint(g: GraphState, s: GraphState) {
    g.complaintId == s.complaintId && g.source == s.source && g.raw == s.raw && g.startedAt == s.startedAt
  }

  /**
   * The nodes from `NODES[k]` on, each given the dict the previous one
   * returned; `None` once one raises. `state` is what `NODES[k]` is given.
   * The dict that comes out keeps the complaint id, the raw record and the
   * start time that the first of these nodes settled on.
   */
  function RunFrom(k: nat, state: Dict, runs: Runs): (r: Option<Dict>)
    requires k <= |NODES| && WellFormed(runs)
    ensures k < |NODES| && r.Some? ==> Kept(r.value, state, runs.now)
    decreases |NODES| - k
  {
    if k == |NODES| then Some(state)
    else match Node(k, state, runs)
      case None => None
      case Some(g) => AsDictFields(g); RunFrom(k + 1, AsDict(g), runs)
  }

  /** `out` holds the complaint id, raw record and start time that `ensure_defaults` gives `state` at `now`. */
  predicate Kept(out: Dict, state: Dict, now: Timestamp) {
    COMPLAINT_ID in out && out[COMPLAINT_ID] == ComplaintId(state) && RawOf(out) == RawOf(state)
    && Get(out, STARTED_AT, JNull) == Get(state, STARTED_AT, JStr(now))
  }

  /**
   * The compiled graph: START, then every node in order, then END. A run
   * that ends ends with the complaint id, the raw record and the start
   * time the first node settled on.
   */
  function RunGraph(input: Dict, runs: Runs): (r: Option<Dict>)
    requires WellFormed(runs)
    ensures r.Some? ==> Kept(r.value, input, runs.now)
  {
    RunFrom(0, input, runs)
  }

  // ---------------------------------------------------------------------
  // What the nodes promise.

  /** A settled state whose status is a string starting with FAILED. */
  predicate Stopped(g: GraphState) {
    Settled(g) && g.status.JStr? && StartsWith(g.status.s, "FAILED")
  }

  /** The analyze, route and communicate nodes pass a failed state on unchanged. */
  lemma SkipsAfterFailure(k: nat, g: GraphState, runs: Runs)
    requires 0 < k < |NODES| && WellFormed(runs) && Stopped(g)
    ensures Node(k, AsDict(g), runs) == Some(g)
  {
    SettledFixed(g, runs.now);
  }

  /** Once a node leaves a failed state, the nodes after it leave it as it is, to the end of the graph. */
  lemma {:induction false} FailureSticks(k: nat, g: GraphState, runs: Runs)
    requires 0 < k <= |NODES| && WellFormed(runs) && Stopped(g)
    ensures RunFrom(k, AsDict(g), runs) == Some(AsDict(g))
    decreases |NODES| - k
  {
    if k < |NODES| {
      SkipsAfterFailure(k, g, runs);
      FailureSticks(k + 1, g, runs);
    }
  }

  /** Every node that returns, whether it skipped, succeeded or failed, returns a settled state. */
  lemma NodeSettled(k: nat, state: Dict, runs: Runs)
    requires k < |NODES| && WellFormed(runs) && Node(k, state, runs).Some?
    ensures Settled(Node(k, state, runs).value)
  {
    DefaultsSettled(state, runs.now);
  }

  /**
   * The edges are a line, so the graph ends with the state of the first
   * node that fails: its result is what that node returned.
   */
  lemma GraphStopsAtFailure(k: nat, state: Dict, runs: Runs)
    requires k < |NODES| && WellFormed(runs) && Node(k, state, runs).Some?
    requires Node(k, state, runs).value.status.JStr? && StartsWith(Node(k, state, runs).value.status.s, "FAILED")
    ensures RunFrom(k, state, runs) == Some(AsDict(Node(k, state, runs).value))
  {
    NodeSettled(k, state, runs);
    FailureSticks(k + 1, Node(k, state, runs).value, runs);
  }

  /**
   * Each node that raises inside its body appends exactly one error, with
   * the node's prefix, and sets the node's failure; nothing else changes.
   * The raise is caught unless the errors are not a list.
   */
  lemma NodeFailure(k: nat, state: Dict, runs: Runs, s: GraphState)
    requires k < |NODES| && WellFormed(runs) && EnsureDefaults(state, runs.now) == Some(s)
    requires k > 0 ==> FailedBefore(s) == Some(false)
    requires Thrown(k, s, runs).Some?
    ensures Node(k, state, runs).Some? <==> s.errors.JArr?
    ensures Node(k, state, runs).Some? ==>
      (Node(k, state, runs).value ==
         s.(errors := JArr(s.errors.items + [JStr(Prefix(k) + Thrown(k, s, runs).value)]), status := JStr(Failure(k))))
  {
  }

  /** What the body of `NODES[k]` raises, if anything. */
  function Thrown(k: nat, s: GraphState, runs: Runs): Option<string>
    requires k < |NODES| && WellFormed(runs)
  {
    if k == 0 then AnonymizeThrown(s, runs.checks, runs.agents[0])
    else if k == 1 then AnalyzeThrown(s, runs.checks, runs.agents[1])
    else if k == 2 then RouteThrown(s, runs.checks, runs.agents[2])
    else CommunicateThrown(s, runs.checks, runs.agents[3])
  }

  /** The prefix of the error `NODES[k]` records. */
  function Prefix(k: nat): string {
    if k == 0 then "Anonymization error: " else if k == 1 then "Analysis error: "
    else if k == 2 then "Routing error: " else "Communication error: "
  }

  /** The status `NODES[k]` fails with: each starts with FAILED. */
  function Failure(k: nat): (r: string)
    ensures StartsWith(r, "FAILED")
  {
    if k == 0 then FAILED_ANONYMIZATION else if k == 1 then StatusValue(FailedLlm)
    else if k == 2 then StatusValue(FailedRouting) else StatusValue(FailedJira)
  }

  /**
   * A node whose body returns copies back the agent's records and status
   * but not the agent's errors: the errors are those the state came with.
   */
  lemma NodeKeepsErrors(k: nat, state: Dict, runs: Runs, s: GraphState)
    requires k < |NODES| && WellFormed(runs) && EnsureDefaults(state, runs.now) == Some(s)
    requires k > 0 ==> FailedBefore(s) == Some(false)
    requires Thrown(k, s, runs).None?
    ensures Node(k, state, runs).Some? && Node(k, state, runs).value.errors == s.errors
    ensures k > 0 ==> Node(k, state, runs).value.status == JStr(StatusValue(runs.agents[k].result.status))
    ensures k == 3 ==> runs.agents[3].Returned? && runs.agents[3].result.ticket.JNull?
  {
  }

  /** As written, the communicate node leaves COMPLETED only when the communicator filed no ticket. */
  lemma CompletesOnlyWithoutTicket(state: Dict, runs: Runs)
    requires WellFormed(runs) && Node(3, state, runs).Some?
    requires Node(3, state, runs).value.status == JStr(StatusValue(Completed))
    ensures runs.agents[3].Returned? && runs.agents[3].result.ticket.JNull?
  {
    var s := EnsureDefaults(state, runs.now).value;
    StatusValuesDistinct(Completed, Completed);
    if FailedBefore(s) == Some(false) && CommunicateThrown(s, runs.checks, runs.agents[3]).Some? {
      StatusValuesDistinct(FailedJira, Completed);
    }
  }

  /**
   * As written, the graph ends COMPLETED only when the communicator filed no
   * ticket: the mock clients it is given always file one, so in practice
   * the graph never completes.
   */
  lemma GraphCompletesOnlyWithoutTicket(input: Dict, runs: Runs)
    requires WellFormed(runs) && RunGraph(input, runs).Some?
    requires Get(RunGraph(input, runs).value, STATUS, JNull) == JStr(StatusValue(Completed))
    ensures runs.agents[3].Returned? && runs.agents[3].result.ticket.JNull?
  {
    var d := input;
    var k := 0;
    while k < 3
      invariant k <= 3 && RunFrom(k, d, runs) == RunGraph(input, runs)
    {
      d, k := AsDict(Node(k, d, runs).value), k + 1;
    }
    AsDictFields(Node(3, d, runs).value);
    CompletesOnlyWithoutTicket(d, runs);
  }

  /** The route node fails when there is no analysis, the communicate node when there is no routing decision. */
  lemma MissingInputFails(state: Dict, runs: Runs, s: GraphState)
    requires WellFormed(runs) && EnsureDefaults(state, runs.now) == Some(s) && FailedBefore(s) == Some(false)
    requires s.raw.JObj? && runs.checks.raw.None? && s.errors.JArr?
    ensures !Truthy(s.analyzed) ==>
      (RouteNode(state, runs.now, runs.checks, runs.agents[2]) ==
         Some(s.(errors := JArr(s.errors.items + [JStr("Routing error: " + NO_ANALYSIS)]),
                 status := JStr(StatusValue(FailedRouting)))))
    ensures !Truthy(s.routing) && (Truthy(s.analyzed) ==> Rebuild(s.analyzed, runs.checks.analyzed).None?) ==>
      (CommunicateNode(state, runs.now, runs.doneAt, runs.checks, runs.agents[3]) ==
         Some(s.(errors := JArr(s.errors.items + [JStr("Communication error: " + NO_ROUTING)]),
                 status := JStr(StatusValue(FailedJira)))))
  {
  }

  /** FAILED_ANONYMIZATION is no status of the workflow, yet it reads as a failure to the nodes after it. */
  lemma AnonymizationFailureOutsideEnum()
    ensures forall w :: StatusValue(w) != FAILED_ANONYMIZATION
    ensures StartsWith(FAILED_ANONYMIZATION, "FAILED")
  {
    forall w
      ensures |StatusValue(w)| < |FAILED_ANONYMIZATION|
    {
    }
  }
}
