/**
 * The orchestrator: it runs each complaint through the privacy, analyst,
 * router and communicator agents in that order, stops after a failed
 * analysis or a failed routing, saves the state after every step when a
 * store is attached, and keeps running counts of the outcomes. What the
 * collaborators do (the LLM, the team loader and search, the clock, the
 * message ids, whether a save succeeds, whether a record's run raises)
 * arrives as parameters.
 */
module Orchestrator {
  import opened Wrappers
  import opened Text
  import opened Schemas
  import opened Base
  import opened OrderedDict
  import Collector
  import Privacy
  import Analyst
  import Router
  import Communicator
  import MockJira
  import MockEmail
  import AzureOpenAI

  // ---------------------------------------------------------------------
  // The steps, and what a store keeps of them.

  /** The four steps of `_execute_workflow`. */
  datatype Step = Anonymize | Analyze | Route | Communicate

  /** The name each step is saved under. */
  function StepName(s: Step): string {
    match s
    case Anonymize => "anonymize"
    case Analyze => "analyze"
    case Route => "route"
    case Communicate => "communicate"
  }

  /** The order the steps run in. */
  const ORDER: seq<Step> := [Anonymize, Analyze, Route, Communicate]

  /** The audit event `_save_state` logs: the complaint, `step_<name>`, the status reached and the step. */
  datatype Event = Event(complaintId: string, eventType: string, status: string, step: string)

  function StepEvent(raw: ComplaintRaw, status: WorkflowStatus, step: Step): Event {
    Event(DisplayId(raw), "step_" + StepName(step), StatusValue(status), StepName(step))
  }

  /** What became of one save: both calls went through, the state was saved but the event was not, or nothing was saved. */
  datatype SaveOutcome = Saved | AuditFailed | SaveFailed

  /** What a store holds: the saved states, in order, and the logged events. */
  datatype StoreView = StoreView(saved: seq<StateView>, events: seq<Event>)

  /** The store after one best-effort save of `v` after `step`. */
  function Record(sv: StoreView, v: StateView, step: Step, o: SaveOutcome): StoreView {
    match o
    case Saved => StoreView(sv.saved + [v], sv.events + [StepEvent(v.raw, v.status, step)])
    case AuditFailed => sv.(saved := sv.saved + [v])
    case SaveFailed => sv
  }

  /** The store after the save that follows each step: `snapshots[i]` is the state after step `ORDER[i]`. */
  function RecordSteps(sv: StoreView, snapshots: seq<StateView>, save: Step -> SaveOutcome): StoreView
    requires |snapshots| <= |ORDER|
  {
    if snapshots == [] then sv
    else
      var k := |snapshots| - 1;
      Record(RecordSteps(sv, snapshots[..k], save), snapshots[k], ORDER[k], save(ORDER[k]))
  }

  /** One event per step, naming the step and the status it reached. */
  function StepEvents(snapshots: seq<StateView>): (r: seq<Event>)
    requires |snapshots| <= |ORDER|
    ensures |r| == |snapshots|
    ensures forall i :: 0 <= i < |r| ==> r[i].eventType == "step_" + StepName(ORDER[i])
  {
    seq(|snapshots|, i requires 0 <= i < |snapshots| => StepEvent(snapshots[i].raw, snapshots[i].status, ORDER[i]))
  }

  /** Saving after one more step records it on top of the saves before. */
  lemma RecordStepsSnoc(sv: StoreView, snapshots: seq<StateView>, v: StateView, save: Step -> SaveOutcome)
    requires |snapshots| < |ORDER|
    ensures RecordSteps(sv, snapshots + [v], save)
      == Record(RecordSteps(sv, snapshots, save), v, ORDER[|snapshots|], save(ORDER[|snapshots|]))
  {
    assert (snapshots + [v])[..|snapshots|] == snapshots;
  }

  /** When every save goes through, the store gains every state and one event per step, in step order. */
  lemma {:induction false} RecordStepsAllSaved(sv: StoreView, snapshots: seq<StateView>, save: Step -> SaveOutcome)
    requires |snapshots| <= |ORDER|
    requires forall s: Step :: save(s) == Saved
    ensures RecordSteps(sv, snapshots, save) == StoreView(sv.saved + snapshots, sv.events + StepEvents(snapshots))
  {
    if snapshots != [] {
      var k := |snapshots| - 1;
      RecordStepsAllSaved(sv, snapshots[..k], save);
      assert snapshots == snapshots[..k] + [snapshots[k]];
      assert StepEvents(snapshots) == StepEvents(snapshots[..k]) + [StepEvent(snapshots[k].raw, snapshots[k].status, ORDER[k])];
    }
  }

  /**
   * Saving is best effort and only ever appends: the store keeps what it
   * had, gains at most one state per step, each one of the snapshots, and
   * logs an event only for a state it saved.
   */
  lemma {:induction false} RecordStepsOnlyAppends(sv: StoreView, snapshots: seq<StateView>, save: Step -> SaveOutcome)
    requires |snapshots| <= |ORDER|
    ensures var r := RecordSteps(sv, snapshots, save);
      sv.saved <= r.saved && sv.events <= r.events
      && |r.events| - |sv.events| <= |r.saved| - |sv.saved| <= |snapshots|
      && forall i :: |sv.saved| <= i < |r.saved| ==> r.saved[i] in snapshots
  {
    if snapshots != [] {
      var k := |snapshots| - 1;
      RecordStepsOnlyAppends(sv, snapshots[..k], save);
      var m := RecordSteps(sv, snapshots[..k], save);
      var r := RecordSteps(sv, snapshots, save);
      assert r == Record(m, snapshots[k], ORDER[k], save(ORDER[k]));
      forall i | |sv.saved| <= i < |r.saved|
        ensures r.saved[i] in snapshots
      {
        if i < |m.saved| {
          assert r.saved[i] == m.saved[i];
          assert m.saved[i] in snapshots[..k];
        } else {
          assert r.saved[i] == snapshots[k];
        }
      }
    }
  }

  // ---------------------------------------------------------------------
  // The counters.

  /** The status values of `ss`, in order. */
  function StatusValues(ss: seq<WorkflowStatus>): (r: seq<string>)
    ensures |r| == |ss| && forall i :: 0 <= i < |ss| ==> r[i] == StatusValue(ss[i])
  {
    seq(|ss|, i requires 0 <= i < |ss| => StatusValue(ss[i]))
  }

  /** `by_status` after counting `ss` from left to right. */
  function Tally(ss: seq<WorkflowStatus>): (h: Dict<string, nat>)
  {
    if ss == [] then Empty() else Bump(Tally(ss[..|ss| - 1]), StatusValue(ss[|ss| - 1]))
  }

  /** Counting statuses under their values is the histogram of the values. */
  lemma {:induction false} TallyHistogram(ss: seq<WorkflowStatus>)
    ensures Tally(ss) == Histogram(StatusValues(ss))
  {
    if ss != [] {
      TallyHistogram(ss[..|ss| - 1]);
      assert StatusValues(ss)[..|ss| - 1] == StatusValues(ss[..|ss| - 1]);
    }
  }

  /** How many of `ss` are failures. */
  function Failures(ss: seq<WorkflowStatus>): (n: nat)
    ensures n <= |ss|
  {
    if ss == [] then 0 else Failures(ss[..|ss| - 1]) + (if IsFailure(ss[|ss| - 1]) then 1 else 0)
  }

  /** A status a run of the workflow ends in: completed, or failed at analysis, routing or the ticket. */
  predicate Terminal(s: WorkflowStatus) {
    s == Completed || s == FailedLlm || s == FailedRouting || s == FailedJira
  }

  /**
   * No complaint counts both as a success and as a failure; when every
   * complaint ended its run, every complaint counts as one or the other.
   */
  lemma {:induction false} OutcomesBalance(ss: seq<WorkflowStatus>)
    ensures Occurrences(ss, Completed) + Failures(ss) <= |ss|
    ensures (forall i :: 0 <= i < |ss| ==> Terminal(ss[i])) ==> Occurrences(ss, Completed) + Failures(ss) == |ss|
  {
    if ss != [] {
      var k := |ss| - 1;
      OutcomesBalance(ss[..k]);
      if forall i :: 0 <= i < |ss| ==> Terminal(ss[i]) {
        assert forall i :: 0 <= i < k ==> ss[..k][i] == ss[i];
        assert Terminal(ss[k]);
      }
    }
  }

  /** A status is counted under its value exactly as often as it occurs: distinct statuses have distinct values. */
  lemma {:induction false} StatusCounts(ss: seq<WorkflowStatus>, s: WorkflowStatus)
    ensures Occurrences(StatusValues(ss), StatusValue(s)) == Occurrences(ss, s)
    ensures Get(Histogram(StatusValues(ss)), StatusValue(s), 0) == Occurrences(ss, s)
  {
    HistogramCounts(StatusValues(ss), StatusValue(s));
    if ss != [] {
      var k := |ss| - 1;
      assert StatusValues(ss)[..k] == StatusValues(ss[..k]);
      StatusCounts(ss[..k], s);
      StatusValuesDistinct(ss[k], s);
    }
  }

  /** Counting one more status: its value gains one, and so does its kind. */
  lemma CountStep(ss: seq<WorkflowStatus>, s: WorkflowStatus)
    ensures Tally(ss + [s]) == Bump(Tally(ss), StatusValue(s))
    ensures Occurrences(ss + [s], Completed) == Occurrences(ss, Completed) + (if s == Completed then 1 else 0)
    ensures Failures(ss + [s]) == Failures(ss) + (if IsFailure(s) then 1 else 0)
  {
    assert (ss + [s])[..|ss|] == ss;
  }

  // ---------------------------------------------------------------------
  // Selecting a batch.

  /** The length of Python's `xs[:n]` for a list of length `len`: a negative `n` counts from the end. */
  function Take<T>(xs: seq<T>, n: int): (r: seq<T>)
    ensures |r| <= |xs| && r == xs[..|r|]
    ensures 0 <= n ==> |r| == if n < |xs| then n else |xs|
    ensures n < 0 ==> |r| == if -n < |xs| then |xs| + n else 0
  {
    if n >= |xs| then xs
    else if n >= 0 then xs[..n]
    else if |xs| + n > 0 then xs[..|xs| + n]
    else []
  }

  /** `xs[:limit] if limit else xs`: no limit and a limit of 0 both mean everything. */
  function Limited<T>(xs: seq<T>, limit: Option<int>): seq<T> {
    if limit.Some? && limit.value != 0 then Take(xs, limit.value) else xs
  }

  /** The complaints from the source with value `f`, in order. */
  function FromSource(cs: seq<ComplaintRaw>, f: string): (r: seq<ComplaintRaw>)
    ensures forall c :: c in r <==> c in cs && SourceValue(c.source) == f
    ensures |r| <= |cs|
  {
    if cs == [] then []
    else (if SourceValue(cs[0].source) == f then [cs[0]] else []) + FromSource(cs[1..], f)
  }

  /** The complaints with their ids assigned, `freshIds[i]` going to the `i`th when it has none. */
  function Assigned(cs: seq<ComplaintRaw>, freshIds: seq<string>): (r: seq<ComplaintRaw>)
    requires |cs| <= |freshIds| && forall i :: 0 <= i < |freshIds| ==> freshIds[i] != ""
    ensures |r| == |cs| && forall i :: 0 <= i < |cs| ==> r[i] == Collector.WithId(cs[i], freshIds[i])
  {
    seq(|cs|, i requires 0 <= i < |cs| => Collector.WithId(cs[i], freshIds[i]))
  }

  /** There is a non-empty fresh id for every complaint that may need one. */
  predicate IdsSuffice(complaints: Option<seq<ComplaintRaw>>, loaded: seq<ComplaintRaw>, freshIds: seq<string>) {
    (forall i :: 0 <= i < |freshIds| ==> freshIds[i] != "")
    && |loaded| <= |freshIds| && (complaints.Some? ==> |complaints.value| <= |freshIds|)
  }

  /**
   * The complaints `process_batch` runs: without a list, everything loaded,
   * filtered by source first and then limited; with a list, the list
   * limited, the source filter being ignored. Every one has an id.
   */
  function Selected(complaints: Option<seq<ComplaintRaw>>, limit: Option<int>, sourceFilter: Option<string>,
                    loaded: seq<ComplaintRaw>, freshIds: seq<string>): (r: seq<ComplaintRaw>)
    requires IdsSuffice(complaints, loaded, freshIds)
    ensures forall i :: 0 <= i < |r| ==> Collector.HasId(r[i])
    ensures complaints.None? ==> |r| <= |loaded|
    ensures complaints.None? && sourceFilter.Some? && sourceFilter.value != "" ==>
      forall i :: 0 <= i < |r| ==> SourceValue(r[i].source) == sourceFilter.value
    ensures complaints.Some? ==> |r| <= |complaints.value|
    ensures limit.Some? && limit.value > 0 ==> |r| <= limit.value
  {
    if complaints.None? then
      var all := Assigned(loaded, freshIds);
      var kept := if sourceFilter.Some? && sourceFilter.value != "" then FromSource(all, sourceFilter.value) else all;
      assert forall c :: c in kept ==> c in all;
      Limited(kept, limit)
    else
      Assigned(Limited(complaints.value, limit), freshIds)
  }

  /** The complaints the states hold, in order. */
  function Raws(ss: seq<ComplaintState>): (r: seq<ComplaintRaw>)
    ensures |r| == |ss| && forall i :: 0 <= i < |ss| ==> r[i] == ss[i].raw
  {
    seq(|ss|, i requires 0 <= i < |ss| => ss[i].raw)
  }

  /** No state occurs twice. */
  predicate Distinct(ss: seq<ComplaintState>) {
    forall i, j :: 0 <= i < j < |ss| ==> ss[i] != ss[j]
  }

  /** `[s for s in states if s.complaint_raw.source.value == f]`. */
  function KeepSource(states: seq<ComplaintState>, f: string): (r: seq<ComplaintState>)
    ensures forall s :: s in r ==> s in states
  {
    if states == [] then []
    else (if SourceValue(states[0].raw.source) == f then [states[0]] else []) + KeepSource(states[1..], f)
  }

  /** Filtering the states by source keeps exactly the complaints `FromSource` keeps. */
  lemma {:induction false} KeepSourceRaws(states: seq<ComplaintState>, f: string)
    ensures Raws(KeepSource(states, f)) == FromSource(Raws(states), f)
  {
    if states != [] {
      var rest := states[1..];
      KeepSourceRaws(rest, f);
      var head := if SourceValue(states[0].raw.source) == f then [states[0]] else [];
      RawsAppend(head, KeepSource(rest, f));
      RawsTail(states);
      assert Raws(head) == if SourceValue(states[0].raw.source) == f then [states[0].raw] else [];
    }
  }

  /** The complaints of two runs of states, one after the other. */
  lemma RawsAppend(a: seq<ComplaintState>, b: seq<ComplaintState>)
    ensures Raws(a + b) == Raws(a) + Raws(b)
  {
    assert forall i :: 0 <= i < |a + b| ==> Raws(a + b)[i] == (Raws(a) + Raws(b))[i];
  }

  /** The complaints after the first state's. */
  lemma RawsTail(ss: seq<ComplaintState>)
    requires ss != []
    ensures Raws(ss)[0] == ss[0].raw && Raws(ss)[1..] == Raws(ss[1..])
  {
  }

  /** The states the collector builds hold the complaints with their ids assigned, are distinct and carry no errors. */
  lemma CollectedStates(states: seq<ComplaintState>, loaded: seq<ComplaintRaw>, freshIds: seq<string>, now: Timestamp)
    requires Collector.Collected(states, loaded, freshIds, now)
    ensures Raws(states) == Assigned(loaded, freshIds)
    ensures Distinct(states)
    ensures forall i :: 0 <= i < |states| ==> states[i].errors == []
  {
    forall i | 0 <= i < |states|
      ensures states[i].raw == Collector.WithId(loaded[i], freshIds[i]) && states[i].errors == []
    {
      assert states[i].View() == Collector.InitialView(Collector.WithId(loaded[i], freshIds[i]), now);
    }
  }

  /** Filtering distinct states leaves distinct states. */
  lemma {:induction false} KeepSourceDistinct(states: seq<ComplaintState>, f: string)
    requires Distinct(states)
    ensures Distinct(KeepSource(states, f))
  {
    if states != [] {
      var rest := states[1..];
      assert Distinct(rest) by {
        forall i, j | 0 <= i < j < |rest|
          ensures rest[i] != rest[j]
        {
          assert rest[i] == states[i + 1] && rest[j] == states[j + 1];
        }
      }
      KeepSourceDistinct(rest, f);
      var tail := KeepSource(rest, f);
      var r := KeepSource(states, f);
      if SourceValue(states[0].raw.source) == f {
        forall i, j | 0 <= i < j < |r|
          ensures r[i] != r[j]
        {
          assert r[j] == tail[j - 1] && tail[j - 1] in rest;
          if i > 0 {
            assert r[i] == tail[i - 1];
          }
        }
      } else {
        assert r == tail;
      }
    }
  }

  /** Limiting the states limits their complaints alike, and keeps a prefix, so distinct states stay distinct. */
  lemma RawsLimited(ss: seq<ComplaintState>, limit: Option<int>)
    ensures Raws(Limited(ss, limit)) == Limited(Raws(ss), limit)
    ensures Limited(ss, limit) == ss[..|Limited(ss, limit)|]
    ensures Distinct(ss) ==> Distinct(Limited(ss, limit))
  {
    var r := Limited(ss, limit);
    assert |Limited(Raws(ss), limit)| == |r|;
  }

  // ---------------------------------------------------------------------
  // The collaborators.

  /** The document store's stand-in: a best-effort store of states and an audit log. */
  class Store {
    ghost var saved: seq<StateView>
    var events: seq<Event>

    ghost function View(): StoreView
      reads this
    {
      StoreView(saved, events)
    }

    constructor ()
      ensures View() == StoreView([], [])
    {
      saved := [];
      events := [];
    }

    /** `save_complaint`: `succeeds` says whether the store took the state. */
    method SaveComplaint(state: ComplaintState, succeeds: bool) returns (ok: bool)
      modifies this
      ensures ok == succeeds
      ensures View() == if succeeds then old(View()).(saved := old(saved) + [state.View()]) else old(View())
    {
      ok := succeeds;
      if succeeds {
        saved := saved + [state.View()];
      }
    }

    /** `log_event`: `succeeds` says whether the event was written. */
    method LogEvent(e: Event, succeeds: bool) returns (ok: bool)
      modifies this
      ensures ok == succeeds
      ensures View() == if succeeds then old(View()).(events := old(events) + [e]) else old(View())
    {
      ok := succeeds;
      if succeeds {
        events := events + [e];
      }
    }
  }

  /** What the collaborators do during one run of the workflow. */
  datatype Run = Run(
    clientFailure: Option<string>,
    llm: AzureOpenAI.Llm,
    teams: Result<seq<TeamInfo>, string>,
    searchFailure: Option<string>,
    search: Router.Search,
    now: Timestamp,
    teamMessageId: string,
    customerMessageId: string,
    save: Step -> SaveOutcome)

  /**
   * What the collaborators do during `initialize`: what creating the LLM
   * client raises, what the team loader returns, what creating the search
   * client raises, and whether connecting to the store fails.
   */
  datatype Setup = Setup(clientFailure: Option<string>, teams: Result<seq<TeamInfo>, string>,
                         searchFailure: Option<string>, storeFailure: bool)

  /** What `initialize` raises: the analyst's client error, else the router's loader error. */
  function InitFailure(setup: Setup): Option<Raised> {
    if setup.clientFailure.Some? then Some(Other(setup.clientFailure.value))
    else if setup.teams.Err? then Some(Other(setup.teams.error)) else None
  }

  /** `get_status` of one agent: its name and whether it is initialised. */
  datatype AgentStatus = AgentStatus(name: string, initialized: bool)

  /**
   * `_stats`: the running counters, a dict the orchestrator updates in
   * place. `processed` is the final status of every complaint counted so
   * far, in order; the counters are what counting it gives.
   */
  class Stats {
    var totalProcessed: nat
    var successful: nat
    var failed: nat
    var byStatus: Dict<string, nat>
    ghost var processed: seq<WorkflowStatus>

    ghost predicate Valid()
      reads this
    {
      totalProcessed == |processed| && byStatus == Tally(processed)
      && successful == Occurrences(processed, Completed) && failed == Failures(processed)
    }

    constructor ()
      ensures Valid() && processed == []
      ensures totalProcessed == 0 && successful == 0 && failed == 0 && byStatus == Empty()
    {
      totalProcessed, successful, failed := 0, 0, 0;
      byStatus := Empty();
      processed := [];
    }

    /**
     * `_update_stats`: one more complaint, counted under its status value,
     * and as a success when completed or as a failure when the value starts
     * with FAILED.
     */
    method Count(s: WorkflowStatus)
      requires Valid()
      modifies this
      ensures Valid() && processed == old(processed) + [s]
      ensures totalProcessed == old(totalProcessed) + 1
      ensures Get(byStatus, StatusValue(s), 0) == Get(old(byStatus), StatusValue(s), 0) + 1
      ensures successful == old(successful) + (if s == Completed then 1 else 0)
      ensures failed == old(failed) + (if IsFailure(s) then 1 else 0)
    {
      CountStep(processed, s);
      StatusValuesDistinct(s, s);
      var value := StatusValue(s);
      // the `if` / `elif`: a completed run is a success, otherwise a value starting with FAILED a failure
      var completed := s == Completed;
      var failure := !completed && StartsWith(value, "FAILED");
      assert failure == IsFailure(s);
      totalProcessed := totalProcessed + 1;
      byStatus := Bump(byStatus, value);
      successful := successful + (if completed then 1 else 0);
      failed := failed + (if failure then 1 else 0);
      processed := processed + [s];
    }

    /** `reset_stats`: every counter back to zero. */
    method Reset()
      modifies this
      ensures Valid() && processed == []
      ensures totalProcessed == 0 && successful == 0 && failed == 0 && byStatus == Empty()
    {
      totalProcessed, successful, failed := 0, 0, 0;
      byStatus := Empty();
      processed := [];
    }

    /**
     * The counters of `get_stats`, which add up: the per-status counts sum
     * to the total, each status is counted as often as it occurred, and
     * once every complaint counted has ended its run, each is either a
     * success or a failure.
     */
    method Read() returns (total: nat, succeeded: nat, failures: nat, counts: Dict<string, nat>)
      requires Valid()
      ensures total == totalProcessed && succeeded == successful && failures == failed && counts == byStatus
      ensures OrderedDict.Valid(counts) && Sum(counts) == total
      ensures forall s :: Get(counts, StatusValue(s), 0) == Occurrences(processed, s)
      ensures succeeded + failures <= total
      ensures (forall i :: 0 <= i < |processed| ==> Terminal(processed[i])) ==> succeeded + failures == total
    {
      TallyHistogram(processed);
      HistogramSum(StatusValues(processed));
      OutcomesBalance(processed);
      forall s
        ensures Get(byStatus, StatusValue(s), 0) == Occurrences(processed, s)
      {
        StatusCounts(processed, s);
      }
      total, succeeded, failures, counts := totalProcessed, successful, failed, byStatus;
    }
  }

  // ---------------------------------------------------------------------
  // The orchestrator.

  // ---------------------------------------------------------------------
  // Progress through a batch.

  /** The errors recorded on each of `states`. */
  ghost function ErrorsOf(states: seq<ComplaintState>): (r: seq<seq<string>>)
    reads states
    ensures |r| == |states| && forall j :: 0 <= j < |states| ==> r[j] == states[j].errors
  {
    if states == [] then [] else [states[0].errors] + ErrorsOf(states[1..])
  }

  /**
   * The first `|finals|` states ended their runs in `finals`, and one whose
   * run raised ended in FAILED_LLM with the exception's text appended to
   * the errors it had (`errs0`).
   */
  ghost predicate Ended(states: seq<ComplaintState>, finals: seq<WorkflowStatus>, crashes: nat -> Option<string>,
                        errs0: seq<seq<string>>)
    reads states
  {
    |finals| <= |states| == |errs0|
    && forall j :: 0 <= j < |finals| ==>
         states[j].workflowStatus == finals[j] && Terminal(finals[j])
         && (crashes(j).Some? ==> finals[j] == FailedLlm && states[j].errors == errs0[j] + [crashes(j).value])
  }

  /** The states from the `i`th on still have the errors they had. */
  ghost predicate Untouched(states: seq<ComplaintState>, errs0: seq<seq<string>>, i: nat)
    reads states
  {
    |states| == |errs0| && forall j :: i <= j < |states| ==> states[j].errors == errs0[j]
  }

  /** `s` is `a + b`, stated index by index. */
  ghost predicate Logged<T>(s: seq<T>, a: seq<T>, b: seq<T>) {
    |s| == |a| + |b| && (forall j :: 0 <= j < |a| ==> s[j] == a[j]) && forall j :: 0 <= j < |b| ==> s[|a| + j] == b[j]
  }

  lemma AppendPointwise<T>(s: seq<T>, a: seq<T>, b: seq<T>)
    requires Logged(s, a, b)
    ensures s == a + b
  {
  }

  class ComplaintOrchestrator {
    const useAzureSearch: bool
    const enablePersistence: bool
    const collector: Collector.CollectorAgent
    const privacy: Privacy.PrivacyAgent
    const analyst: Analyst.AnalystAgent
    const router: Router.RouterAgent
    const communicator: Communicator.CommunicatorAgent
    /** The shared Jira and e-mail clients the communicator takes when it initialises. */
    const jiraClient: MockJira.MockJiraClient
    const emailClient: MockEmail.MockEmailClient
    /** The store `initialize` connects to when persistence is on. */
    const storeService: Store
    const stats: Stats
    var initialized: bool
    /** Whether `initialize` has obtained the agents. */
    var agentsObtained: bool
    /** `_cosmos`: the store in use, if any. */
    var store: Store?

    /** The agents, the clients' shared table and outbox, the store and the counters. */
    ghost function Parts(): set<object> {
      {collector, privacy, analyst, analyst.base, router, router.base, communicator, communicator.base,
       jiraClient.table, emailClient.outbox, storeService, stats}
    }

    /**
     * Every agent is valid, the communicator holds the shared clients or
     * none, no two envelopes are shared, and the store in use is the one
     * service.
     */
    ghost predicate AgentsValid()
      reads this, collector, router, communicator, communicator.base, jiraClient.table
    {
      collector.Valid() && analyst.Valid() && router.Valid() && communicator.Valid() && jiraClient.table.Valid()
      && (communicator.jira == null || communicator.jira == jiraClient)
      && (communicator.email == null || communicator.email == emailClient)
      && analyst.base != router.base && analyst.base != communicator.base && router.base != communicator.base
      && (store == null || store == storeService)
    }

    /**
     * The agents are valid, the counters agree with the statuses counted,
     * and every complaint counted is either a success or a failure (each
     * counted one ended its run).
     */
    ghost predicate Valid()
      reads this, collector, router, communicator, communicator.base, jiraClient.table, stats
    {
      AgentsValid() && stats.Valid() && stats.successful + stats.failed == stats.totalProcessed
    }

    constructor (useAzureSearch: bool, enablePersistence: bool)
      ensures Valid()
      ensures fresh(collector) && fresh(privacy) && fresh(analyst) && fresh(analyst.base) && fresh(router)
      ensures fresh(router.base) && fresh(communicator) && fresh(communicator.base) && fresh(jiraClient.table)
      ensures fresh(emailClient.outbox) && fresh(storeService) && fresh(stats)
      ensures this.useAzureSearch == useAzureSearch && this.enablePersistence == enablePersistence
      ensures !initialized && !agentsObtained && store == null
      ensures stats.processed == [] && stats.totalProcessed == 0 && stats.successful == 0 && stats.failed == 0
      ensures stats.byStatus == Empty()
    {
      this.useAzureSearch := useAzureSearch;
      this.enablePersistence := enablePersistence;
      collector := new Collector.CollectorAgent();
      privacy := new Privacy.PrivacyAgent();
      var a := ComplaintOrchestrator.NewAnalyst();
      analyst := a;
      router := new Router.RouterAgent(useAzureSearch);
      communicator := new Communicator.CommunicatorAgent();
      var table := new MockJira.TicketTable();
      jiraClient := new MockJira.MockJiraClient(MockJira.DEFAULT_PROJECT, table);
      var outbox := new MockEmail.Outbox();
      emailClient := new MockEmail.MockEmailClient(outbox);
      storeService := new Store();
      stats := new Stats();
      initialized := false;
      agentsObtained := false;
      store := null;
    }

    /** A fresh analyst; which prompts it holds does not matter here. */
    static method NewAnalyst() returns (analyst: Analyst.AnalystAgent)
      ensures fresh(analyst) && fresh(analyst.base) && analyst.Valid() && !analyst.base.initialized && !analyst.hasClient
    {
      analyst := new Analyst.AnalystAgent();
    }

    /**
     * `initialize`: nothing once initialised. Otherwise the agents are
     * obtained and initialised in order; an error from the analyst's or the
     * router's initialisation is raised and leaves the orchestrator
     * uninitialised. A store that fails to connect turns persistence off.
     */
    method Initialize(setup: Setup) returns (raised: Option<Raised>)
      requires AgentsValid()
      modifies this, collector, privacy, analyst, router, communicator
      ensures AgentsValid()
      ensures old(initialized) ==> raised.None? && unchanged(this, collector, privacy, analyst, router, communicator)
      ensures !old(initialized) ==> raised == InitFailure(setup) && initialized == raised.None? && agentsObtained
      ensures !old(initialized) && raised.None? ==>
        collector.loaderReady && privacy.initialized && analyst.hasClient
        && communicator.jira == jiraClient && communicator.email == emailClient
        && store == if !enablePersistence then old(store) else if setup.storeFailure then null else storeService
    ensures !old(initialized) && raised.None? ==>
      setup.teams.Ok? && router.teams == setup.teams.value
      && router.categoryToTeam == Router.BuildOnto(old(router.categoryToTeam), setup.teams.value)
    ensures !old(initialized) && raised.None? ==>
      router.useAzureSearch == (old(router.useAzureSearch) && setup.searchFailure.None?)
      && router.hasSearchClient == (old(router.hasSearchClient) || (old(router.useAzureSearch) && setup.searchFailure.None?))
    {
      if initialized {
        return None;
      }
      agentsObtained := true;
      raised := InitializeAgents(setup);
      if raised.Some? {
        return;
      }
      if enablePersistence {
        // a failed connection is logged and leaves the orchestrator without a store
        store := if setup.storeFailure then null else storeService;
      }
      initialized := true;
    }

    /**
     * The agents' part of `initialize`: each agent initialised in order, up
     * to the first one that raises.
     */
    method InitializeAgents(setup: Setup) returns (raised: Option<Raised>)
      requires AgentsValid()
      modifies collector, privacy, analyst, router, communicator
      ensures AgentsValid() && raised == InitFailure(setup)
      ensures raised.None? ==>
        collector.loaderReady && privacy.initialized && analyst.hasClient
        && communicator.jira == jiraClient && communicator.email == emailClient
      ensures raised.None? ==>
        setup.teams.Ok? && router.teams == setup.teams.value
        && router.categoryToTeam == Router.BuildOnto(old(router.categoryToTeam), setup.teams.value)
      ensures raised.None? ==>
        router.useAzureSearch == (old(router.useAzureSearch) && setup.searchFailure.None?)
        && router.hasSearchClient == (old(router.hasSearchClient) || (old(router.useAzureSearch) && setup.searchFailure.None?))
    {
      collector.Initialize();
      privacy.Initialize();
      raised := analyst.Initialize(setup.clientFailure);
      if raised.Some? {
        return;
      }
      raised := router.Initialize(setup.teams, setup.searchFailure);
      if raised.Some? {
        return;
      }
      communicator.Initialize(jiraClient, emailClient);
    }

    /** The store after a save of `v` after `step`: unchanged when there is no store. */
    ghost function AfterSave(sv: StoreView, v: StateView, step: Step, o: SaveOutcome): StoreView
      reads this
    {
      if store == null then sv else Record(sv, v, step, o)
    }

    /** The store after the saves that follow the steps of `snapshots`: unchanged when there is no store. */
    ghost function AfterSaves(sv: StoreView, snapshots: seq<StateView>, save: Step -> SaveOutcome): StoreView
      requires |snapshots| <= |ORDER|
      reads this
    {
      if store == null then sv else RecordSteps(sv, snapshots, save)
    }

    /**
     * `_save_state`: without a store nothing happens; otherwise the state is
     * saved and the step's event logged, either of which may fail without
     * consequence. The state is never changed.
     */
    method SaveState(state: ComplaintState, step: Step, o: SaveOutcome)
      requires store == null || store == storeService
      modifies storeService
      ensures storeService.View() == AfterSave(old(storeService.View()), state.View(), step, o)
    {
      if store == null {
        return;
      }
      var ok := store.SaveComplaint(state, o != SaveFailed);
      if ok {
        var logged := store.LogEvent(StepEvent(state.raw, state.workflowStatus, step), o == Saved);
      }
    }

    /** Step 1: the privacy agent's `process_state`, then a save. */
    method AnonymizeStep(state: ComplaintState, o: SaveOutcome)
      requires store == null || store == storeService
      modifies state, storeService
      ensures state.View() == old(state.View()).(anonymized := Some(Privacy.Anonymize(state.raw)),
        status := Anonymized, trail := old(state.trail) + [Anonymized])
      ensures storeService.View() == AfterSave(old(storeService.View()), state.View(), Anonymize, o)
    {
      privacy.ProcessState(state);
      SaveState(state, Anonymize, o);
    }

    /** Step 2: the analyst's envelope, which ends in ANALYZED or FAILED_LLM, then a save. */
    method AnalyzeStep(state: ComplaintState, run: Run)
      requires AgentsValid()
      modifies state, analyst, analyst.base, storeService
      ensures AgentsValid()
      ensures state.workflowStatus == Analyzed || state.workflowStatus == FailedLlm
      ensures storeService.View() == AfterSave(old(storeService.View()), state.View(), Analyze, run.save(Analyze))
    {
      analyst.Execute(state, run.clientFailure, run.llm, run.now);
      SaveState(state, Analyze, run.save(Analyze));
    }

    /** Step 3: the router's envelope, which ends in ROUTED or FAILED_ROUTING, then a save. */
    method RouteStep(state: ComplaintState, run: Run)
      requires AgentsValid()
      modifies state, router, router.base, storeService
      ensures AgentsValid()
      ensures state.workflowStatus == Routed || state.workflowStatus == FailedRouting
      ensures storeService.View() == AfterSave(old(storeService.View()), state.View(), Route, run.save(Route))
    {
      router.Execute(state, run.teams, run.searchFailure, run.search, run.now);
      SaveState(state, Route, run.save(Route));
    }

    /** Step 4: the communicator's envelope, which ends in COMPLETED or FAILED_JIRA, then a save. */
    method CommunicateStep(state: ComplaintState, run: Run)
      requires AgentsValid()
      modifies state, communicator, communicator.base, jiraClient.table, emailClient.outbox, storeService
      ensures AgentsValid()
      ensures state.workflowStatus == Completed || state.workflowStatus == FailedJira
      ensures storeService.View() == AfterSave(old(storeService.View()), state.View(), Communicate, run.save(Communicate))
    {
      communicator.Execute(state, jiraClient, emailClient, run.now, run.teamMessageId, run.customerMessageId);
      SaveState(state, Communicate, run.save(Communicate));
    }

    /**
     * `_execute_workflow`: the steps in order, for as long as they succeed.
     * `snapshots[i]` is the state after step `ORDER[i]`; the run stops after
     * the analysis exactly when it failed, and after the routing exactly when
     * it failed, so it always ends in a terminal status. Every step taken is
     * followed by its save.
     */
    method ExecuteWorkflow(state: ComplaintState, run: Run) returns (ghost snapshots: seq<StateView>)
      requires AgentsValid()
      modifies state, analyst, analyst.base, router, router.base, communicator, communicator.base
      modifies jiraClient.table, emailClient.outbox, storeService
      ensures AgentsValid()
      ensures 2 <= |snapshots| <= |ORDER| && snapshots[|snapshots| - 1] == state.View()
      ensures snapshots[0] == old(state.View()).(anonymized := Some(Privacy.Anonymize(state.raw)),
        status := Anonymized, trail := old(state.trail) + [Anonymized])
      ensures snapshots[1].status == Analyzed || snapshots[1].status == FailedLlm
      ensures |snapshots| == 2 <==> snapshots[1].status == FailedLlm
      ensures |snapshots| > 2 ==> snapshots[2].status == Routed || snapshots[2].status == FailedRouting
      ensures |snapshots| > 2 ==> (|snapshots| == 3 <==> snapshots[2].status == FailedRouting)
      ensures |snapshots| == 4 ==> snapshots[3].status == Completed || snapshots[3].status == FailedJira
      ensures Terminal(state.workflowStatus)
      ensures storeService.View() == AfterSaves(old(storeService.View()), snapshots, run.save)
    {
      ghost var sv := storeService.View();
      AnonymizeStep(state, run.save(Anonymize));
      snapshots := [state.View()];
      RecordStepsSnoc(sv, [], state.View(), run.save);
      AnalyzeStep(state, run);
      RecordStepsSnoc(sv, snapshots, state.View(), run.save);
      snapshots := snapshots + [state.View()];
      if state.workflowStatus == FailedLlm {
        return;
      }
      RouteStep(state, run);
      RecordStepsSnoc(sv, snapshots, state.View(), run.save);
      snapshots := snapshots + [state.View()];
      if state.workflowStatus == FailedRouting {
        return;
      }
      CommunicateStep(state, run);
      RecordStepsSnoc(sv, snapshots, state.View(), run.save);
      snapshots := snapshots + [state.View()];
    }

    /**
     * `process_complaint`: initialise if needed (its error is raised), make
     * the state, run the workflow and count the outcome.
     */
    method ProcessComplaint(complaint: ComplaintRaw, setup: Setup, freshId: string, now: Timestamp, run: Run)
      returns (r: Result<ComplaintState, Raised>, ghost snapshots: seq<StateView>)
      requires Valid() && freshId != ""
      modifies this, Parts()
      ensures Valid()
      ensures r.Err? <==> !old(initialized) && InitFailure(setup).Some?
      ensures r.Err? ==> r.error == InitFailure(setup).value && stats.processed == old(stats.processed)
      ensures r.Ok? ==> fresh(r.value) && r.value.raw == Collector.WithId(complaint, freshId)
      ensures r.Ok? ==> (2 <= |snapshots| <= |ORDER| && snapshots[|snapshots| - 1] == r.value.View()
        && snapshots[0] == Collector.InitialView(r.value.raw, now).(anonymized := Some(Privacy.Anonymize(r.value.raw)),
          status := Anonymized, trail := [New, Anonymized]))
      ensures r.Ok? ==> Terminal(r.value.workflowStatus) && stats.processed == old(stats.processed) + [r.value.workflowStatus]
      ensures r.Ok? ==> storeService.View() == AfterSaves(old(storeService.View()), snapshots, run.save)
    {
      snapshots := [];
      if !initialized {
        var raised := Initialize(setup);
        if raised.Some? {
          return Err(raised.value), snapshots;
        }
      }
      var state;
      state, snapshots := RunNew(complaint, freshId, now, run);
      r := Ok(state);
    }

    /** The part of `process_complaint` after initialisation: make the state, run it and count it. */
    method RunNew(complaint: ComplaintRaw, freshId: string, now: Timestamp, run: Run)
      returns (state: ComplaintState, ghost snapshots: seq<StateView>)
      requires Valid() && freshId != ""
      modifies analyst, analyst.base, router, router.base, communicator, communicator.base
      modifies jiraClient.table, emailClient.outbox, storeService, stats
      ensures Valid()
      ensures fresh(state) && state.raw == Collector.WithId(complaint, freshId)
      ensures 2 <= |snapshots| <= |ORDER| && snapshots[|snapshots| - 1] == state.View()
      ensures snapshots[0] == Collector.InitialView(state.raw, now).(anonymized := Some(Privacy.Anonymize(state.raw)),
        status := Anonymized, trail := [New, Anonymized])
      ensures Terminal(state.workflowStatus) && stats.processed == old(stats.processed) + [state.workflowStatus]
      ensures storeService.View() == AfterSaves(old(storeService.View()), snapshots, run.save)
    {
      state := collector.CollectSingle(complaint, freshId, now);
      snapshots := RunCounted(state, run);
    }

    /** `_execute_workflow` followed by `_update_stats`. */
    method RunCounted(state: ComplaintState, run: Run) returns (ghost snapshots: seq<StateView>)
      requires Valid()
      modifies state, analyst, analyst.base, router, router.base, communicator, communicator.base
      modifies jiraClient.table, emailClient.outbox, storeService, stats
      ensures Valid()
      ensures 2 <= |snapshots| <= |ORDER| && snapshots[|snapshots| - 1] == state.View()
      ensures snapshots[0] == old(state.View()).(anonymized := Some(Privacy.Anonymize(state.raw)),
        status := Anonymized, trail := old(state.trail) + [Anonymized])
      ensures Terminal(state.workflowStatus) && stats.processed == old(stats.processed) + [state.workflowStatus]
      ensures storeService.View() == AfterSaves(old(storeService.View()), snapshots, run.save)
    {
      snapshots := ExecuteWorkflow(state, run);
      stats.Count(state.workflowStatus);
    }

    /** The `except` branch of `process_batch`: FAILED_LLM, and the exception's text appended to the errors. */
    static method RecordCrash(state: ComplaintState, text: string)
      modifies state
      ensures state.View() == old(state.View()).(status := FailedLlm, errors := old(state.errors) + [text],
        trail := old(state.trail) + [FailedLlm])
    {
      state.SetStatus(FailedLlm);
      state.errors := state.errors + [text];
    }

    /** `[await self.collector.collect_single(c) for c in cs]`. */
    method CollectEach(cs: seq<ComplaintRaw>, freshIds: seq<string>, now: Timestamp) returns (states: seq<ComplaintState>)
      requires |freshIds| == |cs| && forall i :: 0 <= i < |freshIds| ==> freshIds[i] != ""
      ensures forall i :: 0 <= i < |states| ==> fresh(states[i])
      ensures Collector.Collected(states, cs, freshIds, now)
    {
      states := [];
      var i := 0;
      while i < |cs|
        invariant 0 <= i <= |cs| && |states| == i
        invariant forall j :: 0 <= j < i ==> fresh(states[j])
        invariant forall j, k :: 0 <= j < k < i ==> states[j] != states[k]
        invariant forall j :: 0 <= j < i ==> states[j].View() == Collector.InitialView(Collector.WithId(cs[j], freshIds[j]), now)
      {
        var state := collector.CollectSingle(cs[i], freshIds[i], now);
        states := states + [state];
        i := i + 1;
      }
    }

    /**
     * The selection of `process_batch` when no list is given: the
     * collector's states for everything loaded, filtered by source and then
     * limited.
     */
    method SelectLoaded(limit: Option<int>, sourceFilter: Option<string>, loaded: seq<ComplaintRaw>,
                        freshIds: seq<string>, now: Timestamp)
      returns (states: seq<ComplaintState>)
      requires collector.Valid() && IdsSuffice(None, loaded, freshIds)
      modifies collector
      ensures collector.Valid()
      ensures Raws(states) == Selected(None, limit, sourceFilter, loaded, freshIds)
      ensures Distinct(states)
      ensures forall i :: 0 <= i < |states| ==> fresh(states[i]) && states[i].errors == []
    {
      var r := collector.Execute(None, loaded, freshIds[..|loaded|], now);
      var all := r.value;
      CollectedStates(all, loaded, freshIds[..|loaded|], now);
      assert Assigned(loaded, freshIds[..|loaded|]) == Assigned(loaded, freshIds);
      assert forall s :: s in all ==> fresh(s) && s.errors == [];
      var kept := all;
      if sourceFilter.Some? && sourceFilter.value != "" {
        kept := KeepSource(all, sourceFilter.value);
        KeepSourceRaws(all, sourceFilter.value);
        KeepSourceDistinct(all, sourceFilter.value);
      }
      assert forall s :: s in kept ==> s in all;
      states := Limited(kept, limit);
      RawsLimited(kept, limit);
      forall i | 0 <= i < |states|
        ensures fresh(states[i]) && states[i].errors == []
      {
        assert states[i] == kept[i] && kept[i] in kept;
      }
    }

    /** The selection of `process_batch` for a given list: one new state per complaint of the limited list. */
    method SelectGiven(complaints: seq<ComplaintRaw>, limit: Option<int>, freshIds: seq<string>, now: Timestamp)
      returns (states: seq<ComplaintState>)
      requires IdsSuffice(Some(complaints), [], freshIds)
      ensures Raws(states) == Assigned(Limited(complaints, limit), freshIds)
      ensures Distinct(states)
      ensures forall i :: 0 <= i < |states| ==> fresh(states[i]) && states[i].errors == []
    {
      var given := Limited(complaints, limit);
      states := CollectEach(given, freshIds[..|given|], now);
      CollectedStates(states, given, freshIds[..|given|], now);
      assert Assigned(given, freshIds[..|given|]) == Assigned(given, freshIds);
    }

    /**
     * One pass of `process_batch`'s loop: a record whose run raises ends in
     * FAILED_LLM with the exception's text appended; every other goes
     * through the workflow. Either way it is counted.
     */
    method RunOne(state: ComplaintState, run: Run, crash: Option<string>)
      requires Valid()
      modifies state, analyst, analyst.base, router, router.base, communicator, communicator.base
      modifies jiraClient.table, emailClient.outbox, storeService, stats
      ensures Valid()
      ensures Terminal(state.workflowStatus) && stats.processed == old(stats.processed) + [state.workflowStatus]
      ensures crash.Some? ==> state.workflowStatus == FailedLlm && state.errors == old(state.errors) + [crash.value]
    {
      Advance(state, run, crash);
      stats.Count(state.workflowStatus);
    }

    /** The part of `RunOne` before the count: the workflow, or the record of the exception. */
    method Advance(state: ComplaintState, run: Run, crash: Option<string>)
      requires AgentsValid()
      modifies state, analyst, analyst.base, router, router.base, communicator, communicator.base
      modifies jiraClient.table, emailClient.outbox, storeService
      ensures AgentsValid()
      ensures Terminal(state.workflowStatus)
      ensures crash.Some? ==> state.workflowStatus == FailedLlm && state.errors == old(state.errors) + [crash.value]
    {
      if crash.Some? {
        RecordCrash(state, crash.value);
      } else {
        ghost var snapshots := ExecuteWorkflow(state, run);
      }
    }

    /** Progress of the batch loop after `|finals|` states. */
    ghost predicate Progress(states: seq<ComplaintState>, crashes: nat -> Option<string>, errs0: seq<seq<string>>,
                             p0: seq<WorkflowStatus>, finals: seq<WorkflowStatus>)
      reads this, collector, router, communicator, communicator.base, jiraClient.table, stats, states
    {
      Valid() && Distinct(states) && Logged(stats.processed, p0, finals)
      && Ended(states, finals, crashes, errs0) && Untouched(states, errs0, |finals|)
    }

    /** `RunOne` on the `i`th of distinct states: the others keep their status and errors. */
    method RunNth(states: seq<ComplaintState>, i: nat, run: Run, crash: Option<string>,
                  crashes: nat -> Option<string>, ghost errs0: seq<seq<string>>, ghost p0: seq<WorkflowStatus>,
                  ghost finals: seq<WorkflowStatus>, results: seq<ComplaintState>)
      returns (ghost finals': seq<WorkflowStatus>, results': seq<ComplaintState>)
      requires i == |finals| < |states| && results == states[..i] && crash == crashes(i) && Progress(states, crashes, errs0, p0, finals)
      modifies analyst, analyst.base, router, router.base, communicator, communicator.base
      modifies jiraClient.table, emailClient.outbox, storeService, stats, states[i]
      ensures |finals'| == |finals| + 1 && results' == states[..i + 1] && Progress(states, crashes, errs0, p0, finals')
    {
      RunOne(states[i], run, crash);
      results' := results + [states[i]];
      assert states[..i + 1] == states[..i] + [states[i]];
      finals' := finals + [states[i].workflowStatus];
      forall j | 0 <= j < |states| && j != i
        ensures states[j].workflowStatus == old(states[j].workflowStatus) && states[j].errors == old(states[j].errors)
      {
        assert states[j] != states[i];
      }
    }

    /**
     * The loop of `process_batch`: one result per state, in order, each
     * ending its run and counted, and the batch goes on after a record
     * whose run raised.
     */
    method RunBatch(states: seq<ComplaintState>, runs: nat -> Run, crashes: nat -> Option<string>)
      returns (results: seq<ComplaintState>, ghost finals: seq<WorkflowStatus>)
      requires Valid() && Distinct(states)
      modifies analyst, analyst.base, router, router.base, communicator, communicator.base
      modifies jiraClient.table, emailClient.outbox, storeService, stats, states
      ensures Valid()
      ensures results == states && |finals| == |states| && stats.processed == old(stats.processed) + finals
      ensures forall i :: 0 <= i < |states| ==> states[i].workflowStatus == finals[i] && Terminal(finals[i])
      ensures forall i :: 0 <= i < |states| && crashes(i).Some? ==>
        finals[i] == FailedLlm && states[i].errors == old(states[i].errors) + [crashes(i).value]
    {
      ghost var errs0 := ErrorsOf(states);
      ghost var p0 := stats.processed;
      results, finals := [], [];
      var i := 0;
      while i < |states|
        invariant 0 <= i <= |states| && results == states[..i] && |finals| == i
        invariant Progress(states, crashes, errs0, p0, finals)
      {
        finals, results := RunNth(states, i, runs(i), crashes(i), crashes, errs0, p0, finals, results);
        i := i + 1;
      }
      assert states[..i] == states;
      AppendPointwise(stats.processed, p0, finals);
    }

    /**
     * `process_batch`: initialise if needed (its error is raised), select
     * the states, and run them one after the other. `runs(i)` and
     * `crashes(i)` say what happens to the `i`th selected record.
     */
    method ProcessBatch(complaints: Option<seq<ComplaintRaw>>, limit: Option<int>, sourceFilter: Option<string>,
                        setup: Setup, loaded: seq<ComplaintRaw>, freshIds: seq<string>, now: Timestamp,
                        runs: nat -> Run, crashes: nat -> Option<string>)
      returns (r: Result<seq<ComplaintState>, Raised>, ghost finals: seq<WorkflowStatus>)
      requires Valid() && IdsSuffice(complaints, loaded, freshIds)
      modifies this, Parts()
      ensures Valid()
      ensures r.Err? <==> !old(initialized) && InitFailure(setup).Some?
      ensures r.Err? ==> r.error == InitFailure(setup).value && stats.processed == old(stats.processed)
      ensures r.Ok? ==> Raws(r.value) == Selected(complaints, limit, sourceFilter, loaded, freshIds)
      ensures r.Ok? ==> |finals| == |r.value| && stats.processed == old(stats.processed) + finals
      ensures r.Ok? ==> forall i :: 0 <= i < |r.value| ==>
        fresh(r.value[i]) && r.value[i].workflowStatus == finals[i] && Terminal(finals[i])
      ensures r.Ok? ==> forall i :: 0 <= i < |r.value| && crashes(i).Some? ==>
        finals[i] == FailedLlm && r.value[i].errors == [crashes(i).value]
    {
      finals := [];
      if !initialized {
        var raised := Initialize(setup);
        if raised.Some? {
          return Err(raised.value), finals;
        }
      }
      var states;
      if complaints.None? {
        states := SelectLoaded(limit, sourceFilter, loaded, freshIds, now);
      } else {
        states := SelectGiven(complaints.value, limit, freshIds, now);
      }
      var results;
      results, finals := RunBatch(states, runs, crashes);
      r := Ok(results);
    }

    /**
     * `get_stats`: the counters, which add up (see `Stats.Read`), then each
     * agent's status once the agents are obtained.
     */
    method GetStats() returns (total: nat, succeeded: nat, failures: nat, counts: Dict<string, nat>,
                               agents: seq<Option<AgentStatus>>)
      requires Valid()
      ensures total == stats.totalProcessed && succeeded == stats.successful && failures == stats.failed
      ensures counts == stats.byStatus
      ensures OrderedDict.Valid(counts) && Sum(counts) == total && succeeded + failures == total
      ensures forall s :: Get(counts, StatusValue(s), 0) == Occurrences(stats.processed, s)
      ensures |agents| == 5 && forall i :: 0 <= i < 5 ==> (agents[i].Some? <==> agentsObtained)
      ensures agentsObtained ==> agents == [Some(AgentStatus(Collector.COLLECTOR, collector.initialized)),
        Some(AgentStatus(Privacy.PRIVACY, privacy.initialized)), Some(AgentStatus(analyst.base.name, analyst.base.initialized)),
        Some(AgentStatus(router.base.name, router.base.initialized)),
        Some(AgentStatus(communicator.base.name, communicator.base.initialized))]
    {
      total, succeeded, failures, counts := stats.Read();
      if agentsObtained {
        agents := [Some(AgentStatus(Collector.COLLECTOR, collector.initialized)),
          Some(AgentStatus(Privacy.PRIVACY, privacy.initialized)), Some(AgentStatus(analyst.base.name, analyst.base.initialized)),
          Some(AgentStatus(router.base.name, router.base.initialized)),
          Some(AgentStatus(communicator.base.name, communicator.base.initialized))];
      } else {
        agents := [None, None, None, None, None];
      }
    }

    /** `reset_stats`: every counter back to zero. */
    method ResetStats()
      requires Valid()
      modifies stats
      ensures Valid() && stats.processed == []
      ensures stats.totalProcessed == 0 && stats.successful == 0 && stats.failed == 0 && stats.byStatus == Empty()
    {
      stats.Reset();
    }
  }
}
