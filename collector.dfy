/**
 * The collector: it turns the complaints the data loader returns into fresh
 * workflow states at status NEW, giving an internal id to every complaint
 * that has none. The loader itself is not modelled: what it loads, and the
 * fresh ids and the clock, are parameters.
 */
module Collector {
  import opened Wrappers
  import opened Schemas
  import opened Base

  const COLLECTOR := "collector"
  const LOADER_MISSING := AgentError("Data loader not initialized", COLLECTOR, false)

  /** Python's truthiness of `complaint.id`: present and not empty. */
  predicate HasId(c: ComplaintRaw) {
    c.id.Some? && c.id.value != ""
  }

  /** The complaint after `if not complaint.id: complaint.id = fresh`. */
  function WithId(c: ComplaintRaw, freshId: string): (r: ComplaintRaw)
    requires freshId != ""
    ensures HasId(r)
    ensures HasId(c) ==> r == c
    ensures !HasId(c) ==> r.id == Some(freshId)
  {
    if HasId(c) then c else c.(id := Some(freshId))
  }

  /** Assigning an id changes the id and nothing else. */
  lemma WithIdKeepsTheRest(c: ComplaintRaw, freshId: string)
    requires freshId != ""
    ensures WithId(c, freshId).(id := c.id) == c
  {
  }

  /** A complaint that has an id keeps it: a second assignment changes nothing. */
  lemma WithIdIdempotent(c: ComplaintRaw, a: string, b: string)
    requires a != "" && b != ""
    ensures WithId(WithId(c, a), b) == WithId(c, a)
  {
  }

  /** The state a new `ComplaintState` starts in: the complaint, status NEW, started at `now`. */
  function InitialView(raw: ComplaintRaw, now: Timestamp): StateView {
    StateView(raw, None, None, None, None, None, New, [], now, None, [New])
  }

  /**
   * `states` are the states `process` builds for `loaded`: one per complaint,
   * in load order, each a distinct object holding the complaint with its id
   * assigned.
   */
  ghost predicate Collected(states: seq<ComplaintState>, loaded: seq<ComplaintRaw>, freshIds: seq<string>,
                            now: Timestamp)
    reads set i | 0 <= i < |states| :: states[i]
  {
    |states| == |loaded| == |freshIds|
    && (forall i :: 0 <= i < |freshIds| ==> freshIds[i] != "")
    && (forall i, j :: 0 <= i < j < |states| ==> states[i] != states[j])
    && forall i :: 0 <= i < |states| ==> states[i].View() == InitialView(WithId(loaded[i], freshIds[i]), now)
  }

  /** Every state collected holds a complaint with a non-empty id, the loaded one when it had an id. */
  lemma CollectedHaveIds(states: seq<ComplaintState>, loaded: seq<ComplaintRaw>, freshIds: seq<string>,
                         now: Timestamp, i: nat)
    requires Collected(states, loaded, freshIds, now) && i < |states|
    ensures HasId(states[i].raw) && states[i].workflowStatus == New && states[i].errors == []
    ensures HasId(loaded[i]) ==> states[i].raw == loaded[i]
  {
    assert states[i].View() == InitialView(WithId(loaded[i], freshIds[i]), now);
  }

  /** `set(ComplaintSource)`. */
  function AllSources(): set<ComplaintSource> {
    {ReclameAqui, Jira, Chat, WhatsApp, Email, Phone}
  }

  /** The set of known sources holds every source. */
  lemma AllSourcesComplete()
    ensures forall s: ComplaintSource :: s in AllSources()
  {
    forall s: ComplaintSource
      ensures s in AllSources()
    {
      match s
      case ReclameAqui =>
      case Jira =>
      case Chat =>
      case WhatsApp =>
      case Email =>
      case Phone =>
    }
  }

  /**
   * `validate_input`: no list means every source, and every listed source
   * must be a known one, which every source is.
   */
  function ValidateInput(sources: Option<seq<ComplaintSource>>): (r: bool)
    ensures r
  {
    AllSourcesComplete();
    sources.None? || forall s :: s in sources.value ==> s in AllSources()
  }

  class CollectorAgent {
    /** `BaseAgent._initialized`. */
    var initialized: bool
    /** Whether `data_loader` is set. */
    var loaderReady: bool

    /** An initialised collector holds its loader. */
    predicate Valid()
      reads this
    {
      initialized ==> loaderReady
    }

    constructor ()
      ensures Valid() && !initialized && !loaderReady
    {
      initialized := false;
      loaderReady := false;
    }

    /** `initialize`: obtain the data loader. */
    method Initialize()
      modifies this
      ensures loaderReady && initialized == old(initialized)
    {
      loaderReady := true;
    }

    /** `collect_single`: a state at status NEW for the complaint, which gets `freshId` when it has no id. */
    method CollectSingle(complaint: ComplaintRaw, freshId: string, now: Timestamp) returns (state: ComplaintState)
      requires freshId != ""
      ensures fresh(state)
      ensures state.View() == InitialView(WithId(complaint, freshId), now)
    {
      var c := complaint;
      if !HasId(c) {
        c := c.(id := Some(freshId));
      }
      state := new ComplaintState(c, now);
    }

    /** The loop of `process`: one new state per loaded complaint, in order. */
    static method BuildStates(loaded: seq<ComplaintRaw>, freshIds: seq<string>, now: Timestamp)
      returns (states: seq<ComplaintState>)
      requires |freshIds| == |loaded| && forall i :: 0 <= i < |freshIds| ==> freshIds[i] != ""
      ensures forall i :: 0 <= i < |states| ==> fresh(states[i])
      ensures Collected(states, loaded, freshIds, now)
    {
      states := [];
      var i := 0;
      while i < |loaded|
        invariant 0 <= i <= |loaded| && |states| == i
        invariant forall j :: 0 <= j < i ==> fresh(states[j])
        invariant forall j, k :: 0 <= j < k < i ==> states[j] != states[k]
        invariant forall j :: 0 <= j < i ==> states[j].View() == InitialView(WithId(loaded[j], freshIds[j]), now)
      {
        var complaint := loaded[i];
        if !HasId(complaint) {
          complaint := complaint.(id := Some(freshIds[i]));
        }
        var state := new ComplaintState(complaint, now);
        states := states + [state];
        i := i + 1;
      }
    }

    /**
     * `process`: without a loader it raises; otherwise one new state per
     * complaint the loader returned for `sources`, which is `loaded`.
     */
    method Process(sources: Option<seq<ComplaintSource>>, loaded: seq<ComplaintRaw>, freshIds: seq<string>,
                   now: Timestamp) returns (r: Result<seq<ComplaintState>, AgentError>)
      requires |freshIds| == |loaded| && forall i :: 0 <= i < |freshIds| ==> freshIds[i] != ""
      ensures r.Err? <==> !loaderReady
      ensures r.Err? ==> r.error == LOADER_MISSING
      ensures r.Ok? ==> (forall i :: 0 <= i < |r.value| ==> fresh(r.value[i])) && Collected(r.value, loaded, freshIds, now)
    {
      if !loaderReady {
        return Err(LOADER_MISSING);
      }
      var states := BuildStates(loaded, freshIds, now);
      return Ok(states);
    }

    /** `collect_by_source`: `process` for the one source. */
    method CollectBySource(source: ComplaintSource, loaded: seq<ComplaintRaw>, freshIds: seq<string>,
                           now: Timestamp) returns (r: Result<seq<ComplaintState>, AgentError>)
      requires |freshIds| == |loaded| && forall i :: 0 <= i < |freshIds| ==> freshIds[i] != ""
      ensures r.Err? <==> !loaderReady
      ensures r.Err? ==> r.error == LOADER_MISSING
      ensures r.Ok? ==> (forall i :: 0 <= i < |r.value| ==> fresh(r.value[i])) && Collected(r.value, loaded, freshIds, now)
    {
      r := Process(Some([source]), loaded, freshIds, now);
    }

    /**
     * `BaseAgent.execute` for the collector: initialise once, validate and
     * process. Initialisation cannot fail and every source list is valid, so
     * the collection always succeeds.
     */
    method Execute(sources: Option<seq<ComplaintSource>>, loaded: seq<ComplaintRaw>, freshIds: seq<string>,
                   now: Timestamp) returns (r: Result<seq<ComplaintState>, AgentError>)
      requires Valid()
      requires |freshIds| == |loaded| && forall i :: 0 <= i < |freshIds| ==> freshIds[i] != ""
      modifies this
      ensures Valid() && initialized && loaderReady
      ensures r.Ok? && (forall i :: 0 <= i < |r.value| ==> fresh(r.value[i])) && Collected(r.value, loaded, freshIds, now)
    {
      if !initialized {
        Initialize();
        initialized := true;
      }
      // `validate_input` accepts every list, so the invalid-input error is never raised
      assert ValidateInput(sources);
      // an `AgentError` from `process` would be re-raised unchanged; with the loader held there is none
      r := Process(sources, loaded, freshIds, now);
    }

    /** `get_stats`: the loader's statistics, or the error text without a loader. */
    method GetStats<S>(loaderStats: S) returns (r: Result<S, string>)
      ensures r.Err? <==> !loaderReady
      ensures r.Err? ==> r.error == LOADER_MISSING.message
      ensures r.Ok? ==> r.value == loaderStats
    {
      if !loaderReady {
        return Err("Data loader not initialized");
      }
      return Ok(loaderStats);
    }
  }
}
