/**
 * What every agent shares: the `AgentError` exception and its text, the
 * error handling of `BaseAgent.execute`, and the envelope of
 * `StatefulAgent.execute`, which never raises: it initialises the agent
 * once, validates, processes, and records a failure as one entry on
 * `state.errors` plus the agent's failure status.
 */
module Base {
  import opened Wrappers
  import opened Text
  import opened Schemas

  datatype AgentError = AgentError(message: string, agentName: string, recoverable: bool)

  /** `str(AgentError(...))`. */
  function ErrorText(e: AgentError): (r: string)
    ensures StartsWith(r, "[" + e.agentName + "] ") && EndsWith(r, e.message)
  {
    "[" + e.agentName + "] " + e.message
  }

  /** An agent name without `]` and the message can be read back from the text. */
  lemma ErrorTextInjective(e: AgentError, e': AgentError)
    requires ']' !in e.agentName && ']' !in e'.agentName
    requires ErrorText(e) == ErrorText(e')
    ensures e.agentName == e'.agentName && e.message == e'.message
  {
    var x := ErrorText(e);
    assert x == "[" + e.agentName + "] " + e.message;
    assert "[" + e.agentName + "] " + e.message == ("[" + e.agentName) + ([']'] + (" " + e.message));
    assert "[" + e'.agentName + "] " + e'.message == ("[" + e'.agentName) + ([']'] + (" " + e'.message));
    SplitAtFirst(']', "[" + e.agentName, " " + e.message, "[" + e'.agentName, " " + e'.message);
    assert e.agentName == ("[" + e.agentName)[1..];
    assert e'.agentName == ("[" + e'.agentName)[1..];
    assert e.message == (" " + e.message)[1..];
    assert e'.message == (" " + e'.message)[1..];
  }

  /** What a step raised: an `AgentError`, or any other exception, known by its text. */
  datatype Raised = Agent(error: AgentError) | Other(text: string)

  function InvalidInputError(name: string): AgentError {
    AgentError("Invalid input data", name, false)
  }

  /** What `BaseAgent.execute` raises for what a step raised: an `AgentError` unchanged, anything else wrapped. */
  function Reraised(name: string, r: Raised): (e: AgentError)
    ensures r.Agent? ==> e == r.error
    ensures r.Other? ==> e.recoverable && e.agentName == name && ErrorText(e) == "[" + name + "] " + r.text
  {
    match r
    case Agent(error) => error
    case Other(text) => AgentError(text, name, true)
  }

  /**
   * `BaseAgent.execute`: initialise unless already initialised, validate,
   * process; the first step that fails decides the error, and invalid input
   * is a non-recoverable error of this agent.
   */
  function BaseExecute<T>(name: string, initialized: bool, init: Option<Raised>, valid: bool,
                          process: Result<T, Raised>): (r: Result<T, AgentError>)
    ensures r.Ok? <==> (initialized || init.None?) && valid && process.Ok?
    ensures r.Ok? ==> r.value == process.value
    ensures !initialized && init.Some? ==> r == Err(Reraised(name, init.value))
    ensures (initialized || init.None?) && !valid ==> r == Err(InvalidInputError(name)) && !r.error.recoverable
    ensures (initialized || init.None?) && valid && process.Err? ==> r == Err(Reraised(name, process.error))
  {
    if !initialized && init.Some? then Err(Reraised(name, init.value))
    else if !valid then Err(InvalidInputError(name))
    else if process.Err? then Err(Reraised(name, process.error))
    else Ok(process.value)
  }

  /** The entry `StatefulAgent.execute` appends for what a step raised. */
  function ErrorEntry(name: string, r: Raised): string
  {
    match r
    case Agent(e) => "[" + name + "] " + e.message
    case Other(text) => "[" + name + "] Unexpected: " + text
  }

  /** The entry for a state that failed validation. */
  function InvalidEntry(name: string): string
  {
    "[" + name + "] Invalid input state"
  }

  /**
   * The one entry a `StatefulAgent.execute` appends, given whether the agent
   * was initialised, what initialisation raised, whether the state was valid
   * and what processing raised; nothing on success.
   */
  function EnvelopeEntry(name: string, initialized: bool, init: Option<Raised>, valid: bool,
                         process: Option<Raised>): (entry: Option<string>)
    ensures entry.None? <==> (initialized || init.None?) && valid && process.None?
    ensures (initialized || init.None?) && !valid ==> entry == Some(InvalidEntry(name))
  {
    if !initialized && init.Some? then Some(ErrorEntry(name, init.value))
    else if !valid then Some(InvalidEntry(name))
    else if process.Some? then Some(ErrorEntry(name, process.value))
    else None
  }

  /** A text is a prefix of itself followed by anything. */
  lemma PrefixOfConcat(a: string, b: string)
    ensures StartsWith(a + b, a)
  {
    assert (a + b)[..|a|] == a;
  }

  /** Every entry for a raised error starts with the agent's tag, `[name] `. */
  lemma ErrorEntryTagged(name: string, r: Raised)
    ensures StartsWith(ErrorEntry(name, r), "[" + name + "] ")
  {
    match r
    case Agent(e) => PrefixOfConcat("[" + name + "] ", e.message);
    case Other(text) =>
      assert ErrorEntry(name, r) == ("[" + name + "] ") + ("Unexpected: " + text);
      PrefixOfConcat("[" + name + "] ", "Unexpected: " + text);
  }

  /** Every entry the envelope appends starts with the agent's tag. */
  lemma EntryTagged(name: string, initialized: bool, init: Option<Raised>, valid: bool, process: Option<Raised>)
    ensures var entry := EnvelopeEntry(name, initialized, init, valid, process);
      entry.Some? ==> StartsWith(entry.value, "[" + name + "] ")
  {
    if !initialized && init.Some? {
      ErrorEntryTagged(name, init.value);
    } else if !valid {
      assert InvalidEntry(name) == ("[" + name + "] ") + "Invalid input state";
      PrefixOfConcat("[" + name + "] ", "Invalid input state");
    } else if process.Some? {
      ErrorEntryTagged(name, process.value);
    }
  }

  /** The errors list after the envelope: at most one entry more, none on success. */
  function AppendEntry(errors: seq<string>, entry: Option<string>): (r: seq<string>)
    ensures entry.None? ==> r == errors
    ensures entry.Some? ==> r == errors + [entry.value]
  {
    if entry.Some? then errors + [entry.value] else errors
  }

  /**
   * The state after the envelope has recorded `entry`: the entry and the
   * failure status when there is one, the success status otherwise.
   */
  function Concluded(v: StateView, entry: Option<string>, success: WorkflowStatus, failure: WorkflowStatus): StateView {
    var status := if entry.Some? then failure else success;
    v.(errors := AppendEntry(v.errors, entry), status := status, trail := v.trail + [status])
  }

  /**
   * The status-and-errors half of a `StatefulAgent`: its name, the two
   * statuses it sets, and whether `initialize` has succeeded once.
   */
  class StatefulAgent {
    const name: string
    const successStatus: WorkflowStatus
    const failureStatus: WorkflowStatus
    var initialized: bool

    constructor (name: string, successStatus: WorkflowStatus, failureStatus: WorkflowStatus)
      ensures this.name == name && this.successStatus == successStatus
      ensures this.failureStatus == failureStatus && !initialized
    {
      this.name := name;
      this.successStatus := successStatus;
      this.failureStatus := failureStatus;
      initialized := false;
    }

    /** Records a failure: one entry appended, then the failure status. */
    method Fail(state: ComplaintState, entry: string)
      modifies state
      ensures state.View() == old(state.View()).(errors := old(state.errors) + [entry],
        status := failureStatus, trail := old(state.trail) + [failureStatus])
    {
      state.errors := state.errors + [entry];
      state.SetStatus(failureStatus);
    }

    /** Records a success: the success status and nothing else. */
    method Succeed(state: ComplaintState)
      modifies state
      ensures state.View() == old(state.View()).(status := successStatus,
        trail := old(state.trail) + [successStatus])
    {
      state.SetStatus(successStatus);
    }

    /**
     * The envelope up to processing: a failed first initialisation or an
     * invalid state is recorded as a failure, and `proceed` says whether to
     * process. `init` is what `initialize` raised when it ran.
     */
    method Enter(state: ComplaintState, init: Option<Raised>, valid: bool) returns (proceed: bool)
      modifies this, state
      ensures initialized == (old(initialized) || init.None?)
      ensures proceed == ((old(initialized) || init.None?) && valid)
      ensures proceed ==> state.View() == old(state.View())
      ensures !proceed ==> var entry := EnvelopeEntry(name, old(initialized), init, valid, None).value;
        state.View() == old(state.View()).(errors := old(state.errors) + [entry],
          status := failureStatus, trail := old(state.trail) + [failureStatus])
    {
      if !initialized {
        if init.Some? {
          Fail(state, ErrorEntry(name, init.value));
          return false;
        }
        initialized := true;
      }
      if !valid {
        Fail(state, InvalidEntry(name));
        return false;
      }
      return true;
    }

    /** The envelope after processing: what `process` raised, if anything, decides the status. */
    method Exit(state: ComplaintState, raised: Option<Raised>)
      modifies state
      ensures raised.Some? ==> state.View() == old(state.View()).(errors := old(state.errors) + [ErrorEntry(name, raised.value)],
        status := failureStatus, trail := old(state.trail) + [failureStatus])
      ensures raised.None? ==> state.View() == old(state.View()).(status := successStatus,
        trail := old(state.trail) + [successStatus])
    {
      if raised.Some? {
        Fail(state, ErrorEntry(name, raised.value));
      } else {
        Succeed(state);
      }
    }
  }
}
