/** The callback layer around the pipeline (orchestrator/enhanced_orchestrator.py):
    registries of callbacks, the two wrappers that turn one progress
    notification into calls of user callbacks, and the chaining of several
    callbacks into one. A user callback is an opaque handle; what it does
    when called is only whether it raises, and with which message. */
module Callbacks {
  import opened Values
  import opened Text
  import Pipeline

  /** A user-supplied callable. */
  datatype Callback = Callback(id: nat)

  /** `add_agent_callback` on the registry value: the list for `name` is
      created if absent, and `cb` goes at its end. */
  function WithAgentCallback(m: map<string, seq<Callback>>, name: string, cb: Callback): map<string, seq<Callback>> {
    m[name := (if name in m then m[name] else []) + [cb]]
  }

  lemma WithAgentCallbackSpec(m: map<string, seq<Callback>>, name: string, cb: Callback)
    ensures var r := WithAgentCallback(m, name, cb);
      && r.Keys == m.Keys + {name}
      && (forall k :: k in m && k != name ==> r[k] == m[k])
      && |r[name]| >= 1 && r[name][|r[name]| - 1] == cb
      && (name in m ==> r[name][..|r[name]| - 1] == m[name])
      && (name !in m ==> r[name] == [cb])
  {
    var r := WithAgentCallback(m, name, cb);
    var old_ := if name in m then m[name] else [];
    assert r[name] == old_ + [cb];
    assert r[name][..|r[name]| - 1] == old_;
  }

  /** `EnhancedOrchestrator`: the base orchestrator plus three registries. */
  class EnhancedOrchestrator {
    const base: Pipeline.Orchestrator
    var progressCallbacks: seq<Callback>
    var stateCallbacks: seq<Callback>
    var agentCallbacks: map<string, seq<Callback>>

    constructor(base: Pipeline.Orchestrator)
      ensures this.base == base
      ensures progressCallbacks == [] && stateCallbacks == [] && agentCallbacks == map[]
    {
      this.base := base;
      progressCallbacks := [];
      stateCallbacks := [];
      agentCallbacks := map[];
    }

    method AddProgressCallback(cb: Callback)
      modifies this
      ensures progressCallbacks == old(progressCallbacks) + [cb]
      ensures stateCallbacks == old(stateCallbacks) && agentCallbacks == old(agentCallbacks)
    {
      progressCallbacks := progressCallbacks + [cb];
    }

    method AddStateCallback(cb: Callback)
      modifies this
      ensures stateCallbacks == old(stateCallbacks) + [cb]
      ensures progressCallbacks == old(progressCallbacks) && agentCallbacks == old(agentCallbacks)
    {
      stateCallbacks := stateCallbacks + [cb];
    }

    method AddAgentCallback(agentName: string, cb: Callback)
      modifies this
      ensures agentCallbacks == WithAgentCallback(old(agentCallbacks), agentName, cb)
      ensures progressCallbacks == old(progressCallbacks) && stateCallbacks == old(stateCallbacks)
    {
      if agentName !in agentCallbacks {
        agentCallbacks := agentCallbacks[agentName := []];
      }
      agentCallbacks := agentCallbacks[agentName := agentCallbacks[agentName] + [cb]];
    }
  }

  // ---------------------------------------------------------------------------
  // Calls of user callbacks

  /** The record handed to the lambdas of `run_with_lambdas`. */
  datatype AgentView = AgentView(topic: string, currentAgent: Value, completedAgents: Value, outputs: Value)

  /** One call of a user callback, with its arguments. */
  datatype Firing =
    | ProgressLambda(index: nat, agent: Value, view: AgentView)
    | StateLambda(view: AgentView)
    | AgentLambda(agentName: string, output: Value, view: AgentView)
    | AgentStart(agent: Value, position: nat, count: nat)
    | AgentComplete(agent: Value, output: Value, progress: real)
    | ProgressUpdate(progress: real)
    | Chained(cb: Callback, progress: real, state: Value)

  /** What a wrapper does, in order: calls of user callbacks and the
      warnings it logs for exceptions it caught. */
  datatype Event = Invoked(firing: Firing) | Warned(message: string)

  /** The events of a wrapper call and the exception that escaped it, if any. */
  datatype Dispatch = Dispatch(events: seq<Event>, escaped: Option<string>)

  /** Which calls raise, and with which message. */
  type Raises = Firing -> Option<string>

  /** A call inside `try: ... except Exception as e: logger.warning(prefix + e)`. */
  function Guarded(f: Firing, raises: Raises, prefix: string): seq<Event> {
    [Invoked(f)] + (if raises(f).Some? then [Warned(prefix + raises(f).value)] else [])
  }

  /** The callback calls among the events, in order. */
  function Fired(es: seq<Event>): seq<Firing> {
    if es == [] then [] else (if es[0].Invoked? then [es[0].firing] else []) + Fired(es[1..])
  }

  lemma {:induction false} FiredAppend(a: seq<Event>, b: seq<Event>)
    ensures Fired(a + b) == Fired(a) + Fired(b)
    decreases |a|
  {
    if a == [] {
      assert a + b == b;
    } else {
      assert (a + b)[0] == a[0];
      assert (a + b)[1..] == a[1..] + b;
      FiredAppend(a[1..], b);
    }
  }

  lemma FiredGuarded(f: Firing, raises: Raises, prefix: string)
    ensures Fired(Guarded(f, raises, prefix)) == [f]
  {
    var g := Guarded(f, raises, prefix);
    var rest := if raises(f).Some? then [Warned(prefix + raises(f).value)] else [];
    assert g[0] == Invoked(f) && g[1..] == rest;
    if rest != [] {
      assert rest[1..] == [];
      assert Fired(rest) == [];
    }
    assert Fired(g) == [f] + Fired(rest);
  }

  function Fires(cond: bool, f: Firing, raises: Raises, prefix: string): seq<Event> {
    if cond then Guarded(f, raises, prefix) else []
  }

  lemma FiredFires(cond: bool, f: Firing, raises: Raises, prefix: string)
    ensures Fired(Fires(cond, f, raises, prefix)) == if cond then [f] else []
  {
    if cond {
      FiredGuarded(f, raises, prefix);
    }
  }

  // ---------------------------------------------------------------------------
  // `unified_callback` of `run_with_lambdas`

  /** The lambdas passed to `run_with_lambdas`: whether there is a progress
      and a state lambda, and the names that have an agent lambda. */
  datatype Lambdas = Lambdas(progress: bool, state: bool, agents: set<string>)

  /** The agent-lambda part: fires when the current agent has a lambda and
      an entry in `intermediate_outputs`, with that entry; any other
      failure inside the `try` is logged. */
  function AgentLambdaEvents(current: string, outputs: Value, view: AgentView, raises: Raises): seq<Event> {
    var prefix := "Agent lambda for " + current + " failed: ";
    match outputs
    case Obj(entries) =>
      if HasKey(entries, current) then Guarded(AgentLambda(current, Get(entries, current).value, view), raises, prefix)
      else []
    case List(items) =>
      if Str(current) in items then [Warned(prefix + "list indices must be integers or slices, not str")] else []
    case Str(t) =>
      if Contains(t, current) then [Warned(prefix + "string indices must be integers, not 'str'")] else []
    case _ => [Warned(prefix + "argument of type '" + TypeName(outputs) + "' is not iterable")]
  }

  /** What both wrappers read first: `state_dict.get("state", {})` must be a
      dictionary and its `completed_agents` (default `[]`) must have a
      length; the result is the state's entries and that length, or the
      exception raised, which nothing catches. */
  function ReadState(stateDict: seq<(string, Value)>): (r: Result<(seq<(string, Value)>, nat), string>)
    ensures r.Ok? <==> GetOr(stateDict, "state", Obj([])).Obj?
                       && Len(GetOr(GetOr(stateDict, "state", Obj([])).entries, "completed_agents", List([]))).Some?
    ensures r.Ok? ==> r.value.0 == GetOr(stateDict, "state", Obj([])).entries
                      && Len(GetOr(r.value.0, "completed_agents", List([]))) == Some(r.value.1)
  {
    var state := GetOr(stateDict, "state", Obj([]));
    if !state.Obj? then Err(NoAttribute(state, "get"))
    else
      var completed := GetOr(state.entries, "completed_agents", List([]));
      match Len(completed)
      case None => Err(NoLen(completed))
      case Some(n) => Ok((state.entries, n))
  }

  function CurrentAgent(state: seq<(string, Value)>): Value {
    GetOr(state, "current_agent", Str(""))
  }

  function Outputs(state: seq<(string, Value)>): Value {
    GetOr(state, "intermediate_outputs", Obj([]))
  }

  function ViewOf(topic: string, state: seq<(string, Value)>): AgentView {
    AgentView(topic, CurrentAgent(state), GetOr(state, "completed_agents", List([])), Outputs(state))
  }

  /** The calls of `unified_callback` once the state has been read. */
  function UnifiedCalls(topic: string, state: seq<(string, Value)>, index: nat, lambdas: Lambdas, raises: Raises): Dispatch {
    var current := CurrentAgent(state);
    var view := ViewOf(topic, state);
    var before := Fires(lambdas.progress && Truthy(current), ProgressLambda(index, current, view),
                        raises, "Progress lambda failed: ")
                + Fires(lambdas.state, StateLambda(view), raises, "State lambda failed: ");
    if lambdas.agents != {} && Unhashable(current) then Dispatch(before, Some(UnhashableMessage(current)))
    else if lambdas.agents != {} && current.Str? && current.s in lambdas.agents then
      Dispatch(before + AgentLambdaEvents(current.s, Outputs(state), view, raises), None)
    else Dispatch(before, None)
  }

  /** `unified_callback(progress, state_dict)`. */
  function UnifiedCallback(topic: string, stateDict: seq<(string, Value)>, lambdas: Lambdas, raises: Raises): Dispatch {
    match ReadState(stateDict)
    case Err(e) => Dispatch([], Some(e))
    case Ok((state, index)) => UnifiedCalls(topic, state, index, lambdas, raises)
  }

  /** The lambdas `unified_callback` calls once the state has been read:
      the progress lambda with the number of completed agents when the
      current agent is non-empty, the state lambda when given, and the
      current agent's lambda, with its entry of `intermediate_outputs`, when
      it has both. */
  function UnifiedFirings(topic: string, state: seq<(string, Value)>, index: nat, lambdas: Lambdas): seq<Firing> {
    var current := CurrentAgent(state);
    var outputs := Outputs(state);
    var view := ViewOf(topic, state);
    (if lambdas.progress && Truthy(current) then [ProgressLambda(index, current, view)] else [])
    + (if lambdas.state then [StateLambda(view)] else [])
    + (if lambdas.agents != {} && current.Str? && current.s in lambdas.agents
          && outputs.Obj? && HasKey(outputs.entries, current.s)
       then [AgentLambda(current.s, Get(outputs.entries, current.s).value, view)] else [])
  }

  lemma UnifiedCallsFire(topic: string, state: seq<(string, Value)>, index: nat, lambdas: Lambdas, raises: Raises)
    ensures var d := UnifiedCalls(topic, state, index, lambdas, raises);
      && Fired(d.events) == UnifiedFirings(topic, state, index, lambdas)
      && (d.escaped.Some? <==> lambdas.agents != {} && Unhashable(CurrentAgent(state)))
  {
    UnifiedCallsFired(topic, state, index, lambdas, raises);
  }

  lemma UnifiedCallsFired(topic: string, state: seq<(string, Value)>, index: nat, lambdas: Lambdas, raises: Raises)
    ensures Fired(UnifiedCalls(topic, state, index, lambdas, raises).events) == UnifiedFirings(topic, state, index, lambdas)
  {
    var current := CurrentAgent(state);
    var view := ViewOf(topic, state);
    var p := Fires(lambdas.progress && Truthy(current), ProgressLambda(index, current, view), raises, "Progress lambda failed: ");
    var s := Fires(lambdas.state, StateLambda(view), raises, "State lambda failed: ");
    var hasLambda := lambdas.agents != {} && current.Str? && current.s in lambdas.agents;
    var a := if hasLambda then AgentLambdaEvents(current.s, Outputs(state), view, raises) else [];
    UnifiedEvents(topic, state, index, lambdas, raises);
    FiredFires(lambdas.progress && Truthy(current), ProgressLambda(index, current, view), raises, "Progress lambda failed: ");
    FiredFires(lambdas.state, StateLambda(view), raises, "State lambda failed: ");
    FiredAppend(p, s);
    FiredAppend(p + s, a);
    if hasLambda {
      AgentLambdaFired(current.s, Outputs(state), view, raises);
    }
  }

  /** The events of `unified_callback`: the progress part, the state part and
      the agent-lambda part, one after the other. */
  lemma UnifiedEvents(topic: string, state: seq<(string, Value)>, index: nat, lambdas: Lambdas, raises: Raises)
    ensures var current := CurrentAgent(state); var view := ViewOf(topic, state);
      UnifiedCalls(topic, state, index, lambdas, raises).events ==
        Fires(lambdas.progress && Truthy(current), ProgressLambda(index, current, view), raises, "Progress lambda failed: ")
        + Fires(lambdas.state, StateLambda(view), raises, "State lambda failed: ")
        + (if lambdas.agents != {} && current.Str? && current.s in lambdas.agents
           then AgentLambdaEvents(current.s, Outputs(state), view, raises) else [])
  {
    var current := CurrentAgent(state);
    var view := ViewOf(topic, state);
    var before := Fires(lambdas.progress && Truthy(current), ProgressLambda(index, current, view), raises, "Progress lambda failed: ")
                + Fires(lambdas.state, StateLambda(view), raises, "State lambda failed: ");
    assert before + [] == before;
  }

  /** An exception leaves `unified_callback` only from its own unguarded
      steps: reading the state, or looking an unhashable current agent up
      among the agent lambdas. The lambdas it calls do not depend on what
      they raise, since every call is guarded. */
  lemma UnifiedCallbackSpec(topic: string, stateDict: seq<(string, Value)>, lambdas: Lambdas, raises: Raises)
    ensures var d := UnifiedCallback(topic, stateDict, lambdas, raises);
      match ReadState(stateDict)
      case Err(e) => d == Dispatch([], Some(e))
      case Ok((state, index)) =>
        && Fired(d.events) == UnifiedFirings(topic, state, index, lambdas)
        && (d.escaped.Some? <==> lambdas.agents != {} && Unhashable(CurrentAgent(state)))
  {
    match ReadState(stateDict)
    case Err(e) =>
    case Ok((state, index)) => UnifiedCallsFire(topic, state, index, lambdas, raises);
  }

  lemma AgentLambdaFired(current: string, outputs: Value, view: AgentView, raises: Raises)
    ensures Fired(AgentLambdaEvents(current, outputs, view, raises))
         == if outputs.Obj? && HasKey(outputs.entries, current)
            then [AgentLambda(current, Get(outputs.entries, current).value, view)] else []
  {
    var prefix := "Agent lambda for " + current + " failed: ";
    if outputs.Obj? && HasKey(outputs.entries, current) {
      FiredGuarded(AgentLambda(current, Get(outputs.entries, current).value, view), raises, prefix);
    } else {
      var es := AgentLambdaEvents(current, outputs, view, raises);
      assert |es| <= 1 && (es != [] ==> es[0].Warned?);
      if es != [] {
        assert es[1..] == [];
      }
    }
  }

  // ---------------------------------------------------------------------------
  // `callback_wrapper` of `run_with_incremental_updates`

  /** The callbacks passed to `run_with_incremental_updates`. */
  datatype Incremental = Incremental(onStart: bool, onComplete: bool, onProgress: bool, updateInterval: int)

  /** The output `on_agent_complete` receives: the current agent's entry of
      the outputs, `{}` when there is none. */
  function CompletedOutput(current: Value, outputs: seq<(string, Value)>): Value {
    if current.Str? then GetOr(outputs, current.s, Obj([])) else Obj([])
  }

  /** The completion part; a failure to look the output up is logged. */
  function CompleteEvents(current: Value, outputs: Value, progress: real, raises: Raises): seq<Event> {
    var prefix := "on_agent_complete callback failed: ";
    if !outputs.Obj? then [Warned(prefix + NoAttribute(outputs, "get"))]
    else if Unhashable(current) then [Warned(prefix + UnhashableMessage(current))]
    else Guarded(AgentComplete(current, CompletedOutput(current, outputs.entries), progress), raises, prefix)
  }

  lemma CompleteFired(current: Value, outputs: Value, progress: real, raises: Raises)
    ensures Fired(CompleteEvents(current, outputs, progress, raises))
         == if outputs.Obj? && !Unhashable(current)
            then [AgentComplete(current, CompletedOutput(current, outputs.entries), progress)] else []
  {
    var prefix := "on_agent_complete callback failed: ";
    if outputs.Obj? && !Unhashable(current) {
      FiredGuarded(AgentComplete(current, CompletedOutput(current, outputs.entries), progress), raises, prefix);
    } else {
      var es := CompleteEvents(current, outputs, progress, raises);
      assert es[1..] == [];
    }
  }

  /** Python's `ZeroDivisionError` for `x % 0`. */
  const MODULO_BY_ZERO: string := "integer modulo by zero"

  /** The calls of `callback_wrapper` once the state and message are read. */
  function WrapperCalls(progress: real, state: seq<(string, Value)>, message: string, completed: nat,
                        agentCount: nat, cbs: Incremental, raises: Raises): Dispatch {
    var current := CurrentAgent(state);
    var start := Fires(StartsWith(message, "Running") && cbs.onStart, AgentStart(current, completed + 1, agentCount),
                       raises, "on_agent_start callback failed: ");
    var complete := if StartsWith(message, "Completed") && cbs.onComplete
                    then CompleteEvents(current, Outputs(state), progress, raises) else [];
    if cbs.onProgress && cbs.updateInterval == 0 then Dispatch(start + complete, Some(MODULO_BY_ZERO))
    else
      Dispatch(start + complete + Fires(cbs.onProgress && completed % cbs.updateInterval == 0,
                                        ProgressUpdate(progress), raises, "on_progress callback failed: "),
               None)
  }

  /** `callback_wrapper(progress, state_dict)`, for a pipeline of
      `agentCount` agents; a message that is not a string has no
      `startswith`. */
  function CallbackWrapper(progress: real, stateDict: seq<(string, Value)>, agentCount: nat,
                           cbs: Incremental, raises: Raises): Dispatch {
    match ReadState(stateDict)
    case Err(e) => Dispatch([], Some(e))
    case Ok((state, completed)) =>
      var message := GetOr(stateDict, "message", Str(""));
      if !message.Str? then Dispatch([], Some(NoAttribute(message, "startswith")))
      else WrapperCalls(progress, state, message.s, completed, agentCount, cbs, raises)
  }

  /** The callbacks `callback_wrapper` calls once state and message are
      read: `on_agent_start` for a message starting with "Running", with
      position `completed + 1` of the agent count; `on_agent_complete` for
      one starting with "Completed" when the outputs can be looked up; and
      `on_progress` when the number of completed agents is a multiple of a
      non-zero update interval. */
  function WrapperFirings(progress: real, state: seq<(string, Value)>, message: string, completed: nat,
                          agentCount: nat, cbs: Incremental): seq<Firing> {
    var current := CurrentAgent(state);
    var outputs := Outputs(state);
    (if StartsWith(message, "Running") && cbs.onStart then [AgentStart(current, completed + 1, agentCount)] else [])
    + (if StartsWith(message, "Completed") && cbs.onComplete && outputs.Obj? && !Unhashable(current)
       then [AgentComplete(current, CompletedOutput(current, outputs.entries), progress)] else [])
    + (if cbs.onProgress && cbs.updateInterval != 0 && completed % cbs.updateInterval == 0
       then [ProgressUpdate(progress)] else [])
  }

  lemma WrapperCallsFire(progress: real, state: seq<(string, Value)>, message: string, completed: nat,
                         agentCount: nat, cbs: Incremental, raises: Raises)
    ensures var d := WrapperCalls(progress, state, message, completed, agentCount, cbs, raises);
      && Fired(d.events) == WrapperFirings(progress, state, message, completed, agentCount, cbs)
      && (d.escaped.Some? <==> cbs.onProgress && cbs.updateInterval == 0)
  {
    var current := CurrentAgent(state);
    var startCond := StartsWith(message, "Running") && cbs.onStart;
    var start := Fires(startCond, AgentStart(current, completed + 1, agentCount), raises, "on_agent_start callback failed: ");
    FiredFires(startCond, AgentStart(current, completed + 1, agentCount), raises, "on_agent_start callback failed: ");
    var complete := if StartsWith(message, "Completed") && cbs.onComplete then CompleteEvents(current, Outputs(state), progress, raises) else [];
    if StartsWith(message, "Completed") && cbs.onComplete {
      CompleteFired(current, Outputs(state), progress, raises);
    }
    FiredAppend(start, complete);
    if !(cbs.onProgress && cbs.updateInterval == 0) {
      var cond := cbs.onProgress && completed % cbs.updateInterval == 0;
      FiredFires(cond, ProgressUpdate(progress), raises, "on_progress callback failed: ");
      FiredAppend(start + complete, Fires(cond, ProgressUpdate(progress), raises, "on_progress callback failed: "));
    }
  }

  /** An exception leaves `callback_wrapper` only when reading the state
      fails, the message is not a string, or an `on_progress` callback
      meets an update interval of 0; never from a callback. */
  lemma CallbackWrapperSpec(progress: real, stateDict: seq<(string, Value)>, agentCount: nat,
                            cbs: Incremental, raises: Raises)
    ensures var d := CallbackWrapper(progress, stateDict, agentCount, cbs, raises);
      var message := GetOr(stateDict, "message", Str(""));
      match ReadState(stateDict)
      case Err(e) => d == Dispatch([], Some(e))
      case Ok((state, completed)) =>
        if !message.Str? then d == Dispatch([], Some(NoAttribute(message, "startswith")))
        else
          && Fired(d.events) == WrapperFirings(progress, state, message.s, completed, agentCount, cbs)
          && (d.escaped.Some? <==> cbs.onProgress && cbs.updateInterval == 0)
  {
    match ReadState(stateDict)
    case Err(e) =>
    case Ok((state, completed)) =>
      var message := GetOr(stateDict, "message", Str(""));
      if message.Str? {
        WrapperCallsFire(progress, state, message.s, completed, agentCount, cbs, raises);
      }
  }

  // ---------------------------------------------------------------------------
  // `create_progress_chain`

  /** The events of the chained callback: every callback in order, each
      inside its own `try`. */
  function ChainEvents(callbacks: seq<Callback>, progress: real, state: Value, raises: Raises): seq<Event>
    decreases |callbacks|
  {
    if callbacks == [] then []
    else ChainEvents(callbacks[..|callbacks| - 1], progress, state, raises)
         + Guarded(Chained(callbacks[|callbacks| - 1], progress, state), raises, "Chained callback failed: ")
  }

  /** `chained_callback(progress, state)`. */
  method ChainedCallback(callbacks: seq<Callback>, progress: real, state: Value, raises: Raises)
    returns (events: seq<Event>)
    ensures events == ChainEvents(callbacks, progress, state, raises)
  {
    events := [];
    for k := 0 to |callbacks|
      invariant events == ChainEvents(callbacks[..k], progress, state, raises)
    {
      assert callbacks[..k + 1][..k] == callbacks[..k];
      events := events + Guarded(Chained(callbacks[k], progress, state), raises, "Chained callback failed: ");
    }
    assert callbacks[..|callbacks|] == callbacks;
  }

  /** Every callback of the chain is called exactly once, in order, whatever
      the earlier ones raise; one warning is logged per callback that raised. */
  lemma {:induction false} ChainCallsEach(callbacks: seq<Callback>, progress: real, state: Value, raises: Raises)
    ensures Fired(ChainEvents(callbacks, progress, state, raises))
         == seq(|callbacks|, i requires 0 <= i < |callbacks| => Chained(callbacks[i], progress, state))
    decreases |callbacks|
  {
    if callbacks != [] {
      var n := |callbacks|;
      var init := callbacks[..n - 1];
      ChainCallsEach(init, progress, state, raises);
      var last := Chained(callbacks[n - 1], progress, state);
      FiredAppend(ChainEvents(init, progress, state, raises), Guarded(last, raises, "Chained callback failed: "));
      FiredGuarded(last, raises, "Chained callback failed: ");
    }
  }

  // ---------------------------------------------------------------------------
  // `create_streamlit_callbacks`

  /** `agent_path.split(".")[-1]`: the name the agent lambdas are keyed by. */
  function StreamlitAgentName(path: string): string {
    var pieces := SplitOn(path, ".");
    pieces[|pieces| - 1]
  }

  /** The agent lambdas are keyed by the same names the loaded agents carry. */
  lemma StreamlitAgentNameIsClassName(path: string)
    requires Pipeline.SplitLast(path).Some?
    ensures StreamlitAgentName(path) == Pipeline.SplitLast(path).value.1
  {
    SplitOnLast(path, '.');
  }

  /** The progress bar value and status text the streamlit progress lambda
      shows for agent index `i`. */
  function StreamlitProgress(i: nat, agent: string): (r: (real, string))
    ensures r.0 == (i + 1) as real / |Pipeline.AGENT_SEQUENCE| as real
    ensures 0.0 < r.0 && (i < |Pipeline.AGENT_SEQUENCE| ==> r.0 <= 1.0)
    ensures r.1 == "Processing: " + agent + " (" + IntToString(i + 1) + "/" + IntToString(|Pipeline.AGENT_SEQUENCE|) + ")"
  {
    var n := |Pipeline.AGENT_SEQUENCE|;
    ((i + 1) as real / n as real, "Processing: " + agent + " (" + IntToString(i + 1) + "/" + IntToString(n) + ")")
  }

  /** The status text names the agent and, between the parentheses, reads
      back as the 1-based step, a slash and the number of agents; the bar
      value is that step over that number. */
  lemma StreamlitStatusReadsBack(i: nat, agent: string)
    ensures var r := StreamlitProgress(i, agent);
      && CounterReads(r.1, "Processing: " + agent + " (", i + 1, |Pipeline.AGENT_SEQUENCE|)
      && r.0 * |Pipeline.AGENT_SEQUENCE| as real == (i + 1) as real
  {
    Pipeline.AgentSequenceStart();
    CounterText("Processing: " + agent + " (", i + 1, |Pipeline.AGENT_SEQUENCE|);
    ScaledBack((i + 1) as real, |Pipeline.AGENT_SEQUENCE| as real);
  }

  lemma ScaledBack(x: real, n: real)
    requires n > 0.0
    ensures (x / n) * n == x
  {
  }

  /** `text` is `prefix`, then decimal digits reading back as `x`, a slash,
      decimal digits reading back as `y`, and a closing parenthesis. */
  predicate CounterReads(text: string, prefix: string, x: nat, y: nat) {
    var d := |NatToString(x)|;
    && |prefix| + d + 2 < |text| && text[..|prefix|] == prefix && text[|text| - 1] == ')'
    && var counter := text[|prefix|..|text| - 1];
       && (forall j :: 0 <= j < d ==> '0' <= counter[j] <= '9')
       && ParseNat(counter[..d]) == x
       && counter[d] == '/'
       && (forall j :: d < j < |counter| ==> '0' <= counter[j] <= '9')
       && ParseNat(counter[d + 1..]) == y
  }

  lemma CounterText(prefix: string, x: nat, y: nat)
    ensures CounterReads(prefix + IntToString(x) + "/" + IntToString(y) + ")", prefix, x, y)
  {
    var a := NatToString(x);
    var b := NatToString(y);
    var text := prefix + IntToString(x) + "/" + IntToString(y) + ")";
    assert text == prefix + a + "/" + b + ")";
    var counter := text[|prefix|..|text| - 1];
    assert counter == a + "/" + b;
    assert counter[..|a|] == a;
    assert counter[|a| + 1..] == b;
    NatToStringRoundTrip(x);
    NatToStringRoundTrip(y);
  }
}
