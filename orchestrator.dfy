/** The sequential agent pipeline (orchestrator/orchestrator.py): agents are
    resolved once from a fixed list, then run one after another on a state
    dictionary that each agent's output replaces. The first failure ends the
    run with an error record; progress goes to an optional observer and a
    snapshot of the state is written after every agent that passes. */
module Pipeline {
  import opened Values
  import opened Text

  /** The agents of the full workflow, in the order they run. */
  const AGENT_SEQUENCE: seq<string> := [
    "agents.user_input.UserInputAgent",
    "agents.trend_idea.TrendIdeaAgent",
    "agents.intent_classifier.IntentClassifierAgent",
    "agents.competitor_scan.CompetitorScanAgent",
    "agents.keyword_mining.KeywordMiningAgent",
    "agents.outline_generator.OutlineGeneratorAgent",
    "agents.draft_writer.DraftWriterAgent",
    "agents.humanization.HumanizationAgent",
    "agents.readability.ReadabilityAgent",
    "agents.tone_check.ToneCheckAgent",
    "agents.style_consistency.StyleConsistencyAgent",
    "agents.qa_validation.QAValidationAgent",
    "agents.keyword_enrichment.KeywordEnrichmentAgent",
    "agents.internal_linking.InternalLinkingAgent",
    "agents.external_link_vetting.ExternalLinkVettingAgent",
    "agents.onpage_seo.OnPageSEOAgent",
    "agents.technical_seo.TechnicalSEOAgent",
    "agents.schema_enhancement.SchemaEnhancementAgent",
    "agents.image_optimization.ImageOptimizationAgent",
    "agents.alt_text.AltTextAgent",
    "agents.final_assembly.FinalAssemblyAgent"
  ]

  // ---------------------------------------------------------------------------
  // Resolving the agent list

  /** A loaded agent: the dotted path it came from, the class it resolved to
      (an opaque handle) and the class name. */
  datatype AgentInfo = AgentInfo(path: string, cls: nat, name: string)

  /** Importing module `m` and taking its attribute `c`: the class, or the
      message of the exception raised on the way. */
  type Resolver = (string, string) -> Result<nat, string>

  /** `path.rsplit(".", 1)` unpacked into two names; a path without a dot
      does not unpack. */
  function SplitLast(path: string): (r: Option<(string, string)>)
    ensures r.None? <==> forall i :: 0 <= i < |path| ==> path[i] != '.'
    ensures r.Some? ==> path == r.value.0 + "." + r.value.1
    ensures r.Some? ==> forall i :: 0 <= i < |r.value.1| ==> r.value.1[i] != '.'
  {
    match LastIndexOf(path, '.')
    case None => None
    case Some(k) =>
      assert path == path[..k] + "." + path[k + 1..];
      Some((path[..k], path[k + 1..]))
  }

  /** One iteration of `_load_agents`. */
  function LoadAgent(path: string, resolve: Resolver): (r: Result<AgentInfo, string>)
    ensures r.Ok? ==> (r.value.path == path && SplitLast(path).Some?
                       && r.value.name == SplitLast(path).value.1
                       && resolve(SplitLast(path).value.0, r.value.name) == Ok(r.value.cls))
    ensures r.Err? ==> StartsWith(r.error, "Cannot load agent " + path + ": ")
  {
    var prefix := "Cannot load agent " + path + ": ";
    match SplitLast(path)
    case None =>
      var msg := "not enough values to unpack (expected 2, got 1)";
      assert (prefix + msg)[..|prefix|] == prefix;
      Err(prefix + msg)
    case Some((modulePath, className)) =>
      match resolve(modulePath, className)
      case Err(e) =>
        assert (prefix + e)[..|prefix|] == prefix;
        Err(prefix + e)
      case Ok(c) => Ok(AgentInfo(path, c, className))
  }

  /** `_load_agents`: resolves every path in order and fails on the first one
      that does not resolve (the ImportError of the source). */
  method LoadAgents(paths: seq<string>, resolve: Resolver) returns (r: Result<seq<AgentInfo>, string>)
    ensures r.Ok? <==> forall k :: 0 <= k < |paths| ==> LoadAgent(paths[k], resolve).Ok?
    ensures r.Ok? ==> (|r.value| == |paths|
                       && forall k :: 0 <= k < |paths| ==> LoadAgent(paths[k], resolve) == Ok(r.value[k]))
    ensures r.Err? ==> (exists k :: 0 <= k < |paths| && LoadAgent(paths[k], resolve) == Err(r.error)
                          && forall j :: 0 <= j < k ==> LoadAgent(paths[j], resolve).Ok?)
  {
    var loaded: seq<AgentInfo> := [];
    for k := 0 to |paths|
      invariant |loaded| == k
      invariant forall j :: 0 <= j < k ==> LoadAgent(paths[j], resolve) == Ok(loaded[j])
    {
      var one := LoadAgent(paths[k], resolve);
      if one.Err? {
        return Err(one.error);
      }
      loaded := loaded + [one.value];
    }
    return Ok(loaded);
  }

  predicate NoDot(s: string) {
    forall i :: 0 <= i < |s| ==> s[i] != '.'
  }

  lemma SplitLastOf(m: string, c: string)
    requires NoDot(c)
    ensures SplitLast(m + "." + c) == Some((m, c))
  {
    var s := m + "." + c;
    assert s[|m|] == '.';
    assert forall t :: |m| < t < |s| ==> s[t] == c[t - |m| - 1];
    assert s[..|m|] == m;
    assert s[|m| + 1..] == c;
  }

  /** The workflow has 21 agents and starts with the user-input agent. */
  lemma AgentSequenceStart()
    ensures |AGENT_SEQUENCE| == 21
    ensures SplitLast(AGENT_SEQUENCE[0]) == Some(("agents.user_input", "UserInputAgent"))
  {
    assert AGENT_SEQUENCE[0] == "agents.user_input" + "." + "UserInputAgent";
    SplitLastOf("agents.user_input", "UserInputAgent");
  }

  // ---------------------------------------------------------------------------
  // One agent step

  /** What an agent's `run` does: it returns a value or raises. */
  datatype StepResult = Returned(value: Value) | Raised(message: string)

  /** What the agents do: `build` gives the message the class's constructor
      raises (None when the instance is built), and `run` what the instance's
      `run` does with the state it is given. */
  datatype Behaviour = Behaviour(build: AgentInfo -> Option<string>, run: (AgentInfo, Value) -> StepResult)

  /** A returned dictionary with an 'error' key counts as a failure. */
  predicate IsErrorDict(v: Value) {
    v.Obj? && HasKey(v.entries, "error")
  }

  function ErrorOf(v: Value): Value
    requires v.Obj?
  {
    GetOr(v.entries, "error", Null)
  }

  /** How one agent's turn ends: it passes with an output that becomes the
      new state, or it fails with a reason and the value `master_state`
      holds by then. */
  datatype Attempt = Passed(output: Value) | Failed(reason: string, finalState: Value)

  /** Running an agent on the copied state: an exception leaves the state as
      it was, and a returned dictionary with an 'error' key replaces the
      state and is then raised with the str() of that error. */
  function AgentStep(agent: AgentInfo, input: Value, behave: Behaviour, repr: Value -> string): Attempt {
    match behave.run(agent, input)
    case Raised(m) => Failed(m, input)
    case Returned(v) => if IsErrorDict(v) then Failed(PyStr(ErrorOf(v), repr), v) else Passed(v)
  }

  function FailureMessage(name: string, reason: string): string {
    "Agent '" + name + "' failed: " + reason
  }

  // ---------------------------------------------------------------------------
  // Snapshots (`_log_state`)

  /** A state file: directory, file name and the JSON-safe copy written. */
  datatype Snapshot = Snapshot(dir: string, filename: string, contents: seq<(string, Value)>)

  /** The topic part of the file name: `state.get('topic', 'unknown_topic')`
      with spaces turned into underscores; a state that is not a dictionary or
      a topic that is not a string raises, and the snapshot is skipped. */
  function SnapshotTopic(state: Value): Option<string> {
    if !state.Obj? then None
    else
      match Get(state.entries, "topic")
      case None => Some("unknown_topic")
      case Some(Str(t)) => Some(ReplaceChar(t, ' ', '_'))
      case Some(_) => None
  }

  function SnapshotFileName(topic: string, agentName: string, timestamp: string): string {
    topic + "_" + agentName + "_" + timestamp + ".json"
  }

  /** One entry of the serialisable copy. */
  function LoggableEntry(e: (string, Value), repr: Value -> string): (string, Value) {
    (e.0, if Serialisable(e.1) then e.1 else Str(PyStr(e.1, repr)))
  }

  /** The serialisable copy: same keys in the same order, every value that
      JSON cannot encode replaced by its string form. */
  function Loggable(entries: seq<(string, Value)>, repr: Value -> string): (r: seq<(string, Value)>)
    ensures |r| == |entries| && Keys(r) == Keys(entries)
    ensures forall i :: 0 <= i < |r| ==> r[i] == LoggableEntry(entries[i], repr)
    ensures Serialisable(Obj(r))
  {
    seq(|entries|, i requires 0 <= i < |entries| => LoggableEntry(entries[i], repr))
  }

  function SnapshotOf(dir: string, agentName: string, state: Value, timestamp: string, repr: Value -> string): Option<Snapshot> {
    match SnapshotTopic(state)
    case None => None
    case Some(topic) =>
      Some(Snapshot(dir, SnapshotFileName(topic, agentName, timestamp), Loggable(state.entries, repr)))
  }

  // ---------------------------------------------------------------------------
  // Progress reports

  /** The dictionary handed to `ui_callback`: progress, status text, the
      error flag and, at the end, the final state. */
  datatype Report = Report(progress: real, status: string, error: bool, finalState: Option<Value>)

  function StartReport(topic: string): Report {
    Report(0.0, "Starting process for '" + topic + "'...", false, None)
  }

  function RunningReport(i: nat, n: nat, name: string): Report
    requires n > 0
  {
    Report(i as real / n as real, "Running: " + name + "...", false, None)
  }

  function ErrorReport(i: nat, n: nat, name: string, reason: string): Report
    requires n > 0
  {
    Report((i + 1) as real / n as real, "ERROR in " + name + ": " + reason, true, None)
  }

  function DoneReport(state: Value): Report {
    Report(1.0, "Process complete!", false, Some(state))
  }

  /** The optional `ui_callback`; `raises` says on which reports it throws.
      Nothing in `run` catches such an exception. */
  datatype Observer = Silent | Observer(raises: Report -> bool)

  function Heard(obs: Observer, r: Report): seq<Report> {
    if obs.Observer? then [r] else []
  }

  predicate Throws(obs: Observer, r: Report) {
    obs.Observer? && obs.raises(r)
  }

  // ---------------------------------------------------------------------------
  // The run

  /** How `run` ends: it returns the last state, it returns the record
      `{"error": error, "final_state": finalState}`, or the observer's
      exception escapes it. */
  datatype RunOutcome =
    | Finished(state: Value)
    | Aborted(error: string, finalState: Value)
    | ObserverRaised(report: Report)

  /** The value `run` returns, if it returns. */
  function ReturnedValue(o: RunOutcome): Option<Value> {
    match o
    case Finished(s) => Some(s)
    case Aborted(e, s) => Some(Obj([("error", Str(e)), ("final_state", s)]))
    case ObserverRaised(_) => None
  }

  /** An agent invocation: which agent (its position) and the state it got. */
  datatype Call = Call(agent: nat, input: Value)

  /** Everything a run does that can be observed: how it ends, the agents it
      invoked, the reports it sent and the snapshots it wrote. */
  datatype Execution = Execution(outcome: RunOutcome, calls: seq<Call>, reports: seq<Report>, snapshots: seq<Snapshot>)

  function InitialState(topic: string): Value {
    Obj([("topic", Str(topic))])
  }

  function Snapshots(s: Option<Snapshot>): seq<Snapshot> {
    if s.Some? then [s.value] else []
  }

  /** A run's ingredients: the agents, what building agent `i` raises (if
      anything), what agent `i` does with a copied state, the snapshot
      written after agent `i` passes with an output, and the observer. */
  datatype Plan = Plan(agents: seq<AgentInfo>, build: nat -> Option<string>, step: (nat, Value) -> Attempt,
                       log: (nat, Value) -> seq<Snapshot>, obs: Observer)

  /** The plan of `Orchestrator.run`: agent `i` behaves as `behave` says, and
      `_log_state` writes into `dir` with the timestamp `clock(i)`. */
  function PlanFor(dir: string, agents: seq<AgentInfo>, behave: Behaviour, obs: Observer,
                   clock: nat -> string, repr: Value -> string): Plan
  {
    Plan(agents,
         (i: nat) => if i < |agents| then behave.build(agents[i]) else None,
         (i: nat, input: Value) => if i < |agents| then AgentStep(agents[i], input, behave, repr) else Passed(input),
         (i: nat, output: Value) =>
           if i < |agents| then Snapshots(SnapshotOf(dir, agents[i].name, output, clock(i), repr)) else [],
         obs)
  }

  function Running(p: Plan, i: nat): Report
    requires i < |p.agents|
  {
    RunningReport(i, |p.agents|, p.agents[i].name)
  }

  /** A run so far (calls, reports, snapshots) followed by the rest of it. */
  function Continue(calls: seq<Call>, reports: seq<Report>, snaps: seq<Snapshot>, rest: Execution): Execution {
    Execution(rest.outcome, calls + rest.calls, reports + rest.reports, snaps + rest.snapshots)
  }

  /** The end of a run whose agents all passed. */
  function Finish(p: Plan, state: Value): Execution {
    var done := DoneReport(state);
    Execution(if Throws(p.obs, done) then ObserverRaised(done) else Finished(state), [], Heard(p.obs, done), [])
  }

  /** The end of a run whose observer raised on the report announcing agent `i`. */
  function Halted(p: Plan, i: nat): Execution
    requires i < |p.agents|
  {
    Execution(ObserverRaised(Running(p, i)), [], [Running(p, i)], [])
  }

  /** The end of a run whose agent `i` failed with `reason`. */
  function Fail(p: Plan, i: nat, calls: seq<Call>, reason: string, finalState: Value): Execution
    requires i < |p.agents|
  {
    var name := p.agents[i].name;
    var err := ErrorReport(i, |p.agents|, name, reason);
    Execution(if Throws(p.obs, err) then ObserverRaised(err) else Aborted(FailureMessage(name, reason), finalState),
              calls, Heard(p.obs, Running(p, i)) + Heard(p.obs, err), [])
  }

  /** The rest of a run from agent `i` on, with `state` in `master_state`:
      announce the agent, build it, copy the state, run the agent on the
      copy, and go on with its output or stop at its failure. */
  function RunFrom(p: Plan, i: nat, state: Value): Execution
    requires i <= |p.agents|
    decreases |p.agents| - i
  {
    if i == |p.agents| then Finish(p, state)
    else if Throws(p.obs, Running(p, i)) then Halted(p, i)
    else if p.build(i).Some? then Fail(p, i, [], p.build(i).value, state)
    else if CopyOf(state).None? then Fail(p, i, [], NoAttribute(state, "copy"), state)
    else
      var a := p.step(i, state);
      if a.Failed? then Fail(p, i, [Call(i, state)], a.reason, a.finalState)
      else Continue([Call(i, state)], Heard(p.obs, Running(p, i)), p.log(i, a.output), RunFrom(p, i + 1, a.output))
  }

  /** `Orchestrator.run(topic, ui_callback)` as a whole. */
  function RunSpec(p: Plan, topic: string): Execution {
    var start := StartReport(topic);
    if Throws(p.obs, start) then Execution(ObserverRaised(start), [], [start], [])
    else Continue([], Heard(p.obs, start), [], RunFrom(p, 0, InitialState(topic)))
  }

  lemma ContinueTwice(c1: seq<Call>, r1: seq<Report>, s1: seq<Snapshot>,
                      c2: seq<Call>, r2: seq<Report>, s2: seq<Snapshot>, rest: Execution)
    ensures Continue(c1, r1, s1, Continue(c2, r2, s2, rest)) == Continue(c1 + c2, r1 + r2, s1 + s2, rest)
  {
    assert c1 + (c2 + rest.calls) == (c1 + c2) + rest.calls;
    assert r1 + (r2 + rest.reports) == (r1 + r2) + rest.reports;
    assert s1 + (s2 + rest.snapshots) == (s1 + s2) + rest.snapshots;
  }

  /** The step of a run at agent `i`, in each of its cases. */
  lemma RunFromHalted(p: Plan, i: nat, state: Value)
    requires i < |p.agents| && Throws(p.obs, Running(p, i))
    ensures RunFrom(p, i, state) == Halted(p, i)
  {
  }

  lemma RunFromUnbuilt(p: Plan, i: nat, state: Value)
    requires i < |p.agents| && !Throws(p.obs, Running(p, i)) && p.build(i).Some?
    ensures RunFrom(p, i, state) == Fail(p, i, [], p.build(i).value, state)
  {
  }

  lemma RunFromNoCopy(p: Plan, i: nat, state: Value)
    requires i < |p.agents| && !Throws(p.obs, Running(p, i)) && p.build(i).None? && CopyOf(state).None?
    ensures RunFrom(p, i, state) == Fail(p, i, [], NoAttribute(state, "copy"), state)
  {
  }

  lemma RunFromFailed(p: Plan, i: nat, state: Value)
    requires i < |p.agents| && !Throws(p.obs, Running(p, i)) && p.build(i).None? && CopyOf(state).Some? && p.step(i, state).Failed?
    ensures RunFrom(p, i, state) == Fail(p, i, [Call(i, state)], p.step(i, state).reason, p.step(i, state).finalState)
  {
  }

  lemma RunFromPassed(p: Plan, i: nat, state: Value)
    requires i < |p.agents| && !Throws(p.obs, Running(p, i)) && p.build(i).None? && CopyOf(state).Some? && p.step(i, state).Passed?
    ensures var v := p.step(i, state).output;
      RunFrom(p, i, state) == Continue([Call(i, state)], Heard(p.obs, Running(p, i)), p.log(i, v), RunFrom(p, i + 1, v))
  {
  }

  class Orchestrator {
    const cacheDir: string
    const agents: seq<AgentInfo>

    constructor(cacheDir: string, agents: seq<AgentInfo>)
      ensures this.cacheDir == cacheDir && this.agents == agents
    {
      this.cacheDir := cacheDir;
      this.agents := agents;
    }

    /** `_log_state`: the snapshot written after an agent passes, or None
        when building it raised (the source logs a warning and goes on). */
    method LogState(agentName: string, state: Value, timestamp: string, repr: Value -> string)
      returns (snap: Option<Snapshot>)
      ensures snap == SnapshotOf(cacheDir, agentName, state, timestamp, repr)
    {
      var topic := SnapshotTopic(state);
      if topic.None? {
        return None;
      }
      var entries := state.entries;
      var loggable: seq<(string, Value)> := [];
      for k := 0 to |entries|
        invariant |loggable| == k
        invariant forall j :: 0 <= j < k ==> loggable[j] == LoggableEntry(entries[j], repr)
      {
        var (key, value) := entries[k];
        if Serialisable(value) {
          loggable := loggable + [(key, value)];
        } else {
          loggable := loggable + [(key, Str(PyStr(value, repr)))];
        }
      }
      assert loggable == Loggable(entries, repr);
      return Some(Snapshot(cacheDir, SnapshotFileName(topic.value, agentName, timestamp), loggable));
    }

    /** `run`: the agents in order, each on a copy of the current state, the
        state replaced by each output, stopping at the first failure. */
    method Run(topic: string, behave: Behaviour, obs: Observer, clock: nat -> string, repr: Value -> string)
      returns (e: Execution)
      ensures e == RunSpec(PlanFor(cacheDir, agents, behave, obs, clock, repr), topic)
    {
      ghost var plan := PlanFor(cacheDir, agents, behave, obs, clock, repr);
      var n := |agents|;
      var masterState := InitialState(topic);
      var calls: seq<Call> := [];
      var snaps: seq<Snapshot> := [];
      var start := StartReport(topic);
      var reports := Heard(obs, start);
      if Throws(obs, start) {
        return Execution(ObserverRaised(start), [], reports, []);
      }
      var i := 0;
      while i < n
        invariant 0 <= i <= n
        invariant Continue(calls, reports, snaps, RunFrom(plan, i, masterState)) == RunSpec(plan, topic)
      {
        var stop;
        stop, masterState, calls, reports, snaps := RunAgent(i, masterState, behave, obs, clock, repr, plan, calls, reports, snaps);
        if stop.Some? {
          return stop.value;
        }
        i := i + 1;
      }
      var done := DoneReport(masterState);
      reports := reports + Heard(obs, done);
      if Throws(obs, done) {
        return Execution(ObserverRaised(done), calls, reports, snaps);
      }
      return Execution(Finished(masterState), calls, reports, snaps);
    }

    /** One pass of the loop in `run`, after the calls, reports and
        snapshots so far: announce agent `i`, try it on the state, and
        either stop with the whole run or go on with its output. */
    method RunAgent(i: nat, state: Value, behave: Behaviour, obs: Observer, clock: nat -> string,
                    repr: Value -> string, ghost plan: Plan, calls0: seq<Call>, reports0: seq<Report>, snaps0: seq<Snapshot>)
      returns (stop: Option<Execution>, next: Value, calls: seq<Call>, reports: seq<Report>, snaps: seq<Snapshot>)
      requires i < |agents| && plan == PlanFor(cacheDir, agents, behave, obs, clock, repr)
      ensures stop.Some? ==> stop.value == Continue(calls0, reports0, snaps0, RunFrom(plan, i, state))
      ensures stop.None? ==>
        Continue(calls, reports, snaps, RunFrom(plan, i + 1, next)) == Continue(calls0, reports0, snaps0, RunFrom(plan, i, state))
    {
      next, calls, reports, snaps := state, calls0, reports0, snaps0;
      var n := |agents|;
      var name := agents[i].name;
      var running := RunningReport(i, n, name);
      reports := reports + Heard(obs, running);
      if Throws(obs, running) {
        RunFromHalted(plan, i, state);
        assert calls == calls0 + [] && snaps == snaps0 + [];
        return Some(Execution(ObserverRaised(running), calls, reports, snaps)), next, calls, reports, snaps;
      }
      var attempt, called := TryAgent(agents[i], state, behave, repr);
      if called {
        calls := calls + [Call(i, state)];
      }
      if attempt.Failed? {
        if called {
          assert attempt == plan.step(i, state);
          RunFromFailed(plan, i, state);
        } else if plan.build(i).Some? {
          RunFromUnbuilt(plan, i, state);
        } else {
          RunFromNoCopy(plan, i, state);
        }
        var err := ErrorReport(i, n, name, attempt.reason);
        reports := reports + Heard(obs, err);
        assert reports == reports0 + (Heard(obs, running) + Heard(obs, err));
        assert snaps == snaps0 + [];
        if Throws(obs, err) {
          return Some(Execution(ObserverRaised(err), calls, reports, snaps)), next, calls, reports, snaps;
        }
        return Some(Execution(Aborted(FailureMessage(name, attempt.reason), attempt.finalState), calls, reports, snaps)),
               next, calls, reports, snaps;
      }
      assert attempt == plan.step(i, state);
      RunFromPassed(plan, i, state);
      next := attempt.output;
      var snap := LogState(name, next, clock(i), repr);
      snaps := snaps + Snapshots(snap);
      assert Snapshots(snap) == plan.log(i, next);
      ContinueTwice(calls0, reports0, snaps0, [Call(i, state)], Heard(obs, running), Snapshots(snap), RunFrom(plan, i + 1, next));
      return None, next, calls, reports, snaps;
    }
  }

  /** The `try` block for one agent: build the instance (whose constructor
      may raise), copy the state (which fails for a value without `copy`),
      run the agent on the copy, and raise the error a returned error
      dictionary carries. `called` says whether the agent's `run` was
      invoked. */
  method TryAgent(agent: AgentInfo, state: Value, behave: Behaviour, repr: Value -> string)
    returns (attempt: Attempt, called: bool)
    ensures called <==> behave.build(agent).None? && CopyOf(state).Some?
    ensures behave.build(agent).Some? ==> attempt == Failed(behave.build(agent).value, state)
    ensures behave.build(agent).None? && CopyOf(state).None? ==> attempt == Failed(NoAttribute(state, "copy"), state)
    ensures called ==> attempt == AgentStep(agent, state, behave, repr)
  {
    var built := behave.build(agent);
    if built.Some? {
      return Failed(built.value, state), false;
    }
    var input := CopyOf(state);
    if input.None? {
      return Failed(NoAttribute(state, "copy"), state), false;
    }
    var masterState := state;
    var result := behave.run(agent, input.value);
    if result.Raised? {
      return Failed(result.message, masterState), true;
    }
    masterState := result.value;
    if IsErrorDict(masterState) {
      return Failed(PyStr(ErrorOf(masterState), repr), masterState), true;
    }
    return Passed(masterState), true;
  }

  /** Building an orchestrator: the cache directory defaults to "cache"
      (a given path is always truthy); the agent list is resolved and a
      failure is raised to the caller. */
  method NewOrchestrator(cacheDir: Option<string>, resolve: Resolver) returns (r: Result<Orchestrator, string>)
    ensures r.Ok? ==> (fresh(r.value) && r.value.cacheDir == (if cacheDir.Some? then cacheDir.value else "cache")
                       && |r.value.agents| == |AGENT_SEQUENCE|
                       && forall k :: 0 <= k < |AGENT_SEQUENCE| ==> LoadAgent(AGENT_SEQUENCE[k], resolve) == Ok(r.value.agents[k]))
    ensures r.Err? <==> exists k :: 0 <= k < |AGENT_SEQUENCE| && LoadAgent(AGENT_SEQUENCE[k], resolve).Err?
  {
    var loaded := LoadAgents(AGENT_SEQUENCE, resolve);
    if loaded.Err? {
      return Err(loaded.error);
    }
    var dir := if cacheDir.Some? then cacheDir.value else "cache";
    var o := new Orchestrator(dir, loaded.value);
    return Ok(o);
  }
}
