/** What a run of the pipeline guarantees, first for any plan (any agent
    behaviour, any observer) and then for the plan `Orchestrator.run` uses. */
module PipelineProperties {
  import opened Values
  import opened Text
  import opened Pipeline

  // ---------------------------------------------------------------------------
  // Invocations

  /** Invocations from agent `i` on: in order, one per agent, each of an
      agent that was built and on a state that could be copied, the first on
      the state the run was at, and each later one on the output its
      predecessor passed with. */
  predicate CallsShape(p: Plan, i: nat, state: Value, c: seq<Call>) {
    && i + |c| <= |p.agents|
    && (forall k :: 0 <= k < |c| ==> c[k].agent == i + k && p.build(i + k).None? && CopyOf(c[k].input).Some?)
    && (c != [] ==> c[0].input == state)
    && (forall k :: 0 < k < |c| ==> p.step(i + k - 1, c[k - 1].input) == Passed(c[k].input))
  }

  lemma CallsShapeStep(p: Plan, i: nat, state: Value)
    requires i < |p.agents| && !Throws(p.obs, Running(p, i)) && p.build(i).None? && CopyOf(state).Some? && p.step(i, state).Passed?
    requires CallsShape(p, i + 1, p.step(i, state).output, RunFrom(p, i + 1, p.step(i, state).output).calls)
    ensures CallsShape(p, i, state, RunFrom(p, i, state).calls)
  {
    var v := p.step(i, state).output;
    RunFromPassed(p, i, state);
    var rest := RunFrom(p, i + 1, v).calls;
    var c := RunFrom(p, i, state).calls;
    assert c == [Call(i, state)] + rest;
    forall k | 0 < k < |c|
      ensures p.step(i + k - 1, c[k - 1].input) == Passed(c[k].input)
    {
      if k > 1 {
        assert c[k] == rest[k - 1] && c[k - 1] == rest[k - 2];
      }
    }
  }

  lemma {:induction false} RunFromCalls(p: Plan, i: nat, state: Value)
    requires i <= |p.agents|
    ensures CallsShape(p, i, state, RunFrom(p, i, state).calls)
    decreases |p.agents| - i
  {
    if i == |p.agents| {
    } else if Throws(p.obs, Running(p, i)) {
      RunFromHalted(p, i, state);
    } else if p.build(i).Some? {
      RunFromUnbuilt(p, i, state);
    } else if CopyOf(state).None? {
      RunFromNoCopy(p, i, state);
    } else if p.step(i, state).Failed? {
      RunFromFailed(p, i, state);
    } else {
      RunFromCalls(p, i + 1, p.step(i, state).output);
      CallsShapeStep(p, i, state);
    }
  }

  // ---------------------------------------------------------------------------
  // Failure

  /** How a run from agent `i` that started on `state` can end with an
      error record: either the last invoked agent failed, or the next agent
      fails before it is invoked, because its constructor raised or, once
      built, because the state the last agent passed with (or `state`, if
      none was invoked) has no `copy`. No later agent runs. With an
      observer, the last report is the error report of the failing agent. */
  predicate AbortShape(p: Plan, i: nat, state: Value, e: Execution)
    requires i <= |p.agents|
  {
    var k := |e.calls|;
    e.outcome.Aborted? ==>
      && i + k <= |p.agents|
      && if k > 0 && p.step(i + k - 1, e.calls[k - 1].input).Failed? then
           var a := p.step(i + k - 1, e.calls[k - 1].input);
           && e.outcome == Aborted(FailureMessage(p.agents[i + k - 1].name, a.reason), a.finalState)
           && LastReported(p, e, i + k - 1, a.reason)
         else
           var s := if k == 0 then state else p.step(i + k - 1, e.calls[k - 1].input).output;
           var reason := if p.build(i + k).Some? then p.build(i + k).value else NoAttribute(s, "copy");
           && i + k < |p.agents|
           && (p.build(i + k).None? ==> CopyOf(s).None?)
           && e.outcome == Aborted(FailureMessage(p.agents[i + k].name, reason), s)
           && LastReported(p, e, i + k, reason)
  }

  /** With an observer, the last report is the error report of agent `j`
      failing with `reason`. */
  predicate LastReported(p: Plan, e: Execution, j: nat, reason: string)
    requires j < |p.agents|
  {
    p.obs.Observer? ==>
      e.reports != [] && e.reports[|e.reports| - 1] == ErrorReport(j, |p.agents|, p.agents[j].name, reason)
  }

  lemma AbortShapeStep(p: Plan, i: nat, state: Value)
    requires i < |p.agents| && !Throws(p.obs, Running(p, i)) && p.build(i).None? && CopyOf(state).Some? && p.step(i, state).Passed?
    requires AbortShape(p, i + 1, p.step(i, state).output, RunFrom(p, i + 1, p.step(i, state).output))
    ensures AbortShape(p, i, state, RunFrom(p, i, state))
  {
    var v := p.step(i, state).output;
    RunFromPassed(p, i, state);
    AbortShapeContinue(p, i, state, Heard(p.obs, Running(p, i)), p.log(i, v), RunFrom(p, i + 1, v));
  }

  /** Agent `i` passing in front of a run from `i + 1` keeps the shape of
      an abort: the failing agent and its report are those of the rest. */
  lemma AbortShapeContinue(p: Plan, i: nat, state: Value, heard: seq<Report>, snaps: seq<Snapshot>, r: Execution)
    requires i < |p.agents| && p.step(i, state).Passed?
    requires AbortShape(p, i + 1, p.step(i, state).output, r)
    ensures AbortShape(p, i, state, Continue([Call(i, state)], heard, snaps, r))
  {
    var e := Continue([Call(i, state)], heard, snaps, r);
    assert e.calls == [Call(i, state)] + r.calls;
    assert e.reports == heard + r.reports;
    if r.outcome.Aborted? {
      var k := |e.calls|;
      assert k == 1 + |r.calls|;
      if r.calls != [] {
        assert e.calls[k - 1] == r.calls[|r.calls| - 1];
      } else {
        assert e.calls[k - 1] == Call(i, state);
      }
      if r.reports != [] {
        assert e.reports[|e.reports| - 1] == r.reports[|r.reports| - 1];
      }
    }
  }

  lemma {:induction false} RunFromAborted(p: Plan, i: nat, state: Value)
    requires i <= |p.agents|
    ensures AbortShape(p, i, state, RunFrom(p, i, state))
    decreases |p.agents| - i
  {
    if i == |p.agents| {
    } else if Throws(p.obs, Running(p, i)) {
      RunFromHalted(p, i, state);
    } else if p.build(i).Some? {
      RunFromUnbuilt(p, i, state);
    } else if CopyOf(state).None? {
      RunFromNoCopy(p, i, state);
    } else if p.step(i, state).Failed? {
      RunFromFailed(p, i, state);
    } else {
      RunFromAborted(p, i + 1, p.step(i, state).output);
      AbortShapeStep(p, i, state);
    }
  }

  // ---------------------------------------------------------------------------
  // Completion

  /** A run that finishes invoked every agent from `i` on and ends with the
      output of the last one; with an observer, its last report is the
      completion report carrying that state. */
  predicate FinishShape(p: Plan, i: nat, state: Value, e: Execution)
    requires i <= |p.agents|
  {
    var n := |p.agents|;
    e.outcome.Finished? ==>
      && |e.calls| == n - i
      && (i == n ==> e.outcome.state == state)
      && (i < n ==> p.step(n - 1, e.calls[|e.calls| - 1].input) == Passed(e.outcome.state))
      && (p.obs.Observer? ==> e.reports != [] && e.reports[|e.reports| - 1] == DoneReport(e.outcome.state))
  }

  lemma FinishShapeStep(p: Plan, i: nat, state: Value)
    requires i < |p.agents| && !Throws(p.obs, Running(p, i)) && p.build(i).None? && CopyOf(state).Some? && p.step(i, state).Passed?
    requires FinishShape(p, i + 1, p.step(i, state).output, RunFrom(p, i + 1, p.step(i, state).output))
    ensures FinishShape(p, i, state, RunFrom(p, i, state))
  {
    var v := p.step(i, state).output;
    RunFromPassed(p, i, state);
    var e := RunFrom(p, i, state);
    var r := RunFrom(p, i + 1, v);
    assert e.calls == [Call(i, state)] + r.calls;
    if r.outcome.Finished? && r.calls != [] {
      assert e.calls[|e.calls| - 1] == r.calls[|r.calls| - 1];
    }
    if r.outcome.Finished? && p.obs.Observer? {
      assert e.reports[|e.reports| - 1] == r.reports[|r.reports| - 1];
    }
  }

  lemma {:induction false} RunFromFinished(p: Plan, i: nat, state: Value)
    requires i <= |p.agents|
    ensures FinishShape(p, i, state, RunFrom(p, i, state))
    decreases |p.agents| - i
  {
    if i == |p.agents| {
    } else if Throws(p.obs, Running(p, i)) {
      RunFromHalted(p, i, state);
    } else if p.build(i).Some? {
      RunFromUnbuilt(p, i, state);
    } else if CopyOf(state).None? {
      RunFromNoCopy(p, i, state);
    } else if p.step(i, state).Failed? {
      RunFromFailed(p, i, state);
    } else {
      RunFromFinished(p, i + 1, p.step(i, state).output);
      FinishShapeStep(p, i, state);
    }
  }

  // ---------------------------------------------------------------------------
  // The observer

  /** The observer hears every report and nothing else raises: a failing
      agent produces an error record, and an exception only leaves the run
      when the observer raised it on the last report it was given. Only
      that last report can carry the error flag. */
  predicate ObserverShape(p: Plan, e: Execution) {
    && (p.obs.Silent? ==> e.reports == [] && !e.outcome.ObserverRaised?)
    && (e.outcome.ObserverRaised? ==>
          e.reports != [] && e.reports[|e.reports| - 1] == e.outcome.report
          && p.obs.Observer? && p.obs.raises(e.outcome.report))
    && (p.obs.Observer? && e.outcome.Aborted? ==> e.reports != [] && e.reports[|e.reports| - 1].error)
    && (forall j :: 0 <= j < |e.reports| - 1 ==> !e.reports[j].error)
  }

  lemma ObserverShapeStep(p: Plan, i: nat, state: Value)
    requires i < |p.agents| && !Throws(p.obs, Running(p, i)) && p.build(i).None? && CopyOf(state).Some? && p.step(i, state).Passed?
    requires ObserverShape(p, RunFrom(p, i + 1, p.step(i, state).output))
    ensures ObserverShape(p, RunFrom(p, i, state))
  {
    var v := p.step(i, state).output;
    RunFromPassed(p, i, state);
    var e := RunFrom(p, i, state);
    var r := RunFrom(p, i + 1, v);
    assert e.reports == Heard(p.obs, Running(p, i)) + r.reports;
    if r.reports != [] {
      assert e.reports[|e.reports| - 1] == r.reports[|r.reports| - 1];
    }
  }

  lemma {:induction false} RunFromObserver(p: Plan, i: nat, state: Value)
    requires i <= |p.agents|
    ensures ObserverShape(p, RunFrom(p, i, state))
    decreases |p.agents| - i
  {
    if i == |p.agents| {
    } else if Throws(p.obs, Running(p, i)) {
      RunFromHalted(p, i, state);
    } else if p.build(i).Some? {
      RunFromUnbuilt(p, i, state);
    } else if CopyOf(state).None? {
      RunFromNoCopy(p, i, state);
    } else if p.step(i, state).Failed? {
      RunFromFailed(p, i, state);
    } else {
      RunFromObserver(p, i + 1, p.step(i, state).output);
      ObserverShapeStep(p, i, state);
    }
  }

  // ---------------------------------------------------------------------------
  // Progress

  /** Reports whose progress never goes down and stays between `lo` and 1. */
  predicate Progressing(rs: seq<Report>, lo: real) {
    && (forall j :: 0 < j < |rs| ==> rs[j - 1].progress <= rs[j].progress)
    && (forall j :: 0 <= j < |rs| ==> lo <= rs[j].progress <= 1.0)
  }

  lemma ConsProgressing(h: Report, rest: seq<Report>, lo: real, mid: real)
    requires lo <= h.progress <= mid && h.progress <= 1.0 && Progressing(rest, mid)
    ensures Progressing([h] + rest, lo)
  {
    var rs := [h] + rest;
    forall j | 0 < j < |rs| ensures rs[j - 1].progress <= rs[j].progress {
      assert rs[j] == rest[j - 1];
      if j > 1 {
        assert rs[j - 1] == rest[j - 2];
      }
    }
  }

  lemma Fractions(i: nat, n: nat)
    requires i < n
    ensures 0.0 <= i as real / n as real <= (i + 1) as real / n as real <= 1.0
  {
    assert (i + 1) as real / n as real == i as real / n as real + 1.0 / n as real;
  }

  /** The fraction of the agent list done before agent `i`. */
  function Done(p: Plan, i: nat): real {
    if |p.agents| == 0 then 0.0 else i as real / |p.agents| as real
  }

  lemma ProgressStep(p: Plan, i: nat, state: Value)
    requires i < |p.agents| && !Throws(p.obs, Running(p, i)) && p.build(i).None? && CopyOf(state).Some? && p.step(i, state).Passed?
    requires Progressing(RunFrom(p, i + 1, p.step(i, state).output).reports, Done(p, i + 1))
    ensures Progressing(RunFrom(p, i, state).reports, Done(p, i))
  {
    var v := p.step(i, state).output;
    RunFromPassed(p, i, state);
    var rest := RunFrom(p, i + 1, v).reports;
    Fractions(i, |p.agents|);
    if p.obs.Observer? {
      assert RunFrom(p, i, state).reports == [Running(p, i)] + rest;
      ConsProgressing(Running(p, i), rest, Done(p, i), Done(p, i + 1));
    } else {
      assert RunFrom(p, i, state).reports == rest;
    }
  }

  /** Progress reported from agent `i` on never goes down and stays between
      the fraction done before agent `i` and 1. */
  lemma {:induction false} RunFromProgress(p: Plan, i: nat, state: Value)
    requires i <= |p.agents|
    ensures Progressing(RunFrom(p, i, state).reports, Done(p, i))
    decreases |p.agents| - i
  {
    var n := |p.agents|;
    if i == n {
      if n > 0 {
        assert Done(p, i) == 1.0;
      }
    } else if Throws(p.obs, Running(p, i)) {
      RunFromHalted(p, i, state);
      Fractions(i, n);
    } else if p.build(i).Some? {
      RunFromUnbuilt(p, i, state);
      Fractions(i, n);
    } else if CopyOf(state).None? {
      RunFromNoCopy(p, i, state);
      Fractions(i, n);
    } else if p.step(i, state).Failed? {
      RunFromFailed(p, i, state);
      Fractions(i, n);
    } else {
      RunFromProgress(p, i + 1, p.step(i, state).output);
      ProgressStep(p, i, state);
    }
  }

  /** With an observer, every invoked agent was announced first, in order:
      the k-th report announces the k-th agent invoked. */
  predicate Announced(p: Plan, i: nat, e: Execution) {
    p.obs.Observer? ==>
      && |e.calls| <= |e.reports|
      && i + |e.calls| <= |p.agents|
      && forall k :: 0 <= k < |e.calls| ==> e.reports[k] == Running(p, i + k)
  }

  lemma AnnouncedStep(p: Plan, i: nat, state: Value)
    requires i < |p.agents| && !Throws(p.obs, Running(p, i)) && p.build(i).None? && CopyOf(state).Some? && p.step(i, state).Passed?
    requires Announced(p, i + 1, RunFrom(p, i + 1, p.step(i, state).output))
    ensures Announced(p, i, RunFrom(p, i, state))
  {
    RunFromPassed(p, i, state);
    if p.obs.Observer? {
      AnnouncedContinue(p, i, Call(i, state), p.log(i, p.step(i, state).output), RunFrom(p, i + 1, p.step(i, state).output));
    }
  }

  /** Announcing agent `i` and invoking it in front of a run from `i + 1`
      whose invoked agents were announced. */
  lemma AnnouncedContinue(p: Plan, i: nat, call: Call, snaps: seq<Snapshot>, rest: Execution)
    requires i < |p.agents| && p.obs.Observer? && Announced(p, i + 1, rest)
    ensures Announced(p, i, Continue([call], Heard(p.obs, Running(p, i)), snaps, rest))
  {
    assert Heard(p.obs, Running(p, i)) == [Running(p, i)];
    var e := Continue([call], Heard(p.obs, Running(p, i)), snaps, rest);
    assert e.calls == [call] + rest.calls && e.reports == [Running(p, i)] + rest.reports;
    forall k | 0 <= k < |e.calls| ensures e.reports[k] == Running(p, i + k) {
      if k > 0 {
        assert e.reports[k] == rest.reports[k - 1];
      }
    }
  }

  lemma {:induction false} RunFromAnnounced(p: Plan, i: nat, state: Value)
    requires i <= |p.agents|
    ensures Announced(p, i, RunFrom(p, i, state))
    decreases |p.agents| - i
  {
    if i == |p.agents| {
    } else if Throws(p.obs, Running(p, i)) {
      RunFromHalted(p, i, state);
    } else if p.build(i).Some? {
      RunFromUnbuilt(p, i, state);
    } else if CopyOf(state).None? {
      RunFromNoCopy(p, i, state);
    } else if p.step(i, state).Failed? {
      RunFromFailed(p, i, state);
    } else {
      RunFromAnnounced(p, i + 1, p.step(i, state).output);
      AnnouncedStep(p, i, state);
    }
  }

  // ---------------------------------------------------------------------------
  // Snapshots

  /** The snapshots written for a list of invocations: after each invoked
      agent that passed, what `log` gives for its output, in order. */
  function PassedSnapshots(p: Plan, calls: seq<Call>): seq<Snapshot> {
    if calls == [] then []
    else
      var c := calls[0];
      var a := p.step(c.agent, c.input);
      (if a.Passed? then p.log(c.agent, a.output) else []) + PassedSnapshots(p, calls[1..])
  }

  lemma {:induction false} RunFromSnapshots(p: Plan, i: nat, state: Value)
    requires i <= |p.agents|
    ensures var e := RunFrom(p, i, state); e.snapshots == PassedSnapshots(p, e.calls)
    decreases |p.agents| - i
  {
    if i == |p.agents| {
    } else if Throws(p.obs, Running(p, i)) {
      RunFromHalted(p, i, state);
    } else if p.build(i).Some? {
      RunFromUnbuilt(p, i, state);
    } else if CopyOf(state).None? {
      RunFromNoCopy(p, i, state);
    } else if p.step(i, state).Failed? {
      RunFromFailed(p, i, state);
      assert [Call(i, state)][1..] == [];
    } else {
      var v := p.step(i, state).output;
      RunFromSnapshots(p, i + 1, v);
      RunFromPassed(p, i, state);
      var e := RunFrom(p, i, state);
      var r := RunFrom(p, i + 1, v);
      assert e.calls == [Call(i, state)] + r.calls;
      assert e.calls[1..] == r.calls;
    }
  }

  // ---------------------------------------------------------------------------
  // A whole run: the start report, then the agents from the first on

  /** A run whose observer did not raise on the start report is that report
      followed by the run from the first agent on the initial state. */
  lemma RunSpecStarted(p: Plan, topic: string)
    requires !Throws(p.obs, StartReport(topic))
    ensures var e := RunSpec(p, topic); var r := RunFrom(p, 0, InitialState(topic));
      && e.outcome == r.outcome && e.calls == r.calls && e.snapshots == r.snapshots
      && e.reports == Heard(p.obs, StartReport(topic)) + r.reports
  {
  }

  lemma RunSpecCalls(p: Plan, topic: string)
    ensures CallsShape(p, 0, InitialState(topic), RunSpec(p, topic).calls)
  {
    if !Throws(p.obs, StartReport(topic)) {
      RunSpecStarted(p, topic);
      RunFromCalls(p, 0, InitialState(topic));
    }
  }

  lemma RunSpecAborted(p: Plan, topic: string)
    ensures AbortShape(p, 0, InitialState(topic), RunSpec(p, topic))
  {
    if !Throws(p.obs, StartReport(topic)) {
      RunSpecStarted(p, topic);
      RunFromAborted(p, 0, InitialState(topic));
    }
  }

  lemma RunSpecFinished(p: Plan, topic: string)
    ensures FinishShape(p, 0, InitialState(topic), RunSpec(p, topic))
  {
    if !Throws(p.obs, StartReport(topic)) {
      RunSpecStarted(p, topic);
      RunFromFinished(p, 0, InitialState(topic));
      var e := RunSpec(p, topic);
      var r := RunFrom(p, 0, InitialState(topic));
      if r.reports != [] {
        assert e.reports[|e.reports| - 1] == r.reports[|r.reports| - 1];
      }
    }
  }

  /** The observer shape of a whole run, with the start report first. */
  lemma RunSpecObserver(p: Plan, topic: string)
    ensures ObserverShape(p, RunSpec(p, topic))
    ensures p.obs.Observer? ==> RunSpec(p, topic).reports != [] && RunSpec(p, topic).reports[0] == StartReport(topic)
  {
    var e := RunSpec(p, topic);
    if !Throws(p.obs, StartReport(topic)) {
      RunSpecStarted(p, topic);
      RunFromObserver(p, 0, InitialState(topic));
      var r := RunFrom(p, 0, InitialState(topic));
      var head := Heard(p.obs, StartReport(topic));
      if r.reports != [] {
        assert e.reports[|e.reports| - 1] == r.reports[|r.reports| - 1];
      }
      forall j | 0 <= j < |e.reports| - 1 ensures !e.reports[j].error {
        if j >= |head| {
          assert e.reports[j] == r.reports[j - |head|];
        }
      }
    }
  }

  lemma RunSpecProgress(p: Plan, topic: string)
    ensures Progressing(RunSpec(p, topic).reports, 0.0)
  {
    var start := StartReport(topic);
    if Throws(p.obs, start) {
      assert RunSpec(p, topic).reports == [start];
    } else {
      var init := InitialState(topic);
      var r := RunFrom(p, 0, init);
      assert Progressing(r.reports, 0.0) by {
        RunFromProgress(p, 0, init);
        DoneZero(p);
      }
      RunSpecStarted(p, topic);
      if p.obs.Observer? {
        ConsProgressing(start, r.reports, 0.0, 0.0);
        assert RunSpec(p, topic).reports == [start] + r.reports;
      } else {
        assert RunSpec(p, topic).reports == r.reports;
      }
    }
  }

  lemma DoneZero(p: Plan)
    ensures Done(p, 0) == 0.0
  {
  }

  /** The reports announcing agents `0` to `m - 1`, in order. */
  function Announcements(p: Plan, m: nat): (r: seq<Report>)
    requires m <= |p.agents|
    ensures |r| == m
  {
    seq(m, j requires 0 <= j < m => Running(p, j))
  }

  /** With an observer, the start report is followed by the announcement
      of every agent invoked, in order. */
  predicate AnnouncedAfterStart(p: Plan, e: Execution) {
    p.obs.Observer? ==>
      |e.calls| < |e.reports| && |e.calls| <= |p.agents| && e.reports[1..|e.calls| + 1] == Announcements(p, |e.calls|)
  }

  lemma AnnouncedShift(p: Plan, h: Report, r: Execution, e: Execution)
    requires Announced(p, 0, r) && e.calls == r.calls && e.reports == [h] + r.reports
    ensures AnnouncedAfterStart(p, e)
  {
    if p.obs.Observer? {
      var m := |e.calls|;
      assert m <= |p.agents| by {
        if m > 0 {
          var last := r.reports[m - 1];
          assert 0 + (m - 1) < |p.agents|;
        }
      }
      forall j | 0 <= j < m ensures e.reports[1..m + 1][j] == Announcements(p, m)[j] {
        assert e.reports[j + 1] == r.reports[j];
        assert 0 + j < |p.agents| && r.reports[j] == Running(p, 0 + j);
      }
    }
  }

  lemma RunSpecAnnounced(p: Plan, topic: string)
    ensures AnnouncedAfterStart(p, RunSpec(p, topic))
  {
    if !Throws(p.obs, StartReport(topic)) && p.obs.Observer? {
      var init := InitialState(topic);
      RunSpecStarted(p, topic);
      RunFromAnnounced(p, 0, init);
      AnnouncedShift(p, StartReport(topic), RunFrom(p, 0, init), RunSpec(p, topic));
    }
  }

  lemma RunSpecSnapshots(p: Plan, topic: string)
    ensures RunSpec(p, topic).snapshots == PassedSnapshots(p, RunSpec(p, topic).calls)
  {
    if !Throws(p.obs, StartReport(topic)) {
      RunSpecStarted(p, topic);
      RunFromSnapshots(p, 0, InitialState(topic));
    }
  }
}

/** The same guarantees for `Orchestrator.run` itself: the run starts from
    `{"topic": topic}`, agent `i` does what `behave` says, and each
    statement is about the agents' own behaviour. */
module RunProperties {
  import opened Values
  import opened Text
  import opened Pipeline
  import opened PipelineProperties

  /** An agent passes exactly when it returns a value without an 'error'
      key, and that value is its output; when it raises, the state stays
      its input. */
  lemma AgentStepCases(agent: AgentInfo, input: Value, behave: Behaviour, repr: Value -> string)
    ensures AgentStep(agent, input, behave, repr).Passed? <==>
      behave.run(agent, input).Returned? && !IsErrorDict(behave.run(agent, input).value)
    ensures AgentStep(agent, input, behave, repr).Passed? ==>
      AgentStep(agent, input, behave, repr).output == behave.run(agent, input).value
    ensures behave.run(agent, input).Raised? ==>
      AgentStep(agent, input, behave, repr) == Failed(behave.run(agent, input).message, input)
    ensures behave.run(agent, input).Returned? && IsErrorDict(behave.run(agent, input).value) ==>
      var v := behave.run(agent, input).value;
      AgentStep(agent, input, behave, repr) == Failed(PyStr(ErrorOf(v), repr), v)
  {
  }

  /** What the plan of `run` does at agent `i`. */
  lemma PlanForAt(dir: string, agents: seq<AgentInfo>, behave: Behaviour, obs: Observer,
                  clock: nat -> string, repr: Value -> string, i: nat, v: Value)
    requires i < |agents|
    ensures var p := PlanFor(dir, agents, behave, obs, clock, repr);
      && p.agents == agents && p.obs == obs
      && p.build(i) == behave.build(agents[i])
      && p.step(i, v) == AgentStep(agents[i], v, behave, repr)
      && p.log(i, v) == Snapshots(SnapshotOf(dir, agents[i].name, v, clock(i), repr))
  {
  }

  /** The calls of a run are the agents in order, each built without an
      exception, the first on the initial state, each on the output the
      previous one returned. */
  predicate InvokedInOrder(agents: seq<AgentInfo>, behave: Behaviour, topic: string, calls: seq<Call>) {
    && |calls| <= |agents|
    && (forall k :: 0 <= k < |calls| ==>
          calls[k].agent == k && behave.build(agents[k]).None? && (calls[k].input.Obj? || calls[k].input.List?))
    && (calls != [] ==> calls[0].input == InitialState(topic))
    && (forall k :: 0 < k < |calls| ==>
          behave.run(agents[k - 1], calls[k - 1].input) == Returned(calls[k].input) && !IsErrorDict(calls[k].input))
  }

  lemma RunInvokesInOrder(dir: string, agents: seq<AgentInfo>, behave: Behaviour, obs: Observer,
                          clock: nat -> string, repr: Value -> string, topic: string)
    ensures InvokedInOrder(agents, behave, topic, RunSpec(PlanFor(dir, agents, behave, obs, clock, repr), topic).calls)
  {
    var p := PlanFor(dir, agents, behave, obs, clock, repr);
    var c := RunSpec(p, topic).calls;
    RunSpecCalls(p, topic);
    forall k | 0 < k < |c|
      ensures behave.run(agents[k - 1], c[k - 1].input) == Returned(c[k].input) && !IsErrorDict(c[k].input)
    {
      PlanForAt(dir, agents, behave, obs, clock, repr, k - 1, c[k - 1].input);
      AgentStepCases(agents[k - 1], c[k - 1].input, behave, repr);
    }
  }

  /** How a run that returns an error record got there: the last agent
      invoked raised (the state stays its input), or returned a dictionary
      with an 'error' key (which becomes the final state); or the next agent
      was never invoked (see Unstarted). No agent runs after the failure.
      With an observer, the last report is the error report of the agent
      that failed. */
  predicate FailedFast(agents: seq<AgentInfo>, behave: Behaviour, obs: Observer, repr: Value -> string,
                       topic: string, e: Execution) {
    var k := |e.calls|;
    e.outcome.Aborted? ==>
      && k <= |agents|
      && if k == 0 then
           0 < |agents| && behave.build(agents[0]).Some? && Unstarted(agents, behave, obs, e, 0, InitialState(topic))
         else
           var name := agents[k - 1].name;
           var input := e.calls[k - 1].input;
           match behave.run(agents[k - 1], input)
           case Raised(m) =>
             e.outcome == Aborted(FailureMessage(name, m), input) && ErrorReported(agents, obs, e, k - 1, m)
           case Returned(v) =>
             if IsErrorDict(v) then
               var reason := PyStr(ErrorOf(v), repr);
               e.outcome == Aborted(FailureMessage(name, reason), v) && ErrorReported(agents, obs, e, k - 1, reason)
             else k < |agents| && Unstarted(agents, behave, obs, e, k, v)
  }

  /** Agent `j` fails before it is invoked on the state `s`: its
      constructor raised, or it was built and `s`, being neither a list nor
      a dictionary, has no `copy`. The run ends with that error and `s`. */
  predicate Unstarted(agents: seq<AgentInfo>, behave: Behaviour, obs: Observer, e: Execution, j: nat, s: Value)
    requires j < |agents|
  {
    var built := behave.build(agents[j]);
    var reason := if built.Some? then built.value else NoAttribute(s, "copy");
    && (built.None? ==> !s.Obj? && !s.List?)
    && e.outcome == Aborted(FailureMessage(agents[j].name, reason), s)
    && ErrorReported(agents, obs, e, j, reason)
  }

  /** With an observer, the last report is the one for agent `j` failing
      with `reason`: progress (j + 1)/n, the status "ERROR in <name>:
      <reason>" and the error flag. */
  predicate ErrorReported(agents: seq<AgentInfo>, obs: Observer, e: Execution, j: nat, reason: string)
    requires j < |agents|
  {
    obs.Observer? ==>
      && e.reports != []
      && var r := e.reports[|e.reports| - 1];
         && r.progress == (j + 1) as real / |agents| as real
         && r.status == "ERROR in " + agents[j].name + ": " + reason
         && r.error && r.finalState.None?
  }

  lemma RunFailsFast(dir: string, agents: seq<AgentInfo>, behave: Behaviour, obs: Observer,
                     clock: nat -> string, repr: Value -> string, topic: string)
    ensures FailedFast(agents, behave, obs, repr, topic, RunSpec(PlanFor(dir, agents, behave, obs, clock, repr), topic))
  {
    var p := PlanFor(dir, agents, behave, obs, clock, repr);
    var e := RunSpec(p, topic);
    RunSpecAborted(p, topic);
    var k := |e.calls|;
    if e.outcome.Aborted? {
      if k == 0 {
        assert CopyOf(InitialState(topic)).Some?;
        PlanForAt(dir, agents, behave, obs, clock, repr, 0, InitialState(topic));
      } else {
        PlanForAt(dir, agents, behave, obs, clock, repr, k - 1, e.calls[k - 1].input);
        AgentStepCases(agents[k - 1], e.calls[k - 1].input, behave, repr);
        if k < |agents| {
          PlanForAt(dir, agents, behave, obs, clock, repr, k, e.calls[k - 1].input);
        }
      }
    }
  }

  /** A run that finishes invoked every agent; its result is the initial
      state when there are none, and otherwise what the last agent returned;
      an observer's last report is the completion report with that state. */
  predicate FinishedAll(agents: seq<AgentInfo>, behave: Behaviour, obs: Observer, topic: string, e: Execution) {
    var n := |agents|;
    e.outcome.Finished? ==>
      && |e.calls| == n
      && (n == 0 ==> e.outcome.state == InitialState(topic))
      && (n > 0 ==> behave.run(agents[n - 1], e.calls[n - 1].input) == Returned(e.outcome.state)
                    && !IsErrorDict(e.outcome.state))
      && (obs.Observer? ==> e.reports != [] && e.reports[|e.reports| - 1] == DoneReport(e.outcome.state))
  }

  lemma RunFinishes(dir: string, agents: seq<AgentInfo>, behave: Behaviour, obs: Observer,
                    clock: nat -> string, repr: Value -> string, topic: string)
    ensures FinishedAll(agents, behave, obs, topic, RunSpec(PlanFor(dir, agents, behave, obs, clock, repr), topic))
  {
    var p := PlanFor(dir, agents, behave, obs, clock, repr);
    var e := RunSpec(p, topic);
    RunSpecFinished(p, topic);
    var n := |agents|;
    if e.outcome.Finished? && n > 0 {
      PlanForAt(dir, agents, behave, obs, clock, repr, n - 1, e.calls[n - 1].input);
      AgentStepCases(agents[n - 1], e.calls[n - 1].input, behave, repr);
    }
  }

  /** The observer hears the start report first and every report after it;
      an exception leaves `run` only when the observer raised it on its last
      report, and only a last report can carry the error flag, which an
      error record always follows. */
  lemma RunObserver(dir: string, agents: seq<AgentInfo>, behave: Behaviour, obs: Observer,
                    clock: nat -> string, repr: Value -> string, topic: string)
    ensures var p := PlanFor(dir, agents, behave, obs, clock, repr);
      ObserverShape(p, RunSpec(p, topic))
    ensures var e := RunSpec(PlanFor(dir, agents, behave, obs, clock, repr), topic);
      obs.Observer? ==> e.reports != [] && e.reports[0] == StartReport(topic)
  {
    RunSpecObserver(PlanFor(dir, agents, behave, obs, clock, repr), topic);
  }

  /** The reports announcing agents `0` to `m - 1` of `agents`, in order. */
  function AnnouncementsOf(agents: seq<AgentInfo>, m: nat): (r: seq<Report>)
    requires m <= |agents|
    ensures |r| == m
  {
    seq(m, j requires 0 <= j < m => RunningReport(j, |agents|, agents[j].name))
  }

  /** Progress starts at 0, never goes down and stays at most 1; with an
      observer, the start report is followed by the announcement of each
      invoked agent, at its position over the number of agents. */
  predicate ProgressReported(agents: seq<AgentInfo>, obs: Observer, e: Execution) {
    && Progressing(e.reports, 0.0)
    && (obs.Observer? ==>
          |e.calls| < |e.reports| && |e.calls| <= |agents|
          && e.reports[1..|e.calls| + 1] == AnnouncementsOf(agents, |e.calls|))
  }

  lemma RunProgress(dir: string, agents: seq<AgentInfo>, behave: Behaviour, obs: Observer,
                    clock: nat -> string, repr: Value -> string, topic: string)
    ensures ProgressReported(agents, obs, RunSpec(PlanFor(dir, agents, behave, obs, clock, repr), topic))
  {
    var p := PlanFor(dir, agents, behave, obs, clock, repr);
    RunSpecProgress(p, topic);
    RunSpecAnnounced(p, topic);
    var e := RunSpec(p, topic);
    if obs.Observer? {
      assert Announcements(p, |e.calls|) == AnnouncementsOf(agents, |e.calls|);
    }
  }

  /** The snapshots a run writes: after each agent that passed, the one
      `_log_state` builds from its output, in order; nothing for the agent
      that failed. */
  lemma RunSnapshots(dir: string, agents: seq<AgentInfo>, behave: Behaviour, obs: Observer,
                     clock: nat -> string, repr: Value -> string, topic: string)
    ensures var p := PlanFor(dir, agents, behave, obs, clock, repr);
      RunSpec(p, topic).snapshots == PassedSnapshots(p, RunSpec(p, topic).calls)
  {
    RunSpecSnapshots(PlanFor(dir, agents, behave, obs, clock, repr), topic);
  }

  /** A snapshot is written exactly when the state is a dictionary whose
      topic, if present, is a string; its file name joins the topic (with
      underscores for spaces, 'unknown_topic' when missing), the agent name
      and the timestamp; its contents keep the state's keys in order, keep
      every JSON-encodable value and can always be encoded. */
  lemma SnapshotContents(dir: string, agentName: string, state: Value, timestamp: string, repr: Value -> string)
    ensures var s := SnapshotOf(dir, agentName, state, timestamp, repr);
      s.Some? <==> state.Obj? && (!HasKey(state.entries, "topic") || Get(state.entries, "topic").value.Str?)
    ensures var s := SnapshotOf(dir, agentName, state, timestamp, repr);
      s.Some? ==>
        && s.value.dir == dir
        && s.value.filename == SnapshotFileName(
             if HasKey(state.entries, "topic") then ReplaceChar(Get(state.entries, "topic").value.s, ' ', '_')
             else "unknown_topic", agentName, timestamp)
        && Keys(s.value.contents) == Keys(state.entries)
        && Serialisable(Obj(s.value.contents))
        && forall j :: 0 <= j < |state.entries| && Serialisable(state.entries[j].1) ==>
             s.value.contents[j] == state.entries[j]
  {
  }

  /** The observer never raises. */
  ghost predicate Quiet(obs: Observer) {
    obs.Silent? || forall r :: !obs.raises(r)
  }

  /** Every agent is built and, given a dictionary or list, passes with one. */
  ghost predicate AlwaysPasses(p: Plan) {
    && (forall i: nat :: i < |p.agents| ==> p.build(i).None?)
    && forall i: nat, x: Value :: i < |p.agents| && CopyOf(x).Some? ==>
         p.step(i, x).Passed? && CopyOf(p.step(i, x).output).Some?
  }

  lemma {:induction false} RunFromCompletes(p: Plan, i: nat, state: Value)
    requires i <= |p.agents| && AlwaysPasses(p) && Quiet(p.obs) && CopyOf(state).Some?
    ensures RunFrom(p, i, state).outcome.Finished? && |RunFrom(p, i, state).calls| == |p.agents| - i
    decreases |p.agents| - i
  {
    if i < |p.agents| {
      var v := p.step(i, state).output;
      RunFromPassed(p, i, state);
      RunFromCompletes(p, i + 1, v);
    }
  }

  /** Conversely, when every agent is built without an exception and
      returns a dictionary without an 'error' key, and the observer never
      raises, the run finishes after invoking every agent. */
  lemma RunCompletes(dir: string, agents: seq<AgentInfo>, behave: Behaviour, obs: Observer,
                     clock: nat -> string, repr: Value -> string, topic: string)
    requires forall a :: behave.build(a).None?
    requires forall a, x :: behave.run(a, x).Returned? && behave.run(a, x).value.Obj? && !IsErrorDict(behave.run(a, x).value)
    requires Quiet(obs)
    ensures var e := RunSpec(PlanFor(dir, agents, behave, obs, clock, repr), topic);
      e.outcome.Finished? && |e.calls| == |agents|
  {
    var p := PlanFor(dir, agents, behave, obs, clock, repr);
    forall i: nat | i < |p.agents| ensures p.build(i).None? {
      PlanForAt(dir, agents, behave, obs, clock, repr, i, Null);
    }
    forall i: nat, x: Value | i < |p.agents| && CopyOf(x).Some?
      ensures p.step(i, x).Passed? && CopyOf(p.step(i, x).output).Some?
    {
      PlanForAt(dir, agents, behave, obs, clock, repr, i, x);
      AgentStepCases(agents[i], x, behave, repr);
    }
    RunFromCompletes(p, 0, InitialState(topic));
    RunSpecStarted(p, topic);
  }
}
