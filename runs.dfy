/**
 * A sequence of calls of Process on one calculator: what holds across the life of a request.
 */
module Runs {
  import opened Wrappers
  import opened LlmTypes
  import opened RequestIds
  import opened Lifecycle
  import opened LifecycleProperties
  import opened StepProperties

  /** What one call of Process is given: its two input packets and what the client and engine report. */
  datatype Call = Call(input: Option<Payload>, loopback: Option<bool>, disconnected: bool, engine: Engine)

  /** The calculator's state and the shared request counter after a run of calls. */
  datatype RunResult = RunResult(state: CalculatorState, nextId: nat)

  function Run(res: NodeResources, s: CalculatorState, nextId: nat, calls: seq<Call>): RunResult
    decreases |calls|
  {
    if calls == [] then RunResult(s, nextId)
    else
      var c := calls[0];
      var r := Step(res, s, nextId, c.input, c.loopback, c.disconnected, c.engine);
      Run(res, r.state, NextRequestId(nextId, r), calls[1..])
  }

  /** The invariant holds after any run of calls that starts from a state where it holds. */
  lemma {:induction false} RunPreservesValid(res: NodeResources, s: CalculatorState, nextId: nat, calls: seq<Call>)
    requires ValidState(s) && nextId < U64_LIMIT
    ensures ValidState(Run(res, s, nextId, calls).state)
    ensures Run(res, s, nextId, calls).nextId < U64_LIMIT
    decreases |calls|
  {
    if calls != [] {
      var c := calls[0];
      StepPreservesValid(res, s, nextId, c.input, c.loopback, c.disconnected, c.engine);
      var r := Step(res, s, nextId, c.input, c.loopback, c.disconnected, c.engine);
      RunPreservesValid(res, r.state, NextRequestId(nextId, r), calls[1..]);
    }
  }

  /** Outputs and loopbacks only grow, never change what was emitted, and the timestamp never goes back. */
  lemma {:induction false} RunOnlyAppends(res: NodeResources, s: CalculatorState, nextId: nat, calls: seq<Call>)
    ensures var t := Run(res, s, nextId, calls).state;
            && |s.outputs| <= |t.outputs| <= |s.outputs| + |calls| && t.outputs[..|s.outputs|] == s.outputs
            && |s.loopbacks| <= |t.loopbacks| <= |s.loopbacks| + |calls| && t.loopbacks[..|s.loopbacks|] == s.loopbacks
            && s.timestamp <= t.timestamp <= s.timestamp + |calls|
    decreases |calls|
  {
    if calls != [] {
      var c := calls[0];
      EveryCallHasCallEffect(res, s, nextId, c.input, c.loopback, c.disconnected, c.engine);
      var r := Step(res, s, nextId, c.input, c.loopback, c.disconnected, c.engine);
      RunOnlyAppends(res, r.state, NextRequestId(nextId, r), calls[1..]);
      var t := Run(res, s, nextId, calls).state;
      assert t.outputs[..|s.outputs|] == t.outputs[..|r.state.outputs|][..|s.outputs|];
      assert t.loopbacks[..|s.loopbacks|] == t.loopbacks[..|r.state.loopbacks|][..|s.loopbacks|];
    }
  }

  /** A call never replaces a generation handle once there is one, and never draws an id after ingestion. */
  lemma StepAfterIngestion(res: NodeResources, s: CalculatorState, nextId: nat, c: Call)
    ensures var r := Step(res, s, nextId, c.input, c.loopback, c.disconnected, c.engine);
            && (s.generationHandle.Some? ==> r.state.generationHandle == s.generationHandle)
            && (!NotIngested(s) ==> !NotIngested(r.state) && r.drawnId.None?)
            && (r.drawnId.Some? ==> !NotIngested(r.state))
  {
  }

  /** Once a request is submitted, its generation handle stays the same for every later call. */
  lemma {:induction false} HandleIsNeverReplaced(res: NodeResources, s: CalculatorState, nextId: nat, calls: seq<Call>)
    requires s.generationHandle.Some?
    ensures Run(res, s, nextId, calls).state.generationHandle == s.generationHandle
    decreases |calls|
  {
    if calls != [] {
      StepAfterIngestion(res, s, nextId, calls[0]);
      var c := calls[0];
      var r := Step(res, s, nextId, c.input, c.loopback, c.disconnected, c.engine);
      HandleIsNeverReplaced(res, r.state, NextRequestId(nextId, r), calls[1..]);
    }
  }

  /** After a payload was ingested, no call takes another request id. */
  lemma {:induction false} IngestedRunDrawsNothing(res: NodeResources, s: CalculatorState, nextId: nat, calls: seq<Call>)
    requires !NotIngested(s)
    ensures Run(res, s, nextId, calls).nextId == nextId
    decreases |calls|
  {
    if calls != [] {
      StepAfterIngestion(res, s, nextId, calls[0]);
      var c := calls[0];
      var r := Step(res, s, nextId, c.input, c.loopback, c.disconnected, c.engine);
      IngestedRunDrawsNothing(res, r.state, nextId, calls[1..]);
    }
  }

  /** A calculator takes at most one request id from the shared counter over its whole life. */
  lemma {:induction false} AtMostOneIdPerCalculator(res: NodeResources, s: CalculatorState, nextId: nat, calls: seq<Call>)
    ensures var n := Run(res, s, nextId, calls).nextId;
            n == nextId || n == (nextId + 1) % U64_LIMIT
    decreases |calls|
  {
    if calls != [] {
      StepAfterIngestion(res, s, nextId, calls[0]);
      var c := calls[0];
      var r := Step(res, s, nextId, c.input, c.loopback, c.disconnected, c.engine);
      if r.drawnId.Some? {
        IngestedRunDrawsNothing(res, r.state, NextRequestId(nextId, r), calls[1..]);
      } else {
        AtMostOneIdPerCalculator(res, r.state, nextId, calls[1..]);
      }
    }
  }

  /** What one call of a run did, with the request counter after it. */
  datatype Moment = Moment(result: StepResult, nextId: nat)

  /** The result of every call of a run, in order. */
  function Trace(res: NodeResources, s: CalculatorState, nextId: nat, calls: seq<Call>): (trace: seq<Moment>)
    ensures |trace| == |calls|
    decreases |calls|
  {
    if calls == [] then []
    else
      var c := calls[0];
      var r := Step(res, s, nextId, c.input, c.loopback, c.disconnected, c.engine);
      [Moment(r, NextRequestId(nextId, r))] + Trace(res, r.state, NextRequestId(nextId, r), calls[1..])
  }

  /** The state call `i` of a run starts from. */
  function Before(s: CalculatorState, trace: seq<Moment>, i: nat): CalculatorState
    requires i <= |trace|
  {
    if i == 0 then s else trace[i - 1].result.state
  }

  /** The counter value call `i` of a run starts from. */
  function CounterBefore(nextId: nat, trace: seq<Moment>, i: nat): nat
    requires i <= |trace|
  {
    if i == 0 then nextId else trace[i - 1].nextId
  }

  /** Each entry of the trace is one step from the state the previous entry left. */
  lemma {:induction false} TraceSteps(res: NodeResources, s: CalculatorState, nextId: nat, calls: seq<Call>, i: nat)
    requires i < |calls|
    ensures var trace := Trace(res, s, nextId, calls);
            var r := Step(res, Before(s, trace, i), CounterBefore(nextId, trace, i), calls[i].input, calls[i].loopback,
                          calls[i].disconnected, calls[i].engine);
            trace[i] == Moment(r, NextRequestId(CounterBefore(nextId, trace, i), r))
    decreases i
  {
    if i > 0 {
      var c := calls[0];
      var r := Step(res, s, nextId, c.input, c.loopback, c.disconnected, c.engine);
      TraceSteps(res, r.state, NextRequestId(nextId, r), calls[1..], i - 1);
    }
  }

  /** Call `i` of a run added a packet to the loopback stream. */
  predicate LoopedBack(s: CalculatorState, trace: seq<Moment>, i: nat)
    requires i < |trace|
  {
    |trace[i].result.state.loopbacks| > |Before(s, trace, i).loopbacks|
  }

  /**
   * The framework's delivery of loopback packets: a call receives one only when the call before it emitted
   * one (for the first call of the run, when `pending` says one is waiting).
   */
  predicate LoopbackDriven(res: NodeResources, s: CalculatorState, nextId: nat, calls: seq<Call>, pending: bool)
  {
    var trace := Trace(res, s, nextId, calls);
    && (|calls| > 0 && calls[0].loopback.Some? ==> pending)
    && forall i :: 0 < i < |calls| && calls[i].loopback.Some? ==> LoopedBack(s, trace, i - 1)
  }

  /** After ingestion, a call without a loopback packet emits nothing and leaves the request ingested. */
  lemma CallWithoutLoopbackIsSilent(res: NodeResources, s: CalculatorState, nextId: nat, c: Call)
    requires !NotIngested(s) && c.loopback.None?
    ensures var r := Step(res, s, nextId, c.input, c.loopback, c.disconnected, c.engine);
            r.state.outputs == s.outputs && r.state.loopbacks == s.loopbacks && !NotIngested(r.state)
  {
  }

  /** A call that emits an output leaves the request ingested. */
  lemma EmittingCallIsIngested(res: NodeResources, s: CalculatorState, nextId: nat, c: Call)
    ensures var r := Step(res, s, nextId, c.input, c.loopback, c.disconnected, c.engine);
            |r.state.outputs| != |s.outputs| ==> !NotIngested(r.state)
  {
  }

  /**
   * A call that leaves the request ingested without emitting a loopback ends the request: no later call of
   * a loopback-driven run emits an output or a loopback.
   */
  lemma {:induction false} RequestEndsWithoutLoopback(res: NodeResources, s: CalculatorState, nextId: nat, calls: seq<Call>,
                                                       pending: bool, i: nat, j: nat)
    requires LoopbackDriven(res, s, nextId, calls, pending)
    requires i <= j < |calls|
    requires var trace := Trace(res, s, nextId, calls);
             !NotIngested(trace[i].result.state) && !LoopedBack(s, trace, i)
    ensures var trace := Trace(res, s, nextId, calls);
            && trace[j].result.state.outputs == trace[i].result.state.outputs
            && trace[j].result.state.loopbacks == trace[i].result.state.loopbacks
            && !NotIngested(trace[j].result.state)
    decreases j - i
  {
    if i < j {
      var trace := Trace(res, s, nextId, calls);
      RequestEndsWithoutLoopback(res, s, nextId, calls, pending, i, j - 1);
      if j - 1 > i {
        RequestEndsWithoutLoopback(res, s, nextId, calls, pending, i, j - 2);
      }
      assert !LoopedBack(s, trace, j - 1);
      TraceSteps(res, s, nextId, calls, j);
      var c := calls[j];
      CallWithoutLoopbackIsSilent(res, Before(s, trace, j), CounterBefore(nextId, trace, j), c);
    }
  }

  /**
   * The final message ends the request: after a call that emits an output without a loopback (the unary
   * response, or the streaming message that ends with the [DONE] event), no later call of a loopback-driven
   * run emits anything.
   */
  lemma NothingAfterFinalOutput(res: NodeResources, s: CalculatorState, nextId: nat, calls: seq<Call>, pending: bool, i: nat, j: nat)
    requires LoopbackDriven(res, s, nextId, calls, pending)
    requires i < j < |calls|
    requires var trace := Trace(res, s, nextId, calls);
             |trace[i].result.state.outputs| > |Before(s, trace, i).outputs| && !LoopedBack(s, trace, i)
    ensures var trace := Trace(res, s, nextId, calls);
            |trace[j].result.state.outputs| == |trace[i].result.state.outputs|
            && |trace[j].result.state.loopbacks| == |trace[i].result.state.loopbacks|
  {
    var trace := Trace(res, s, nextId, calls);
    TraceSteps(res, s, nextId, calls, i);
    EmittingCallIsIngested(res, Before(s, trace, i), CounterBefore(nextId, trace, i), calls[i]);
    RequestEndsWithoutLoopback(res, s, nextId, calls, pending, i, j);
  }

  /** Once a call of a run has a generation handle, every later call keeps it. */
  lemma {:induction false} TraceKeepsHandle(res: NodeResources, s: CalculatorState, nextId: nat, calls: seq<Call>, i: nat, j: nat)
    requires i <= j < |calls|
    requires Trace(res, s, nextId, calls)[i].result.state.generationHandle.Some?
    ensures var trace := Trace(res, s, nextId, calls);
            trace[j].result.state.generationHandle == trace[i].result.state.generationHandle
    decreases j - i
  {
    if i < j {
      var trace := Trace(res, s, nextId, calls);
      TraceKeepsHandle(res, s, nextId, calls, i, j - 1);
      TraceSteps(res, s, nextId, calls, j);
      StepAfterIngestion(res, Before(s, trace, j), CounterBefore(nextId, trace, j), calls[j]);
    }
  }

  /** In any run, at most one call registers a disconnection callback: each request gets one at most. */
  lemma OneDisconnectionCallbackPerRequest(res: NodeResources, s: CalculatorState, nextId: nat, calls: seq<Call>, i: nat, j: nat)
    requires i < j < |calls|
    ensures var trace := Trace(res, s, nextId, calls);
            Registration(Before(s, trace, i), trace[i].result.state) == []
            || Registration(Before(s, trace, j), trace[j].result.state) == []
  {
    var trace := Trace(res, s, nextId, calls);
    if Registration(Before(s, trace, i), trace[i].result.state) != [] {
      TraceKeepsHandle(res, s, nextId, calls, i, j - 1);
    }
  }
}
