/** MockFlowTester: drives one assembled flow through a test. Its
    lifecycle has three stages, no execution, active and ended; every
    accessor checks the stage first and refuses with a fixed message.
    Each start and each resume gets a new simulated request, and a listener
    keeps the messages present at the latest view rendering. */
module FlowTester {
  import opened Common
  import opened Engine
  import opened MockBuilder
  import View

  const NotStartedMessage := "Flow must be started before assertions can be made."
  const NoEventIdMessage := "An event ID must be set to resume the flow"
  const NotEndedMessage := "Flow Execution must have ended to assert the outcome"
  const NotActiveMessage := "Flow Execution must be active to assert current events"

  /** A request parameter value as a test hands it over, by its runtime
      class: a String array, a MultipartFile, null, or any other object
      (with its toString text; a String is its own text). */
  datatype RawValue = StringArray(texts: seq<string>) | MultipartFile(file: Obj) | NullValue | AnyValue(text: string)

  /** setRequestParameters, for one value: arrays and files are kept as
      they are, everything else becomes Objects.toString of it. */
  function Encode(v: RawValue): (p: ParamValue)
    ensures p.Texts? <==> v.StringArray?
    ensures p.Upload? <==> v.MultipartFile?
    ensures v.StringArray? ==> p.texts == v.texts
    ensures v.MultipartFile? ==> p.file == v.file
    ensures v.NullValue? ==> p == Text("null")
    ensures v.AnyValue? ==> p == Text(v.text)
  {
    match v
    case StringArray(ts) => Texts(ts)
    case MultipartFile(f) => Upload(f)
    case NullValue => Text("null")
    case AnyValue(t) => Text(t)
  }

  /** The parameter map setRequestParameters fills: every entry encoded. */
  function Encoded(input: map<string, RawValue>): (params: map<string, ParamValue>)
    ensures params.Keys == input.Keys
    ensures forall k :: k in input ==> params[k] == Encode(input[k])
  {
    map k | k in input :: Encode(input[k])
  }

  /** setRequestParameters: the entries of `input`, one at a time. */
  method EncodeParameters(input: map<string, RawValue>) returns (params: map<string, ParamValue>)
    ensures params == Encoded(input)
  {
    params := map[];
    var pending := input.Keys;
    while pending != {}
      invariant pending <= input.Keys
      invariant params.Keys == input.Keys - pending
      invariant forall k :: k in params ==> params[k] == Encode(input[k])
      decreases pending
    {
      var k :| k in pending;
      params := params[k := Encode(input[k])];
      pending := pending - {k};
    }
  }

  /** The parameters of a resumed request: the encoded input, then the
      event id put under `_eventId` by the external context. */
  function ResumeParameters(input: map<string, RawValue>, eventId: string): (params: map<string, ParamValue>)
    ensures params.Keys == input.Keys + {EventIdParameter}
    ensures params[EventIdParameter] == Text(eventId)
    ensures forall k :: k in input && k != EventIdParameter ==> params[k] == Encode(input[k])
  {
    Encoded(input)[EventIdParameter := Text(eventId)]
  }

  /** A view rendered during the resume sees the tester's event id, even
      when the input carried an `_eventId` of its own. */
  lemma ResumedViewSeesEventId(input: map<string, RawValue>, eventId: string)
    ensures View.EventId(ResumeParameters(input, eventId)) == Ok(Some(eventId))
    ensures View.HasEventIdParameter(ResumeParameters(input, eventId))
  {
  }

  /** A simulated request (MockExternalContext): `serial` tells contexts
      apart; `nativeRequest` is None when it holds its default empty
      object; `redirectUrl` is the external redirect the engine requested
      on it, if any. */
  datatype ExternalContext = ExternalContext(
    serial: nat,
    nativeRequest: Option<Obj>,
    parameters: map<string, ParamValue>,
    redirectUrl: Option<string>)

  /** assertActiveExecution. */
  function StartedGuard(execution: Option<Execution>): (r: Outcome)
    ensures r == Pass <==> execution.Some?
    ensures r.Fail? ==> r.error == IllegalState(NotStartedMessage)
  {
    if execution.None? then Fail(IllegalState(NotStartedMessage)) else Pass
  }

  /** assertActiveExecution, then assertOutcomeAccessible. */
  function EndedGuard(execution: Option<Execution>): (r: Outcome)
    ensures r == Pass <==> execution.Some? && HasEnded(execution.value)
    ensures execution.None? ==> r == StartedGuard(execution)
    ensures execution.Some? && !HasEnded(execution.value) ==> r == Fail(IllegalState(NotEndedMessage))
  {
    if execution.None? then StartedGuard(execution)
    else if !HasEnded(execution.value) then Fail(IllegalState(NotEndedMessage))
    else Pass
  }

  /** assertActiveExecution, then assertActiveSessionAccessible. */
  function ActiveGuard(execution: Option<Execution>): (r: Outcome)
    ensures r == Pass <==> execution.Some? && IsActive(execution.value)
    ensures execution.None? ==> r == StartedGuard(execution)
    ensures execution.Some? && !IsActive(execution.value) ==> r == Fail(IllegalState(NotActiveMessage))
  {
    if execution.None? then StartedGuard(execution)
    else if !IsActive(execution.value) then Fail(IllegalState(NotActiveMessage))
    else Pass
  }

  /** Once an execution has been started, exactly one family of accessors
      is open: the outcome accessors or the current-state accessors. */
  lemma GuardsPartitionStartedExecutions(execution: Option<Execution>)
    requires execution.Some? && !execution.value.status.NotStarted?
    ensures EndedGuard(execution) == Pass <==> ActiveGuard(execution).Fail?
  {
  }

  /** Without an execution every accessor refuses with the same message. */
  lemma GuardsAgreeBeforeStart(execution: Option<Execution>)
    requires execution.None?
    ensures EndedGuard(execution) == ActiveGuard(execution) == Fail(IllegalState(NotStartedMessage))
  {
  }

  /** The listener's messages after a step's view renderings: the last
      rendering's messages, or the previous ones when no view rendered. */
  function LastRendering(previous: set<FlowMessage>, renderings: seq<set<FlowMessage>>): (r: set<FlowMessage>)
    ensures renderings == [] ==> r == previous
    ensures renderings != [] ==> r == renderings[|renderings| - 1]
  {
    if renderings == [] then previous else renderings[|renderings| - 1]
  }

  /** MessageContextStoringFlowExecutionListener. */
  class MessageListener {
    var messages: set<FlowMessage>

    constructor ()
      ensures messages == {}
    {
      messages := {};
    }

    /** viewRendering: the message context's messages replace the kept ones. */
    method ViewRendering(all: set<FlowMessage>)
      modifies this
      ensures messages == all
    {
      messages := all;
    }

    /** The listener's side of one engine step: one call per rendering. */
    method ApplyRenderings(renderings: seq<set<FlowMessage>>)
      modifies this
      ensures messages == LastRendering(old(messages), renderings)
    {
      for i := 0 to |renderings|
        invariant messages == LastRendering(old(messages), renderings[..i])
      {
        ViewRendering(renderings[i]);
      }
      assert renderings[..|renderings|] == renderings;
    }
  }

  class MockFlowTester {
    const testFlow: AssembledFlow
    const listener: MessageListener
    var execution: Option<Execution>
    var context: Option<ExternalContext>
    var eventId: Option<string>
    var request: Option<Obj>
    /** How many executions and contexts this tester has created. */
    var issued: nat

    /** An execution can only have ended through a start or a resume,
        each of which brings its own context. */
    ghost predicate Valid()
      reads this
    {
      && (execution.Some? ==> execution.value.serial < issued)
      && (context.Some? ==> context.value.serial < issued)
      && (execution.Some? && HasEnded(execution.value) ==> context.Some?)
    }

    constructor (testFlow: AssembledFlow)
      ensures Valid() && fresh(listener) && listener.messages == {}
      ensures this.testFlow == testFlow
      ensures execution == None && context == None && eventId == None && request == None
      ensures issued == 0
    {
      this.testFlow := testFlow;
      listener := new MessageListener();
      execution := None;
      context := None;
      eventId := None;
      request := None;
      issued := 0;
    }

    /** from(builder): the builder's flow is built first. */
    static method From(builder: ExternalizedMockFlowBuilder) returns (tester: MockFlowTester)
      requires builder.Valid()
      modifies builder, builder.configuration
      ensures builder.Valid() && builder.flow == Some(tester.testFlow)
      ensures fresh(tester) && tester.Valid() && tester.execution == None && tester.context == None
    {
      var flow := builder.BuildFlow();
      tester := new MockFlowTester(flow);
    }

    /** getCurrentFlowExecution: no check, possibly null. */
    function GetCurrentFlowExecution(): (r: Option<Execution>)
      reads this
      ensures r == execution
      ensures r.None? <==> StartedGuard(execution).Fail?
    {
      execution
    }

    /** getLastRequestContext: no check, possibly null. */
    function GetLastRequestContext(): (r: Option<ExternalContext>)
      reads this
      ensures r == context
      ensures Valid() && r.Some? ==> r.value.serial < issued
    {
      context
    }

    /** newContext: a fresh request carrying the held request object. */
    method NewContext(parameters: map<string, ParamValue>)
      requires Valid()
      modifies this
      ensures Valid()
      ensures context == Some(ExternalContext(old(issued), request, parameters, None))
      ensures issued == old(issued) + 1
      ensures execution == old(execution) && eventId == old(eventId) && request == old(request)
    {
      context := Some(ExternalContext(issued, request, parameters, None));
      issued := issued + 1;
    }

    /** startFlow: a new execution and a new context, the event id
        cleared, then the engine's start. */
    method StartFlow(step: Step)
      requires Valid()
      modifies this, listener
      ensures Valid()
      ensures execution == Some(Execution(old(issued), AfterStep(step)))
      ensures context == Some(ExternalContext(old(issued) + 1, request, map[], step.redirectUrl))
      ensures eventId == None && request == old(request)
      ensures listener.messages == LastRendering(old(listener.messages), step.renderings)
    {
      var created := Execution(issued, NotStarted);
      issued := issued + 1;
      NewContext(map[]);
      eventId := None;
      execution := Some(Execution(created.serial, AfterStep(step)));
      context := Some(context.value.(redirectUrl := step.redirectUrl));
      listener.ApplyRenderings(step.renderings);
    }

    /** startFlowAt: a new execution placed in `stateId`, without running
        entry actions; event id and last context stay as they are. The id
        is looked up among `states`, the ids the flow defines: for one it
        lacks the engine throws once the new execution has replaced the old
        one, and that execution stays not started. */
    method StartFlowAt(stateId: string, states: set<string>) returns (r: Outcome)
      requires Valid()
      modifies this
      ensures Valid()
      ensures r == (if stateId in states then Pass else Fail(EngineFailure))
      ensures execution == Some(Execution(old(issued), if r == Pass then Active(stateId, map[]) else NotStarted))
      ensures issued == old(issued) + 1
      ensures context == old(context) && eventId == old(eventId) && request == old(request)
    {
      execution := Some(Execution(issued, NotStarted));
      issued := issued + 1;
      var placed := Engine.SetCurrentState(execution.value.status, stateId, states);
      if placed.Err? {
        return Fail(placed.error);
      }
      execution := Some(Execution(execution.value.serial, placed.value));
      r := Pass;
    }

    /** resumeFlow: refused without an execution, then without an event
        id; otherwise a new context holding the encoded parameters and the
        event id, and the engine's resume on it. */
    method ResumeFlow(input: map<string, RawValue>, step: Step) returns (r: Outcome)
      requires Valid()
      modifies this, listener
      ensures Valid()
      ensures old(execution).None? ==> r == Fail(IllegalState(NotStartedMessage))
      ensures old(execution).Some? && old(eventId).None? ==> r == Fail(IllegalState(NoEventIdMessage))
      ensures old(execution).None? || old(eventId).None? ==>
                context == old(context) && execution == old(execution) && issued == old(issued)
                && listener.messages == old(listener.messages)
      ensures old(execution).Some? && old(eventId).Some? ==>
                && (r == Pass <==> IsActive(old(execution).value))
                && context.Some? && context.value.serial == old(issued)
                && context.value.nativeRequest == request
                && context.value.parameters == ResumeParameters(input, old(eventId).value)
                && (r == Pass ==> execution == Some(Execution(old(execution).value.serial, AfterStep(step)))
                                  && context.value.redirectUrl == step.redirectUrl
                                  && listener.messages == LastRendering(old(listener.messages), step.renderings))
                && (r.Fail? ==> r == Fail(EngineFailure) && execution == old(execution)
                                && context.value.redirectUrl == None && listener.messages == old(listener.messages))
      ensures eventId == old(eventId) && request == old(request)
    {
      var started := StartedGuard(execution);
      if started.Fail? {
        return started;
      }
      if eventId.None? {
        return Fail(IllegalState(NoEventIdMessage));
      }
      var params := EncodeParameters(input);
      NewContext(params[EventIdParameter := Text(eventId.value)]);
      var resumed := Resume(execution.value.status, step);
      if resumed.Err? {
        return Fail(resumed.error);
      }
      execution := Some(Execution(execution.value.serial, resumed.value));
      context := Some(context.value.(redirectUrl := step.redirectUrl));
      listener.ApplyRenderings(step.renderings);
      r := Pass;
    }

    /** setEventId: the event of the next resume; null unsets it. */
    method SetEventId(e: Option<string>)
      modifies this
      ensures eventId == e
      ensures execution == old(execution) && context == old(context) && request == old(request)
      ensures issued == old(issued)
    {
      eventId := e;
    }

    /** setRequest: the native request of later contexts; null unsets it. */
    method SetRequest(r: Option<Obj>)
      modifies this
      ensures request == r
      ensures execution == old(execution) && context == old(context) && eventId == old(eventId)
      ensures issued == old(issued)
    {
      request := r;
    }

    /** executionHasEnded: needs an execution. */
    function ExecutionHasEnded(): (r: Result<bool>)
      reads this
      ensures r.Ok? <==> StartedGuard(execution) == Pass
      ensures r.Err? ==> r.error == IllegalState(NotStartedMessage)
      ensures r.Ok? ==> (r.value <==> execution.value.status.Ended?)
    {
      if execution.None? then Err(StartedGuard(execution).error) else Ok(HasEnded(execution.value))
    }

    /** getFlowOutcome: the end-state id, once ended. */
    function GetFlowOutcome(): (r: Result<string>)
      reads this
      ensures r.Ok? <==> EndedGuard(execution) == Pass
      ensures r.Err? ==> r.error == EndedGuard(execution).error
      ensures r.Ok? ==> r.value == execution.value.status.outcome.id
    {
      var guard := EndedGuard(execution);
      if guard.Fail? then Err(guard.error) else Ok(execution.value.status.outcome.id)
    }

    /** getOutputAttributes: the outcome's output, once ended. */
    function GetOutputAttributes(): (r: Result<map<string, Obj>>)
      reads this
      ensures r.Ok? <==> EndedGuard(execution) == Pass
      ensures r.Err? ==> r.error == EndedGuard(execution).error
      ensures r.Ok? ==> r.value == execution.value.status.outcome.output
    {
      var guard := EndedGuard(execution);
      if guard.Fail? then Err(guard.error) else Ok(execution.value.status.outcome.output)
    }

    /** getExternalRedirectUrl: the last context's redirect, once ended. */
    function GetExternalRedirectUrl(): (r: Result<Option<string>>)
      requires Valid()
      reads this
      ensures r.Ok? <==> EndedGuard(execution) == Pass
      ensures r.Err? ==> r.error == EndedGuard(execution).error
      ensures r.Ok? ==> context.Some? && r.value == context.value.redirectUrl
    {
      var guard := EndedGuard(execution);
      if guard.Fail? then Err(guard.error) else Ok(context.value.redirectUrl)
    }

    /** getCurrentStateId: the active session's state, while active. */
    function GetCurrentStateId(): (r: Result<string>)
      reads this
      ensures r.Ok? <==> ActiveGuard(execution) == Pass
      ensures r.Err? ==> r.error == ActiveGuard(execution).error
      ensures r.Ok? ==> r.value == execution.value.status.stateId
    {
      var guard := ActiveGuard(execution);
      if guard.Fail? then Err(guard.error) else Ok(execution.value.status.stateId)
    }

    /** getScope: the active session's flow scope, while active. */
    function GetScope(): (r: Result<map<string, Obj>>)
      reads this
      ensures r.Ok? <==> ActiveGuard(execution) == Pass
      ensures r.Err? ==> r.error == ActiveGuard(execution).error
      ensures r.Ok? ==> r.value == execution.value.status.scope
    {
      var guard := ActiveGuard(execution);
      if guard.Fail? then Err(guard.error) else Ok(execution.value.status.scope)
    }

    /** getAllMessages: the listener's messages, once started. */
    function GetAllMessages(): (r: Result<set<FlowMessage>>)
      reads this, listener
      ensures r.Ok? <==> StartedGuard(execution) == Pass
      ensures r.Err? ==> r.error == IllegalState(NotStartedMessage)
      ensures r.Ok? ==> r.value == listener.messages
    {
      if execution.None? then Err(StartedGuard(execution).error) else Ok(listener.messages)
    }
  }

  /** Before any start there is neither an execution nor a request
      context, and every guarded accessor refuses. */
  method FreshTesterHasNothing(flow: AssembledFlow)
    returns (e: Option<Execution>, c: Option<ExternalContext>, outcome: Result<string>, state: Result<string>)
    ensures e == None && c == None
    ensures outcome == Err(IllegalState(NotStartedMessage)) && state == Err(IllegalState(NotStartedMessage))
  {
    var tester := new MockFlowTester(flow);
    e := tester.GetCurrentFlowExecution();
    c := tester.GetLastRequestContext();
    outcome := tester.GetFlowOutcome();
    state := tester.GetCurrentStateId();
  }

  /** A resume before any start is refused. */
  method ResumeBeforeStart(flow: AssembledFlow, e: string, input: map<string, RawValue>, step: Step)
    returns (r: Outcome)
    ensures r == Fail(IllegalState(NotStartedMessage))
  {
    var tester := new MockFlowTester(flow);
    tester.SetEventId(Some(e));
    r := tester.ResumeFlow(input, step);
  }

  /** startFlow clears the event id: a resume right after it is refused
      until a new event id is set. */
  method StartClearsEventId(flow: AssembledFlow, e: string, start: Step, resume: Step)
    returns (refused: Outcome, accepted: Outcome)
    requires start.stoppedAt.Paused?
    ensures refused == Fail(IllegalState(NoEventIdMessage)) && accepted == Pass
  {
    var tester := new MockFlowTester(flow);
    tester.SetEventId(Some(e));
    tester.StartFlow(start);
    refused := tester.ResumeFlow(map[], resume);
    tester.SetEventId(Some(e));
    accepted := tester.ResumeFlow(map[], resume);
  }

  /** startFlowAt keeps the last context and the event id, and opens the
      current-state accessors on the given state when the flow defines it;
      otherwise the new execution is neither active nor ended. */
  method StartFlowAtKeepsRequest(flow: AssembledFlow, e: string, start: Step, states: set<string>, stateId: string)
    returns (before: Option<ExternalContext>, after: Option<ExternalContext>, state: Result<string>,
             ended: Result<bool>, kept: Option<string>)
    ensures before == after && before.Some? && kept == None
    ensures state == (if stateId in states then Ok(stateId) else Err(IllegalState(NotActiveMessage)))
    ensures ended == Ok(false)
  {
    var tester := new MockFlowTester(flow);
    tester.StartFlow(start);
    before := tester.GetLastRequestContext();
    var _ := tester.StartFlowAt(stateId, states);
    after := tester.GetLastRequestContext();
    state := tester.GetCurrentStateId();
    ended := tester.ExecutionHasEnded();
    kept := tester.eventId;
  }

  /** A resumed request holds the held native request and the event id
      under `_eventId`, and a view rendered by it reads that event id. */
  method ResumedRequestCarriesEventId(flow: AssembledFlow, native: Obj, e: string, input: map<string, RawValue>,
                                      start: Step, resume: Step)
    returns (c: ExternalContext)
    requires start.stoppedAt.Paused?
    ensures c.nativeRequest == Some(native)
    ensures View.EventId(c.parameters) == Ok(Some(e))
    ensures c.parameters.Keys == input.Keys + {EventIdParameter}
    ensures forall k :: k in input && k != EventIdParameter ==> c.parameters[k] == Encode(input[k])
  {
    var tester := new MockFlowTester(flow);
    tester.SetRequest(Some(native));
    tester.StartFlow(start);
    tester.SetEventId(Some(e));
    var _ := tester.ResumeFlow(input, resume);
    c := tester.GetLastRequestContext().value;
    ResumedViewSeesEventId(input, e);
  }

  /** The listener keeps only the last rendering's messages. */
  method LastRenderingWins(flow: AssembledFlow, first: set<FlowMessage>, second: set<FlowMessage>, end: StepEnd)
    returns (messages: Result<set<FlowMessage>>)
    ensures messages == Ok(second)
  {
    var tester := new MockFlowTester(flow);
    tester.StartFlow(Step(end, None, [first, second]));
    messages := tester.GetAllMessages();
  }
}
