/** The part of the wrapped flow engine the library observes. The engine
    itself (state graph, transitions, scopes, expression evaluation) is not
    modelled: a start or resume is represented by the `Step` the engine
    reports back, and the library's own code is verified against any step. */
module Engine {
  import opened Common

  /** The terminal result of an execution: end-state id and output map. */
  datatype FlowOutcome = FlowOutcome(id: string, output: map<string, Obj>)

  /** The lifecycle of one flow execution. */
  datatype Status =
    | NotStarted
    | Active(stateId: string, scope: map<string, Obj>)
    | Ended(outcome: FlowOutcome)

  /** One execution object; `serial` tells apart executions created by
      different calls, standing in for Java object identity. */
  datatype Execution = Execution(serial: nat, status: Status)

  predicate HasEnded(e: Execution) { e.status.Ended? }

  predicate IsActive(e: Execution) { e.status.Active? }

  /** A message held by the engine's message context. */
  datatype FlowMessage = FlowMessage(text: string, isError: bool)

  /** One value of a simulated request's parameter map: a single string,
      a string array, or an uploaded file. */
  datatype ParamValue = Text(text: string) | Texts(texts: seq<string>) | Upload(file: Obj)

  /** The parameter name the engine reads the event id from. */
  const EventIdParameter := "_eventId"

  /** What the engine reports after running a start or a resume: where the
      execution stopped, any external redirect it requested on the external
      context, and the message sets present at each view rendering, in order. */
  datatype Step = Step(
    stoppedAt: StepEnd,
    redirectUrl: Option<string>,
    renderings: seq<set<FlowMessage>>)

  datatype StepEnd = Paused(stateId: string, scope: map<string, Obj>) | Finished(outcome: FlowOutcome)

  /** The status an execution has after a step. */
  function AfterStep(step: Step): (s: Status)
    ensures s.Active? <==> step.stoppedAt.Paused?
    ensures s.Ended? <==> step.stoppedAt.Finished?
    ensures s.Ended? ==> s.outcome == step.stoppedAt.outcome
    ensures s.Active? ==> s.stateId == step.stoppedAt.stateId && s.scope == step.stoppedAt.scope
  {
    match step.stoppedAt
    case Paused(id, scope) => Active(id, scope)
    case Finished(o) => Ended(o)
  }

  /** FlowExecutionImpl.resume: an active execution runs the step; one
      that is not active (never started, or ended) is refused by the engine. */
  function Resume(s: Status, step: Step): (r: Result<Status>)
    ensures r.Ok? <==> s.Active?
    ensures r.Ok? ==> r.value == AfterStep(step)
  {
    if s.Active? then Ok(AfterStep(step)) else Err(EngineFailure)
  }

  /** FlowExecutionImpl.setCurrentState: the state is looked up among the
      ids the flow defines (`states`), and the engine throws for an id the
      flow lacks; a fresh execution gets a session whose current state is
      `stateId`, without running entry actions; an active one moves its
      session to `stateId` keeping the flow scope; an ended one has no
      session and the engine throws. */
  function SetCurrentState(s: Status, stateId: string, states: set<string>): (r: Result<Status>)
    ensures r.Ok? <==> !s.Ended? && stateId in states
    ensures r.Err? ==> r.error == EngineFailure
    ensures r.Ok? ==> r.value.Active? && r.value.stateId == stateId
    ensures s.NotStarted? && stateId in states ==> r == Ok(Active(stateId, map[]))
    ensures s.Active? && stateId in states ==> r == Ok(Active(stateId, s.scope))
  {
    match s
    case NotStarted => if stateId in states then Ok(Active(stateId, map[])) else Err(EngineFailure)
    case Active(_, scope) => if stateId in states then Ok(Active(stateId, scope)) else Err(EngineFailure)
    case Ended(_) => Err(EngineFailure)
  }
}
