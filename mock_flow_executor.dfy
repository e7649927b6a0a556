/** MockFlowExecutor: runs one flow definition through a flow execution
    factory fixed at construction. Each start creates a new execution;
    resume needs one; setting the current state creates one only when
    none exists. */
module Executor {
  import opened Common
  import opened Engine

  const ResumeBeforeStart := "Flow must be started before it can be resumed"

  class MockFlowExecutor {
    /** The flow definition every execution is created for. */
    const flowDefinition: Obj
    var flowExecution: Option<Execution>
    /** How many executions the factory has created. */
    var issued: nat

    ghost predicate Valid()
      reads this
    {
      flowExecution.Some? ==> flowExecution.value.serial < issued
    }

    constructor (definition: Obj)
      ensures Valid()
      ensures flowDefinition == definition && flowExecution == None && issued == 0
    {
      flowDefinition := definition;
      flowExecution := None;
      issued := 0;
    }

    /** getFlowExecution: null before any start. */
    function GetFlowExecution(): (r: Option<Execution>)
      reads this
      ensures r == flowExecution
      ensures Valid() && r.Some? ==> r.value.serial < issued
    {
      flowExecution
    }

    /** startFlow: a new execution, started with the step the engine runs. */
    method StartFlow(step: Step)
      requires Valid()
      modifies this
      ensures Valid()
      ensures flowExecution == Some(Execution(old(issued), AfterStep(step)))
      ensures issued == old(issued) + 1
    {
      flowExecution := Some(Execution(issued, NotStarted));
      issued := issued + 1;
      flowExecution := Some(Execution(flowExecution.value.serial, AfterStep(step)));
    }

    /** resumeFlow: refused before any start; otherwise the engine resumes
        the current execution. */
    method ResumeFlow(step: Step) returns (r: Outcome)
      requires Valid()
      modifies this
      ensures Valid()
      ensures old(flowExecution).None? ==> r == Fail(IllegalState(ResumeBeforeStart))
      ensures old(flowExecution).Some? ==>
                (r == Pass <==> Resume(old(flowExecution).value.status, step).Ok?)
      ensures r.Fail? ==> flowExecution == old(flowExecution)
      ensures r == Pass ==> flowExecution == Some(Execution(old(flowExecution).value.serial, AfterStep(step)))
      ensures issued == old(issued)
    {
      if flowExecution.None? {
        return Fail(IllegalState(ResumeBeforeStart));
      }
      var resumed := Resume(flowExecution.value.status, step);
      if resumed.Err? {
        return Fail(resumed.error);
      }
      flowExecution := Some(Execution(flowExecution.value.serial, resumed.value));
      r := Pass;
    }

    /** setCurrentState: create an execution only if there is none, then
        move it to `stateId`, one of `states`, the ids the flow defines. A
        refused move leaves the execution as it was, so one created by
        this call stays not started. */
    method SetCurrentState(stateId: string, states: set<string>) returns (r: Outcome)
      requires Valid()
      modifies this
      ensures Valid()
      ensures old(flowExecution).None? ==>
                && issued == old(issued) + 1
                && r == (if stateId in states then Pass else Fail(EngineFailure))
                && flowExecution == Some(Execution(old(issued), if r == Pass then Active(stateId, map[]) else NotStarted))
      ensures old(flowExecution).Some? ==>
                && issued == old(issued)
                && r == (if old(flowExecution).value.status.Ended? || stateId !in states then Fail(EngineFailure) else Pass)
                && flowExecution.Some? && flowExecution.value.serial == old(flowExecution).value.serial
      ensures old(flowExecution).Some? && r == Pass ==>
                flowExecution.value.status ==
                  Active(stateId, if old(flowExecution).value.status.Active? then old(flowExecution).value.status.scope else map[])
      ensures old(flowExecution).Some? && r.Fail? ==> flowExecution == old(flowExecution)
    {
      if flowExecution.None? {
        flowExecution := Some(Execution(issued, NotStarted));
        issued := issued + 1;
      }
      var moved := Engine.SetCurrentState(flowExecution.value.status, stateId, states);
      if moved.Err? {
        return Fail(moved.error);
      }
      flowExecution := Some(Execution(flowExecution.value.serial, moved.value));
      r := Pass;
    }
  }

  /** Resuming before any start is refused with its fixed message. */
  method ResumeWithoutStart(definition: Obj, step: Step) returns (r: Outcome, e: Option<Execution>)
    ensures r == Fail(IllegalState(ResumeBeforeStart)) && e == None
  {
    var executor := new MockFlowExecutor(definition);
    r := executor.ResumeFlow(step);
    e := executor.GetFlowExecution();
  }

  /** Every start creates a new execution. */
  method StartTwice(definition: Obj, first: Step, second: Step) returns (a: Execution, b: Execution)
    ensures a.serial != b.serial
  {
    var executor := new MockFlowExecutor(definition);
    executor.StartFlow(first);
    a := executor.GetFlowExecution().value;
    executor.StartFlow(second);
    b := executor.GetFlowExecution().value;
  }

  /** setCurrentState reuses an existing execution, keeping its flow
      scope; a state id the flow lacks leaves the execution where it was. */
  method SetStateTwice(definition: Obj, states: set<string>, s: string, t: string) returns (a: Execution, b: Execution)
    ensures a.serial == b.serial
    ensures a.status == (if s in states then Active(s, map[]) else NotStarted)
    ensures b.status == (if t in states then Active(t, map[]) else a.status)
  {
    var executor := new MockFlowExecutor(definition);
    var _ := executor.SetCurrentState(s, states);
    a := executor.GetFlowExecution().value;
    var _ := executor.SetCurrentState(t, states);
    b := executor.GetFlowExecution().value;
  }
}
