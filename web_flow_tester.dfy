/** WebFlowTester: drives one flow read from a main flow resource URL.
    The flow is rebuilt for every new execution unless definition caching
    is switched on; the execution factory is created on first use; the
    outcome of the last execution that ended is kept. */
module Tester {
  import opened Common
  import opened Engine
  import opened BuilderContext

  const ResumeWithoutExecution :=
    "The flow execution to test is [null]; you must start the flow execution before you can resume it!"

  /** A flow assembled by `BuildFlow`; `serial` tells builds apart. */
  datatype TesterFlow = TesterFlow(serial: nat, id: string, log: seq<BuildEvent>)

  /** The flow execution factory; `serial` tells factories apart. */
  datatype ExecutionFactory = ExecutionFactory(serial: nat)

  /** The execution fields after a step: the outcome is taken over only if
      the execution has ended, otherwise the previous one stays. */
  function OutcomeAfter(previous: Option<FlowOutcome>, e: Execution): (r: Option<FlowOutcome>)
    ensures HasEnded(e) ==> r == Some(e.status.outcome)
    ensures !HasEnded(e) ==> r == previous
  {
    if HasEnded(e) then Some(e.status.outcome) else previous
  }

  /** getModelResources may return null; the loop then registers nothing. */
  function ModelsOf(modelResources: Option<seq<FlowResource>>): seq<FlowResource>
  {
    if modelResources.Some? then modelResources.value else []
  }

  class WebFlowTester {
    /** The external form of the main flow resource URL. */
    const mainFlowResource: string
    /** The resource factory's createResource, fixed when the tester is made. */
    const resourceOf: string -> FlowResource
    const flowModelRegistry: FlowModelRegistry
    var cachedFlowDefinition: Option<TesterFlow>
    var cacheFlowDefinition: bool
    var flowExecutionFactory: Option<ExecutionFactory>
    var flowExecution: Option<Execution>
    var flowExecutionOutcome: Option<FlowOutcome>
    /** The flow id of the builder context of the latest build. */
    var flowBuilderContext: Option<string>
    /** How many objects (flows, factories, executions) have been created. */
    var issued: nat

    ghost predicate Valid()
      reads this
    {
      && (cachedFlowDefinition.Some? ==> cachedFlowDefinition.value.serial < issued)
      && (flowExecutionFactory.Some? ==> flowExecutionFactory.value.serial < issued)
      && (flowExecution.Some? ==> flowExecution.value.serial < issued)
    }

    constructor (url: string, resourceOf: string -> FlowResource)
      ensures Valid()
      ensures mainFlowResource == url && this.resourceOf == resourceOf && fresh(flowModelRegistry)
      ensures flowModelRegistry.models == map[]
      ensures cachedFlowDefinition == None && !cacheFlowDefinition
      ensures flowExecutionFactory == None && flowExecution == None && flowExecutionOutcome == None
      ensures flowBuilderContext == None && issued == 0
    {
      mainFlowResource := url;
      this.resourceOf := resourceOf;
      flowModelRegistry := new FlowModelRegistry();
      cachedFlowDefinition := None;
      cacheFlowDefinition := false;
      flowExecutionFactory := None;
      flowExecution := None;
      flowExecutionOutcome := None;
      flowBuilderContext := None;
      issued := 0;
    }

    /** getModelResources: no parent models by default. */
    function GetModelResources(): (r: Option<seq<FlowResource>>)
      ensures r.Some? && ModelsOf(r) == []
    {
      Some([])
    }

    /** getFlowExecutionFactory: created on first use, then kept. */
    method GetFlowExecutionFactory() returns (f: ExecutionFactory)
      requires Valid()
      modifies this
      ensures Valid()
      ensures flowExecutionFactory == Some(f)
      ensures old(flowExecutionFactory).Some? ==> f == old(flowExecutionFactory).value && issued == old(issued)
      ensures old(flowExecutionFactory).None? ==> f.serial == old(issued) && issued == old(issued) + 1
      ensures flowExecution == old(flowExecution) && flowExecutionOutcome == old(flowExecutionOutcome)
      ensures cachedFlowDefinition == old(cachedFlowDefinition) && cacheFlowDefinition == old(cacheFlowDefinition)
      ensures flowBuilderContext == old(flowBuilderContext)
    {
      if flowExecutionFactory.None? {
        flowExecutionFactory := Some(ExecutionFactory(issued));
        issued := issued + 1;
      }
      f := flowExecutionFactory.value;
    }

    /** registerDependentFlowModels: each model resource, by index, into the
        registry; a null array registers nothing. */
    method RegisterDependentFlowModels(modelResources: Option<seq<FlowResource>>) returns (events: seq<BuildEvent>)
      modifies flowModelRegistry
      ensures flowModelRegistry.models == RegisterModels(old(flowModelRegistry.models), ModelsOf(modelResources))
      ensures RegistersModels(events, ModelsOf(modelResources))
    {
      events := [];
      if modelResources.Some? {
        var models := modelResources.value;
        var i := 0;
        while i < |models|
          invariant 0 <= i <= |models|
          invariant flowModelRegistry.models == RegisterModels(old(flowModelRegistry.models), models[..i])
          invariant RegistersModels(events, models[..i])
        {
          assert models[..i + 1][..i] == models[..i];
          flowModelRegistry.RegisterFlowModel(models[i]);
          events := events + [ModelRegistered(models[i])];
          i := i + 1;
        }
        assert models[..|models|] == models;
      }
    }

    /** buildFlow: a new builder context for the main resource, the
        dependent models and then the main model into the registry, and a
        new flow. */
    method BuildFlow() returns (f: TesterFlow)
      requires Valid()
      modifies this, flowModelRegistry
      ensures Valid()
      ensures f.serial == old(issued) && issued == old(issued) + 1
      ensures f.id == resourceOf(mainFlowResource).id
      ensures flowBuilderContext == Some(f.id)
      ensures f.log == [ContextCreated(f.id), ModelRegistered(resourceOf(mainFlowResource)), BuilderCreated, Assembled]
      ensures flowModelRegistry.models == old(flowModelRegistry.models)[f.id := resourceOf(mainFlowResource)]
      ensures flowExecution == old(flowExecution) && flowExecutionOutcome == old(flowExecutionOutcome)
      ensures flowExecutionFactory == old(flowExecutionFactory)
      ensures cachedFlowDefinition == old(cachedFlowDefinition) && cacheFlowDefinition == old(cacheFlowDefinition)
    {
      var resource := resourceOf(mainFlowResource);
      flowBuilderContext := Some(resource.id);
      var modelEvents := RegisterDependentFlowModels(GetModelResources());
      assert modelEvents == [];
      flowModelRegistry.RegisterFlowModel(resource);
      f := TesterFlow(issued, resource.id, [ContextCreated(resource.id)] + modelEvents
                                         + [ModelRegistered(resource), BuilderCreated, Assembled]);
      issued := issued + 1;
    }

    /** Whether getFlowDefinition hands out the cached flow instead of
        building a new one. */
    predicate ReusesDefinition()
      reads this
    {
      cacheFlowDefinition && cachedFlowDefinition.Some?
    }

    /** getFlowDefinition: the cached flow when caching is on and a flow is
        cached; otherwise a new build, cached only when caching is on. */
    method GetFlowDefinition() returns (f: TesterFlow)
      requires Valid()
      modifies this, flowModelRegistry
      ensures Valid()
      ensures old(ReusesDefinition()) ==>
                && f == old(cachedFlowDefinition).value && issued == old(issued)
                && flowModelRegistry.models == old(flowModelRegistry.models)
                && flowBuilderContext == old(flowBuilderContext)
      ensures !old(ReusesDefinition()) ==>
                && f.serial == old(issued) && issued == old(issued) + 1 && f.id == resourceOf(mainFlowResource).id
                && flowModelRegistry.models == old(flowModelRegistry.models)[f.id := resourceOf(mainFlowResource)]
                && flowBuilderContext == Some(f.id)
      ensures cachedFlowDefinition == (if cacheFlowDefinition then Some(f) else old(cachedFlowDefinition))
      ensures cacheFlowDefinition == old(cacheFlowDefinition)
      ensures flowExecution == old(flowExecution) && flowExecutionOutcome == old(flowExecutionOutcome)
      ensures flowExecutionFactory == old(flowExecutionFactory)
    {
      if cacheFlowDefinition && cachedFlowDefinition.Some? {
        return cachedFlowDefinition.value;
      }
      f := BuildFlow();
      if cacheFlowDefinition {
        cachedFlowDefinition := Some(f);
      }
    }

    /** startFlow: a new execution of the flow definition, started; its
        outcome is kept if it ended at once. The factory is fetched first,
        then the definition, with their effects. */
    method StartFlow(step: Step)
      requires Valid()
      modifies this, flowModelRegistry
      ensures Valid()
      ensures flowExecution.Some? && flowExecution.value.status == AfterStep(step)
      ensures flowExecution.value.serial == issued - 1
      ensures issued == old(issued) + (if old(flowExecutionFactory).None? then 1 else 0)
                                    + (if old(ReusesDefinition()) then 0 else 1) + 1
      ensures flowExecutionOutcome == OutcomeAfter(old(flowExecutionOutcome), flowExecution.value)
      ensures old(flowExecutionFactory).Some? ==> flowExecutionFactory == old(flowExecutionFactory)
      ensures old(flowExecutionFactory).None? ==> flowExecutionFactory == Some(ExecutionFactory(old(issued)))
      ensures old(ReusesDefinition()) ==>
                flowModelRegistry.models == old(flowModelRegistry.models) && flowBuilderContext == old(flowBuilderContext)
      ensures !old(ReusesDefinition()) ==>
                && flowModelRegistry.models == old(flowModelRegistry.models)[resourceOf(mainFlowResource).id := resourceOf(mainFlowResource)]
                && flowBuilderContext == Some(resourceOf(mainFlowResource).id)
      ensures cacheFlowDefinition == old(cacheFlowDefinition)
      ensures !cacheFlowDefinition ==> cachedFlowDefinition == old(cachedFlowDefinition)
      ensures old(ReusesDefinition()) ==> cachedFlowDefinition == old(cachedFlowDefinition)
      ensures !old(ReusesDefinition()) && cacheFlowDefinition ==>
                && cachedFlowDefinition.Some? && cachedFlowDefinition.value.id == resourceOf(mainFlowResource).id
                && cachedFlowDefinition.value.serial == issued - 2
    {
      var factory := GetFlowExecutionFactory();
      var definition := GetFlowDefinition();
      flowExecution := Some(Execution(issued, NotStarted));
      issued := issued + 1;
      flowExecution := Some(Execution(flowExecution.value.serial, AfterStep(step)));
      if HasEnded(flowExecution.value) {
        flowExecutionOutcome := Some(flowExecution.value.status.outcome);
      }
    }

    /** resumeFlow: refused without an execution; otherwise the engine
        resumes it and an ended execution's outcome is kept. */
    method ResumeFlow(step: Step) returns (r: Outcome)
      requires Valid()
      modifies this
      ensures Valid()
      ensures old(flowExecution).None? ==> r == Fail(IllegalState(ResumeWithoutExecution))
      ensures old(flowExecution).Some? ==> (r == Pass <==> Resume(old(flowExecution).value.status, step).Ok?)
      ensures r.Fail? ==> flowExecution == old(flowExecution) && flowExecutionOutcome == old(flowExecutionOutcome)
      ensures r == Pass ==> flowExecution == Some(Execution(old(flowExecution).value.serial, AfterStep(step)))
                            && flowExecutionOutcome == OutcomeAfter(old(flowExecutionOutcome), flowExecution.value)
      ensures flowExecutionFactory == old(flowExecutionFactory) && issued == old(issued)
    {
      if flowExecution.None? {
        return Fail(IllegalState(ResumeWithoutExecution));
      }
      var resumed := Resume(flowExecution.value.status, step);
      if resumed.Err? {
        return Fail(resumed.error);
      }
      flowExecution := Some(Execution(flowExecution.value.serial, resumed.value));
      if HasEnded(flowExecution.value) {
        flowExecutionOutcome := Some(flowExecution.value.status.outcome);
      }
      r := Pass;
    }

    /** setCurrentState: a new execution only when there is none, made
        as startFlow makes one (factory, then definition); then the move to
        `stateId`, one of `states`, the ids the flow defines. A refused move
        leaves the execution as it was, so one created by this call stays
        not started. */
    method SetCurrentState(stateId: string, states: set<string>) returns (r: Outcome)
      requires Valid()
      modifies this, flowModelRegistry
      ensures Valid()
      ensures old(flowExecution).None? ==>
                && r == (if stateId in states then Pass else Fail(EngineFailure))
                && flowExecution.Some? && flowExecution.value.serial + 1 == issued
                && flowExecution.value.status == (if r == Pass then Active(stateId, map[]) else NotStarted)
                && flowExecutionFactory.Some?
                && issued == old(issued) + (if old(flowExecutionFactory).None? then 1 else 0)
                                         + (if old(ReusesDefinition()) then 0 else 1) + 1
                && (old(flowExecutionFactory).None? ==> flowExecutionFactory == Some(ExecutionFactory(old(issued))))
                && (!old(ReusesDefinition()) ==>
                      && flowModelRegistry.models == old(flowModelRegistry.models)[resourceOf(mainFlowResource).id := resourceOf(mainFlowResource)]
                      && flowBuilderContext == Some(resourceOf(mainFlowResource).id))
                && (!old(ReusesDefinition()) && cacheFlowDefinition ==>
                      cachedFlowDefinition.Some? && cachedFlowDefinition.value.id == resourceOf(mainFlowResource).id)
      ensures old(flowExecution).Some? ==>
                && r == (if old(flowExecution).value.status.Ended? || stateId !in states then Fail(EngineFailure) else Pass)
                && flowExecution.Some? && flowExecution.value.serial == old(flowExecution).value.serial
                && issued == old(issued) && flowBuilderContext == old(flowBuilderContext)
                && flowModelRegistry.models == old(flowModelRegistry.models)
      ensures old(flowExecution).Some? && r == Pass ==>
                flowExecution.value.status ==
                  Active(stateId, if old(flowExecution).value.status.Active? then old(flowExecution).value.status.scope else map[])
      ensures old(flowExecution).Some? && r.Fail? ==> flowExecution == old(flowExecution)
      ensures old(flowExecutionFactory).Some? ==> flowExecutionFactory == old(flowExecutionFactory)
      ensures old(flowExecution).Some? || old(ReusesDefinition()) ==>
                cachedFlowDefinition == old(cachedFlowDefinition) && flowBuilderContext == old(flowBuilderContext)
                && flowModelRegistry.models == old(flowModelRegistry.models)
      ensures !cacheFlowDefinition ==> cachedFlowDefinition == old(cachedFlowDefinition)
      ensures cacheFlowDefinition == old(cacheFlowDefinition)
      ensures flowExecutionOutcome == old(flowExecutionOutcome)
    {
      if flowExecution.None? {
        var factory := GetFlowExecutionFactory();
        var definition := GetFlowDefinition();
        flowExecution := Some(Execution(issued, NotStarted));
        issued := issued + 1;
      }
      var moved := Engine.SetCurrentState(flowExecution.value.status, stateId, states);
      if moved.Err? {
        return Fail(moved.error);
      }
      flowExecution := Some(Execution(flowExecution.value.serial, moved.value));
      r := Pass;
    }
  }

  /** With caching never switched on, every definition request builds a
      new flow. */
  method EveryRequestRebuilds(url: string, resourceOf: string -> FlowResource) returns (a: TesterFlow, b: TesterFlow)
    ensures a != b && a.id == b.id
  {
    var tester := new WebFlowTester(url, resourceOf);
    a := tester.GetFlowDefinition();
    b := tester.GetFlowDefinition();
  }

  /** A resume that leaves the execution active keeps the outcome of the
      earlier, ended execution. */
  method OutcomeSurvivesLaterRun(url: string, resourceOf: string -> FlowResource, o: FlowOutcome,
                                  states: set<string>, s: string)
    returns (kept: Option<FlowOutcome>)
    ensures kept == Some(o)
  {
    var tester := new WebFlowTester(url, resourceOf);
    tester.StartFlow(Step(Finished(o), None, []));
    var _ := tester.SetCurrentState(s, states);
    tester.StartFlow(Step(Paused(s, map[]), None, []));
    kept := tester.flowExecutionOutcome;
  }

  /** Resuming before any start is refused with its fixed message. */
  method ResumeBeforeStart(url: string, resourceOf: string -> FlowResource, step: Step) returns (r: Outcome)
    ensures r == Fail(IllegalState(ResumeWithoutExecution))
  {
    var tester := new WebFlowTester(url, resourceOf);
    r := tester.ResumeFlow(step);
  }
}
