/** FlowDefinitionBuilder: builds a flow definition from a main flow
    resource, parent flow resources and beans. Parents and beans are
    collected first; every build registers the beans into a new builder
    context, the parents and then the main flow into the flow model
    registry, and assembles a new flow. */
module DefinitionBuilder {
  import opened Common
  import opened BuilderContext

  /** A flow assembled by `Build`: `serial` tells apart different builds;
      `log` is what the build registered, in order. */
  datatype BuiltFlow = BuiltFlow(serial: nat, id: string, log: seq<BuildEvent>)

  /** The order of one build: context, beans, parent models in insertion
      order, the main model, builder, assembly. */
  ghost predicate DefinitionBuildLog(log: seq<BuildEvent>, main: FlowResource, beans: map<string, Obj>,
                                     parents: seq<FlowResource>)
  {
    && |log| == 4 + |beans| + |parents|
    && log[0] == ContextCreated(main.id)
    && RegistersBeans(log[1..1 + |beans|], beans)
    && RegistersModels(log[1 + |beans|..1 + |beans| + |parents|], parents)
    && log[1 + |beans| + |parents|..] == [ModelRegistered(main), BuilderCreated, Assembled]
  }

  class FlowDefinitionBuilder {
    const flowDefinitionResource: FlowResource
    const flowModelRegistry: FlowModelRegistry
    var dependentFlowModels: seq<FlowResource>
    var dependentBeans: map<string, Obj>
    /** How many flows this builder has assembled. */
    var issued: nat

    constructor (resource: FlowResource)
      ensures flowDefinitionResource == resource && fresh(flowModelRegistry)
      ensures flowModelRegistry.models == map[]
      ensures dependentFlowModels == [] && dependentBeans == map[] && issued == 0
    {
      flowDefinitionResource := resource;
      flowModelRegistry := new FlowModelRegistry();
      dependentFlowModels := [];
      dependentBeans := map[];
      issued := 0;
    }

    /** getDependentFlowModels: read-only, in insertion order. */
    function GetDependentFlowModels(): (r: seq<FlowResource>)
      reads this
      ensures r == dependentFlowModels
    {
      dependentFlowModels
    }

    /** getDependentBeans: read-only. */
    function GetDependentBeans(): (r: map<string, Obj>)
      reads this
      ensures r == dependentBeans
    {
      dependentBeans
    }

    /** addParent: append; returns this. */
    method AddParent(parent: FlowResource) returns (self: FlowDefinitionBuilder)
      modifies this
      ensures self == this
      ensures dependentFlowModels == old(dependentFlowModels) + [parent]
      ensures dependentBeans == old(dependentBeans) && issued == old(issued)
    {
      dependentFlowModels := dependentFlowModels + [parent];
      self := this;
    }

    /** addBean(name, bean): put, overwriting; returns this. */
    method AddBean(name: string, bean: Obj) returns (self: FlowDefinitionBuilder)
      modifies this
      ensures self == this
      ensures dependentBeans == old(dependentBeans)[name := bean]
      ensures dependentFlowModels == old(dependentFlowModels) && issued == old(issued)
    {
      dependentBeans := dependentBeans[name := bean];
      self := this;
    }

    /** addBean(bean): the name comes from bean-naming conventions. */
    method AddBeanByConvention(bean: Obj, nameOf: Obj -> string) returns (self: FlowDefinitionBuilder)
      modifies this
      ensures self == this
      ensures dependentBeans == old(dependentBeans)[nameOf(bean) := bean]
      ensures dependentFlowModels == old(dependentFlowModels) && issued == old(issued)
    {
      self := AddBean(nameOf(bean), bean);
    }

    /** build: not cached, every call assembles a new flow. The beans go
        into a new builder context, then the parents and the main flow into
        the registry, the main flow last, so it wins over a parent with the
        same id. */
    method Build() returns (f: BuiltFlow)
      modifies this, flowModelRegistry
      ensures f.serial == old(issued) && issued == old(issued) + 1
      ensures f.id == flowDefinitionResource.id
      ensures DefinitionBuildLog(f.log, flowDefinitionResource, dependentBeans, dependentFlowModels)
      ensures flowModelRegistry.models
           == RegisterModels(old(flowModelRegistry.models), dependentFlowModels)[flowDefinitionResource.id := flowDefinitionResource]
      ensures dependentFlowModels == old(dependentFlowModels) && dependentBeans == old(dependentBeans)
    {
      var beanEvents := RegisterBeans(dependentBeans);
      var modelEvents := RegisterFlowModels(flowModelRegistry, dependentFlowModels);
      flowModelRegistry.RegisterFlowModel(flowDefinitionResource);
      var log := [ContextCreated(flowDefinitionResource.id)] + beanEvents + modelEvents
               + [ModelRegistered(flowDefinitionResource), BuilderCreated, Assembled];
      assert log[1..1 + |dependentBeans|] == beanEvents;
      assert log[1 + |dependentBeans|..1 + |dependentBeans| + |dependentFlowModels|] == modelEvents;
      f := BuiltFlow(issued, flowDefinitionResource.id, log);
      issued := issued + 1;
    }
  }

  /** Two builds from one builder are two different flows with the same id. */
  method BuildIsNotCached(resource: FlowResource) returns (first: BuiltFlow, second: BuiltFlow)
    ensures first != second && first.id == second.id == resource.id
  {
    var builder := new FlowDefinitionBuilder(resource);
    first := builder.Build();
    second := builder.Build();
  }

  /** Parents come back in insertion order and a re-added bean name keeps
      only the newer bean. */
  method ParentsAndBeans(resource: FlowResource, a: FlowResource, b: FlowResource, name: string, x: Obj, y: Obj)
    returns (parents: seq<FlowResource>, beans: map<string, Obj>)
    ensures parents == [a, b] && beans == map[name := y]
  {
    var builder := new FlowDefinitionBuilder(resource);
    var _ := builder.AddParent(a);
    var _ := builder.AddParent(b);
    var _ := builder.AddBean(name, x);
    var _ := builder.AddBean(name, y);
    parents := builder.GetDependentFlowModels();
    beans := builder.GetDependentBeans();
  }
}
