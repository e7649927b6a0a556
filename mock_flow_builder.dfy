/** ExternalizedMockFlowBuilder: assembles the flow under test once. The
    build creates a builder context named after the flow resource's id,
    registers the test context's beans, stub sub-flows and messages into
    it, creates the flow builder and assembles the flow. The registrations
    are recorded in the order they happen. */
module MockBuilder {
  import opened Common
  import opened Messaging
  import opened TestContext
  import opened Configuration
  import opened BuilderContext

  /** An assembled flow: `serial` tells apart flows from different builds,
      `log` is everything its build registered, in order. */
  datatype AssembledFlow = AssembledFlow(serial: nat, id: string, log: seq<BuildEvent>)

  /** `events` registers the sub-flows in list order, duplicates included. */
  predicate RegistersSubFlows(events: seq<BuildEvent>, subFlows: seq<FlowHolder>)
  {
    && |events| == |subFlows|
    && (forall i :: 0 <= i < |events| ==> events[i] == SubFlowRegistered(subFlows[i]))
  }

  /** Every (locale, key, value) triple a message store holds. */
  function Triples(all: Store): set<BuildEvent>
  {
    set l, m | l in all && m in all[l] :: MessageRegistered(m.key, l, m.value)
  }

  /** `events` adds each stored triple to the message source exactly once. */
  ghost predicate RegistersMessages(events: seq<BuildEvent>, all: Store)
  {
    && Distinct(events)
    && (forall e :: e in events <==> e in Triples(all))
  }

  /** The whole build log: context, beans, stub flows, messages, builder,
      assembly, in that order. */
  ghost predicate BuildLog(log: seq<BuildEvent>, flowId: string, beans: map<string, Obj>,
                     subFlows: seq<FlowHolder>, all: Store)
  {
    && 3 + |beans| + |subFlows| <= |log|
    && log[0] == ContextCreated(flowId)
    && RegistersBeans(log[1..1 + |beans|], beans)
    && RegistersSubFlows(log[1 + |beans|..1 + |beans| + |subFlows|], subFlows)
    && RegistersMessages(log[1 + |beans| + |subFlows|..|log| - 2], all)
    && log[|log| - 2..] == [BuilderCreated, Assembled]
  }

  /** registerMessages hands the message source one entry per stored
      (locale, key, value) triple, so as many entries as triples. */
  lemma MessageRegistrationCount(events: seq<BuildEvent>, all: Store)
    requires RegistersMessages(events, all)
    ensures |events| == |Triples(all)|
  {
    DistinctCount(events, Triples(all));
  }

  /** With no context to read, a build registers nothing but the context,
      the builder and the assembly. */
  lemma EmptyContextBuildLog(log: seq<BuildEvent>, flowId: string)
    requires BuildLog(log, flowId, map[], [], map[])
    ensures log == [ContextCreated(flowId), BuilderCreated, Assembled]
  {
    var messages := log[1..|log| - 2];
    assert Triples(map[]) == {};
    DistinctCount(messages, {});
    assert log == [log[0]] + messages + log[|log| - 2..];
  }

  /** The log of a build that registered `beanEvents`, then `subFlowEvents`,
      then `messageEvents`. */
  lemma BuildLogOf(id: string, beanEvents: seq<BuildEvent>, subFlowEvents: seq<BuildEvent>,
                   messageEvents: seq<BuildEvent>, beans: map<string, Obj>, subFlows: seq<FlowHolder>, all: Store)
    requires RegistersBeans(beanEvents, beans) && |beanEvents| == |beans|
    requires RegistersSubFlows(subFlowEvents, subFlows)
    requires RegistersMessages(messageEvents, all)
    ensures BuildLog([ContextCreated(id)] + beanEvents + subFlowEvents + messageEvents + [BuilderCreated, Assembled],
                     id, beans, subFlows, all)
  {
    var log := [ContextCreated(id)] + beanEvents + subFlowEvents + messageEvents + [BuilderCreated, Assembled];
    assert log[1..1 + |beans|] == beanEvents;
    assert log[1 + |beans|..1 + |beans| + |subFlows|] == subFlowEvents;
    assert log[1 + |beans| + |subFlows|..|log| - 2] == messageEvents;
  }

  /** registerStubFlows: the sub-flows, in list order. */
  method RegisterStubFlows(subFlows: seq<FlowHolder>) returns (events: seq<BuildEvent>)
    ensures RegistersSubFlows(events, subFlows)
  {
    events := [];
    for i := 0 to |subFlows|
      invariant RegistersSubFlows(events, subFlows[..i])
    {
      events := events + [SubFlowRegistered(subFlows[i])];
    }
    assert subFlows[..|subFlows|] == subFlows;
  }

  /** The triples of the locales in `locales`. */
  function TriplesOf(all: Store, locales: set<Locale>): set<BuildEvent>
  {
    set l, m | l in all && l in locales && m in all[l] :: MessageRegistered(m.key, l, m.value)
  }

  /** registerMessages: for each locale, for each of its messages, one
      entry in the message source. */
  method RegisterMessages(all: Store) returns (events: seq<BuildEvent>)
    ensures RegistersMessages(events, all)
  {
    events := [];
    var pendingLocales := all.Keys;
    while pendingLocales != {}
      invariant pendingLocales <= all.Keys
      invariant Distinct(events)
      invariant forall e :: e in events <==> e in TriplesOf(all, all.Keys - pendingLocales)
      decreases pendingLocales
    {
      var l :| l in pendingLocales;
      ghost var before := events;
      var pending := all[l];
      while pending != {}
        invariant pending <= all[l]
        invariant Distinct(events)
        invariant forall e :: e in events <==>
          e in before || (e.MessageRegistered? && e.locale == l && Message(e.key, e.value) in all[l] - pending)
        decreases pending
      {
        var m :| m in pending;
        assert MessageRegistered(m.key, l, m.value) !in events;
        events := events + [MessageRegistered(m.key, l, m.value)];
        pending := pending - {m};
      }
      pendingLocales := pendingLocales - {l};
      forall e ensures e in events <==> e in TriplesOf(all, all.Keys - pendingLocales) {
        if e in TriplesOf(all, all.Keys - pendingLocales) && e.locale == l {
          assert Message(e.key, e.value) in all[l];
        }
      }
    }
    assert all.Keys - pendingLocales == all.Keys;
    forall e ensures e in TriplesOf(all, all.Keys) <==> e in Triples(all) {
    }
  }

  class ExternalizedMockFlowBuilder {
    const configuration: ExternalizedMockFlowConfiguration
    /** The resource factory's id derivation for a flow resource. */
    const idOf: Resource -> string
    var context: Option<FlowTestContext>
    var flow: Option<AssembledFlow>
    /** How many flows this builder has assembled. */
    var issued: nat

    ghost predicate Valid()
      reads this, configuration
    {
      && configuration.Valid()
      && (flow.Some? ==> flow.value.serial < issued)
    }

    constructor (configuration: ExternalizedMockFlowConfiguration, idOf: Resource -> string)
      requires configuration.Valid()
      ensures Valid()
      ensures this.configuration == configuration && this.idOf == idOf
      ensures context == None && flow == None && issued == 0
    {
      this.configuration := configuration;
      this.idOf := idOf;
      context := None;
      flow := None;
      issued := 0;
    }

    /** The beans the build reads: none without a context. */
    function ContextBeans(): map<string, Obj>
      reads this, if context.Some? then {context.value} else {}
    {
      if context.Some? then context.value.beans else map[]
    }

    function ContextSubFlows(): seq<FlowHolder>
      reads this, if context.Some? then {context.value} else {}
    {
      if context.Some? then context.value.subFlows else []
    }

    function ContextMessages(): Store
      reads this
      reads if context.Some? then {context.value, context.value.messageContainer} else {}
      reads if context.Some? then context.value.messageContainer.messages.Values else {}
    {
      if context.Some? then context.value.GetAllMessages() else map[]
    }

    /** buildFlow: build once, then hand out the cached flow. */
    method BuildFlow() returns (f: AssembledFlow)
      requires Valid()
      modifies this, configuration
      ensures Valid()
      ensures flow == Some(f)
      ensures old(flow).Some? ==> f == old(flow).value && issued == old(issued)
      ensures old(flow).None? ==>
                && configuration.resource.Some?
                && f.serial == old(issued)
                && f.id == idOf(configuration.resource.value)
                && BuildLog(f.log, f.id, old(ContextBeans()), old(ContextSubFlows()), old(ContextMessages()))
      ensures old(flow).Some? ==>
                && configuration.resource == old(configuration.resource)
                && configuration.resourceFactory == old(configuration.resourceFactory)
                && configuration.issued == old(configuration.issued)
      ensures old(configuration.resource).Some? ==> configuration.resource == old(configuration.resource)
      ensures old(flow).None? && old(configuration.resource).None? ==>
                && configuration.resource.value.serial == old(configuration.issued)
                && configuration.resourceFactory == Some(FactoryFrom(old(configuration.resourceFactory), old(configuration.basePath)))
      ensures configuration.basePath == old(configuration.basePath)
      ensures context == old(context)
    {
      if flow.None? {
        BuildInternal();
      }
      f := flow.value;
    }

    /** buildInternal: resource, context, beans, stub flows, messages,
        builder, assembly. */
    method BuildInternal()
      requires Valid()
      modifies this, configuration
      ensures Valid()
      ensures configuration.resource.Some? && flow.Some?
      ensures flow.value.serial == old(issued) && issued == old(issued) + 1
      ensures flow.value.id == idOf(configuration.resource.value)
      ensures BuildLog(flow.value.log, flow.value.id, old(ContextBeans()), old(ContextSubFlows()), old(ContextMessages()))
      ensures old(configuration.resource).Some? ==>
                && configuration.resource == old(configuration.resource)
                && configuration.resourceFactory == old(configuration.resourceFactory)
                && configuration.issued == old(configuration.issued)
      ensures old(configuration.resource).None? ==>
                && configuration.resource.value.serial == old(configuration.issued)
                && configuration.resourceFactory == Some(FactoryFrom(old(configuration.resourceFactory), old(configuration.basePath)))
      ensures configuration.basePath == old(configuration.basePath)
      ensures context == old(context)
    {
      ghost var beans, subFlows, all := ContextBeans(), ContextSubFlows(), ContextMessages();
      var resource := configuration.GetResource();
      var id := idOf(resource);
      var beanEvents: seq<BuildEvent> := [];
      var subFlowEvents: seq<BuildEvent> := [];
      var messageEvents: seq<BuildEvent> := [];
      if context.Some? {
        beanEvents := RegisterBeans(context.value.beans);
        subFlowEvents := RegisterStubFlows(context.value.subFlows);
        messageEvents := RegisterMessages(context.value.GetAllMessages());
      } else {
        assert RegistersMessages([], map[]);
        assert RegistersBeans([], map[]);
      }
      var log := [ContextCreated(id)] + beanEvents + subFlowEvents + messageEvents + [BuilderCreated, Assembled];
      BuildLogOf(id, beanEvents, subFlowEvents, messageEvents, beans, subFlows, all);
      flow := Some(AssembledFlow(issued, id, log));
      issued := issued + 1;
    }

    /** withContext: replace the context (None clears it); returns this. */
    method WithContext(c: Option<FlowTestContext>) returns (self: ExternalizedMockFlowBuilder)
      requires Valid()
      modifies this
      ensures Valid()
      ensures context == c && self == this
      ensures flow == old(flow) && issued == old(issued)
    {
      context := c;
      self := this;
    }
  }

  /** Once built, a flow is returned again even after the context is
      replaced. */
  method ContextChangeAfterBuild(location: Location, idOf: Resource -> string, first: FlowTestContext,
                                 second: FlowTestContext)
    returns (a: AssembledFlow, b: AssembledFlow)
    ensures a == b
  {
    var configuration := new ExternalizedMockFlowConfiguration(location);
    var builder := new ExternalizedMockFlowBuilder(configuration, idOf);
    var _ := builder.WithContext(Some(first));
    a := builder.BuildFlow();
    var _ := builder.WithContext(Some(second));
    b := builder.BuildFlow();
  }

  /** Without a context the flow registers nothing. */
  method BuildWithoutContext(location: Location, idOf: Resource -> string) returns (f: AssembledFlow)
    ensures f.log == [ContextCreated(f.id), BuilderCreated, Assembled]
  {
    var configuration := new ExternalizedMockFlowConfiguration(location);
    var builder := new ExternalizedMockFlowBuilder(configuration, idOf);
    f := builder.BuildFlow();
    EmptyContextBuildLog(f.log, f.id);
  }
}
