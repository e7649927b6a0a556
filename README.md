# spring-webflow-testing, modelled in Dafny

spring-webflow-testing is a Java library for unit-testing Spring Web Flow
flows. A test assembles the flow under test from an XML resource. It
registers beans, stub sub-flows and locale-keyed messages through a
`FlowTestContext`, then drives the flow through a `MockFlowTester`
(start, set event, resume, inspect). A `MockView` does data binding and
validation instead of rendering a page.

The library delegates everything algorithmic to the Spring engine:
executing the state graph, parsing XML, evaluating expressions and
converting types. What the library owns is bookkeeping, and that is
what this project models:

- registration containers;
- lazy caches and one-time snapshots;
- the guards, fixed error messages and field updates of the testers and
  executors;
- the decisions of the mock view.

Each Java file is a Dafny module, and classes whose fields change stay
classes. Java `null` is `Option`. A thrown exception is an `Err` or
`Fail` value carrying the exception's message. Foreign calls are
parameters:

- bean naming by convention (`nameOf`);
- resource id derivation (`idOf`, `resourceOf`);
- what the engine reports after a start or a resume (a `Step`: where the
  execution stopped, the redirect it requested, the messages at each
  view rendering).

A new Java object is a value stamped with a serial number drawn from a
per-owner counter (`issued`). The exception is `MessageContainer.Messages`,
whose identity (the same object handed out again) is part of the
contract, so it is a real Dafny object.

Modules:

- `Common`: Option, Result, the exceptions, opaque objects.
- `Engine`: the abstract execution state and the engine's
  `setCurrentState` and `resume` refusals.
- `Messaging`, `TestContext`, `Stub`, `Configuration`,
  `BuilderContext` (bean and flow-model registration shared by the
  builders), `MockBuilder`, `DefinitionBuilder`, `View`,
  `FlowTester`, `Executor`, `Tester`.

Methods named after a scenario (such as `Stub.InputsAreHandedOutOnce`)
state, as a verified contract, one of the behaviours the library's tests
exercise.

## Model

| member | source | states |
|---|---|---|
| Messaging.Pairs | src/main/java/de/lhug/webflowtester/builder/MessageContainer.java:161-166 | the messages of a key/value map: exactly one Message(k, v) per entry, and nothing else |
| Messaging.PairsCount | src/main/java/de/lhug/webflowtester/builder/MessageContainer.java:90-94 | value equality of (key, value) never merges two entries of one map: n entries give n messages |
| Messaging.PairsInsert | src/main/java/de/lhug/webflowtester/builder/MessageContainer.java:163-165 | one more entry adds exactly its own message |
| Messaging.PutIfAbsent | src/main/java/de/lhug/webflowtester/builder/MessageContainer.java:144-147 | getOrInitMessagesFor: the locale becomes a key, other locales keep their sets, an existing set is untouched |
| Messaging.PutIfAbsentIsUpdate | src/main/java/de/lhug/webflowtester/builder/MessageContainer.java:145 | putIfAbsent is an update of the locale to what it already holds |
| Messaging.PutIfAbsentIdempotent | src/main/java/de/lhug/webflowtester/builder/MessageContainer.java:144-147 | a second getMessages(l) changes nothing |
| Messaging.WithMessage | src/main/java/de/lhug/webflowtester/builder/MessageContainer.java:139-142 | addMessage: the locale's set gains Message(k, v); the locale becomes a key; other locales unchanged |
| Messaging.WithMessageIdempotent | src/main/java/de/lhug/webflowtester/builder/MessageContainer.java:80-83 | adding a pair that is already there leaves a single copy |
| Messaging.WithMessages | src/main/java/de/lhug/webflowtester/builder/MessageContainer.java:161-166 | addMessages: the locale's set becomes old set ∪ Pairs(values); other locales unchanged |
| Messaging.PairsAtMembers | src/main/java/de/lhug/webflowtester/builder/MessageContainer.java:163-165 | a message is added by a key sequence iff its key is in the sequence and its value is the map's value |
| Messaging.WithEachAdds | src/main/java/de/lhug/webflowtester/builder/MessageContainer.java:139-142 | adding entries one at a time adds exactly their messages to the locale's set |
| Messaging.AddingEachKeyIsBulkAdd | src/main/java/de/lhug/webflowtester/builder/MessageContainer.java:139-166 | addMessages(l, m) equals addMessage(l, k, m[k]) for every key, in any order |
| Messaging.Messages.AddMessage | src/main/java/de/lhug/webflowtester/builder/MessageContainer.java:80-83 | Messages.addMessage is set insertion and returns this for chaining |
| Messaging.Messages.AddAll | src/main/java/de/lhug/webflowtester/builder/MessageContainer.java:163-165 | the entry loop adds exactly Pairs(values) to the store |
| Messaging.MessageContainer.GetAllMessages | src/main/java/de/lhug/webflowtester/builder/MessageContainer.java:109-111 | a read-only view: one set per stored locale, that locale's current messages |
| Messaging.MessageContainer.GetMessages | src/main/java/de/lhug/webflowtester/builder/MessageContainer.java:123-147 | never null; an absent locale gets a fresh empty Messages stored under it; a present one gets the same object and the map is unchanged |
| Messaging.MessageContainer.AddMessage | src/main/java/de/lhug/webflowtester/builder/MessageContainer.java:139-142 | the abstract content becomes WithMessage(old, l, Message(k, v)); every old locale keeps its object |
| Messaging.MessageContainer.AddMessages | src/main/java/de/lhug/webflowtester/builder/MessageContainer.java:161-166 | the abstract content becomes WithMessages(old, l, values); every old locale keeps its object |
| TestContext.NamesOfSnoc | src/main/java/de/lhug/webflowtester/builder/configuration/FlowTestContext.java:42-46 | one more offer adds exactly its conventional name |
| TestContext.RegisterAllKeys | src/main/java/de/lhug/webflowtester/builder/configuration/FlowTestContext.java:42-46 | registering the offers defines exactly the old names plus every offer's conventional name |
| TestContext.RegisterAllLastWins | src/main/java/de/lhug/webflowtester/builder/configuration/FlowTestContext.java:42-46 | an offer is the bean under its name unless a later offer takes that name |
| TestContext.RegisterAllKeepsOthers | src/main/java/de/lhug/webflowtester/builder/configuration/FlowTestContext.java:42-46 | a name that no offer takes keeps its old bean |
| TestContext.FlowTestContext.constructor | src/main/java/de/lhug/webflowtester/builder/configuration/FlowTestContext.java:26-31 | a fresh context has no beans, no sub-flows and no messages |
| TestContext.FlowTestContext.WithOffers | src/main/java/de/lhug/webflowtester/builder/configuration/FlowTestContext.java:42-46 | the varargs constructor: the offers added by convention, in order |
| TestContext.FlowTestContext.GetBeans | src/main/java/de/lhug/webflowtester/builder/configuration/FlowTestContext.java:119-121 | the registered beans, agreeing with containsBeanWithName on names and with containsBean on values |
| TestContext.FlowTestContext.GetSubFlows | src/main/java/de/lhug/webflowtester/builder/configuration/FlowTestContext.java:132-134 | the registered sub-flows in insertion order |
| TestContext.FlowTestContext.ContainsBean | src/main/java/de/lhug/webflowtester/builder/configuration/FlowTestContext.java:59-61 | true iff some registered bean equals the offer, under any name |
| TestContext.FlowTestContext.ContainsBeanWithName | src/main/java/de/lhug/webflowtester/builder/configuration/FlowTestContext.java:74-76 | true iff a bean is registered under the name |
| TestContext.FlowTestContext.AddBean | src/main/java/de/lhug/webflowtester/builder/configuration/FlowTestContext.java:108-121 | put, overwriting; afterwards the name is known, getBeans maps it to the offer, and containsBean holds |
| TestContext.FlowTestContext.AddBeanByConvention | src/main/java/de/lhug/webflowtester/builder/configuration/FlowTestContext.java:88-90 | put under the conventional name |
| TestContext.FlowTestContext.AddSubFlow | src/main/java/de/lhug/webflowtester/builder/configuration/FlowTestContext.java:144-146 | appends at the end; beans unchanged |
| TestContext.FlowTestContext.GetMessages | src/main/java/de/lhug/webflowtester/builder/configuration/FlowTestContext.java:157-159 | the container's getMessages; beans and sub-flows unchanged |
| TestContext.FlowTestContext.AddMessage | src/main/java/de/lhug/webflowtester/builder/configuration/FlowTestContext.java:169-171 | the container's addMessage; beans and sub-flows unchanged |
| TestContext.FlowTestContext.AddMessages | src/main/java/de/lhug/webflowtester/builder/configuration/FlowTestContext.java:181-183 | the container's addMessages; beans and sub-flows unchanged |
| TestContext.AddMessageToFreshContext | src/main/java/de/lhug/webflowtester/builder/configuration/FlowTestContext.java:169-192 | one addMessage on a fresh context: exactly one locale, holding exactly that message |
| TestContext.AddSameNameTwice | src/main/java/de/lhug/webflowtester/builder/configuration/FlowTestContext.java:108-110 | re-adding a name keeps one entry with the newer bean |
| TestContext.AddSubFlowsInOrder | src/main/java/de/lhug/webflowtester/builder/configuration/FlowTestContext.java:132-146 | sub-flows come back in insertion order, duplicates included |
| Stub.ConstructorCheck | src/main/java/de/lhug/webflowtester/stub/StubFlow.java:49-51 | passes iff both ids are given; a null flow id is reported first, then a null end-state id, each with its message |
| Stub.RefreshedEndsInCurrentState | src/main/java/de/lhug/webflowtester/stub/StubFlow.java:73-87 | the definition handed out has the current end state as its only outcome and the stub's flow id |
| Stub.RefreshedIsStable | src/main/java/de/lhug/webflowtester/stub/StubFlow.java:74-86 | asking again with the end state unchanged returns the same definition |
| Stub.RefreshedRebuildsOnChange | src/main/java/de/lhug/webflowtester/stub/StubFlow.java:74-76 | after an end-state change the cache is replaced by a new definition |
| Stub.Wrap32 | src/main/java/de/lhug/webflowtester/stub/StubFlow.java:23 | Java int arithmetic: in range and congruent modulo 2^32 |
| Stub.StringHash | src/main/java/de/lhug/webflowtester/stub/StubFlow.java:23 | String.hashCode stays a Java int |
| Stub.StubFlow.constructor | src/main/java/de/lhug/webflowtester/stub/StubFlow.java:49-54 | both ids stored; empty input and output maps; no cached flow |
| Stub.StubFlow.Create | src/main/java/de/lhug/webflowtester/stub/StubFlow.java:49-54 | a null id throws an illegal-argument error with its message; otherwise a fresh stub |
| Stub.StubFlow.SetEndStateId | src/main/java/de/lhug/webflowtester/stub/StubFlow.java:66-69 | null is rejected and nothing changes; otherwise the end state becomes the argument |
| Stub.StubFlow.GetFlowDefinition | src/main/java/de/lhug/webflowtester/stub/StubFlow.java:73-87 | the cache, rebuilt when missing or when its outcome is not the current end state; it always ends in the current end state |
| Stub.StubFlow.Run | src/main/java/de/lhug/webflowtester/stub/StubFlow.java:76-84 | the engine running a stub definition: inputs merged into the captured inputs; the outcome is the end state with the output attributes current at that moment |
| Stub.StubFlow.GetInputAttributes | src/main/java/de/lhug/webflowtester/stub/StubFlow.java:98-103 | a copy of the captured inputs, which are then cleared |
| Stub.StubFlow.AddOutputAttribute | src/main/java/de/lhug/webflowtester/stub/StubFlow.java:114-116 | put into the output attributes |
| Stub.StubFlow.SetOutputAttributes | src/main/java/de/lhug/webflowtester/stub/StubFlow.java:32-33 | replaces the whole output map |
| Stub.StubFlow.Equals | src/main/java/de/lhug/webflowtester/stub/StubFlow.java:23 | equal iff flow id and end-state id are equal |
| Stub.StubFlow.HashCode | src/main/java/de/lhug/webflowtester/stub/StubFlow.java:23 | the generated hash over the same two fields, a Java int |
| Stub.EqualStubsHashAlike | src/main/java/de/lhug/webflowtester/stub/StubFlow.java:23 | equal stubs have equal hashes, whatever their maps and caches |
| Stub.InputsAreHandedOutOnce | src/main/java/de/lhug/webflowtester/stub/StubFlow.java:76-103 | after a run, the first read gives the inputs and the second is empty |
| Stub.OutputAddedAfterAssembly | src/main/java/de/lhug/webflowtester/stub/StubFlow.java:81-116 | an output attribute added after the definition was built reaches the outcome |
| Stub.RebuildOnEndStateChange | src/main/java/de/lhug/webflowtester/stub/StubFlow.java:66-87 | repeated calls share one definition; after an end-state change the new definition ends there, and it is new iff the end state differs |
| Configuration.MapperCall | src/main/java/de/lhug/webflowtester/builder/configuration/ExternalizedMockFlowConfiguration.java:143-162 | URL → createResource(externalForm), File → file resource of the absolute path, String → class-path resource, anything else → createResource(toString) |
| Configuration.FactoryFrom | src/main/java/de/lhug/webflowtester/builder/configuration/ExternalizedMockFlowConfiguration.java:46-54 | the existing factory, or a new one with the base path held at that moment |
| Configuration.ExternalizedMockFlowConfiguration.constructor | src/main/java/de/lhug/webflowtester/builder/configuration/ExternalizedMockFlowConfiguration.java:24-31 | location stored; no resource, no factory, no base path |
| Configuration.ExternalizedMockFlowConfiguration.GetResourceFactory | src/main/java/de/lhug/webflowtester/builder/configuration/ExternalizedMockFlowConfiguration.java:46-54 | created once, on first use, with the base path held then; later calls return it unchanged |
| Configuration.ExternalizedMockFlowConfiguration.CreateResourceFor | src/main/java/de/lhug/webflowtester/builder/configuration/ExternalizedMockFlowConfiguration.java:98-101 | not cached: each call dispatches afresh and yields a new resource from the factory |
| Configuration.ExternalizedMockFlowConfiguration.GetResource | src/main/java/de/lhug/webflowtester/builder/configuration/ExternalizedMockFlowConfiguration.java:73-78 | createResource(location) on the first call only; later calls return the cached resource |
| Configuration.ExternalizedMockFlowConfiguration.WithBasePath | src/main/java/de/lhug/webflowtester/builder/configuration/ExternalizedMockFlowConfiguration.java:186-188 | only stores the path; factory and resource unchanged |
| Configuration.XmlMockFlowConfiguration.constructor | src/main/java/de/lhug/webflowtester/builder/configuration/XMLMockFlowConfiguration.java:29-31 | a fresh base configuration for the location; no offers, no snapshot |
| Configuration.XmlMockFlowConfiguration.AddParentFlow | src/main/java/de/lhug/webflowtester/builder/configuration/XMLMockFlowConfiguration.java:41-43 | appends the offer |
| Configuration.XmlMockFlowConfiguration.GetFlowResources | src/main/java/de/lhug/webflowtester/builder/configuration/XMLMockFlowConfiguration.java:61-68 | the first call maps every offer in order, one new resource each, and keeps the list; later calls return it unchanged; with no offers the factory is not touched |
| Configuration.XmlMockFlowConfiguration.GetResource | src/main/java/de/lhug/webflowtester/builder/configuration/ExternalizedMockFlowConfiguration.java:73-78 | the inherited getResource |
| Configuration.XmlMockFlowConfiguration.WithBasePath | src/main/java/de/lhug/webflowtester/builder/configuration/ExternalizedMockFlowConfiguration.java:186-188 | the inherited withBasePath |
| Configuration.ResourceIsResolvedOnce | src/main/java/de/lhug/webflowtester/builder/configuration/ExternalizedMockFlowConfiguration.java:73-78 | two getResource calls give one resource, mapped from the location |
| Configuration.CreateResourceIsNotCached | src/main/java/de/lhug/webflowtester/builder/configuration/ExternalizedMockFlowConfiguration.java:98-101 | the same offer twice gives two different resources for the same call |
| Configuration.BasePathIsCapturedOnce | src/main/java/de/lhug/webflowtester/builder/configuration/ExternalizedMockFlowConfiguration.java:46-54 | a base path set before the factory exists applies; one set later is ignored |
| Configuration.SnapshotIgnoresLaterParents | src/main/java/de/lhug/webflowtester/builder/configuration/XMLMockFlowConfiguration.java:41-67 | a parent added after the first getFlowResources never shows up |
| Configuration.NoParentsNoResources | src/main/java/de/lhug/webflowtester/builder/configuration/XMLMockFlowConfiguration.java:61-67 | with no parents the result is empty |
| BuilderContext.DistinctCount | src/main/java/de/lhug/webflowtester/builder/ExternalizedMockFlowBuilder.java:162-171 | a duplicate-free registration sequence is as long as the set it registers |
| BuilderContext.RegisterBeans | src/main/java/de/lhug/webflowtester/builder/ExternalizedMockFlowBuilder.java:108-112 | registerBeans: every bean of the map once, nothing else |
| BuilderContext.FlowModelRegistry.RegisterFlowModel | src/main/java/de/lhug/webflow/builder/FlowDefinitionBuilder.java:72-75 | registering an id replaces its earlier model |
| BuilderContext.RegisterModelsLastWins | src/main/java/de/lhug/webflow/builder/FlowDefinitionBuilder.java:68-75 | after registering in order, each id holds the last model with that id |
| BuilderContext.RegisterModelsKeepsOthers | src/main/java/de/lhug/webflow/builder/FlowDefinitionBuilder.java:68-75 | ids that no model uses keep their old model |
| BuilderContext.RegisterFlowModels | src/main/java/de/lhug/webflow/builder/FlowDefinitionBuilder.java:68-70 | each model, in list order, into the registry |
| MockBuilder.MessageRegistrationCount | src/main/java/de/lhug/webflowtester/builder/ExternalizedMockFlowBuilder.java:162-171 | registerMessages makes exactly one entry per (locale, key, value) triple |
| MockBuilder.EmptyContextBuildLog | src/main/java/de/lhug/webflowtester/builder/ExternalizedMockFlowBuilder.java:72-80 | with no context a build registers only the context, the builder and the assembly |
| MockBuilder.BuildLogOf | src/main/java/de/lhug/webflowtester/builder/ExternalizedMockFlowBuilder.java:72-80 | step order: context named by the resource id, beans, stub flows, messages, builder, assembly |
| MockBuilder.RegisterStubFlows | src/main/java/de/lhug/webflowtester/builder/ExternalizedMockFlowBuilder.java:133-137 | the sub-flows in list order, duplicates included |
| MockBuilder.RegisterMessages | src/main/java/de/lhug/webflowtester/builder/ExternalizedMockFlowBuilder.java:162-171 | nested loops: each stored triple added exactly once |
| MockBuilder.ExternalizedMockFlowBuilder.constructor | src/main/java/de/lhug/webflowtester/builder/ExternalizedMockFlowBuilder.java:37-44 | configuration stored; no context; no flow |
| MockBuilder.ExternalizedMockFlowBuilder.BuildFlow | src/main/java/de/lhug/webflowtester/builder/ExternalizedMockFlowBuilder.java:65-70 | builds only while no flow is cached, with the build log of the context; afterwards returns the cached flow and leaves the configuration unchanged; an already resolved resource is kept, and the base path is never changed |
| MockBuilder.ExternalizedMockFlowBuilder.BuildInternal | src/main/java/de/lhug/webflowtester/builder/ExternalizedMockFlowBuilder.java:72-80 | the resource, then the build log over the context's beans, sub-flows and messages, in order |
| MockBuilder.ExternalizedMockFlowBuilder.WithContext | src/main/java/de/lhug/webflowtester/builder/ExternalizedMockFlowBuilder.java:201-204 | replaces the context (null clears it), returns this, leaves a cached flow alone |
| MockBuilder.ContextChangeAfterBuild | src/main/java/de/lhug/webflowtester/builder/ExternalizedMockFlowBuilder.java:65-70 | a context set after the build does not change the flow returned |
| MockBuilder.BuildWithoutContext | src/main/java/de/lhug/webflowtester/builder/ExternalizedMockFlowBuilder.java:108-112 | without a context nothing is registered |
| DefinitionBuilder.FlowDefinitionBuilder.constructor | src/main/java/de/lhug/webflow/builder/FlowDefinitionBuilder.java:26-33 | resource stored; a fresh empty registry; no parents, no beans |
| DefinitionBuilder.FlowDefinitionBuilder.GetDependentFlowModels | src/main/java/de/lhug/webflow/builder/FlowDefinitionBuilder.java:35-37 | the parents added so far, in insertion order |
| DefinitionBuilder.FlowDefinitionBuilder.GetDependentBeans | src/main/java/de/lhug/webflow/builder/FlowDefinitionBuilder.java:39-41 | the beans added so far, by name |
| DefinitionBuilder.FlowDefinitionBuilder.AddParent | src/main/java/de/lhug/webflow/builder/FlowDefinitionBuilder.java:77-80 | appends and returns this |
| DefinitionBuilder.FlowDefinitionBuilder.AddBean | src/main/java/de/lhug/webflow/builder/FlowDefinitionBuilder.java:82-85 | puts, overwriting, and returns this |
| DefinitionBuilder.FlowDefinitionBuilder.AddBeanByConvention | src/main/java/de/lhug/webflow/builder/FlowDefinitionBuilder.java:87-90 | puts under the conventional name |
| DefinitionBuilder.FlowDefinitionBuilder.Build | src/main/java/de/lhug/webflow/builder/FlowDefinitionBuilder.java:43-75 | a new flow each call; beans, then parent models in order, then the main model under its id, which wins over a parent with the same id |
| DefinitionBuilder.BuildIsNotCached | src/main/java/de/lhug/webflow/builder/FlowDefinitionBuilder.java:43-54 | two builds are two different flows with the same id |
| DefinitionBuilder.ParentsAndBeans | src/main/java/de/lhug/webflow/builder/FlowDefinitionBuilder.java:77-85 | parents in insertion order; a re-added bean name keeps the newer bean |
| View.EventId | src/main/java/de/lhug/webflowtester/builder/services/view/MockView.java:134-136 | the _eventId parameter value, null without the parameter; the read throws exactly when a file is stored under _eventId |
| View.ModelObject | src/main/java/de/lhug/webflowtester/builder/services/view/MockView.java:138-148 | a model exists iff the model attribute evaluates to a non-null value; a failed evaluation gives none |
| View.FirstValue | src/main/java/de/lhug/webflowtester/builder/services/view/MockView.java:134-136 | a single string value as it is, the first element of a non-empty string array, null for an empty array; a file is not a string and the read throws |
| View.ShouldBind | src/main/java/de/lhug/webflowtester/builder/services/view/MockView.java:91-93 | binding is skipped iff a matching transition says bind=false; no transition or no flag means bind |
| View.ValidationAttribute | src/main/java/de/lhug/webflowtester/builder/services/view/MockView.java:175-179 | the transition's validate flag, possibly absent; null without a transition |
| View.ShouldValidate | src/main/java/de/lhug/webflowtester/builder/services/view/MockView.java:167-173 | validation is skipped iff a matching transition says validate=false; no transition or no attribute means validate |
| View.IsBindingError | src/main/java/de/lhug/webflowtester/builder/services/view/MockView.java:105-107 | only error results are binding errors; one with code propertyNotFound is not, one with a null code is |
| View.BindingErrors | src/main/java/de/lhug/webflowtester/builder/services/view/MockView.java:101-107 | exactly the results that are errors with a code other than propertyNotFound, each as often as it occurs among the results |
| View.BindingErrorsOfConcat | src/main/java/de/lhug/webflowtester/builder/services/view/MockView.java:101-103 | the filter distributes over concatenation, so binding errors keep the order of the results |
| View.ErrorMessage | src/main/java/de/lhug/webflowtester/builder/services/view/MockView.java:154-158 | an error message reading code + " on " + field, a null code printed as "null" |
| View.ErrorMessages | src/main/java/de/lhug/webflowtester/builder/services/view/MockView.java:109-114 | one message per binding error, in order |
| View.ValidationOnlyAfterBinding | src/main/java/de/lhug/webflowtester/builder/services/view/MockView.java:80-89 | validation output is appended after the binding errors exactly on the bind path with validation on |
| View.BindingAddsErrorsIffBindingError | src/main/java/de/lhug/webflowtester/builder/services/view/MockView.java:81-107 | binding adds an error message iff some result is a binding error |
| View.EventMessagesFromBindingErrors | src/main/java/de/lhug/webflowtester/builder/services/view/MockView.java:109-114 | every message binding adds names a binding error of the results |
| View.CreateDefaultMapper | src/main/java/de/lhug/webflowtester/builder/services/view/MockView.java:116-132 | exactly one mapping per request parameter name, onto the property of that name |
| View.MockView.constructor | src/main/java/de/lhug/webflowtester/builder/services/view/MockView.java:42-54 | view id and request stored; no event processed |
| View.MockView.UserEventQueued | src/main/java/de/lhug/webflowtester/builder/services/view/MockView.java:61-64 | true iff the request parameters contain _eventId; a flow event implies it |
| View.MockView.ProcessUserEvent | src/main/java/de/lhug/webflowtester/builder/services/view/MockView.java:66-89 | a file under _eventId throws with nothing changed; no event id: nothing changes; otherwise marked processed, with the binding and validation messages added only when a model exists and binding is on |
| View.MockView.HasFlowEvent | src/main/java/de/lhug/webflowtester/builder/services/view/MockView.java:194-197 | processed and no error message recorded |
| View.HasText | src/main/java/de/lhug/webflowtester/builder/services/view/MockView.java:199-202 | the event id check of Spring's Event constructor: some character is not Java whitespace |
| View.MockView.GetFlowEvent | src/main/java/de/lhug/webflowtester/builder/services/view/MockView.java:199-202 | an event carrying the _eventId value when it reads as a string with text; a missing or blank id throws IllegalArgumentException with the Event constructor's message, and a file under _eventId throws on the read |
| View.BlankEventIdCannotBeOffered | src/main/java/de/lhug/webflowtester/builder/services/view/MockView.java:196-202 | a blank _eventId is processed and reported as a flow event, yet getFlowEvent throws |
| View.FileEventIdThrows | src/main/java/de/lhug/webflowtester/builder/services/view/MockView.java:61-70 | a file under _eventId counts as a queued event, but processUserEvent throws and no flow event exists |
| View.NoEventIdNoFlowEvent | src/main/java/de/lhug/webflowtester/builder/services/view/MockView.java:66-78 | without _eventId nothing is processed and there is no flow event |
| View.UnevaluableModelStillProcessed | src/main/java/de/lhug/webflowtester/builder/services/view/MockView.java:66-78 | a model that cannot be evaluated skips binding, yet the event is processed and offered |
| View.BindingErrorBlocksEvent | src/main/java/de/lhug/webflowtester/builder/services/view/MockView.java:101-114 | one error blocks the event iff its code is not propertyNotFound, and then it is the single message "code on field" |
| FlowTester.Encode | src/main/java/de/lhug/webflowtester/executor/MockFlowTester.java:238-246 | String[] kept as an array, MultipartFile kept as a file, anything else Objects.toString (null → "null") |
| FlowTester.Encoded | src/main/java/de/lhug/webflowtester/executor/MockFlowTester.java:236-248 | every input key, each value encoded |
| FlowTester.EncodeParameters | src/main/java/de/lhug/webflowtester/executor/MockFlowTester.java:236-248 | the forEach loop fills exactly the encoded map |
| FlowTester.ResumeParameters | src/main/java/de/lhug/webflowtester/executor/MockFlowTester.java:230-232 | a resumed request holds the encoded input plus _eventId set to the tester's event id |
| FlowTester.ResumedViewSeesEventId | src/main/java/de/lhug/webflowtester/executor/MockFlowTester.java:229-233 | a view in the resumed request reads the tester's event id, whatever the input said |
| FlowTester.StartedGuard | src/main/java/de/lhug/webflowtester/executor/MockFlowTester.java:285-287 | passes iff there is an execution; else the not-started message |
| FlowTester.EndedGuard | src/main/java/de/lhug/webflowtester/executor/MockFlowTester.java:312-320 | passes iff an execution exists and has ended; the not-started message first, then the not-ended one |
| FlowTester.ActiveGuard | src/main/java/de/lhug/webflowtester/executor/MockFlowTester.java:391-399 | passes iff an execution exists and is active; the not-started message first, then the not-active one |
| FlowTester.GuardsPartitionStartedExecutions | src/main/java/de/lhug/webflowtester/executor/MockFlowTester.java:311-320 | once started, exactly one of the outcome and current-state accessor families is open |
| FlowTester.GuardsAgreeBeforeStart | src/main/java/de/lhug/webflowtester/executor/MockFlowTester.java:285-287 | before a start every guard refuses with the same message |
| FlowTester.LastRendering | src/main/java/de/lhug/webflowtester/executor/MockFlowTester.java:437-441 | the last rendering's messages, or the previous ones when no view rendered |
| FlowTester.MessageListener.constructor | src/main/java/de/lhug/webflowtester/executor/MockFlowTester.java:435 | no messages |
| FlowTester.MessageListener.ViewRendering | src/main/java/de/lhug/webflowtester/executor/MockFlowTester.java:437-441 | the rendering's messages replace the kept ones |
| FlowTester.MessageListener.ApplyRenderings | src/main/java/de/lhug/webflowtester/executor/MockFlowTester.java:437-441 | after a step's renderings the listener holds the last one |
| FlowTester.MockFlowTester.constructor | src/main/java/de/lhug/webflowtester/executor/MockFlowTester.java:88-95 | the flow stored; no execution, context, event id or request |
| FlowTester.MockFlowTester.From | src/main/java/de/lhug/webflowtester/executor/MockFlowTester.java:84-86 | the builder's flow is built first and becomes the tested flow |
| FlowTester.MockFlowTester.GetCurrentFlowExecution | src/main/java/de/lhug/webflowtester/executor/MockFlowTester.java:106-108 | the current execution without any check; null exactly when assertActiveExecution would refuse |
| FlowTester.MockFlowTester.GetLastRequestContext | src/main/java/de/lhug/webflowtester/executor/MockFlowTester.java:425-427 | the last request context without any check, possibly null; one this tester created |
| FlowTester.MockFlowTester.NewContext | src/main/java/de/lhug/webflowtester/executor/MockFlowTester.java:149-154 | a new context carrying the held request, or the default object when none is held |
| FlowTester.MockFlowTester.StartFlow | src/main/java/de/lhug/webflowtester/executor/MockFlowTester.java:142-147 | a new execution and a new context, the event id cleared, then the engine's start |
| FlowTester.MockFlowTester.StartFlowAt | src/main/java/de/lhug/webflowtester/executor/MockFlowTester.java:179-182 | a new execution replaces the old one and is placed in the state when the flow defines it; for an unknown id the engine refuses and the new execution stays not started; event id and last context unchanged either way |
| FlowTester.MockFlowTester.ResumeFlow | src/main/java/de/lhug/webflowtester/executor/MockFlowTester.java:227-234 | refused without an execution, then without an event id, changing nothing; otherwise a new context with the parameters and event id, then the engine's resume |
| FlowTester.MockFlowTester.SetEventId | src/main/java/de/lhug/webflowtester/executor/MockFlowTester.java:257-259 | stores the event id for the next resume |
| FlowTester.MockFlowTester.SetRequest | src/main/java/de/lhug/webflowtester/executor/MockFlowTester.java:457-459 | stores the native request of later contexts; null unsets it |
| FlowTester.MockFlowTester.ExecutionHasEnded | src/main/java/de/lhug/webflowtester/executor/MockFlowTester.java:279-283 | needs an execution; then whether it has ended |
| FlowTester.MockFlowTester.GetFlowOutcome | src/main/java/de/lhug/webflowtester/executor/MockFlowTester.java:311-316 | the end-state id once ended; otherwise the guard's error |
| FlowTester.MockFlowTester.GetOutputAttributes | src/main/java/de/lhug/webflowtester/executor/MockFlowTester.java:330-335 | the outcome's output once ended; otherwise the guard's error |
| FlowTester.MockFlowTester.GetExternalRedirectUrl | src/main/java/de/lhug/webflowtester/executor/MockFlowTester.java:360-365 | the last context's redirect once ended; otherwise the guard's error |
| FlowTester.MockFlowTester.GetCurrentStateId | src/main/java/de/lhug/webflowtester/executor/MockFlowTester.java:390-395 | the active state's id while active; otherwise the guard's error |
| FlowTester.MockFlowTester.GetScope | src/main/java/de/lhug/webflowtester/executor/MockFlowTester.java:408-413 | the active session's scope while active; otherwise the guard's error |
| FlowTester.MockFlowTester.GetAllMessages | src/main/java/de/lhug/webflowtester/executor/MockFlowTester.java:429-432 | the listener's messages once started |
| FlowTester.FreshTesterHasNothing | src/main/java/de/lhug/webflowtester/executor/MockFlowTester.java:106-108 | before a start there is no execution and no context, and the accessors refuse |
| FlowTester.ResumeBeforeStart | src/main/java/de/lhug/webflowtester/executor/MockFlowTester.java:227-229 | a resume before any start is refused with the not-started message |
| FlowTester.StartClearsEventId | src/main/java/de/lhug/webflowtester/executor/MockFlowTester.java:142-147 | after startFlow a resume is refused until an event id is set again |
| FlowTester.StartFlowAtKeepsRequest | src/main/java/de/lhug/webflowtester/executor/MockFlowTester.java:179-182 | startFlowAt keeps the last context and event id; the state accessors open on the given state when the flow defines it and refuse as not active otherwise; the execution has not ended |
| FlowTester.ResumedRequestCarriesEventId | src/main/java/de/lhug/webflowtester/executor/MockFlowTester.java:227-234 | the resumed request carries the held native request, the encoded input and the event id |
| FlowTester.LastRenderingWins | src/main/java/de/lhug/webflowtester/executor/MockFlowTester.java:434-441 | of two renderings in one step, only the second's messages are kept |
| Engine.AfterStep | src/main/java/de/lhug/webflow/executor/MockFlowExecutor.java:30 | after a step the execution is active in the paused state or ended with the outcome |
| Engine.Resume | src/main/java/de/lhug/webflow/executor/MockFlowExecutor.java:39 | the engine resumes only an active execution |
| Engine.SetCurrentState | src/main/java/de/lhug/webflow/executor/MockFlowExecutor.java:49-51 | refused iff the execution has ended or the flow lacks the state id; otherwise a fresh execution is placed in the state with an empty scope and an active one moves, keeping its scope |
| Executor.MockFlowExecutor.constructor | src/main/java/de/lhug/webflow/executor/MockFlowExecutor.java:15-22 | the definition stored; no execution |
| Executor.MockFlowExecutor.StartFlow | src/main/java/de/lhug/webflow/executor/MockFlowExecutor.java:28-35 | a brand-new execution, started |
| Executor.MockFlowExecutor.ResumeFlow | src/main/java/de/lhug/webflow/executor/MockFlowExecutor.java:37-40 | refused before any start with its message; otherwise the engine's resume of the current execution |
| Executor.MockFlowExecutor.GetFlowExecution | src/main/java/de/lhug/webflow/executor/MockFlowExecutor.java:21-22 | the current execution, null before any start or placement; one this executor created |
| Executor.MockFlowExecutor.SetCurrentState | src/main/java/de/lhug/webflow/executor/MockFlowExecutor.java:42-51 | creates an execution only when none exists, then moves it to the state; refused for an ended execution or a state id the flow lacks, leaving the execution as it was |
| Executor.ResumeWithoutStart | src/main/java/de/lhug/webflow/executor/MockFlowExecutor.java:37-40 | resume before start fails and leaves no execution |
| Executor.StartTwice | src/main/java/de/lhug/webflow/executor/MockFlowExecutor.java:28-35 | every start creates a new execution |
| Executor.SetStateTwice | src/main/java/de/lhug/webflow/executor/MockFlowExecutor.java:42-47 | a second setCurrentState reuses the execution; each call places it in its state only when the flow defines that id |
| Tester.OutcomeAfter | src/main/java/de/lhug/webflow/WebFlowTester.java:65-87 | the outcome is taken over only when the execution has ended |
| Tester.WebFlowTester.constructor | src/main/java/de/lhug/webflow/WebFlowTester.java:55-58 | the URL stored; caching off; no factory, execution, outcome or cached flow |
| Tester.WebFlowTester.GetFlowExecutionFactory | src/main/java/de/lhug/webflow/WebFlowTester.java:74-79 | created once, on first use, then returned unchanged |
| Tester.WebFlowTester.RegisterDependentFlowModels | src/main/java/de/lhug/webflow/WebFlowTester.java:319-328 | a null array registers nothing; otherwise each model, by index, into the registry |
| Tester.WebFlowTester.GetModelResources | src/main/java/de/lhug/webflow/WebFlowTester.java:135-138 | an empty array, so a build registers no dependent models |
| Tester.WebFlowTester.BuildFlow | src/main/java/de/lhug/webflow/WebFlowTester.java:117-151 | a new builder context for the main resource; no parents by default, then the main model; a new flow |
| Tester.WebFlowTester.GetFlowDefinition | src/main/java/de/lhug/webflow/WebFlowTester.java:106-115 | the cache only when caching is on and a flow is cached, with registry and builder context unchanged; otherwise a new build that re-registers the main model and sets a new builder context, cached only when caching is on |
| Tester.WebFlowTester.StartFlow | src/main/java/de/lhug/webflow/WebFlowTester.java:62-68 | a new execution of the definition, started; an immediate end records the outcome; the factory is created if missing; unless the cache is used, the build re-registers the main model, sets a new builder context and is cached when caching is on |
| Tester.WebFlowTester.ResumeFlow | src/main/java/de/lhug/webflow/WebFlowTester.java:81-88 | refused without an execution; otherwise the engine's resume, recording the outcome only if it ended |
| Tester.WebFlowTester.SetCurrentState | src/main/java/de/lhug/webflow/WebFlowTester.java:90-95 | creates an execution only when none exists, with the factory and build effects of startFlow, then moves it to the state; refused for an ended execution or a state id the flow lacks, leaving the execution as it was |
| Tester.EveryRequestRebuilds | src/main/java/de/lhug/webflow/WebFlowTester.java:106-115 | with caching never switched on, every definition request builds a new flow |
| Tester.OutcomeSurvivesLaterRun | src/main/java/de/lhug/webflow/WebFlowTester.java:62-95 | a later run that does not end keeps the earlier outcome |
| Tester.ResumeBeforeStart | src/main/java/de/lhug/webflow/WebFlowTester.java:81-83 | resume before any start fails with its fixed message |

## Left out

- The Spring Web Flow engine: flow execution semantics, XML parsing, flow assembly, SpEL evaluation, type conversion in `DefaultMapper`, `ValidationHelper`, bean factories and `FlowDefinitionResourceFactory`'s id derivation. These are foreign code; a start or a resume is the `Step` the engine reports, validation is the messages it adds, binding is the mapping results it reports, resource ids are the parameters `idOf`/`resourceOf`, and the state ids a flow defines are the parameter `states`. A `Step` always completes: a start or a resume that throws inside the engine (an event no transition matches, a failing action) is not modelled, so neither is what the wrappers leave behind in that case (MockFlowTester's new execution, new context and cleared event id; MockFlowExecutor's and WebFlowTester's new execution).
- Engine.SetCurrentState: for an unknown state id the model leaves the execution's status as it was; whatever partial session the engine opens for a fresh execution before its state lookup fails is not modelled.
- The input map passed to an engine start (`StartFlow` of MockFlowTester, MockFlowExecutor and WebFlowTester): how the engine uses it is part of the `Step`. Only `StubFlow`'s own input mapper is modelled (`Stub.StubFlow.Run`).
- `Conventions.getVariableName` and `Object.toString`: foreign calls, taken as the parameter `nameOf` and as the text carried by `Location.Other` and `RawValue.AnyValue`.
- `MockView.render`, the logging in `getModelObject`, `toString` methods, `getUserEventState` and `saveState`: I/O or constant results with no decision in them.
- The deprecated JUnit `assert*` wrappers of MockFlowTester: they only compare the getters' results.
- `StubFlow.getFlowDefinitionResourceString`, `refresh` and `destroy`: constant or empty.
- WebFlowTester's scope, attribute and listener helpers (`getFlowScope`, `getViewAttribute` and the like): direct reads of engine state.
- MockFlowBuilderContext, TestFlowBuilderServicesFactory, MockViewFactoryCreator and XMLMockFlowBuilder: wiring over Spring classes. `createFlowBuilder` is the `BuilderCreated` step of a build log. MockFlowBuilder and ResourceMapper are interfaces with no logic.
- Java object identity and unmodifiable views: a new object is a fresh serial number, "the same instance" is equality with the cached field, and getters return values that cannot be modified.
- XMLMockFlowConfiguration extends ExternalizedMockFlowConfiguration; the model composes instead (`Configuration.XmlMockFlowConfiguration.base`).
- A configuration built with a null resource location: `resource.getClass()` would throw a NullPointerException; the model has no null location.
- Configuration.XmlMockFlowConfiguration.GetFlowResources: `addParentFlow` accepts a null offer, and `getFlowResources` then throws a NullPointerException at `resource.getClass()`; `Location` has no null case, so this failure is not modelled.
- Messaging.Messages.AddMessage: a null key or value, which the Java accepts, cannot be expressed; keys and values are plain strings.
- Messaging.MessageContainer.AddMessage: a null locale, key or value, all of which the Java accepts (a null locale is a valid HashMap key), cannot be expressed; `Locale` has no null case.
- Stub.StubFlow.SetOutputAttributes: the Lombok setter keeps the caller's map by reference, so later changes to that map reach the outcome's output, and a later `addOutputAttribute` on an unmodifiable map throws UnsupportedOperationException; the model copies the map's value.
- View.FirstValue: `MockView.getEventId` reads through `ParameterMap.get`, which takes the first element of a string array and throws IllegalArgumentException for a file. The model has that exception as `EngineFailure`, without its message. Other conversions inside Spring's parameter map are not modelled.
- Stub.StringHash: works on Dafny characters, not UTF-16 code units; the two agree only for characters of the Basic Multilingual Plane.
- Engine.Resume: the engine's refusal to resume a non-active execution is modelled as `EngineFailure` without its message.
- MockFlowTester's listener is registered through the execution factory for every new execution. The model has one listener object, which is the same effect.
- Concurrency: the library is single-threaded test support.
- `WebFlowTester.cacheFlowDefinition` is read but never assigned anywhere, so as written every `getFlowDefinition` rebuilds. The model keeps the flag as a field that is false after construction and keeps both branches.
