/** What a build hands to the Spring builder context and to the flow model
    registry, shared by every builder of the library: bean registration
    into the context and flow model registration into the registry. */
module BuilderContext {
  import opened Common
  import opened Messaging
  import opened TestContext

  /** A flow definition resource of the engine's resource factory: the id
      the factory derived and the path it reads from. */
  datatype FlowResource = FlowResource(id: string, path: string)

  /** One step of a build, as seen by the builder context. */
  datatype BuildEvent =
    | ContextCreated(flowId: string)
    | BeanRegistered(name: string, bean: Obj)
    | SubFlowRegistered(subFlow: FlowHolder)
    | MessageRegistered(key: string, locale: Locale, value: string)
    | ModelRegistered(model: FlowResource)
    | BuilderCreated
    | Assembled

  predicate Distinct<T(==)>(s: seq<T>)
  {
    forall i, j :: 0 <= i < j < |s| ==> s[i] != s[j]
  }

  /** `events` registers every bean of `beans` exactly once, in some order. */
  ghost predicate RegistersBeans(events: seq<BuildEvent>, beans: map<string, Obj>)
  {
    && Distinct(events)
    && (forall e :: e in events <==> e.BeanRegistered? && e.name in beans && beans[e.name] == e.bean)
  }

  /** A distinct sequence drawn from a set is as long as the set's
      elements it covers. */
  lemma {:induction false} DistinctCount<T>(s: seq<T>, elements: set<T>)
    requires Distinct(s)
    requires forall x :: x in s <==> x in elements
    ensures |s| == |elements|
    decreases |s|
  {
    if s != [] {
      var last := s[|s| - 1];
      var init := s[..|s| - 1];
      forall i | 0 <= i < |init| ensures init[i] != last {
        assert init[i] == s[i];
      }
      forall x ensures x in init <==> x in elements - {last} {
        if x in init {
          var i :| 0 <= i < |init| && init[i] == x;
          assert x == s[i];
        }
        if x in elements - {last} {
          assert x in s;
          var i :| 0 <= i < |s| && s[i] == x;
          assert i < |init| && init[i] == x;
        }
      }
      DistinctCount(init, elements - {last});
    }
  }

  /** registerBeans: every bean of the map is registered once. */
  method RegisterBeans(beans: map<string, Obj>) returns (events: seq<BuildEvent>)
    ensures RegistersBeans(events, beans)
    ensures |events| == |beans|
  {
    events := [];
    var pending := beans.Keys;
    while pending != {}
      invariant pending <= beans.Keys
      invariant Distinct(events)
      invariant forall e :: e in events <==> e.BeanRegistered? && e.name in beans.Keys - pending && beans[e.name] == e.bean
      invariant |events| + |pending| == |beans|
      decreases pending
    {
      var name :| name in pending;
      events := events + [BeanRegistered(name, beans[name])];
      pending := pending - {name};
    }
  }

  /** The flow model registry: flow models by id; registering an id again
      replaces the earlier model. */
  class FlowModelRegistry {
    var models: map<string, FlowResource>

    constructor ()
      ensures models == map[]
    {
      models := map[];
    }

    method RegisterFlowModel(model: FlowResource)
      modifies this
      ensures models == old(models)[model.id := model]
    {
      models := models[model.id := model];
    }
  }

  /** The registry contents after registering `models` in order. */
  function RegisterModels(registry: map<string, FlowResource>, models: seq<FlowResource>): map<string, FlowResource>
    decreases |models|
  {
    if models == [] then registry
    else RegisterModels(registry, models[..|models| - 1])[models[|models| - 1].id := models[|models| - 1]]
  }

  /** No later model takes the i-th model's id. */
  predicate LastWithId(models: seq<FlowResource>, i: int)
    requires 0 <= i < |models|
  {
    forall j :: i < j < |models| ==> models[j].id != models[i].id
  }

  /** Registering in order keeps, for each id, the last model with that id;
      ids no model uses keep their old model. */
  lemma {:induction false} RegisterModelsLastWins(registry: map<string, FlowResource>, models: seq<FlowResource>, i: int)
    requires 0 <= i < |models| && LastWithId(models, i)
    ensures models[i].id in RegisterModels(registry, models)
    ensures RegisterModels(registry, models)[models[i].id] == models[i]
    decreases |models|
  {
    var init := models[..|models| - 1];
    if i < |init| {
      assert init[i] == models[i];
      assert LastWithId(init, i) by {
        forall j | i < j < |init| ensures init[j].id != init[i].id {
          assert init[j] == models[j];
        }
      }
      RegisterModelsLastWins(registry, init, i);
    }
  }

  lemma {:induction false} RegisterModelsKeepsOthers(registry: map<string, FlowResource>, models: seq<FlowResource>, id: string)
    requires id in registry && forall j :: 0 <= j < |models| ==> models[j].id != id
    ensures id in RegisterModels(registry, models) && RegisterModels(registry, models)[id] == registry[id]
    decreases |models|
  {
    if models != [] {
      RegisterModelsKeepsOthers(registry, models[..|models| - 1], id);
    }
  }

  /** The ModelRegistered events of registering `models` in order. */
  predicate RegistersModels(events: seq<BuildEvent>, models: seq<FlowResource>)
  {
    && |events| == |models|
    && (forall i :: 0 <= i < |events| ==> events[i] == ModelRegistered(models[i]))
  }

  /** forEach over a list of flow resources: each one, in order, is
      registered as a flow model. */
  method RegisterFlowModels(registry: FlowModelRegistry, models: seq<FlowResource>) returns (events: seq<BuildEvent>)
    modifies registry
    ensures registry.models == RegisterModels(old(registry.models), models)
    ensures RegistersModels(events, models)
  {
    events := [];
    for i := 0 to |models|
      invariant registry.models == RegisterModels(old(registry.models), models[..i])
      invariant RegistersModels(events, models[..i])
    {
      assert models[..i + 1][..i] == models[..i];
      registry.RegisterFlowModel(models[i]);
      events := events + [ModelRegistered(models[i])];
    }
    assert models[..|models|] == models;
  }
}
