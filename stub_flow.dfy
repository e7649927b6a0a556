/** StubFlow: a sub-flow stand-in that ends immediately in a configurable
    end state, records the input it was started with and emits a
    configurable output map. Its flow definition is cached and rebuilt
    whenever the end state it was built for is no longer the current one. */
module Stub {
  import opened Common
  import opened Engine

  /** An assembled stub flow definition: a flow with id `id` whose only
      state is the end state `endState`, so its possible outcomes are
      exactly `[endState]`. `serial` tells apart definitions built by
      different calls. */
  datatype StubDefinition = StubDefinition(serial: nat, id: string, endState: string)

  function PossibleOutcomes(d: StubDefinition): seq<string>
  {
    [d.endState]
  }

  const FlowIdNull := "Flow Id may not be null"
  const EndStateIdNull := "EndState Id may not be null"

  /** The constructor's argument checks, flow id first. */
  function ConstructorCheck(flowId: Option<string>, endStateId: Option<string>): (r: Outcome)
    ensures r == Pass <==> flowId.Some? && endStateId.Some?
    ensures flowId.None? ==> r == Fail(IllegalArgument(FlowIdNull))
    ensures flowId.Some? && endStateId.None? ==> r == Fail(IllegalArgument(EndStateIdNull))
  {
    if flowId.None? then Fail(IllegalArgument(FlowIdNull))
    else if endStateId.None? then Fail(IllegalArgument(EndStateIdNull))
    else Pass
  }

  /** getFlowDefinition on values: the cached definition while its single
      outcome is `endStateId`, otherwise a new one numbered `serial`. */
  function Refreshed(cache: Option<StubDefinition>, flowId: string, endStateId: string, serial: nat): (d: StubDefinition)
  {
    if cache.None? || PossibleOutcomes(cache.value)[0] != endStateId
    then StubDefinition(serial, flowId, endStateId)
    else cache.value
  }

  /** Whatever the cache, the definition handed out ends in the current end
      state, and a rebuilt one has the stub's flow id. */
  lemma RefreshedEndsInCurrentState(cache: Option<StubDefinition>, flowId: string, endStateId: string, serial: nat)
    ensures PossibleOutcomes(Refreshed(cache, flowId, endStateId, serial)) == [endStateId]
    ensures (cache.None? || cache.value.id == flowId) ==> Refreshed(cache, flowId, endStateId, serial).id == flowId
  {
  }

  /** Asking again, with the end state unchanged, gives the same definition. */
  lemma RefreshedIsStable(cache: Option<StubDefinition>, flowId: string, endStateId: string, serial: nat, later: nat)
    ensures Refreshed(Some(Refreshed(cache, flowId, endStateId, serial)), flowId, endStateId, later)
         == Refreshed(cache, flowId, endStateId, serial)
  {
  }

  /** After an end-state change the cached definition is replaced. */
  lemma RefreshedRebuildsOnChange(cached: StubDefinition, flowId: string, endStateId: string, serial: nat)
    requires cached.endState != endStateId
    ensures Refreshed(Some(cached), flowId, endStateId, serial) == StubDefinition(serial, flowId, endStateId)
  {
  }

  /** A Java int: the value of `x` modulo 2^32, read as two's complement. */
  function Wrap32(x: int): (r: int)
    ensures -0x8000_0000 <= r < 0x8000_0000
    ensures (r - x) % 0x1_0000_0000 == 0
  {
    (x + 0x8000_0000) % 0x1_0000_0000 - 0x8000_0000
  }

  /** String.hashCode: s[0]*31^(n-1) + ... + s[n-1] in int arithmetic. */
  function StringHash(s: string): (h: int)
    ensures -0x8000_0000 <= h < 0x8000_0000
  {
    if s == [] then 0 else Wrap32(31 * StringHash(s[..|s| - 1]) + s[|s| - 1] as int)
  }

  class StubFlow {
    const flowDefinitionId: string
    var endStateId: string
    var inputAttributes: map<string, Obj>
    var outputAttributes: map<string, Obj>
    var cachedFlow: Option<StubDefinition>
    /** How many definitions this stub has assembled. */
    var issued: nat
    /** Every definition this stub has handed out; their mappers all read
        and write this stub's attribute maps. */
    ghost var built: set<StubDefinition>

    ghost predicate Valid()
      reads this
    {
      && (cachedFlow.Some? ==> cachedFlow.value in built)
      && (forall d :: d in built ==> d.id == flowDefinitionId && d.serial < issued)
    }

    constructor (flowId: string, endStateId: string)
      ensures Valid()
      ensures flowDefinitionId == flowId && this.endStateId == endStateId
      ensures inputAttributes == map[] && outputAttributes == map[]
      ensures cachedFlow == None && built == {}
    {
      flowDefinitionId := flowId;
      this.endStateId := endStateId;
      inputAttributes := map[];
      outputAttributes := map[];
      cachedFlow := None;
      issued := 0;
      built := {};
    }

    /** new StubFlow(flowId, endStateId), throwing on a null argument. */
    static method Create(flowId: Option<string>, endStateId: Option<string>) returns (r: Result<StubFlow>)
      ensures r.Err? <==> ConstructorCheck(flowId, endStateId).Fail?
      ensures r.Err? ==> r.error == ConstructorCheck(flowId, endStateId).error
      ensures r.Ok? ==> (fresh(r.value) && r.value.Valid()
                     && r.value.flowDefinitionId == flowId.value && r.value.endStateId == endStateId.value
                     && r.value.inputAttributes == map[] && r.value.outputAttributes == map[]
                     && r.value.cachedFlow == None)
    {
      var check := ConstructorCheck(flowId, endStateId);
      if check.Fail? {
        return Err(check.error);
      }
      var stub := new StubFlow(flowId.value, endStateId.value);
      r := Ok(stub);
    }

    /** setEndStateId: null is rejected and nothing changes. */
    method SetEndStateId(e: Option<string>) returns (r: Outcome)
      requires Valid()
      modifies this
      ensures Valid()
      ensures e.None? ==> r == Fail(IllegalArgument(EndStateIdNull)) && endStateId == old(endStateId)
      ensures e.Some? ==> r == Pass && endStateId == e.value
      ensures cachedFlow == old(cachedFlow) && issued == old(issued) && built == old(built)
      ensures inputAttributes == old(inputAttributes) && outputAttributes == old(outputAttributes)
    {
      if e.None? {
        return Fail(IllegalArgument(EndStateIdNull));
      }
      endStateId := e.value;
      r := Pass;
    }

    /** getFlowDefinition: the cache, rebuilt first when missing or when its
        outcome is not the current end state. */
    method GetFlowDefinition() returns (d: StubDefinition)
      requires Valid()
      modifies this
      ensures Valid()
      ensures d == Refreshed(old(cachedFlow), flowDefinitionId, endStateId, old(issued))
      ensures d.id == flowDefinitionId && PossibleOutcomes(d) == [endStateId]
      ensures cachedFlow == Some(d) && d in built
      ensures old(cachedFlow) == Some(d) || d !in old(built)
      ensures endStateId == old(endStateId)
      ensures inputAttributes == old(inputAttributes) && outputAttributes == old(outputAttributes)
    {
      if cachedFlow.None? || PossibleOutcomes(cachedFlow.value)[0] != endStateId {
        cachedFlow := Some(StubDefinition(issued, flowDefinitionId, endStateId));
        built := built + {cachedFlow.value};
        issued := issued + 1;
      }
      d := cachedFlow.value;
    }

    /** The engine running a definition this stub built: the input mapper
        merges the input map into the captured inputs, the flow ends at
        once in the definition's end state, and the output mapper copies
        the output attributes current at that moment. */
    method Run(definition: StubDefinition, input: map<string, Obj>) returns (outcome: FlowOutcome)
      requires Valid() && definition in built
      modifies this
      ensures Valid()
      ensures inputAttributes == old(inputAttributes) + input
      ensures outcome == FlowOutcome(definition.endState, outputAttributes)
      ensures outputAttributes == old(outputAttributes) && endStateId == old(endStateId)
      ensures cachedFlow == old(cachedFlow) && issued == old(issued) && built == old(built)
    {
      inputAttributes := inputAttributes + input;
      outcome := FlowOutcome(PossibleOutcomes(definition)[0], outputAttributes);
    }

    /** getInputAttributes: a copy of the captured inputs, which are then cleared. */
    method GetInputAttributes() returns (copy: map<string, Obj>)
      requires Valid()
      modifies this
      ensures Valid()
      ensures copy == old(inputAttributes) && inputAttributes == map[]
      ensures outputAttributes == old(outputAttributes) && endStateId == old(endStateId)
      ensures cachedFlow == old(cachedFlow) && issued == old(issued) && built == old(built)
    {
      copy := inputAttributes;
      inputAttributes := map[];
    }

    /** addOutputAttribute: put into the output attributes. */
    method AddOutputAttribute(key: string, value: Obj)
      requires Valid()
      modifies this
      ensures Valid()
      ensures outputAttributes == old(outputAttributes)[key := value]
      ensures inputAttributes == old(inputAttributes) && endStateId == old(endStateId)
      ensures cachedFlow == old(cachedFlow) && issued == old(issued) && built == old(built)
    {
      outputAttributes := outputAttributes[key := value];
    }

    /** setOutputAttributes: the whole map is replaced. */
    method SetOutputAttributes(attributes: map<string, Obj>)
      requires Valid()
      modifies this
      ensures Valid()
      ensures outputAttributes == attributes
      ensures inputAttributes == old(inputAttributes) && endStateId == old(endStateId)
      ensures cachedFlow == old(cachedFlow) && issued == old(issued) && built == old(built)
    {
      outputAttributes := attributes;
    }

    /** equals: flow id and end state id, nothing else. */
    function Equals(other: StubFlow): (r: bool)
      reads this, other
      ensures r <==> flowDefinitionId == other.flowDefinitionId && endStateId == other.endStateId
    {
      flowDefinitionId == other.flowDefinitionId && endStateId == other.endStateId
    }

    /** hashCode: the generated combination of the same two fields. */
    function HashCode(): (h: int)
      reads this
      ensures -0x8000_0000 <= h < 0x8000_0000
    {
      Wrap32(Wrap32(59 + StringHash(flowDefinitionId)) * 59 + StringHash(endStateId))
    }
  }

  /** Equal stubs hash alike, whatever their attribute maps and caches. */
  lemma EqualStubsHashAlike(a: StubFlow, b: StubFlow)
    requires a.Equals(b)
    ensures a.HashCode() == b.HashCode()
  {
  }

  /** Captured inputs are handed out once: a second read is empty. */
  method InputsAreHandedOutOnce(flowId: string, endStateId: string, input: map<string, Obj>)
    returns (first: map<string, Obj>, second: map<string, Obj>)
    ensures first == input && second == map[]
  {
    var stub := new StubFlow(flowId, endStateId);
    var definition := stub.GetFlowDefinition();
    var _ := stub.Run(definition, input);
    first := stub.GetInputAttributes();
    second := stub.GetInputAttributes();
  }

  /** The output reflects attributes added after the definition was built. */
  method OutputAddedAfterAssembly(flowId: string, endStateId: string, key: string, value: Obj)
    returns (outcome: FlowOutcome)
    ensures outcome == FlowOutcome(endStateId, map[key := value])
  {
    var stub := new StubFlow(flowId, endStateId);
    var definition := stub.GetFlowDefinition();
    stub.AddOutputAttribute(key, value);
    outcome := stub.Run(definition, map[]);
  }

  /** Repeated calls share one definition until the end state changes;
      then a new definition for the new end state is built. */
  method RebuildOnEndStateChange(flowId: string, first: string, second: string)
    returns (a: StubDefinition, b: StubDefinition, c: StubDefinition)
    ensures a == b && a.id == flowId && PossibleOutcomes(a) == [first]
    ensures c.id == flowId && PossibleOutcomes(c) == [second]
    ensures (c == a) <==> first == second
  {
    var stub := new StubFlow(flowId, first);
    a := stub.GetFlowDefinition();
    b := stub.GetFlowDefinition();
    var _ := stub.SetEndStateId(Some(second));
    c := stub.GetFlowDefinition();
  }
}
