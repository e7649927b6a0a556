/** FlowTestContext: what a test makes available to the flow under test —
    named beans, stub sub-flows in registration order, and messages per
    locale held in a MessageContainer. */
module TestContext {
  import opened Common
  import opened Messaging

  /** A registered sub-flow definition: the flow id it answers to, and
      `ref`, which tells holders with the same id apart. */
  datatype FlowHolder = FlowHolder(flowDefinitionId: string, ref: nat)

  /** The names `nameOf` gives the offers. */
  function NamesOf(offers: seq<Obj>, nameOf: Obj -> string): set<string>
  {
    set i | 0 <= i < |offers| :: nameOf(offers[i])
  }

  /** The bean map after putting each offer under its conventional name,
      first to last, into `beans`. */
  function RegisterAll(beans: map<string, Obj>, offers: seq<Obj>, nameOf: Obj -> string): map<string, Obj>
    decreases |offers|
  {
    if offers == [] then beans
    else RegisterAll(beans, offers[..|offers| - 1], nameOf)[nameOf(offers[|offers| - 1]) := offers[|offers| - 1]]
  }

  lemma NamesOfSnoc(offers: seq<Obj>, nameOf: Obj -> string)
    requires offers != []
    ensures NamesOf(offers, nameOf) == NamesOf(offers[..|offers| - 1], nameOf) + {nameOf(offers[|offers| - 1])}
  {
    var init := offers[..|offers| - 1];
    forall n | n in NamesOf(offers, nameOf) ensures n in NamesOf(init, nameOf) + {nameOf(offers[|offers| - 1])} {
      var i :| 0 <= i < |offers| && nameOf(offers[i]) == n;
      if i < |init| {
        assert nameOf(init[i]) == n;
      }
    }
    forall n | n in NamesOf(init, nameOf) ensures n in NamesOf(offers, nameOf) {
      var i :| 0 <= i < |init| && nameOf(init[i]) == n;
      assert nameOf(offers[i]) == n;
    }
  }

  /** No offer after the i-th takes the i-th offer's name. */
  predicate LastWithName(offers: seq<Obj>, nameOf: Obj -> string, i: int)
    requires 0 <= i < |offers|
  {
    forall j :: i < j < |offers| ==> nameOf(offers[j]) != nameOf(offers[i])
  }

  /** Registering offers in order defines exactly the old names plus the
      conventional name of every offer. */
  lemma {:induction false} RegisterAllKeys(beans: map<string, Obj>, offers: seq<Obj>, nameOf: Obj -> string)
    ensures RegisterAll(beans, offers, nameOf).Keys == beans.Keys + NamesOf(offers, nameOf)
    decreases |offers|
  {
    if offers != [] {
      RegisterAllKeys(beans, offers[..|offers| - 1], nameOf);
      NamesOfSnoc(offers, nameOf);
    }
  }

  /** An offer is the bean under its name unless a later offer takes it. */
  lemma {:induction false} RegisterAllLastWins(beans: map<string, Obj>, offers: seq<Obj>, nameOf: Obj -> string, i: int)
    requires 0 <= i < |offers| && LastWithName(offers, nameOf, i)
    ensures nameOf(offers[i]) in RegisterAll(beans, offers, nameOf)
    ensures RegisterAll(beans, offers, nameOf)[nameOf(offers[i])] == offers[i]
    decreases |offers|
  {
    var init := offers[..|offers| - 1];
    if i < |init| {
      assert init[i] == offers[i];
      assert nameOf(offers[|offers| - 1]) != nameOf(offers[i]);
      assert LastWithName(init, nameOf, i) by {
        forall j | i < j < |init| ensures nameOf(init[j]) != nameOf(init[i]) {
          assert init[j] == offers[j];
        }
      }
      RegisterAllLastWins(beans, init, nameOf, i);
    }
  }

  /** A name no offer takes keeps its old bean. */
  lemma {:induction false} RegisterAllKeepsOthers(beans: map<string, Obj>, offers: seq<Obj>, nameOf: Obj -> string, n: string)
    requires n in beans && n !in NamesOf(offers, nameOf)
    ensures n in RegisterAll(beans, offers, nameOf) && RegisterAll(beans, offers, nameOf)[n] == beans[n]
    decreases |offers|
  {
    if offers != [] {
      NamesOfSnoc(offers, nameOf);
      RegisterAllKeepsOthers(beans, offers[..|offers| - 1], nameOf, n);
    }
  }

  class FlowTestContext {
    var beans: map<string, Obj>
    var subFlows: seq<FlowHolder>
    const messageContainer: MessageContainer

    ghost predicate Valid()
      reads this, messageContainer
    {
      messageContainer.Valid()
    }

    /** The no-argument constructor: no beans, no sub-flows, no messages. */
    constructor ()
      ensures Valid() && fresh(messageContainer)
      ensures beans == map[] && subFlows == []
      ensures GetAllMessages() == map[]
    {
      beans := map[];
      subFlows := [];
      messageContainer := new MessageContainer();
    }

    /** The varargs constructor: each offer added by convention, in order. */
    constructor WithOffers(offers: seq<Obj>, nameOf: Obj -> string)
      ensures Valid() && fresh(messageContainer)
      ensures beans == RegisterAll(map[], offers, nameOf)
      ensures subFlows == []
      ensures GetAllMessages() == map[]
    {
      beans := map[];
      subFlows := [];
      messageContainer := new MessageContainer();
      new;
      for i := 0 to |offers|
        invariant beans == RegisterAll(map[], offers[..i], nameOf)
        invariant subFlows == [] && Valid()
        invariant messageContainer.messages == map[]
      {
        assert offers[..i + 1][..i] == offers[..i];
        AddBeanByConvention(offers[i], nameOf);
      }
      assert offers[..|offers|] == offers;
    }

    /** containsBean: some registered bean equals `offer`, under any name. */
    function ContainsBean(offer: Obj): (r: bool)
      reads this
      ensures r <==> exists n :: n in beans && beans[n] == offer
    {
      offer in beans.Values
    }

    /** containsBeanWithName: a bean is registered under `name`. */
    function ContainsBeanWithName(name: string): (r: bool)
      reads this
      ensures r <==> name in beans
    {
      name in beans
    }

    /** getBeans: a read-only view of the bean map. */
    function GetBeans(): (r: map<string, Obj>)
      reads this
      ensures r == beans
      ensures forall n :: n in r <==> ContainsBeanWithName(n)
      ensures forall b :: b in r.Values <==> ContainsBean(b)
    {
      beans
    }

    /** getSubFlows: a read-only view of the sub-flows in insertion order. */
    function GetSubFlows(): (r: seq<FlowHolder>)
      reads this
      ensures r == subFlows
    {
      subFlows
    }

    /** addBean(name, offer): put, overwriting an earlier bean of that name. */
    method AddBean(name: string, offer: Obj)
      modifies this
      ensures beans == old(beans)[name := offer]
      ensures ContainsBeanWithName(name) && GetBeans()[name] == offer && ContainsBean(offer)
      ensures subFlows == old(subFlows)
    {
      beans := beans[name := offer];
    }

    /** addBean(offer): the name comes from bean-naming conventions. */
    method AddBeanByConvention(offer: Obj, nameOf: Obj -> string)
      modifies this
      ensures beans == old(beans)[nameOf(offer) := offer]
      ensures subFlows == old(subFlows)
    {
      AddBean(nameOf(offer), offer);
    }

    /** addSubFlow: append; duplicates are kept. */
    method AddSubFlow(subFlow: FlowHolder)
      modifies this
      ensures subFlows == old(subFlows) + [subFlow]
      ensures beans == old(beans)
    {
      subFlows := subFlows + [subFlow];
    }

    /** getAllMessages, delegated to the container. */
    function GetAllMessages(): Store
      reads this, messageContainer, messageContainer.messages.Values
    {
      messageContainer.GetAllMessages()
    }

    /** getMessages, delegated: beans and sub-flows stay as they are. */
    method GetMessages(l: Locale) returns (m: Messages)
      requires Valid()
      modifies messageContainer
      ensures Valid()
      ensures l in messageContainer.messages && m == messageContainer.messages[l]
      ensures GetAllMessages() == PutIfAbsent(old(GetAllMessages()), l)
      ensures beans == old(beans) && subFlows == old(subFlows)
    {
      m := messageContainer.GetMessages(l);
    }

    /** addMessage, delegated: beans and sub-flows stay as they are. */
    method AddMessage(l: Locale, key: string, value: string)
      requires Valid()
      modifies messageContainer, messageContainer.messages.Values
      ensures Valid()
      ensures GetAllMessages() == WithMessage(old(GetAllMessages()), l, Message(key, value))
      ensures beans == old(beans) && subFlows == old(subFlows)
    {
      messageContainer.AddMessage(l, key, value);
    }

    /** addMessages, delegated: beans and sub-flows stay as they are. */
    method AddMessages(l: Locale, values: map<string, string>)
      requires Valid()
      modifies messageContainer, messageContainer.messages.Values
      ensures Valid()
      ensures GetAllMessages() == WithMessages(old(GetAllMessages()), l, values)
      ensures beans == old(beans) && subFlows == old(subFlows)
    {
      messageContainer.AddMessages(l, values);
    }
  }

  /** A single addMessage on a fresh context leaves exactly one locale
      holding exactly that message. */
  method AddMessageToFreshContext(l: Locale, key: string, value: string) returns (all: Store)
    ensures all == map[l := {Message(key, value)}]
  {
    var context := new FlowTestContext();
    context.AddMessage(l, key, value);
    all := context.GetAllMessages();
    assert StoredFor(map[], l) + {Message(key, value)} == {Message(key, value)};
  }

  /** Re-adding a bean name keeps one entry holding the newer bean. */
  method AddSameNameTwice(name: string, first: Obj, second: Obj) returns (beans: map<string, Obj>)
    ensures beans == map[name := second]
  {
    var context := new FlowTestContext();
    context.AddBean(name, first);
    context.AddBean(name, second);
    beans := context.GetBeans();
  }

  /** Sub-flows come back in insertion order, duplicates included. */
  method AddSubFlowsInOrder(a: FlowHolder, b: FlowHolder) returns (subFlows: seq<FlowHolder>)
    ensures subFlows == [a, b, a]
  {
    var context := new FlowTestContext();
    context.AddSubFlow(a);
    context.AddSubFlow(b);
    context.AddSubFlow(a);
    subFlows := context.GetSubFlows();
  }
}
