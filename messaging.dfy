/** MessageContainer: locale-keyed message key/value pairs to be registered
    in a tested flow's static message source. A `Messages` object is one
    locale's set of messages; the container maps each locale to its own
    `Messages` object and hands that live object out for chained adds. */
module Messaging {

  datatype Locale = Locale(tag: string)

  /** A message key and its text; equal exactly when both parts are equal. */
  datatype Message = Message(key: string, value: string)

  /** The abstract content of a container: each locale's set of messages. */
  type Store = map<Locale, set<Message>>

  /** The messages stored for `l`, empty when `l` has no entry. */
  function StoredFor(s: Store, l: Locale): set<Message>
  {
    if l in s then s[l] else {}
  }

  /** The messages a key/value map describes: one per entry. */
  function Pairs(values: map<string, string>): (r: set<Message>)
    ensures forall k :: k in values ==> Message(k, values[k]) in r
    ensures forall m :: m in r ==> m.key in values && values[m.key] == m.value
  {
    set k | k in values :: Message(k, values[k])
  }

  /** Each key of `keys` contributes a different message. */
  lemma {:induction false} PairsOfKeysCount(values: map<string, string>, keys: set<string>)
    requires keys <= values.Keys
    ensures |set k | k in keys :: Message(k, values[k])| == |keys|
    decreases |keys|
  {
    if keys != {} {
      var k :| k in keys;
      var rest := keys - {k};
      PairsOfKeysCount(values, rest);
      var restPairs := set k' | k' in rest :: Message(k', values[k']);
      assert (set k' | k' in keys :: Message(k', values[k'])) == restPairs + {Message(k, values[k])};
      assert Message(k, values[k]) !in restPairs;
    }
  }

  /** Bulk-adding a map of n entries adds n distinct messages: no two
      entries collapse into one under value equality. */
  lemma PairsCount(values: map<string, string>)
    ensures |Pairs(values)| == |values|
  {
    PairsOfKeysCount(values, values.Keys);
  }

  /** getOrInitMessagesFor: putIfAbsent of an empty set for `l`. */
  function PutIfAbsent(s: Store, l: Locale): (r: Store)
    ensures r.Keys == s.Keys + {l}
    ensures r[l] == StoredFor(s, l)
    ensures forall l' :: l' in s ==> r[l'] == s[l']
  {
    if l in s then s else s[l := {}]
  }

  /** addMessage(l, k, v) on the abstract store. */
  function WithMessage(s: Store, l: Locale, m: Message): (r: Store)
    ensures r.Keys == s.Keys + {l}
    ensures r[l] == StoredFor(s, l) + {m}
    ensures forall l' :: l' in s && l' != l ==> r[l'] == s[l']
  {
    s[l := StoredFor(s, l) + {m}]
  }

  /** addMessages(l, values) on the abstract store. */
  function WithMessages(s: Store, l: Locale, values: map<string, string>): (r: Store)
    ensures r.Keys == s.Keys + {l}
    ensures r[l] == StoredFor(s, l) + Pairs(values)
    ensures forall l' :: l' in s && l' != l ==> r[l'] == s[l']
  {
    s[l := StoredFor(s, l) + Pairs(values)]
  }

  /** One more entry adds exactly its own message. */
  lemma PairsInsert(values: map<string, string>, k: string, v: string)
    requires k !in values
    ensures Pairs(values[k := v]) == Pairs(values) + {Message(k, v)}
  {
    var bigger := values[k := v];
    forall m | m in Pairs(bigger) ensures m in Pairs(values) + {Message(k, v)} {
      if m.key != k {
        assert Message(m.key, values[m.key]) in Pairs(values);
      }
    }
    forall m | m in Pairs(values) ensures m in Pairs(bigger) {
      assert Message(m.key, bigger[m.key]) == m;
    }
    assert Message(k, bigger[k]) in Pairs(bigger);
  }

  /** putIfAbsent is an update of `l` to what it already holds. */
  lemma PutIfAbsentIsUpdate(s: Store, l: Locale)
    ensures PutIfAbsent(s, l) == s[l := StoredFor(s, l)]
  {
    if l in s {
      assert s[l := s[l]] == s;
    }
  }

  /** A second getMessages(l) changes nothing. */
  lemma PutIfAbsentIdempotent(s: Store, l: Locale)
    ensures PutIfAbsent(PutIfAbsent(s, l), l) == PutIfAbsent(s, l)
  {
  }

  /** Adding a pair that is already there leaves a single copy of it. */
  lemma WithMessageIdempotent(s: Store, l: Locale, m: Message)
    ensures WithMessage(WithMessage(s, l, m), l, m) == WithMessage(s, l, m)
  {
  }

  /** Adding messages one at a time, key by key in the order `keys` gives. */
  function WithEach(s: Store, l: Locale, values: map<string, string>, keys: seq<string>): Store
    requires forall i :: 0 <= i < |keys| ==> keys[i] in values
  {
    if keys == [] then PutIfAbsent(s, l)
    else WithMessage(WithEach(s, l, values, keys[..|keys| - 1]), l,
                     Message(keys[|keys| - 1], values[keys[|keys| - 1]]))
  }

  /** The messages that adding the entries of `values` under `keys` adds. */
  function PairsAt(values: map<string, string>, keys: seq<string>): set<Message>
    requires forall i :: 0 <= i < |keys| ==> keys[i] in values
  {
    if keys == [] then {}
    else PairsAt(values, keys[..|keys| - 1]) + {Message(keys[|keys| - 1], values[keys[|keys| - 1]])}
  }

  lemma {:induction false} PairsAtMembers(values: map<string, string>, keys: seq<string>, m: Message)
    requires forall i :: 0 <= i < |keys| ==> keys[i] in values
    ensures m in PairsAt(values, keys) <==> m.key in keys && m.key in values && values[m.key] == m.value
  {
    if keys != [] {
      var init := keys[..|keys| - 1];
      PairsAtMembers(values, init, m);
      assert keys == init + [keys[|keys| - 1]];
    }
  }

  lemma {:induction false} WithEachAdds(s: Store, l: Locale, values: map<string, string>, keys: seq<string>)
    requires forall i :: 0 <= i < |keys| ==> keys[i] in values
    ensures WithEach(s, l, values, keys) == s[l := StoredFor(s, l) + PairsAt(values, keys)]
  {
    if keys == [] {
      PutIfAbsentIsUpdate(s, l);
      assert StoredFor(s, l) + {} == StoredFor(s, l);
    } else {
      var init := keys[..|keys| - 1];
      var m := Message(keys[|keys| - 1], values[keys[|keys| - 1]]);
      WithEachAdds(s, l, values, init);
      var before := WithEach(s, l, values, init);
      assert StoredFor(before, l) == StoredFor(s, l) + PairsAt(values, init);
      assert PairsAt(values, keys) == PairsAt(values, init) + {m};
      assert WithEach(s, l, values, keys) == WithMessage(before, l, m);
      var grown := StoredFor(before, l) + {m};
      assert grown == StoredFor(s, l) + PairsAt(values, keys);
      assert before[l := grown] == s[l := grown];
    }
  }

  /** The bulk add equals adding each entry singly, in any order that visits
      every key: addMessages(l, m) is addMessage(l, k, m[k]) for each k. */
  lemma AddingEachKeyIsBulkAdd(s: Store, l: Locale, values: map<string, string>, keys: seq<string>)
    requires forall i :: 0 <= i < |keys| ==> keys[i] in values
    requires forall k :: k in values ==> k in keys
    ensures WithEach(s, l, values, keys) == WithMessages(s, l, values)
  {
    WithEachAdds(s, l, values, keys);
    forall m ensures m in PairsAt(values, keys) <==> m in Pairs(values) {
      PairsAtMembers(values, keys, m);
    }
    assert PairsAt(values, keys) == Pairs(values);
  }

  /** One locale's messages; `messageStore` is a set under value equality. */
  class Messages {
    var messageStore: set<Message>

    constructor ()
      ensures messageStore == {}
    {
      messageStore := {};
    }

    /** Messages.addMessage: set insertion, returning `this` for chaining. */
    method AddMessage(key: string, value: string) returns (self: Messages)
      modifies this
      ensures messageStore == old(messageStore) + {Message(key, value)}
      ensures self == this
    {
      messageStore := messageStore + {Message(key, value)};
      self := this;
    }

    /** The body of addMessages: each entry of `values` is added to the
        store as a Message, one at a time. */
    method AddAll(values: map<string, string>)
      modifies this
      ensures messageStore == old(messageStore) + Pairs(values)
    {
      var pending := values.Keys;
      ghost var done: map<string, string> := map[];
      assert Pairs(done) == {};
      while pending != {}
        invariant pending <= values.Keys
        invariant done.Keys == values.Keys - pending
        invariant forall k :: k in done ==> done[k] == values[k]
        invariant messageStore == old(messageStore) + Pairs(done)
        decreases pending
      {
        var k :| k in pending;
        PairsInsert(done, k, values[k]);
        messageStore := messageStore + {Message(k, values[k])};
        done := done[k := values[k]];
        pending := pending - {k};
      }
      assert done == values;
    }
  }

  class MessageContainer {
    var messages: map<Locale, Messages>

    /** Every locale owns its own Messages object. */
    ghost predicate Valid()
      reads this
    {
      forall l, l' :: l in messages && l' in messages && l != l' ==> messages[l] != messages[l']
    }

    constructor ()
      ensures Valid() && messages == map[]
      ensures GetAllMessages() == map[]
    {
      messages := map[];
    }

    /** getAllMessages: a read-only view of every locale's messages. */
    function GetAllMessages(): (r: Store)
      reads this, messages.Values
      ensures r.Keys == messages.Keys
      ensures forall l :: l in messages ==> r[l] == messages[l].messageStore
    {
      map l | l in messages :: messages[l].messageStore
    }

    /** getMessages / getOrInitMessagesFor: never null; a locale without
        messages gets a fresh empty Messages object stored under it, and a
        locale that has one gets that same object back. */
    method GetMessages(l: Locale) returns (m: Messages)
      requires Valid()
      modifies this
      ensures Valid()
      ensures l in messages && m == messages[l]
      ensures l in old(messages) ==> messages == old(messages)
      ensures l !in old(messages) ==> fresh(m) && messages == old(messages)[l := m]
      ensures GetAllMessages() == PutIfAbsent(old(GetAllMessages()), l)
    {
      if l !in messages {
        m := new Messages();
        messages := messages[l := m];
        assert GetAllMessages() == PutIfAbsent(old(GetAllMessages()), l);
      } else {
        m := messages[l];
      }
    }

    /** addMessage(l, k, v): Message(k, v) joins l's set; other locales
        keep their objects and their messages. */
    method AddMessage(l: Locale, key: string, value: string)
      requires Valid()
      modifies this, messages.Values
      ensures Valid()
      ensures forall l' :: l' in old(messages) ==> l' in messages && messages[l'] == old(messages[l'])
      ensures GetAllMessages() == WithMessage(old(GetAllMessages()), l, Message(key, value))
    {
      ghost var before := GetAllMessages();
      var local := GetMessages(l);
      var _ := local.AddMessage(key, value);
      assert GetAllMessages() == WithMessage(before, l, Message(key, value));
    }

    /** addMessages(l, values): every entry of `values` joins l's set as a
        Message; nothing else changes. */
    method AddMessages(l: Locale, values: map<string, string>)
      requires Valid()
      modifies this, messages.Values
      ensures Valid()
      ensures forall l' :: l' in old(messages) ==> l' in messages && messages[l'] == old(messages[l'])
      ensures GetAllMessages() == WithMessages(old(GetAllMessages()), l, values)
    {
      ghost var before := GetAllMessages();
      var local := GetMessages(l);
      local.AddAll(values);
      assert GetAllMessages() == WithMessages(before, l, values);
    }
  }
}
