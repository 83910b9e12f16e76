/**
 * The agent-to-agent layer: the registry of agent cards over a DynamoDB
 * table, and the mailbox protocol over an S3 bucket, where a message for
 * agent R is stored under `messages/R/<message id>.json` and, once received,
 * moved under `messages/processed/` by a copy followed by a delete.
 */
module A2A {
  import opened Python
  import opened AwsServiceLayer
  import opened AgentCards

  // ---------------------------------------------------------------------------
  // Agent registry
  // ---------------------------------------------------------------------------

  /** `get_agent` on the items of the table: None when there is no item (or only a falsy one), else the decoded card. */
  function LookupCard(items: map<string, Value>, agentId: string): (r: Result<Option<AgentCard>, Exception>)
    ensures agentId !in items ==> r == Ok(None)
    ensures r.Ok? && r.value.Some? ==> agentId in items && CardFromDict(items[agentId]) == Ok(r.value.value)
    ensures r.Err? ==> agentId in items && CardFromDict(items[agentId]) == Err(r.error)
    ensures agentId in items && !Truthy(items[agentId]) ==> r == Ok(None)
    ensures agentId in items && Truthy(items[agentId]) ==>
              r == match CardFromDict(items[agentId]) case Ok(c) => Ok(Some(c)) case Err(e) => Err(e)
  {
    if agentId in items && Truthy(items[agentId]) then
      match CardFromDict(items[agentId])
      case Ok(card) => Ok(Some(card))
      case Err(e) => Err(e)
    else Ok(None)
  }

  /** After a card is put, looking up its id gives back the same card. */
  lemma RegisterThenLookup(items: map<string, Value>, card: AgentCard)
    ensures LookupCard(items[card.agentId := CardToDict(card)], card.agentId) == Ok(Some(card))
  {
    CardRoundTrip(card);
    assert "agent_id" in CardToDict(card).fields;
  }

  /** Registering a second card under the same id replaces the first. */
  lemma LastWriteWins(items: map<string, Value>, first: AgentCard, second: AgentCard)
    requires first.agentId == second.agentId
    ensures LookupCard(items[first.agentId := CardToDict(first)][second.agentId := CardToDict(second)], first.agentId)
         == Ok(Some(second))
  {
    var id := first.agentId;
    assert items[id := CardToDict(first)][id := CardToDict(second)] == items[id := CardToDict(second)];
    RegisterThenLookup(items, second);
  }

  /** Registering a card does not change what any other id looks up. */
  lemma RegisterLeavesOthers(items: map<string, Value>, card: AgentCard, other: string)
    requires other != card.agentId
    ensures LookupCard(items[card.agentId := CardToDict(card)], other) == LookupCard(items, other)
  {
  }

  /** The condition `contains(capabilities, :cap)` on a stored item: its capability list holds the string. */
  predicate HasCapability(item: Value, capability: string) {
    item.JObj? && "capabilities" in item.fields && item.fields["capabilities"].JArr? &&
    JStr(capability) in item.fields["capabilities"].items
  }

  /** An item that decodes to a card matches the condition exactly when the card lists the capability. */
  lemma DecodedCapability(item: Value, capability: string)
    requires CardFromDict(item).Ok?
    ensures HasCapability(item, capability) <==> capability in CardFromDict(item).value.capabilities
  {
    var g := CardDefaults + item.fields;
    assert g["capabilities"] == item.fields["capabilities"];
    AsTextsHolds(item.fields["capabilities"].items, capability);
  }

  /** The keys of `order` (the index's order) whose items match the capability. */
  function MatchingKeys(items: map<string, Value>, order: seq<string>, capability: string): (keys: seq<string>)
    ensures forall k :: k in keys <==> k in order && k in items && HasCapability(items[k], capability)
    ensures |keys| <= |order|
  {
    if order == [] then []
    else
      var rest := MatchingKeys(items, order[1..], capability);
      if order[0] in items && HasCapability(items[order[0]], capability) then [order[0]] + rest else rest
  }

  /** `[AgentCard.from_dict(item) for item in results]`: the first item that does not decode raises. */
  function DecodeAll(items: map<string, Value>, keys: seq<string>): (r: Result<seq<AgentCard>, Exception>)
    requires forall k :: k in keys ==> k in items
    ensures r.Ok? ==> |r.value| == |keys| && forall i :: 0 <= i < |keys| ==> CardFromDict(items[keys[i]]) == Ok(r.value[i])
    ensures r.Err? ==> exists k :: k in keys && CardFromDict(items[k]) == Err(r.error)
    ensures r.Err? ==> exists i :: 0 <= i < |keys| && CardFromDict(items[keys[i]]) == Err(r.error) &&
                                   forall j :: 0 <= j < i ==> CardFromDict(items[keys[j]]).Ok?
  {
    DecodeEach((k: string) => if k in items then CardFromDict(items[k]) else Err(TypeError("")), keys)
  }

  /** Decodes every key in order with `decode`, stopping at the first failure. */
  function DecodeEach<T>(decode: string -> Result<T, Exception>, keys: seq<string>): (r: Result<seq<T>, Exception>)
    ensures r.Ok? ==> |r.value| == |keys| && forall i :: 0 <= i < |keys| ==> decode(keys[i]) == Ok(r.value[i])
    ensures r.Err? ==> exists i :: 0 <= i < |keys| && decode(keys[i]) == Err(r.error) &&
                                   forall j :: 0 <= j < i ==> decode(keys[j]).Ok?
  {
    if keys == [] then Ok([])
    else match decode(keys[0])
      case Err(e) => Err(e)
      case Ok(x) =>
        var rest := DecodeEach(decode, keys[1..]);
        if rest.Err? then
          FailedCons(decode, keys, rest.error);
          rest
        else
          DecodedCons(decode, keys, x, rest.value);
          Ok([x] + rest.value)
  }

  /** A decoded head followed by the decoded tail is the decoded list, for any decoder of the keys. */
  lemma DecodedCons<T>(decode: string -> Result<T, Exception>, keys: seq<string>, x: T, xs: seq<T>)
    requires keys != [] && decode(keys[0]) == Ok(x)
    requires |xs| == |keys| - 1 && forall i :: 0 <= i < |keys| - 1 ==> decode(keys[1..][i]) == Ok(xs[i])
    ensures forall i :: 0 <= i < |keys| ==> decode(keys[i]) == Ok(([x] + xs)[i])
  {
    forall i | 0 <= i < |keys| ensures decode(keys[i]) == Ok(([x] + xs)[i]) {
      if i > 0 {
        assert keys[i] == keys[1..][i - 1];
      }
    }
  }

  /** A decoded head followed by a tail whose first failure is `e` fails first with `e`, for any decoder of the keys. */
  lemma FailedCons<T>(decode: string -> Result<T, Exception>, keys: seq<string>, e: Exception)
    requires keys != [] && decode(keys[0]).Ok?
    requires exists i :: 0 <= i < |keys| - 1 && decode(keys[1..][i]) == Err(e) &&
                         forall j :: 0 <= j < i ==> decode(keys[1..][j]).Ok?
    ensures exists i :: 0 <= i < |keys| && decode(keys[i]) == Err(e) && forall j :: 0 <= j < i ==> decode(keys[j]).Ok?
  {
    var i :| 0 <= i < |keys| - 1 && decode(keys[1..][i]) == Err(e) && forall j :: 0 <= j < i ==> decode(keys[1..][j]).Ok?;
    assert keys[i + 1] == keys[1..][i];
    forall j | 0 <= j < i + 1 ensures decode(keys[j]).Ok? {
      if j > 0 {
        assert keys[j] == keys[1..][j - 1];
      }
    }
  }

  /** The cards whose stored capability list holds `capability`, in the index's order. */
  function MatchingCards(items: map<string, Value>, order: seq<string>, capability: string): Result<seq<AgentCard>, Exception> {
    DecodeAll(items, MatchingKeys(items, order, capability))
  }

  /**
   * The capability query returns every indexed card that lists the capability and
   * no card that lacks it.
   */
  lemma MatchingCardsExact(items: map<string, Value>, order: seq<string>, capability: string)
    requires MatchingCards(items, order, capability).Ok?
    ensures forall c :: c in MatchingCards(items, order, capability).value ==> capability in c.capabilities
    ensures forall k :: k in order && k in items && CardFromDict(items[k]).Ok? &&
                        capability in CardFromDict(items[k]).value.capabilities ==>
                        CardFromDict(items[k]).value in MatchingCards(items, order, capability).value
  {
    var keys := MatchingKeys(items, order, capability);
    var cards := MatchingCards(items, order, capability).value;
    forall c | c in cards ensures capability in c.capabilities {
      var i :| 0 <= i < |cards| && cards[i] == c;
      DecodedCapability(items[keys[i]], capability);
    }
    forall k | k in order && k in items && CardFromDict(items[k]).Ok? &&
               capability in CardFromDict(items[k]).value.capabilities
      ensures CardFromDict(items[k]).value in cards
    {
      DecodedCapability(items[k], capability);
      var i :| 0 <= i < |keys| && keys[i] == k;
      assert cards[i] == CardFromDict(items[k]).value;
    }
  }

  /**
   * When the index lists every registered key, the capability query returns every
   * registered card that lists the capability.
   */
  lemma MatchingCardsCoverTable(items: map<string, Value>, order: seq<string>, capability: string)
    requires MatchingCards(items, order, capability).Ok?
    requires forall k :: k in items ==> k in order
    ensures forall k :: k in items && CardFromDict(items[k]).Ok? && capability in CardFromDict(items[k]).value.capabilities ==>
                        CardFromDict(items[k]).value in MatchingCards(items, order, capability).value
  {
    MatchingCardsExact(items, order, capability);
  }

  /** The registry of agent cards, over a table keyed by `agent_id`. */
  class AgentRegistry {
    const table: Table
    const indexName: string

    predicate Valid() {
      table.keyName == "agent_id"
    }

    constructor (table: Table, indexName: string)
      requires table.keyName == "agent_id"
      ensures Valid() && this.table == table && this.indexName == indexName
    {
      this.table, this.indexName := table, indexName;
    }

    /** `register_agent`: puts the card's dict, answering false instead of raising when the put fails. */
    method RegisterAgent(card: AgentCard, fault: Option<Exception>) returns (ok: bool)
      requires Valid()
      modifies table
      ensures ok <==> fault.None?
      ensures table.items == if ok then old(table.items)[card.agentId := CardToDict(card)] else old(table.items)
    {
      var put := table.Put(CardToDict(card), fault);
      ok := put.Ok?;
    }

    /** `get_agent`: a store failure propagates; a missing item is None, not an error. */
    function GetAgent(agentId: string, fault: Option<Exception>): (r: Result<Option<AgentCard>, Exception>)
      reads table
      ensures fault.Some? ==> r == Err(fault.value)
      ensures fault.None? ==> r == LookupCard(table.items, agentId)
    {
      match table.Get(agentId, fault)
      case Err(e) => Err(e)
      case Ok(item) =>
        if item.Some? && Truthy(item.value) then
          match CardFromDict(item.value)
          case Ok(card) => Ok(Some(card))
          case Err(e) => Err(e)
        else Ok(None)
    }

    /** `find_agents_by_capability` as intended: the index's items that list the capability, decoded. */
    function FindAgentsByCapability(capability: string, order: seq<string>, fault: Option<Exception>)
      : (r: Result<seq<AgentCard>, Exception>)
      reads table
      ensures fault.Some? ==> r == Err(fault.value)
      ensures r.Ok? ==> forall c :: c in r.value ==> capability in c.capabilities
      ensures fault.None? ==> r == MatchingCards(table.items, order, capability)
      ensures r.Ok? && (forall k :: k in table.items ==> k in order) ==>
                forall k :: k in table.items && CardFromDict(table.items[k]).Ok? &&
                            capability in CardFromDict(table.items[k]).value.capabilities ==>
                            CardFromDict(table.items[k]).value in r.value
    {
      if fault.Some? then Err(fault.value)
      else
        var r := MatchingCards(table.items, order, capability);
        if r.Ok? then
          MatchingCardsExact(table.items, order, capability);
          if forall k :: k in table.items ==> k in order then MatchingCardsCoverTable(table.items, order, capability); r else r
        else r
    }

    /** `find_agents_by_capability` as written: `DynamoDB.query` has no `expression_values` parameter. */
    function FindAgentsByCapabilityAsWritten(capability: string): (r: Result<seq<AgentCard>, Exception>)
      ensures r.Err? && r.error.TypeError?
    {
      Err(TypeError("query() got an unexpected keyword argument 'expression_values'"))
    }
  }

  // ---------------------------------------------------------------------------
  // Mailbox keys
  // ---------------------------------------------------------------------------

  const MessagesRoot: string := "messages/"
  const ProcessedRoot: string := "messages/processed/"

  /** The listing prefix of an agent's mailbox. */
  function MailboxPrefix(agentId: string): (p: string)
    ensures MessagesRoot <= p
  {
    MessagesRoot + agentId + "/"
  }

  /** The key a message is deposited under. */
  function MessageKey(recipientId: string, messageId: string): (k: string)
    ensures MailboxPrefix(recipientId) <= k
  {
    var k := MessagesRoot + recipientId + "/" + messageId + ".json";
    assert k == MailboxPrefix(recipientId) + messageId + ".json";
    k
  }

  /** `key.replace("messages/", "messages/processed/")` */
  function ProcessedKey(key: string): string {
    Replace(key, MessagesRoot, ProcessedRoot)
  }

  /** A key under `messages/` whose tail holds no further `messages/` has only its root renamed. */
  lemma ProcessedKeyOf(key: string)
    requires MessagesRoot <= key && !Occurs(MessagesRoot, key[|MessagesRoot|..])
    ensures ProcessedKey(key) == ProcessedRoot + key[|MessagesRoot|..]
  {
    var t := key[|MessagesRoot|..];
    assert key == MessagesRoot + t;
    ReplaceLeading(t, MessagesRoot, ProcessedRoot);
    assert ProcessedRoot == MessagesRoot + "processed/";
  }

  /** The processed key of a mailbox key is never the key itself, so the move never deletes what it copied. */
  lemma ProcessedKeyDiffers(key: string)
    requires MessagesRoot <= key
    ensures ProcessedKey(key) != key
  {
    var t := key[|MessagesRoot|..];
    assert key == MessagesRoot + t;
    assert MessagesRoot <= key;
    assert ProcessedKey(key) == ProcessedRoot + Replace(t, MessagesRoot, ProcessedRoot);
    ReplaceLength(t, MessagesRoot, ProcessedRoot);
  }

  /** An agent id under which mailbox and processed keys cannot collide. */
  predicate SeparateAgentId(agentId: string) {
    '/' !in agentId && agentId != "processed"
  }

  // ---------------------------------------------------------------------------
  // Receiving: the loop of get_messages, as a function of the bucket
  // ---------------------------------------------------------------------------

  /**
   * The state of a receive: the messages collected so far, the exception that
   * ended it (if any), the bucket's objects, and the batch positions of the
   * keys moved to the processed namespace.
   */
  datatype Receipt = Receipt(messages: seq<AgentMessage>, error: Option<Exception>, objects: map<string, Value>, moved: seq<nat>)

  /** The fetch of one listed key; `faults` are the errors the service reports for particular keys. */
  function Fetch(objects: map<string, Value>, key: string, faults: map<string, Exception>): (r: Result<Option<Value>, Exception>)
    ensures r.Ok? && r.value.Some? ==> key in objects && r.value.value == objects[key]
    ensures key !in faults ==> r == Ok(if key in objects then Some(objects[key]) else None)
  {
    GetObjectRule(StoreAnswer(objects, key, if key in faults then Some(faults[key]) else None))
  }

  /** Copy to the processed key, then delete the original. */
  function MoveObject(objects: map<string, Value>, key: string): map<string, Value>
    requires key in objects
  {
    objects[ProcessedKey(key) := objects[key]] - {key}
  }

  /** One iteration of the loop, for the listed key at position i of the batch. */
  function Step(s: Receipt, batch: seq<string>, i: nat, faults: map<string, Exception>, stamps: nat -> Stamp): Receipt
    requires i < |batch|
  {
    var key := batch[i];
    match Fetch(s.objects, key, faults)
    case Err(e) => s.(error := Some(e))
    case Ok(data) =>
      if data.None? || !Truthy(data.value) then s
      else
        match MessageFromDict(data.value, stamps(i))
        case Err(e) => s.(error := Some(e))
        case Ok(m) => s.(messages := s.messages + [m], objects := MoveObject(s.objects, key), moved := s.moved + [i])
  }

  /** The loop from position i on; an exception ends it. */
  function ReceiveFrom(s: Receipt, batch: seq<string>, i: nat, faults: map<string, Exception>, stamps: nat -> Stamp): Receipt
    decreases |batch| - i
  {
    if i >= |batch| || s.error.Some? then s
    else ReceiveFrom(Step(s, batch, i, faults, stamps), batch, i + 1, faults, stamps)
  }

  /** The whole loop over a batch of listed keys, starting from the bucket's objects. */
  function Receive(objects: map<string, Value>, batch: seq<string>, faults: map<string, Exception>, stamps: nat -> Stamp): Receipt {
    ReceiveFrom(Receipt([], None, objects, []), batch, 0, faults, stamps)
  }

  /** What get_messages returns or raises for a receipt. */
  function Outcome(s: Receipt): Result<seq<AgentMessage>, Exception> {
    if s.error.Some? then Err(s.error.value) else Ok(s.messages)
  }

  /** No more messages are returned than keys are listed, since each position is moved at most once, in order. */
  lemma {:induction false} ReceiveBound(s: Receipt, batch: seq<string>, i: nat, faults: map<string, Exception>, stamps: nat -> Stamp)
    requires i <= |batch| && |s.messages| <= i
    ensures |ReceiveFrom(s, batch, i, faults, stamps).messages| <= |batch|
    decreases |batch| - i
  {
    if i < |batch| && s.error.None? {
      ReceiveBound(Step(s, batch, i, faults, stamps), batch, i + 1, faults, stamps);
    }
  }

  /** Listed keys that the move renames without collisions: distinct keys, distinct renamed keys, and no renamed key listed. */
  predicate MovableBatch(batch: seq<string>) {
    && (forall i, j :: 0 <= i < j < |batch| ==> batch[i] != batch[j])
    && (forall i, j :: 0 <= i < |batch| && 0 <= j < |batch| ==> ProcessedKey(batch[i]) != batch[j])
    && (forall i, j :: 0 <= i < |batch| && 0 <= j < |batch| && i != j ==> ProcessedKey(batch[i]) != ProcessedKey(batch[j]))
  }

  function MovedKeys(batch: seq<string>, moved: seq<nat>): set<string> {
    set j | 0 <= j < |moved| && moved[j] < |batch| :: batch[moved[j]]
  }

  function MovedTargets(batch: seq<string>, moved: seq<nat>): set<string> {
    set j | 0 <= j < |moved| && moved[j] < |batch| :: ProcessedKey(batch[moved[j]])
  }

  /** The key is gone, and its original document sits at its processed key. */
  predicate Consumed(initial: map<string, Value>, objects: map<string, Value>, key: string) {
    key in initial && key !in objects && ProcessedKey(key) in objects && objects[ProcessedKey(key)] == initial[key]
  }

  /** The key holds what it held at the start, or is absent as it was. */
  predicate Untouched(initial: map<string, Value>, objects: map<string, Value>, key: string) {
    (key in objects <==> key in initial) && (key in initial ==> objects[key] == initial[key])
  }

  /** The invariant of the receive loop after the positions before `bound` have been handled. */
  ghost predicate MovedNotLost(initial: map<string, Value>, batch: seq<string>, stamps: nat -> Stamp, s: Receipt, bound: nat) {
    && bound <= |batch|
    && |s.messages| == |s.moved|
    && (forall j :: 0 <= j < |s.moved| ==> s.moved[j] < bound)
    && (forall j1, j2 :: 0 <= j1 < j2 < |s.moved| ==> s.moved[j1] < s.moved[j2])
    && (forall j :: 0 <= j < |s.moved| ==>
          Consumed(initial, s.objects, batch[s.moved[j]]) &&
          MessageFromDict(initial[batch[s.moved[j]]], stamps(s.moved[j])) == Ok(s.messages[j]))
    && (forall k :: k !in MovedKeys(batch, s.moved) && k !in MovedTargets(batch, s.moved) ==>
          Untouched(initial, s.objects, k))
  }

  lemma StepKeepsMovedNotLost(initial: map<string, Value>, batch: seq<string>, faults: map<string, Exception>,
                              stamps: nat -> Stamp, s: Receipt, i: nat)
    requires MovableBatch(batch) && i < |batch| && s.error.None?
    requires MovedNotLost(initial, batch, stamps, s, i)
    ensures MovedNotLost(initial, batch, stamps, Step(s, batch, i, faults, stamps), i + 1)
  {
    var key := batch[i];
    NextKeyUntouched(initial, batch, stamps, s, i);
    var s' := Step(s, batch, i, faults, stamps);
    var fetched := Fetch(s.objects, key, faults);
    if fetched.Ok? && fetched.value.Some? && Truthy(fetched.value.value) {
      var decoded := MessageFromDict(fetched.value.value, stamps(i));
      if decoded.Ok? {
        assert s' == s.(messages := s.messages + [decoded.value], objects := MoveObject(s.objects, key), moved := s.moved + [i]);
        MoveKeepsConsumed(initial, batch, stamps, s, i, decoded.value);
        MoveKeepsUntouched(initial, batch, stamps, s, i, decoded.value);
      }
    }
  }

  /** The key at the next position has not been moved, and nothing has written to it. */
  lemma NextKeyUntouched(initial: map<string, Value>, batch: seq<string>, stamps: nat -> Stamp, s: Receipt, i: nat)
    requires MovableBatch(batch) && i < |batch|
    requires MovedNotLost(initial, batch, stamps, s, i)
    ensures batch[i] !in MovedKeys(batch, s.moved) && batch[i] !in MovedTargets(batch, s.moved)
    ensures Untouched(initial, s.objects, batch[i])
  {
    var key := batch[i];
    forall j | 0 <= j < |s.moved| ensures batch[s.moved[j]] != key {
      assert s.moved[j] < i;
    }
    forall j | 0 <= j < |s.moved| ensures ProcessedKey(batch[s.moved[j]]) != key {
      ProcessedKeyNotListed(batch, s.moved[j], i);
    }
  }

  /** Moving the next key keeps every earlier consumed key consumed and adds the new one. */
  lemma MoveKeepsConsumed(initial: map<string, Value>, batch: seq<string>, stamps: nat -> Stamp, s: Receipt, i: nat,
                          m: AgentMessage)
    requires MovableBatch(batch) && i < |batch|
    requires MovedNotLost(initial, batch, stamps, s, i)
    requires batch[i] in s.objects && Untouched(initial, s.objects, batch[i])
    requires MessageFromDict(s.objects[batch[i]], stamps(i)) == Ok(m)
    ensures var moved, objects := s.moved + [i], MoveObject(s.objects, batch[i]);
      forall j :: 0 <= j < |moved| ==>
        Consumed(initial, objects, batch[moved[j]]) &&
        MessageFromDict(initial[batch[moved[j]]], stamps(moved[j])) == Ok((s.messages + [m])[j])
  {
    var key := batch[i];
    var moved, objects := s.moved + [i], MoveObject(s.objects, key);
    ProcessedKeyNotListed(batch, i, i);
    forall j | 0 <= j < |moved|
      ensures Consumed(initial, objects, batch[moved[j]])
      ensures MessageFromDict(initial[batch[moved[j]]], stamps(moved[j])) == Ok((s.messages + [m])[j])
    {
      if j < |s.moved| {
        var p := s.moved[j];
        assert p < i;
        assert batch[p] != key;
        ProcessedKeyNotListed(batch, p, i);
        ProcessedKeyNotListed(batch, i, p);
        assert ProcessedKey(batch[p]) != ProcessedKey(key);
      }
    }
  }

  /** Moving the next key leaves untouched every key neither it, its target, nor consumed before. */
  lemma MoveKeepsUntouched(initial: map<string, Value>, batch: seq<string>, stamps: nat -> Stamp, s: Receipt, i: nat,
                           m: AgentMessage)
    requires i < |batch|
    requires MovedNotLost(initial, batch, stamps, s, i)
    requires batch[i] in s.objects
    ensures var moved, objects := s.moved + [i], MoveObject(s.objects, batch[i]);
      forall k :: k !in MovedKeys(batch, moved) && k !in MovedTargets(batch, moved) ==> Untouched(initial, objects, k)
  {
    var key := batch[i];
    var moved, objects := s.moved + [i], MoveObject(s.objects, key);
    forall k | k !in MovedKeys(batch, moved) && k !in MovedTargets(batch, moved)
      ensures Untouched(initial, objects, k)
    {
      assert i == moved[|s.moved|];
      assert k != key && k != ProcessedKey(key);
      assert k !in MovedKeys(batch, s.moved) by {
        forall j | 0 <= j < |s.moved| ensures batch[s.moved[j]] != k {
          assert moved[j] == s.moved[j];
        }
      }
      assert k !in MovedTargets(batch, s.moved) by {
        forall j | 0 <= j < |s.moved| ensures ProcessedKey(batch[s.moved[j]]) != k {
          assert moved[j] == s.moved[j];
        }
      }
    }
  }

  lemma ProcessedKeyNotListed(batch: seq<string>, i: nat, j: nat)
    requires MovableBatch(batch) && i < |batch| && j < |batch|
    ensures ProcessedKey(batch[i]) != batch[j]
  {
  }

  lemma {:induction false} ReceiveFromKeepsMovedNotLost(initial: map<string, Value>, batch: seq<string>,
                                                        faults: map<string, Exception>, stamps: nat -> Stamp,
                                                        s: Receipt, i: nat)
    requires MovableBatch(batch) && MovedNotLost(initial, batch, stamps, s, i)
    ensures MovedNotLost(initial, batch, stamps, ReceiveFrom(s, batch, i, faults, stamps), |batch|)
    decreases |batch| - i
  {
    if i >= |batch| || s.error.Some? {
    } else {
      StepKeepsMovedNotLost(initial, batch, faults, stamps, s, i);
      ReceiveFromKeepsMovedNotLost(initial, batch, faults, stamps, Step(s, batch, i, faults, stamps), i + 1);
    }
  }

  /**
   * Moved, never lost. For every message a receive returns (or had collected before an
   * exception ended it), in listing order: its key is gone, and the document fetched from
   * it, from which the message was decoded, now sits at its processed key. A listed key
   * that was not consumed is left as it was, and so is every key outside the batch and the
   * processed keys of the consumed ones.
   */
  lemma ReceivedMessagesAreMoved(initial: map<string, Value>, batch: seq<string>,
                                 faults: map<string, Exception>, stamps: nat -> Stamp)
    requires MovableBatch(batch)
    ensures var s := Receive(initial, batch, faults, stamps);
      && |s.messages| == |s.moved|
      && (forall j :: 0 <= j < |s.moved| ==> s.moved[j] < |batch|)
      && (forall j1, j2 :: 0 <= j1 < j2 < |s.moved| ==> s.moved[j1] < s.moved[j2])
      && (forall j :: 0 <= j < |s.moved| ==>
            Consumed(initial, s.objects, batch[s.moved[j]]) &&
            MessageFromDict(initial[batch[s.moved[j]]], stamps(s.moved[j])) == Ok(s.messages[j]))
      && (forall i :: 0 <= i < |batch| && i !in s.moved ==> Untouched(initial, s.objects, batch[i]))
      && (forall k :: k !in batch && k !in MovedTargets(batch, s.moved) ==> Untouched(initial, s.objects, k))
  {
    var s0 := Receipt([], None, initial, []);
    assert MovedNotLost(initial, batch, stamps, s0, 0);
    ReceiveFromKeepsMovedNotLost(initial, batch, faults, stamps, s0, 0);
    var s := Receive(initial, batch, faults, stamps);
    forall i | 0 <= i < |batch| && i !in s.moved ensures Untouched(initial, s.objects, batch[i]) {
      assert batch[i] !in MovedKeys(batch, s.moved) by {
        forall j | 0 <= j < |s.moved| ensures batch[s.moved[j]] != batch[i] {
          assert s.moved[j] != i;
        }
      }
      assert batch[i] !in MovedTargets(batch, s.moved) by {
        forall j | 0 <= j < |s.moved| ensures ProcessedKey(batch[s.moved[j]]) != batch[i] {
          ProcessedKeyNotListed(batch, s.moved[j], i);
        }
      }
    }
    forall k | k !in batch && k !in MovedTargets(batch, s.moved) ensures Untouched(initial, s.objects, k) {
      assert k !in MovedKeys(batch, s.moved);
    }
  }

  /** The loop only ever adds positions to the moved ones. */
  lemma {:induction false} ReceiveFromGrows(s: Receipt, batch: seq<string>, i: nat, faults: map<string, Exception>,
                                            stamps: nat -> Stamp)
    ensures forall j :: j in s.moved ==> j in ReceiveFrom(s, batch, i, faults, stamps).moved
    decreases |batch| - i
  {
    if i < |batch| && s.error.None? {
      var s' := Step(s, batch, i, faults, stamps);
      assert forall j :: j in s.moved ==> j in s'.moved;
      ReceiveFromGrows(s', batch, i + 1, faults, stamps);
    }
  }

  /** From position i on, a loop that ends without an exception moves every listed key holding a truthy, unfaulted document. */
  lemma {:induction false} ReceiveFromTakes(initial: map<string, Value>, batch: seq<string>,
                                            faults: map<string, Exception>, stamps: nat -> Stamp, s: Receipt, i: nat)
    requires MovableBatch(batch) && MovedNotLost(initial, batch, stamps, s, i)
    ensures var t := ReceiveFrom(s, batch, i, faults, stamps);
      t.error.None? ==>
        forall j :: i <= j < |batch| && batch[j] in initial && batch[j] !in faults && Truthy(initial[batch[j]]) ==>
          j in t.moved
    decreases |batch| - i
  {
    if i < |batch| && s.error.None? {
      var key := batch[i];
      var s' := Step(s, batch, i, faults, stamps);
      var t := ReceiveFrom(s', batch, i + 1, faults, stamps);
      assert ReceiveFrom(s, batch, i, faults, stamps) == t;
      NextKeyUntouched(initial, batch, stamps, s, i);
      StepKeepsMovedNotLost(initial, batch, faults, stamps, s, i);
      ReceiveFromTakes(initial, batch, faults, stamps, s', i + 1);
      if key in initial && key !in faults && Truthy(initial[key]) {
        assert Fetch(s.objects, key, faults) == Ok(Some(initial[key]));
        if MessageFromDict(initial[key], stamps(i)).Ok? {
          assert i in s'.moved;
          ReceiveFromGrows(s', batch, i + 1, faults, stamps);
        } else {
          assert s'.error.Some?;
          assert t == s';
        }
      }
    }
  }

  /**
   * Nothing waiting is left behind: a receive that ends without an exception has moved
   * every listed key that holds a truthy document and whose fetch does not fail.
   */
  lemma ReceiveTakesEveryMessage(initial: map<string, Value>, batch: seq<string>,
                                 faults: map<string, Exception>, stamps: nat -> Stamp)
    requires MovableBatch(batch)
    ensures var s := Receive(initial, batch, faults, stamps);
      s.error.None? ==>
        forall j :: 0 <= j < |batch| && batch[j] in initial && batch[j] !in faults && Truthy(initial[batch[j]]) ==>
          j in s.moved
  {
    var s0 := Receipt([], None, initial, []);
    assert MovedNotLost(initial, batch, stamps, s0, 0);
    ReceiveFromTakes(initial, batch, faults, stamps, s0, 0);
  }

  /** A key one receive consumed is never consumed again by a later receive, even if a stale listing still names it. */
  lemma ConsumedOnlyOnce(initial: map<string, Value>, first: seq<string>, second: seq<string>,
                         faults: map<string, Exception>, stamps: nat -> Stamp)
    requires MovableBatch(first) && MovableBatch(second)
    ensures var s1 := Receive(initial, first, faults, stamps);
            var s2 := Receive(s1.objects, second, faults, stamps);
            MovedKeys(first, s1.moved) !! MovedKeys(second, s2.moved)
  {
    var s1 := Receive(initial, first, faults, stamps);
    var s2 := Receive(s1.objects, second, faults, stamps);
    ReceivedMessagesAreMoved(initial, first, faults, stamps);
    ReceivedMessagesAreMoved(s1.objects, second, faults, stamps);
    forall k | k in MovedKeys(first, s1.moved) ensures k !in s1.objects {
      var j :| 0 <= j < |s1.moved| && s1.moved[j] < |first| && first[s1.moved[j]] == k;
    }
    forall k | k in MovedKeys(second, s2.moved) ensures k in s1.objects {
      var j :| 0 <= j < |s2.moved| && s2.moved[j] < |second| && second[s2.moved[j]] == k;
    }
  }

  /** The first `/` of a string that begins with a slash-free segment and a `/` comes right after the segment. */
  lemma NotProcessedSegment(agentId: string, z: string)
    requires SeparateAgentId(agentId)
    ensures agentId + "/" <= z ==> !("processed/" <= z)
  {
    if agentId + "/" <= z {
      var n := |agentId|;
      var p := "processed/";
      assert z[n] == '/';
      if n < 9 {
        assert p[n] != '/';
      } else if n > 9 {
        assert z[9] == agentId[9];
        assert z[9] != p[9];
      } else {
        assert z[..9] == agentId;
        assert p[..9] == "processed";
      }
    }
  }

  /**
   * The keys a listing under an agent's mailbox prefix returns are movable when the agent id
   * has no `/` and is not `processed`, and no `messages/` follows the root in any key.
   */
  lemma MailboxListingIsMovable(agentId: string, batch: seq<string>)
    requires SeparateAgentId(agentId)
    requires forall i :: 0 <= i < |batch| ==>
               MailboxPrefix(agentId) <= batch[i] && !Occurs(MessagesRoot, batch[i][|MessagesRoot|..])
    requires forall i, j :: 0 <= i < j < |batch| ==> batch[i] != batch[j]
    ensures MovableBatch(batch)
  {
    var r := |MessagesRoot|;
    forall i | 0 <= i < |batch|
      ensures ProcessedKey(batch[i]) == ProcessedRoot + batch[i][r..]
      ensures batch[i] == MessagesRoot + batch[i][r..]
      ensures agentId + "/" <= batch[i][r..]
    {
      ProcessedKeyOf(batch[i]);
    }
    forall i, j | 0 <= i < |batch| && 0 <= j < |batch| ensures ProcessedKey(batch[i]) != batch[j] {
      var z := batch[j][r..];
      NotProcessedSegment(agentId, z);
      assert (ProcessedRoot + batch[i][r..])[r..] == "processed/" + batch[i][r..];
    }
    forall i, j | 0 <= i < |batch| && 0 <= j < |batch| && i != j ensures ProcessedKey(batch[i]) != ProcessedKey(batch[j]) {
      assert batch[i] != batch[j] by {
        if i < j {} else {}
      }
      assert (ProcessedRoot + batch[i][r..])[|ProcessedRoot|..] == batch[i][r..];
      assert (ProcessedRoot + batch[j][r..])[|ProcessedRoot|..] == batch[j][r..];
    }
  }

  /** A mailbox key moves into the agent's own processed area. */
  lemma ProcessedKeyInProcessedMailbox(agentId: string, key: string)
    requires MailboxPrefix(agentId) <= key && !Occurs(MessagesRoot, key[|MessagesRoot|..])
    ensures ProcessedRoot + agentId + "/" <= ProcessedKey(key)
  {
    var r := |MessagesRoot|;
    ProcessedKeyOf(key);
    assert key[r..][..|agentId + "/"|] == MailboxPrefix(agentId)[r..];
    assert (ProcessedRoot + key[r..])[..|ProcessedRoot + agentId + "/"|] == ProcessedRoot + key[r..][..|agentId + "/"|];
  }

  /** A listing of the agent's mailbox whose keys hold no further `messages/`, each key listed once. */
  predicate MailboxListing(agentId: string, listing: seq<string>) {
    && (forall i :: 0 <= i < |listing| ==>
          MailboxPrefix(agentId) <= listing[i] && !Occurs(MessagesRoot, listing[i][|MessagesRoot|..]))
    && (forall i, j :: 0 <= i < j < |listing| ==> listing[i] != listing[j])
  }

  /** Every cut of such a listing, as `get_messages` takes with its limit, is a movable batch. */
  lemma MailboxBatchIsMovable(agentId: string, listing: seq<string>, limit: int)
    requires SeparateAgentId(agentId) && MailboxListing(agentId, listing)
    ensures MovableBatch(SliceTo(listing, limit))
  {
    var batch := SliceTo(listing, limit);
    assert forall i :: 0 <= i < |batch| ==> batch[i] == listing[i];
    MailboxListingIsMovable(agentId, batch);
  }

  /**
   * A receive over a cut of the agent's mailbox listing changes no key outside the
   * agent's mailbox and the agent's processed area.
   */
  lemma MailboxReceiveStaysInMailbox(initial: map<string, Value>, agentId: string, listing: seq<string>, limit: int,
                                     faults: map<string, Exception>, stamps: nat -> Stamp)
    requires SeparateAgentId(agentId) && MailboxListing(agentId, listing)
    ensures var s := Receive(initial, SliceTo(listing, limit), faults, stamps);
      forall k :: !(MailboxPrefix(agentId) <= k) && !(ProcessedRoot + agentId + "/" <= k) ==> Untouched(initial, s.objects, k)
  {
    var batch := SliceTo(listing, limit);
    MailboxBatchIsMovable(agentId, listing, limit);
    ReceivedMessagesAreMoved(initial, batch, faults, stamps);
    var s := Receive(initial, batch, faults, stamps);
    forall k | !(MailboxPrefix(agentId) <= k) && !(ProcessedRoot + agentId + "/" <= k)
      ensures Untouched(initial, s.objects, k)
    {
      assert forall i :: 0 <= i < |batch| ==> batch[i] == listing[i];
      forall j | 0 <= j < |s.moved| && s.moved[j] < |batch| ensures ProcessedKey(batch[s.moved[j]]) != k {
        ProcessedKeyInProcessedMailbox(agentId, batch[s.moved[j]]);
      }
    }
  }

  // ---------------------------------------------------------------------------
  // The protocol engine
  // ---------------------------------------------------------------------------

  /** The message `send_message` builds: the bound agent is the sender, and the message has no ttl. */
  function Outgoing(senderId: string, recipientId: string, content: map<string, Value>,
                    correlationId: Option<string>, stamp: Stamp): AgentMessage {
    AgentMessage(stamp.messageId, senderId, recipientId, content, correlationId, stamp.timestamp, None)
  }

  /** The documented send: the stored document decodes to a message from the bound agent with the given fields. */
  lemma SentDocumentDecodes(senderId: string, recipientId: string, content: map<string, Value>,
                            correlationId: Option<string>, stamp: Stamp, later: Stamp)
    ensures var m := MessageFromDict(MessageToDict(Outgoing(senderId, recipientId, content, correlationId, stamp)), later);
            m.Ok? && m.value.messageId == stamp.messageId && m.value.senderId == senderId &&
            m.value.recipientId == recipientId && m.value.content == content &&
            m.value.correlationId == correlationId
  {
    MessageRoundTrip(Outgoing(senderId, recipientId, content, correlationId, stamp), later);
  }

  /** A message deposited in an agent's mailbox is returned by that agent's next receive of its key, and moved. */
  lemma SentMessageIsReceived(objects: map<string, Value>, m: AgentMessage,
                              faults: map<string, Exception>, stamps: nat -> Stamp)
    requires MessageKey(m.recipientId, m.messageId) !in faults
    ensures var key := MessageKey(m.recipientId, m.messageId);
            var s := Receive(objects[key := MessageToDict(m)], [key], faults, stamps);
            s.error.None? && s.messages == [m] && key !in s.objects &&
            ProcessedKey(key) in s.objects && s.objects[ProcessedKey(key)] == MessageToDict(m)
  {
    var key := MessageKey(m.recipientId, m.messageId);
    var objects' := objects[key := MessageToDict(m)];
    var s0 := Receipt([], None, objects', []);
    MessageRoundTrip(m, stamps(0));
    assert Fetch(objects', key, faults) == Ok(Some(MessageToDict(m)));
    var s1 := Step(s0, [key], 0, faults, stamps);
    assert s1 == Receipt([m], None, MoveObject(objects', key), [0]);
    assert Receive(objects', [key], faults, stamps) == ReceiveFrom(s1, [key], 1, faults, stamps) == s1;
    assert MessagesRoot <= key;
    ProcessedKeyDiffers(key);
  }

  /** The first step of a receive over a deposited message's key moves it and returns it. */
  lemma DepositedMessageStep(objects: map<string, Value>, m: AgentMessage, batch: seq<string>,
                             faults: map<string, Exception>, stamps: nat -> Stamp)
    requires batch != [] && batch[0] == MessageKey(m.recipientId, m.messageId) && batch[0] !in faults
    requires batch[0] in objects && objects[batch[0]] == MessageToDict(m)
    ensures Step(Receipt([], None, objects, []), batch, 0, faults, stamps) == Receipt([m], None, MoveObject(objects, batch[0]), [0])
  {
    MessageRoundTrip(m, stamps(0));
    assert Fetch(objects, batch[0], faults) == Ok(Some(MessageToDict(m)));
  }

  /**
   * A message moved before a later fetch raises is lost to the caller: the receive
   * returns only the exception, while the message already sits at its processed key
   * and no longer in the mailbox.
   */
  lemma MovedMessageLostOnLaterError(objects: map<string, Value>, m: AgentMessage, other: string, e: Exception,
                                     stamps: nat -> Stamp)
    requires other != MessageKey(m.recipientId, m.messageId) && e != ClientError("NoSuchKey")
    ensures var key := MessageKey(m.recipientId, m.messageId);
            var s := Receive(objects[key := MessageToDict(m)], [key, other], map[other := e], stamps);
            Outcome(s) == Err(e) && key !in s.objects &&
            ProcessedKey(key) in s.objects && s.objects[ProcessedKey(key)] == MessageToDict(m)
  {
    var key := MessageKey(m.recipientId, m.messageId);
    var objects' := objects[key := MessageToDict(m)];
    var faults := map[other := e];
    var batch := [key, other];
    DepositedMessageStep(objects', m, batch, faults, stamps);
    var s1 := Step(Receipt([], None, objects', []), batch, 0, faults, stamps);
    assert Fetch(s1.objects, other, faults) == Err(e);
    var s2 := Step(s1, batch, 1, faults, stamps);
    assert s2 == s1.(error := Some(e));
    assert Receive(objects', batch, faults, stamps) == ReceiveFrom(s1, batch, 1, faults, stamps) == s2;
    assert MessagesRoot <= key;
    ProcessedKeyDiffers(key);
  }

  /**
   * A message deposited in an agent's mailbox is returned, and moved, by any receive
   * whose listing names its key and that ends without an exception.
   */
  lemma SentMessageInListingIsReceived(objects: map<string, Value>, m: AgentMessage, batch: seq<string>,
                                       faults: map<string, Exception>, stamps: nat -> Stamp)
    requires MovableBatch(batch)
    requires MessageKey(m.recipientId, m.messageId) in batch && MessageKey(m.recipientId, m.messageId) !in faults
    ensures var key := MessageKey(m.recipientId, m.messageId);
            var s := Receive(objects[key := MessageToDict(m)], batch, faults, stamps);
            s.error.None? ==>
              m in s.messages && key !in s.objects &&
              ProcessedKey(key) in s.objects && s.objects[ProcessedKey(key)] == MessageToDict(m)
  {
    var key := MessageKey(m.recipientId, m.messageId);
    var initial := objects[key := MessageToDict(m)];
    var s := Receive(initial, batch, faults, stamps);
    ReceiveTakesEveryMessage(initial, batch, faults, stamps);
    ReceivedMessagesAreMoved(initial, batch, faults, stamps);
    if s.error.None? {
      var j :| 0 <= j < |batch| && batch[j] == key;
      assert j in s.moved;
      var idx :| 0 <= idx < |s.moved| && s.moved[idx] == j;
      MessageRoundTrip(m, stamps(j));
      assert s.messages[idx] == m;
    }
  }

  /** A listed key that is no longer in the bucket is skipped, and nothing is moved. */
  lemma StaleKeySkipped(objects: map<string, Value>, key: string, faults: map<string, Exception>, stamps: nat -> Stamp)
    requires key !in objects && key !in faults
    ensures Receive(objects, [key], faults, stamps) == Receipt([], None, objects, [])
  {
    var s0 := Receipt([], None, objects, []);
    assert Step(s0, [key], 0, faults, stamps) == s0;
    assert Receive(objects, [key], faults, stamps) == ReceiveFrom(s0, [key], 1, faults, stamps) == s0;
  }

  /** The protocol engine bound to one agent id, one message bucket and one registry. */
  class A2AProtocol {
    const agentId: string
    const messageBucket: Bucket
    const registry: AgentRegistry

    constructor (agentId: string, messageBucket: Bucket, registry: AgentRegistry)
      ensures this.agentId == agentId && this.messageBucket == messageBucket && this.registry == registry
    {
      this.agentId, this.messageBucket, this.registry := agentId, messageBucket, registry;
    }

    /**
     * `send_message`: deposits the message under `messages/<recipient>/<id>.json` and
     * returns its id; `stamp` is the id and time the message is created with, `fault` an
     * error the put raises instead.
     */
    method SendMessage(recipientId: string, content: map<string, Value>, correlationId: Option<string>,
                       stamp: Stamp, fault: Option<Exception>)
      returns (r: Result<string, Exception>)
      modifies messageBucket
      ensures r == if fault.None? then Ok(stamp.messageId) else Err(fault.value)
      ensures messageBucket.objects ==
        if fault.None? then
          old(messageBucket.objects)[MessageKey(recipientId, stamp.messageId) :=
                                     MessageToDict(Outgoing(agentId, recipientId, content, correlationId, stamp))]
        else old(messageBucket.objects)
    {
      var message := Outgoing(agentId, recipientId, content, correlationId, stamp);
      var key := MessageKey(recipientId, message.messageId);
      var put := messageBucket.PutObject(key, MessageToDict(message), fault);
      if put.Err? {
        return Err(put.error);
      }
      r := Ok(message.messageId);
    }

    /**
     * `get_messages` as intended. `listing` is what the prefix listing returns (it may be
     * stale: a key another receiver consumed meanwhile is fetched as absent and skipped),
     * `listFault` an error the listing raises, `faults` errors the fetch of particular keys
     * raises, and `stamps(i)` the defaults from_dict would use for the i-th listed key.
     */
    method GetMessages(limit: int, listing: seq<string>, listFault: Option<Exception>,
                       faults: map<string, Exception>, stamps: nat -> Stamp)
      returns (r: Result<seq<AgentMessage>, Exception>)
      requires forall k :: k in listing ==> MailboxPrefix(agentId) <= k
      requires forall i, j :: 0 <= i < j < |listing| ==> listing[i] != listing[j]
      modifies messageBucket
      ensures listFault.Some? ==> r == Err(listFault.value) && messageBucket.objects == old(messageBucket.objects)
      ensures listFault.None? ==>
        var s := Receive(old(messageBucket.objects), SliceTo(listing, limit), faults, stamps);
        r == Outcome(s) && messageBucket.objects == s.objects
      ensures r.Ok? ==> |r.value| <= |SliceTo(listing, limit)| && (0 <= limit ==> |r.value| <= limit)
      ensures SeparateAgentId(agentId) && MailboxListing(agentId, listing) ==>
        forall k :: !(MailboxPrefix(agentId) <= k) && !(ProcessedRoot + agentId + "/" <= k) ==>
          Untouched(old(messageBucket.objects), messageBucket.objects, k)
    {
      if listFault.Some? {
        return Err(listFault.value);
      }
      var batch := SliceTo(listing, limit);
      if SeparateAgentId(agentId) && MailboxListing(agentId, listing) {
        MailboxReceiveStaysInMailbox(messageBucket.objects, agentId, listing, limit, faults, stamps);
      }
      ghost var final := Receive(messageBucket.objects, batch, faults, stamps);
      ReceiveBound(Receipt([], None, messageBucket.objects, []), batch, 0, faults, stamps);
      var messages: seq<AgentMessage> := [];
      ghost var moved: seq<nat> := [];
      var i: nat := 0;
      while i < |batch|
        invariant i <= |batch|
        invariant ReceiveFrom(Receipt(messages, None, messageBucket.objects, moved), batch, i, faults, stamps) == final
      {
        var error;
        messages, moved, error := ReceiveStep(batch, i, messages, moved, faults, stamps);
        if error.Some? {
          return Err(error.value);
        }
        i := i + 1;
      }
      r := Ok(messages);
    }

    /**
     * One pass of the receive loop for the listed key at position i: fetch it; skip a
     * missing or falsy document; otherwise decode it, append the message, and move the
     * document to its processed key. A fetch or decode exception is returned in `error`.
     */
    method ReceiveStep(batch: seq<string>, i: nat, messages: seq<AgentMessage>, ghost moved: seq<nat>,
                       faults: map<string, Exception>, stamps: nat -> Stamp)
      returns (messages': seq<AgentMessage>, ghost moved': seq<nat>, error: Option<Exception>)
      requires i < |batch|
      modifies messageBucket
      ensures Receipt(messages', error, messageBucket.objects, moved') ==
              Step(Receipt(messages, None, old(messageBucket.objects), moved), batch, i, faults, stamps)
    {
      var key := batch[i];
      ghost var s := Receipt(messages, None, messageBucket.objects, moved);
      messages', moved', error := messages, moved, None;
      var data := messageBucket.GetObject(key, if key in faults then Some(faults[key]) else None);
      assert data == Fetch(s.objects, key, faults);
      if data.Err? {
        error := Some(data.error);
        return;
      }
      if data.value.Some? && Truthy(data.value.value) {
        var message := MessageFromDict(data.value.value, stamps(i));
        if message.Err? {
          error := Some(message.error);
          return;
        }
        messages' := messages + [message.value];
        var newKey := ProcessedKey(key);
        var copied := messageBucket.CopyObject(key, newKey);
        messageBucket.DeleteObject(key);
        moved' := moved + [i];
      }
    }

    /** `get_messages` as written: `S3` has no `list_objects`, so the call raises before touching the bucket. */
    method GetMessagesAsWritten(limit: int) returns (r: Result<seq<AgentMessage>, Exception>)
      ensures r == Err(AttributeError("type object 'S3' has no attribute 'list_objects'"))
    {
      r := Err(AttributeError("type object 'S3' has no attribute 'list_objects'"));
    }
  }

  /**
   * A sample exchange: agent-a sends to agent-b, agent-b's receive
   * returns that message, and a second receive, whether the listing is fresh or stale,
   * returns nothing.
   */
  method SendReceiveScenario(content: map<string, Value>, stamp: Stamp, stamps: nat -> Stamp)
    returns (sent: Result<string, Exception>, first: Result<seq<AgentMessage>, Exception>,
             again: Result<seq<AgentMessage>, Exception>, stale: Result<seq<AgentMessage>, Exception>)
    ensures sent == Ok(stamp.messageId)
    ensures first == Ok([AgentMessage(stamp.messageId, "agent-a", "agent-b", content, None, stamp.timestamp, None)])
    ensures again == Ok([]) && stale == Ok([])
  {
    var bucket := new Bucket(map[]);
    var table := new Table("agent_id", map[]);
    var registry := new AgentRegistry(table, "capabilities-index");
    var a := new A2AProtocol("agent-a", bucket, registry);
    var b := new A2AProtocol("agent-b", bucket, registry);
    sent := a.SendMessage("agent-b", content, None, stamp, None);
    var key := MessageKey("agent-b", stamp.messageId);
    var m := Outgoing("agent-a", "agent-b", content, None, stamp);
    assert bucket.objects == map[key := MessageToDict(m)];
    SentMessageIsReceived(map[], m, map[], stamps);
    assert SliceTo([key], 10) == [key];
    first := b.GetMessages(10, [key], None, map[], stamps);
    assert key !in bucket.objects;
    again := b.GetMessages(10, [], None, map[], stamps);
    StaleKeySkipped(bucket.objects, key, map[], stamps);
    stale := b.GetMessages(10, [key], None, map[], stamps);
  }

  /**
   * The discrepancy of `get_messages`: with one message waiting, the code as written
   * raises, where the intended receive returns the message.
   */
  method MailboxAsWrittenFails(m: AgentMessage, stamps: nat -> Stamp)
    returns (asWritten: Result<seq<AgentMessage>, Exception>, intended: Result<seq<AgentMessage>, Exception>)
    ensures asWritten.Err? && asWritten.error.AttributeError?
    ensures intended == Ok([m])
  {
    var key := MessageKey(m.recipientId, m.messageId);
    var bucket := new Bucket(map[key := MessageToDict(m)]);
    var table := new Table("agent_id", map[]);
    var registry := new AgentRegistry(table, "capabilities-index");
    var receiver := new A2AProtocol(m.recipientId, bucket, registry);
    asWritten := receiver.GetMessagesAsWritten(10);
    SentMessageIsReceived(map[], m, map[], stamps);
    assert map[][key := MessageToDict(m)] == map[key := MessageToDict(m)];
    assert SliceTo([key], 10) == [key];
    intended := receiver.GetMessages(10, [key], None, map[], stamps);
  }

  /** The discrepancy of `find_agents_by_capability`: whenever the intended query answers, the code as written raises instead. */
  lemma FindAsWrittenDiffers(registry: AgentRegistry, capability: string, order: seq<string>)
    requires MatchingCards(registry.table.items, order, capability).Ok?
    ensures registry.FindAgentsByCapabilityAsWritten(capability).Err?
    ensures registry.FindAgentsByCapability(capability, order, None).Ok?
  {
  }
}
