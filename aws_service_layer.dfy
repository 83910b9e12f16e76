/**
 * The service layer: the `retry` decorator's loop, the memo table of
 * service clients, the rule of `S3.get_object` that turns a missing key
 * into None, and the S3 bucket and DynamoDB table that the protocol layer
 * stores into, each modelled as a map held in an object.
 */
module AwsServiceLayer {
  import opened Python

  // ---------------------------------------------------------------------------
  // retry(max_attempts, base_delay, exponential)
  // ---------------------------------------------------------------------------

  /** The number of iterations of `for attempt in range(max_attempts)`. */
  function Budget(maxAttempts: int): nat {
    if maxAttempts < 0 then 0 else maxAttempts
  }

  function Pow2(k: nat): (p: nat)
    ensures p >= 1
  {
    if k == 0 then 1 else 2 * Pow2(k - 1)
  }

  /** The length of the k-th sleep (counting from 0); with `exponential` the delay doubles after every sleep. */
  function Delay(baseDelay: real, exponential: bool, k: nat): real {
    if exponential then baseDelay * (Pow2(k) as real) else baseDelay
  }

  /** The index of the first attempt at or after `from` that returns, or `budget` when none before it does. */
  function FirstSuccess<T>(attempt: nat -> Result<T, Exception>, from: nat, budget: nat): (n: nat)
    requires from <= budget
    ensures from <= n <= budget
    ensures forall k :: from <= k < n ==> attempt(k).Err?
    ensures n < budget ==> attempt(n).Ok?
    decreases budget - from
  {
    if from == budget || attempt(from).Ok? then from else FirstSuccess(attempt, from + 1, budget)
  }

  /** The exception raised by `raise last_exception` while `last_exception` is still None. */
  const RaiseNone: Exception := TypeError("exceptions must derive from BaseException")

  /** What the wrapped call returns or raises: the first result, else the last exception. */
  function RetryResult<T>(attempt: nat -> Result<T, Exception>, maxAttempts: int): Result<T, Exception> {
    var m := Budget(maxAttempts);
    var n := FirstSuccess(attempt, 0, m);
    if n < m then attempt(n)
    else if m == 0 then Err(RaiseNone)
    else attempt(m - 1)
  }

  /** How many times the wrapped function is called. */
  function RetryCalls<T>(attempt: nat -> Result<T, Exception>, maxAttempts: int): nat {
    var m := Budget(maxAttempts);
    var n := FirstSuccess(attempt, 0, m);
    if n < m then n + 1 else m
  }

  /** How many times the wrapper sleeps: after every failed attempt but the last one of the budget. */
  function SleepCount<T>(attempt: nat -> Result<T, Exception>, maxAttempts: int): nat {
    var m := Budget(maxAttempts);
    var n := FirstSuccess(attempt, 0, m);
    if n < m then n else if m == 0 then 0 else m - 1
  }

  /**
   * The wrapper built by `retry(max_attempts, base_delay, exponential)` around a
   * function whose k-th call has outcome `attempt(k)`. Besides the outcome it
   * reports how many calls it made and the sleeps it requested, in order.
   */
  method Retry<T>(maxAttempts: int, baseDelay: real, exponential: bool, attempt: nat -> Result<T, Exception>)
    returns (r: Result<T, Exception>, calls: nat, sleeps: seq<real>)
    ensures r == RetryResult(attempt, maxAttempts)
    ensures calls == RetryCalls(attempt, maxAttempts) <= Budget(maxAttempts)
    ensures |sleeps| == SleepCount(attempt, maxAttempts)
    ensures forall k :: 0 <= k < |sleeps| ==> sleeps[k] == Delay(baseDelay, exponential, k)
  {
    var lastException: Option<Exception> := None;
    var delay := baseDelay;
    calls, sleeps := 0, [];
    var i := 0;
    while i < maxAttempts
      invariant 0 <= i <= Budget(maxAttempts)
      invariant calls == i
      invariant forall k :: 0 <= k < i ==> attempt(k).Err?
      invariant lastException == if i == 0 then None else Some(attempt(i - 1).error)
      invariant |sleeps| == (if i == 0 then 0 else if i < maxAttempts then i else i - 1)
      invariant forall k :: 0 <= k < |sleeps| ==> sleeps[k] == Delay(baseDelay, exponential, k)
      invariant exponential ==> delay == Delay(baseDelay, true, |sleeps|)
    {
      var outcome := attempt(i);
      calls := calls + 1;
      if outcome.Ok? {
        FirstSuccessIs(attempt, 0, i, Budget(maxAttempts));
        return outcome, calls, sleeps;
      }
      lastException := Some(outcome.error);
      if i < maxAttempts - 1 {
        if exponential {
          DelayDoubles(baseDelay, |sleeps|);
          sleeps := sleeps + [delay];
          delay := delay * 2.0;
        } else {
          assert baseDelay == Delay(baseDelay, exponential, |sleeps|);
          sleeps := sleeps + [baseDelay];
        }
        assert sleeps[|sleeps| - 1] == Delay(baseDelay, exponential, |sleeps| - 1);
      }
      i := i + 1;
    }
    FirstSuccessIs(attempt, 0, Budget(maxAttempts), Budget(maxAttempts));
    match lastException
    case None => r := Err(RaiseNone);
    case Some(e) => r := Err(e);
  }

  /** Each exponential delay is twice the one before. */
  lemma DelayDoubles(baseDelay: real, k: nat)
    ensures Delay(baseDelay, true, k + 1) == Delay(baseDelay, true, k) * 2.0
  {
    assert (Pow2(k + 1) as real) == (Pow2(k) as real) * 2.0;
  }

  /** FirstSuccess is determined by the outcomes: it is the first returning attempt, or the budget. */
  lemma {:induction false} FirstSuccessIs<T>(attempt: nat -> Result<T, Exception>, from: nat, n: nat, budget: nat)
    requires from <= n <= budget
    requires forall k :: from <= k < n ==> attempt(k).Err?
    requires n < budget ==> attempt(n).Ok?
    ensures FirstSuccess(attempt, from, budget) == n
    decreases n - from
  {
    if from < n {
      FirstSuccessIs(attempt, from + 1, n, budget);
    }
  }

  /** If attempt n is the first to return, the wrapper returns its result after exactly n + 1 calls and n sleeps. */
  lemma RetrySucceedsAt<T>(attempt: nat -> Result<T, Exception>, maxAttempts: int, n: nat)
    requires n < maxAttempts
    requires forall k :: 0 <= k < n ==> attempt(k).Err?
    requires attempt(n).Ok?
    ensures RetryResult(attempt, maxAttempts) == attempt(n)
    ensures RetryCalls(attempt, maxAttempts) == n + 1
    ensures SleepCount(attempt, maxAttempts) == n
  {
    FirstSuccessIs(attempt, 0, n, Budget(maxAttempts));
  }

  /** If every attempt raises, the last exception surfaces after max_attempts calls and max_attempts - 1 sleeps. */
  lemma RetryExhausted<T>(attempt: nat -> Result<T, Exception>, maxAttempts: int)
    requires maxAttempts >= 1
    requires forall k :: 0 <= k < maxAttempts ==> attempt(k).Err?
    ensures RetryResult(attempt, maxAttempts) == Err(attempt(maxAttempts - 1).error)
    ensures RetryCalls(attempt, maxAttempts) == maxAttempts
    ensures SleepCount(attempt, maxAttempts) == maxAttempts - 1
  {
    FirstSuccessIs(attempt, 0, maxAttempts, maxAttempts);
  }

  /** With a budget of zero attempts the wrapper calls nothing and raises the TypeError of `raise None`. */
  lemma RetryWithoutBudget<T>(attempt: nat -> Result<T, Exception>, maxAttempts: int)
    requires maxAttempts <= 0
    ensures RetryResult(attempt, maxAttempts) == Err(RaiseNone)
    ensures RetryCalls(attempt, maxAttempts) == 0 && SleepCount(attempt, maxAttempts) == 0
  {
  }

  // ---------------------------------------------------------------------------
  // get_client(service_name, **kwargs)
  // ---------------------------------------------------------------------------

  /** A boto3 client: the service and options it was built with, and which construction produced it. */
  datatype ServiceClient = ServiceClient(service: string, options: map<string, Value>, instance: nat)

  /** The module-level `_clients` dict, with a count of the clients built so far. */
  class ServiceClients {
    var clients: map<string, ServiceClient>
    var constructed: nat

    ghost predicate Valid()
      reads this
    {
      forall s :: s in clients ==> clients[s].service == s && clients[s].instance < constructed
    }

    constructor ()
      ensures Valid() && clients == map[] && constructed == 0
    {
      clients, constructed := map[], 0;
    }

    /** A cached client for the service, built with `options` only when none is cached yet. */
    method GetClient(serviceName: string, options: map<string, Value>) returns (c: ServiceClient)
      requires Valid()
      modifies this
      ensures Valid()
      ensures serviceName in clients && clients[serviceName] == c && c.service == serviceName
      ensures serviceName in old(clients) ==>
        c == old(clients)[serviceName] && clients == old(clients) && constructed == old(constructed)
      ensures serviceName !in old(clients) ==>
        c == ServiceClient(serviceName, options, old(constructed)) &&
        clients == old(clients)[serviceName := c] && constructed == old(constructed) + 1
      ensures forall s :: s in old(clients) ==> s in clients && clients[s] == old(clients)[s]
    {
      if serviceName !in clients {
        clients := clients[serviceName := ServiceClient(serviceName, options, constructed)];
        constructed := constructed + 1;
      }
      c := clients[serviceName];
    }
  }

  // ---------------------------------------------------------------------------
  // S3 and DynamoDB
  // ---------------------------------------------------------------------------

  /** What the S3 service answers to a get request: the stored document, or a raised exception. */
  datatype GetReply = Found(body: Value) | Failure(exception: Exception)

  /** `S3.get_object`: a NoSuchKey client error becomes None, every other exception propagates. */
  function GetObjectRule(reply: GetReply): (r: Result<Option<Value>, Exception>)
    ensures r == Ok(None) <==> reply == Failure(ClientError("NoSuchKey"))
    ensures r.Err? <==> reply.Failure? && reply.exception != ClientError("NoSuchKey")
    ensures r.Err? ==> r.error == reply.exception
    ensures reply.Found? ==> r == Ok(Some(reply.body))
  {
    match reply
    case Found(body) => Ok(Some(body))
    case Failure(e) => if e == ClientError("NoSuchKey") then Ok(None) else Err(e)
  }

  /** The service's answer to a get of `key` from a bucket holding `objects`; `fault` is an error it reports instead. */
  function StoreAnswer(objects: map<string, Value>, key: string, fault: Option<Exception>): (a: GetReply)
    ensures fault.None? && key in objects ==> a == Found(objects[key])
    ensures fault.None? && key !in objects ==> a == Failure(ClientError("NoSuchKey"))
    ensures fault.Some? ==> a == Failure(fault.value)
  {
    if fault.Some? then Failure(fault.value)
    else if key in objects then Found(objects[key])
    else Failure(ClientError("NoSuchKey"))
  }

  /** An S3 bucket: object keys mapped to the JSON documents stored under them. */
  class Bucket {
    var objects: map<string, Value>

    constructor (objects: map<string, Value>)
      ensures this.objects == objects
    {
      this.objects := objects;
    }

    /** `S3.get_object(bucket, key)`; `fault` is an error the service reports instead of answering. */
    function GetObject(key: string, fault: Option<Exception>): (r: Result<Option<Value>, Exception>)
      reads this
      ensures fault.None? ==> r == if key in objects then Ok(Some(objects[key])) else Ok(None)
      ensures fault.Some? && fault.value != ClientError("NoSuchKey") ==> r == Err(fault.value)
    {
      GetObjectRule(StoreAnswer(objects, key, fault))
    }

    /** `S3.put_object(bucket, key, body)`: overwrites the key unless the service reports `fault`. */
    method PutObject(key: string, body: Value, fault: Option<Exception>) returns (r: Result<(), Exception>)
      modifies this
      ensures r == if fault.None? then Ok(()) else Err(fault.value)
      ensures objects == if fault.None? then old(objects)[key := body] else old(objects)
    {
      if fault.Some? {
        return Err(fault.value);
      }
      objects := objects[key := body];
      r := Ok(());
    }

    /** Server-side copy of one object to another key of the same bucket. */
    method CopyObject(source: string, destination: string) returns (r: Result<(), Exception>)
      modifies this
      ensures r == if source in old(objects) then Ok(()) else Err(ClientError("NoSuchKey"))
      ensures objects == if source in old(objects) then old(objects)[destination := old(objects)[source]] else old(objects)
    {
      if source !in objects {
        return Err(ClientError("NoSuchKey"));
      }
      objects := objects[destination := objects[source]];
      r := Ok(());
    }

    /** Deleting an object; deleting a missing key succeeds and changes nothing. */
    method DeleteObject(key: string)
      modifies this
      ensures objects == old(objects) - {key}
    {
      objects := objects - {key};
    }
  }

  /** A DynamoDB table: items indexed by the string value of their key attribute. */
  class Table {
    const keyName: string
    var items: map<string, Value>

    constructor (keyName: string, items: map<string, Value>)
      ensures this.keyName == keyName && this.items == items
    {
      this.keyName, this.items := keyName, items;
    }

    /** The primary key of an item: its key attribute, which must be a string. */
    function KeyOf(item: Value): (k: Option<string>)
      ensures k.Some? <==> item.JObj? && keyName in item.fields && item.fields[keyName].JStr?
      ensures k.Some? ==> item.fields[keyName] == JStr(k.value)
    {
      if item.JObj? && keyName in item.fields && item.fields[keyName].JStr? then Some(item.fields[keyName].s) else None
    }

    /** `DynamoDB.put(table, item)`: replaces whatever item had the same key. */
    method Put(item: Value, fault: Option<Exception>) returns (r: Result<(), Exception>)
      modifies this
      ensures r.Ok? <==> fault.None? && KeyOf(item).Some?
      ensures r.Err? && fault.Some? ==> r.error == fault.value
      ensures items == if r.Ok? then old(items)[KeyOf(item).value := item] else old(items)
    {
      if fault.Some? {
        return Err(fault.value);
      }
      var key := KeyOf(item);
      if key.None? {
        return Err(ClientError("ValidationException"));
      }
      items := items[key.value := item];
      r := Ok(());
    }

    /** `DynamoDB.get(table, {key_name: key})`: None when the table has no item for the key. */
    function Get(key: string, fault: Option<Exception>): (r: Result<Option<Value>, Exception>)
      reads this
      ensures fault.Some? ==> r == Err(fault.value)
      ensures fault.None? ==> r == if key in items then Ok(Some(items[key])) else Ok(None)
    {
      if fault.Some? then Err(fault.value)
      else if key in items then Ok(Some(items[key]))
      else Ok(None)
    }
  }
}
