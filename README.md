# Serverless agent framework: protocol layer, retry policy and agent state

This project is a Dafny model of the core of a serverless agent framework. The framework runs ReAct agents in AWS Lambda. The model covers:

- **Agent-to-agent (A2A) protocol.** A registry of *agent cards* is kept in a DynamoDB table keyed by `agent_id`. Agents exchange *messages* through an S3 bucket:
  - a message for agent `R` is put under `messages/R/<message id>.json`;
  - a receive lists the agent's own mailbox prefix `messages/<agent>/`, fetches each listed key, and moves each fetched message under `messages/processed/` by a copy followed by a delete;
  - each message is moved as soon as it is decoded. An exception at a later key therefore loses the messages already moved: they have left the mailbox, and the caller gets only the exception.
- **Model Context Protocol (MCP) client.**
  - The request and response envelopes.
  - The construction of a response from the HTTP reply, with its defaults.
  - The authorization header.
  - The retried `call` and the three convenience wrappers built on it.
  - The cache of clients keyed by URL and token, with at most 32 entries.
- **Service layer.**
  - The `retry` decorator: a bounded loop with a doubling delay.
  - The memo table of boto3 clients.
  - The rule of `S3.get_object` that turns `NoSuchKey` into `None`.
- **The agent handler.**
  - The module-level tool registry and the agent's tool list.
  - The agent's capabilities and its registry card.
  - The fallbacks of state loading.
  - The chat-history window of `process`.
  - The early returns of the Lambda handler.

Stores and external calls are modelled as follows:

- The S3 bucket (`AwsServiceLayer.Bucket`) and the DynamoDB table (`AwsServiceLayer.Table`) are classes holding a map.
- A service error is an `Option<Exception>` argument.
- The S3 listing that `get_messages` iterates is an argument. It may be stale: a key that another receiver consumed meanwhile is fetched as absent.
- The MCP server is a function from the k-th POST of a call to its reply.
- `uuid.uuid4()` and `time.time()` become arguments: the id and timestamp of a created message (`Stamp`), and the request id of each attempt.
- `time.sleep` is recorded as the returned sequence of delays.
- The language model is the result (or exception) of the agent chain's `invoke`, passed to `process`.

Python semantics are written out where the code depends on them (module `Python`):

- truthiness;
- `dict.get` with a default;
- `x or {}`;
- `s[:n]` with a negative `n`;
- `str.rstrip('/')`;
- `str.replace`, which replaces every occurrence;
- `raise None`, which raises a `TypeError`.

The field types of the two dataclasses are represented as JSON-like values.

Two places in the code do not do what their names and docstrings say (see Findings):

- `find_agents_by_capability` calls `DynamoDB.query` with a keyword argument that `DynamoDB.query` does not accept.
- `get_messages` calls S3 helpers that the service layer does not define.

The default factory of `AgentMessage.timestamp` (`protocol_interfaces.py:75`) is not valid Python: the module as written does not import. The model treats the timestamp as the value of `time.time()` at creation, supplied as an argument.

## Model

| member | source | states |
|---|---|---|
| `Python.SliceTo` | protocol_interfaces.py:114 | `response['Contents'][:limit]` is a prefix of the listing. Its length is `limit` capped by the listing length; a negative limit drops that many entries from the end. |
| `Python.RStrip` | protocol_interfaces.py:150 | `base_url.rstrip('/')` is a prefix of the URL, does not end in `/`, and only `/` were removed. |
| `Python.OrEmpty` | protocol_interfaces.py:160-161 | `context or {}` is the argument when it is truthy, and `{}` otherwise. |
| `Python.Truthy` | protocol_interfaces.py:116 | Python truthiness: `None`, `False`, zero, and the empty string, list and dict are false; everything else is true. |
| `Python.Replace` | protocol_interfaces.py:119 | `str.replace`: each non-overlapping occurrence, scanning from the left, is replaced. Its effect on keys is stated by `ReplaceAbsent`, `ReplaceLeading` and `ReplaceLength`. |
| `Python.ReplaceAbsent` | protocol_interfaces.py:119 | Replacing a pattern that does not occur gives the string back unchanged. |
| `Python.ReplaceLeading` | protocol_interfaces.py:119 | A key that starts with `messages/` and has no other occurrence of it gets only that prefix replaced. |
| `Python.ReplaceLength` | protocol_interfaces.py:119 | Replacing `messages/` by the longer `messages/processed/` never shortens a key. |
| `AwsServiceLayer.Retry` | aws_service_layer.py:147-169 | Returns the first successful attempt's result. If every attempt raises, returns the last exception; with no attempts, the `TypeError` of `raise None`. The call count is at most `max_attempts`. The k-th sleep is `base_delay * 2^k` when exponential and `base_delay` otherwise. |
| `AwsServiceLayer.FirstSuccess` | aws_service_layer.py:155-158 | The loop stops at the first attempt that returns: every earlier attempt raised, and none after it is made. |
| `AwsServiceLayer.RetryResult` | aws_service_layer.py:155-167 | The outcome of the wrapper: the first returning attempt's result; if none returns, the last attempt's exception; with no attempts, the `TypeError` of `raise None`. |
| `AwsServiceLayer.RetryCalls` | aws_service_layer.py:155-158 | One call per attempt up to and including the first that returns, and the whole budget when none does. |
| `AwsServiceLayer.SleepCount` | aws_service_layer.py:158-165 | A sleep after every failed attempt except the last of the budget. |
| `AwsServiceLayer.RetrySucceedsAt` | aws_service_layer.py:155-165 | If attempt n is the first to return, the wrapper returns its result after exactly n+1 calls and n sleeps. |
| `AwsServiceLayer.RetryExhausted` | aws_service_layer.py:158-167 | If every attempt raises, the last exception surfaces after exactly `max_attempts` calls and `max_attempts - 1` sleeps. There is no sleep after the final attempt. |
| `AwsServiceLayer.RetryWithoutBudget` | aws_service_layer.py:155-167 | With `max_attempts <= 0` nothing is called or slept, and `raise None` raises a `TypeError`. |
| `AwsServiceLayer.DelayDoubles` | aws_service_layer.py:161-163 | Each exponential delay is twice the one before it. |
| `AwsServiceLayer.ServiceClients.GetClient` | aws_service_layer.py:12-16 | After the call the name is cached and the cached client is returned. If the name was already cached, the same client comes back, nothing is constructed and the new options are ignored. Otherwise one client is built with these options. Other entries are unchanged. |
| `AwsServiceLayer.GetObjectRule` | aws_service_layer.py:67-79 | `S3.get_object` returns `None` exactly when the service reports `NoSuchKey`, re-raises every other error, and returns the stored document otherwise. |
| `AwsServiceLayer.StoreAnswer` | aws_service_layer.py:69-71 | The service answers with the stored document, `NoSuchKey` for a missing key, or the reported error. |
| `AwsServiceLayer.Bucket.GetObject` | aws_service_layer.py:67-79 | On a bucket: the document at the key, `None` for a missing key, or the re-raised error. |
| `AwsServiceLayer.Bucket.PutObject` | aws_service_layer.py:57-65 | Stores the body at the key, overwriting it, unless the service raises; then nothing changes. |
| `AwsServiceLayer.Bucket.CopyObject` | protocol_interfaces.py:120 | Copies the source object to the destination key; a missing source raises `NoSuchKey` and changes nothing. |
| `AwsServiceLayer.Bucket.DeleteObject` | protocol_interfaces.py:121 | Removes the key and nothing else. |
| `AwsServiceLayer.Table.KeyOf` | aws_service_layer.py:21-26 | An item's primary key is its string `agent_id` attribute, when it has one. |
| `AwsServiceLayer.Table.Put` | aws_service_layer.py:21-26 | Replaces the item with the same key. An error, or an item without a string key, raises and changes nothing. |
| `AwsServiceLayer.Table.Get` | aws_service_layer.py:28-37 | Returns the item for the key, or `None` when the table has none. An error propagates. |
| `AgentCards.Texts` | protocol_interfaces.py:21 | A list of strings is stored as a list of the same strings. |
| `AgentCards.AsTexts` | protocol_interfaces.py:21 | A stored list reads back as strings exactly when every element is a string. |
| `AgentCards.TextsRoundTrip` | protocol_interfaces.py:21 | Reading back a stored capability list gives the same list. |
| `AgentCards.AsTextsInverse` | protocol_interfaces.py:21 | Storing a list that reads back gives the original stored list. |
| `AgentCards.AsTextsHolds` | protocol_interfaces.py:60 | A stored list contains the string element exactly when the decoded list contains the string. |
| `AgentCards.CardToDict` | protocol_interfaces.py:28-30 | `to_dict` has exactly the ten fields of the card, with `agent_id` and `capabilities` as given. |
| `AgentCards.CardFromDict` | protocol_interfaces.py:32-35 | `from_dict` raises `TypeError` for a non-dict, an unknown field, or a missing required field. |
| `AgentCards.CardRoundTrip` | protocol_interfaces.py:28-35 | `from_dict(card.to_dict())` is the card, for every card. |
| `AgentCards.CardFromDictFillsDefaults` | protocol_interfaces.py:15-35 | Any dict that `from_dict` accepts is the new card's dict with omitted optional fields at their declared defaults: `{}`, `{}`, `False`, `None`, `{}`. |
| `AgentCards.CardFromFieldsInverse` | protocol_interfaces.py:15-35 | A complete field map that decodes to a card is exactly that card's `to_dict()`. |
| `AgentCards.MessageDefaults` | protocol_interfaces.py:68-76 | Every field of a message has a default: the creation stamp's id and timestamp, empty sender and recipient ids, `{}` as content, and no correlation id or ttl. |
| `AgentCards.MessageToDict` | protocol_interfaces.py:78-80 | `to_dict` has exactly the seven fields, carries the id, sender, recipient and content, and is truthy. |
| `AgentCards.MessageFromDict` | protocol_interfaces.py:82-85 | `from_dict` raises `TypeError` for a non-dict or an unknown field. |
| `AgentCards.MessageRoundTrip` | protocol_interfaces.py:78-85 | `from_dict(message.to_dict())` is the message, whatever the defaults would have been. |
| `AgentCards.MessageFromDictFillsDefaults` | protocol_interfaces.py:68-85 | An accepted dict whose timestamp, if given, is a float is the dict of the new message with every omitted field at its default. |
| `AgentCards.MessageFromFieldsInverse` | protocol_interfaces.py:68-85 | A complete field map with a float timestamp that decodes to a message is exactly that message's `to_dict()`. |
| `A2A.LookupCard` | protocol_interfaces.py:52-55 | The card for an id is `None` when the table has no item for it or only a falsy one. For a truthy item it is exactly the item decoded by `from_dict`, and a decode error propagates. |
| `A2A.RegisterThenLookup` | protocol_interfaces.py:43-55 | After a card's dict is put, looking up its id gives back the same card. |
| `A2A.LastWriteWins` | protocol_interfaces.py:46 | Registering a second card under the same id replaces the first. |
| `A2A.RegisterLeavesOthers` | protocol_interfaces.py:46 | Registering a card does not change the lookup of any other id. |
| `A2A.DecodedCapability` | protocol_interfaces.py:60-65 | A stored item matches `contains(capabilities, :cap)` exactly when its decoded card lists the capability. |
| `A2A.MatchingKeys` | protocol_interfaces.py:59-64 | The query selects exactly the indexed keys whose items match the capability, in index order. |
| `A2A.DecodeAll` | protocol_interfaces.py:65 | If every result decodes, the cards are the decoded results, in order. Otherwise the exception is that of the first item that does not decode, and every earlier item decodes. |
| `A2A.DecodeEach` | protocol_interfaces.py:65 | The same for any decoder: the decoded list in order, or the first failure. |
| `A2A.MatchingCardsExact` | protocol_interfaces.py:57-65 | Every card returned lists the capability. Every indexed, decodable card that lists it is returned. |
| `A2A.MatchingCardsCoverTable` | protocol_interfaces.py:57-65 | When the index lists every registered key, every registered, decodable card that lists the capability is returned. |
| `A2A.AgentRegistry.constructor` | protocol_interfaces.py:38-41 | The registry is bound to its table, keyed by `agent_id`, and to its capability index. |
| `A2A.AgentRegistry.RegisterAgent` | protocol_interfaces.py:43-50 | Returns true and puts the card's dict when the store accepts it. Returns false and changes nothing when the store raises; it never raises. |
| `A2A.AgentRegistry.GetAgent` | protocol_interfaces.py:52-55 | A store error propagates; otherwise the result is the lookup of the id in the table. |
| `A2A.AgentRegistry.FindAgentsByCapability` | protocol_interfaces.py:57-65 | The intended query: a store error propagates; otherwise it returns the matching cards, each listing the capability. When the index lists every registered key, every registered card that lists the capability is among them. |
| `A2A.AgentRegistry.FindAgentsByCapabilityAsWritten` | protocol_interfaces.py:59-64 | As written, the call raises `TypeError` for every capability. |
| `A2A.FindAsWrittenDiffers` | protocol_interfaces.py:59-64 | Wherever the intended query answers, the call as written raises instead. |
| `A2A.MailboxPrefix` | protocol_interfaces.py:110 | Every mailbox prefix lies under `messages/`. |
| `A2A.MessageKey` | protocol_interfaces.py:104 | The key of a sent message lies under the recipient's mailbox prefix `messages/<recipient>/`, which the recipient's receive lists (line 110). `GetMessages` takes only a listing under that prefix. |
| `A2A.ProcessedKey` | protocol_interfaces.py:119 | The processed key is `key.replace("messages/", "messages/processed/")`; `ProcessedKeyOf` and `ProcessedKeyDiffers` state what it does to mailbox keys. |
| `A2A.ProcessedKeyOf` | protocol_interfaces.py:119 | A mailbox key with no further `messages/` moves to `messages/processed/` followed by the rest of the key. |
| `A2A.ProcessedKeyDiffers` | protocol_interfaces.py:119-121 | The processed key of a mailbox key is never the key itself, so the delete never removes the copy. |
| `A2A.Fetch` | protocol_interfaces.py:115 | A fetched document is the one stored at the listed key; a key without an error reads what the bucket holds. |
| `A2A.Step` | protocol_interfaces.py:115-121 | One iteration of the receive loop: a fetch error raises; a missing or falsy document is skipped; a decode error raises; otherwise the message is appended and its document moved to the processed key. |
| `A2A.ReceiveFrom` | protocol_interfaces.py:114-121 | The loop from a position on, over the listed keys in order, stopping at the first exception. |
| `A2A.Receive` | protocol_interfaces.py:113-123 | The whole loop over the listed keys, from an empty message list and the bucket's objects. |
| `A2A.ReceiveBound` | protocol_interfaces.py:114-117 | No more messages are returned than keys were listed. |
| `A2A.StepKeepsMovedNotLost` | protocol_interfaces.py:114-121 | One loop iteration keeps the invariant that received messages are moved and nothing else is lost. |
| `A2A.ReceiveFromKeepsMovedNotLost` | protocol_interfaces.py:114-121 | The whole loop keeps that invariant. |
| `A2A.ReceivedMessagesAreMoved` | protocol_interfaces.py:114-123 | Messages come back in listing order. Each returned message was decoded from its fetched document, its key is gone, and the document sits at its processed key. Listed keys that were skipped are left in place. Unlisted keys, other than those processed keys, are untouched. |
| `A2A.ReceiveFromGrows` | protocol_interfaces.py:113-121 | The loop never takes back a position it has already moved. |
| `A2A.ReceiveFromTakes` | protocol_interfaces.py:114-121 | From any position on, a loop that ends without an exception moves every later listed key that holds a truthy document and whose fetch does not fail. |
| `A2A.ReceiveTakesEveryMessage` | protocol_interfaces.py:114-121 | Completeness of the receive: if it ends without an exception, every listed key that holds a truthy, unfaulted document was consumed. The other direction, that every moved key held the document its returned message was decoded from, is `ReceivedMessagesAreMoved`. |
| `A2A.ConsumedOnlyOnce` | protocol_interfaces.py:117-121 | A key one receive consumed is not consumed by a later receive, even from a stale listing. |
| `A2A.MailboxListingIsMovable` | protocol_interfaces.py:110-121 | Under a mailbox prefix the move never collides, when the agent id has no `/`, is not `processed`, and no key repeats `messages/`. |
| `A2A.ProcessedKeyInProcessedMailbox` | protocol_interfaces.py:110-118 | A key of the agent's mailbox moves under `messages/processed/<agent>/`. |
| `A2A.MailboxBatchIsMovable` | protocol_interfaces.py:110-113 | Every cut `listing[:limit]` of such a mailbox listing is a batch whose moves never collide, so the receive lemmas apply to `get_messages`. |
| `A2A.MailboxReceiveStaysInMailbox` | protocol_interfaces.py:110-121 | A receive over such a cut leaves every key outside the agent's mailbox and processed area as it was. |
| `A2A.SentDocumentDecodes` | protocol_interfaces.py:94-106 | The stored document decodes to a message from the bound agent, with the given recipient, content and correlation id. |
| `A2A.Outgoing` | protocol_interfaces.py:97-102 | The message `send_message` builds: from the bound agent, with the given recipient, content and correlation id, the id and timestamp of its creation, and no ttl. |
| `A2A.SentMessageIsReceived` | protocol_interfaces.py:104-121 | A message put in a mailbox is returned by the next receive of its key alone, never raises, and is moved to its processed key. |
| `A2A.SentMessageInListingIsReceived` | protocol_interfaces.py:104-121 | For any listing that names a deposited message's key, a receive that ends without an exception returns the message and moves it to its processed key. |
| `A2A.MovedMessageLostOnLaterError` | protocol_interfaces.py:114-121 | When a later fetch raises, the receive returns only the exception, though the earlier message has already left the mailbox for its processed key. |
| `A2A.StaleKeySkipped` | protocol_interfaces.py:115-116 | A listed key that is no longer in the bucket is skipped and nothing moves. |
| `A2A.A2AProtocol.constructor` | protocol_interfaces.py:89-92 | The engine is bound to its agent id, its message bucket and its registry. |
| `A2A.A2AProtocol.SendMessage` | protocol_interfaces.py:94-106 | Stores the message (sender = bound agent, no ttl) at `messages/<recipient>/<id>.json` and returns its id. No other key changes. A store error raises and changes nothing. |
| `A2A.A2AProtocol.GetMessages` | protocol_interfaces.py:108-123 | The intended receive, over a listing of the agent's own mailbox prefix that names each key once: a listing error raises. Otherwise the result and the new bucket are those of the receive over `listing[:limit]`. It returns at most `limit` messages. For a separate agent id and keys with no further `messages/`, no key outside the agent's mailbox and processed area changes. |
| `A2A.A2AProtocol.ReceiveStep` | protocol_interfaces.py:115-121 | One pass of the loop changes the collected messages, the raised exception and the bucket exactly as `Step` says: fetch, skip a missing or falsy document, decode, copy to the processed key, delete. |
| `A2A.A2AProtocol.GetMessagesAsWritten` | protocol_interfaces.py:111 | As written, the receive raises `AttributeError` before touching the bucket. |
| `A2A.SendReceiveScenario` | protocol_interfaces.py:94-123 | agent-a sends to agent-b; agent-b receives exactly that message. A second receive, fresh or stale, returns nothing. |
| `A2A.MailboxAsWrittenFails` | protocol_interfaces.py:108-123 | With a message waiting, the receive as written raises, where the intended one returns the message. |
| `Mcp.RequestToDict` | protocol_interfaces.py:127-133 | The POST body has exactly the four request fields, with the operation and request id. |
| `Mcp.McpResponse.Success` | protocol_interfaces.py:143-145 | A response is a success exactly when its status is the string `"success"`. |
| `Mcp.DecodeReply` | protocol_interfaces.py:170-179 | An error status raises `HTTPError`, a non-JSON body raises, and a non-dict body raises `AttributeError` (and only a reply with a non-dict body does). Otherwise: `status` defaults to `"error"`, `data` to `{}`, `errors` to `[]`, `request_id` to the request's own id. |
| `Mcp.ResponseRoundTrip` | protocol_interfaces.py:174-179 | A successful reply carrying a response's fields decodes to that response. |
| `Mcp.EmptyReplyIsFailure` | protocol_interfaces.py:143-145 | A reply `{}` is a well-formed response whose `success` is false and which echoes the request id. |
| `Mcp.HeadersFor` | protocol_interfaces.py:151-153 | `Content-Type: application/json` is always present. `Authorization: Bearer <token>` is present exactly when the token is truthy. |
| `Mcp.McpClient.constructor` | protocol_interfaces.py:149-153 | The base URL loses its trailing slashes, and the headers carry `Authorization: Bearer <token>` exactly when the token is truthy. |
| `Mcp.McpClient.RequestAt` | protocol_interfaces.py:159-163 | Each attempt's request has the operation and a fresh id. Context and parameters are `x or {}` of the arguments: a truthy argument is kept, and a falsy or missing one gives `{}`. |
| `Mcp.McpClient.PostFor` | protocol_interfaces.py:165-170 | The POST goes to `<base_url>/invoke` with the client's headers and the request as its body. |
| `Mcp.McpClient.Call` | protocol_interfaces.py:155-179 | The result is the retry of the decoded replies with three attempts. One to three posts are made, one per attempt, with a new request each. The sleeps between them are 0.1 s, then 0.2 s. |
| `Mcp.CallCountsAgree` | aws_service_layer.py:155-167 | With three attempts, a call makes one to three posts and sleeps once fewer. |
| `Mcp.McpClient.GetCapabilities` | protocol_interfaces.py:181-184 | Returns the capabilities interpretation of the call's outcome. |
| `Mcp.McpClient.ExpandContext` | protocol_interfaces.py:186-193 | Calls `expand_context` with the context, or `{}`, and `{"query": q}`, and returns the expanded-context interpretation. |
| `Mcp.McpClient.RunTool` | protocol_interfaces.py:195-201 | Calls `run_tool` with `{"tool_name", "parameters"}` and returns the tool-result interpretation. |
| `Mcp.QueryParameters` | protocol_interfaces.py:191 | The parameters of `expand_context` are exactly `{"query": q}`. |
| `Mcp.ToolParameters` | protocol_interfaces.py:198 | The parameters of `run_tool` are exactly the tool name and its parameters. |
| `Mcp.DataField` | protocol_interfaces.py:184 | `data.get(key, default)` raises unless `data` is a dict, and otherwise gives the field or the default. |
| `Mcp.CapabilitiesOf` | protocol_interfaces.py:181-184 | A call error propagates; a failed response gives `[]`; a successful one gives `data["capabilities"]` or `[]`. |
| `Mcp.ExpandedContextOf` | protocol_interfaces.py:186-193 | A call error propagates; a failed response gives `{}`; a successful one gives `data["expanded_context"]` or `{}`. |
| `Mcp.ToolResultOf` | protocol_interfaces.py:195-201 | A call error propagates; a successful response gives its `data`; a failed one gives `{"error": errors}`. |
| `Mcp.FirstReplyNotRetried` | protocol_interfaces.py:172-184 | A well-formed first reply with an error status raises nothing. It is returned after one post and no sleep, and the three wrappers fall back to `[]`, `{}` and `{"error": errors}`. |
| `Mcp.CapabilitiesReported` | protocol_interfaces.py:181-184 | A successful first reply listing capabilities makes `get_capabilities` return that list. |
| `Mcp.UnreachableServer` | protocol_interfaces.py:155-170 | When the server never answers, the call raises the third transport error after three posts and two sleeps. |
| `Mcp.McpClientCache.Get` | protocol_interfaces.py:203-207 | A cached key returns the same client, changes no entry and becomes the most recently used. A new key builds a client with the stripped URL and the token's headers and is appended as the most recently used. The least recently used entry is evicted first when, and only when, 32 are cached. |
| `Mcp.CacheBounded` | protocol_interfaces.py:203-204 | No more than 32 clients are ever cached. |
| `Mcp.SameKeySameClient` | protocol_interfaces.py:203-207 | Two lookups with the same URL and token in a row give the same client. |
| `ReactAgent.ToolRegistry.constructor` | react_agent_lambda_handler.py:32 | The module-level registry starts empty. |
| `ReactAgent.ToolRegistry.RegisterTool` | react_agent_lambda_handler.py:34-43 | Returns the function unchanged. Sets the name's entry to `{name, description, func}`, overwriting an earlier one; a new name goes last in iteration order. |
| `ReactAgent.ToolRegistry.Capabilities` | react_agent_lambda_handler.py:71-74 | The capabilities are the registered names, each once, and exactly the registry's iteration order (first registration first). |
| `ReactAgent.RegistrationOrder` | react_agent_lambda_handler.py:34-43 | Two names are listed in registration order. Re-registering a name keeps its place and replaces its entry. |
| `ReactAgent.LoadState` | react_agent_lambda_handler.py:76-85 | The state is `{}` when the bucket is unset, the object is absent or falsy, or the fetch raises. Otherwise it is the stored document. |
| `ReactAgent.AgentStateOf` | react_agent_lambda_handler.py:53-64 | A loaded dict becomes the agent's state; any other loaded value makes `self.state.get` raise. |
| `ReactAgent.StateText` | react_agent_lambda_handler.py:64-66 | `state.get(key, default)` gives the default when the key is absent. |
| `ReactAgent.CardFor` | react_agent_lambda_handler.py:59-68 | The registered card carries the agent id, the tool registry's keys in order as capabilities, and the state's name, description and version. The defaults are `Agent-<id>`, `A ReAct agent`, `1.0.0`, with all other fields at their defaults. |
| `ReactAgent.LastN` | react_agent_lambda_handler.py:159-160 | `h[-n:]` (for a list longer than n) is the last n entries. |
| `ReactAgent.WindowHistory` | react_agent_lambda_handler.py:159-162 | The new history is exactly the last twelve entries of the old history followed by the turn's human and AI messages. It has at most twelve entries and ends with that pair. |
| `ReactAgent.LastNOfLastN` | react_agent_lambda_handler.py:159-162 | Cutting before appending does not change what the last twelve entries are. |
| `ReactAgent.ReplayKeepsLastTwelve` | react_agent_lambda_handler.py:159-165 | After any number of turns, the history is the last twelve entries of the start followed by all the turns. |
| `ReactAgent.LastSixTurns` | react_agent_lambda_handler.py:159-165 | After six or more turns exactly the last six turns are remembered, whatever the history was before. |
| `ReactAgent.PairsSplit` | react_agent_lambda_handler.py:161-162 | The entries of two runs of turns are the entries of the first run followed by those of the second. |
| `ReactAgent.HistoryOf` | react_agent_lambda_handler.py:146-162 | A missing history is empty, a kept history is returned as is, and a loaded JSON list is kept entry by entry. Any other loaded value raises, since the window cannot slice or append to it. |
| `ReactAgent.StepsToValue` | react_agent_lambda_handler.py:171-174 | There is one reported step per intermediate step of the chain, in order, each the dict of its tool name, tool input and observation. |
| `ReactAgent.ProcessReply` | react_agent_lambda_handler.py:168-176 | `process` returns exactly four fields: the agent id, the output, the reported steps and the context as passed (`None` when absent). |
| `ReactAgent.ReActAgent.constructor` | react_agent_lambda_handler.py:48-68 | A new agent keeps its id and loaded state, has no tools, and takes the default prompt for a falsy one. Its card, built from the state and the registered tool names, is put in the registry unless the store raises. |
| `ReactAgent.ReActAgent.AddTool` | react_agent_lambda_handler.py:98-108 | Appends exactly one tool, with the registered description and function, when the name is registered; otherwise the tools are unchanged. |
| `ReactAgent.ReActAgent.AddTools` | react_agent_lambda_handler.py:200-202 | The handler's loop appends, in order, one tool per registered listed name. |
| `ReactAgent.LocalToolsFor` | react_agent_lambda_handler.py:200-202 | Every tool added for a list of names is a registered tool, and there are no more than names. |
| `ReactAgent.LocalToolsSnoc` | react_agent_lambda_handler.py:200-202 | Adding one more name adds its tool, if registered, at the end. |
| `ReactAgent.ReActAgent.AddMcpTool` | react_agent_lambda_handler.py:110-118 | Appends one remote tool whose client is the cache's client for the URL and token. |
| `ReactAgent.RunRemoteTool` | react_agent_lambda_handler.py:115-116 | A remote tool runs `run_tool` on its client with the keyword arguments as parameters. |
| `ReactAgent.ReActAgent.Process` | react_agent_lambda_handler.py:144-176 | A chain exception, or a history the window cannot handle, raises and leaves the state unchanged. Otherwise the history becomes the window of the old one plus the turn, nothing else in the state changes, and the reply is returned. |
| `ReactAgent.HandlerPrecheck` | react_agent_lambda_handler.py:185-191 | Returns `{"error": "Missing agent_id"}` exactly when `agent_id` is missing or falsy. Otherwise returns `{"error": "Missing input"}` exactly when `input` is missing or falsy. Continues only when both are present. |

## Left out

- Line 75 of `protocol_interfaces.py` is a syntax error (a `lambda` whose body is an `import` statement). The timestamp is an argument (`AgentCards.Stamp`).
- boto3 marshalling (`TypeSerializer`, `TypeDeserializer`), JSON text (de)serialization in `S3.put_object`/`get_object` and `requests`, and the raw-bytes branch of `get_object` for a non-JSON content type: stored documents are JSON-like values.
- SQS, Lambda and Secrets Manager wrappers, `get_api_keys`, `_save_state`, and the whole of `core_dependencies.py` (lazy imports, environment flags, the Lambda remaining-time accessor).
- Building the LangChain model, prompt and executor, and `react_chain.invoke`: the invocation is an argument of `Process`. Calling a local tool's function is left out. The rest of `handler` after the early returns (agent config, the MCP-tool loop, execution time, the catch-all error reply) is left out.
- Concurrent receivers, and a crash between the copy and the delete of a receive. There are no locks. A stale listing is modelled: a key consumed meanwhile is skipped.
- Errors of the S3 copy and delete calls inside the receive: only the listing and each fetch are given errors.
- `ttl` and `rate_limit` are carried but never enforced; floating-point precision of delays and timestamps (delays are reals).
- `AgentCards.CardFromDict`, `AgentCards.MessageFromDict`: a present field of the wrong type is rejected with `TypeError`. `cls(**data)` would build an object holding that value, which the typed datatypes cannot represent.
- `AgentCards.MessageFromDictFillsDefaults`: stated only for a dict whose timestamp, if present, is a float. The message's timestamp is a real, so an integer timestamp is stored as a float and `to_dict()` returns a float, where Python would keep the int.
- `ReactAgent.CardFor`: a state whose `name`, `description` or `version` is not a string yields no card and no registration. The source would register a card carrying that value.
- `A2A.A2AProtocol.GetMessages`: confinement to the agent's own keys is stated only for an agent id that has no `/` and is not `processed`, and for keys whose tail holds no further `messages/`. Otherwise `str.replace` can rename a key into another agent's area.
- `A2A.MatchingCards`: the contents of the capability index are an argument (`order`). That the index lists every registered card is a hypothesis of `MatchingCardsCoverTable`, not a fact about DynamoDB.
- `Mcp.McpClientCache.Get`: the cache key is the pair (URL, token). `functools.lru_cache` also tells apart calls that spell the same arguments differently (positional, keyword or omitted), and that is not modelled.
- `AwsServiceLayer.ServiceClients.GetClient`: the constructed boto3 client is represented by its service, options and construction index.
- `Mcp.DecodeReply`: a status below 400 or at or above 600 is treated as success, as `raise_for_status` does. Redirects and timeouts are transport failures.
- After `process`, the state holds message objects that `json.dumps` cannot serialize, so a later `_save_state` would fail (silently, under its `try`). Saving is not modelled.

## Findings

| source | as written | input that shows it | evidently intended | confidence | as-written member | corrected member |
|---|---|---|---|---|---|---|
| protocol_interfaces.py:59-64 | `DynamoDB.query(..., expression_values={":cap": capability})`, but `DynamoDB.query` (aws_service_layer.py:39) takes no such parameter | any capability, e.g. `find_agents_by_capability("search")` raises `TypeError` | query the capability index and return every indexed card whose `capabilities` contains the capability (every registered one, when the index lists every key) | not executed | `A2A.AgentRegistry.FindAgentsByCapabilityAsWritten` | `A2A.AgentRegistry.FindAgentsByCapability` |
| protocol_interfaces.py:111-121 | `S3.list_objects`, `S3.copy_object`, `S3.delete_object`, none of which the `S3` class (aws_service_layer.py:55-79) defines | any call, e.g. `get_messages(10)` with one waiting message raises `AttributeError` | list the mailbox, fetch each listed key, and move each fetched message to `messages/processed/` | not executed | `A2A.A2AProtocol.GetMessagesAsWritten` | `A2A.A2AProtocol.GetMessages` |
