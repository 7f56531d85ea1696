# HR router agent and time-off ledger, modelled in Dafny

This project models two parts of an HR assistant built from MCP servers and A2A agents.

**The time-off ledger.** `TimeOffDatastore` keeps two SQLite tables:
- `employee`: a unique name, the allowed days and the consumed days;
- `timeoff_history`: one row per granted request.

The store is seeded with three employees. `get_timeoff_balance` answers balance queries. `add_timeoff_request` grants a request only when the employee is known and the request fits the remaining balance.

In the model (`ledger.dfy`):
- The tables are a `Store` value: a map from name to row, a sequence of history rows, and the two AUTOINCREMENT counters.
- `TimeOffDatastore` is a class with those four fields. Its constructor and methods update the fields in place.
- Each method is proved against a pure function of the old state (`Open`, `Seeded`, `Balance`, `RequestResult`, `RequestState`). The lemmas state what the store promises about those functions:
  - the exact seed;
  - seeding again changes no row;
  - the error cases of a request;
  - the effect of a granted request;
  - `consumed <= allowed` is preserved;
  - every day a request adds to an employee's consumption is recorded in the history (the seeded consumption has no history row);
  - the demonstration scenario.

**The router agent.** `RouterHRAgent` is a LangGraph state graph. Its state is an append-only list of chat messages:
- The `Router` node asks a language model for a label.
- `find_route` reads the label off the last message.
- A closed table sends `POLICY`, `TIMEOFF` and `UNSUPPORTED` to three nodes, and each of those goes to END.
- The two dispatch nodes call `execute_a2a_agent`, which does three things:
  - fetches the specialist's agent card;
  - sends one A2A `message/send` request, whose only text part is `json.dumps({"user": ..., "prompt": ...})`;
  - returns `result.parts[0].text` of the response.

The files that model it:
- `hex.dfy`: fixed-width lowercase hexadecimal, as used in `\uXXXX` escapes and in UUID text.
- `json_text.dfy`: the exact text Python's `json.dumps` produces for the two-key object (`ensure_ascii` escaping, surrogate pairs, `", "` and `": "` separators). It also holds a reader for that text, the partner of the writer.
- `envelope.dfy`: the request and response envelopes, `uuid4().hex` and `str(uuid4())`, and the unwrapping of the reply with each way it fails.
- `a2a_client.dfy`: a `Network` class. It stands for the network and the random source, answers from fixed functions and logs every exchange. `ExecuteA2aAgent` is proved against `ExecuteState` and `ExecuteResult`.
- `router.dfy`: the graph as a value built by `add_node`, `add_conditional_edges`, `add_edge` and `set_entry_point`, and the nodes as functions. `RunFrom` is the graph runner, and `RouterHRAgent.Invoke` is the runner loop proved against it.

The language model, the network and `uuid4` are parameters of the model:
- `AgentConfig.classify` stands for `model.invoke`.
- `Env.fetchCard` and `Env.send` stand for the HTTP exchanges.
- `Env.uuid4(k)` is the k-th random draw.

Three behaviours of the code that the model keeps as they are:
- A label outside the routing table ends the session with `NoRoute`, because LangGraph raises on a key its conditional edges do not know.
- A failed remote call makes the whole session fail.
- A request for a negative number of days is granted when it fits the balance.

## Model

Each method row also stands for the pure function it is proved against: `InsertEmployee` for `InsertOrIgnore`, `GetTimeoffBalance` for `Balance`, `AddTimeoffRequest` for `RequestResult` and `RequestState`, `ExecuteA2aAgent` for `ExecuteResult` and `ExecuteState`. `UuidString` is given by the `UuidStringShape` row.

| member | source | states |
|---|---|---|
| Hex.Digits | chapter6/a2a_client_router_agent.py:61 | a number below 16^w is written as exactly w lowercase hexadecimal digits |
| Hex.DigitsRoundTrip | chapter6/a2a_client_router_agent.py:61 | reading back the hexadecimal text of a number gives that number |
| Hex.DigitsInjective | chapter6/a2a_client_router_agent.py:61 | two different numbers never have the same fixed-width text |
| JsonText.EscapeChar | chapter6/a2a_client_router_agent.py:59 | each character's `ensure_ascii` escape is non-empty printable ASCII that does not start with a quote; `EscapeCharParses` is its partner and reads it back |
| JsonText.EncodeInput | chapter6/a2a_client_router_agent.py:59 | the payload is an object text: at least 24 characters, `{` first and `}` last; `InputRoundTrip` and `EncodedInputIsAscii` state the rest of its contract |
| JsonText.UnicodeEscape | chapter6/a2a_client_router_agent.py:59 | a `\uXXXX` escape is six printable ASCII characters |
| JsonText.SurrogatePair | chapter6/a2a_client_router_agent.py:59 | a character above U+FFFF is written as twelve printable ASCII characters |
| JsonText.EncodedInputIsAscii | chapter6/a2a_client_router_agent.py:53-59 | under `ensure_ascii`, the payload is printable ASCII for every user and prompt |
| JsonText.BmpEscapeParses | chapter6/a2a_client_router_agent.py:59 | a `\uXXXX` escape reads back as the character it encodes |
| JsonText.SurrogatePairParses | chapter6/a2a_client_router_agent.py:59 | a surrogate pair reads back as the one character above U+FFFF it encodes, and the rest of the text is left over |
| JsonText.EscapeCharParses | chapter6/a2a_client_router_agent.py:59 | every character's escape (named, printable, `\uXXXX` or surrogate pair) reads back as exactly that character |
| JsonText.EscapeParses | chapter6/a2a_client_router_agent.py:59 | any escaped string followed by the closing quote reads back as the string, and what follows is left over |
| JsonText.QuoteParses | chapter6/a2a_client_router_agent.py:59 | a quoted JSON string reads back as the original string |
| JsonText.InputRoundTrip | chapter6/a2a_client_router_agent.py:53-59 | reading the `json.dumps` text of `{"user", "prompt"}` as the specialist's `json.loads` does gives back exactly that user and prompt |
| A2AEnvelope.UuidHex | chapter6/a2a_client_router_agent.py:61 | `uuid.hex` has 32 characters |
| A2AEnvelope.UuidStringShape | chapter6/a2a_client_router_agent.py:67 | `str(uuid)` has 36 characters, with hyphens at positions 8, 13, 18 and 23, and the other characters in order are the 32 hex digits |
| A2AEnvelope.UuidTextInjective | chapter6/a2a_client_router_agent.py:61-67 | distinct UUIDs have distinct texts, in both forms |
| A2AEnvelope.BuildRequest | chapter6/a2a_client_router_agent.py:53-69 | the request is a `user` message with exactly one text part, message id `uuid.hex` of the first UUID (32 characters) and request id `str()` of the second (36 characters); `RequestRoundTrip` shows the part decodes to `{user, prompt}` |
| A2AEnvelope.ExtractText | chapter6/a2a_client_router_agent.py:73-74 | `result.parts[0].text` gives exactly one of these outcomes: an error response fails at `result`; a task result fails at `parts`; a message with no parts fails at `[0]`; otherwise the first part's text, or None when the first part is not text |
| A2AEnvelope.RequestRoundTrip | chapter6/a2a_client_router_agent.py:53-69 | the request is a `user` message with exactly one part, and the specialist decodes it back to exactly `{user, prompt}` |
| A2AEnvelope.ReplyRoundTrip | chapter6/a2a_client_router_agent.py:73-76 | a specialist's text answer reaches the caller unchanged |
| A2AClient.Network.FetchCard | chapter6/a2a_client_router_agent.py:48-51 | one card fetch is answered by the environment and logged; nothing else changes |
| A2AClient.Network.Uuid4 | chapter6/a2a_client_router_agent.py:61 | each `uuid4()` returns the next draw and uses it up |
| A2AClient.Network.SendMessage | chapter6/a2a_client_router_agent.py:70 | one send is answered by the environment and logged with its request |
| A2AClient.ExecuteA2aAgent | chapter6/a2a_client_router_agent.py:41-76 | the result and the new network state are those of `ExecuteResult` and `ExecuteState`; each failing step raises its own error |
| A2AClient.ExecuteLog | chapter6/a2a_client_router_agent.py:41-70 | a call appends to the log and leaves earlier entries alone: first the card fetch, then at most one send to the URL the card names, using two draws |
| A2AClient.NextRequestShape | chapter6/a2a_client_router_agent.py:55-69 | the message is from `user` and has one part; its id is the hex text of the first draw, and the request id is the hyphenated text of the second draw |
| A2AClient.NextRequestDecodes | chapter6/a2a_client_router_agent.py:53-70 | the message actually sent decodes to the caller's user and prompt |
| A2AClient.ExecuteReturnsAnswer | chapter6/a2a_client_router_agent.py:70-76 | when the card is fetched and the specialist answers with a text message, the call returns that text |
| A2AClient.ExecuteKeepsWellDrawn | chapter6/a2a_client_router_agent.py:61-67 | every logged request keeps carrying the ids of its own two earlier draws |
| A2AClient.ExecuteKeepsIdsFresh | chapter6/a2a_client_router_agent.py:61-67 | if the draws made so far and the two of this call do not repeat, all logged message ids differ from each other, and so do all logged request ids |
| RouterAgent.RouterGraph | chapter6/a2a_client_router_agent.py:96-117 | the compiled graph is well formed (every edge source and target and the entry are added nodes), starts at `Router`, has exactly the four nodes, and each node has either the conditional edges or a fixed edge, never both; `RouterGraphOneWay` shows no edge leads back |
| RouterAgent.RouteTable | chapter6/a2a_client_router_agent.py:102-108 | no label leads back to the router, and distinct labels lead to distinct nodes; `KnownLabels` gives its keys |
| RouterAgent.CallLlm | chapter6/a2a_client_router_agent.py:119-134 | the update is one assistant message holding the model's answer to the history with the system prompt in front; `AfterRouter` shows that answer becomes the routing key |
| RouterAgent.UnsupportedNode | chapter6/a2a_client_router_agent.py:164-176 | whatever the history, the update is one assistant message holding the fixed refusal text; `UnsupportedSession` states the session's effect |
| RouterAgent.FindRoute | chapter6/a2a_client_router_agent.py:178-187 | the routing key is the content of the last message of the state |
| RouterAgent.RunFrom | chapter6/a2a_client_router_agent.py:83-84 | the runner keeps the state append-only (the `operator.add` reducer): a completed run's messages extend the input, and the trace only grows, by at most the step budget; `OneWayRunEnds` bounds it on one-way graphs |
| RouterAgent.Session | chapter6/a2a_client_router_agent.py:232-235 | an `invoke` from the entry point runs `Router` first, and a completed run extends the input; `SessionEnds`, `SessionClassifiesOnce` and `CompletedSessionAppendsTwo` state the rest |
| RouterAgent.ClassifierInput | chapter6/a2a_client_router_agent.py:125-127 | the system prompt is put in front exactly when it is non-empty; otherwise the input is passed through unchanged |
| RouterAgent.DispatchUpdate | chapter6/a2a_client_router_agent.py:136-162 | a successful dispatch node adds exactly one assistant message |
| RouterAgent.StepUpdate | chapter6/a2a_client_router_agent.py:119-176 | every node that succeeds adds exactly one assistant message |
| RouterAgent.Next | chapter6/a2a_client_router_agent.py:102-113 | on a graph whose edges lead down, every edge taken lowers the rank |
| RouterAgent.RouterGraphOneWay | chapter6/a2a_client_router_agent.py:102-116 | routing is one way: no fixed or conditional edge leads back up to the router |
| RouterAgent.OneWayRunEnds | chapter6/a2a_client_router_agent.py:96-117 | on a one-way graph, a run never reaches the recursion limit and runs at most as many nodes as its rank |
| RouterAgent.SessionEnds | chapter6/a2a_client_router_agent.py:96-117 | every invocation ends within the limit after at most two node runs |
| RouterAgent.KnownLabels | chapter6/a2a_client_router_agent.py:102-108 | only `POLICY`, `TIMEOFF` and `UNSUPPORTED` are keys of the routing table |
| RouterAgent.AfterRouter | chapter6/a2a_client_router_agent.py:119-134 | the router adds the classifier's answer, and that last message is the routing key (`find_route`); an unknown key fails with `NoRoute` |
| RouterAgent.AfterDispatch | chapter6/a2a_client_router_agent.py:110-113 | any node after the router adds its update and goes straight to END |
| RouterAgent.SessionClassifiesOnce | chapter6/a2a_client_router_agent.py:102-113 | the router runs once, and so does the node its label names; any other label fails the session with no remote call and no change to the network |
| RouterAgent.UnsupportedSession | chapter6/a2a_client_router_agent.py:164-176 | `UNSUPPORTED` appends the fixed refusal text and makes no remote call |
| RouterAgent.DispatchRun | chapter6/a2a_client_router_agent.py:136-162 | a dispatch node forwards `messages[0].content` with the router's user to its own address and appends the reply; a failure fails the run |
| RouterAgent.DispatchSession | chapter6/a2a_client_router_agent.py:136-162 | `POLICY` makes exactly one call, to port 9001, and `TIMEOFF` one call, to port 9002. The call forwards the first input message, or the label when the input is empty. The reply becomes the last message, and a failed call fails the session |
| RouterAgent.DispatchSendsOriginalText | chapter6/a2a_client_router_agent.py:139-143 | the card at the label's address is fetched first; the one message sent decodes to the user and the user's original text, not the label |
| RouterAgent.CompletedSessionAppendsTwo | chapter6/a2a_client_router_agent.py:83-84 | a completed session keeps the input as its prefix and adds exactly two assistant messages: the label, then the reply |
| RouterAgent.RouterHRAgent.constructor | chapter6/a2a_client_router_agent.py:89-117 | the graph built call by call is the router graph |
| RouterAgent.RouterHRAgent.PolicyAgentNode | chapter6/a2a_client_router_agent.py:136-148 | result and network state are those of the dispatch to port 9001 |
| RouterAgent.RouterHRAgent.TimeoffAgentNode | chapter6/a2a_client_router_agent.py:150-162 | result and network state are those of the dispatch to port 9002 |
| RouterAgent.RouterHRAgent.RunNode | chapter6/a2a_client_router_agent.py:97-100 | running a node gives that node's update and network effect |
| RouterAgent.RouterHRAgent.Invoke | chapter6/a2a_client_router_agent.py:232-235 | `router_graph.invoke` returns the outcome of `Session` and leaves the network in its state |
| TimeoffLedger.EmptyStore | chapter4/timeoff_datastore.py:18-41 | new tables are empty, and satisfy the schema's guarantees and both balance invariants |
| TimeoffLedger.InsertOrIgnoreKeeps | chapter4/timeoff_datastore.py:53-56 | `INSERT OR IGNORE` adds the name and never changes a row already present |
| TimeoffLedger.InsertOrIgnoreValid | chapter4/timeoff_datastore.py:23-28 | an insert keeps employee ids distinct and below the next id |
| TimeoffLedger.SeedIdempotent | chapter4/timeoff_datastore.py:52-56 | seeding an already seeded store changes no employee and no history row, so no name is ever duplicated; only the AUTOINCREMENT counter advances, by one per ignored row |
| TimeoffLedger.ReopenWithAlice | chapter4/timeoff_datastore.py:24 | reopening a file that holds only Alice (id 1) gives Bob id 3 and Charlie id 4, because Alice's ignored insert uses up id 2 |
| TimeoffLedger.SeedKeeps | chapter4/timeoff_datastore.py:44-57 | seeding adds exactly Alice, Bob and Charlie to the names, leaves every existing employee and the history as they were, and keeps the schema's guarantees |
| TimeoffLedger.OpenNew | chapter4/timeoff_datastore.py:10-57 | a new store holds exactly Alice (20, 5), Bob (15, 3) and Charlie (25, 10), with ids 1 to 3 and no history, and every employee has `0 <= consumed <= allowed` |
| TimeoffLedger.RequestOutcome | chapter4/timeoff_datastore.py:80-95 | an unknown employee gives "Employee not found"; more days than the balance gives "Not enough timeoff balance"; a number of days outside the 64-bit SQLite INTEGER range gives `OverflowError` at the history INSERT; otherwise the request succeeds, equality included. The first two errors carry exactly the texts "Employee not found" and "Not enough timeoff balance" |
| TimeoffLedger.HugeNegativeRequestRefused | chapter4/timeoff_datastore.py:88-95 | a request for -2^63 - 1 days passes the balance check but is refused when it is bound to the INSERT, and the store is unchanged |
| TimeoffLedger.RefusedChangesNothing | chapter4/timeoff_datastore.py:85-89 | a refused request leaves both tables and both counters unchanged |
| TimeoffLedger.GrantedEffect | chapter4/timeoff_datastore.py:91-103 | a granted request appends one history row `(emp_id, start_day, total_days)`, adds the days to that employee only, and changes no other employee |
| TimeoffLedger.BalanceAfterRequest | chapter4/timeoff_datastore.py:97-101 | a granted request lowers that balance by exactly the days granted; every other balance stays the same |
| TimeoffLedger.RequestKeepsBalanced | chapter4/timeoff_datastore.py:88-101 | `consumed <= allowed` holds after every request, whatever its length |
| TimeoffLedger.RequestKeepsNonNegative | chapter4/timeoff_datastore.py:88-101 | consumption stays non-negative for requests of non-negative length |
| TimeoffLedger.NegativeRequestGranted | chapter4/timeoff_datastore.py:88-101 | a negative request is granted and drives consumption below zero |
| TimeoffLedger.RequestKeepsValid | chapter4/timeoff_datastore.py:31-40 | after a request, history ids still increase and each history row still names an existing employee |
| TimeoffLedger.RequestKeepsLedger | chapter4/timeoff_datastore.py:91-101 | for every employee, consumed days minus the days recorded in the history is unchanged by any request |
| TimeoffLedger.SecondRequestRefused | chapter4/timeoff_datastore.py:88-89 | of two requests that each fit the balance but not together, the first is granted and the second refused, leaving the store unchanged |
| TimeoffLedger.AliceDemo | chapter4/timeoff_datastore.py:107-111 | Alice's balance is 15; after a request for 2 days it is 13 |
| TimeoffLedger.TimeOffDatastore.constructor | chapter4/timeoff_datastore.py:10-15 | construction connects, creates the tables if missing and seeds them |
| TimeoffLedger.TimeOffDatastore.InsertEmployee | chapter4/timeoff_datastore.py:53-56 | one `INSERT OR IGNORE`: a new name gets the next id; an existing name is left alone, and its id is still used up |
| TimeoffLedger.TimeOffDatastore.SeedData | chapter4/timeoff_datastore.py:44-57 | the loop inserts the three seed rows in order |
| TimeoffLedger.TimeOffDatastore.GetTimeoffBalance | chapter4/timeoff_datastore.py:60-71 | returns allowed minus consumed for a known name and None for an unknown one; changes nothing |
| TimeoffLedger.TimeOffDatastore.AddTimeoffRequest | chapter4/timeoff_datastore.py:76-103 | result and new tables are those of `RequestResult` and `RequestState` |

## Left out

- The language model behind `model.invoke` is an arbitrary function (`AgentConfig.classify`). Its prompts and what it answers are not modelled. Its failures are not modelled either: in the model the `Router` node always succeeds, while a raising `model.invoke` would fail the whole `invoke` before any remote call.
- HTTP, `httpx` timeouts and asyncio are not modelled. The card fetch and the send answer from fixed functions of their arguments, and their failures are the `Unreachable` and `TimedOut` outcomes.
- `uuid4` randomness is not modelled. The draws are a fixed sequence `Env.uuid4`, and freshness is proved under the assumption that the draws made so far do not repeat. The version and variant bits of a version-4 UUID are not modelled either: any 128-bit value is allowed.
- Lone surrogates in a prompt, which Python strings can hold, are not modelled, because a Dafny `string` cannot hold them.
- The JSON-RPC and pydantic layers are reduced to the fields the router reads. Validation errors other than `AIMessage(content=None)` are not modelled.
- `system_prompt=None` is not modelled separately. Only its truth value matters, and the empty string stands for it.
- The `debug` flag and every `print` are left out, because they only write output.
- The thread configuration passed to `invoke` is left out. The router keeps no memory across invocations.
- SQLite transactions and concurrent access are left out, and the ledger is modelled sequentially. Each method does either both writes or neither.
- TimeoffLedger.RequestState: stored values are unbounded integers. When `consumed_days + total_days` falls below -2^63, SQLite turns the sum into a floating-point value; the model keeps the exact integer. Values already in an existing database file are not checked against the 64-bit range either.
- `start_day` is kept as text and is not checked, as in the code. `datetime` is imported but never used.
- The MCP server, the MCP clients and the A2A wrapper servers are not part of this model. They only delegate to the parts modelled here or to the language model.
- TimeoffLedger.RequestKeepsNonNegative: requires a non-negative number of days, because the code does not check it. With a negative number, consumption can go below zero, as `NegativeRequestGranted` shows.
- RouterAgent.RunFrom: LangGraph's run limit is modelled as a budget of node runs (`RECURSION_LIMIT`, 25 by default). Its exact superstep accounting is not modelled.
