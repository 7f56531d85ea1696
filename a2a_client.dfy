/**
  `execute_a2a_agent`: fetch the agent card at an address, send one
  `message/send` request to the URL the card names, and unwrap the text of
  the reply. The network and the random source behind `uuid4` are not
  visible to the model; a `Network` object stands for them, answers from
  fixed functions, and records every exchange.
 */
module A2AClient {
  import opened Wrappers
  import opened A2AEnvelope

  /** The outcome of one network operation. */
  datatype Transport<T> = Delivered(value: T) | Unreachable | TimedOut

  /** The part of an agent card the client uses: the URL to send messages to. */
  datatype AgentCard = AgentCard(name: string, url: string)

  /** One exchange on the network; `draw` is the index of the random draw behind the message id. */
  datatype Exchange =
    | CardFetch(cardUrl: string)
    | MessageSend(serviceUrl: string, request: SendMessageRequest, draw: nat)

  /** The exceptions `execute_a2a_agent` lets escape. */
  datatype RemoteError =
    | CardNotFetched(cardFailure: Transport<AgentCard>)
    | SendFailed(sendFailure: Transport<SendMessageResponse>)
    | Malformed(cause: ExtractError)

  /** How the outside world answers: card fetches, sends, and the values `uuid4` draws. */
  datatype Env = Env(
    fetchCard: string -> Transport<AgentCard>,
    send: (string, SendMessageRequest) -> Transport<SendMessageResponse>,
    uuid4: nat -> Uuid)

  /** What the client has done so far: the exchanges, and how many UUIDs it has drawn. */
  datatype NetState = NetState(log: seq<Exchange>, drawn: nat)

  /** The request a call sends when the card is fetched: its ids are the next two draws. */
  function NextRequest(env: Env, ns: NetState, user: string, prompt: string): SendMessageRequest {
    BuildRequest(user, prompt, env.uuid4(ns.drawn), env.uuid4(ns.drawn + 1))
  }

  /** The network state after one call of `execute_a2a_agent`. */
  function ExecuteState(env: Env, ns: NetState, agentCardUrl: string, user: string, prompt: string): NetState {
    var fetched := env.fetchCard(agentCardUrl);
    if fetched.Delivered? then
      NetState(ns.log + [CardFetch(agentCardUrl),
                         MessageSend(fetched.value.url, NextRequest(env, ns, user, prompt), ns.drawn)],
               ns.drawn + 2)
    else
      NetState(ns.log + [CardFetch(agentCardUrl)], ns.drawn)
  }

  /** The result of one call of `execute_a2a_agent`. */
  function ExecuteResult(env: Env, ns: NetState, agentCardUrl: string, user: string, prompt: string)
    : Result<Reply, RemoteError>
  {
    var fetched := env.fetchCard(agentCardUrl);
    if !fetched.Delivered? then Err(CardNotFetched(fetched))
    else match env.send(fetched.value.url, NextRequest(env, ns, user, prompt))
      case Delivered(response) =>
        (match ExtractText(response)
         case Ok(reply) => Ok(reply)
         case Err(e) => Err(Malformed(e)))
      case failure => Err(SendFailed(failure))
  }

  class Network {
    const env: Env
    var log: seq<Exchange>
    var drawn: nat

    constructor (env: Env)
      ensures this.env == env && log == [] && drawn == 0
    {
      this.env := env;
      log := [];
      drawn := 0;
    }

    function State(): NetState
      reads this
    {
      NetState(log, drawn)
    }

    /** `A2AClient.get_client_from_agent_card_url`: one fetch of the card. */
    method FetchCard(url: string) returns (r: Transport<AgentCard>)
      modifies this
      ensures r == env.fetchCard(url)
      ensures log == old(log) + [CardFetch(url)] && drawn == old(drawn)
    {
      r := env.fetchCard(url);
      log := log + [CardFetch(url)];
    }

    /** `uuid4()`: the next value of the random source. */
    method Uuid4() returns (u: Uuid)
      modifies this
      ensures u == env.uuid4(old(drawn)) && drawn == old(drawn) + 1 && log == old(log)
    {
      u := env.uuid4(drawn);
      drawn := drawn + 1;
    }

    /** `client.send_message`: one request, one response. */
    method SendMessage(url: string, request: SendMessageRequest, draw: nat) returns (r: Transport<SendMessageResponse>)
      modifies this
      ensures r == env.send(url, request)
      ensures log == old(log) + [MessageSend(url, request, draw)] && drawn == old(drawn)
    {
      r := env.send(url, request);
      log := log + [MessageSend(url, request, draw)];
    }
  }

  /** `execute_a2a_agent(agent_card_url, user, prompt)`. */
  method ExecuteA2aAgent(net: Network, agentCardUrl: string, user: string, prompt: string)
    returns (r: Result<Reply, RemoteError>)
    modifies net
    ensures r == ExecuteResult(net.env, old(net.State()), agentCardUrl, user, prompt)
    ensures net.State() == ExecuteState(net.env, old(net.State()), agentCardUrl, user, prompt)
  {
    var card := net.FetchCard(agentCardUrl);
    if !card.Delivered? {
      return Err(CardNotFetched(card));
    }
    var draw := net.drawn;
    var messageUuid := net.Uuid4();
    var requestUuid := net.Uuid4();
    var request := BuildRequest(user, prompt, messageUuid, requestUuid);
    var response := net.SendMessage(card.value.url, request, draw);
    if !response.Delivered? {
      return Err(SendFailed(response));
    }
    var text := ExtractText(response.value);
    if text.Err? {
      return Err(Malformed(text.error));
    }
    r := Ok(text.value);
  }

  // ---------------------------------------------------------------------
  // What one call does
  // ---------------------------------------------------------------------

  /**
    One call appends to the log and changes nothing logged before: it
    fetches the card at the given address first, then sends at most one
    message, to the URL the card names, using up two draws.
   */
  lemma ExecuteLog(env: Env, ns: NetState, agentCardUrl: string, user: string, prompt: string)
    ensures var ns' := ExecuteState(env, ns, agentCardUrl, user, prompt);
      var fetched := env.fetchCard(agentCardUrl);
      && |ns'.log| == |ns.log| + (if fetched.Delivered? then 2 else 1)
      && ns'.log[..|ns.log|] == ns.log
      && ns'.log[|ns.log|] == CardFetch(agentCardUrl)
      && ns'.drawn == ns.drawn + (if fetched.Delivered? then 2 else 0)
      && (fetched.Delivered? ==>
            ns'.log[|ns.log| + 1] == MessageSend(fetched.value.url, NextRequest(env, ns, user, prompt), ns.drawn))
  {
    var ns' := ExecuteState(env, ns, agentCardUrl, user, prompt);
    assert ns'.log[..|ns.log|] == ns.log;
  }

  /** The message sent is a user message with one part, whose ids are the texts of the two draws it used. */
  lemma NextRequestShape(env: Env, ns: NetState, user: string, prompt: string)
    ensures var request := NextRequest(env, ns, user, prompt);
      && request.message.role == User
      && |request.message.parts| == 1
      && request.message.messageId == UuidHex(env.uuid4(ns.drawn))
      && request.id == UuidString(env.uuid4(ns.drawn + 1))
  {
  }

  /** The specialist decodes the message sent back to exactly `{user, prompt}`. */
  lemma NextRequestDecodes(env: Env, ns: NetState, user: string, prompt: string)
    ensures JsonText.DecodeInput(UserInput(NextRequest(env, ns, user, prompt).message))
            == Some(JsonText.AgentInput(user, prompt))
  {
    RequestRoundTrip(user, prompt, env.uuid4(ns.drawn), env.uuid4(ns.drawn + 1));
  }

  /** A specialist's text answer is what the call returns. */
  lemma ExecuteReturnsAnswer(env: Env, ns: NetState, agentCardUrl: string, user: string, prompt: string,
                             id: string, answer: string, messageId: string)
    requires env.fetchCard(agentCardUrl).Delivered?
    requires env.send(env.fetchCard(agentCardUrl).value.url, NextRequest(env, ns, user, prompt))
             == Delivered(SuccessResponse(id, MessageResult(AgentTextMessage(answer, messageId))))
    ensures ExecuteResult(env, ns, agentCardUrl, user, prompt) == Ok(Text(answer))
  {
    ReplyRoundTrip(id, answer, messageId);
  }

  // ---------------------------------------------------------------------
  // Fresh identifiers
  // ---------------------------------------------------------------------

  /** The first `n` draws are pairwise distinct. */
  ghost predicate DistinctBelow(uuid4: nat -> Uuid, n: nat) {
    forall i: nat, j: nat :: i < n && j < n && i != j ==> uuid4(i) != uuid4(j)
  }

  /** Every logged request carries the ids of its own two draws, both made before now. */
  ghost predicate WellDrawn(env: Env, ns: NetState) {
    forall i :: 0 <= i < |ns.log| && ns.log[i].MessageSend? ==> ns.log[i].draw + 1 < ns.drawn && IdsFromDraws(env, ns.log[i])
  }

  /** A message's id is the text of its draw, and its request's id that of the next draw. */
  ghost predicate IdsFromDraws(env: Env, e: Exchange)
    requires e.MessageSend?
  {
    && e.request.message.messageId == UuidHex(env.uuid4(e.draw))
    && e.request.id == UuidString(env.uuid4(e.draw + 1))
  }

  /** No two logged requests share a message id, and no two share a request id. */
  ghost predicate FreshIds(ns: NetState) {
    forall i, j :: 0 <= i < j < |ns.log| && ns.log[i].MessageSend? && ns.log[j].MessageSend? ==>
      && ns.log[i].request.message.messageId != ns.log[j].request.message.messageId
      && ns.log[i].request.id != ns.log[j].request.id
  }

  /** Appending well-drawn exchanges to a well-drawn log keeps it well drawn. */
  lemma WellDrawnAppend(env: Env, ns: NetState, extra: seq<Exchange>, drawn: nat)
    requires WellDrawn(env, ns) && ns.drawn <= drawn
    requires WellDrawn(env, NetState(extra, drawn))
    ensures WellDrawn(env, NetState(ns.log + extra, drawn))
  {
    var log := ns.log + extra;
    forall i | 0 <= i < |log| && log[i].MessageSend?
      ensures log[i].draw + 1 < drawn && IdsFromDraws(env, log[i])
    {
      if i < |ns.log| {
        assert log[i] == ns.log[i];
      } else {
        assert log[i] == extra[i - |ns.log|];
      }
    }
  }

  /** Each logged request keeps carrying the ids of its own two earlier draws. */
  lemma ExecuteKeepsWellDrawn(env: Env, ns: NetState, agentCardUrl: string, user: string, prompt: string)
    requires WellDrawn(env, ns)
    ensures WellDrawn(env, ExecuteState(env, ns, agentCardUrl, user, prompt))
  {
    var fetched := env.fetchCard(agentCardUrl);
    if fetched.Delivered? {
      var extra := [CardFetch(agentCardUrl), MessageSend(fetched.value.url, NextRequest(env, ns, user, prompt), ns.drawn)];
      NextRequestShape(env, ns, user, prompt);
      assert WellDrawn(env, NetState(extra, ns.drawn + 2));
      WellDrawnAppend(env, ns, extra, ns.drawn + 2);
    } else {
      WellDrawnAppend(env, ns, [CardFetch(agentCardUrl)], ns.drawn);
    }
  }

  /**
    A card fetch and a message whose ids come from the next two draws,
    appended to a log with fresh ids, leave the ids fresh.
   */
  lemma FreshIdsAppend(env: Env, ns: NetState, fetch: Exchange, e: Exchange, drawn: nat)
    requires DistinctBelow(env.uuid4, ns.drawn + 2)
    requires WellDrawn(env, ns) && FreshIds(ns)
    requires fetch.CardFetch? && e.MessageSend?
    requires e.request.message.messageId == UuidHex(env.uuid4(ns.drawn))
    requires e.request.id == UuidString(env.uuid4(ns.drawn + 1))
    ensures FreshIds(NetState(ns.log + [fetch, e], drawn))
  {
    var log := ns.log + [fetch, e];
    var n := |ns.log|;
    forall i, j | 0 <= i < j < |log| && log[i].MessageSend? && log[j].MessageSend?
      ensures log[i].request.message.messageId != log[j].request.message.messageId
      ensures log[i].request.id != log[j].request.id
    {
      assert log[i] == ns.log[i];
      if j < n {
        assert log[j] == ns.log[j];
      } else {
        assert j == n + 1;
        var d := ns.log[i].draw;
        assert d + 1 < ns.drawn && IdsFromDraws(env, ns.log[i]);
        UuidTextInjective(env.uuid4(d), env.uuid4(ns.drawn));
        UuidTextInjective(env.uuid4(d + 1), env.uuid4(ns.drawn + 1));
      }
    }
  }

  /**
    When the draws made so far and the two this call makes are distinct,
    the new request's ids differ from those of every request logged before it.
   */
  lemma ExecuteKeepsIdsFresh(env: Env, ns: NetState, agentCardUrl: string, user: string, prompt: string)
    requires DistinctBelow(env.uuid4, ns.drawn + 2)
    requires WellDrawn(env, ns) && FreshIds(ns)
    ensures FreshIds(ExecuteState(env, ns, agentCardUrl, user, prompt))
  {
    var fetched := env.fetchCard(agentCardUrl);
    if fetched.Delivered? {
      NextRequestShape(env, ns, user, prompt);
      FreshIdsAppend(env, ns, CardFetch(agentCardUrl),
                     MessageSend(fetched.value.url, NextRequest(env, ns, user, prompt), ns.drawn), ns.drawn + 2);
    } else {
      var log := ns.log + [CardFetch(agentCardUrl)];
      forall i, j | 0 <= i < j < |log| && log[i].MessageSend? && log[j].MessageSend?
        ensures log[i].request.message.messageId != log[j].request.message.messageId
        ensures log[i].request.id != log[j].request.id
      {
        assert log[i] == ns.log[i] && log[j] == ns.log[j];
      }
    }
  }
}
