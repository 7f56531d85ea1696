/**
  The router agent: a LangGraph state graph whose state is an append-only
  message list. The `Router` node asks an opaque classifier for a label,
  the label chooses one of three nodes, and each of those nodes adds one
  reply and ends the session. Two of them forward the user's original
  text to a specialist over A2A.
 */
module RouterAgent {
  import opened Wrappers
  import opened A2AEnvelope
  import opened A2AClient

  // ---------------------------------------------------------------------
  // Messages and state
  // ---------------------------------------------------------------------

  datatype ChatRole = SystemRole | HumanRole | AIRole

  datatype ChatMessage = ChatMessage(role: ChatRole, content: string)

  function SystemMessage(content: string): ChatMessage { ChatMessage(SystemRole, content) }
  function HumanMessage(content: string): ChatMessage { ChatMessage(HumanRole, content) }
  function AIMessage(content: string): ChatMessage { ChatMessage(AIRole, content) }

  /** What the router is built with: the classifier's system prompt, the user, and the model behind `model.invoke`. */
  datatype AgentConfig = AgentConfig(
    systemPrompt: string,
    user: string,
    classify: seq<ChatMessage> -> string)

  const POLICY_AGENT_URL: string := "http://localhost:9001"
  const TIMEOFF_AGENT_URL: string := "http://localhost:9002"

  const UNSUPPORTED_REPLY: string :=
    "Sorry, I cannot help you with this request.\n"
    + "        I only support HR policy queries and timeoff requests.\n"
    + "        Please contact your HR representative for assistance."

  /** How a session can end without a final state: the exceptions `invoke` lets escape. */
  datatype SessionError =
    | NoRoute(key: string)            // the label is not a key of the conditional edges
    | EmptyHistory                    // `messages[0]` of an empty list
    | RemoteFailed(remote: RemoteError)
    | NoReplyText                     // the reply had no text, and `AIMessage(content=None)` is refused
    | RecursionLimit                  // more node runs than the runner allows

  datatype SessionResult = Completed(messages: seq<ChatMessage>) | Failed(error: SessionError)

  // ---------------------------------------------------------------------
  // The graph
  // ---------------------------------------------------------------------

  datatype Node = RouterNode | PolicyAgent | TimeoffAgent | UnsupportedFunctions

  datatype Target = To(node: Node) | End

  /** A state graph as `add_node`, `add_conditional_edges`, `add_edge` and `set_entry_point` build it. */
  datatype Graph = Graph(
    nodes: set<Node>,
    branches: map<Node, map<string, Node>>,
    edges: map<Node, Target>,
    entry: Option<Node>)

  function EmptyGraph(): Graph { Graph({}, map[], map[], None) }

  function AddNode(g: Graph, n: Node): Graph { g.(nodes := g.nodes + {n}) }

  function AddConditionalEdges(g: Graph, source: Node, pathMap: map<string, Node>): Graph {
    g.(branches := g.branches[source := pathMap])
  }

  function AddEdge(g: Graph, source: Node, target: Target): Graph { g.(edges := g.edges[source := target]) }

  function SetEntryPoint(g: Graph, n: Node): Graph { g.(entry := Some(n)) }

  /**
    The graph `RouterHRAgent.__init__` builds: the four nodes, the closed
    routing table out of the router, the three edges to END, and the
    router as the entry point.
   */
  function RouterGraph(): (g: Graph)
    ensures WellFormed(g) && g.entry == Some(RouterNode)
    ensures g.nodes == {RouterNode, PolicyAgent, TimeoffAgent, UnsupportedFunctions}
    ensures forall n :: n in g.nodes ==> (n in g.branches) != (n in g.edges)
  {
    Graph(
      {RouterNode, PolicyAgent, TimeoffAgent, UnsupportedFunctions},
      map[RouterNode := RouteTable()],
      map[PolicyAgent := End, TimeoffAgent := End, UnsupportedFunctions := End],
      Some(RouterNode))
  }

  /** How many node runs LangGraph allows one `invoke` before it gives up (its default `recursion_limit`). */
  const RECURSION_LIMIT: nat := 25

  /** The router sits above the dispatch nodes, which sit above END. */
  function Rank(t: Target): nat {
    match t
    case End => 0
    case To(RouterNode) => 2
    case To(_) => 1
  }

  /**
    What compiling checks: the entry point and every source and target of
    an edge, fixed or conditional, is a node of the graph.
   */
  ghost predicate WellFormed(g: Graph) {
    && (g.entry.Some? ==> g.entry.value in g.nodes)
    && (forall n :: n in g.branches ==> n in g.nodes)
    && (forall n, key :: n in g.branches && key in g.branches[n] ==> g.branches[n][key] in g.nodes)
    && (forall n :: n in g.edges ==> n in g.nodes && (g.edges[n].To? ==> g.edges[n].node in g.nodes))
  }

  /** Every edge, fixed or conditional, leads strictly down: no path returns to where it came from. */
  ghost predicate OneWay(g: Graph) {
    && (forall n, key :: n in g.branches && key in g.branches[n] ==> Rank(To(g.branches[n][key])) < Rank(To(n)))
    && (forall n :: n in g.edges ==> Rank(g.edges[n]) < Rank(To(n)))
  }

  /** The closed routing table of the conditional edges out of the router. */
  function RouteTable(): (table: map<string, Node>)
    ensures forall key :: key in table ==> table[key] != RouterNode
    ensures forall k1, k2 :: k1 in table && k2 in table && k1 != k2 ==> table[k1] != table[k2]
  {
    map["POLICY" := PolicyAgent, "TIMEOFF" := TimeoffAgent, "UNSUPPORTED" := UnsupportedFunctions]
  }

  /** No edge of the router's graph leads back up: every session ends. */
  lemma RouterGraphOneWay()
    ensures OneWay(RouterGraph())
  {
  }

  // ---------------------------------------------------------------------
  // Nodes
  // ---------------------------------------------------------------------

  /** What the classifier is shown: the system prompt in front, when there is one. */
  function ClassifierInput(systemPrompt: string, messages: seq<ChatMessage>): (r: seq<ChatMessage>)
    ensures systemPrompt != "" ==> |r| == |messages| + 1 && r[0] == SystemMessage(systemPrompt) && r[1..] == messages
    ensures systemPrompt == "" ==> r == messages
  {
    if systemPrompt != "" then [SystemMessage(systemPrompt)] + messages else messages
  }

  /** `call_llm`: the update holds the classifier's answer alone. */
  function CallLlm(cfg: AgentConfig, messages: seq<ChatMessage>): (r: seq<ChatMessage>)
    ensures |r| == 1 && r[0].role == AIRole
    ensures r[0].content == cfg.classify(ClassifierInput(cfg.systemPrompt, messages))
  {
    [AIMessage(cfg.classify(ClassifierInput(cfg.systemPrompt, messages)))]
  }

  /** `unsupported_node`: a fixed refusal. */
  function UnsupportedNode(messages: seq<ChatMessage>): (r: seq<ChatMessage>)
    ensures |r| == 1 && r[0].role == AIRole && r[0].content == UNSUPPORTED_REPLY
  {
    [AIMessage(UNSUPPORTED_REPLY)]
  }

  /** `find_route`: the routing key is the content of the last message. */
  function FindRoute(messages: seq<ChatMessage>): (key: string)
    requires |messages| > 0
    ensures forall prefix, last :: messages == prefix + [last] ==> key == last.content
  {
    messages[|messages| - 1].content
  }

  /** The text a dispatch node forwards, `messages[0].content`. */
  function ForwardedPrompt(messages: seq<ChatMessage>): Option<string> {
    if |messages| == 0 then None else Some(messages[0].content)
  }

  /** The update of a dispatch node addressed to `url`. */
  function DispatchUpdate(cfg: AgentConfig, env: Env, ns: NetState, url: string, messages: seq<ChatMessage>)
    : (r: Result<seq<ChatMessage>, SessionError>)
    ensures r.Ok? ==> |r.value| == 1 && r.value[0].role == AIRole
  {
    match ForwardedPrompt(messages)
    case None => Err(EmptyHistory)
    case Some(prompt) =>
      match ExecuteResult(env, ns, url, cfg.user, prompt)
      case Ok(Text(answer)) => Ok([AIMessage(answer)])
      case Ok(NoText) => Err(NoReplyText)
      case Err(e) => Err(RemoteFailed(e))
  }

  /** The network state after a dispatch node addressed to `url`. */
  function DispatchState(cfg: AgentConfig, env: Env, ns: NetState, url: string, messages: seq<ChatMessage>): NetState {
    match ForwardedPrompt(messages)
    case None => ns
    case Some(prompt) => ExecuteState(env, ns, url, cfg.user, prompt)
  }

  function NodeUrl(n: Node): string {
    if n == TimeoffAgent then TIMEOFF_AGENT_URL else POLICY_AGENT_URL
  }

  /** The update a node returns; every node contributes exactly one message, from the assistant. */
  function StepUpdate(cfg: AgentConfig, env: Env, ns: NetState, n: Node, messages: seq<ChatMessage>)
    : (r: Result<seq<ChatMessage>, SessionError>)
    ensures r.Ok? ==> |r.value| == 1 && r.value[0].role == AIRole
  {
    match n
    case RouterNode => Ok(CallLlm(cfg, messages))
    case UnsupportedFunctions => Ok(UnsupportedNode(messages))
    case _ => DispatchUpdate(cfg, env, ns, NodeUrl(n), messages)
  }

  /** The network state after a node: only the two dispatch nodes touch it. */
  function StepState(cfg: AgentConfig, env: Env, ns: NetState, n: Node, messages: seq<ChatMessage>): NetState {
    match n
    case RouterNode => ns
    case UnsupportedFunctions => ns
    case _ => DispatchState(cfg, env, ns, NodeUrl(n), messages)
  }

  /** Where the graph goes after node `n`, given the state with the node's update applied. */
  function Next(g: Graph, n: Node, messages: seq<ChatMessage>): (r: Result<Target, SessionError>)
    requires |messages| > 0
    ensures OneWay(g) && r.Ok? ==> Rank(r.value) < Rank(To(n))
  {
    if n in g.branches then
      var key := FindRoute(messages);
      if key in g.branches[n] then Ok(To(g.branches[n][key])) else Err(NoRoute(key))
    else if n in g.edges then Ok(g.edges[n])
    else Ok(End)
  }

  // ---------------------------------------------------------------------
  // Runs
  // ---------------------------------------------------------------------

  /** The outcome of a run from `current`, the network state it leaves, and the nodes it ran. */
  datatype Run = Run(result: SessionResult, net: NetState, trace: seq<Node>)

  /**
    The graph runner: run the current node, add its update to the state
    (the `operator.add` reducer), follow its edge, and stop at END; with
    `steps` node runs left and a node still to run, give up.
   */
  function RunFrom(cfg: AgentConfig, env: Env, g: Graph, ns: NetState, current: Target,
                   messages: seq<ChatMessage>, trace: seq<Node>, steps: nat): (r: Run)
    ensures trace <= r.trace && |r.trace| <= |trace| + steps
    ensures r.result.Completed? ==> messages <= r.result.messages
    decreases steps
  {
    match current
    case End => Run(Completed(messages), ns, trace)
    case To(n) =>
      if steps == 0 then Run(Failed(RecursionLimit), ns, trace)
      else
        var ns' := StepState(cfg, env, ns, n, messages);
        match StepUpdate(cfg, env, ns, n, messages)
        case Err(e) => Run(Failed(e), ns', trace + [n])
        case Ok(update) =>
          var messages' := messages + update;
          match Next(g, n, messages')
          case Err(e) => Run(Failed(e), ns', trace + [n])
          case Ok(t) => RunFrom(cfg, env, g, ns', t, messages', trace + [n], steps - 1)
  }

  /** One step of a run that neither fails nor stops. */
  lemma RunFromContinues(cfg: AgentConfig, env: Env, g: Graph, ns: NetState, n: Node,
                         messages: seq<ChatMessage>, trace: seq<Node>, steps: nat)
    requires steps > 0
    requires StepUpdate(cfg, env, ns, n, messages).Ok?
    requires Next(g, n, messages + StepUpdate(cfg, env, ns, n, messages).value).Ok?
    ensures RunFrom(cfg, env, g, ns, To(n), messages, trace, steps) ==
      var messages' := messages + StepUpdate(cfg, env, ns, n, messages).value;
      RunFrom(cfg, env, g, StepState(cfg, env, ns, n, messages), Next(g, n, messages').value, messages', trace + [n], steps - 1)
  {
  }

  /**
    On a graph whose edges all lead down, a run with at least as many steps
    left as the rank of where it stands never reaches the limit, and runs
    at most that many nodes.
   */
  lemma {:induction false} OneWayRunEnds(cfg: AgentConfig, env: Env, g: Graph, ns: NetState, current: Target,
                                         messages: seq<ChatMessage>, trace: seq<Node>, steps: nat)
    requires OneWay(g) && Rank(current) <= steps
    ensures var run := RunFrom(cfg, env, g, ns, current, messages, trace, steps);
      && run.result != Failed(RecursionLimit)
      && |trace| <= |run.trace| <= |trace| + Rank(current)
    decreases steps
  {
    match current
    case End =>
    case To(n) =>
      var ns' := StepState(cfg, env, ns, n, messages);
      match StepUpdate(cfg, env, ns, n, messages)
      case Err(e) =>
      case Ok(update) =>
        var messages' := messages + update;
        match Next(g, n, messages')
        case Err(e) =>
        case Ok(t) => OneWayRunEnds(cfg, env, g, ns', t, messages', trace + [n], steps - 1);
  }

  /** One `router_graph.invoke` of the router agent's graph on an input history. */
  function Session(cfg: AgentConfig, env: Env, ns: NetState, input: seq<ChatMessage>): (r: Run)
    ensures |r.trace| > 0 && r.trace[0] == RouterNode
    ensures r.result.Completed? ==> input <= r.result.messages
  {
    RunFrom(cfg, env, RouterGraph(), ns, To(RouterNode), input, [], RECURSION_LIMIT)
  }

  /** Every session ends within the limit, after at most two node runs. */
  lemma SessionEnds(cfg: AgentConfig, env: Env, ns: NetState, input: seq<ChatMessage>)
    ensures Session(cfg, env, ns, input).result != Failed(RecursionLimit)
    ensures |Session(cfg, env, ns, input).trace| <= 2
  {
    RouterGraphOneWay();
    OneWayRunEnds(cfg, env, RouterGraph(), ns, To(RouterNode), input, [], RECURSION_LIMIT);
  }

  /** The label the classifier gives the input. */
  function Label(cfg: AgentConfig, input: seq<ChatMessage>): string {
    cfg.classify(ClassifierInput(cfg.systemPrompt, input))
  }

  /** The three labels the conditional edges know. */
  predicate KnownLabel(key: string) {
    key == "POLICY" || key == "TIMEOFF" || key == "UNSUPPORTED"
  }

  lemma KnownLabels(key: string)
    ensures key in RouteTable() <==> KnownLabel(key)
  {
  }

  /**
    The first step of every session: the router node adds the classifier's
    answer, and that answer, now the last message, is the routing key.
   */
  lemma AfterRouter(cfg: AgentConfig, env: Env, ns: NetState, input: seq<ChatMessage>)
    ensures var key := Label(cfg, input);
      Session(cfg, env, ns, input) ==
        if key in RouteTable() then
          RunFrom(cfg, env, RouterGraph(), ns, To(RouteTable()[key]), input + [AIMessage(key)], [RouterNode], RECURSION_LIMIT - 1)
        else Run(Failed(NoRoute(key)), ns, [RouterNode])
  {
    var key := Label(cfg, input);
    var messages := input + [AIMessage(key)];
    assert StepUpdate(cfg, env, ns, RouterNode, input) == Ok([AIMessage(key)]);
    assert StepState(cfg, env, ns, RouterNode, input) == ns;
    assert FindRoute(messages) == key;
    assert Next(RouterGraph(), RouterNode, messages) ==
      if key in RouteTable() then Ok(To(RouteTable()[key])) else Err(NoRoute(key));
  }

  /** A node other than the router adds its one message and goes to END. */
  lemma AfterDispatch(cfg: AgentConfig, env: Env, ns: NetState, n: Node, messages: seq<ChatMessage>)
    requires n != RouterNode
    ensures RunFrom(cfg, env, RouterGraph(), ns, To(n), messages, [RouterNode], RECURSION_LIMIT - 1) ==
      var ns' := StepState(cfg, env, ns, n, messages);
      match StepUpdate(cfg, env, ns, n, messages)
      case Ok(update) => Run(Completed(messages + update), ns', [RouterNode, n])
      case Err(e) => Run(Failed(e), ns', [RouterNode, n])
  {
  }

  /**
    A session runs the router exactly once and at most one other node: the
    one the label names, when it is one of the three. Any other label ends
    the session with `NoRoute` and no remote call; it is not read as
    `UNSUPPORTED`.
   */
  lemma SessionClassifiesOnce(cfg: AgentConfig, env: Env, ns: NetState, input: seq<ChatMessage>)
    ensures var run := Session(cfg, env, ns, input);
      var key := Label(cfg, input);
      && (KnownLabel(key) ==> run.trace == [RouterNode, RouteTable()[key]])
      && (!KnownLabel(key) ==> run.trace == [RouterNode] && run.result == Failed(NoRoute(key)) && run.net == ns)
  {
    var key := Label(cfg, input);
    AfterRouter(cfg, env, ns, input);
    KnownLabels(key);
    if KnownLabel(key) {
      AfterDispatch(cfg, env, ns, RouteTable()[key], input + [AIMessage(key)]);
    }
  }

  /** `UNSUPPORTED` adds the fixed refusal and contacts nobody. */
  lemma UnsupportedSession(cfg: AgentConfig, env: Env, ns: NetState, input: seq<ChatMessage>)
    requires Label(cfg, input) == "UNSUPPORTED"
    ensures var run := Session(cfg, env, ns, input);
      && run.result == Completed(input + [AIMessage("UNSUPPORTED"), AIMessage(UNSUPPORTED_REPLY)])
      && run.net == ns
  {
    AfterRouter(cfg, env, ns, input);
    AfterDispatch(cfg, env, ns, UnsupportedFunctions, input + [AIMessage("UNSUPPORTED")]);
  }

  /** The specialist address for a dispatch label. */
  function LabelUrl(key: string): string {
    if key == "POLICY" then POLICY_AGENT_URL else TIMEOFF_AGENT_URL
  }

  /** After the router, a dispatch node forwards the first message to its own specialist and ends the run. */
  lemma DispatchRun(cfg: AgentConfig, env: Env, ns: NetState, n: Node, messages: seq<ChatMessage>)
    requires n == PolicyAgent || n == TimeoffAgent
    requires |messages| > 0
    ensures var run := RunFrom(cfg, env, RouterGraph(), ns, To(n), messages, [RouterNode], RECURSION_LIMIT - 1);
      var prompt := messages[0].content;
      && run.net == ExecuteState(env, ns, NodeUrl(n), cfg.user, prompt)
      && run.result == match ExecuteResult(env, ns, NodeUrl(n), cfg.user, prompt)
           case Ok(Text(answer)) => Completed(messages + [AIMessage(answer)])
           case Ok(NoText) => Failed(NoReplyText)
           case Err(e) => Failed(RemoteFailed(e))
  {
    AfterDispatch(cfg, env, ns, n, messages);
  }

  /**
    `POLICY` and `TIMEOFF` make exactly one call of `execute_a2a_agent`, to
    port 9001 and 9002 respectively, forwarding the first message of the
    history, which is the user's own text and not the label (only on an
    empty input is the first message the label itself). The reply becomes
    the last message; a failed call fails the session.
   */
  lemma DispatchSession(cfg: AgentConfig, env: Env, ns: NetState, input: seq<ChatMessage>)
    requires Label(cfg, input) == "POLICY" || Label(cfg, input) == "TIMEOFF"
    ensures var run := Session(cfg, env, ns, input);
      var key := Label(cfg, input);
      var url := LabelUrl(key);
      var prompt := if |input| > 0 then input[0].content else key;
      && run.net == ExecuteState(env, ns, url, cfg.user, prompt)
      && run.result == match ExecuteResult(env, ns, url, cfg.user, prompt)
           case Ok(Text(answer)) => Completed(input + [AIMessage(key), AIMessage(answer)])
           case Ok(NoText) => Failed(NoReplyText)
           case Err(e) => Failed(RemoteFailed(e))
  {
    var key := Label(cfg, input);
    var n := RouteTable()[key];
    var messages := input + [AIMessage(key)];
    AfterRouter(cfg, env, ns, input);
    DispatchRun(cfg, env, ns, n, messages);
    assert NodeUrl(n) == LabelUrl(key);
    assert messages[0].content == if |input| > 0 then input[0].content else key;
  }

  /**
    What the specialist receives on a dispatch: the card at the label's
    address is fetched first, and the one message sent, if any, decodes to
    the router's user and the user's original text.
   */
  lemma DispatchSendsOriginalText(cfg: AgentConfig, env: Env, ns: NetState, input: seq<ChatMessage>)
    requires Label(cfg, input) == "POLICY" || Label(cfg, input) == "TIMEOFF"
    requires |input| > 0
    ensures var log := Session(cfg, env, ns, input).net.log;
      && ns.log < log && |log| <= |ns.log| + 2
      && log[|ns.log|] == CardFetch(LabelUrl(Label(cfg, input)))
      && forall i :: |ns.log| < i < |log| ==>
           && log[i].MessageSend?
           && JsonText.DecodeInput(UserInput(log[i].request.message)) == Some(JsonText.AgentInput(cfg.user, input[0].content))
  {
    var url := LabelUrl(Label(cfg, input));
    var prompt := input[0].content;
    DispatchSession(cfg, env, ns, input);
    ExecuteLog(env, ns, url, cfg.user, prompt);
    NextRequestDecodes(env, ns, cfg.user, prompt);
  }

  /**
    The history only grows: a completed session keeps the input as it was
    and adds exactly two assistant messages, the classifier's label and the
    reply. The system prompt the classifier saw is not stored.
   */
  lemma CompletedSessionAppendsTwo(cfg: AgentConfig, env: Env, ns: NetState, input: seq<ChatMessage>)
    ensures var run := Session(cfg, env, ns, input);
      run.result.Completed? ==>
        var m := run.result.messages;
        && |m| == |input| + 2
        && m[..|input|] == input
        && m[|input|] == AIMessage(Label(cfg, input))
        && m[|input| + 1].role == AIRole
  {
    var key := Label(cfg, input);
    AfterRouter(cfg, env, ns, input);
    KnownLabels(key);
    if KnownLabel(key) {
      var messages := input + [AIMessage(key)];
      AfterDispatch(cfg, env, ns, RouteTable()[key], messages);
      var run := Session(cfg, env, ns, input);
      if run.result.Completed? {
        var update := StepUpdate(cfg, env, ns, RouteTable()[key], messages).value;
        assert run.result.messages == input + [AIMessage(key)] + update;
      }
    }
  }

  // ---------------------------------------------------------------------
  // The agent
  // ---------------------------------------------------------------------

  class RouterHRAgent {
    const systemPrompt: string
    const user: string
    const classify: seq<ChatMessage> -> string
    const graph: Graph

    constructor (classify: seq<ChatMessage> -> string, systemPrompt: string, user: string)
      ensures this.systemPrompt == systemPrompt && this.user == user && this.classify == classify
      ensures graph == RouterGraph()
    {
      this.systemPrompt := systemPrompt;
      this.classify := classify;
      this.user := user;
      var g := EmptyGraph();
      g := AddNode(g, RouterNode);
      g := AddNode(g, PolicyAgent);
      g := AddNode(g, TimeoffAgent);
      g := AddNode(g, UnsupportedFunctions);
      g := AddConditionalEdges(g, RouterNode, RouteTable());
      // One way routing, not coming back to the router
      g := AddEdge(g, PolicyAgent, End);
      g := AddEdge(g, TimeoffAgent, End);
      g := AddEdge(g, UnsupportedFunctions, End);
      g := SetEntryPoint(g, RouterNode);
      graph := g;
    }

    function Config(): AgentConfig {
      AgentConfig(systemPrompt, user, classify)
    }

    /** `policy_agent_node`: forward `messages[0].content` to the policy specialist. */
    method PolicyAgentNode(net: Network, messages: seq<ChatMessage>) returns (r: Result<seq<ChatMessage>, SessionError>)
      modifies net
      ensures r == DispatchUpdate(Config(), net.env, old(net.State()), POLICY_AGENT_URL, messages)
      ensures net.State() == DispatchState(Config(), net.env, old(net.State()), POLICY_AGENT_URL, messages)
    {
      r := Dispatch(net, POLICY_AGENT_URL, messages);
    }

    /** `timeoff_agent_node`: forward `messages[0].content` to the time-off specialist. */
    method TimeoffAgentNode(net: Network, messages: seq<ChatMessage>) returns (r: Result<seq<ChatMessage>, SessionError>)
      modifies net
      ensures r == DispatchUpdate(Config(), net.env, old(net.State()), TIMEOFF_AGENT_URL, messages)
      ensures net.State() == DispatchState(Config(), net.env, old(net.State()), TIMEOFF_AGENT_URL, messages)
    {
      r := Dispatch(net, TIMEOFF_AGENT_URL, messages);
    }

    method Dispatch(net: Network, url: string, messages: seq<ChatMessage>) returns (r: Result<seq<ChatMessage>, SessionError>)
      modifies net
      ensures r == DispatchUpdate(Config(), net.env, old(net.State()), url, messages)
      ensures net.State() == DispatchState(Config(), net.env, old(net.State()), url, messages)
    {
      if |messages| == 0 {
        return Err(EmptyHistory);
      }
      var prompt := messages[0].content;
      var response := ExecuteA2aAgent(net, url, user, prompt);
      match response
      case Ok(Text(answer)) => r := Ok([AIMessage(answer)]);
      case Ok(NoText) => r := Err(NoReplyText);
      case Err(e) => r := Err(RemoteFailed(e));
    }

    /** Runs one node on the current state and returns its update. */
    method RunNode(net: Network, n: Node, messages: seq<ChatMessage>) returns (r: Result<seq<ChatMessage>, SessionError>)
      modifies net
      ensures r == StepUpdate(Config(), net.env, old(net.State()), n, messages)
      ensures net.State() == StepState(Config(), net.env, old(net.State()), n, messages)
    {
      match n
      case RouterNode => r := Ok(CallLlm(Config(), messages));
      case PolicyAgent => r := PolicyAgentNode(net, messages);
      case TimeoffAgent => r := TimeoffAgentNode(net, messages);
      case UnsupportedFunctions => r := Ok(UnsupportedNode(messages));
    }

    /** `router_graph.invoke({"messages": input})`. */
    method Invoke(net: Network, input: seq<ChatMessage>) returns (r: SessionResult)
      requires graph == RouterGraph()
      modifies net
      ensures r == Session(Config(), net.env, old(net.State()), input).result
      ensures net.State() == Session(Config(), net.env, old(net.State()), input).net
    {
      ghost var final := Session(Config(), net.env, net.State(), input);
      var messages := input;
      var current := To(graph.entry.value);
      var steps := RECURSION_LIMIT;
      ghost var trace: seq<Node> := [];
      while current != End
        invariant RunFrom(Config(), net.env, graph, net.State(), current, messages, trace, steps) == final
        decreases steps
      {
        if steps == 0 {
          return Failed(RecursionLimit);
        }
        var n := current.node;
        ghost var ns, before := net.State(), messages;
        var update := RunNode(net, n, messages);
        if update.Err? {
          return Failed(update.error);
        }
        messages := messages + update.value;
        var next := Next(graph, n, messages);
        if next.Err? {
          return Failed(next.error);
        }
        RunFromContinues(Config(), net.env, graph, ns, n, before, trace, steps);
        current := next.value;
        trace := trace + [n];
        steps := steps - 1;
      }
      r := Completed(messages);
    }
  }
}
