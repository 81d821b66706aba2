/**
 * The hub (server.go): it keeps the agent registry, routes registrations
 * and message requests, flushes queues at start-up, and dispatches
 * `/command agent args...` chat messages to the named agent's `/execute/`
 * endpoint, relaying the answer to the sender.
 */
module ServerHub {
  import opened Wrappers
  import opened GoStrings
  import opened GoNet
  import opened Chat
  import opened Http
  import opened Store
  import opened Delivery
  import Agent

  /** The reply to a command the hub cannot dispatch. */
  const UsageText: string := "/parancs <gép> [args]"

  // ---------------------------------------------------------------------------
  // Registration

  /** The agent name of a registration: the path without its `/register/` prefix. */
  function RegisteredName(path: string): (r: string)
    ensures HasPrefix(path, "/register/") ==> "/register/" + r == path
    ensures !HasPrefix(path, "/register/") ==> r == path
  {
    TrimPrefix(path, "/register/")
  }

  /** The host part of the peer address, "" when it does not split. */
  function PeerHost(remoteAddr: string): string {
    match SplitHostPort(remoteAddr)
    case Success((host, _)) => host
    case Failure(_) => ""
  }

  /** The address recorded for a registering agent: scheme, peer host and the `port` query value. */
  function AgentAddress(r: Request): (a: string)
    ensures HasPrefix(a, "https://") <==> r.tls
  {
    var hostPort := PeerHost(r.remoteAddr) + ":" + QueryGet(r.query, "port");
    if r.tls then
      HttpsPrefix(hostPort);
      "https" + "://" + hostPort
    else
      HttpNotHttps(hostPort);
      "http" + "://" + hostPort
  }

  lemma HttpsPrefix(rest: string)
    ensures HasPrefix("https" + "://" + rest, "https://")
  {
    assert "https" + "://" == "https://";
    TrimPrefixOfConcat("https://", rest);
  }

  lemma HttpNotHttps(rest: string)
    ensures !HasPrefix("http" + "://" + rest, "https://")
  {
    var a := "http" + "://" + rest;
    assert a[4] == ':';
  }

  /** The registry after a run of registrations, each `(name, address)`, in order. */
  function AgentsAfter(agents: map<string, string>, regs: seq<(string, string)>): map<string, string> {
    if regs == [] then agents
    else AgentsAfter(agents, regs[..|regs| - 1])[regs[|regs| - 1].0 := regs[|regs| - 1].1]
  }

  /** The index of the last registration of `name`, or -1. */
  function LastRegistration(regs: seq<(string, string)>, name: string): (r: int)
    ensures -1 <= r < |regs|
    ensures 0 <= r ==> regs[r].0 == name
    ensures forall t :: r < t < |regs| ==> regs[t].0 != name
  {
    if regs == [] then -1
    else if regs[|regs| - 1].0 == name then |regs| - 1
    else LastRegistration(regs[..|regs| - 1], name)
  }

  /** The registry is last-write-wins: a name maps to its latest address; unregistered names keep theirs. */
  lemma {:induction false} LastRegistrationWins(agents: map<string, string>, regs: seq<(string, string)>, name: string)
    ensures 0 <= LastRegistration(regs, name) ==>
      name in AgentsAfter(agents, regs) && AgentsAfter(agents, regs)[name] == regs[LastRegistration(regs, name)].1
    ensures LastRegistration(regs, name) < 0 ==> AgreeOn(AgentsAfter(agents, regs), agents, name)
  {
    if regs != [] {
      LastRegistrationWins(agents, regs[..|regs| - 1], name);
    }
  }

  /** The reply to a registration. */
  function RegisteredText(name: string, address: string): string {
    "registered " + Quote(name) + " to " + Quote(address)
  }

  /**
   * An agent listening on `host:port` that announces itself with its register
   * URL, from peer address `peer`, is recorded under its name, at the peer's
   * host and the port it listens on.
   */
  lemma AgentRegistersItself(ag: Agent.Agent, host: string, port: string, r: Request)
    requires '[' !in host && ']' !in host
    requires ':' !in port && '[' !in port && ']' !in port
    requires r.path == "/register/" + ag.name && r.query == map["port" := [port]]
    ensures Agent.RegisterURL(ag, JoinHostPort(host, port)) == ag.upstream + "/register/" + ag.name + "?port=" + port
    ensures RegisteredName(r.path) == ag.name
    ensures AgentAddress(r) == (if r.tls then "https" else "http") + "://" + (PeerHost(r.remoteAddr) + ":" + port)
  {
    Agent.RegisterURLCarriesPort(ag, host, port);
    TrimPrefixOfConcat("/register/", ag.name);
    PortQuery(r.query, port);
  }

  lemma PortQuery(query: map<string, seq<string>>, port: string)
    requires query == map["port" := [port]]
    ensures QueryGet(query, "port") == port
  {
  }

  // ---------------------------------------------------------------------------
  // Chat commands

  /** A chat text as the hub reads it: the command before the first space, and the rest split at every space. */
  function ParseHubCommand(text: string): (r: (string, seq<string>))
    ensures ' ' !in r.0
    ensures r.1 == [] <==> ' ' !in text
    ensures r.1 != [] ==> text == r.0 + " " + Join(r.1, ' ')
  {
    match Cut(text, ' ')
    case (command, None) => (command, [])
    case (command, Some(rest)) =>
      JoinSplit(rest, ' ');
      (command, Split(rest, ' '))
  }

  /** A command line written out reads back as it was written. */
  lemma ParseHubCommandWritten(command: string, args: seq<string>)
    requires ' ' !in command && |args| >= 1
    requires forall k :: 0 <= k < |args| ==> ' ' !in args[k]
    ensures ParseHubCommand(command + " " + Join(args, ' ')) == (command, args)
  {
    CutOfConcat(command, ' ', Join(args, ' '));
    assert command + " " + Join(args, ' ') == command + [' '] + Join(args, ' ');
    SplitJoin(args, ' ');
  }

  /** The query of a dispatch: the arguments first, then the sender (Encode sorts the keys). */
  function DispatchQuery(args: seq<string>, from: string): string {
    assert Less("args", "from");
    Encode([("args", args), ("from", [from])])
  }

  /** The path and query of a dispatch: the command (with its `/`) under `/execute/`. */
  function DispatchPath(command: string, args: seq<string>, from: string): (r: string)
    ensures HasPrefix(r, "/execute/")
  {
    TrimPrefixOfConcat("/execute/", command + "?" + DispatchQuery(args, from));
    "/execute/" + (command + "?" + DispatchQuery(args, from))
  }

  /** The `/execute/` URL of a dispatch. */
  function DispatchURL(agentAddr: string, command: string, args: seq<string>, from: string): string {
    agentAddr + DispatchPath(command, args, from)
  }

  /** What the hub does with a chat message, before any HTTP call. */
  datatype Decision =
    | Skip
    | Answer(replies: seq<ReplyBody>)
    | Fetch(before: seq<ReplyBody>, url: string)

  function Decide(agents: map<string, string>, msg: Message): Decision {
    if msg.text == "" then Skip
    else
      var (command, args) := ParseHubCommand(msg.text);
      var help := if command == "/help" then [Text(HelpText)] else [];
      if !HasPrefix(command, "/") || |args| < 1 then Answer(help + [Text(UsageText)])
      else
        var agentAddr := if args[0] in agents then agents[args[0]] else "";
        if agentAddr == "" then Answer(help + [UnknownAgent(args[0], agents)])
        else Fetch(help, DispatchURL(agentAddr, command, args[1..], msg.from))
  }

  /**
   * Only a text of the form `/command agent ...` naming a registered agent
   * with a non-empty address is dispatched, to `<address>/execute/command`;
   * an empty text is skipped; everything else is answered at once.
   */
  lemma DecideCases(agents: map<string, string>, msg: Message)
    ensures Decide(agents, msg).Skip? <==> msg.text == ""
    ensures Decide(agents, msg).Fetch? <==>
      var (command, args) := ParseHubCommand(msg.text);
      msg.text != "" && HasPrefix(command, "/") && |args| >= 1 && args[0] in agents && agents[args[0]] != ""
    ensures Decide(agents, msg).Fetch? ==>
      var (command, args) := ParseHubCommand(msg.text);
      Decide(agents, msg).url == DispatchURL(agents[args[0]], command, args[1..], msg.from)
    ensures Decide(agents, msg).Answer? ==> |Decide(agents, msg).replies| >= 1
  {
  }

  /** A bare `/help` gets the help text and then the usage text, since nothing stops after the help reply. */
  lemma BareHelpAlsoGetsUsage(agents: map<string, string>, msg: Message)
    requires msg.text == "/help"
    ensures Decide(agents, msg) == Answer([Text(HelpText), Text(UsageText)])
  {
    assert ' ' !in msg.text;
  }

  /**
   * A command for an agent that is not registered, or registered without an
   * address, is answered with the registry (after the help text when the
   * command is `/help`) and makes no call.
   */
  lemma UnknownAgentNotCalled(agents: map<string, string>, msg: Message, command: string, target: string, rest: seq<string>)
    requires ' ' !in command && HasPrefix(command, "/")
    requires ' ' !in target && forall k :: 0 <= k < |rest| ==> ' ' !in rest[k]
    requires msg.text == command + " " + Join([target] + rest, ' ')
    requires target !in agents || agents[target] == ""
    ensures Decide(agents, msg) == Answer((if command == "/help" then [Text(HelpText)] else []) + [UnknownAgent(target, agents)])
  {
    var args := [target] + rest;
    ConsNoSpace(target, rest);
    ParseHubCommandWritten(command, args);
    assert args[0] == target;
  }

  lemma DispatchQuerySplits(args: seq<string>, from: string)
    ensures Split(DispatchQuery(args, from), '&') == EncodeAll(PairsOf("args", args) + [("from", from)])
  {
    var values := [("args", args), ("from", [from])];
    assert Less("args", "from");
    assert Pairs(values) == PairsOf("args", args) + PairsOf("from", [from]) by {
      assert values[1..] == [("from", [from])];
      assert values[1..][1..] == [];
      assert Pairs(values[1..][1..]) == [];
      assert Pairs(values[1..]) == PairsOf("from", [from]) + [];
    }
    assert PairsOf("from", [from]) == [("from", from)];
    EncodeSplits(values);
  }

  /** Each argument as an `args=` pair. */
  function ArgPairs(args: seq<string>): (r: seq<string>)
    ensures |r| == |args|
    ensures forall k :: 0 <= k < |r| ==> r[k] == "args=" + args[k]
  {
    if args == [] then [] else ["args=" + args[0]] + ArgPairs(args[1..])
  }

  /** The two query keys are unreserved words, so escaping leaves them as they are. */
  lemma EscapeKeys()
    ensures QueryEscape("args") == "args" && QueryEscape("from") == "from"
  {
    EscapeUnreserved("args");
    EscapeUnreserved("from");
  }

  /** A pair whose key escapes to itself and whose value is unreserved is written out as it is. */
  lemma EncodePlain(key: string, v: string)
    requires QueryEscape(key) == key
    requires forall i :: 0 <= i < |v| ==> IsUnreserved(v[i])
    ensures EncodePair((key, v)) == key + "=" + v
  {
    EscapeUnreserved(v);
  }

  lemma KeyEquals(key: string, v: string)
    ensures key + "=" + v == (key + "=") + v
  {
  }

  /** With arguments and sender made of unreserved characters, the query is them written out, unescaped. */
  lemma DispatchQueryPlain(args: seq<string>, from: string)
    requires forall k, i :: 0 <= k < |args| && 0 <= i < |args[k]| ==> IsUnreserved(args[k][i])
    requires forall i :: 0 <= i < |from| ==> IsUnreserved(from[i])
    ensures DispatchQuery(args, from) == Join(ArgPairs(args) + ["from=" + from], '&')
  {
    DispatchQuerySplits(args, from);
    JoinSplit(DispatchQuery(args, from), '&');
    EncodedPlain(args, from);
  }

  lemma EncodedPlain(args: seq<string>, from: string)
    requires forall k, i :: 0 <= k < |args| && 0 <= i < |args[k]| ==> IsUnreserved(args[k][i])
    requires forall i :: 0 <= i < |from| ==> IsUnreserved(from[i])
    ensures EncodeAll(PairsOf("args", args) + [("from", from)]) == ArgPairs(args) + ["from=" + from]
  {
    EscapeKeys();
    var ps := PairsOf("args", args) + [("from", from)];
    var enc := EncodeAll(ps);
    var want := ArgPairs(args) + ["from=" + from];
    forall k | 0 <= k < |ps|
      ensures enc[k] == want[k]
    {
      if k < |args| {
        EncodeArg(args, k);
      } else {
        assert ps[k] == ("from", from);
        EncodePlain("from", from);
        KeyEquals("from", from);
        assert "from" + "=" == "from=";
      }
    }
  }

  lemma EncodeArg(args: seq<string>, k: nat)
    requires k < |args|
    requires forall i :: 0 <= i < |args[k]| ==> IsUnreserved(args[k][i])
    requires QueryEscape("args") == "args"
    ensures EncodePair(("args", args[k])) == "args=" + args[k]
  {
    EncodePlain("args", args[k]);
    KeyEquals("args", args[k]);
    assert "args" + "=" == "args=";
  }

  /**
   * A command line `command target rest...` with `target` registered at a
   * non-empty address is dispatched to that address with `rest` as the
   * arguments, after the help text when the command is `/help`.
   */
  lemma DispatchOf(agents: map<string, string>, msg: Message, command: string, target: string, rest: seq<string>)
    requires ' ' !in command && HasPrefix(command, "/")
    requires ' ' !in target && forall k :: 0 <= k < |rest| ==> ' ' !in rest[k]
    requires msg.text == command + " " + Join([target] + rest, ' ')
    requires target in agents && agents[target] != ""
    ensures Decide(agents, msg)
         == Fetch(if command == "/help" then [Text(HelpText)] else [], DispatchURL(agents[target], command, rest, msg.from))
  {
    var args := [target] + rest;
    ConsNoSpace(target, rest);
    ParseHubCommandWritten(command, args);
    assert args[1..] == rest;
    DecideFetch(agents, msg, command, args);
  }

  lemma ConsNoSpace(target: string, rest: seq<string>)
    requires ' ' !in target && forall k :: 0 <= k < |rest| ==> ' ' !in rest[k]
    ensures forall k :: 0 <= k < |[target] + rest| ==> ' ' !in ([target] + rest)[k]
  {
    var args := [target] + rest;
    forall k | 0 <= k < |args| ensures ' ' !in args[k] {
      if k > 0 { assert args[k] == rest[k - 1]; }
    }
  }

  /** A parsed command line naming a registered agent is fetched from it. */
  lemma DecideFetch(agents: map<string, string>, msg: Message, command: string, args: seq<string>)
    requires msg.text != "" && ParseHubCommand(msg.text) == (command, args)
    requires HasPrefix(command, "/") && |args| >= 1
    requires args[0] in agents && agents[args[0]] != ""
    ensures Decide(agents, msg)
         == Fetch(if command == "/help" then [Text(HelpText)] else [], DispatchURL(agents[args[0]], command, args[1..], msg.from))
  {
  }

  lemma JoinThree(parts: seq<string>, c: char)
    requires |parts| == 3
    ensures Join(parts, c) == parts[0] + [c] + parts[1] + [c] + parts[2]
  {
    assert parts[1..][1..] == [parts[2]];
    assert Join(parts[1..], c) == parts[1] + [c] + parts[2];
  }

  /** Two unreserved arguments and an unreserved sender make the query `args=a1&args=a2&from=f`. */
  lemma TwoArgQuery(a1: string, a2: string, from: string)
    requires forall i :: 0 <= i < |a1| ==> IsUnreserved(a1[i])
    requires forall i :: 0 <= i < |a2| ==> IsUnreserved(a2[i])
    requires forall i :: 0 <= i < |from| ==> IsUnreserved(from[i])
    ensures DispatchQuery([a1, a2], from) == "args=" + a1 + "&args=" + a2 + "&from=" + from
  {
    var args := [a1, a2];
    DispatchQueryPlain(args, from);
    var pairs := ArgPairs(args) + ["from=" + from];
    assert args[1..] == [a2];
    assert pairs == ["args=" + a1, "args=" + a2, "from=" + from];
    JoinThree(pairs, '&');
    Regroup("args=", a1, "args=", a2, "from=", from, '&');
    assert ['&'] + "args=" == "&args=";
    assert ['&'] + "from=" == "&from=";
  }

  lemma Regroup(p: string, a: string, q: string, b: string, r: string, c: string, sep: char)
    ensures (p + a) + [sep] + (q + b) + [sep] + (r + c) == p + a + ([sep] + q) + b + ([sep] + r) + c
  {
  }

  lemma RunText(target: string, a1: string, a2: string)
    ensures "/run " + target + " " + a1 + " " + a2 == "/run" + " " + Join([target, a1, a2], ' ')
  {
    JoinThree([target, a1, a2], ' ');
    assert "/run " == "/run" + " ";
  }

  lemma RunURL(addr: string, a1: string, a2: string, from: string)
    ensures addr + ("/execute/" + ("/run" + "?" + ("args=" + a1 + "&args=" + a2 + "&from=" + from)))
         == addr + "/execute/" + "/run" + "?" + "args=" + a1 + "&args=" + a2 + "&from=" + from
  {
  }

  /**
   * `/run target a1 a2` sent by `from` to a registered agent fetches
   * `<address>/execute//run?args=a1&args=a2&from=from`: the command keeps its
   * leading `/`, so the path holds a doubled slash.
   */
  lemma RunDispatch(agents: map<string, string>, msg: Message, target: string, a1: string, a2: string)
    requires ' ' !in target && ' ' !in a1 && ' ' !in a2
    requires msg.text == "/run " + target + " " + a1 + " " + a2
    requires target in agents && agents[target] != ""
    requires forall i :: 0 <= i < |a1| ==> IsUnreserved(a1[i])
    requires forall i :: 0 <= i < |a2| ==> IsUnreserved(a2[i])
    requires forall i :: 0 <= i < |msg.from| ==> IsUnreserved(msg.from[i])
    ensures Decide(agents, msg)
         == Fetch([], agents[target] + "/execute/" + "/run" + "?" + "args=" + a1 + "&args=" + a2 + "&from=" + msg.from)
  {
    var command, rest := "/run", [a1, a2];
    RunText(target, a1, a2);
    assert [target] + rest == [target, a1, a2];
    assert HasPrefix(command, "/") && ' ' !in command;
    assert command != "/help";
    DispatchOf(agents, msg, command, target, rest);
    TwoArgQuery(a1, a2, msg.from);
    RunURL(agents[target], a1, a2, msg.from);
  }

  /** The replies the hub makes to a decision, given what the GET of the URL yields. */
  function DecisionReplies(d: Decision, fetch: string -> Result<string, string>): seq<ReplyBody> {
    match d
    case Skip => []
    case Answer(replies) => replies
    case Fetch(before, url) =>
      before + match fetch(url)
        case Success(body) => [Text(body)]
        case Failure(e) => [Text(url + ": " + e)]
  }

  /** A dispatched command is relayed: the agent's body verbatim, or the URL and the error. */
  lemma DispatchRelayed(d: Decision, fetch: string -> Result<string, string>)
    requires d.Fetch?
    ensures |DecisionReplies(d, fetch)| == |d.before| + 1
    ensures fetch(d.url).Success? ==> DecisionReplies(d, fetch)[|d.before|] == Text(fetch(d.url).value)
    ensures fetch(d.url).Failure? ==> DecisionReplies(d, fetch)[|d.before|] == Text(d.url + ": " + fetch(d.url).error)
  {
  }

  /** A dispatch URL is the agent's address followed by a path under `/execute/`. */
  lemma DispatchURLPath(agentAddr: string, command: string, args: seq<string>, from: string)
    ensures var url := DispatchURL(agentAddr, command, args, from);
      |agentAddr| <= |url| && url[..|agentAddr|] == agentAddr && HasPrefix(url[|agentAddr|..], "/execute/")
  {
    var url := DispatchURL(agentAddr, command, args, from);
    assert url[|agentAddr|..] == DispatchPath(command, args, from);
  }

  /**
   * Talking to an agent as agent.go has it: the `/execute/` request is
   * answered with an empty body, so the sender gets an empty reply.
   */
  lemma DispatchToAgentRepliesEmpty(d: Decision, agentAddr: string, command: string, args: seq<string>, from: string,
                                    ag: Agent.Agent, upstream: Agent.Upstream, fetch: string -> Result<string, string>)
    requires d.Fetch? && d.url == DispatchURL(agentAddr, command, args, from)
    requires |agentAddr| <= |d.url|
    requires fetch(d.url) == Success(Agent.ServeHTTP(ag, Request("GET", d.url[|agentAddr|..], map[], "", false, ""), upstream).body)
    ensures DecisionReplies(d, fetch) == d.before + [Text("")]
  {
    DispatchURLPath(agentAddr, command, args, from);
    Agent.ExecuteRequestUnanswered(ag, Request("GET", d.url[|agentAddr|..], map[], "", false, ""), upstream);
  }

  // ---------------------------------------------------------------------------
  // Routing

  /** A routed request: an HTTP response, or the dump of users and queues as JSON. */
  datatype Routed = Answered(response: Response) | Dumped(users: seq<User>, queues: map<string, seq<string>>)

  /** Which handler a request goes to. */
  datatype Route = ToRegister | ToMessage(rest: string) | Refuse | Dump

  function RouteOf(verb: string, path: string): (r: Route)
    ensures r.ToMessage? ==> "/message" + r.rest == path
  {
    if verb == "PUT" && HasPrefix(path, "/register") then ToRegister
    else if HasPrefix(path, "/message") then
      assert path == path[..8] + path[8..];
      ToMessage(TrimPrefix(path, "/message"))
    else if verb == "POST" then Refuse
    else Dump
  }

  /**
   * A message proxied through an agent (a POST to `/message/<to>`) reaches
   * the hub's message handler with the same recipient and text.
   */
  lemma ProxiedMessageReachesHub(to: string, text: string)
    requires '/' !in to
    ensures Agent.MessagePath("/" + to) == "/message/" + to
    ensures RouteOf("POST", Agent.MessagePath("/" + to)) == ToMessage("/" + to)
    ensures ParseMessage("POST", "/" + to, text) == (to, text)
  {
    ProxiedPath(to);
    ProxiedRoute(to);
    ParseMessageWritten(to, text);
  }

  lemma ProxiedPath(to: string)
    ensures Agent.MessagePath("/" + to) == "/message" + ("/" + to) == "/message/" + to
  {
    assert ("/" + to)[0] == '/';
  }

  lemma ProxiedRoute(to: string)
    ensures RouteOf("POST", "/message" + ("/" + to)) == ToMessage("/" + to)
  {
    TrimPrefixOfConcat("/message", "/" + to);
  }

  // ---------------------------------------------------------------------------
  // The hub

  class Srv {
    const data: DataPath
    const bot: ChatBot
    const fs: FileSystem
    /** What a GET of a URL yields: the body, or the error text. */
    const fetch: string -> Result<string, string>
    /** Agent name to address. */
    var agents: map<string, string>
    /** The URLs fetched, in order. */
    var fetched: seq<string>

    constructor (data: DataPath, bot: ChatBot, fs: FileSystem, fetch: string -> Result<string, string>)
      ensures this.data == data && this.bot == bot && this.fs == fs && this.fetch == fetch
      ensures agents == map[] && fetched == []
    {
      this.data, this.bot, this.fs, this.fetch := data, bot, fs, fetch;
      agents, fetched := map[], [];
    }

    ghost predicate Valid()
      reads this, data
    {
      data.Valid()
    }

    /** Register: record the agent's address under its name, replacing any earlier one. */
    method Register(r: Request) returns (resp: Response)
      modifies this
      ensures agents == old(agents)[RegisteredName(r.path) := AgentAddress(r)]
      ensures fetched == old(fetched)
      ensures resp == Response(StatusOK, RegisteredText(RegisteredName(r.path), AgentAddress(r)))
    {
      var name := RegisteredName(r.path);
      agents := agents[name := AgentAddress(r)];
      resp := Response(StatusOK, RegisteredText(name, agents[name]));
    }

    /**
     * ServeHTTP: a PUT under `/register` registers; anything under
     * `/message` is a message request for the rest of the path; any other
     * POST is refused; everything else gets the dump.  A save failure of a
     * queued message ends the process (`fatal`).
     */
    method ServeHTTP(r: Request, usersFaults: SaveFaults, queuesFaults: SaveFaults)
        returns (routed: Routed, fatal: Option<StoreError>)
      requires Valid()
      modifies this, data, bot, fs
      ensures Valid()
      ensures fetched == old(fetched) && bot.replies == old(bot.replies)
      ensures RouteOf(r.verb, r.path) == ToRegister ==>
        && agents == old(agents)[RegisteredName(r.path) := AgentAddress(r)]
        && unchanged(data) && unchanged(bot) && unchanged(fs) && fatal.None?
      ensures RouteOf(r.verb, r.path) != ToRegister ==> agents == old(agents)
      ensures RouteOf(r.verb, r.path).ToMessage? ==>
        var (to, text) := ParseMessage(r.verb, RouteOf(r.verb, r.path).rest, r.body);
        && routed.Answered?
        && MessageAccepted(data, bot, fs, to, text, usersFaults, queuesFaults, routed.response.status, fatal)
        && routed.response.body == if text == "" then "Empty message\n" else ""
      ensures RouteOf(r.verb, r.path) == Refuse ==>
        routed == Answered(ErrorResponse(StatusBadRequest, "POST needs username")) && unchanged(data) && fatal.None?
      ensures RouteOf(r.verb, r.path) == Dump ==>
        routed == Dumped(data.users, data.queues) && unchanged(data) && fatal.None?
    {
      fatal := None;
      match RouteOf(r.verb, r.path)
      case ToRegister =>
        var resp := Register(r);
        routed := Answered(resp);
      case ToMessage(rest) =>
        var status;
        status, fatal := AcceptMessage(data, bot, fs, r.verb, rest, r.body, usersFaults, queuesFaults);
        routed := Answered(if status == StatusBadRequest then ErrorResponse(status, "Empty message") else Response(status, ""));
      case Refuse =>
        routed := Answered(ErrorResponse(StatusBadRequest, "POST needs username"));
      case Dump =>
        routed := Dumped(data.users, data.queues);
    }

    /**
     * One update of the chat loop: no message or an empty text is skipped
     * entirely; otherwise the sender's chat is noted (see NoteChat), then the
     * decision is carried out: replies, and at most one GET.
     */
    method HandleUpdate(update: Update, usersFaults: SaveFaults, queuesFaults: SaveFaults)
      requires Valid()
      modifies this, data, bot, fs
      ensures Valid()
      ensures agents == old(agents)
      ensures update.message.None? || update.message.value.text == "" ==>
        unchanged(data) && unchanged(bot) && unchanged(fs) && fetched == old(fetched)
      ensures update.message.Some? && update.message.value.text != "" ==>
        var msg := update.message.value;
        ChatNoted(data, bot, fs, msg.from, msg.chatID, usersFaults, queuesFaults)
      ensures bot.replies == old(bot.replies) + UpdateAnswer(agents, fetch, update)
      ensures fetched == old(fetched) + UpdateFetch(agents, update)
    {
      if update.message.None? || update.message.value.text == "" {
        return;
      }
      var msg := update.message.value;
      NoteChat(data, bot, fs, msg.from, msg.chatID, usersFaults, queuesFaults);
      Answer(msg);
    }

    /** Carry out the decision about a message: replies, and at most one GET. */
    method Answer(msg: Message)
      modifies this, bot
      ensures agents == old(agents) && bot.calls == old(bot.calls) && bot.delivered == old(bot.delivered)
      ensures bot.replies == old(bot.replies) + Replies(msg, DecisionReplies(Decide(agents, msg), fetch))
      ensures fetched == old(fetched) + (if Decide(agents, msg).Fetch? then [Decide(agents, msg).url] else [])
    {
      var d := Decide(agents, msg);
      if d.Fetch? {
        fetched := fetched + [d.url];
      }
      ReplyAll(msg, DecisionReplies(d, fetch));
    }

    /** Reply to `msg` with each body in turn. */
    method ReplyAll(msg: Message, bodies: seq<ReplyBody>)
      modifies bot
      ensures bot.replies == old(bot.replies) + Replies(msg, bodies)
      ensures bot.calls == old(bot.calls) && bot.delivered == old(bot.delivered)
    {
      var t := 0;
      while t < |bodies|
        invariant 0 <= t <= |bodies|
        invariant bot.replies == old(bot.replies) + Replies(msg, bodies[..t])
        invariant bot.calls == old(bot.calls) && bot.delivered == old(bot.delivered)
      {
        bot.ReplyTo(msg, bodies[t]);
        RepliesStep(msg, bodies, t);
        t := t + 1;
      }
      assert bodies[..t] == bodies;
    }

    /**
     * Run: flush every reachable queue and save (an error is only logged),
     * then handle the updates in turn; a save while handling the n-th update meets `faults(n)`.
     */
    method Run(updates: seq<Update>, startFaults: (SaveFaults, SaveFaults), faults: nat -> (SaveFaults, SaveFaults))
      requires Valid()
      modifies this, data, bot, fs
      ensures Valid()
      ensures agents == old(agents)
      ensures bot.replies == old(bot.replies) + LoopReplies(agents, fetch, updates)
      ensures fetched == old(fetched) + LoopFetches(agents, updates)
    {
      ghost var _ := FlushAll(data, bot);
      var _ := data.Save(fs, startFaults.0, startFaults.1);
      ServeUpdates(updates, faults);
    }

    /** The chat loop: handle the updates in turn; a save while handling the n-th update meets `faults(n)`. */
    method ServeUpdates(updates: seq<Update>, faults: nat -> (SaveFaults, SaveFaults))
      requires Valid()
      modifies this, data, bot, fs
      ensures Valid()
      ensures agents == old(agents)
      ensures bot.replies == old(bot.replies) + LoopReplies(agents, fetch, updates)
      ensures fetched == old(fetched) + LoopFetches(agents, updates)
    {
      ghost var registry, replies0, fetched0 := agents, bot.replies, fetched;
      var t := 0;
      while t < |updates|
        invariant 0 <= t <= |updates|
        invariant Valid()
        invariant agents == registry
        invariant Served(registry, fetch, updates, t, replies0, bot.replies, fetched0, fetched)
      {
        var (uf, qf) := faults(t);
        ghost var replies1, fetched1 := bot.replies, fetched;
        HandleUpdate(updates[t], uf, qf);
        ServedStep(registry, fetch, updates, t, replies0, replies1, bot.replies, fetched0, fetched1, fetched);
        t := t + 1;
      }
      ServedAll(registry, fetch, updates, replies0, bot.replies, fetched0, fetched);
    }
  }

  /** The replies of the chat loop to one update: none without a message or for an empty text. */
  function UpdateAnswer(agents: map<string, string>, fetch: string -> Result<string, string>, update: Update): seq<Reply> {
    match update.message
    case None => []
    case Some(msg) => if msg.text == "" then [] else Replies(msg, DecisionReplies(Decide(agents, msg), fetch))
  }

  /** The URL the chat loop fetches for one update, if any. */
  function UpdateFetch(agents: map<string, string>, update: Update): seq<string> {
    match update.message
    case None => []
    case Some(msg) => if msg.text != "" && Decide(agents, msg).Fetch? then [Decide(agents, msg).url] else []
  }

  /** The replies of the chat loop to a run of updates, in order. */
  function LoopReplies(agents: map<string, string>, fetch: string -> Result<string, string>, updates: seq<Update>): seq<Reply> {
    if updates == [] then []
    else LoopReplies(agents, fetch, updates[..|updates| - 1]) + UpdateAnswer(agents, fetch, updates[|updates| - 1])
  }

  /** The URLs the chat loop fetches for a run of updates, in order. */
  function LoopFetches(agents: map<string, string>, updates: seq<Update>): seq<string> {
    if updates == [] then []
    else LoopFetches(agents, updates[..|updates| - 1]) + UpdateFetch(agents, updates[|updates| - 1])
  }

  /** The loop invariant of the chat loop after `t` updates. */
  ghost predicate Served(agents: map<string, string>, fetch: string -> Result<string, string>, updates: seq<Update>, t: nat,
                         replies0: seq<Reply>, replies: seq<Reply>, fetched0: seq<string>, fetched: seq<string>)
  {
    t <= |updates|
    && replies == replies0 + LoopReplies(agents, fetch, updates[..t])
    && fetched == fetched0 + LoopFetches(agents, updates[..t])
  }

  lemma ServedStep(agents: map<string, string>, fetch: string -> Result<string, string>, updates: seq<Update>, t: nat,
                   replies0: seq<Reply>, replies: seq<Reply>, replies': seq<Reply>,
                   fetched0: seq<string>, fetched: seq<string>, fetched': seq<string>)
    requires t < |updates| && Served(agents, fetch, updates, t, replies0, replies, fetched0, fetched)
    requires replies' == replies + UpdateAnswer(agents, fetch, updates[t])
    requires fetched' == fetched + UpdateFetch(agents, updates[t])
    ensures Served(agents, fetch, updates, t + 1, replies0, replies', fetched0, fetched')
  {
    LogAdvance(LoopReplies(agents, fetch, updates[..t]), LoopReplies(agents, fetch, updates[..t + 1]),
                   UpdateAnswer(agents, fetch, updates[t]), replies0, replies, replies')
      by { LoopRepliesStep(agents, fetch, updates, t); }
    LogAdvance(LoopFetches(agents, updates[..t]), LoopFetches(agents, updates[..t + 1]),
                   UpdateFetch(agents, updates[t]), fetched0, fetched, fetched')
      by { LoopFetchesStep(agents, updates, t); }
  }

  /** Appending one step's output to a log keeps it equal to the start followed by the outputs so far. */
  lemma LogAdvance<T>(sofar: seq<T>, next: seq<T>, step: seq<T>, start: seq<T>, log: seq<T>, log': seq<T>)
    requires next == sofar + step && log == start + sofar && log' == log + step
    ensures log' == start + next
  {
  }

  lemma ServedAll(agents: map<string, string>, fetch: string -> Result<string, string>, updates: seq<Update>,
                  replies0: seq<Reply>, replies: seq<Reply>, fetched0: seq<string>, fetched: seq<string>)
    requires Served(agents, fetch, updates, |updates|, replies0, replies, fetched0, fetched)
    ensures replies == replies0 + LoopReplies(agents, fetch, updates)
    ensures fetched == fetched0 + LoopFetches(agents, updates)
  {
    assert updates[..|updates|] == updates;
  }

  lemma LoopRepliesStep(agents: map<string, string>, fetch: string -> Result<string, string>, updates: seq<Update>, t: nat)
    requires t < |updates|
    ensures LoopReplies(agents, fetch, updates[..t + 1]) == LoopReplies(agents, fetch, updates[..t]) + UpdateAnswer(agents, fetch, updates[t])
  {
    assert updates[..t + 1][..t] == updates[..t];
  }

  lemma LoopFetchesStep(agents: map<string, string>, updates: seq<Update>, t: nat)
    requires t < |updates|
    ensures LoopFetches(agents, updates[..t + 1]) == LoopFetches(agents, updates[..t]) + UpdateFetch(agents, updates[t])
  {
    assert updates[..t + 1][..t] == updates[..t];
  }

  /**
   * Every URL the chat loop fetches is the `/execute/` URL of a registered
   * agent, for the command of a message of the run.
   */
  lemma {:induction false} LoopFetchesDispatch(agents: map<string, string>, updates: seq<Update>, k: nat)
    requires k < |LoopFetches(agents, updates)|
    ensures exists t :: 0 <= t < |updates| && updates[t].message.Some? && IsDispatchOf(agents, updates[t].message.value, LoopFetches(agents, updates)[k])
    decreases |updates|
  {
    var init, last := updates[..|updates| - 1], updates[|updates| - 1];
    var fetches := LoopFetches(agents, updates);
    assert fetches == LoopFetches(agents, init) + UpdateFetch(agents, last);
    if k < |LoopFetches(agents, init)| {
      LoopFetchesDispatch(agents, init, k);
      var t :| 0 <= t < |init| && init[t].message.Some? && IsDispatchOf(agents, init[t].message.value, LoopFetches(agents, init)[k]);
      assert updates[t] == init[t] && fetches[k] == LoopFetches(agents, init)[k];
    } else {
      UpdateFetchDispatch(agents, last, k - |LoopFetches(agents, init)|);
      assert fetches[k] == UpdateFetch(agents, last)[k - |LoopFetches(agents, init)|];
    }
  }

  /** The URL fetched for one update is where its message is dispatched. */
  lemma UpdateFetchDispatch(agents: map<string, string>, update: Update, k: nat)
    requires k < |UpdateFetch(agents, update)|
    ensures update.message.Some? && IsDispatchOf(agents, update.message.value, UpdateFetch(agents, update)[k])
  {
    DecideCases(agents, update.message.value);
  }

  /** `url` is where a message is dispatched: its agent is registered and the URL is that agent's `/execute/` URL. */
  predicate IsDispatchOf(agents: map<string, string>, msg: Message, url: string) {
    var (command, args) := ParseHubCommand(msg.text);
    && msg.text != "" && HasPrefix(command, "/") && |args| >= 1 && args[0] in agents && agents[args[0]] != ""
    && url == DispatchURL(agents[args[0]], command, args[1..], msg.from)
  }

  /** Each body as a reply to `msg`. */
  function Replies(msg: Message, bodies: seq<ReplyBody>): (r: seq<Reply>)
    ensures |r| == |bodies|
    ensures forall k :: 0 <= k < |r| ==> r[k] == Reply(msg.chatID, msg.id, bodies[k])
  {
    if bodies == [] then [] else [Reply(msg.chatID, msg.id, bodies[0])] + Replies(msg, bodies[1..])
  }

  lemma RepliesStep(msg: Message, bodies: seq<ReplyBody>, t: nat)
    requires t < |bodies|
    ensures Replies(msg, bodies[..t + 1]) == Replies(msg, bodies[..t]) + [Reply(msg.chatID, msg.id, bodies[t])]
  {
    ReplyConcat(msg, bodies[..t], [bodies[t]]);
    assert bodies[..t + 1] == bodies[..t] + [bodies[t]];
  }

  lemma {:induction false} ReplyConcat(msg: Message, a: seq<ReplyBody>, b: seq<ReplyBody>)
    ensures Replies(msg, a + b) == Replies(msg, a) + Replies(msg, b)
  {
    if a == [] {
      assert a + b == b;
    } else {
      assert (a + b)[1..] == a[1..] + b;
      ReplyConcat(msg, a[1..], b);
    }
  }
}
