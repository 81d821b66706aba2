/**
 * The agent (agent.go): it announces its listening port to the hub, proxies
 * message requests to the hub, and runs scripts with the shared executor.
 * Its value holds no mutable state.
 */
module Agent {
  import opened Wrappers
  import opened GoStrings
  import opened GoNet
  import opened Chat
  import opened Http
  import opened Executor

  datatype Agent = Agent(name: string, upstream: string, port: string, baseDir: string)

  /** The port of a listen address, "" when it does not split. */
  function ListenPort(addr: string): string {
    match SplitHostPort(addr)
    case Success((_, port)) => port
    case Failure(_) => ""
  }

  /** The agent with its port taken from the listen address, as Run sets it. */
  function Listening(ag: Agent, addr: string): Agent {
    ag.(port := ListenPort(addr))
  }

  /** The URL the agent registers itself at. */
  function RegisterURL(ag: Agent, addr: string): string {
    var a := Listening(ag, addr);
    a.upstream + "/register/" + a.name + "?port=" + a.port
  }

  /** Listening on `host:port` registers that port, for any host (":8080" included). */
  lemma RegisterURLCarriesPort(ag: Agent, host: string, port: string)
    requires '[' !in host && ']' !in host
    requires ':' !in port && '[' !in port && ']' !in port
    ensures ListenPort(JoinHostPort(host, port)) == port
    ensures RegisterURL(ag, JoinHostPort(host, port)) == ag.upstream + "/register/" + ag.name + "?port=" + port
  {
    SplitJoinHostPort(host, port);
  }

  /** An address that does not split registers an empty port. */
  lemma RegisterURLWithoutPort(ag: Agent, addr: string)
    requires ':' !in addr
    ensures RegisterURL(ag, addr) == ag.upstream + "/register/" + ag.name + "?port="
  {
  }

  /**
   * The hub path a proxied message goes to: `/message` joined with the rest
   * of the path (path.Join's cleaning of `.` and `..` and doubled slashes is
   * not modelled).
   */
  function MessagePath(rest: string): (r: string)
    ensures HasPrefix(r, "/message")
    ensures HasPrefix(rest, "/") ==> r == "/message" + rest
  {
    assert HasPrefix("/message" + rest, "/message") by { TrimPrefixOfConcat("/message", rest); }
    if rest == [] then "/message"
    else if rest[0] == '/' then "/message" + rest
    else
      TrimPrefixOfConcat("/message", "/" + rest);
      "/message" + "/" + rest
  }

  /** What forwarding a POST to the hub yields: its response, or the error of building or sending it. */
  type Upstream = (string, string) -> Result<Response, string>

  /**
   * Message: POST the request body to the hub's message endpoint and mirror
   * the hub's status and body; any error answers 400 with its text.  The
   * forwarded request is a POST whatever the incoming method was.
   */
  function Proxy(ag: Agent, rest: string, body: string, upstream: Upstream): Response {
    match upstream(ag.upstream + MessagePath(rest), body)
    case Success(resp) => resp
    case Failure(e) => ErrorResponse(StatusBadRequest, e)
  }

  /** ServeHTTP: only paths under `/message` are served; any other request gets an empty 200. */
  function ServeHTTP(ag: Agent, r: Request, upstream: Upstream): Response {
    if HasPrefix(r.path, "/message") then Proxy(ag, TrimPrefix(r.path, "/message"), r.body, upstream)
    else Response(StatusOK, "")
  }

  /**
   * Requests under `/message` are forwarded to the hub's `/message` endpoint
   * with the same rest of the path and the same body, and answered with the
   * hub's response or a 400 carrying the error; nothing else reaches the hub.
   */
  lemma ServeHTTPRoutes(ag: Agent, r: Request, upstream: Upstream)
    ensures !HasPrefix(r.path, "/message") ==> ServeHTTP(ag, r, upstream) == Response(StatusOK, "")
    ensures HasPrefix(r.path, "/message") ==>
      var target := ag.upstream + MessagePath(TrimPrefix(r.path, "/message"));
      && (upstream(target, r.body).Success? ==> ServeHTTP(ag, r, upstream) == upstream(target, r.body).value)
      && (upstream(target, r.body).Failure? ==> ServeHTTP(ag, r, upstream).status == StatusBadRequest)
      && HasPrefix(r.path, "/message") && r.path == "/message" + TrimPrefix(r.path, "/message")
  {
    if HasPrefix(r.path, "/message") {
      assert r.path[..|"/message"|] == "/message";
      assert r.path == r.path[..|"/message"|] + r.path[|"/message"|..];
    }
  }

  /** The agent has no `/execute` handler: the hub's dispatch request is answered with an empty 200. */
  lemma ExecuteRequestUnanswered(ag: Agent, r: Request, upstream: Upstream)
    requires HasPrefix(r.path, "/execute/")
    ensures ServeHTTP(ag, r, upstream) == Response(StatusOK, "")
  {
    assert r.path[..9] == "/execute/";
    assert r.path[..8] != "/message" by { assert r.path[1] == 'e'; }
  }

  /** The host the agent's executor runs on: its own base directory. */
  function AgentHost(ag: Agent, environ: seq<string>, perms: map<string, Perm>, run: Command -> RunOutcome): Host {
    Host(ag.baseDir, environ, perms, run)
  }

  /**
   * The agent's execute, as written: a private, non-empty `/name args` runs
   * `<baseDir>/name.sh` with the remainder as its arguments, and only when
   * stat finds it with an execute bit; the child sees the sender.  A script
   * without execute bits is answered `<nil>` with no error.
   */
  lemma AgentExecute(ag: Agent, environ: seq<string>, perms: map<string, Perm>, run: Command -> RunOutcome, msg: Message)
    ensures var host := AgentHost(ag, environ, perms, run);
      var fn := JoinPath(ag.baseDir, ParseCommand(msg.text).0 + ".sh");
      var out := ExecuteAsWritten(host, msg);
      && (out.started.Some? <==> !Ignored(msg) && fn in perms && Executable(perms[fn]))
      && (out.started.Some? ==>
            && out.started.value.args == ["sh", "-c", fn + " " + ParseCommand(msg.text).1]
            && out.started.value.dir == ag.baseDir
            && out.started.value.env == environ + [SenderVar + "=" + msg.from])
      && (!Ignored(msg) && fn in perms && !Executable(perms[fn]) ==> out == Outcome(None, Some("<nil>"), None))
      && (Ignored(msg) ==> out == Outcome(None, None, None))
  {
    var host := AgentHost(ag, environ, perms, run);
    ExecuteStartsOnlyExecutable(host, msg);
    ExecuteAsWrittenAnswers(host, msg);
    var fn := JoinPath(ag.baseDir, ParseCommand(msg.text).0 + ".sh");
    if !Ignored(msg) && fn in perms && !Executable(perms[fn]) {
      PermissionErrorLost(host, msg);
    }
  }
}
