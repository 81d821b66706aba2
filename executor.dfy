/**
 * Running a chat command as a shell script: `/name args` from a private chat
 * runs `name.sh` from the bot's directory through `sh -c`, with the sender
 * in TBOT_SENDER and a 15-second limit, and replies with what it printed.
 * The bot-only program and the agent share this logic.
 *
 * The host is a parameter: the script permissions found by stat, the
 * process environment, and an oracle for what running a command yields.
 */
module Executor {
  import opened Wrappers
  import opened GoStrings
  import opened Chat

  /** The run time limit, in seconds. */
  const TimeoutSeconds: nat := 15
  /** The variable that carries the sender's user name to the script. */
  const SenderVar: string := "TBOT_SENDER"

  /** Permission bits of a file (Go's FileMode.Perm()). */
  type Perm = bv9

  /** The execute bits for owner, group and others (octal 0111). */
  const ExecBits: Perm := 0x49

  predicate Executable(p: Perm) {
    p & ExecBits != 0
  }

  /** Whether permission bit `b` (0 is others' execute, 8 is owner's read) is set. */
  predicate HasBit(p: Perm, b: nat)
    requires b < 9
  {
    (p >> b) & 1 == 1
  }

  /** FileMode's rendering of plain permissions: `-` then `rwx` for owner, group, others. */
  function PermString(p: Perm): (r: string)
    ensures |r| == 10 && r[0] == '-'
  {
    "-" + seq(9, k requires 0 <= k < 9 => if HasBit(p, 8 - k) then "rwx"[k % 3] else '-')
  }

  /** The rendered permissions show an `x` somewhere exactly when the execute check passes. */
  lemma PermStringShowsExec(p: Perm)
    ensures Executable(p) <==> PermString(p)[3] == 'x' || PermString(p)[6] == 'x' || PermString(p)[9] == 'x'
  {
    var r := PermString(p);
    assert r[3] == (if HasBit(p, 6) then 'x' else '-');
    assert r[6] == (if HasBit(p, 3) then 'x' else '-');
    assert r[9] == (if HasBit(p, 0) then 'x' else '-');
  }

  /** A Go error value: a message, or a cause wrapped with a context (pkg/errors). */
  datatype GoError = Plain(message: string) | Wrapped(cause: string, context: string)

  /** `err.Error()`: the context, a colon, then the cause. */
  function ErrorText(e: GoError): string {
    match e
    case Plain(m) => m
    case Wrapped(cause, context) => context + ": " + cause
  }

  /**
   * pkg/errors' Wrap: nil stays nil; otherwise the error's text is the
   * context, a colon and the cause, and `%+v` shows the cause, then the
   * context on the next line.
   */
  function Wrap(cause: Option<string>, context: string): (r: Option<GoError>)
    ensures r.None? <==> cause.None?
    ensures r.Some? ==> ErrorText(r.value) == context + ": " + cause.value
    ensures r.Some? ==> Render(r) == cause.value + "\n" + context
  {
    match cause
    case None => None
    case Some(c) => Some(Wrapped(c, context))
  }

  /**
   * `fmt.Sprintf("%+v", err)` without the stack trace: the cause, a newline,
   * then the context; a nil error prints as `<nil>`.
   */
  function Render(e: Option<GoError>): (r: string)
    ensures e.None? <==> r == "<nil>"
  {
    match e
    case None => "<nil>"
    case Some(Plain(m)) =>
      assert |m + "\n"| > |"<nil>"| || (m + "\n")[|m|] != "<nil>"[|m|];
      m + "\n"
    case Some(Wrapped(cause, context)) =>
      assert (cause + "\n" + context)[|cause|] == '\n';
      cause + "\n" + context
  }

  /** The command name and the argument string of a text: strip one `/`, split at the first space. */
  function ParseCommand(text: string): (r: (string, string))
    ensures ' ' !in r.0
  {
    var (command, rest) := Cut(TrimPrefix(text, "/"), ' ');
    (command, rest.GetOr(""))
  }

  /** ParseCommand undoes writing a command line. */
  lemma ParseCommandWritten(command: string, args: string)
    requires ' ' !in command && !HasPrefix(command, "/")
    ensures ParseCommand("/" + command + " " + args) == (command, args)
    ensures ParseCommand(command + " " + args) == (command, args)
    ensures ParseCommand("/" + command) == (command, "")
  {
    TrimPrefixOfConcat("/", command + " " + args);
    assert "/" + command + " " + args == "/" + (command + [' '] + args);
    CutOfConcat(command, ' ', args);
    assert !HasPrefix(command + " " + args, "/") by {
      if command == [] {
        assert (command + " " + args)[0] == ' ';
      } else {
        assert (command + " " + args)[0] == command[0];
      }
    }
    TrimPrefixOfConcat("/", command);
    assert "/" + command == "/" + command;
  }

  /** And a parsed text is what ParseCommand reads back from its parts. */
  lemma ParseCommandParts(text: string)
    ensures var (command, args) := ParseCommand(text);
      TrimPrefix(text, "/") == command || TrimPrefix(text, "/") == command + " " + args
  {
  }

  /**
   * The script a command runs: the file `<command>.sh` directly in the base
   * directory (separated from it by one `/`), or in the working directory
   * when the base directory is empty.
   */
  function ScriptPath(baseDir: string, command: string): (r: string)
    ensures HasPrefix(r, baseDir)
    ensures baseDir != [] ==> HasSuffix(r, "/" + command + ".sh")
    ensures baseDir != [] ==> |r| == |baseDir| + |command| + (if baseDir[|baseDir| - 1] == '/' then 3 else 4)
    ensures baseDir == [] ==> r == command + ".sh"
  {
    var name := command + ".sh";
    if baseDir == [] then JoinPath(baseDir, name)
    else if baseDir[|baseDir| - 1] == '/' then
      assert baseDir + name == baseDir[..|baseDir| - 1] + ("/" + name);
      TrimPrefixOfConcat(baseDir, name);
      JoinPath(baseDir, name)
    else
      assert baseDir + "/" + name == baseDir + ("/" + name);
      TrimPrefixOfConcat(baseDir, "/" + name);
      JoinPath(baseDir, name)
  }

  /** A process to run: its arguments, directory, environment and time limit. */
  datatype Command = Command(args: seq<string>, dir: string, env: seq<string>, timeout: nat)

  /** What running a command yields: it exited successfully, or failed to start, ran out of time or exited non-zero. */
  datatype RunOutcome = Exited(output: string) | RunFailed(cause: string, output: string)

  /** The machine the executor runs on. */
  datatype Host = Host(baseDir: string, environ: seq<string>, perms: map<string, Perm>, run: Command -> RunOutcome)

  /**
   * The contract of ScriptPath pins the path: a path that starts with a
   * non-empty base directory, ends in `/<command>.sh` and has ScriptPath's
   * length is ScriptPath itself, so no directory lies in between.
   */
  lemma ScriptPathDetermined(baseDir: string, command: string, r: string)
    requires baseDir != []
    requires HasPrefix(r, baseDir) && HasSuffix(r, "/" + command + ".sh")
    requires |r| == |baseDir| + |command| + (if baseDir[|baseDir| - 1] == '/' then 3 else 4)
    ensures r == ScriptPath(baseDir, command)
  {
    var p := ScriptPath(baseDir, command);
    var tail := "/" + command + ".sh";
    forall k | 0 <= k < |r|
      ensures r[k] == p[k]
    {
      if k < |baseDir| {
        assert r[..|baseDir|][k] == p[..|baseDir|][k];
      } else {
        assert r[|r| - |tail|..][k - (|r| - |tail|)] == p[|p| - |tail|..][k - (|p| - |tail|)];
      }
    }
  }

  /**
   * The value of `key` in an environment list: none exactly when no entry
   * sets it, otherwise the value of the last entry that does, as in os/exec.
   */
  function EnvValue(env: seq<string>, key: string): (r: Option<string>)
    ensures r.None? <==> forall k :: 0 <= k < |env| ==> !HasPrefix(env[k], key + "=")
    ensures r.Some? ==> exists k :: 0 <= k < |env| && env[k] == key + "=" + r.value && SetsLast(env, key, k)
  {
    if env == [] then None
    else
      var last := env[|env| - 1];
      if HasPrefix(last, key + "=") then
        TrimPrefixOfConcat(key + "=", last[|key| + 1..]);
        assert key + "=" + last[|key| + 1..] == last;
        Some(last[|key| + 1..])
      else EnvValue(env[..|env| - 1], key)
  }

  /** No entry after position `k` sets `key`. */
  predicate SetsLast(env: seq<string>, key: string, k: nat) {
    forall j :: k < j < |env| ==> !HasPrefix(env[j], key + "=")
  }

  /** The child's environment: the process environment plus the sender. */
  function ChildEnv(environ: seq<string>, sender: string): seq<string> {
    environ + [SenderVar + "=" + sender]
  }

  /** Whatever the process environment holds, the script sees the sender. */
  lemma ChildEnvHasSender(environ: seq<string>, sender: string)
    ensures EnvValue(ChildEnv(environ, sender), SenderVar) == Some(sender)
  {
    var env := ChildEnv(environ, sender);
    TrimPrefixOfConcat(SenderVar + "=", sender);
    assert env[|env| - 1][|SenderVar| + 1..] == sender;
  }

  /** The process that runs `args` through the shell. */
  function ScriptCommand(host: Host, script: string, args: string, sender: string): Command {
    Command(["sh", "-c", script + " " + args], host.baseDir, ChildEnv(host.environ, sender), TimeoutSeconds)
  }

  /** `%q` of a string slice: each element quoted, separated by spaces, in brackets. */
  function QuoteArgs(args: seq<string>): string {
    "[" + Join(QuoteEach(args), ' ') + "]"
  }

  function QuoteEach(args: seq<string>): (r: seq<string>)
    ensures |r| == |args|
  {
    if args == [] then [] else [Quote(args[0])] + QuoteEach(args[1..])
  }

  /** The stat error for a missing script. */
  function StatCause(fn: string): string {
    "stat " + fn + ": no such file or directory"
  }

  /**
   * What handling one message amounts to: the command started (if any), the
   * reply sent (if any) and the error returned.
   */
  datatype Outcome = Outcome(started: Option<Command>, reply: Option<string>, err: Option<GoError>)

  /** Group chats and empty texts are ignored. */
  predicate Ignored(msg: Message) {
    IsGroup(msg) || msg.text == ""
  }

  /**
   * The executor as written: for a script without execute bits the guard
   * wraps the stat error, which is nil there, so the reply is `<nil>` and no
   * error is returned.
   */
  function ExecuteAsWritten(host: Host, msg: Message): Outcome {
    if Ignored(msg) then Outcome(None, None, None)
    else
      var (command, args) := ParseCommand(msg.text);
      var fn := ScriptPath(host.baseDir, command);
      if fn !in host.perms then
        var err := Wrap(Some(StatCause(fn)), fn);
        Outcome(None, Some(Render(err)), err)
      else if !Executable(host.perms[fn]) then
        var err := Wrap(None, "permission=" + PermString(host.perms[fn]));
        Outcome(None, Some(Render(err)), err)
      else Run(host, msg, fn, args)
  }

  /** The executor as intended: a script without execute bits is an error naming its permissions. */
  function Execute(host: Host, msg: Message): Outcome {
    if Ignored(msg) then Outcome(None, None, None)
    else
      var (command, args) := ParseCommand(msg.text);
      var fn := ScriptPath(host.baseDir, command);
      if fn !in host.perms then
        var err := Wrap(Some(StatCause(fn)), fn);
        Outcome(None, Some(Render(err)), err)
      else if !Executable(host.perms[fn]) then
        var err := Some(Plain("permission=" + PermString(host.perms[fn])));
        Outcome(None, Some(Render(err)), err)
      else Run(host, msg, fn, args)
  }

  /** Start the script and reply with its output, or with the wrapped error. */
  function Run(host: Host, msg: Message, fn: string, args: string): Outcome {
    var cmd := ScriptCommand(host, fn, args, msg.from);
    match host.run(cmd)
    case Exited(output) => Outcome(Some(cmd), Some(output), None)
    case RunFailed(cause, _) =>
      var err := Wrap(Some(cause), "start " + QuoteArgs(cmd.args));
      Outcome(Some(cmd), Some(Render(err)), err)
  }

  /** The script a message names, and the arguments it gets. */
  function ScriptOf(host: Host, msg: Message): string {
    ScriptPath(host.baseDir, ParseCommand(msg.text).0)
  }

  /**
   * A script runs exactly when the message is from a private chat, is not
   * empty, and names a script that exists with an execute bit set; it then
   * runs as `sh -c "<script> <args>"` in the base directory, with the sender
   * in its environment and the 15-second limit.
   */
  lemma ExecuteStartsOnlyExecutable(host: Host, msg: Message)
    ensures Execute(host, msg).started.Some? <==>
      !Ignored(msg) && ScriptOf(host, msg) in host.perms && Executable(host.perms[ScriptOf(host, msg)])
    ensures Execute(host, msg).started.Some? ==>
      var cmd := Execute(host, msg).started.value;
      && cmd.args == ["sh", "-c", ScriptOf(host, msg) + " " + ParseCommand(msg.text).1]
      && cmd.dir == host.baseDir && cmd.timeout == TimeoutSeconds
      && EnvValue(cmd.env, SenderVar) == Some(msg.from)
  {
    ChildEnvHasSender(host.environ, msg.from);
  }

  /**
   * Every message that is not ignored gets exactly one reply, and an error is
   * returned exactly when that reply is not the script's output.
   */
  lemma ExecuteAlwaysAnswers(host: Host, msg: Message)
    ensures Execute(host, msg).reply.Some? <==> !Ignored(msg)
    ensures Ignored(msg) ==> Execute(host, msg) == Outcome(None, None, None)
    ensures Execute(host, msg).err.Some? ==> Execute(host, msg).reply == Some(Render(Execute(host, msg).err))
    ensures Execute(host, msg).err.None? && !Ignored(msg) ==>
      Execute(host, msg).started.Some? && host.run(Execute(host, msg).started.value).Exited?
      && Execute(host, msg).reply == Some(host.run(Execute(host, msg).started.value).output)
  {
  }

  /**
   * The executor as written answers the same messages and starts the same
   * scripts as the corrected one; an error is returned only with its rendering
   * as the reply, and a reply without an error that is not the script's output
   * is the `<nil>` of a script without execute bits.
   */
  lemma ExecuteAsWrittenAnswers(host: Host, msg: Message)
    ensures ExecuteAsWritten(host, msg).reply.Some? <==> !Ignored(msg)
    ensures Ignored(msg) ==> ExecuteAsWritten(host, msg) == Outcome(None, None, None)
    ensures ExecuteAsWritten(host, msg).started == Execute(host, msg).started
    ensures ExecuteAsWritten(host, msg).err.Some? ==>
      ExecuteAsWritten(host, msg).reply == Some(Render(ExecuteAsWritten(host, msg).err))
    ensures ExecuteAsWritten(host, msg).err.None? && !Ignored(msg) && ExecuteAsWritten(host, msg).started.Some? ==>
      host.run(ExecuteAsWritten(host, msg).started.value).Exited?
      && ExecuteAsWritten(host, msg).reply == Some(host.run(ExecuteAsWritten(host, msg).started.value).output)
    ensures ExecuteAsWritten(host, msg).err.None? && !Ignored(msg) && ExecuteAsWritten(host, msg).started.None? ==>
      ScriptOf(host, msg) in host.perms && !Executable(host.perms[ScriptOf(host, msg)])
      && ExecuteAsWritten(host, msg).reply == Some("<nil>")
  {
  }

  /** Both definitions agree everywhere except on scripts without execute bits. */
  lemma ExecuteDiffersOnlyOnPermission(host: Host, msg: Message)
    ensures ExecuteAsWritten(host, msg) != Execute(host, msg) <==>
      !Ignored(msg) && ScriptOf(host, msg) in host.perms && !Executable(host.perms[ScriptOf(host, msg)])
  {
    if !Ignored(msg) && ScriptOf(host, msg) in host.perms && !Executable(host.perms[ScriptOf(host, msg)]) {
      assert ExecuteAsWritten(host, msg).err.None?;
    }
  }

  /**
   * As written, a script without execute bits is answered with `<nil>` and no
   * error is returned: the refusal is lost.
   */
  lemma PermissionErrorLost(host: Host, msg: Message)
    requires !Ignored(msg) && ScriptOf(host, msg) in host.perms && !Executable(host.perms[ScriptOf(host, msg)])
    ensures ExecuteAsWritten(host, msg) == Outcome(None, Some("<nil>"), None)
    ensures Execute(host, msg) == Outcome(None, Some("permission=" + PermString(host.perms[ScriptOf(host, msg)]) + "\n"),
                                          Some(Plain("permission=" + PermString(host.perms[ScriptOf(host, msg)]))))
  {
  }

  /** Mode 0644 renders as `-rw-r--r--` and has no execute bit. */
  lemma Mode644()
    ensures PermString(0x1A4) == "-rw-r--r--" && !Executable(0x1A4)
  {
    var p: Perm := 0x1A4;
    assert HasBit(p, 8) && HasBit(p, 7) && !HasBit(p, 6);
    assert HasBit(p, 5) && !HasBit(p, 4) && !HasBit(p, 3);
    assert HasBit(p, 2) && !HasBit(p, 1) && !HasBit(p, 0);
  }

  /** `/deploy` names the script `deploy.sh` of `/bot`, with no arguments. */
  lemma ParseDeploy(text: string)
    requires text == "/deploy"
    ensures ParseCommand(text).0 == "deploy"
  {
    var c := "deploy";
    assert "/" + c == text;
    TrimPrefixOfConcat("/", c);
    assert ' ' !in c;
  }

  lemma DeployPath(baseDir: string)
    requires baseDir == "/bot"
    ensures ScriptPath(baseDir, "deploy") == "/bot/deploy.sh"
  {
    assert baseDir[|baseDir| - 1] == 't';
    assert "deploy" + ".sh" == "deploy.sh";
    assert baseDir + "/" + "deploy.sh" == "/bot/deploy.sh";
  }

  lemma DeployScript(host: Host, msg: Message)
    requires host.baseDir == "/bot" && host.perms == map["/bot/deploy.sh" := 0x1A4]
    requires msg.text == "/deploy" && msg.chatType == "private"
    ensures !Ignored(msg) && ScriptOf(host, msg) in host.perms && host.perms[ScriptOf(host, msg)] == 0x1A4
  {
    ParseDeploy(msg.text);
    DeployPath(host.baseDir);
    assert msg.chatType != "group";
  }

  lemma PermissionText(p: Perm)
    requires p == 0x1A4
    ensures "permission=" + PermString(p) == "permission=-rw-r--r--"
  {
    Mode644();
    assert "permission=" + "-rw-r--r--" == "permission=-rw-r--r--";
  }

  /**
   * A private `/deploy` whose script `/bot/deploy.sh` has mode 0644: as
   * written the sender is answered "<nil>" and no error is returned; the
   * corrected executor returns the permission error.
   */
  lemma PermissionErrorLostExample(host: Host, msg: Message)
    requires host.baseDir == "/bot" && host.perms == map["/bot/deploy.sh" := 0x1A4]
    requires msg.text == "/deploy" && msg.chatType == "private"
    ensures ExecuteAsWritten(host, msg).reply == Some("<nil>") && ExecuteAsWritten(host, msg).err.None?
    ensures Execute(host, msg).err == Some(Plain("permission=-rw-r--r--"))
  {
    DeployScript(host, msg);
    PermissionErrorLost(host, msg);
    PermissionText(host.perms[ScriptOf(host, msg)]);
  }
}
