/**
 * The bot-only program (main.go): a command-line sender, and a server that
 * flushes the offline queues at start-up, answers chat messages (help, or a
 * script run by the executor) and accepts messages over HTTP.
 */
module MainHub {
  import opened Wrappers
  import opened GoStrings
  import opened Chat
  import opened Store
  import opened Delivery
  import opened Executor
  import opened Http

  /** The first word of a text: everything before the first space. */
  function CommandToken(text: string): (r: string)
    ensures ' ' !in r
    ensures r == text || HasPrefix(text, r + " ")
  {
    var (before, after) := Cut(text, ' ');
    if after.Some? then
      TrimPrefixOfConcat(before + " ", after.value);
      assert before + " " + after.value == text;
      before
    else before
  }

  /** `/help`, alone or followed by anything after a space, asks for help. */
  lemma HelpToken(rest: string)
    ensures CommandToken("/help") == "/help"
    ensures CommandToken("/help " + rest) == "/help"
  {
    CutOfConcat("/help", ' ', rest);
    assert "/help " + rest == "/help" + [' '] + rest;
  }

  /** The replies the update loop makes to one message, with the executor as written. */
  function RepliesTo(host: Host, msg: Message): seq<Reply> {
    if CommandToken(msg.text) == "/help" then [Reply(msg.chatID, msg.id, Text(HelpText))]
    else match ExecuteAsWritten(host, msg).reply
      case Some(t) => [Reply(msg.chatID, msg.id, Text(t))]
      case None => []
  }

  /** The replies to a run of updates, in order; updates without a message get none. */
  function UpdateReplies(host: Host, updates: seq<Update>): seq<Reply> {
    if updates == [] then []
    else UpdateReplies(host, updates[..|updates| - 1]) + UpdateReply(host, updates[|updates| - 1])
  }

  function UpdateReply(host: Host, update: Update): seq<Reply> {
    match update.message
    case Some(msg) => RepliesTo(host, msg)
    case None => []
  }

  /**
   * `/help` is answered with the help text in every chat, groups included;
   * any other text in a group, and any empty text, gets no answer; every
   * other message gets exactly one answer, from the executor as written.
   */
  lemma RepliesToCases(host: Host, msg: Message)
    ensures CommandToken(msg.text) == "/help" ==> RepliesTo(host, msg) == [Reply(msg.chatID, msg.id, Text(HelpText))]
    ensures CommandToken(msg.text) != "/help" && Ignored(msg) ==> RepliesTo(host, msg) == []
    ensures CommandToken(msg.text) != "/help" && !Ignored(msg) ==>
      RepliesTo(host, msg) == [Reply(msg.chatID, msg.id, Text(ExecuteAsWritten(host, msg).reply.value))]
  {
    ExecuteAsWrittenAnswers(host, msg);
  }

  /** Replies to a longer run of updates extend those to its prefix. */
  lemma {:induction false} UpdateRepliesAppend(host: Host, a: seq<Update>, b: seq<Update>)
    ensures UpdateReplies(host, a + b) == UpdateReplies(host, a) + UpdateReplies(host, b)
    decreases |b|
  {
    if b == [] {
      assert a + b == a;
    } else {
      var init := b[..|b| - 1];
      assert (a + b)[..|a + b| - 1] == a + init;
      UpdateRepliesAppend(host, a, init);
    }
  }

  lemma NextReplies(host: Host, updates: seq<Update>, t: nat)
    requires t < |updates|
    ensures UpdateReplies(host, updates[..t + 1]) == UpdateReplies(host, updates[..t]) + UpdateReply(host, updates[t])
  {
    assert updates[..t + 1][..t] == updates[..t];
  }

  /** The first `t` updates have been answered: the replies made since `replies0` are theirs. */
  ghost predicate Answered(host: Host, updates: seq<Update>, t: nat, replies0: seq<Reply>, replies: seq<Reply>) {
    t <= |updates| && replies == replies0 + UpdateReplies(host, updates[..t])
  }

  lemma AnsweredStep(host: Host, updates: seq<Update>, t: nat, replies0: seq<Reply>, replies: seq<Reply>, replies': seq<Reply>)
    requires t < |updates| && Answered(host, updates, t, replies0, replies)
    requires replies' == replies + UpdateReply(host, updates[t])
    ensures Answered(host, updates, t + 1, replies0, replies')
  {
    NextReplies(host, updates, t);
  }

  /** How the command-line sender ends. */
  datatype CliError = LockHeld(lockError: StoreError) | SendFailed | SaveFailed(saveError: StoreError)
  datatype CliResult = Forwarded | SentDirectly | Queued | Failed(error: CliError)

  /** The URL the command-line sender posts to. */
  function CliURL(addr: string, to: string): string {
    "http://" + addr + "/" + to
  }

  /** What the server reads from the request the command-line sender makes. */
  lemma CliReachesServer(to: string, text: string)
    requires '/' !in to
    ensures ParseMessage("POST", "/" + to, text) == (to, text)
  {
    ParseMessageWritten(to, text);
  }

  /**
   * The command-line sender: post `args[1..]` joined by spaces to the running
   * server for user `args[0]`; whatever the server answers counts as done.
   * When the post fails: open the data directory (a held lock ends the
   * process), load it (an error is only logged), send directly when the user
   * has a chat on record, otherwise queue the text and save.  A failed direct
   * send is reported even though the text was then queued.
   */
  method SendFromCommandLine(fs: FileSystem, bot: ChatBot, dataDir: string, args: seq<string>, posted: bool,
                             usersFaults: SaveFaults, queuesFaults: SaveFaults)
      returns (result: CliResult, ghost data: DataPath?)
    requires |args| > 1
    modifies fs, bot
    ensures posted <==> result == Forwarded
    ensures posted ==> fs.files == old(fs.files) && fs.locks == old(fs.locks) && bot.calls == old(bot.calls)
    ensures !posted && JoinPath(dataDir, "tbot.lock") in old(fs.locks) ==>
      result == Failed(LockHeld(Locked(JoinPath(dataDir, "tbot.lock"))))
    ensures result == SentDirectly ==>
      && data != null && data.Valid() && data.ChatOf(args[0]) != 0
      && bot.delivered == old(bot.delivered) + [Delivery(data.ChatOf(args[0]), Join(args[1..], ' '))]
      && data.queues == LoadedQueues(old(fs.files), JoinPath(dataDir, "queues.json"))
    ensures result == Queued || result == Failed(SendFailed) || (result.Failed? && result.error.SaveFailed?) ==>
      && data != null && data.Valid()
      && var q0 := LoadedQueues(old(fs.files), JoinPath(dataDir, "queues.json"));
         data.queues == q0[args[0] := Pending(q0, args[0]) + [Join(args[1..], ' ')]]
    ensures result == Queued ==> data.Persisted(fs) && bot.calls == old(bot.calls)
    ensures result == Failed(SendFailed) ==> data.ChatOf(args[0]) != 0 && bot.calls == old(bot.calls) + 1
    ensures result.Failed? && result.error.SaveFailed? ==> data != null && data.Valid() && data.ChatOf(args[0]) == 0
    ensures bot.replies == old(bot.replies)
  {
    data := null;
    var to, text := args[0], Join(args[1..], ' ');
    if posted {
      return Forwarded, data;
    }
    var d, lockErr := NewDataPath(fs, dataDir);
    if d == null {
      return Failed(LockHeld(lockErr.value)), data;
    }
    data := d;
    var _ := d.Load(fs);
    assert d.queues == LoadedQueues(old(fs.files), JoinPath(dataDir, "queues.json"));
    result := SendOrQueue(d, fs, bot, to, text, usersFaults, queuesFaults);
  }

  /**
   * The fallback of the command-line sender once the store is open: send
   * directly when `to` has a chat on record, otherwise (or when that send
   * fails) queue the text and save.
   */
  method SendOrQueue(d: DataPath, fs: FileSystem, bot: ChatBot, to: string, text: string,
                     usersFaults: SaveFaults, queuesFaults: SaveFaults) returns (result: CliResult)
    requires d.Valid()
    modifies d, fs, bot
    ensures d.Valid()
    ensures d.users == old(d.users) && d.cells == old(d.cells) && d.usersMap == old(d.usersMap)
    ensures result == SentDirectly <==> old(d.ChatOf(to)) != 0 && bot.succeeds(old(bot.calls))
    ensures result == Failed(SendFailed) <==> old(d.ChatOf(to)) != 0 && !bot.succeeds(old(bot.calls))
    ensures old(d.ChatOf(to)) == 0 ==>
      result == if d.SaveErrorOf(usersFaults, queuesFaults).None? then Queued
                else Failed(SaveFailed(d.SaveErrorOf(usersFaults, queuesFaults).value))
    ensures result == SentDirectly ==>
      && d.queues == old(d.queues) && fs.files == old(fs.files)
      && d.ChatOf(to) != 0 && bot.delivered == old(bot.delivered) + [Delivery(d.ChatOf(to), text)]
    ensures result != SentDirectly ==>
      && d.queues == old(d.queues)[to := old(d.Queue(to)) + [text]]
      && (d.SaveErrorOf(usersFaults, queuesFaults).None? ==> d.Persisted(fs))
    ensures result == Queued ==> d.Persisted(fs) && bot.calls == old(bot.calls)
    ensures result == Failed(SendFailed) ==> d.ChatOf(to) != 0 && bot.calls == old(bot.calls) + 1
    ensures result.Failed? && result.error.SaveFailed? ==> d.ChatOf(to) == 0
    ensures bot.replies == old(bot.replies)
  {
    var attempted := d.ChatOf(to) != 0;
    var live := DeliverOrQueue(d, bot, to, text);
    if live {
      return SentDirectly;
    }
    assert d.Queue(to) == old(d.Queue(to)) + [text];
    var saveErr := d.Save(fs, usersFaults, queuesFaults);
    if attempted {
      result := Failed(SendFailed);
    } else if saveErr.Some? {
      result := Failed(SaveFailed(saveErr.value));
    } else {
      result := Queued;
    }
  }

  /** The bot-only server: the store, the bot, the file system and the host it runs scripts on. */
  class Srv {
    const data: DataPath
    const bot: ChatBot
    const fs: FileSystem
    const host: Host

    constructor (data: DataPath, bot: ChatBot, fs: FileSystem, host: Host)
      ensures this.data == data && this.bot == bot && this.fs == fs && this.host == host
    {
      this.data, this.bot, this.fs, this.host := data, bot, fs, host;
    }

    ghost predicate Valid()
      reads this, data
    {
      data.Valid()
    }

    /**
     * Start-up: load the store (an error is only logged), flush every
     * reachable queue, and save (an error is only logged).
     */
    method Startup(usersFaults: SaveFaults, queuesFaults: SaveFaults)
      requires Valid()
      requires forall n | n in data.usersMap :: data.usersMap[n].Cell?
      modifies data, bot, fs
      ensures Valid()
      ensures data.SaveErrorOf(usersFaults, queuesFaults).None? ==> data.Persisted(fs)
      ensures bot.replies == old(bot.replies)
    {
      var _ := data.Load(fs);
      ghost var _ := FlushAll(data, bot);
      var _ := data.Save(fs, usersFaults, queuesFaults);
    }

    /**
     * One update of the chat loop: no message, nothing happens; otherwise the
     * sender's chat is noted (see NoteChat), then the message is answered.
     */
    method HandleUpdate(update: Update, usersFaults: SaveFaults, queuesFaults: SaveFaults)
      requires Valid()
      modifies data, bot, fs
      ensures Valid()
      ensures update.message.None? ==> unchanged(data) && unchanged(bot) && unchanged(fs)
      ensures update.message.Some? ==>
        var msg := update.message.value;
        ChatNoted(data, bot, fs, msg.from, msg.chatID, usersFaults, queuesFaults)
      ensures bot.replies == old(bot.replies) + UpdateReply(host, update)
    {
      if update.message.None? {
        return;
      }
      var msg := update.message.value;
      NoteChat(data, bot, fs, msg.from, msg.chatID, usersFaults, queuesFaults);
      Respond(msg);
    }

    /** Answer a message: the help text for `/help`, otherwise the executor's reply, if any. */
    method Respond(msg: Message)
      modifies bot
      ensures bot.replies == old(bot.replies) + RepliesTo(host, msg)
      ensures bot.calls == old(bot.calls) && bot.delivered == old(bot.delivered)
    {
      if CommandToken(msg.text) == "/help" {
        bot.ReplyTo(msg, Text(HelpText));
      } else {
        var outcome := ExecuteAsWritten(host, msg);
        if outcome.reply.Some? {
          bot.ReplyTo(msg, Text(outcome.reply.value));
        }
      }
    }

    /** The chat loop over a run of updates; a save while handling the n-th update meets `faults(n)`. */
    method Serve(updates: seq<Update>, faults: nat -> (SaveFaults, SaveFaults))
      requires Valid()
      modifies data, bot, fs
      ensures Valid()
      ensures bot.replies == old(bot.replies) + UpdateReplies(host, updates)
    {
      ghost var replies0 := bot.replies;
      var t := 0;
      assert updates[..0] == [];
      while t < |updates|
        invariant Valid()
        invariant Answered(host, updates, t, replies0, bot.replies)
      {
        ghost var replies1 := bot.replies;
        var (uf, qf) := faults(t);
        HandleUpdate(updates[t], uf, qf);
        AnsweredStep(host, updates, t, replies0, replies1, bot.replies);
        t := t + 1;
      }
      assert updates[..t] == updates;
    }

    /** The HTTP handler: every request is a message request. */
    method ServeHTTP(verb: string, path: string, body: string, usersFaults: SaveFaults, queuesFaults: SaveFaults)
        returns (status: int, fatal: Option<StoreError>)
      requires Valid()
      modifies data, bot, fs
      ensures Valid()
      ensures var (to, text) := ParseMessage(verb, path, body);
        MessageAccepted(data, bot, fs, to, text, usersFaults, queuesFaults, status, fatal)
      ensures bot.replies == old(bot.replies)
    {
      status, fatal := AcceptMessage(data, bot, fs, verb, path, body, usersFaults, queuesFaults);
    }
  }
}
