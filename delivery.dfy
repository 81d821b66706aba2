/**
 * Delivery of queued texts, shared by the bot-only program and the hub:
 * flushing a user's offline queue, flushing every queue at start-up, the
 * deliver-or-queue step of an incoming text, and what happens when a user
 * writes to the bot from a (new) chat.
 */
module Delivery {
  import opened Wrappers
  import opened GoStrings
  import opened Chat
  import opened Store
  import opened Http

  /** The texts whose send fails when the first of them is send number `n`. */
  function Failed(texts: seq<string>, ok: nat -> bool, n: nat): seq<string>
  {
    if texts == [] then []
    else (if ok(n) then [] else [texts[0]]) + Failed(texts[1..], ok, n + 1)
  }

  /** The texts whose send succeeds when the first of them is send number `n`. */
  function Sent(texts: seq<string>, ok: nat -> bool, n: nat): seq<string>
  {
    if texts == [] then []
    else (if ok(n) then [texts[0]] else []) + Sent(texts[1..], ok, n + 1)
  }

  /** Each text as it reaches `chat`. */
  function Deliveries(chat: int64, texts: seq<string>): (r: seq<Delivery>)
    ensures |r| == |texts|
    ensures forall k :: 0 <= k < |r| ==> r[k] == Delivery(chat, texts[k])
  {
    if texts == [] then [] else [Delivery(chat, texts[0])] + Deliveries(chat, texts[1..])
  }

  lemma {:induction false} DeliveriesAppend(chat: int64, a: seq<string>, b: seq<string>)
    ensures Deliveries(chat, a + b) == Deliveries(chat, a) + Deliveries(chat, b)
  {
    if a == [] {
      assert a + b == b;
    } else {
      assert (a + b)[1..] == a[1..] + b;
      DeliveriesAppend(chat, a[1..], b);
    }
  }

  /** Sending `a + b` from send number `n`: `b` starts at send number `n + |a|`. */
  lemma FailedAppend(a: seq<string>, b: seq<string>, ok: nat -> bool, n: nat)
    ensures Failed(a + b, ok, n) == Failed(a, ok, n) + Failed(b, ok, n + |a|)
    ensures Sent(a + b, ok, n) == Sent(a, ok, n) + Sent(b, ok, n + |a|)
  {
    FailedOnlyAppend(a, b, ok, n);
    SentOnlyAppend(a, b, ok, n);
  }

  lemma {:induction false} FailedOnlyAppend(a: seq<string>, b: seq<string>, ok: nat -> bool, n: nat)
    ensures Failed(a + b, ok, n) == Failed(a, ok, n) + Failed(b, ok, n + |a|)
  {
    if a == [] {
      assert a + b == b;
    } else {
      assert (a + b)[1..] == a[1..] + b;
      FailedOnlyAppend(a[1..], b, ok, n + 1);
    }
  }

  lemma {:induction false} SentOnlyAppend(a: seq<string>, b: seq<string>, ok: nat -> bool, n: nat)
    ensures Sent(a + b, ok, n) == Sent(a, ok, n) + Sent(b, ok, n + |a|)
  {
    if a == [] {
      assert a + b == b;
    } else {
      assert (a + b)[1..] == a[1..] + b;
      SentOnlyAppend(a[1..], b, ok, n + 1);
    }
  }

  /** Sending one more text: it is kept exactly when its send fails. */
  lemma FlushStep(texts: seq<string>, t: nat, ok: nat -> bool, n: nat)
    requires t < |texts|
    ensures Failed(texts[..t + 1], ok, n) == Failed(texts[..t], ok, n) + (if ok(n + t) then [] else [texts[t]])
    ensures Sent(texts[..t + 1], ok, n) == Sent(texts[..t], ok, n) + (if ok(n + t) then [texts[t]] else [])
  {
    assert texts[..t + 1] == texts[..t] + [texts[t]];
    FailedAppend(texts[..t], [texts[t]], ok, n);
    assert [texts[t]][1..] == [];
  }

  /** Every text is either sent or kept, never both and never lost. */
  lemma {:induction false} Partition(texts: seq<string>, ok: nat -> bool, n: nat)
    ensures |Failed(texts, ok, n)| + |Sent(texts, ok, n)| == |texts|
    ensures multiset(Failed(texts, ok, n)) + multiset(Sent(texts, ok, n)) == multiset(texts)
  {
    if texts != [] {
      Partition(texts[1..], ok, n + 1);
      assert texts == [texts[0]] + texts[1..];
    }
  }

  /** The k-th text is kept exactly when its send, number `n + k`, fails. */
  lemma {:induction false} FailedAt(texts: seq<string>, ok: nat -> bool, n: nat, k: nat)
    requires k < |texts|
    ensures Failed(texts, ok, n) == Failed(texts[..k], ok, n) + (if ok(n + k) then [] else [texts[k]]) + Failed(texts[k + 1..], ok, n + k + 1)
  {
    var rest := [texts[k]] + texts[k + 1..];
    assert texts == texts[..k] + rest;
    FailedOnlyAppend(texts[..k], rest, ok, n);
    assert rest[1..] == texts[k + 1..];
    assert Failed(rest, ok, n + k) == (if ok(n + k) then [] else [texts[k]]) + Failed(texts[k + 1..], ok, n + k + 1);
  }

  /** When every send succeeds the queue empties; when none does it is kept as it was. */
  lemma {:induction false} FailedExtremes(texts: seq<string>, ok: nat -> bool, n: nat)
    ensures (forall m :: n <= m < n + |texts| ==> ok(m)) ==> Failed(texts, ok, n) == [] && Sent(texts, ok, n) == texts
    ensures (forall m :: n <= m < n + |texts| ==> !ok(m)) ==> Failed(texts, ok, n) == texts && Sent(texts, ok, n) == []
  {
    if texts != [] {
      FailedExtremes(texts[1..], ok, n + 1);
      assert texts == [texts[0]] + texts[1..];
    }
  }

  /**
   * Send every text of a queue to `chat`, in order, keeping the ones that
   * fail in their original order.
   */
  method Flush(bot: ChatBot, chat: int64, texts: seq<string>) returns (remains: seq<string>)
    modifies bot
    ensures remains == Failed(texts, bot.succeeds, old(bot.calls))
    ensures bot.calls == old(bot.calls) + |texts|
    ensures bot.delivered == old(bot.delivered) + Deliveries(chat, Sent(texts, bot.succeeds, old(bot.calls)))
    ensures bot.replies == old(bot.replies)
  {
    remains := [];
    var t := 0;
    while t < |texts|
      invariant 0 <= t <= |texts|
      invariant bot.calls == old(bot.calls) + t
      invariant remains == Failed(texts[..t], bot.succeeds, old(bot.calls))
      invariant bot.delivered == old(bot.delivered) + Deliveries(chat, Sent(texts[..t], bot.succeeds, old(bot.calls)))
      invariant bot.replies == old(bot.replies)
    {
      var text := texts[t];
      var ok := bot.Send(chat, text);
      FlushStep(texts, t, bot.succeeds, old(bot.calls));
      DeliveriesAppend(chat, Sent(texts[..t], bot.succeeds, old(bot.calls)), if ok then [text] else []);
      if !ok {
        remains := remains + [text];
      }
      t := t + 1;
    }
    assert texts[..t] == texts;
  }

  /** The users a queue may be flushed to at start-up: known, and with a chat on record. */
  predicate Reachable(data: DataPath, to: string)
    reads data`users, data`cells, data`usersMap
    requires data.Valid()
  {
    data.ChatOf(to) != 0
  }

  /**
   * The start-up flush: every queue whose user is reachable is replaced by
   * the texts that still fail to send.  Queues are visited in no particular
   * order (Go's map iteration), so each one's sends start at some send number
   * `starts[to]` the caller cannot predict.
   */
  method FlushAll(data: DataPath, bot: ChatBot) returns (ghost starts: map<string, nat>)
    requires data.Valid()
    modifies data`queues, bot
    ensures data.Valid()
    ensures data.users == old(data.users) && data.cells == old(data.cells) && data.usersMap == old(data.usersMap)
    ensures data.queues.Keys == old(data.queues).Keys
    ensures forall to | to in data.queues && !Reachable(data, to) :: data.queues[to] == old(data.queues)[to]
    ensures forall to | to in data.queues && Reachable(data, to) ::
      to in starts && data.queues[to] == Failed(old(data.queues)[to], bot.succeeds, starts[to])
    ensures bot.calls >= old(bot.calls) && bot.replies == old(bot.replies)
  {
    starts := map[];
    var pending := data.queues.Keys;
    while pending != {}
      invariant pending <= data.queues.Keys
      invariant data.queues.Keys == old(data.queues).Keys
      invariant forall to | to in pending :: data.queues[to] == old(data.queues)[to]
      invariant forall to | to in data.queues && to !in pending && !Reachable(data, to) :: data.queues[to] == old(data.queues)[to]
      invariant forall to | to in data.queues && to !in pending && Reachable(data, to) ::
        to in starts && data.queues[to] == Failed(old(data.queues)[to], bot.succeeds, starts[to])
      invariant bot.calls >= old(bot.calls) && bot.replies == old(bot.replies)
      decreases pending
    {
      var to :| to in pending;
      pending := pending - {to};
      if Reachable(data, to) {
        starts := starts[to := bot.calls];
      }
      FlushQueue(data, bot, to);
    }
  }

  /** One round of the start-up flush: the queue of `to`, when `to` is reachable. */
  method FlushQueue(data: DataPath, bot: ChatBot, to: string)
    requires data.Valid() && to in data.queues
    modifies data`queues, bot
    ensures data.queues.Keys == old(data.queues).Keys
    ensures Reachable(data, to) ==> data.queues == old(data.queues)[to := Failed(old(data.queues)[to], bot.succeeds, old(bot.calls))]
    ensures !Reachable(data, to) ==> data.queues == old(data.queues)
    ensures bot.calls >= old(bot.calls) && bot.replies == old(bot.replies)
  {
    var cid := data.ChatOf(to);
    if cid != 0 {
      var remains := Flush(bot, cid, data.queues[to]);
      data.queues := data.queues[to := remains];
    }
  }

  /**
   * One incoming text for `to`: sent at once when `to` has a chat on record
   * and the send succeeds, otherwise appended to its queue (which is created
   * if absent).
   */
  method DeliverOrQueue(data: DataPath, bot: ChatBot, to: string, text: string) returns (live: bool)
    requires data.Valid()
    modifies data, bot
    ensures data.Valid()
    ensures data.users == old(data.users) && data.cells == old(data.cells) && data.usersMap == old(data.usersMap)
    ensures live <==> old(data.ChatOf(to)) != 0 && bot.succeeds(old(bot.calls))
    ensures live ==> (data.queues == old(data.queues)
      && bot.delivered == old(bot.delivered) + [Delivery(old(data.ChatOf(to)), text)])
    ensures !live ==> (data.queues == old(data.queues)[to := old(data.Queue(to)) + [text]]
      && bot.delivered == old(bot.delivered))
    ensures bot.calls == old(bot.calls) + (if old(data.ChatOf(to)) != 0 then 1 else 0)
    ensures bot.replies == old(bot.replies)
  {
    live := false;
    var cid := data.ChatOf(to);
    if cid != 0 {
      live := bot.Send(cid, text);
      if live {
        return;
      }
    }
    data.queues := data.queues[to := data.Queue(to) + [text]];
  }

  /**
   * The effect of a message from `uname` in chat `chat`: an unknown sender
   * became a user (with its configured aliases); the chat is on record; when
   * it differed from the one on record, the sender's queue was flushed to it
   * (keeping only the texts that failed) and the store was saved; otherwise
   * neither the queues, the bot nor the files changed.
   */
  twostate predicate ChatNoted(data: DataPath, bot: ChatBot, fs: FileSystem, uname: string, chat: int64,
                               usersFaults: SaveFaults, queuesFaults: SaveFaults)
    requires old(data.Valid())
    reads data, bot`calls, bot`delivered, fs
  {
    && data.Valid() && uname in data.usersMap
    && data.ChatOf(uname) == chat
    && (uname !in old(data.usersMap) ==>
          && data.users == old(data.users) + [User(uname, AliasesOf(uname), chat)]
          && data.cells == old(data.cells)
          && data.usersMap == old(data.usersMap)[uname := Slot(|old(data.users)|)])
    && (uname in old(data.usersMap) ==>
          && data.usersMap == old(data.usersMap)
          && data.Lookup(uname) == Some(old(data.Lookup(uname)).value.(LastChatID := chat)))
    && (uname in old(data.usersMap) && data.usersMap[uname].Cell? ==> data.users == old(data.users))
    && (uname in old(data.usersMap) && data.usersMap[uname].Slot? ==> data.cells == old(data.cells))
    && (forall n | n in old(data.usersMap) && old(data.usersMap)[n] != data.usersMap[uname] ::
          data.Lookup(n) == old(data.Lookup(n)))
    && (old(data.ChatOf(uname)) == chat ==>
          && data.queues == old(data.queues) && fs.files == old(fs.files)
          && bot.calls == old(bot.calls) && bot.delivered == old(bot.delivered))
    && (old(data.ChatOf(uname)) != chat ==>
          && data.queues == old(data.queues)[uname := Failed(old(data.Queue(uname)), bot.succeeds, old(bot.calls))]
          && bot.delivered == old(bot.delivered) + Deliveries(chat, Sent(old(data.Queue(uname)), bot.succeeds, old(bot.calls)))
          && (data.SaveErrorOf(usersFaults, queuesFaults).None? ==> data.Persisted(fs)))
    && fs.locks == old(fs.locks)
  }

  /**
   * A message from `uname` in chat `chat`: an unknown sender becomes a user
   * (with its configured aliases, no chat yet); when the chat differs from
   * the one on record it is recorded, the sender's queue is flushed to it and
   * the store is saved (a save error is only logged).
   */
  method NoteChat(data: DataPath, bot: ChatBot, fs: FileSystem, uname: string, chat: int64,
                  usersFaults: SaveFaults, queuesFaults: SaveFaults)
    requires data.Valid()
    modifies data, bot, fs
    ensures ChatNoted(data, bot, fs, uname, chat, usersFaults, queuesFaults)
    ensures bot.replies == old(bot.replies)
  {
    EnsureUser(data, uname);
    if data.ChatOf(uname) != chat {
      Rechat(data, bot, fs, uname, chat, usersFaults, queuesFaults);
    }
  }

  /**
   * A restart loses a chat recorded for a loaded user: after Load of a users
   * file holding just `u`, a message from `u` in a new chat is recorded (and
   * saved without faults), yet the users file still holds `u` with its old
   * chat, because the index points at Load's copy of `u`, not at the element
   * of `users` that Save writes.
   */
  method ChatLostOnReload(fs: FileSystem, bot: ChatBot, path: string, u: User, chat: int64) returns (d: DataPath)
    requires JoinPath(path, "tbot.lock") !in fs.locks
    requires JoinPath(path, "users.json") in fs.files && fs.files[JoinPath(path, "users.json")] == UsersDoc([u])
    requires u.Name != "" && chat != u.LastChatID
    modifies fs, bot
    ensures d.Valid() && d.ChatOf(u.Name) == chat
    ensures d.Persisted(fs) && fs.files[d.usersFn] == UsersDoc([u])
  {
    var noFaults := SaveFaults(false, false, false, false);
    var p, _ := NewDataPath(fs, path);
    d := p;
    var _ := d.Load(fs);
    CompactIdentity([u], 0);
    assert [u][0..] == [u];
    assert d.users == [u] && d.cells == [u];
    assert d.usersMap == IndexNames(map[u.Name := Cell(0)], u.Aliases, Cell(0));
    IndexNamesLookup(map[u.Name := Cell(0)], u.Aliases, Cell(0), u.Name);
    assert d.usersMap[u.Name] == Cell(0) && d.ChatOf(u.Name) == u.LastChatID;
    NoteChat(d, bot, fs, u.Name, chat, noFaults, noFaults);
  }

  /** An unknown sender becomes a user with its configured aliases and no chat yet. */
  method EnsureUser(data: DataPath, uname: string)
    requires data.Valid()
    modifies data
    ensures data.Valid() && uname in data.usersMap && data.queues == old(data.queues)
    ensures uname !in old(data.usersMap) ==>
      && data.users == old(data.users) + [User(uname, AliasesOf(uname), 0)]
      && data.cells == old(data.cells)
      && data.usersMap == old(data.usersMap)[uname := Slot(|old(data.users)|)]
      && data.Lookup(uname) == Some(User(uname, AliasesOf(uname), 0))
    ensures uname in old(data.usersMap) ==>
      data.users == old(data.users) && data.cells == old(data.cells) && data.usersMap == old(data.usersMap)
    ensures forall n | n in old(data.usersMap) :: data.Lookup(n) == old(data.Lookup(n))
  {
    if uname !in data.usersMap {
      data.AddUser(User(uname, AliasesOf(uname), 0));
    }
  }

  /** A known user writes from a new chat: record it, flush the queue to it, and save. */
  method Rechat(data: DataPath, bot: ChatBot, fs: FileSystem, uname: string, chat: int64,
                usersFaults: SaveFaults, queuesFaults: SaveFaults)
    requires data.Valid() && uname in data.usersMap
    modifies data, bot, fs
    ensures data.Valid()
    ensures data.usersMap == old(data.usersMap)
    ensures data.Lookup(uname) == Some(old(data.Lookup(uname)).value.(LastChatID := chat))
    ensures forall n | n in data.usersMap && data.usersMap[n] != data.usersMap[uname] ::
      data.Lookup(n) == old(data.Lookup(n))
    ensures var p := data.usersMap[uname];
      p.Slot? ==> data.users == old(data.users)[p.i := old(data.users)[p.i].(LastChatID := chat)] && data.cells == old(data.cells)
    ensures var p := data.usersMap[uname];
      p.Cell? ==> data.cells == old(data.cells)[p.k := old(data.cells)[p.k].(LastChatID := chat)] && data.users == old(data.users)
    ensures data.queues == old(data.queues)[uname := Failed(old(data.Queue(uname)), bot.succeeds, old(bot.calls))]
    ensures bot.delivered == old(bot.delivered) + Deliveries(chat, Sent(old(data.Queue(uname)), bot.succeeds, old(bot.calls)))
    ensures data.SaveErrorOf(usersFaults, queuesFaults).None? ==> data.Persisted(fs)
    ensures fs.locks == old(fs.locks)
    ensures bot.replies == old(bot.replies)
  {
    data.SetLastChatID(uname, chat);
    var remains := Flush(bot, chat, data.Queue(uname));
    data.queues := data.queues[uname := remains];
    var _ := data.Save(fs, usersFaults, queuesFaults);
  }

  // ---------------------------------------------------------------------------
  // The message endpoint

  /**
   * The recipient and the text of a message request: the first path segment
   * names the recipient; the text is the body of a POST, otherwise the rest
   * of the path after the next `/` (empty when there is none).
   */
  function ParseMessage(verb: string, path: string, body: string): (r: (string, string))
    ensures '/' !in r.0
    ensures TrimPrefix(path, "/") == r.0 || HasPrefix(TrimPrefix(path, "/"), r.0 + "/")
    ensures verb != "POST" && TrimPrefix(path, "/") != r.0 ==> TrimPrefix(path, "/") == r.0 + "/" + r.1
    ensures verb != "POST" && TrimPrefix(path, "/") == r.0 ==> r.1 == ""
    ensures verb == "POST" ==> r.1 == body
  {
    var parts := SplitN2(TrimPrefix(path, "/"), '/');
    var text := if verb == "POST" then body else if |parts| > 1 then parts[1] else "";
    if |parts| > 1 then
      assert TrimPrefix(path, "/") == parts[0] + "/" + parts[1];
      TrimPrefixOfConcat(parts[0] + "/", parts[1]);
      (parts[0], text)
    else
      (parts[0], text)
  }

  /** A request written as `/<to>/<text>` (or a POST of the text to `/<to>`) reads back as it was written. */
  lemma ParseMessageWritten(to: string, text: string)
    requires '/' !in to
    ensures ParseMessage("GET", "/" + to + "/" + text, "") == (to, text)
    ensures ParseMessage("POST", "/" + to, text) == (to, text)
  {
    TrimPrefixOfConcat("/", to + "/" + text);
    assert "/" + to + "/" + text == "/" + (to + ['/'] + text);
    CutOfConcat(to, '/', text);
    TrimPrefixOfConcat("/", to);
    assert Cut(to, '/') == (to, None);
  }

  /**
   * The effect of a message request for `to` with `text`: an empty text is
   * refused with 400 and nothing changes; a text sent at once answers 201,
   * with the queues and the files unchanged; otherwise the text is appended
   * to the recipient's queue, the store is saved, the answer is 200 and the
   * save error, if any, is fatal.  The users and the index never change.
   */
  twostate predicate MessageAccepted(data: DataPath, bot: ChatBot, fs: FileSystem, to: string, text: string,
                                     usersFaults: SaveFaults, queuesFaults: SaveFaults,
                                     status: int, new fatal: Option<StoreError>)
    requires old(data.Valid())
    reads data, bot, fs
  {
    && data.Valid()
    && data.users == old(data.users) && data.usersMap == old(data.usersMap) && data.cells == old(data.cells)
    && (text == "" ==>
          && status == StatusBadRequest && fatal.None? && data.queues == old(data.queues)
          && bot.calls == old(bot.calls) && bot.delivered == old(bot.delivered) && fs.files == old(fs.files))
    && (text != "" && old(data.ChatOf(to)) != 0 && bot.succeeds(old(bot.calls)) ==>
          && status == StatusCreated && fatal.None? && data.queues == old(data.queues)
          && bot.delivered == old(bot.delivered) + [Delivery(old(data.ChatOf(to)), text)]
          && fs.files == old(fs.files))
    && (text != "" && !(old(data.ChatOf(to)) != 0 && bot.succeeds(old(bot.calls))) ==>
          && status == StatusOK
          && data.queues == old(data.queues)[to := old(data.Queue(to)) + [text]]
          && fatal == data.SaveErrorOf(usersFaults, queuesFaults)
          && (fatal.None? ==> data.Persisted(fs)))
  }

  /**
   * A message request: an empty text is refused with 400; a text sent at
   * once answers 201; a queued text is saved, and a failing save ends the
   * process (`fatal`).
   */
  method AcceptMessage(data: DataPath, bot: ChatBot, fs: FileSystem, verb: string, path: string, body: string,
                       usersFaults: SaveFaults, queuesFaults: SaveFaults)
      returns (status: int, fatal: Option<StoreError>)
    requires data.Valid()
    modifies data, bot, fs
    ensures var (to, text) := ParseMessage(verb, path, body);
      MessageAccepted(data, bot, fs, to, text, usersFaults, queuesFaults, status, fatal)
    ensures bot.replies == old(bot.replies)
  {
    var (to, text) := ParseMessage(verb, path, body);
    if text == "" {
      return StatusBadRequest, None;
    }
    status, fatal := DeliverAndSave(data, bot, fs, to, text, usersFaults, queuesFaults);
  }

  /** The tail of a message request: 201 for a text sent at once; a queued text is saved and answers 200. */
  method DeliverAndSave(data: DataPath, bot: ChatBot, fs: FileSystem, to: string, text: string,
                        usersFaults: SaveFaults, queuesFaults: SaveFaults)
      returns (status: int, fatal: Option<StoreError>)
    requires data.Valid()
    modifies data, bot, fs
    ensures data.Valid()
    ensures data.users == old(data.users) && data.usersMap == old(data.usersMap) && data.cells == old(data.cells)
    ensures old(data.ChatOf(to)) != 0 && bot.succeeds(old(bot.calls)) ==>
      && status == StatusCreated && fatal.None? && data.queues == old(data.queues)
      && bot.delivered == old(bot.delivered) + [Delivery(old(data.ChatOf(to)), text)]
      && fs.files == old(fs.files)
    ensures !(old(data.ChatOf(to)) != 0 && bot.succeeds(old(bot.calls))) ==>
      && status == StatusOK
      && data.queues == old(data.queues)[to := old(data.Queue(to)) + [text]]
      && fatal == data.SaveErrorOf(usersFaults, queuesFaults)
      && (fatal.None? ==> data.Persisted(fs))
    ensures bot.replies == old(bot.replies)
  {
    var live := DeliverOrQueue(data, bot, to, text);
    if live {
      return StatusCreated, None;
    }
    fatal := data.Save(fs, usersFaults, queuesFaults);
    status := StatusOK;
  }
}
