/**
 * The chat platform as the program sees it: the fields of an incoming message
 * it reads, and a bot that sends texts and replies.  Whether a send reaches the
 * chat is decided by an oracle indexed by the number of sends made so far.
 */
module Chat {
  import opened Wrappers

  /** Telegram chat identifiers are 64-bit signed integers. */
  newtype int64 = x: int | -0x8000_0000_0000_0000 <= x < 0x8000_0000_0000_0000

  /** The fields of an incoming message the program reads. */
  datatype Message = Message(id: int, from: string, chatID: int64, chatType: string, text: string)

  /** tgbotapi's Chat.IsGroup: only the "group" chat type counts ("supergroup" does not). */
  predicate IsGroup(msg: Message) {
    msg.chatType == "group"
  }

  /** The bot's answer to `/help`. */
  const HelpText: string := "/help Show this message.\n/doku\tMi változott, mit kellene dokumentálni?\n/oerr\tOracle hibakód kereső\n/forward Forward last message.\n\nor you can send message to me, I will reply it with some debug message."

  /** An update from the platform; it need not carry a message. */
  datatype Update = Update(message: Option<Message>)

  /** A text that reached a chat. */
  datatype Delivery = Delivery(chat: int64, text: string)

  /** The body of a reply: plain text, or the unknown-agent notice with the registry it lists. */
  datatype ReplyBody = Text(text: string) | UnknownAgent(name: string, known: map<string, string>)

  /** A reply to the message `replyTo` in chat `chat`. */
  datatype Reply = Reply(chat: int64, replyTo: int, body: ReplyBody)

  class ChatBot {
    /** Whether the n-th send (counting from 0) succeeds. */
    const succeeds: nat -> bool
    /** The number of sends made so far. */
    var calls: nat
    /** The texts that reached a chat, in order. */
    var delivered: seq<Delivery>
    /** The replies made, in order. */
    var replies: seq<Reply>

    constructor (succeeds: nat -> bool)
      ensures this.succeeds == succeeds
      ensures calls == 0 && delivered == [] && replies == []
    {
      this.succeeds := succeeds;
      calls, delivered, replies := 0, [], [];
    }

    /** Send `text` to `chat`; the oracle decides whether it arrives. */
    method Send(chat: int64, text: string) returns (ok: bool)
      modifies this
      ensures ok == succeeds(old(calls))
      ensures calls == old(calls) + 1
      ensures delivered == old(delivered) + (if ok then [Delivery(chat, text)] else [])
      ensures replies == old(replies)
    {
      ok := succeeds(calls);
      if ok {
        delivered := delivered + [Delivery(chat, text)];
      }
      calls := calls + 1;
    }

    /** Reply to `msg` in its own chat. */
    method ReplyTo(msg: Message, body: ReplyBody)
      modifies this
      ensures replies == old(replies) + [Reply(msg.chatID, msg.id, body)]
      ensures calls == old(calls) && delivered == old(delivered)
    {
      replies := replies + [Reply(msg.chatID, msg.id, body)];
    }
  }
}
