/**
 * The Telegram side of the bot, reduced to data: the parts of an update the
 * handlers read, the bot's configuration, the answers of the Bot API given as
 * an environment (which chats can be reached, what `GetChat` and
 * `GetChatAdministrators` answer, today's date), and the trace of requests
 * the bot sends out. The texts of the bot's messages are replaced by a kind
 * and the data that matters (button payloads, links, names, figures).
 */
module Telegram {
  import opened Wrappers
  import opened GoText
  import opened Models
  import opened Store

  datatype ChatType = Private | Group | Supergroup | Channel | OtherType

  /** A "group" or "supergroup" chat, where the bot moderates. */
  predicate IsGroupChat(t: ChatType) { t == Group || t == Supergroup }

  datatype Chat = Chat(id: Int64, kind: ChatType)

  /** `Message.SenderChat`: the chat a post is sent on behalf of. */
  datatype SenderChat = SenderChat(id: Int64, kind: ChatType, title: string)

  /** A `MessageEntity`: its type and the slice of the text it covers (byte offsets). */
  datatype Entity = Entity(kind: string, offset: int, length: int)

  /** What the Bot API library reads out of a command message: `Command()` and `CommandArguments()`. */
  datatype CommandInfo = CommandInfo(name: string, args: string)

  /** `Message.ReplyToMessage`, of which only the sender chat is read. */
  datatype Reply = Reply(senderChat: Option<SenderChat>)

  /**
   * A message or channel post. `fromId` is `From.ID`; `command` is present
   * exactly when the library's `IsCommand()` holds.
   */
  datatype Message = Message(
    messageId: int, chat: Chat, fromId: Int64, senderChat: Option<SenderChat>,
    text: string, entities: seq<Entity>, command: Option<CommandInfo>, replyTo: Option<Reply>)

  /** `Message.Command()`: "" for a message that is not a command. */
  function CommandName(m: Message): string {
    if m.command.Some? then m.command.value.name else ""
  }

  /** `Message.CommandArguments()`: "" for a message that is not a command. */
  function CommandArgs(m: Message): string {
    if m.command.Some? then m.command.value.args else ""
  }

  /** A button press: who pressed it, its data, and the message that carries the button. */
  datatype CallbackQuery = CallbackQuery(fromId: Int64, data: string, chat: Chat, messageId: int)

  datatype Update = Update(message: Option<Message>, channelPost: Option<Message>, callback: Option<CallbackQuery>)

  /** An entry of `GetChatAdministrators`. */
  datatype ChatMember = ChatMember(userId: Int64, isBot: bool)

  /** The configuration the handlers read, and the bot's own user name (`Bot.Self.UserName`). */
  datatype Config = Config(adminUsers: seq<Int64>, requireRealAccountVerification: bool, botUserName: string)

  /**
   * The answers of the outside world while one update is handled:
   *  - a message to a chat in `unreachable` fails to send (and so does an edit there);
   *  - `requestOk` is the outcome of answering a callback query;
   *  - `chats` holds the title `GetChat` returns; a missing id is a lookup error;
   *  - `admins` holds what `GetChatAdministrators` returns; a missing id is a lookup error;
   *  - `lookupOk` is whether the whitelist query of the moderation gate succeeds;
   *  - `today` and `nowText` stand for the clock.
   */
  datatype Env = Env(
    unreachable: set<Int64>, requestOk: bool, chats: map<Int64, string>,
    admins: map<Int64, seq<ChatMember>>, lookupOk: bool, today: Day, nowText: string)

  predicate SendOk(env: Env, to: Int64) { to !in env.unreachable }

  /** What a message sent by the bot says, without its wording. */
  datatype Notice =
    | GroupOnly                // "this command only works in groups"
    | ChannelOnly              // "/apply must be sent by the channel itself"
    | OperationFailed          // "... failed: <error>"
    | PendingReminder          // the channel already has a pending application
    | AlreadyWhitelisted
    | ApplicationPosted        // the claim buttons under a new application
    | ClaimUsage               // "/claim <channel id>"
    | NothingToClaim
    | PrivateClaimOnly         // an application without reason is claimed in private
    | AskReason
    | ClaimConfirmation        // the confirmation buttons of a claim
    | ClaimDone
    | ClaimAnnounced           // the group hears that the application was claimed
    | ClaimCancelled
    | AdminRequest             // the approve / reject buttons sent to an admin
    | AdminsOnly               // "only administrators may ..."
    | DecisionUsage            // "/approve <channel id>", "/reject <channel id>"
    | NothingToDecide
    | ApplicationApproved
    | ApplicationRejected
    | DeletedNotWhitelisted    // the post was deleted, the channel should /apply
    | YouHavePending
    | Greeting
    | Help
    | ChannelList
    | Stats
    | Settings
    | NotAChannelReply
    | NoChannelGiven
    | InvalidChannelId
    | ChannelAdded
    | NotWhitelisted
    | ChannelRemoved
    | BotEnabled
    | BotDisabled
    | UnknownCommand

  /** A request the bot makes. */
  datatype Event =
    | Sent(to: Int64, kind: Notice, data: seq<string>)
    | Edited(chat: Int64, messageId: int, kind: Notice, data: seq<string>)
    | Answered(kind: Notice)
    | DeleteRequested(chat: Int64, messageId: int)

  /** The error a handler returns. */
  datatype Failure =
    | SendFailed             // Bot.Send returned an error
    | RequestFailed          // Bot.Request (a callback answer) returned an error
    | StoreFailed(e: DbError)
    | InvalidData            // malformed callback data, user state or channel id
    | LookupFailed           // GetChat or GetChatAdministrators failed
    | Panic                  // the Go code would panic (a slice out of range)
}
