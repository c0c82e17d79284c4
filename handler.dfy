/**
 * handlers/handler.go: the `Handler` object every handler runs on. It holds
 * the database, the configuration, the command table `New` fills, the queue
 * of blocked posts waiting to be logged, and (standing for the bot's
 * connection) the trace of the requests it has sent to Telegram. The
 * handler methods of the other modules change these in place and are each
 * proved to make the change their handler function describes.
 */
module Handlers {
  import opened Wrappers
  import opened GoText
  import opened Models
  import opened Store
  import opened Telegram
  import opened Effects
  import opened Database

  // ---------------------------------------------------------- the table

  /** The handlers a command name can be bound to in `Handler.CommandMap`. */
  datatype Command =
    | StartCmd | HelpCmd | AddChannelCmd | UnwhitelistCmd | ListChannelsCmd | StatsCmd
    | EnableCmd | DisableCmd | SettingsCmd | ApproveCmd | RejectCmd | ApplyCmd | ClaimCmd

  /** The table `New` fills (handlers/handler.go:43-57). */
  const CommandTable: map<string, Command> := map[
    "start" := StartCmd, "help" := HelpCmd,
    "whitelist" := AddChannelCmd, "wl" := AddChannelCmd,
    "unwhitelist" := UnwhitelistCmd, "unwl" := UnwhitelistCmd,
    "list_channels" := ListChannelsCmd, "stats" := StatsCmd,
    "enable" := EnableCmd, "disable" := DisableCmd, "settings" := SettingsCmd,
    "approve" := ApproveCmd, "reject" := RejectCmd,
    "apply" := ApplyCmd, "claim" := ClaimCmd]

  /** The names `New` registers. */
  const CommandNames: set<string> := {
    "start", "help", "whitelist", "wl", "unwhitelist", "unwl", "list_channels", "stats",
    "enable", "disable", "settings", "approve", "reject", "apply", "claim"}

  /** The table holds exactly the fifteen names, the short spellings share their handler, and every handler has a name. */
  lemma CommandTableFacts()
    ensures CommandTable.Keys == CommandNames
    ensures CommandTable["wl"] == CommandTable["whitelist"] && CommandTable["unwl"] == CommandTable["unwhitelist"]
    ensures forall c: Command :: c in CommandTable.Values
  {
    forall c: Command ensures c in CommandTable.Values {
      match c
      case StartCmd => assert CommandTable["start"] == c;
      case HelpCmd => assert CommandTable["help"] == c;
      case AddChannelCmd => assert CommandTable["whitelist"] == c;
      case UnwhitelistCmd => assert CommandTable["unwhitelist"] == c;
      case ListChannelsCmd => assert CommandTable["list_channels"] == c;
      case StatsCmd => assert CommandTable["stats"] == c;
      case EnableCmd => assert CommandTable["enable"] == c;
      case DisableCmd => assert CommandTable["disable"] == c;
      case SettingsCmd => assert CommandTable["settings"] == c;
      case ApproveCmd => assert CommandTable["approve"] == c;
      case RejectCmd => assert CommandTable["reject"] == c;
      case ApplyCmd => assert CommandTable["apply"] == c;
      case ClaimCmd => assert CommandTable["claim"] == c;
    }
  }

  lemma ApplyAndClaimBound()
    ensures "apply" in CommandTable && CommandTable["apply"] == ApplyCmd
    ensures "claim" in CommandTable && CommandTable["claim"] == ClaimCmd
  {
  }

  // ---------------------------------------------------------- the handler

  class Handler {
    const db: DB
    const cfg: Config
    var commands: map<string, Command>
    var queue: seq<BlockedMessageInfo>
    var trace: seq<Event>

    /** What the handlers read and change: the tables, the queue and the trace. */
    function State(): HState
      reads this, db
    {
      HState(db.Snapshot(), queue, trace)
    }

    predicate Valid()
      reads this, db
    {
      db.Valid()
    }

    /** `New`: the fifteen command names are registered one by one, and the queue starts empty. */
    constructor New(database: DB, config: Config)
      ensures db == database && cfg == config
      ensures commands == CommandTable && queue == [] && trace == []
    {
      db := database;
      cfg := config;
      queue := [];
      trace := [];
      var table: map<string, Command> := map[];
      table := table["start" := StartCmd];
      table := table["help" := HelpCmd];
      table := table["whitelist" := AddChannelCmd];
      table := table["wl" := AddChannelCmd];
      table := table["unwhitelist" := UnwhitelistCmd];
      table := table["unwl" := UnwhitelistCmd];
      table := table["list_channels" := ListChannelsCmd];
      table := table["stats" := StatsCmd];
      table := table["enable" := EnableCmd];
      table := table["disable" := DisableCmd];
      table := table["settings" := SettingsCmd];
      table := table["approve" := ApproveCmd];
      table := table["reject" := RejectCmd];
      table := table["apply" := ApplyCmd];
      table := table["claim" := ClaimCmd];
      commands := table;
    }

    // ------------------------------------------------------------ requests

    /** `Bot.Send` of a new message. */
    method Send(env: Env, to: Int64, kind: Notice, data: seq<string>) returns (err: Option<Failure>)
      modifies this`trace
      ensures trace == old(trace) + [Sent(to, kind, data)] && err == SendError(env, to)
    {
      trace := trace + [Sent(to, kind, data)];
      err := SendError(env, to);
    }

    /** `Bot.Send` of an edit of an existing message. */
    method Edit(env: Env, chat: Int64, messageId: int, kind: Notice, data: seq<string>) returns (err: Option<Failure>)
      modifies this`trace
      ensures trace == old(trace) + [Edited(chat, messageId, kind, data)] && err == SendError(env, chat)
    {
      trace := trace + [Edited(chat, messageId, kind, data)];
      err := SendError(env, chat);
    }

    /** `Bot.Request` of a callback answer. */
    method Answer(env: Env, kind: Notice) returns (err: Option<Failure>)
      modifies this`trace
      ensures trace == old(trace) + [Answered(kind)] && err == (if env.requestOk then None else Some(RequestFailed))
    {
      trace := trace + [Answered(kind)];
      err := if env.requestOk then None else Some(RequestFailed);
    }

    /** `go h.deleteMessageWithTimeout(chat, messageId)`: the deletion is requested and its retries run apart. */
    method RequestDelete(chat: Int64, messageId: int)
      modifies this`trace
      ensures trace == old(trace) + [DeleteRequested(chat, messageId)]
    {
      trace := trace + [DeleteRequested(chat, messageId)];
    }
  }
}
