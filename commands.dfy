/**
 * handlers/commands.go and the routing of handlers/handler.go: which
 * handler a command reaches, after the moderation gate for channels that
 * are not whitelisted and the test that the bot was mentioned, and which
 * handler an update reaches.
 */
module Commands {
  import opened Wrappers
  import opened GoText
  import opened Models
  import opened Store
  import opened Telegram
  import opened Effects
  import opened Utils
  import Applications
  import BasicCommands
  import AdminCommands
  import MessageHandlers
  import Callbacks
  import MessageQueue
  import opened Handlers

  /** Calling the handler a command is bound to. */
  function Dispatch(s: HState, env: Env, cfg: Config, m: Message, args: string, c: Command): Step {
    match c
    case StartCmd => BasicCommands.Start(s, env, m, args)
    case HelpCmd => BasicCommands.Help(s, env, m)
    case AddChannelCmd => AdminCommands.AddChannel(s, env, cfg, m, args)
    case UnwhitelistCmd => AdminCommands.Unwhitelist(s, env, cfg, m, args)
    case ListChannelsCmd => BasicCommands.ListChannels(s, env, m)
    case StatsCmd => BasicCommands.Stats(s, env, m)
    case EnableCmd => AdminCommands.SetEnabled(s, env, cfg, m, true)
    case DisableCmd => AdminCommands.SetEnabled(s, env, cfg, m, false)
    case SettingsCmd => AdminCommands.Settings(s, env, m)
    case ApproveCmd => Applications.Decide(s, env, cfg, m, args, true)
    case RejectCmd => Applications.Decide(s, env, cfg, m, args, false)
    case ApplyCmd => Applications.Apply(s, env, cfg, m, args)
    case ClaimCmd => Applications.Claim(s, env, cfg, m, args)
  }

  // ---------------------------------------------------------- dispatching

  /** `HandleUnknownCommand`. */
  function UnknownCommand(s: HState, env: Env, m: Message): Step {
    Send(s, env, m.chat.id, Telegram.UnknownCommand, [])
  }

  /** The failed whitelist query of the moderation gate. */
  const LookupError: Failure := StoreFailed(ExecFailed(""))

  /** The moderation gate applies to posts of a channel outside private chats. */
  predicate Gated(m: Message) {
    IsChannelMessage(m) && m.chat.kind != Private
  }

  /**
   * `HandleCommand`: a channel that is not whitelisted has every command but
   * `/apply` deleted and queued; `/apply` and `/claim` need no mention;
   * outside private chats any other command is ignored unless the bot is
   * mentioned; a name missing from the table gets the unknown-command reply.
   */
  function OnCommand(s: HState, env: Env, cfg: Config, commands: map<string, Command>, m: Message): Step {
    var command := CommandName(m);
    var args := CommandArgs(m);
    var chat := m.chat.id;
    if Gated(m) && !env.lookupOk then Fail(s, LookupError)
    else if Gated(m) && !Whitelisted(s.t.whitelist, chat, GetChannelID(m)) && command != "apply" then
      Done(Enqueue(RequestDelete(s, chat, m.messageId), chat, GetChannelID(m), m.messageId, m.text))
    else if (command == "apply" || command == "claim") && command in commands then
      Dispatch(s, env, cfg, m, args, commands[command])
    else if m.chat.kind != Private && MentionsBot(m.text, m.entities, cfg.botUserName) != Some(true) then
      if MentionsBot(m.text, m.entities, cfg.botUserName).None? then Fail(s, Panic) else Done(s)
    else if command in commands then Dispatch(s, env, cfg, m, args, commands[command])
    else UnknownCommand(s, env, m)
  }

  /** A failed whitelist query is returned before anything is done. */
  lemma LookupErrorStopsCommand(s: HState, env: Env, cfg: Config, commands: map<string, Command>, m: Message)
    requires Gated(m) && !env.lookupOk
    ensures OnCommand(s, env, cfg, commands, m) == Fail(s, LookupError)
  {
  }

  /** A command other than `/apply` from a channel that is not whitelisted is deleted and queued, and no handler runs. */
  lemma BlockedCommandNoHandler(s: HState, env: Env, cfg: Config, commands: map<string, Command>, m: Message)
    requires Gated(m) && env.lookupOk && !Whitelisted(s.t.whitelist, m.chat.id, GetChannelID(m))
    requires CommandName(m) != "apply"
    ensures var r := OnCommand(s, env, cfg, commands, m);
            r.err.None? && r.s.t == s.t
            && r.s.trace == s.trace + [DeleteRequested(m.chat.id, m.messageId)]
            && r.s.queue == s.queue + [BlockedMessageInfo(m.chat.id, GetChannelID(m), m.messageId, m.text)]
  {
  }

  /** The gate lets a command through: a private chat, a sender that is not a channel, a whitelisted channel, or `/apply`. */
  predicate PassesGate(s: HState, env: Env, m: Message) {
    !Gated(m) || (env.lookupOk && (Whitelisted(s.t.whitelist, m.chat.id, GetChannelID(m)) || CommandName(m) == "apply"))
  }

  /** `/apply` reaches its handler with or without a mention of the bot. */
  lemma ApplyNeedsNoMention(s: HState, env: Env, cfg: Config, m: Message)
    requires PassesGate(s, env, m) && CommandName(m) == "apply"
    ensures OnCommand(s, env, cfg, CommandTable, m) == Applications.Apply(s, env, cfg, m, CommandArgs(m))
  {
    ApplyAndClaimBound();
    assert OnCommand(s, env, cfg, CommandTable, m) == Dispatch(s, env, cfg, m, CommandArgs(m), ApplyCmd);
  }

  /** `/claim` reaches its handler with or without a mention of the bot. */
  lemma ClaimNeedsNoMention(s: HState, env: Env, cfg: Config, m: Message)
    requires PassesGate(s, env, m) && CommandName(m) == "claim"
    ensures OnCommand(s, env, cfg, CommandTable, m) == Applications.Claim(s, env, cfg, m, CommandArgs(m))
  {
    ApplyAndClaimBound();
    assert OnCommand(s, env, cfg, CommandTable, m) == Dispatch(s, env, cfg, m, CommandArgs(m), ClaimCmd);
  }

  /**
   * Outside private chats, any other command that does not mention the bot
   * is ignored, and a mention entity out of the text's range is a panic.
   */
  lemma UnmentionedCommandIgnored(s: HState, env: Env, cfg: Config, m: Message)
    requires PassesGate(s, env, m) && m.chat.kind != Private
    requires CommandName(m) != "apply" && CommandName(m) != "claim"
    ensures var r := OnCommand(s, env, cfg, CommandTable, m);
            var mention := MentionsBot(m.text, m.entities, cfg.botUserName);
            (mention == Some(false) ==> r == Done(s))
            && (mention.None? ==> r == Fail(s, Panic))
            && (mention == Some(true) ==>
                  r == if CommandName(m) in CommandNames then Dispatch(s, env, cfg, m, CommandArgs(m), CommandTable[CommandName(m)])
                       else UnknownCommand(s, env, m))
  {
    CommandTableFacts();
  }

  /** In a private chat every command is handled: a registered one by its handler, any other by the unknown-command reply. */
  lemma PrivateCommandHandled(s: HState, env: Env, cfg: Config, m: Message)
    requires m.chat.kind == Private
    ensures var r := OnCommand(s, env, cfg, CommandTable, m);
            r == if CommandName(m) in CommandNames then Dispatch(s, env, cfg, m, CommandArgs(m), CommandTable[CommandName(m)])
                 else UnknownCommand(s, env, m)
  {
    CommandTableFacts();
  }

  // -------------------------------------------------------------- updates

  /**
   * `HandleUpdate`: a message that is a command, then a channel post that is
   * a command, then a message, then a channel post, then a button press.
   */
  function OnUpdate(s: HState, env: Env, cfg: Config, commands: map<string, Command>, u: Update): Step {
    if u.message.Some? && u.message.value.command.Some? then OnCommand(s, env, cfg, commands, u.message.value)
    else if u.channelPost.Some? && u.channelPost.value.command.Some? then OnCommand(s, env, cfg, commands, u.channelPost.value)
    else if u.message.Some? then MessageHandlers.OnMessage(s, env, cfg, u.message.value)
    else if u.channelPost.Some? then MessageHandlers.OnMessage(s, env, cfg, u.channelPost.value)
    else if u.callback.Some? then Callbacks.HandleCallback(s, env, cfg, u.callback.value)
    else Done(s)
  }

  /**
   * Exactly one part of an update is handled, in this order: a message that
   * is a command, a channel post that is a command, a message, a channel
   * post, and a button press only in an update with neither message nor post.
   * So a button press beside a message or post is never looked at, and a
   * channel post beside a command message is never looked at.
   */
  lemma UpdatePriority(s: HState, env: Env, cfg: Config, commands: map<string, Command>, u: Update)
    ensures u.message.Some? && u.message.value.command.Some? ==>
              OnUpdate(s, env, cfg, commands, u) == OnCommand(s, env, cfg, commands, u.message.value)
    ensures !(u.message.Some? && u.message.value.command.Some?) && u.channelPost.Some? && u.channelPost.value.command.Some? ==>
              OnUpdate(s, env, cfg, commands, u) == OnCommand(s, env, cfg, commands, u.channelPost.value)
    ensures u.message.Some? && u.message.value.command.None? && !(u.channelPost.Some? && u.channelPost.value.command.Some?) ==>
              OnUpdate(s, env, cfg, commands, u) == MessageHandlers.OnMessage(s, env, cfg, u.message.value)
    ensures u.message.None? && u.channelPost.Some? && u.channelPost.value.command.None? ==>
              OnUpdate(s, env, cfg, commands, u) == MessageHandlers.OnMessage(s, env, cfg, u.channelPost.value)
    ensures u.message.None? && u.channelPost.None? && u.callback.Some? ==>
              OnUpdate(s, env, cfg, commands, u) == Callbacks.HandleCallback(s, env, cfg, u.callback.value)
    ensures u.message.None? && u.channelPost.None? && u.callback.None? ==> OnUpdate(s, env, cfg, commands, u) == Done(s)
    ensures u.message.Some? || u.channelPost.Some? ==>
              OnUpdate(s, env, cfg, commands, u) == OnUpdate(s, env, cfg, commands, u.(callback := None))
    ensures u.message.Some? && u.message.value.command.Some? ==>
              OnUpdate(s, env, cfg, commands, u) == OnUpdate(s, env, cfg, commands, u.(channelPost := None, callback := None))
  {
  }

  // ------------------------------------------------------------ in place

  /** Calling the handler method a command is bound to. */
  method RunHandler(h: Handler, env: Env, m: Message, args: string, c: Command) returns (err: Option<Failure>)
    requires h.Valid()
    modifies h, h.db
    ensures h.Valid()
    ensures Step(h.State(), err) == Dispatch(old(h.State()), env, h.cfg, m, args, c)
  {
    match c
    case StartCmd => err := BasicCommands.HandleStart(h, env, m, args);
    case HelpCmd => err := BasicCommands.HandleHelp(h, env, m);
    case AddChannelCmd => err := AdminCommands.HandleAddChannel(h, env, m, args);
    case UnwhitelistCmd => err := AdminCommands.HandleUnwhitelist(h, env, m, args);
    case ListChannelsCmd => err := BasicCommands.HandleListChannels(h, env, m);
    case StatsCmd => err := BasicCommands.HandleStats(h, env, m);
    case EnableCmd => err := AdminCommands.HandleSetEnabled(h, env, m, true);
    case DisableCmd => err := AdminCommands.HandleSetEnabled(h, env, m, false);
    case SettingsCmd => err := AdminCommands.HandleSettings(h, env, m);
    case ApproveCmd => err := Applications.HandleDecision(h, env, m, args, true);
    case RejectCmd => err := Applications.HandleDecision(h, env, m, args, false);
    case ApplyCmd => err := Applications.HandleApply(h, env, m, args);
    case ClaimCmd => err := Applications.HandleClaim(h, env, m, args);
  }

  /** `HandleCommand` on the handler, with the handler's own command table. */
  method HandleCommand(h: Handler, env: Env, m: Message) returns (err: Option<Failure>)
    requires h.Valid()
    modifies h, h.db
    ensures h.Valid()
    ensures Step(h.State(), err) == OnCommand(old(h.State()), env, h.cfg, old(h.commands), m)
  {
    var command := CommandName(m);
    var args := CommandArgs(m);
    var chat := m.chat.id;
    if IsChannelMessage(m) && m.chat.kind != Private {
      var channel := GetChannelID(m);
      if !env.lookupOk {
        return Some(LookupError);
      }
      var isWhitelisted := h.db.IsChannelWhitelisted(chat, channel);
      if !isWhitelisted && command != "apply" {
        h.RequestDelete(chat, m.messageId);
        MessageQueue.AddToMessageQueue(h, chat, channel, m.messageId, m.text);
        return None;
      }
    }
    if (command == "apply" || command == "claim") && command in h.commands {
      err := RunHandler(h, env, m, args, h.commands[command]);
      return;
    }
    if m.chat.kind != Private {
      var mentioned := IsMentioningBot(m.text, m.entities, h.cfg.botUserName);
      if mentioned.None? {
        return Some(Panic);
      }
      if !mentioned.value {
        return None;
      }
    }
    if command !in h.commands {
      err := h.Send(env, chat, Telegram.UnknownCommand, []);
      return;
    }
    err := RunHandler(h, env, m, args, h.commands[command]);
  }

  /** `HandleUpdate` on the handler. */
  method HandleUpdate(h: Handler, env: Env, u: Update) returns (err: Option<Failure>)
    requires h.Valid()
    modifies h, h.db
    ensures h.Valid()
    ensures Step(h.State(), err) == OnUpdate(old(h.State()), env, h.cfg, old(h.commands), u)
  {
    if u.message.Some? && u.message.value.command.Some? {
      err := HandleCommand(h, env, u.message.value);
    } else if u.channelPost.Some? && u.channelPost.value.command.Some? {
      err := HandleCommand(h, env, u.channelPost.value);
    } else if u.message.Some? {
      err := MessageHandlers.HandleMessage(h, env, u.message.value);
    } else if u.channelPost.Some? {
      err := MessageHandlers.HandleMessage(h, env, u.channelPost.value);
    } else if u.callback.Some? {
      err := Callbacks.HandleCallbackQuery(h, env, u.callback.value);
    } else {
      err := None;
    }
  }
}
