/**
 * handlers/admin_commands.go: whitelisting and un-whitelisting a channel
 * (by replying to one of its posts or by giving its id), switching the
 * bot on and off in a group, and showing the group's settings.
 */
module AdminCommands {
  import opened Wrappers
  import opened GoText
  import opened Models
  import opened Store
  import opened Telegram
  import opened Effects
  import opened Utils
  import opened ChannelUtils
  import opened Handlers

  // ------------------------------------------------------------ permission

  /** Who may change the whitelist: a configured administrator, anyone when the group is not admin-only, or a group administrator. */
  predicate MayManageWhitelist(global: bool, adminOnly: bool, admin: bool) {
    global || !adminOnly || admin
  }

  /** Who may switch the bot on or off: a configured administrator or a group administrator, whatever the settings say. */
  predicate MayToggle(global: bool, admin: bool) {
    global || admin
  }

  // --------------------------------------------------------- which channel

  /** Where the whitelist commands take the channel from. */
  datatype ChannelSource =
    | Named(channel: Int64)   // the replied-to post's channel, or the parsed argument
    | ReplyNotFromChannel     // the replied-to post was not sent on behalf of a channel
    | InvalidId               // the argument is not a channel id
    | Missing                 // neither a reply nor an argument

  /** A reply wins over the arguments; arguments are parsed only when not empty. */
  function ChannelSourceOf(m: Message, args: string): (r: ChannelSource)
    ensures m.replyTo.Some? && IsChannelSender(m.replyTo.value.senderChat) ==> r == Named(m.replyTo.value.senderChat.value.id)
    ensures m.replyTo.None? && args != "" && ParseChannelID(args).Some? ==> r == Named(ParseChannelID(args).value)
    ensures r == Missing <==> m.replyTo.None? && args == ""
  {
    if m.replyTo.Some? then
      if IsChannelSender(m.replyTo.value.senderChat) then Named(SenderId(m.replyTo.value.senderChat)) else ReplyNotFromChannel
    else if args != "" then
      match ParseChannelID(args)
      case Some(c) => Named(c)
      case None => InvalidId
    else Missing
  }

  // ------------------------------------------------------ the common gate

  /** The first part of both whitelist commands: either the command stops with a step, or it goes on for a channel. */
  datatype Gate = Stop(step: Step) | Proceed(s: HState, channel: Int64)

  /**
   * Groups only; the group's settings row is created if missing; the
   * administrator lookup must succeed; the sender must be permitted; and a
   * channel must be named.
   */
  function WhitelistGate(s: HState, env: Env, cfg: Config, m: Message, args: string): Gate {
    var chat := m.chat.id;
    if !IsGroupChat(m.chat.kind) then Stop(Send(s, env, chat, GroupOnly, []))
    else
      var settled := s.(t := s.t.(settings := EnsureSettings(s.t.settings, chat)));
      var g := SettingsOf(s.t.settings, chat);
      match ChatAdmin(env, chat, m.fromId)
      case None => Stop(Fail(settled, LookupFailed))
      case Some(admin) =>
        if !MayManageWhitelist(m.fromId in cfg.adminUsers, g.adminOnly, admin) then Stop(Send(settled, env, chat, AdminsOnly, []))
        else
          match ChannelSourceOf(m, args)
          case Named(c) => Proceed(settled, c)
          case ReplyNotFromChannel => Stop(Send(settled, env, chat, NotAChannelReply, []))
          case InvalidId => Stop(Step(Send(settled, env, chat, InvalidChannelId, []).s, Some(InvalidData)))
          case Missing => Stop(Send(settled, env, chat, NoChannelGiven, []))
  }

  /**
   * The gate lets a command through exactly for a permitted sender in a group
   * whose administrators could be fetched and who named a channel; it
   * writes nothing but the group's default settings row, and sends nothing
   * when it lets the command through.
   */
  lemma GateFacts(s: HState, env: Env, cfg: Config, m: Message, args: string)
    ensures var r := WhitelistGate(s, env, cfg, m, args);
            r.Proceed? <==>
              IsGroupChat(m.chat.kind) && m.chat.id in env.admins
              && MayManageWhitelist(m.fromId in cfg.adminUsers, SettingsOf(s.t.settings, m.chat.id).adminOnly,
                                    AdminListed(env.admins[m.chat.id], m.fromId))
              && ChannelSourceOf(m, args).Named?
    ensures var r := WhitelistGate(s, env, cfg, m, args);
            r.Proceed? ==> r.s == s.(t := s.t.(settings := EnsureSettings(s.t.settings, m.chat.id)))
                           && r.channel == ChannelSourceOf(m, args).channel
    ensures var r := WhitelistGate(s, env, cfg, m, args);
            r.Stop? ==> r.step.s.t.whitelist == s.t.whitelist && r.step.s.t.apps == s.t.apps && r.step.s.queue == s.queue
                        && TraceExtends(s, r.step.s) && |r.step.s.trace| <= |s.trace| + 1
  {
  }

  lemma EnsureSettingsKeyed(settings: map<Int64, GroupSettings>, chat: Int64)
    requires SettingsKeyed(settings)
    ensures SettingsKeyed(EnsureSettings(settings, chat))
  {
  }

  // ------------------------------------------------------------- whitelist

  /**
   * `HandleAddChannel`: after the gate, a channel already on the group's
   * whitelist is only reported; otherwise a row added by the sender with
   * the current time and no description is appended.
   */
  function AddChannel(s: HState, env: Env, cfg: Config, m: Message, args: string): Step {
    var chat := m.chat.id;
    match WhitelistGate(s, env, cfg, m, args)
    case Stop(st) => st
    case Proceed(g, c) =>
      if Whitelisted(g.t.whitelist, chat, c) then Send(g, env, chat, AlreadyWhitelisted, [])
      else
        var added := g.(t := g.t.(whitelist := g.t.whitelist + [WhitelistedChannel(chat, c, m.fromId, env.nowText, "")]));
        Send(added, env, chat, ChannelAdded, [ChannelName(env, c)])
  }

  /** `HandleUnwhitelist`: after the gate, a channel not on the group's whitelist is only reported; otherwise its rows go. */
  function Unwhitelist(s: HState, env: Env, cfg: Config, m: Message, args: string): Step {
    var chat := m.chat.id;
    match WhitelistGate(s, env, cfg, m, args)
    case Stop(st) => st
    case Proceed(g, c) =>
      if !Whitelisted(g.t.whitelist, chat, c) then Send(g, env, chat, NotWhitelisted, [])
      else
        var removed := g.(t := g.t.(whitelist := WithoutChannel(g.t.whitelist, chat, c)));
        Send(removed, env, chat, ChannelRemoved, [ChannelName(env, c)])
  }

  /**
   * Once through the gate, `/whitelist` leaves the named channel whitelisted
   * in this group and no other pair changes; a stop at the gate leaves the
   * whitelist as it was; the tables stay well formed.
   */
  lemma AddChannelEffects(s: HState, env: Env, cfg: Config, m: Message, args: string, c: Int64, ch: Int64)
    requires WellFormed(s.t)
    ensures var gate := WhitelistGate(s, env, cfg, m, args);
            var add := AddChannel(s, env, cfg, m, args).s.t;
            WellFormed(add)
            && (gate.Proceed? ==>
                  Whitelisted(add.whitelist, m.chat.id, gate.channel)
                  && (!(c == m.chat.id && ch == gate.channel) ==>
                        (Whitelisted(add.whitelist, c, ch) <==> Whitelisted(s.t.whitelist, c, ch))))
            && (gate.Stop? ==> add.whitelist == s.t.whitelist)
  {
    var settled := s.t.(settings := EnsureSettings(s.t.settings, m.chat.id));
    EnsureSettingsKeyed(s.t.settings, m.chat.id);
    assert WellFormed(settled);
    GateTables(s, env, cfg, m, args);
    var gate := WhitelistGate(s, env, cfg, m, args);
    var add := AddChannel(s, env, cfg, m, args).s.t;
    if gate.Stop? {
      assert add == gate.step.s.t;
    } else if !Whitelisted(s.t.whitelist, m.chat.id, gate.channel) {
      var e := WhitelistedChannel(m.chat.id, gate.channel, m.fromId, env.nowText, "");
      assert add == settled.(whitelist := s.t.whitelist + [e]);
      AppendWhitelisted(s.t.whitelist, e, c, ch);
      AppendWhitelisted(s.t.whitelist, e, m.chat.id, gate.channel);
    } else {
      assert add == settled;
    }
  }

  /**
   * Once through the gate, `/unwhitelist` leaves the named channel not
   * whitelisted in this group and no other pair changes; a stop at the gate
   * leaves the whitelist as it was; the tables stay well formed.
   */
  lemma UnwhitelistEffects(s: HState, env: Env, cfg: Config, m: Message, args: string, c: Int64, ch: Int64)
    requires WellFormed(s.t)
    ensures var gate := WhitelistGate(s, env, cfg, m, args);
            var remove := Unwhitelist(s, env, cfg, m, args).s.t;
            WellFormed(remove)
            && (gate.Proceed? ==>
                  !Whitelisted(remove.whitelist, m.chat.id, gate.channel)
                  && (!(c == m.chat.id && ch == gate.channel) ==>
                        (Whitelisted(remove.whitelist, c, ch) <==> Whitelisted(s.t.whitelist, c, ch))))
            && (gate.Stop? ==> remove.whitelist == s.t.whitelist)
  {
    var settled := s.t.(settings := EnsureSettings(s.t.settings, m.chat.id));
    EnsureSettingsKeyed(s.t.settings, m.chat.id);
    assert WellFormed(settled);
    GateTables(s, env, cfg, m, args);
    var gate := WhitelistGate(s, env, cfg, m, args);
    var remove := Unwhitelist(s, env, cfg, m, args).s.t;
    if gate.Stop? {
      assert remove == gate.step.s.t;
    } else if Whitelisted(s.t.whitelist, m.chat.id, gate.channel) {
      assert remove == settled.(whitelist := WithoutChannel(s.t.whitelist, m.chat.id, gate.channel));
      WithoutChannelUnique(s.t.whitelist, m.chat.id, gate.channel);
      WithoutChannelWhitelisted(s.t.whitelist, m.chat.id, gate.channel, c, ch);
      WithoutChannelWhitelisted(s.t.whitelist, m.chat.id, gate.channel, m.chat.id, gate.channel);
    } else {
      assert remove == settled;
    }
  }

  /** The gate's tables: as they were, or with the group's default settings row. */
  lemma GateTables(s: HState, env: Env, cfg: Config, m: Message, args: string)
    ensures var gate := WhitelistGate(s, env, cfg, m, args);
            var settled := s.t.(settings := EnsureSettings(s.t.settings, m.chat.id));
            (gate.Stop? ==> gate.step.s.t == s.t || gate.step.s.t == settled)
            && (gate.Proceed? ==> gate.s.t == settled)
  {
  }

  /** Removing a channel that was just added restores the whitelist exactly. */
  lemma {:induction false} RemoveUndoesAdd(wl: seq<WhitelistedChannel>, e: WhitelistedChannel)
    requires !Whitelisted(wl, e.chatId, e.channelId)
    ensures WithoutChannel(wl + [e], e.chatId, e.channelId) == wl
    decreases |wl|
  {
    if |wl| == 0 {
      assert WithoutChannel([e][1..], e.chatId, e.channelId) == [];
    } else {
      assert !WhitelistedAt(wl, 0, e.chatId, e.channelId);
      assert !Whitelisted(wl[1..], e.chatId, e.channelId) by {
        forall i | 0 <= i < |wl[1..]| ensures !WhitelistedAt(wl[1..], i, e.chatId, e.channelId) {
          assert !WhitelistedAt(wl, i + 1, e.chatId, e.channelId);
        }
      }
      RemoveUndoesAdd(wl[1..], e);
      assert (wl + [e])[1..] == wl[1..] + [e];
      assert [wl[0]] + wl[1..] == wl;
    }
  }

  /** An add that went through, followed by a remove of the same channel, leaves the whitelist as it was. */
  lemma AddThenRemove(s: HState, env: Env, cfg: Config, m: Message, args: string)
    requires WellFormed(s.t)
    requires WhitelistGate(s, env, cfg, m, args).Proceed?
    requires !Whitelisted(s.t.whitelist, m.chat.id, WhitelistGate(s, env, cfg, m, args).channel)
    ensures var after := AddChannel(s, env, cfg, m, args).s;
            Unwhitelist(after, env, cfg, m, args).s.t.whitelist == s.t.whitelist
  {
    var gate := WhitelistGate(s, env, cfg, m, args);
    var e := WhitelistedChannel(m.chat.id, gate.channel, m.fromId, env.nowText, "");
    var after := AddChannel(s, env, cfg, m, args).s;
    assert after.t.settings == EnsureSettings(s.t.settings, m.chat.id);
    assert SettingsOf(after.t.settings, m.chat.id) == SettingsOf(s.t.settings, m.chat.id);
    assert WhitelistGate(after, env, cfg, m, args).Proceed?;
    AppendWhitelisted(s.t.whitelist, e, m.chat.id, gate.channel);
    RemoveUndoesAdd(s.t.whitelist, e);
  }

  // ----------------------------------------------------------- on and off

  /**
   * `HandleEnable` (enabled) and `HandleDisable`: groups only; the
   * administrator lookup must succeed and the sender must be an
   * administrator; then the settings row (created if missing) gets the flag.
   */
  function SetEnabled(s: HState, env: Env, cfg: Config, m: Message, enabled: bool): Step {
    var chat := m.chat.id;
    if !IsGroupChat(m.chat.kind) then Send(s, env, chat, GroupOnly, [])
    else
      match ChatAdmin(env, chat, m.fromId)
      case None => Fail(s, LookupFailed)
      case Some(admin) =>
        if !MayToggle(m.fromId in cfg.adminUsers, admin) then Send(s, env, chat, AdminsOnly, [])
        else
          var g := SettingsOf(s.t.settings, chat);
          var updated := UpdatedSettings(EnsureSettings(s.t.settings, chat), g.(enabled := enabled));
          Send(s.(t := s.t.(settings := updated)), env, chat, if enabled then BotEnabled else BotDisabled, [])
  }

  /**
   * A permitted switch changes only the group's `enabled` flag (keeping its
   * other settings, or the defaults for a new row) and no other group's
   * settings; a refused one or a failed lookup changes nothing.
   */
  lemma SetEnabledEffects(s: HState, env: Env, cfg: Config, m: Message, enabled: bool)
    requires WellFormed(s.t)
    ensures var r := SetEnabled(s, env, cfg, m, enabled);
            var chat := m.chat.id;
            WellFormed(r.s.t)
            && r.s.t == s.t.(settings := r.s.t.settings) && r.s.queue == s.queue
            && (IsGroupChat(m.chat.kind) && chat in env.admins
                && MayToggle(m.fromId in cfg.adminUsers, AdminListed(env.admins[chat], m.fromId)) ==>
                  chat in r.s.t.settings
                  && r.s.t.settings[chat] == SettingsOf(s.t.settings, chat).(enabled := enabled)
                  && forall k :: k != chat ==> (k in r.s.t.settings <==> k in s.t.settings)
                                               && (k in s.t.settings ==> r.s.t.settings[k] == s.t.settings[k]))
            && (!(IsGroupChat(m.chat.kind) && chat in env.admins
                  && MayToggle(m.fromId in cfg.adminUsers, AdminListed(env.admins[chat], m.fromId))) ==>
                  OnlyRequests(s, r.s))
  {
    EnsureSettingsKeyed(s.t.settings, m.chat.id);
  }

  // -------------------------------------------------------------- settings

  /** What `/settings` shows: the state, who may manage the whitelist, and the log channel. */
  function SettingsData(g: GroupSettings): seq<string> {
    [if g.enabled then "enabled" else "disabled",
     if g.adminOnly then "administrators only" else "all members",
     if g.logChannelId != 0 then FormatInt(g.logChannelId) else "not set"]
  }

  /** `HandleSettings`: groups only; the settings row is created if missing and shown. */
  function Settings(s: HState, env: Env, m: Message): Step {
    var chat := m.chat.id;
    if !IsGroupChat(m.chat.kind) then Send(s, env, chat, GroupOnly, [])
    else
      Send(s.(t := s.t.(settings := EnsureSettings(s.t.settings, chat))), env, chat, Telegram.Settings,
           SettingsData(SettingsOf(s.t.settings, chat)))
  }

  /** A group that was never configured shows the defaults: enabled, administrators only, no log channel. */
  lemma SettingsOfNewGroup(s: HState, env: Env, m: Message)
    requires IsGroupChat(m.chat.kind) && m.chat.id !in s.t.settings
    ensures var r := Settings(s, env, m);
            Requests(s, r.s) == [Sent(m.chat.id, Telegram.Settings, ["enabled", "administrators only", "not set"])]
            && r.s.t.settings == s.t.settings[m.chat.id := DefaultSettings(m.chat.id)]
  {
  }

  /** After a permitted `/enable` or `/disable`, `/settings` reports the state that was set. */
  lemma SettingsShowSwitch(s: HState, env: Env, cfg: Config, m: Message, enabled: bool)
    requires WellFormed(s.t)
    requires IsGroupChat(m.chat.kind) && m.chat.id in env.admins
    requires MayToggle(m.fromId in cfg.adminUsers, AdminListed(env.admins[m.chat.id], m.fromId))
    ensures var after := SetEnabled(s, env, cfg, m, enabled).s;
            var shown := Settings(after, env, m);
            Requests(after, shown.s)[0].data[0] == (if enabled then "enabled" else "disabled")
  {
    SetEnabledEffects(s, env, cfg, m, enabled);
  }

  // ------------------------------------------------------------ in place

  /** The gate of both whitelist commands on the handler: the settings row, the two administrator checks, the channel. */
  method WhitelistGateOnHandler(h: Handler, env: Env, m: Message, args: string)
    returns (proceed: bool, channel: Int64, err: Option<Failure>)
    requires h.Valid()
    modifies h, h.db
    ensures h.Valid()
    ensures var g := WhitelistGate(old(h.State()), env, h.cfg, m, args);
            (proceed <==> g.Proceed?)
            && (proceed ==> h.State() == g.s && channel == g.channel)
            && (!proceed ==> Step(h.State(), err) == g.step)
  {
    var chat := m.chat.id;
    if !IsGroupChat(m.chat.kind) {
      err := h.Send(env, chat, GroupOnly, []);
      return false, 0, err;
    }
    var settings := h.db.GetOrCreateGroupSettings(chat);
    var isAdmin := IsAdmin(env, chat, m.fromId);
    if isAdmin.None? {
      return false, 0, Some(LookupFailed);
    }
    var isGlobalAdmin := IsGlobalAdmin(h.cfg.adminUsers, m.fromId);
    if !isGlobalAdmin && settings.adminOnly && !isAdmin.value {
      err := h.Send(env, chat, AdminsOnly, []);
      return false, 0, err;
    }
    match ChannelSourceOf(m, args)
    case Named(c) =>
      return true, c, None;
    case ReplyNotFromChannel =>
      err := h.Send(env, chat, NotAChannelReply, []);
      return false, 0, err;
    case InvalidId =>
      var _ := h.Send(env, chat, InvalidChannelId, []);
      return false, 0, Some(InvalidData);
    case Missing =>
      err := h.Send(env, chat, NoChannelGiven, []);
      return false, 0, err;
  }

  /** `HandleAddChannel` on the handler. */
  method HandleAddChannel(h: Handler, env: Env, m: Message, args: string) returns (err: Option<Failure>)
    requires h.Valid()
    modifies h, h.db
    ensures h.Valid()
    ensures Step(h.State(), err) == AddChannel(old(h.State()), env, h.cfg, m, args)
  {
    var chat := m.chat.id;
    var proceed, channel;
    proceed, channel, err := WhitelistGateOnHandler(h, env, m, args);
    if !proceed {
      return;
    }
    var isWhitelisted := h.db.IsChannelWhitelisted(chat, channel);
    if isWhitelisted {
      err := h.Send(env, chat, AlreadyWhitelisted, []);
      return;
    }
    var addErr := h.db.AddChannelToWhitelist(chat, channel, m.fromId, env.nowText, "");
    assert addErr.None?;
    err := h.Send(env, chat, ChannelAdded, [ChannelName(env, channel)]);
  }

  /** `HandleUnwhitelist` on the handler. */
  method HandleUnwhitelist(h: Handler, env: Env, m: Message, args: string) returns (err: Option<Failure>)
    requires h.Valid()
    modifies h, h.db
    ensures h.Valid()
    ensures Step(h.State(), err) == Unwhitelist(old(h.State()), env, h.cfg, m, args)
  {
    var chat := m.chat.id;
    var proceed, channel;
    proceed, channel, err := WhitelistGateOnHandler(h, env, m, args);
    if !proceed {
      return;
    }
    var isWhitelisted := h.db.IsChannelWhitelisted(chat, channel);
    if !isWhitelisted {
      err := h.Send(env, chat, NotWhitelisted, []);
      return;
    }
    h.db.RemoveChannelFromWhitelist(chat, channel);
    err := h.Send(env, chat, ChannelRemoved, [ChannelName(env, channel)]);
  }

  /** `HandleEnable` (enabled) and `HandleDisable` on the handler: the flag is set on the row read, which is written back. */
  method HandleSetEnabled(h: Handler, env: Env, m: Message, enabled: bool) returns (err: Option<Failure>)
    requires h.Valid()
    modifies h, h.db
    ensures h.Valid()
    ensures Step(h.State(), err) == SetEnabled(old(h.State()), env, h.cfg, m, enabled)
  {
    var chat := m.chat.id;
    if !IsGroupChat(m.chat.kind) {
      err := h.Send(env, chat, GroupOnly, []);
      return;
    }
    var isAdmin := IsAdmin(env, chat, m.fromId);
    if isAdmin.None? {
      return Some(LookupFailed);
    }
    var isGlobalAdmin := IsGlobalAdmin(h.cfg.adminUsers, m.fromId);
    if !isGlobalAdmin && !isAdmin.value {
      err := h.Send(env, chat, AdminsOnly, []);
      return;
    }
    var settings := h.db.GetOrCreateGroupSettings(chat);
    settings := settings.(enabled := enabled);
    h.db.UpdateGroupSettings(settings);
    err := h.Send(env, chat, if enabled then BotEnabled else BotDisabled, []);
  }

  /** `HandleSettings` on the handler. */
  method HandleSettings(h: Handler, env: Env, m: Message) returns (err: Option<Failure>)
    requires h.Valid()
    modifies h, h.db
    ensures h.Valid()
    ensures Step(h.State(), err) == Settings(old(h.State()), env, m)
  {
    var chat := m.chat.id;
    if !IsGroupChat(m.chat.kind) {
      err := h.Send(env, chat, GroupOnly, []);
      return;
    }
    var settings := h.db.GetOrCreateGroupSettings(chat);
    err := h.Send(env, chat, Telegram.Settings, SettingsData(settings));
  }
}
