/**
 * handlers/message_handlers.go: what happens to a message that is not a
 * command. In a group, posts of channels that are not whitelisted are
 * deleted and queued for the blocked-post log, with a once-a-day warning;
 * `/apply` typed as text opens an application. In a private chat, the
 * reason a user types after `/start claim_...` completes their claim.
 */
module MessageHandlers {
  import opened Wrappers
  import opened GoText
  import opened Models
  import opened Store
  import opened StoreFacts
  import opened Telegram
  import opened Effects
  import opened Payloads
  import opened Utils
  import opened ChannelUtils
  import opened Applications
  import opened Handlers
  import MessageQueue

  // ------------------------------------------------ "/apply" typed as text

  /** The test of message_handlers.go:120 as written: "/apply", "/apply@<bot>", or "/apply " and a reason. */
  predicate IsApplyTextAsWritten(text: string, bot: string) {
    text == "/apply" || text == "/apply@" + bot || HasPrefix(text, "/apply ")
  }

  /** The same test with the "/apply@<bot> " and a reason that lines 125-127 are written to handle. */
  predicate IsApplyText(text: string, bot: string) {
    IsApplyTextAsWritten(text, bot) || HasPrefix(text, "/apply@" + bot + " ")
  }

  /** The reason after either command prefix; "" for the bare commands. */
  function ApplyTextArgs(text: string, bot: string): string {
    if HasPrefix(text, "/apply ") then TrimPrefix(text, "/apply ")
    else if HasPrefix(text, "/apply@" + bot + " ") then TrimPrefix(text, "/apply@" + bot + " ")
    else ""
  }

  /**
   * As written, "/apply@<bot> <reason>" fails the test of line 120, so the
   * branch of lines 125-127 that would read its reason is never reached and
   * the text is treated as an ordinary message.
   */
  lemma MentionedApplyMissedAsWritten(bot: string, reason: string)
    ensures !IsApplyTextAsWritten("/apply@" + bot + " " + reason, bot)
  {
    var text := "/apply@" + bot + " " + reason;
    assert text[6] == '@';
    assert |text| > |"/apply@" + bot|;
  }

  /** With the test corrected, both spellings are recognised and carry their reason. */
  lemma ApplyTextCarriesReason(bot: string, reason: string)
    ensures IsApplyText("/apply " + reason, bot) && ApplyTextArgs("/apply " + reason, bot) == reason
    ensures IsApplyText("/apply@" + bot + " " + reason, bot) && ApplyTextArgs("/apply@" + bot + " " + reason, bot) == reason
    ensures IsApplyText("/apply", bot) && ApplyTextArgs("/apply", bot) == ""
    ensures IsApplyText("/apply@" + bot, bot) && ApplyTextArgs("/apply@" + bot, bot) == ""
  {
    var mentioned := "/apply@" + bot + " " + reason;
    assert HasPrefix("/apply " + reason, "/apply ");
    assert ("/apply " + reason)[|"/apply "|..] == reason;
    assert mentioned[6] == '@';
    assert HasPrefix(mentioned, "/apply@" + bot + " ");
    assert mentioned[|"/apply@" + bot + " "|..] == reason;
    assert ("/apply@" + bot)[6] == '@';
  }

  // ------------------------------------------------------- blocked posts

  /** The not-whitelisted warning: sent, and recorded as today's warning only when it was delivered. */
  function Warn(s: HState, env: Env, chat: Int64, channel: Int64): HState {
    var st := Send(s, env, chat, DeletedNotWhitelisted, [ChannelName(env, channel)]);
    if st.err.None? then st.s.(t := st.s.t.(prompts := RecordDailyPrompt(st.s.t.prompts, chat, channel, WhitelistWarning, env.today)))
    else st.s
  }

  /**
   * Lines 47-115: the post of a channel that is not whitelisted is deleted.
   * `/apply` reminds once a day of a pending application, or else applies;
   * any other command is queued; any other post is queued after a warning
   * that goes out once a day.
   */
  function BlockedPost(s: HState, env: Env, cfg: Config, m: Message, channel: Int64): Step {
    var chat := m.chat.id;
    var deleted := RequestDelete(s, chat, m.messageId);
    if CommandName(m) == "apply" then
      if HasPendingApplication(s.t.apps, chat, channel) then
        if HasDailyPrompt(s.t.prompts, chat, channel, PendingNotice, env.today) then Done(deleted)
        else Done(RemindPending(deleted, env, chat, channel))
      else Apply(deleted, env, cfg, m, CommandArgs(m))
    else if m.command.Some? then Done(Enqueue(deleted, chat, channel, m.messageId, m.text))
    else
      var warned := if HasDailyPrompt(s.t.prompts, chat, channel, WhitelistWarning, env.today) then deleted
                    else Warn(deleted, env, chat, channel);
      Done(Enqueue(warned, chat, channel, m.messageId, m.text))
  }

  /**
   * Lines 120-168: "/apply" typed as text. The pending check and the daily
   * notice are keyed by the sender's user id, as the code passes
   * `message.From.ID` where the other paths pass the channel.
   */
  function ApplyText(s: HState, env: Env, cfg: Config, m: Message): Step {
    var chat := m.chat.id;
    var user := m.fromId;
    if HasPendingApplication(s.t.apps, chat, user) then
      if HasDailyPrompt(s.t.prompts, chat, user, PendingNotice, env.today) then Done(RequestDelete(s, chat, m.messageId))
      else
        var sent := Send(s, env, chat, YouHavePending, []);
        if sent.err.Some? then sent
        else Done(sent.s.(t := sent.s.t.(prompts := RecordDailyPrompt(sent.s.t.prompts, chat, user, PendingNotice, env.today))))
    else Apply(s, env, cfg, m, ApplyTextArgs(m.text, cfg.botUserName))
  }

  /**
   * `HandleMessage`: private chats go to the private handler; other chats
   * that are not groups, and disabled groups, are ignored; in a group the
   * settings row is created if missing. A channel that is not whitelisted
   * has its post blocked; then "/apply" typed as text is handled. The later
   * channel block of lines 171-247 re-tests the whitelist the blocked-post
   * branch already returned on, so every post that reaches it is from a
   * whitelisted channel or from no channel, and it does nothing.
   */
  function OnMessage(s: HState, env: Env, cfg: Config, m: Message): Step {
    if m.chat.kind == Private then PrivateMessage(s, env, cfg, m)
    else if !IsGroupChat(m.chat.kind) then Done(s)
    else
      var chat := m.chat.id;
      var settled := s.(t := s.t.(settings := EnsureSettings(s.t.settings, chat)));
      if !SettingsOf(s.t.settings, chat).enabled then Done(settled)
      else if IsChannelMessage(m) && !Whitelisted(s.t.whitelist, chat, GetChannelID(m)) then
        BlockedPost(settled, env, cfg, m, GetChannelID(m))
      else if IsApplyText(m.text, cfg.botUserName) then ApplyText(settled, env, cfg, m)
      else Done(settled)
  }

  // ------------------------------------------------------ private replies

  /**
   * `handlePrivateMessage`: only a `waiting_reason:<chat>:<channel>` state is
   * acted on, and a malformed one is an error. The typed text becomes the
   * pending application's reason, the sender claims it (a refusal is
   * reported and returned), ownership is marked verified, the sender is
   * told, the administrators are notified, and only then is the state cleared.
   */
  function PrivateMessage(s: HState, env: Env, cfg: Config, m: Message): Step {
    var user := m.fromId;
    match ParseUserState(StateOf(s.t.userStates, user))
    case NoState => Done(s)
    case OtherState => Done(s)
    case WaitingReason(parse) =>
      match parse
      case WrongShape => Fail(s, InvalidData)
      case BadNumber => Fail(s, InvalidData)
      case Pair(chat, channel) =>
        var reasoned := s.(t := s.t.(apps := SetReason(s.t.apps, chat, channel, m.text)));
        var w := ClaimApplication(reasoned.t.apps, chat, channel, user);
        if w.err.Some? then Step(Send(reasoned, env, m.chat.id, OperationFailed, []).s, Some(StoreFailed(w.err.value)))
        else
          var verified := reasoned.(t := reasoned.t.(apps := MarkVerified(w.apps, chat, channel, user)));
          var channelName := ChannelName(env, channel);
          var told := Send(verified, env, m.chat.id, ClaimDone, [GroupName(env, chat), channelName, m.text]);
          if told.err.Some? then told
          else
            var n := NotifyAdmins(told.s, env, cfg, chat, channel, user, channelName, m.text);
            if n.err.Some? then n
            else Done(n.s.(t := n.s.t.(userStates := n.s.t.userStates - {user})))
  }

  // -------------------------------------------------------------- routing

  /** Private chats are handed to the private handler; other chats that are not groups are ignored. */
  lemma MessageRouting(s: HState, env: Env, cfg: Config, m: Message)
    ensures m.chat.kind == Private ==> OnMessage(s, env, cfg, m) == PrivateMessage(s, env, cfg, m)
    ensures m.chat.kind != Private && !IsGroupChat(m.chat.kind) ==> OnMessage(s, env, cfg, m) == Done(s)
  {
  }

  /** A group where the bot is disabled is left exactly as it was: its settings row already exists. */
  lemma DisabledGroupIgnored(s: HState, env: Env, cfg: Config, m: Message)
    requires IsGroupChat(m.chat.kind) && !SettingsOf(s.t.settings, m.chat.id).enabled
    ensures OnMessage(s, env, cfg, m) == Done(s)
  {
    assert m.chat.id in s.t.settings;
    assert EnsureSettings(s.t.settings, m.chat.id) == s.t.settings;
  }

  /**
   * The posts of a whitelisted channel that the test of line 120 lets pass
   * are neither deleted nor queued, and leave the tables as they were but for
   * the settings row. The one exception is the corrected test: a post
   * "/apply@<bot> <reason>" is handled as "/apply" typed as text.
   */
  lemma WhitelistedPostPasses(s: HState, env: Env, cfg: Config, m: Message)
    requires IsGroupChat(m.chat.kind) && IsChannelMessage(m)
    requires Whitelisted(s.t.whitelist, m.chat.id, GetChannelID(m))
    requires !IsApplyTextAsWritten(m.text, cfg.botUserName)
    ensures var r := OnMessage(s, env, cfg, m);
            !HasPrefix(m.text, "/apply@" + cfg.botUserName + " ") ==>
              r.err.None? && r.s.queue == s.queue && r.s.trace == s.trace
              && r.s.t == s.t.(settings := EnsureSettings(s.t.settings, m.chat.id))
    ensures HasPrefix(m.text, "/apply@" + cfg.botUserName + " ") ==>
              SettingsOf(s.t.settings, m.chat.id).enabled ==>
              OnMessage(s, env, cfg, m) == ApplyText(s.(t := s.t.(settings := EnsureSettings(s.t.settings, m.chat.id))), env, cfg, m)
  {
  }

  // --------------------------------------------------------- blocked posts

  /** The facts every blocked post shares: deleted first, whitelist and settings untouched. */
  lemma BlockedPostDeleted(s: HState, env: Env, cfg: Config, m: Message)
    requires IsGroupChat(m.chat.kind) && SettingsOf(s.t.settings, m.chat.id).enabled
    requires IsChannelMessage(m) && !Whitelisted(s.t.whitelist, m.chat.id, GetChannelID(m))
    ensures var r := OnMessage(s, env, cfg, m);
            |r.s.trace| > |s.trace| && r.s.trace[..|s.trace| + 1] == s.trace + [DeleteRequested(m.chat.id, m.messageId)]
            && r.s.t.whitelist == s.t.whitelist
            && r.s.t.settings == EnsureSettings(s.t.settings, m.chat.id)
  {
    var chat := m.chat.id;
    var channel := GetChannelID(m);
    var settled := s.(t := s.t.(settings := EnsureSettings(s.t.settings, chat)));
    var deleted := RequestDelete(settled, chat, m.messageId);
    var r := OnMessage(s, env, cfg, m);
    assert r == BlockedPost(settled, env, cfg, m, channel);
    assert TraceExtends(deleted, r.s) by {
      if CommandName(m) == "apply" && !HasPendingApplication(s.t.apps, chat, channel) {
        ApplyKeepsTrace(deleted, env, cfg, m, CommandArgs(m));
      }
    }
    assert r.s.trace[..|s.trace| + 1] == r.s.trace[..|deleted.trace|];
  }

  /** `HandleApply` only adds requests to the trace, only writes applications, and leaves the whitelist as it found it. */
  lemma ApplyKeepsTrace(s: HState, env: Env, cfg: Config, m: Message, args: string)
    ensures var r := Apply(s, env, cfg, m, args);
            TraceExtends(s, r.s) && r.s.t.whitelist == s.t.whitelist && r.s.t.settings == s.t.settings
            && r.s.queue == s.queue
  {
  }

  /** A command of a channel that is not whitelisted, other than `/apply`, is deleted and queued, with no notice. */
  lemma BlockedCommandQueued(s: HState, env: Env, cfg: Config, m: Message)
    requires IsGroupChat(m.chat.kind) && SettingsOf(s.t.settings, m.chat.id).enabled
    requires IsChannelMessage(m) && !Whitelisted(s.t.whitelist, m.chat.id, GetChannelID(m))
    requires m.command.Some? && CommandName(m) != "apply"
    ensures var r := OnMessage(s, env, cfg, m);
            r.err.None?
            && r.s.t == s.t.(settings := EnsureSettings(s.t.settings, m.chat.id))
            && r.s.trace == s.trace + [DeleteRequested(m.chat.id, m.messageId)]
            && r.s.queue == s.queue + [BlockedMessageInfo(m.chat.id, GetChannelID(m), m.messageId, m.text)]
  {
  }

  /**
   * Any other post of such a channel is deleted and queued; the warning is
   * sent only when none was recorded today, and recorded only when it was
   * delivered.
   */
  lemma BlockedPlainPost(s: HState, env: Env, cfg: Config, m: Message)
    requires IsGroupChat(m.chat.kind) && SettingsOf(s.t.settings, m.chat.id).enabled
    requires IsChannelMessage(m) && !Whitelisted(s.t.whitelist, m.chat.id, GetChannelID(m))
    requires m.command.None?
    ensures var r := OnMessage(s, env, cfg, m);
            var chat := m.chat.id;
            var channel := GetChannelID(m);
            var warned := HasDailyPrompt(s.t.prompts, chat, channel, WhitelistWarning, env.today);
            r.err.None?
            && r.s.t.apps == s.t.apps && r.s.t.whitelist == s.t.whitelist && r.s.t.userStates == s.t.userStates
            && r.s.queue == s.queue + [BlockedMessageInfo(chat, channel, m.messageId, m.text)]
            && r.s.trace == s.trace + [DeleteRequested(chat, m.messageId)]
                            + (if warned then [] else [Sent(chat, DeletedNotWhitelisted, [ChannelName(env, channel)])])
            && r.s.t.prompts == (if !warned && SendOk(env, chat)
                                 then RecordDailyPrompt(s.t.prompts, chat, channel, WhitelistWarning, env.today)
                                 else s.t.prompts)
  {
  }

  /**
   * The warning goes out at most once a day: after a delivered warning, the
   * next plain post of the same channel in the same group that day is only
   * deleted and queued.
   */
  lemma WarningOncePerDay(s: HState, env: Env, cfg: Config, m: Message, next: Message)
    requires IsGroupChat(m.chat.kind) && SettingsOf(s.t.settings, m.chat.id).enabled
    requires IsChannelMessage(m) && !Whitelisted(s.t.whitelist, m.chat.id, GetChannelID(m))
    requires m.command.None? && SendOk(env, m.chat.id)
    requires next.chat == m.chat && next.senderChat == m.senderChat && next.command.None?
    ensures var first := OnMessage(s, env, cfg, m).s;
            var r := OnMessage(first, env, cfg, next);
            r.s.trace == first.trace + [DeleteRequested(m.chat.id, next.messageId)]
            && r.s.queue == first.queue + [BlockedMessageInfo(m.chat.id, GetChannelID(m), next.messageId, next.text)]
  {
    var chat := m.chat.id;
    var channel := GetChannelID(m);
    BlockedPlainPost(s, env, cfg, m);
    var first := OnMessage(s, env, cfg, m).s;
    assert SettingsOf(first.t.settings, chat) == SettingsOf(s.t.settings, chat);
    assert HasDailyPrompt(first.t.prompts, chat, channel, WhitelistWarning, env.today) by {
      RecordDailyPromptFacts(s.t.prompts, chat, channel, WhitelistWarning, env.today, chat, channel, WhitelistWarning, env.today);
    }
    BlockedPlainPost(first, env, cfg, next);
  }

  /**
   * `/apply` from a channel that is not whitelisted while its application is
   * pending is deleted and not queued; the reminder goes out only when none
   * was recorded today and is recorded only when delivered.
   */
  lemma BlockedApplyWhilePending(s: HState, env: Env, cfg: Config, m: Message)
    requires IsGroupChat(m.chat.kind) && SettingsOf(s.t.settings, m.chat.id).enabled
    requires IsChannelMessage(m) && !Whitelisted(s.t.whitelist, m.chat.id, GetChannelID(m))
    requires CommandName(m) == "apply" && HasPendingApplication(s.t.apps, m.chat.id, GetChannelID(m))
    ensures var r := OnMessage(s, env, cfg, m);
            var chat := m.chat.id;
            var channel := GetChannelID(m);
            var noticed := HasDailyPrompt(s.t.prompts, chat, channel, PendingNotice, env.today);
            r.err.None?
            && r.s.queue == s.queue && r.s.t.apps == s.t.apps && r.s.t.whitelist == s.t.whitelist
            && r.s.trace == s.trace + [DeleteRequested(chat, m.messageId)]
                            + (if noticed then [] else [Sent(chat, PendingReminder, [ChannelName(env, channel)])])
            && r.s.t.prompts == (if !noticed && SendOk(env, chat)
                                 then RecordDailyPrompt(s.t.prompts, chat, channel, PendingNotice, env.today)
                                 else s.t.prompts)
  {
  }

  /** `/apply` from a channel that is not whitelisted and has nothing pending is deleted and then handled by `HandleApply`. */
  lemma BlockedApplyApplies(s: HState, env: Env, cfg: Config, m: Message)
    requires IsGroupChat(m.chat.kind) && SettingsOf(s.t.settings, m.chat.id).enabled
    requires IsChannelMessage(m) && !Whitelisted(s.t.whitelist, m.chat.id, GetChannelID(m))
    requires CommandName(m) == "apply" && !HasPendingApplication(s.t.apps, m.chat.id, GetChannelID(m))
    ensures var settled := s.(t := s.t.(settings := EnsureSettings(s.t.settings, m.chat.id)));
            OnMessage(s, env, cfg, m) == Apply(RequestDelete(settled, m.chat.id, m.messageId), env, cfg, m, CommandArgs(m))
  {
  }

  // ------------------------------------------------------- private replies

  /** Without a waiting-reason state nothing happens; a malformed one is an error that changes nothing. */
  lemma PrivateMessageGuards(s: HState, env: Env, cfg: Config, m: Message)
    ensures var p := ParseUserState(StateOf(s.t.userStates, m.fromId));
            var r := PrivateMessage(s, env, cfg, m);
            (p.NoState? || p.OtherState? ==> r == Done(s))
            && (p.WaitingReason? && !p.parse.Pair? ==> r == Fail(s, InvalidData))
  {
  }

  /**
   * What a reply in the waiting-reason state does to the tables: the
   * applications end up reasoned, or reasoned, claimed and verified; the
   * state is dropped only after every step succeeded; nothing else changes.
   */
  lemma ReasonReplyTables(s: HState, env: Env, cfg: Config, m: Message, chat: Int64, channel: Int64)
    requires ParseUserState(StateOf(s.t.userStates, m.fromId)) == WaitingReason(Pair(chat, channel))
    ensures var r := PrivateMessage(s, env, cfg, m);
            var reasoned := SetReason(s.t.apps, chat, channel, m.text);
            var w := ClaimApplication(reasoned, chat, channel, m.fromId);
            var apps := if w.err.Some? then reasoned else MarkVerified(w.apps, chat, channel, m.fromId);
            var cleared := w.err.None? && r.err.None?;
            r.s.t == s.t.(apps := apps, userStates := if cleared then s.t.userStates - {m.fromId} else s.t.userStates)
            && r.s.queue == s.queue
            && (w.err.Some? ==> r.err == Some(StoreFailed(w.err.value)))
            && (w.err.None? ==>
                  (r.err.None? <==> SendOk(env, m.chat.id) && chat in env.admins && m.fromId in env.chats && chat in env.chats))
  {
  }

  /**
   * After `/start claim_<chat>_<channel>` stored the waiting state, the text
   * the user sends next becomes the reason of the pair's pending
   * application, which the user then holds, verified; the state is cleared
   * exactly when every step succeeded, and a refused claim leaves the state
   * in place.
   */
  lemma ReasonCompletesClaim(s: HState, env: Env, cfg: Config, m: Message, chat: Int64, channel: Int64)
    requires WellFormed(s.t)
    requires StateOf(s.t.userStates, m.fromId) == WaitingReasonState(chat, channel)
    ensures var r := PrivateMessage(s, env, cfg, m);
            var before := PendingApplicationOf(s.t.apps, chat, channel);
            var claim := ClaimApplication(SetReason(s.t.apps, chat, channel, m.text), chat, channel, m.fromId);
            WellFormed(r.s.t) && r.s.t.whitelist == s.t.whitelist && r.s.queue == s.queue
            && (claim.err.Some? <==> before.None? || (before.value.userId != 0 && before.value.userId != m.fromId))
            && (claim.err.Some? ==> r.err == Some(StoreFailed(claim.err.value)) && r.s.t.userStates == s.t.userStates)
            && (claim.err.None? ==>
                  PendingApplicationOf(r.s.t.apps, chat, channel)
                    == Some(before.value.(reason := m.text, userId := m.fromId, verifiedChannel := true))
                  && (r.err.None? <==> SendOk(env, m.chat.id) && chat in env.admins && m.fromId in env.chats && chat in env.chats)
                  && r.s.t.userStates == (if r.err.None? then s.t.userStates - {m.fromId} else s.t.userStates))
  {
    WaitingReasonRoundTrip(chat, channel);
    ReasonReplyTables(s, env, cfg, m, chat, channel);
    var reasoned := SetReason(s.t.apps, chat, channel, m.text);
    ReasonOfPending(s.t.apps, chat, channel, m.text);
    ClaimOutcome(reasoned, chat, channel, m.fromId);
    var claim := ClaimApplication(reasoned, chat, channel, m.fromId);
    if claim.err.None? {
      ClaimThenVerify(reasoned, chat, channel, m.fromId);
    }
  }

  // ------------------------------------------------------------ the whole

  /** A private reply keeps the tables well formed. */
  lemma PrivateMessageKeepsWellFormed(s: HState, env: Env, cfg: Config, m: Message)
    requires WellFormed(s.t)
    ensures WellFormed(PrivateMessage(s, env, cfg, m).s.t)
  {
    match ParseUserState(StateOf(s.t.userStates, m.fromId))
    case WaitingReason(Pair(g, c)) =>
      ReasonReplyTables(s, env, cfg, m, g, c);
      ReasonOfPending(s.t.apps, g, c, m.text);
      var reasoned := SetReason(s.t.apps, g, c, m.text);
      ClaimOutcome(reasoned, g, c, m.fromId);
      if ClaimApplication(reasoned, g, c, m.fromId).err.None? {
        ClaimThenVerify(reasoned, g, c, m.fromId);
      }
    case _ =>
  }

  /** A group message keeps the tables well formed. */
  lemma GroupMessageKeepsWellFormed(s: HState, env: Env, cfg: Config, m: Message)
    requires WellFormed(s.t)
    requires m.chat.kind != Private && IsGroupChat(m.chat.kind)
    ensures WellFormed(OnMessage(s, env, cfg, m).s.t)
  {
    var chat := m.chat.id;
    var settled := s.(t := s.t.(settings := EnsureSettings(s.t.settings, chat)));
    assert WellFormed(settled.t);
    ApplyKeepsWellFormed(RequestDelete(settled, chat, m.messageId), env, cfg, m, CommandArgs(m));
    ApplyKeepsWellFormed(settled, env, cfg, m, ApplyTextArgs(m.text, cfg.botUserName));
  }

  /** `HandleMessage` keeps the tables well formed. */
  lemma HandleMessageKeepsWellFormed(s: HState, env: Env, cfg: Config, m: Message)
    requires WellFormed(s.t)
    ensures WellFormed(OnMessage(s, env, cfg, m).s.t)
  {
    if m.chat.kind == Private {
      PrivateMessageKeepsWellFormed(s, env, cfg, m);
    } else if IsGroupChat(m.chat.kind) {
      GroupMessageKeepsWellFormed(s, env, cfg, m);
    }
  }

  // ------------------------------------------------------------ in place

  /** `HandleMessage` on the handler. */
  method HandleMessage(h: Handler, env: Env, m: Message) returns (err: Option<Failure>)
    requires h.Valid()
    modifies h, h.db
    ensures h.Valid()
    ensures Step(h.State(), err) == OnMessage(old(h.State()), env, h.cfg, m)
  {
    if m.chat.kind == Private {
      err := HandlePrivateMessage(h, env, m);
      return;
    }
    if !IsGroupChat(m.chat.kind) {
      return None;
    }
    var chat := m.chat.id;
    var settings := h.db.GetOrCreateGroupSettings(chat);
    if !settings.enabled {
      return None;
    }
    if IsChannelMessage(m) {
      var channel := GetChannelID(m);
      var isWhitelisted := h.db.IsChannelWhitelisted(chat, channel);
      if !isWhitelisted {
        err := HandleBlockedPost(h, env, m, channel);
        return;
      }
    }
    if IsApplyText(m.text, h.cfg.botUserName) {
      err := HandleApplyText(h, env, m);
      return;
    }
    err := None;
  }

  /** The post of a channel that is not whitelisted: the delete, then `/apply`, another command, or the daily warning, and the queue. */
  method HandleBlockedPost(h: Handler, env: Env, m: Message, channel: Int64) returns (err: Option<Failure>)
    requires h.Valid()
    modifies h, h.db
    ensures h.Valid()
    ensures Step(h.State(), err) == BlockedPost(old(h.State()), env, h.cfg, m, channel)
  {
    var chat := m.chat.id;
    h.RequestDelete(chat, m.messageId);
    if CommandName(m) == "apply" {
      var pending := h.db.GetPendingChannelApplication(chat, channel);
      if pending.Some? {
        var noticed := h.db.HasPendingNoticeToday(chat, channel, env.today);
        if noticed {
          return None;
        }
        var sendErr := h.Send(env, chat, PendingReminder, [ChannelName(env, channel)]);
        if sendErr.None? {
          h.db.RecordPendingNotice(chat, channel, env.today);
        }
        return None;
      }
      err := HandleApply(h, env, m, CommandArgs(m));
      return;
    }
    if m.command.Some? {
      MessageQueue.AddToMessageQueue(h, chat, channel, m.messageId, m.text);
      return None;
    }
    var hasPrompted := h.db.HasPromptedToday(chat, channel, env.today);
    if !hasPrompted {
      var sendErr := h.Send(env, chat, DeletedNotWhitelisted, [ChannelName(env, channel)]);
      if sendErr.None? {
        h.db.RecordPrompt(chat, channel, env.today);
      }
    }
    MessageQueue.AddToMessageQueue(h, chat, channel, m.messageId, m.text);
    err := None;
  }

  /** "/apply" typed as a message: keyed by the sender, as written. */
  method HandleApplyText(h: Handler, env: Env, m: Message) returns (err: Option<Failure>)
    requires h.Valid()
    modifies h, h.db
    ensures h.Valid()
    ensures Step(h.State(), err) == ApplyText(old(h.State()), env, h.cfg, m)
  {
    var chat := m.chat.id;
    var args := ApplyTextArgs(m.text, h.cfg.botUserName);
    var hasApp := h.db.HasPendingApplication(chat, m.fromId);
    var noticed := h.db.HasPendingNoticeToday(chat, m.fromId, env.today);
    if hasApp && noticed {
      h.RequestDelete(chat, m.messageId);
      return None;
    }
    if hasApp {
      err := h.Send(env, chat, YouHavePending, []);
      if err.Some? {
        return;
      }
      h.db.RecordPendingNotice(chat, m.fromId, env.today);
      return None;
    }
    err := HandleApply(h, env, m, args);
  }

  /** `handlePrivateMessage` on the handler: the reason, the claim, the verification, the two notices, then the state is cleared. */
  method HandlePrivateMessage(h: Handler, env: Env, m: Message) returns (err: Option<Failure>)
    requires h.Valid()
    modifies h, h.db
    ensures h.Valid()
    ensures Step(h.State(), err) == PrivateMessage(old(h.State()), env, h.cfg, m)
  {
    var user := m.fromId;
    var state := h.db.GetUserState(user);
    match ParseUserState(state)
    case NoState =>
      return None;
    case OtherState =>
      return None;
    case WaitingReason(parse) =>
      if !parse.Pair? {
        return Some(InvalidData);
      }
      var chat, channel := parse.first, parse.second;
      h.db.UpdateChannelApplicationReason(chat, channel, m.text);
      var claimErr := h.db.UpdateChannelApplicationUser(chat, channel, user);
      if claimErr.Some? {
        var _ := h.Send(env, m.chat.id, OperationFailed, []);
        return Some(StoreFailed(claimErr.value));
      }
      h.db.VerifyChannelOwnership(chat, channel, user);
      var channelName := ChannelName(env, channel);
      err := h.Send(env, m.chat.id, ClaimDone, [GroupName(env, chat), channelName, m.text]);
      if err.Some? {
        return;
      }
      err := NotifyAdminsAboutApplication(h, env, chat, channel, user, channelName, m.text);
      if err.Some? {
        return;
      }
      h.db.ClearUserState(user);
  }
}
