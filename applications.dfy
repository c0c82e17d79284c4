/**
 * handlers/applications.go: `/apply` opens an application for the posting
 * channel, `/claim` ties it to a personal account, and `/approve` and
 * `/reject` decide it. Each handler is a function from the state before to
 * the state after and the error it returns.
 */
module Applications {
  import opened Wrappers
  import opened GoText
  import opened Models
  import opened Store
  import opened StoreFacts
  import opened Telegram
  import opened Effects
  import opened Payloads
  import opened Utils
  import opened Search
  import opened ChannelUtils
  import opened Handlers

  // ------------------------------------------------------------------ apply

  /**
   * The once-a-day reminder that a channel's application is still pending:
   * it is sent, and recorded as today's pending notice only when the send
   * succeeded.
   */
  function RemindPending(s: HState, env: Env, chat: Int64, channel: Int64): HState {
    var st := Send(s, env, chat, PendingReminder, [ChannelName(env, channel)]);
    if st.err.None? then st.s.(t := st.s.t.(prompts := RecordDailyPrompt(st.s.t.prompts, chat, channel, PendingNotice, env.today)))
    else st.s
  }

  /** The channel name `HandleApply` shows: the sender chat's title, or "ID: <id>". */
  function SenderName(m: Message, channel: Int64): string {
    if m.senderChat.Some? && m.senderChat.value.title != "" then m.senderChat.value.title
    else "ID: " + FormatInt(channel)
  }

  /** What the new application's message carries: the name, the reason, the claim button and the private claim link. */
  function PostedData(cfg: Config, m: Message, chat: Int64, channel: Int64, args: string): seq<string> {
    [SenderName(m, channel), args, ClaimData(chat, channel), StartLink(cfg.botUserName, chat, channel)]
  }

  /**
   * `HandleApply`: groups only, channel senders only; a channel with a
   * pending application is reminded once a day (later posts are deleted);
   * a whitelisted channel is told so; any other channel gets an unclaimed
   * application with the arguments as its reason.
   */
  function Apply(s: HState, env: Env, cfg: Config, m: Message, args: string): Step {
    var chat := m.chat.id;
    if !IsGroupChat(m.chat.kind) then Send(s, env, chat, GroupOnly, [])
    else if !IsChannelMessage(m) then Send(s, env, chat, ChannelOnly, [])
    else
      var channel := GetChannelID(m);
      if HasPendingApplication(s.t.apps, chat, channel) then
        if HasDailyPrompt(s.t.prompts, chat, channel, PendingNotice, env.today) then Done(RequestDelete(s, chat, m.messageId))
        else Done(RemindPending(s, env, chat, channel))
      else if Whitelisted(s.t.whitelist, chat, channel) then Send(s, env, chat, AlreadyWhitelisted, [])
      else
        var w := OpenApplication(s.t.apps, chat, channel, 0, args);
        Send(s.(t := s.t.(apps := w.apps)), env, chat, ApplicationPosted, PostedData(cfg, m, chat, channel, args))
  }

  /** Outside a group, or from a sender that is not a channel, `/apply` only answers. */
  lemma ApplyRefusesWithoutState(s: HState, env: Env, cfg: Config, m: Message, args: string)
    requires !IsGroupChat(m.chat.kind) || !IsChannelMessage(m)
    ensures var r := Apply(s, env, cfg, m, args);
            OnlyRequests(s, r.s)
            && Requests(s, r.s) == [Sent(m.chat.id, if !IsGroupChat(m.chat.kind) then GroupOnly else ChannelOnly, [])]
            && (r.err.None? <==> SendOk(env, m.chat.id))
  {
  }

  /**
   * While a channel has a pending application no application is opened:
   * the first `/apply` of the day sends a reminder that is recorded only
   * when it was delivered, a later one is deleted.
   */
  lemma ApplyWhilePending(s: HState, env: Env, cfg: Config, m: Message, args: string)
    requires IsGroupChat(m.chat.kind) && IsChannelMessage(m)
    requires HasPendingApplication(s.t.apps, m.chat.id, GetChannelID(m))
    ensures var r := Apply(s, env, cfg, m, args);
            var chat := m.chat.id;
            var channel := GetChannelID(m);
            r.err.None?
            && r.s.t.apps == s.t.apps && r.s.t.whitelist == s.t.whitelist && r.s.queue == s.queue
            && (HasDailyPrompt(s.t.prompts, chat, channel, PendingNotice, env.today) ==>
                  r.s == Emit(s, DeleteRequested(chat, m.messageId)))
            && (!HasDailyPrompt(s.t.prompts, chat, channel, PendingNotice, env.today) ==>
                  r.s.trace == s.trace + [Sent(chat, PendingReminder, [ChannelName(env, channel)])]
                  && r.s.t.prompts == (if SendOk(env, chat) then RecordDailyPrompt(s.t.prompts, chat, channel, PendingNotice, env.today)
                                       else s.t.prompts))
  {
  }

  /**
   * A channel without a pending application and not yet whitelisted gets a
   * pending, unclaimed, unverified application with the arguments as its
   * reason; the tables stay well formed; the message carries a claim button
   * and a link whose payloads read back as this chat and channel.
   */
  lemma ApplyOpensApplication(s: HState, env: Env, cfg: Config, m: Message, args: string)
    requires WellFormed(s.t)
    requires IsGroupChat(m.chat.kind) && IsChannelMessage(m)
    requires !HasPendingApplication(s.t.apps, m.chat.id, GetChannelID(m))
    requires !Whitelisted(s.t.whitelist, m.chat.id, GetChannelID(m))
    ensures var r := Apply(s, env, cfg, m, args);
            var chat := m.chat.id;
            var channel := GetChannelID(m);
            WellFormed(r.s.t)
            && r.s.t.whitelist == s.t.whitelist && r.s.t.prompts == s.t.prompts && r.s.queue == s.queue
            && PendingApplicationOf(r.s.t.apps, chat, channel).Some?
            && PendingApplicationOf(r.s.t.apps, chat, channel).value.userId == 0
            && PendingApplicationOf(r.s.t.apps, chat, channel).value.reason == args
            && !PendingApplicationOf(r.s.t.apps, chat, channel).value.verifiedChannel
            && r.s.trace == s.trace + [Sent(chat, ApplicationPosted, PostedData(cfg, m, chat, channel, args))]
            && ParseCallback(PostedData(cfg, m, chat, channel, args)[2]) == ClaimButton(Pair(chat, channel))
            && (r.err.None? <==> SendOk(env, chat))
  {
    OpenAccepted(s.t.apps, m.chat.id, GetChannelID(m), 0, args);
    ClaimDataRoundTrip(m.chat.id, GetChannelID(m));
  }

  /** A whitelisted channel gets no application. */
  lemma ApplyWhitelistedChannel(s: HState, env: Env, cfg: Config, m: Message, args: string)
    requires IsGroupChat(m.chat.kind) && IsChannelMessage(m)
    requires !HasPendingApplication(s.t.apps, m.chat.id, GetChannelID(m))
    requires Whitelisted(s.t.whitelist, m.chat.id, GetChannelID(m))
    ensures var r := Apply(s, env, cfg, m, args);
            OnlyRequests(s, r.s) && Requests(s, r.s) == [Sent(m.chat.id, AlreadyWhitelisted, [])]
  {
  }

  /** `HandleApply` keeps the tables well formed. */
  lemma ApplyKeepsWellFormed(s: HState, env: Env, cfg: Config, m: Message, args: string)
    requires WellFormed(s.t)
    ensures WellFormed(Apply(s, env, cfg, m, args).s.t)
  {
    if IsGroupChat(m.chat.kind) && IsChannelMessage(m) {
      OpenRefusedIffPending(s.t.apps, m.chat.id, GetChannelID(m), 0, args);
      if !HasPendingApplication(s.t.apps, m.chat.id, GetChannelID(m)) {
        OpenAccepted(s.t.apps, m.chat.id, GetChannelID(m), 0, args);
      }
    }
  }

  // ------------------------------------------------------------------ claim

  /**
   * `HandleClaim`: the argument must scan as a non-zero channel id; the
   * target is the first pending application of that channel nobody holds,
   * in any group.
   */
  function Claim(s: HState, env: Env, cfg: Config, m: Message, args: string): Step {
    var chat := m.chat.id;
    var c := ScanInt(args);
    if c.None? || c.value == 0 then Send(s, env, chat, ClaimUsage, [])
    else
      match FirstMatch(PendingApplications(s.t.apps), UnclaimedOfChannel(c.value))
      case None => Send(s, env, chat, NothingToClaim, [])
      case Some(app) => ClaimTarget(s, env, cfg, m, app)
  }

  /**
   * What `HandleClaim` does with the application it found: one without a
   * reason is claimed in private, where the user is asked for a reason;
   * with account verification the user is asked to confirm; otherwise the
   * application is claimed, verified, the admins are notified, the user is
   * told and the group hears of it.
   */
  function ClaimTarget(s: HState, env: Env, cfg: Config, m: Message, app: ChannelApplication): Step {
    var chat := m.chat.id;
    var user := m.fromId;
    var channelName := ChannelName(env, app.channelId);
    if app.reason == "" then
      if m.chat.kind != Private then Send(s, env, chat, PrivateClaimOnly, [StartLink(cfg.botUserName, app.chatId, app.channelId)])
      else
        var waiting := s.(t := s.t.(userStates := s.t.userStates[user := WaitingReasonState(app.chatId, app.channelId)]));
        Send(waiting, env, chat, AskReason, [GroupName(env, app.chatId), channelName])
    else if cfg.requireRealAccountVerification then
      Send(s, env, chat, ClaimConfirmation, [channelName, ConfirmChannelData(app.chatId, app.channelId)])
    else
      var w := ClaimApplication(s.t.apps, app.chatId, app.channelId, user);
      if w.err.Some? then Step(Send(s, env, chat, OperationFailed, []).s, Some(StoreFailed(w.err.value)))
      else
        var claimed := s.(t := s.t.(apps := MarkVerified(w.apps, app.chatId, app.channelId, user)));
        var n := NotifyAdmins(claimed, env, cfg, app.chatId, app.channelId, user, channelName, app.reason);
        if n.err.Some? then n
        else
          var done := Send(n.s, env, chat, ClaimDone, [channelName]);
          var announced := Send(done.s, env, app.chatId, ClaimAnnounced, [channelName]);
          Step(announced.s, done.err)
  }

  /** A pending application that nobody holds can be claimed by anyone. */
  lemma UnclaimedIsClaimable(apps: seq<ChannelApplication>, app: ChannelApplication, user: Int64)
    requires ApplicationsUnique(apps)
    requires app in apps && app.status == Pending && app.userId == 0
    ensures PendingApplicationOf(apps, app.chatId, app.channelId) == Some(app)
    ensures ClaimApplication(apps, app.chatId, app.channelId, user).err.None?
  {
    var i :| 0 <= i < |apps| && apps[i] == app;
    OnlyRow(apps, app.chatId, app.channelId, i);
    PendingIsLatest(apps, app.chatId, app.channelId);
    assert LatestPendingRow(apps, app.chatId, app.channelId) == Some(i);
    ClaimOutcome(apps, app.chatId, app.channelId, user);
  }

  /** A missing or zero channel id, or no unclaimed pending application of the channel: `/claim` only answers. */
  lemma ClaimWithoutTarget(s: HState, env: Env, cfg: Config, m: Message, args: string)
    requires ScanInt(args).None? || ScanInt(args).value == 0
             || FirstMatch(PendingApplications(s.t.apps), UnclaimedOfChannel(ScanInt(args).value)).None?
    ensures var r := Claim(s, env, cfg, m, args);
            OnlyRequests(s, r.s) && |Requests(s, r.s)| == 1 && Requests(s, r.s)[0].Sent?
  {
  }

  /**
   * The target of `/claim <channel>` is a pending application of that
   * channel nobody holds, and it precedes every other such application in
   * table order.
   */
  lemma ClaimPicksFirstUnclaimed(s: HState, channel: Int64)
    ensures var t := FirstMatch(PendingApplications(s.t.apps), UnclaimedOfChannel(channel));
            t.Some? ==>
              t.value in s.t.apps && t.value.status == Pending && t.value.channelId == channel && t.value.userId == 0
              && exists i :: 0 <= i < |PendingApplications(s.t.apps)| && PendingApplications(s.t.apps)[i] == t.value
                   && forall j :: 0 <= j < i ==> !Matches(PendingApplications(s.t.apps)[j], UnclaimedOfChannel(channel))
  {
  }

  /**
   * An application without a reason is never claimed by `/claim`: in a
   * group only a private link is sent; in private the user is put in the
   * state that waits for a reason, which reads back as this application.
   */
  lemma ClaimWithoutReason(s: HState, env: Env, cfg: Config, m: Message, app: ChannelApplication)
    requires app.reason == ""
    ensures var r := ClaimTarget(s, env, cfg, m, app);
            r.s.t.apps == s.t.apps && r.s.t.whitelist == s.t.whitelist && r.s.queue == s.queue
            && (m.chat.kind != Private ==> OnlyRequests(s, r.s))
            && (m.chat.kind == Private ==>
                  r.s.t.userStates == s.t.userStates[m.fromId := WaitingReasonState(app.chatId, app.channelId)]
                  && ParseUserState(r.s.t.userStates[m.fromId]) == WaitingReason(Pair(app.chatId, app.channelId)))
  {
    WaitingReasonRoundTrip(app.chatId, app.channelId);
  }

  /** With account verification, `/claim` of an application with a reason writes nothing and only asks for confirmation. */
  lemma ClaimAsksConfirmation(s: HState, env: Env, cfg: Config, m: Message, app: ChannelApplication)
    requires app.reason != "" && cfg.requireRealAccountVerification
    ensures var r := ClaimTarget(s, env, cfg, m, app);
            OnlyRequests(s, r.s)
            && Requests(s, r.s) == [Sent(m.chat.id, ClaimConfirmation, [ChannelName(env, app.channelId), ConfirmChannelData(app.chatId, app.channelId)])]
            && ParseCallback(Requests(s, r.s)[0].data[1]) == ConfirmChannel(Pair(app.chatId, app.channelId))
  {
    ConfirmChannelDataRoundTrip(app.chatId, app.channelId);
  }

  /**
   * Without account verification, the application `/claim` found is claimed
   * by the sender and verified (the claim cannot fail on a target nobody
   * holds); the error returned is the admin notification's, or else the
   * sender's confirmation's.
   */
  lemma ClaimTakesTarget(s: HState, env: Env, cfg: Config, m: Message, app: ChannelApplication)
    requires WellFormed(s.t)
    requires app in s.t.apps && app.status == Pending && app.userId == 0
    requires app.reason != "" && !cfg.requireRealAccountVerification
    ensures var r := ClaimTarget(s, env, cfg, m, app);
            var w := ClaimApplication(s.t.apps, app.chatId, app.channelId, m.fromId);
            w.err.None?
            && r.s.t == s.t.(apps := MarkVerified(w.apps, app.chatId, app.channelId, m.fromId))
            && WellFormed(r.s.t)
            && r.s.queue == s.queue
            && PendingApplicationOf(w.apps, app.chatId, app.channelId) == Some(app.(userId := m.fromId))
            && (r.err.Some? <==> app.chatId !in env.admins || m.fromId !in env.chats || app.chatId !in env.chats
                                 || !SendOk(env, m.chat.id))
  {
    UnclaimedIsClaimable(s.t.apps, app, m.fromId);
    ClaimOutcome(s.t.apps, app.chatId, app.channelId, m.fromId);
    var w := ClaimApplication(s.t.apps, app.chatId, app.channelId, m.fromId);
    TripleUpdatesTouchOnlyTriple(w.apps, app.chatId, app.channelId, m.fromId, Pending);
  }

  // -------------------------------------------------------- approve, reject

  /** The status a decision writes. */
  function Decided(approve: bool): Status { if approve then Approved else Rejected }

  /** The notice of a decision. */
  function DecisionNotice(approve: bool): Notice { if approve then ApplicationApproved else ApplicationRejected }

  /**
   * `HandleApprove` (approve) and `HandleReject`: private chats only (elsewhere
   * silently nothing), configured administrators only; the argument must
   * scan as a non-zero channel id, and the target is the first pending,
   * verified application of that channel in any group.
   */
  function Decide(s: HState, env: Env, cfg: Config, m: Message, args: string, approve: bool): Step {
    var chat := m.chat.id;
    if m.chat.kind != Private then Done(s)
    else if m.fromId !in cfg.adminUsers then Send(s, env, chat, AdminsOnly, [])
    else
      var c := ScanInt(args);
      if c.None? || c.value == 0 then Send(s, env, chat, DecisionUsage, [])
      else
        match FirstMatch(PendingApplications(s.t.apps), VerifiedOfChannel(c.value))
        case None => Send(s, env, chat, NothingToDecide, [])
        case Some(app) => DecideTarget(s, env, chat, app, approve)
  }

  /**
   * What a decision on the application found writes, and whom it tells: an
   * approval first whitelists the channel, and a refused insert (the channel
   * is already whitelisted) returns before anything else; then the status is
   * written and the applicant and the group are told (their send errors are
   * ignored).
   */
  function Decision(s: HState, env: Env, app: ChannelApplication, approve: bool): Step {
    if approve && Whitelisted(s.t.whitelist, app.chatId, app.channelId) then Fail(s, StoreFailed(ConstraintFailed))
    else
      var wl := if approve then s.t.whitelist + [WhitelistedChannel(app.chatId, app.channelId, app.userId, env.nowText, app.reason)]
                else s.t.whitelist;
      var decided := s.(t := s.t.(whitelist := wl, apps := SetStatus(s.t.apps, app.chatId, app.channelId, app.userId, Decided(approve))));
      var name := ChannelName(env, app.channelId);
      var toUser := Send(decided, env, app.userId, DecisionNotice(approve), [name]);
      Done(Send(toUser.s, env, app.chatId, DecisionNotice(approve), [name]).s)
  }

  /** `/approve` and `/reject` after the search: the decision, then the administrator's reply (or the failure notice). */
  function DecideTarget(s: HState, env: Env, replyTo: Int64, app: ChannelApplication, approve: bool): Step {
    var d := Decision(s, env, app, approve);
    if d.err.Some? then Step(Send(d.s, env, replyTo, OperationFailed, []).s, d.err)
    else Send(d.s, env, replyTo, DecisionNotice(approve), [ChannelName(env, app.channelId)])
  }

  /** Outside a private chat a decision command does nothing at all; a sender who is not a configured administrator is only told so. */
  lemma DecideGuards(s: HState, env: Env, cfg: Config, m: Message, args: string, approve: bool)
    ensures m.chat.kind != Private ==> Decide(s, env, cfg, m, args, approve) == Done(s)
    ensures m.chat.kind == Private && m.fromId !in cfg.adminUsers ==>
              var r := Decide(s, env, cfg, m, args, approve);
              OnlyRequests(s, r.s) && Requests(s, r.s) == [Sent(m.chat.id, AdminsOnly, [])]
  {
  }

  /**
   * A decision on a found application: an approval of a channel that is
   * already whitelisted changes nothing; otherwise the channel is
   * whitelisted (approval only), the application leaves the pending list,
   * nothing else in the tables changes, the applicant and the group are
   * told, and the tables stay well formed. A rejection never touches the
   * whitelist.
   */
  lemma DecisionEffects(s: HState, env: Env, app: ChannelApplication, approve: bool)
    requires WellFormed(s.t) && app in s.t.apps
    ensures var r := Decision(s, env, app, approve);
            var blocked := approve && Whitelisted(s.t.whitelist, app.chatId, app.channelId);
            WellFormed(r.s.t) && r.s.queue == s.queue && TraceExtends(s, r.s)
            && (r.err.Some? <==> blocked)
            && (blocked ==> r.s == s && r.err == Some(StoreFailed(ConstraintFailed)))
            && (!approve ==> r.s.t.whitelist == s.t.whitelist)
            && (!blocked ==>
                  Whitelisted(r.s.t.whitelist, app.chatId, app.channelId) == (approve || Whitelisted(s.t.whitelist, app.chatId, app.channelId))
                  && !HasPendingApplication(r.s.t.apps, app.chatId, app.channelId)
                  && r.s.t.apps == SetStatus(s.t.apps, app.chatId, app.channelId, app.userId, Decided(approve))
                  && r.s.t.blocked == s.t.blocked && r.s.t.settings == s.t.settings
                  && r.s.t.prompts == s.t.prompts && r.s.t.userStates == s.t.userStates
                  && Requests(s, r.s) == [Sent(app.userId, DecisionNotice(approve), [ChannelName(env, app.channelId)]),
                                          Sent(app.chatId, DecisionNotice(approve), [ChannelName(env, app.channelId)])])
  {
    var blocked := approve && Whitelisted(s.t.whitelist, app.chatId, app.channelId);
    if !blocked {
      DecidedLeavesNoPending(s.t.apps, app, Decided(approve));
      TripleUpdatesTouchOnlyTriple(s.t.apps, app.chatId, app.channelId, app.userId, Decided(approve));
      if approve {
        var row := WhitelistedChannel(app.chatId, app.channelId, app.userId, env.nowText, app.reason);
        AppendWhitelisted(s.t.whitelist, row, app.chatId, app.channelId);
      }
    }
  }

  /** The command's reply goes to the administrator's chat, and its send error is what the command returns unless the decision failed. */
  lemma DecideTargetReply(s: HState, env: Env, replyTo: Int64, app: ChannelApplication, approve: bool)
    ensures var d := Decision(s, env, app, approve);
            var r := DecideTarget(s, env, replyTo, app, approve);
            r.s.t == d.s.t && r.s.queue == d.s.queue
            && r.s.trace == d.s.trace + [Sent(replyTo, if d.err.Some? then OperationFailed else DecisionNotice(approve),
                                              if d.err.Some? then [] else [ChannelName(env, app.channelId)])]
            && r.err == (if d.err.Some? then d.err else SendError(env, replyTo))
  {
  }

  /** A second decision on the same application finds nothing: a decided application is no longer pending. */
  lemma DecisionIsFinal(s: HState, env: Env, cfg: Config, m: Message, args: string, approve: bool, again: bool)
    requires WellFormed(s.t)
    requires m.chat.kind == Private && m.fromId in cfg.adminUsers
    requires ScanInt(args).Some? && ScanInt(args).value != 0
    requires FirstMatch(PendingApplications(s.t.apps), VerifiedOfChannel(ScanInt(args).value)).Some?
    requires !(approve && Whitelisted(s.t.whitelist, FirstMatch(PendingApplications(s.t.apps), VerifiedOfChannel(ScanInt(args).value)).value.chatId,
                                      FirstMatch(PendingApplications(s.t.apps), VerifiedOfChannel(ScanInt(args).value)).value.channelId))
    ensures var app := FirstMatch(PendingApplications(s.t.apps), VerifiedOfChannel(ScanInt(args).value)).value;
            var after := Decide(s, env, cfg, m, args, approve).s;
            FirstMatch(PendingApplications(after.t.apps), VerifiedOfPair(app.chatId, app.channelId)).None?
  {
    var app := FirstMatch(PendingApplications(s.t.apps), VerifiedOfChannel(ScanInt(args).value)).value;
    DecisionEffects(s, env, app, approve);
    var after := Decide(s, env, cfg, m, args, approve).s;
    PairSearchFindsPendingRow(after.t.apps, app.chatId, app.channelId, true);
  }
  // ------------------------------------------------------------ in place

  /** `HandleApply` on the handler: the statements and requests in the order the code makes them. */
  method HandleApply(h: Handler, env: Env, m: Message, args: string) returns (err: Option<Failure>)
    requires h.Valid()
    modifies h, h.db
    ensures h.Valid()
    ensures Step(h.State(), err) == Apply(old(h.State()), env, h.cfg, m, args)
  {
    var chat := m.chat.id;
    if !IsGroupChat(m.chat.kind) {
      err := h.Send(env, chat, GroupOnly, []);
      return;
    }
    if !IsChannelMessage(m) {
      err := h.Send(env, chat, ChannelOnly, []);
      return;
    }
    var channel := GetChannelID(m);
    var pending := h.db.GetPendingChannelApplication(chat, channel);
    if pending.Some? {
      var noticed := h.db.HasPendingNoticeToday(chat, channel, env.today);
      if noticed {
        h.RequestDelete(chat, m.messageId);
        return None;
      }
      var sendErr := h.Send(env, chat, PendingReminder, [ChannelName(env, channel)]);
      if sendErr.None? {
        h.db.RecordPendingNotice(chat, channel, env.today);
      }
      return None;
    }
    var whitelisted := h.db.IsChannelWhitelisted(chat, channel);
    if whitelisted {
      err := h.Send(env, chat, AlreadyWhitelisted, []);
      return;
    }
    OpenRefusedIffPending(h.db.apps, chat, channel, 0, args);
    var createErr := h.db.CreateChannelApplication(chat, channel, 0, args);
    assert createErr.None?;
    err := h.Send(env, chat, ApplicationPosted, PostedData(h.cfg, m, chat, channel, args));
  }

  /** `HandleClaim` on the handler: the scan, the search loop over the pending rows, then what is done with the target. */
  method HandleClaim(h: Handler, env: Env, m: Message, args: string) returns (err: Option<Failure>)
    requires h.Valid()
    modifies h, h.db
    ensures h.Valid()
    ensures Step(h.State(), err) == Claim(old(h.State()), env, h.cfg, m, args)
  {
    var chat := m.chat.id;
    var c := ScanInt(args);
    if c.None? || c.value == 0 {
      err := h.Send(env, chat, ClaimUsage, []);
      return;
    }
    var pending := h.db.GetPendingApplications();
    var target := FindTarget(pending, UnclaimedOfChannel(c.value));
    if target.None? {
      err := h.Send(env, chat, NothingToClaim, []);
      return;
    }
    err := HandleClaimTarget(h, env, m, target.value);
  }

  /** The part of `HandleClaim` after the search: user state, confirmation, or claim, verification and notices. */
  method HandleClaimTarget(h: Handler, env: Env, m: Message, app: ChannelApplication) returns (err: Option<Failure>)
    requires h.Valid()
    modifies h, h.db
    ensures h.Valid()
    ensures Step(h.State(), err) == ClaimTarget(old(h.State()), env, h.cfg, m, app)
  {
    var chat := m.chat.id;
    var user := m.fromId;
    var channelName := ChannelName(env, app.channelId);
    if app.reason == "" {
      if m.chat.kind != Private {
        err := h.Send(env, chat, PrivateClaimOnly, [StartLink(h.cfg.botUserName, app.chatId, app.channelId)]);
        return;
      }
      h.db.SetUserState(user, WaitingReasonState(app.chatId, app.channelId));
      err := h.Send(env, chat, AskReason, [GroupName(env, app.chatId), channelName]);
      return;
    }
    if h.cfg.requireRealAccountVerification {
      err := h.Send(env, chat, ClaimConfirmation, [channelName, ConfirmChannelData(app.chatId, app.channelId)]);
      return;
    }
    var claimErr := h.db.UpdateChannelApplicationUser(app.chatId, app.channelId, user);
    if claimErr.Some? {
      var _ := h.Send(env, chat, OperationFailed, []);
      return Some(StoreFailed(claimErr.value));
    }
    h.db.VerifyChannelOwnership(app.chatId, app.channelId, user);
    err := NotifyAdminsAboutApplication(h, env, app.chatId, app.channelId, user, channelName, app.reason);
    if err.Some? {
      return;
    }
    err := h.Send(env, chat, ClaimDone, [channelName]);
    var _ := h.Send(env, app.chatId, ClaimAnnounced, [channelName]);
  }

  /**
   * `HandleApprove` (approve) and `HandleReject` on the handler: the guards,
   * the search loop over the pending rows, then the writes and the notices
   * in the order the code makes them.
   */
  method HandleDecision(h: Handler, env: Env, m: Message, args: string, approve: bool) returns (err: Option<Failure>)
    requires h.Valid()
    modifies h, h.db
    ensures h.Valid()
    ensures Step(h.State(), err) == Decide(old(h.State()), env, h.cfg, m, args, approve)
  {
    var chat := m.chat.id;
    if m.chat.kind != Private {
      return None;
    }
    var isGlobalAdmin := IsGlobalAdmin(h.cfg.adminUsers, m.fromId);
    if !isGlobalAdmin {
      err := h.Send(env, chat, AdminsOnly, []);
      return;
    }
    var c := ScanInt(args);
    if c.None? || c.value == 0 {
      err := h.Send(env, chat, DecisionUsage, []);
      return;
    }
    var pending := h.db.GetPendingApplications();
    var target := FindTarget(pending, VerifiedOfChannel(c.value));
    if target.None? {
      err := h.Send(env, chat, NothingToDecide, []);
      return;
    }
    err := HandleDecisionTarget(h, env, chat, target.value, approve);
  }

  /** The writes of a decision and the two notices to the applicant and the group. */
  method ApplyDecision(h: Handler, env: Env, app: ChannelApplication, approve: bool) returns (err: Option<Failure>)
    requires h.Valid()
    modifies h, h.db
    ensures h.Valid()
    ensures Step(h.State(), err) == Decision(old(h.State()), env, app, approve)
  {
    if approve {
      var addErr := h.db.AddChannelToWhitelist(app.chatId, app.channelId, app.userId, env.nowText, app.reason);
      if addErr.Some? {
        return Some(StoreFailed(addErr.value));
      }
    }
    h.db.UpdateChannelApplicationStatus(app.chatId, app.channelId, app.userId, Decided(approve));
    var name := ChannelName(env, app.channelId);
    var _ := h.Send(env, app.userId, DecisionNotice(approve), [name]);
    var _ := h.Send(env, app.chatId, DecisionNotice(approve), [name]);
    err := None;
  }

  /** The decision on the application found, then the administrator's reply. */
  method HandleDecisionTarget(h: Handler, env: Env, replyTo: Int64, app: ChannelApplication, approve: bool)
    returns (err: Option<Failure>)
    requires h.Valid()
    modifies h, h.db
    ensures h.Valid()
    ensures Step(h.State(), err) == DecideTarget(old(h.State()), env, replyTo, app, approve)
  {
    err := ApplyDecision(h, env, app, approve);
    if err.Some? {
      var _ := h.Send(env, replyTo, OperationFailed, []);
      return;
    }
    err := h.Send(env, replyTo, DecisionNotice(approve), [ChannelName(env, app.channelId)]);
  }
}
