/**
 * handlers/callback_handlers.go: the button presses. The data of the pressed
 * button selects the branch (Payloads.ParseCallback); each branch is a
 * function from the state before to the state after and the returned error.
 */
module Callbacks {
  import opened Wrappers
  import opened GoText
  import opened Models
  import opened Store
  import opened StoreFacts
  import opened Telegram
  import opened Effects
  import opened Payloads
  import opened Utils
  import opened Search
  import opened ChannelUtils
  import Applications
  import opened Handlers

  /** `HandleCallbackQuery`: a malformed pair is an error; unknown data is ignored. */
  function HandleCallback(s: HState, env: Env, cfg: Config, q: CallbackQuery): Step {
    match ParseCallback(q.data)
    case ClaimButton(p) => if p.Pair? then ClaimPressed(s, env, cfg, q, p.first, p.second) else Fail(s, InvalidData)
    case ConfirmClaim(p) => if p.Pair? then ConfirmClaimPressed(s, env, cfg, q, p.first, p.second) else Fail(s, InvalidData)
    case CancelClaim => CancelPressed(s, env, q)
    case ConfirmChannel(p) => if p.Pair? then ConfirmChannelPressed(s, env, cfg, q, p.first, p.second) else Fail(s, InvalidData)
    case Decision(approve, p) => if p.Pair? then DecisionPressed(s, env, cfg, q, p.first, p.second, approve) else Fail(s, InvalidData)
    case Unrecognised => Done(s)
  }

  // ------------------------------------------------------------ claim button

  /**
   * The claim button: the first pending application of the pair that nobody
   * holds; without a reason the user is sent the private claim link; else
   * the message is turned into a confirmation, whose button is
   * `confirm_claim` in a group and `confirm_channel` elsewhere.
   */
  function ClaimPressed(s: HState, env: Env, cfg: Config, q: CallbackQuery, chat: Int64, channel: Int64): Step {
    match FirstMatch(PendingApplications(s.t.apps), UnclaimedOfPair(chat, channel))
    case None => Done(Answer(s, env, NothingToClaim).s)
    case Some(app) =>
      if app.reason == "" then
        var a := Answer(s, env, PrivateClaimOnly);
        Done(Send(a.s, env, q.chat.id, PrivateClaimOnly, [StartLink(cfg.botUserName, chat, channel)]).s)
      else if IsGroupChat(q.chat.kind) then
        var e := Edit(s, env, q.chat.id, q.messageId, ClaimConfirmation,
                      [ChannelName(env, channel), ConfirmClaimData(chat, channel), CancelClaimData]);
        if e.err.Some? then e else Answer(e.s, env, ClaimConfirmation)
      else
        Edit(s, env, q.chat.id, q.messageId, ClaimConfirmation,
             [ChannelName(env, channel), ConfirmChannelData(chat, channel), CancelClaimData])
  }

  /** Pressing a claim button writes nothing; with no pending application it only answers so. */
  lemma ClaimPressedWritesNothing(s: HState, env: Env, cfg: Config, q: CallbackQuery, chat: Int64, channel: Int64)
    requires WellFormed(s.t)
    ensures var r := ClaimPressed(s, env, cfg, q, chat, channel);
            OnlyRequests(s, r.s)
            && (PendingApplicationOf(s.t.apps, chat, channel).None? ==> Requests(s, r.s) == [Answered(NothingToClaim)])
  {
    ClaimPressedOnlyRequests(s, env, cfg, q, chat, channel);
    if PendingApplicationOf(s.t.apps, chat, channel).None? {
      PairSearchFindsPendingRow(s.t.apps, chat, channel, false);
    }
  }

  lemma ClaimPressedOnlyRequests(s: HState, env: Env, cfg: Config, q: CallbackQuery, chat: Int64, channel: Int64)
    ensures var r := ClaimPressed(s, env, cfg, q, chat, channel);
            r.s.t == s.t && r.s.queue == s.queue && TraceExtends(s, r.s)
  {
  }

  /**
   * When the pair's pending application is unclaimed and has a reason, the
   * message is edited first, and the buttons it offers read back as a
   * confirmation of this pair (of the kind the chat calls for) and as a
   * cancellation.
   */
  lemma ClaimPressedOffersButtons(s: HState, env: Env, cfg: Config, q: CallbackQuery, chat: Int64, channel: Int64)
    requires WellFormed(s.t)
    requires var p := PendingApplicationOf(s.t.apps, chat, channel);
             p.Some? && p.value.userId == 0 && p.value.reason != ""
    ensures var req := Requests(s, ClaimPressed(s, env, cfg, q, chat, channel).s);
            |req| >= 1 && req[0].Edited? && |req[0].data| == 3
            && ParseCallback(req[0].data[1])
               == (if IsGroupChat(q.chat.kind) then ConfirmClaim(Pair(chat, channel)) else ConfirmChannel(Pair(chat, channel)))
            && ParseCallback(req[0].data[2]) == CancelClaim
  {
    PairSearchFindsPendingRow(s.t.apps, chat, channel, false);
    var confirm := if IsGroupChat(q.chat.kind) then ConfirmClaimData(chat, channel) else ConfirmChannelData(chat, channel);
    ClaimPressedEdits(s, env, cfg, q, chat, channel, confirm);
    if IsGroupChat(q.chat.kind) {
      ConfirmClaimDataRoundTrip(chat, channel);
    } else {
      ConfirmChannelDataRoundTrip(chat, channel);
    }
    CancelClaimRoundTrip();
  }

  lemma ClaimPressedEdits(s: HState, env: Env, cfg: Config, q: CallbackQuery, chat: Int64, channel: Int64, confirm: string)
    requires var found := FirstMatch(PendingApplications(s.t.apps), UnclaimedOfPair(chat, channel));
             found.Some? && found.value.reason != ""
    requires confirm == if IsGroupChat(q.chat.kind) then ConfirmClaimData(chat, channel) else ConfirmChannelData(chat, channel)
    ensures var req := Requests(s, ClaimPressed(s, env, cfg, q, chat, channel).s);
            |req| >= 1 && req[0] == Edited(q.chat.id, q.messageId, ClaimConfirmation, [ChannelName(env, channel), confirm, CancelClaimData])
  {
  }

  // ------------------------------------------------------- confirming a claim

  /** `GetChannelApplication`'s reason: a missing row reads as an empty application. */
  function ReasonOf(apps: seq<ChannelApplication>, chat: Int64, channel: Int64, user: Int64): string {
    match ApplicationOf(apps, chat, channel, user)
    case Some(a) => a.reason
    case None => ""
  }

  /**
   * What both confirmation buttons do first: claim the pair's pending
   * application for the presser, verify it, and notify the administrators
   * with the application's reason.
   */
  function TakeClaim(s: HState, env: Env, cfg: Config, chat: Int64, channel: Int64, user: Int64): Step {
    var w := ClaimApplication(s.t.apps, chat, channel, user);
    if w.err.Some? then Fail(s, StoreFailed(w.err.value))
    else
      var verified := MarkVerified(w.apps, chat, channel, user);
      NotifyAdmins(s.(t := s.t.(apps := verified)), env, cfg, chat, channel, user,
                   ChannelName(env, channel), ReasonOf(verified, chat, channel, user))
  }

  /**
   * A refused claim changes nothing; an accepted one leaves the pair's
   * pending application held by the presser and verified, changes no other
   * table, keeps the tables well formed, and fails only when a lookup of
   * the notification fails.
   */
  lemma TakeClaimEffects(s: HState, env: Env, cfg: Config, chat: Int64, channel: Int64, user: Int64)
    requires WellFormed(s.t)
    ensures var c := TakeClaim(s, env, cfg, chat, channel, user);
            var w := ClaimApplication(s.t.apps, chat, channel, user);
            var p := PendingApplicationOf(s.t.apps, chat, channel);
            WellFormed(c.s.t) && c.s.queue == s.queue && TraceExtends(s, c.s)
            && (w.err.Some? ==> c == Fail(s, StoreFailed(w.err.value)))
            && (w.err == Some(ApplicationClaimed) <==> p.Some? && p.value.userId != 0 && p.value.userId != user)
            && (w.err == Some(ApplicationNotFound) <==> p.None?)
            && (w.err.None? ==>
                  c.s.t == s.t.(apps := MarkVerified(w.apps, chat, channel, user))
                  && PendingApplicationOf(c.s.t.apps, chat, channel) == Some(p.value.(userId := user, verifiedChannel := true))
                  && (c.err.Some? <==> chat !in env.admins || user !in env.chats || chat !in env.chats))
  {
    ClaimOutcome(s.t.apps, chat, channel, user);
    var w := ClaimApplication(s.t.apps, chat, channel, user);
    if w.err.None? {
      ClaimThenVerify(s.t.apps, chat, channel, user);
    }
  }

  /** `confirm_claim` (the group's confirmation): a refused claim is reported in the answer and the message. */
  function ConfirmClaimPressed(s: HState, env: Env, cfg: Config, q: CallbackQuery, chat: Int64, channel: Int64): Step {
    var c := TakeClaim(s, env, cfg, chat, channel, q.fromId);
    if c.err.Some? && c.err.value.StoreFailed? then
      var a := Answer(c.s, env, OperationFailed);
      Step(Edit(a.s, env, q.chat.id, q.messageId, OperationFailed, []).s, c.err)
    else if c.err.Some? then Step(Answer(c.s, env, OperationFailed).s, c.err)
    else
      var a := Answer(c.s, env, ClaimDone);
      if a.err.Some? then a
      else Edit(a.s, env, q.chat.id, q.messageId, ClaimDone, [GroupName(env, chat), ChannelName(env, channel)])
  }

  /** `confirm_channel` (the private confirmation): a refused claim is reported in the answer only. */
  function ConfirmChannelPressed(s: HState, env: Env, cfg: Config, q: CallbackQuery, chat: Int64, channel: Int64): Step {
    var c := TakeClaim(s, env, cfg, chat, channel, q.fromId);
    if c.err.Some? then Step(Answer(c.s, env, OperationFailed).s, c.err)
    else
      var a := Answer(c.s, env, ClaimDone);
      if a.err.Some? then a
      else Edit(a.s, env, q.chat.id, q.messageId, ClaimDone, [ChannelName(env, channel)])
  }

  /**
   * Both confirmations write exactly what the claim writes, and succeed
   * exactly when the claim is accepted, the notification's lookups succeed,
   * and the answer and the edit go through.
   */
  lemma ConfirmationsWriteTheClaim(s: HState, env: Env, cfg: Config, q: CallbackQuery, chat: Int64, channel: Int64, group: bool)
    requires WellFormed(s.t)
    ensures var c := TakeClaim(s, env, cfg, chat, channel, q.fromId);
            var r := if group then ConfirmClaimPressed(s, env, cfg, q, chat, channel)
                     else ConfirmChannelPressed(s, env, cfg, q, chat, channel);
            r.s.t == c.s.t && r.s.queue == s.queue && WellFormed(r.s.t)
            && (r.err.None? <==> c.err.None? && env.requestOk && SendOk(env, q.chat.id))
            && (c.err.Some? ==> r.err == c.err)
  {
    TakeClaimEffects(s, env, cfg, chat, channel, q.fromId);
  }

  /**
   * Once one user's confirmation was accepted, another user's confirmation
   * of the same pair is refused with "claimed by another user" and writes
   * nothing.
   */
  lemma SecondClaimRefused(s: HState, env: Env, cfg: Config, q: CallbackQuery, q2: CallbackQuery, chat: Int64, channel: Int64)
    requires WellFormed(s.t)
    requires q.fromId != 0 && q2.fromId != q.fromId
    requires ClaimApplication(s.t.apps, chat, channel, q.fromId).err.None?
    ensures var after := ConfirmClaimPressed(s, env, cfg, q, chat, channel).s;
            var again := ConfirmClaimPressed(after, env, cfg, q2, chat, channel);
            again.s.t == after.t && again.err == Some(StoreFailed(ApplicationClaimed))
  {
    TakeClaimEffects(s, env, cfg, chat, channel, q.fromId);
    var after := ConfirmClaimPressed(s, env, cfg, q, chat, channel).s;
    var p := PendingApplicationOf(s.t.apps, chat, channel).value;
    assert PendingApplicationOf(after.t.apps, chat, channel) == Some(p.(userId := q.fromId, verifiedChannel := true));
    TakeClaimEffects(after, env, cfg, chat, channel, q2.fromId);
  }

  // --------------------------------------------------------------- cancel

  /** `cancel_claim`: the answer, then the message says the claim was cancelled. */
  function CancelPressed(s: HState, env: Env, q: CallbackQuery): Step {
    var a := Answer(s, env, ClaimCancelled);
    if a.err.Some? then a else Edit(a.s, env, q.chat.id, q.messageId, ClaimCancelled, [])
  }

  lemma CancelWritesNothing(s: HState, env: Env, q: CallbackQuery)
    ensures var r := CancelPressed(s, env, q);
            OnlyRequests(s, r.s)
            && Requests(s, r.s) == [Answered(ClaimCancelled)] + (if env.requestOk then [Edited(q.chat.id, q.messageId, ClaimCancelled, [])] else [])
  {
  }

  // ---------------------------------------------------- approve and reject

  /**
   * The decision buttons: a presser who is not a configured administrator must
   * be an administrator of the application's group; the target is the first
   * pending, verified application of the pair; after the decision the query
   * is answered (its error is returned) and the message is edited.
   */
  function DecisionPressed(s: HState, env: Env, cfg: Config, q: CallbackQuery, chat: Int64, channel: Int64, approve: bool): Step {
    if q.fromId !in cfg.adminUsers && ChatAdmin(env, chat, q.fromId) != Some(true) then Done(Answer(s, env, AdminsOnly).s)
    else
      match FirstMatch(PendingApplications(s.t.apps), VerifiedOfPair(chat, channel))
      case None => Done(Answer(s, env, NothingToDecide).s)
      case Some(app) =>
        var d := Applications.Decision(s, env, app, approve);
        if d.err.Some? then Step(Answer(d.s, env, OperationFailed).s, d.err)
        else
          var name := ChannelName(env, channel);
          var a := Answer(d.s, env, Applications.DecisionNotice(approve));
          Step(Edit(a.s, env, q.chat.id, q.messageId, Applications.DecisionNotice(approve), [name]).s, a.err)
  }

  /** A presser who is neither a configured administrator nor an administrator of the group changes nothing. */
  lemma DecisionNeedsAdmin(s: HState, env: Env, cfg: Config, q: CallbackQuery, chat: Int64, channel: Int64, approve: bool)
    requires q.fromId !in cfg.adminUsers
    requires chat !in env.admins || !AdminListed(env.admins[chat], q.fromId)
    ensures var r := DecisionPressed(s, env, cfg, q, chat, channel, approve);
            OnlyRequests(s, r.s) && Requests(s, r.s) == [Answered(AdminsOnly)] && r.err.None?
  {
  }

  /**
   * A permitted decision button decides the pair's pending application when
   * it is verified and does nothing otherwise; in the first case the pair
   * is left without a pending application unless an approval found the
   * channel already whitelisted, and the tables stay well formed.
   */
  lemma DecisionPressedEffects(s: HState, env: Env, cfg: Config, q: CallbackQuery, chat: Int64, channel: Int64, approve: bool)
    requires WellFormed(s.t)
    requires q.fromId in cfg.adminUsers || ChatAdmin(env, chat, q.fromId) == Some(true)
    ensures var r := DecisionPressed(s, env, cfg, q, chat, channel, approve);
            var p := PendingApplicationOf(s.t.apps, chat, channel);
            WellFormed(r.s.t) && r.s.queue == s.queue
            && (!(p.Some? && p.value.verifiedChannel) ==> OnlyRequests(s, r.s) && r.err.None?)
            && (p.Some? && p.value.verifiedChannel ==>
                  r.s.t == Applications.Decision(s, env, p.value, approve).s.t
                  && (!(approve && Whitelisted(s.t.whitelist, chat, channel)) ==> !HasPendingApplication(r.s.t.apps, chat, channel)))
  {
    PairSearchFindsPendingRow(s.t.apps, chat, channel, true);
    var p := PendingApplicationOf(s.t.apps, chat, channel);
    if p.Some? && p.value.verifiedChannel {
      Applications.DecisionEffects(s, env, p.value, approve);
    }
  }

  // ---------------------------------------------------------------- as a whole

  /** Data that does not parse writes nothing and returns an error; unknown data does nothing at all. */
  lemma MalformedCallbackIgnored(s: HState, env: Env, cfg: Config, q: CallbackQuery)
    ensures var c := ParseCallback(q.data);
            (c.ClaimButton? || c.ConfirmClaim? || c.ConfirmChannel? || c.Decision?) && !c.parse.Pair? ==>
              HandleCallback(s, env, cfg, q) == Fail(s, InvalidData)
    ensures ParseCallback(q.data).Unrecognised? ==> HandleCallback(s, env, cfg, q) == Done(s)
  {
  }

  /** No button press breaks the tables' invariant, and none touches the queue of blocked posts. */
  lemma CallbackKeepsWellFormed(s: HState, env: Env, cfg: Config, q: CallbackQuery)
    requires WellFormed(s.t)
    ensures WellFormed(HandleCallback(s, env, cfg, q).s.t)
    ensures HandleCallback(s, env, cfg, q).s.queue == s.queue
  {
    match ParseCallback(q.data)
    case ClaimButton(p) =>
      if p.Pair? { ClaimPressedWritesNothing(s, env, cfg, q, p.first, p.second); }
    case ConfirmClaim(p) =>
      if p.Pair? { ConfirmationsWriteTheClaim(s, env, cfg, q, p.first, p.second, true); }
    case CancelClaim =>
    case ConfirmChannel(p) =>
      if p.Pair? { ConfirmationsWriteTheClaim(s, env, cfg, q, p.first, p.second, false); }
    case Decision(approve, p) =>
      if p.Pair? {
        if q.fromId in cfg.adminUsers || ChatAdmin(env, p.first, q.fromId) == Some(true) {
          DecisionPressedEffects(s, env, cfg, q, p.first, p.second, approve);
        }
      }
    case Unrecognised =>
  }

  // ------------------------------------------------------------ in place

  /** `HandleCallbackQuery` on the handler: the data selects the branch. */
  method HandleCallbackQuery(h: Handler, env: Env, q: CallbackQuery) returns (err: Option<Failure>)
    requires h.Valid()
    modifies h, h.db
    ensures h.Valid()
    ensures Step(h.State(), err) == HandleCallback(old(h.State()), env, h.cfg, q)
  {
    match ParseCallback(q.data)
    case ClaimButton(p) =>
      if !p.Pair? {
        return Some(InvalidData);
      }
      err := HandleClaimButton(h, env, q, p.first, p.second);
    case ConfirmClaim(p) =>
      if !p.Pair? {
        return Some(InvalidData);
      }
      err := HandleConfirmClaim(h, env, q, p.first, p.second);
    case CancelClaim =>
      err := HandleCancelClaim(h, env, q);
    case ConfirmChannel(p) =>
      if !p.Pair? {
        return Some(InvalidData);
      }
      err := HandleConfirmChannel(h, env, q, p.first, p.second);
    case Decision(approve, p) =>
      if !p.Pair? {
        return Some(InvalidData);
      }
      err := HandleDecisionButton(h, env, q, p.first, p.second, approve);
    case Unrecognised =>
      err := None;
  }

  /** The `claim:` branch: the search loop, then the private link or the confirmation. */
  method HandleClaimButton(h: Handler, env: Env, q: CallbackQuery, chat: Int64, channel: Int64) returns (err: Option<Failure>)
    modifies h`trace
    ensures Step(h.State(), err) == ClaimPressed(old(h.State()), env, h.cfg, q, chat, channel)
  {
    var pending := h.db.GetPendingApplications();
    var target := FindTarget(pending, UnclaimedOfPair(chat, channel));
    if target.None? {
      var _ := h.Answer(env, NothingToClaim);
      return None;
    }
    var app := target.value;
    if app.reason == "" {
      var _ := h.Answer(env, PrivateClaimOnly);
      var _ := h.Send(env, q.chat.id, PrivateClaimOnly, [StartLink(h.cfg.botUserName, chat, channel)]);
      return None;
    }
    if IsGroupChat(q.chat.kind) {
      err := h.Edit(env, q.chat.id, q.messageId, ClaimConfirmation,
                    [ChannelName(env, channel), ConfirmClaimData(chat, channel), CancelClaimData]);
      if err.Some? {
        return;
      }
      err := h.Answer(env, ClaimConfirmation);
      return;
    }
    err := h.Edit(env, q.chat.id, q.messageId, ClaimConfirmation,
                  [ChannelName(env, channel), ConfirmChannelData(chat, channel), CancelClaimData]);
  }

  /** The claim both confirmations make: claim, verify, read the reason back, notify the administrators. */
  method TakeClaimOnHandler(h: Handler, env: Env, chat: Int64, channel: Int64, user: Int64) returns (err: Option<Failure>)
    requires h.Valid()
    modifies h, h.db
    ensures h.Valid()
    ensures Step(h.State(), err) == TakeClaim(old(h.State()), env, h.cfg, chat, channel, user)
  {
    var claimErr := h.db.UpdateChannelApplicationUser(chat, channel, user);
    if claimErr.Some? {
      return Some(StoreFailed(claimErr.value));
    }
    h.db.VerifyChannelOwnership(chat, channel, user);
    var app := h.db.GetChannelApplication(chat, channel, user);
    var reason := if app.Some? then app.value.reason else "";
    err := NotifyAdminsAboutApplication(h, env, chat, channel, user, ChannelName(env, channel), reason);
  }

  /** The `confirm_claim:` branch. */
  method HandleConfirmClaim(h: Handler, env: Env, q: CallbackQuery, chat: Int64, channel: Int64) returns (err: Option<Failure>)
    requires h.Valid()
    modifies h, h.db
    ensures h.Valid()
    ensures Step(h.State(), err) == ConfirmClaimPressed(old(h.State()), env, h.cfg, q, chat, channel)
  {
    err := TakeClaimOnHandler(h, env, chat, channel, q.fromId);
    if err.Some? {
      var _ := h.Answer(env, OperationFailed);
      if err.value.StoreFailed? {
        var _ := h.Edit(env, q.chat.id, q.messageId, OperationFailed, []);
      }
      return;
    }
    err := h.Answer(env, ClaimDone);
    if err.Some? {
      return;
    }
    err := h.Edit(env, q.chat.id, q.messageId, ClaimDone, [GroupName(env, chat), ChannelName(env, channel)]);
  }

  /** The `cancel_claim` branch. */
  method HandleCancelClaim(h: Handler, env: Env, q: CallbackQuery) returns (err: Option<Failure>)
    modifies h`trace
    ensures Step(h.State(), err) == CancelPressed(old(h.State()), env, q)
  {
    err := h.Answer(env, ClaimCancelled);
    if err.Some? {
      return;
    }
    err := h.Edit(env, q.chat.id, q.messageId, ClaimCancelled, []);
  }

  /** The `confirm_channel:` branch. */
  method HandleConfirmChannel(h: Handler, env: Env, q: CallbackQuery, chat: Int64, channel: Int64) returns (err: Option<Failure>)
    requires h.Valid()
    modifies h, h.db
    ensures h.Valid()
    ensures Step(h.State(), err) == ConfirmChannelPressed(old(h.State()), env, h.cfg, q, chat, channel)
  {
    err := TakeClaimOnHandler(h, env, chat, channel, q.fromId);
    if err.Some? {
      var _ := h.Answer(env, OperationFailed);
      return;
    }
    err := h.Answer(env, ClaimDone);
    if err.Some? {
      return;
    }
    err := h.Edit(env, q.chat.id, q.messageId, ClaimDone, [ChannelName(env, channel)]);
  }

  /** The `approve:` and `reject:` branch: the permission check, the search loop, the decision, the answer and the edit. */
  method HandleDecisionButton(h: Handler, env: Env, q: CallbackQuery, chat: Int64, channel: Int64, approve: bool)
    returns (err: Option<Failure>)
    requires h.Valid()
    modifies h, h.db
    ensures h.Valid()
    ensures Step(h.State(), err) == DecisionPressed(old(h.State()), env, h.cfg, q, chat, channel, approve)
  {
    var isGlobalAdmin := IsGlobalAdmin(h.cfg.adminUsers, q.fromId);
    if !isGlobalAdmin {
      var isAdmin := IsAdmin(env, chat, q.fromId);
      if isAdmin != Some(true) {
        var _ := h.Answer(env, AdminsOnly);
        return None;
      }
    }
    var pending := h.db.GetPendingApplications();
    var target := FindTarget(pending, VerifiedOfPair(chat, channel));
    if target.None? {
      var _ := h.Answer(env, NothingToDecide);
      return None;
    }
    err := Applications.ApplyDecision(h, env, target.value, approve);
    if err.Some? {
      var _ := h.Answer(env, OperationFailed);
      return;
    }
    err := h.Answer(env, Applications.DecisionNotice(approve));
    var _ := h.Edit(env, q.chat.id, q.messageId, Applications.DecisionNotice(approve), [ChannelName(env, channel)]);
  }
}
