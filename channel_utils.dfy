/**
 * handlers/channel_utils.go: the channel name shown in messages, and the
 * notice of a claimed application sent to the administrators.
 */
module ChannelUtils {
  import opened Wrappers
  import opened GoText
  import opened Models
  import opened Store
  import opened Telegram
  import opened Effects
  import opened Payloads
  import opened Utils
  import opened Handlers

  // ----------------------------------------------------------- chat names

  /** `getChannelName`: the title `GetChat` returns when it is not empty, else "ID: <id>". */
  function ChannelName(env: Env, channel: Int64): (name: string)
    ensures name != ""
  {
    if channel in env.chats && env.chats[channel] != "" then env.chats[channel]
    else "ID: " + FormatInt(channel)
  }

  /** The name is the fetched title, or else a label from which the id reads back. */
  lemma ChannelNameNamesChannel(env: Env, channel: Int64)
    ensures var name := ChannelName(env, channel);
            (channel in env.chats && env.chats[channel] != "" ==> name == env.chats[channel])
            && (!(channel in env.chats && env.chats[channel] != "") ==>
                  HasPrefix(name, "ID: ") && ParseInt64(name[4..]) == Some(channel))
  {
    var name := ChannelName(env, channel);
    if !(channel in env.chats && env.chats[channel] != "") {
      assert name[4..] == FormatInt(channel);
      ParseFormatInt(channel);
    }
  }

  const UnknownGroup: string := "unknown group"

  /** The group name the handlers show: the fetched title, or a fixed text. */
  function GroupName(env: Env, chat: Int64): string {
    if chat in env.chats && env.chats[chat] != "" then env.chats[chat] else UnknownGroup
  }

  // -------------------------------------------------------- notifications

  /** The ids of the group's administrators that are not bots, in the order `GetChatAdministrators` lists them. */
  function NonBotAdmins(admins: seq<ChatMember>): (r: seq<Int64>)
    ensures forall id :: id in r <==> exists k :: 0 <= k < |admins| && !admins[k].isBot && admins[k].userId == id
  {
    if |admins| == 0 then []
    else
      var init := admins[..|admins| - 1];
      var a := admins[|admins| - 1];
      var rest := NonBotAdmins(init);
      assert forall k :: 0 <= k < |init| ==> init[k] == admins[k];
      if a.isBot then rest else rest + [a.userId]
  }

  /** The configured administrators that no entry of the group's list carries (bot entries included). */
  function UnlistedGlobals(global: seq<Int64>, admins: seq<ChatMember>): (r: seq<Int64>)
    ensures forall id :: id in r <==> id in global && !AdminListed(admins, id)
  {
    if |global| == 0 then []
    else
      var init := global[..|global| - 1];
      var g := global[|global| - 1];
      var rest := UnlistedGlobals(init, admins);
      assert global == init + [g];
      if AdminListed(admins, g) then rest else rest + [g]
  }

  /** Who receives the notice: the non-bot group admins, then the other configured admins. */
  function NotifyRecipients(admins: seq<ChatMember>, global: seq<Int64>): seq<Int64> {
    NonBotAdmins(admins) + UnlistedGlobals(global, admins)
  }

  /** What the notice says that matters: group, channel, reason and the two decision buttons. */
  function AdminRequestData(groupTitle: string, channelName: string, reason: string, chat: Int64, channel: Int64): seq<string> {
    [groupTitle, channelName, reason, ApproveData(chat, channel), RejectData(chat, channel)]
  }

  /** One notice to each recipient, in order. */
  function SentAll(recipients: seq<Int64>, data: seq<string>): (r: seq<Event>)
    ensures |r| == |recipients|
    ensures forall k :: 0 <= k < |r| ==> r[k] == Sent(recipients[k], AdminRequest, data)
  {
    if |recipients| == 0 then []
    else SentAll(recipients[..|recipients| - 1], data) + [Sent(recipients[|recipients| - 1], AdminRequest, data)]
  }

  /**
   * `notifyAdminsAboutApplication`: the administrator list, the applicant and
   * the group are looked up first and any failure returns before anything
   * is sent; then every recipient is sent the notice and send errors are
   * ignored.
   */
  function NotifyAdmins(s: HState, env: Env, cfg: Config, chat: Int64, channel: Int64, user: Int64,
                        channelName: string, reason: string): Step
  {
    if chat !in env.admins || user !in env.chats || chat !in env.chats then Fail(s, LookupFailed)
    else
      var recipients := NotifyRecipients(env.admins[chat], cfg.adminUsers);
      var data := AdminRequestData(env.chats[chat], channelName, reason, chat, channel);
      Done(s.(trace := s.trace + SentAll(recipients, data)))
  }

  /**
   * A lookup failure sends nothing; otherwise exactly one notice per
   * recipient is sent, nothing else changes, and each notice carries buttons
   * that the callback parser reads back as an approval and a rejection of
   * this chat and channel.
   */
  lemma NotifyAdminsEffects(s: HState, env: Env, cfg: Config, chat: Int64, channel: Int64, user: Int64,
                            channelName: string, reason: string)
    ensures var r := NotifyAdmins(s, env, cfg, chat, channel, user, channelName, reason);
            (r.err.Some? <==> chat !in env.admins || user !in env.chats || chat !in env.chats)
            && (r.err.Some? ==> r.s == s && r.err == Some(LookupFailed))
            && OnlyRequests(s, r.s)
            && (r.err.None? ==>
                  var sent := Requests(s, r.s);
                  var recipients := NotifyRecipients(env.admins[chat], cfg.adminUsers);
                  |sent| == |recipients|
                  && forall k :: 0 <= k < |sent| ==>
                       sent[k].Sent? && sent[k].to == recipients[k] && sent[k].kind == AdminRequest
                       && ParseCallback(sent[k].data[3]) == Decision(true, Pair(chat, channel))
                       && ParseCallback(sent[k].data[4]) == Decision(false, Pair(chat, channel)))
  {
    DecisionDataRoundTrip(true, chat, channel);
    DecisionDataRoundTrip(false, chat, channel);
    var r := NotifyAdmins(s, env, cfg, chat, channel, user, channelName, reason);
    if r.err.None? {
      assert Requests(s, r.s) == SentAll(NotifyRecipients(env.admins[chat], cfg.adminUsers),
                                         AdminRequestData(env.chats[chat], channelName, reason, chat, channel));
    }
  }

  /**
   * Who is notified: a non-bot group administrator, or a configured
   * administrator whom the group's list does not carry at all, so that a
   * configured administrator listed as a bot entry gets nothing.
   */
  lemma NotifyRecipientsIff(admins: seq<ChatMember>, global: seq<Int64>, id: Int64)
    ensures id in NotifyRecipients(admins, global)
            <==> (exists k :: 0 <= k < |admins| && !admins[k].isBot && admins[k].userId == id)
                 || (id in global && !AdminListed(admins, id))
  {
  }

  predicate DistinctIds(ids: seq<Int64>) {
    forall i, j | 0 <= i < j < |ids| :: ids[i] != ids[j]
  }

  predicate DistinctMembers(admins: seq<ChatMember>) {
    forall i, j | 0 <= i < j < |admins| :: admins[i].userId != admins[j].userId
  }

  lemma {:induction false} NonBotAdminsDistinct(admins: seq<ChatMember>)
    requires DistinctMembers(admins)
    ensures DistinctIds(NonBotAdmins(admins))
  {
    if |admins| > 0 {
      var init := admins[..|admins| - 1];
      var a := admins[|admins| - 1];
      assert DistinctMembers(init) by {
        forall i, j | 0 <= i < j < |init| ensures init[i].userId != init[j].userId {
          assert init[i] == admins[i] && init[j] == admins[j];
        }
      }
      NonBotAdminsDistinct(init);
      assert a.userId !in NonBotAdmins(init) by {
        forall k | 0 <= k < |init| ensures init[k].userId != a.userId {
          assert init[k] == admins[k];
        }
      }
    }
  }

  lemma {:induction false} UnlistedGlobalsDistinct(global: seq<Int64>, admins: seq<ChatMember>)
    requires DistinctIds(global)
    ensures DistinctIds(UnlistedGlobals(global, admins))
  {
    if |global| > 0 {
      var init := global[..|global| - 1];
      var g := global[|global| - 1];
      assert DistinctIds(init) by {
        forall i, j | 0 <= i < j < |init| ensures init[i] != init[j] {
          assert init[i] == global[i] && init[j] == global[j];
        }
      }
      UnlistedGlobalsDistinct(init, admins);
      assert g !in init by {
        forall k | 0 <= k < |init| ensures init[k] != g {
          assert init[k] == global[k];
        }
      }
    }
  }

  /**
   * Nobody is notified twice when the group lists each user once and the
   * configuration names each administrator once: a configured administrator
   * who is also a group administrator is not sent a second notice.
   */
  lemma RecipientsDistinct(admins: seq<ChatMember>, global: seq<Int64>)
    requires DistinctMembers(admins) && DistinctIds(global)
    ensures DistinctIds(NotifyRecipients(admins, global))
  {
    var a := NonBotAdmins(admins);
    var b := UnlistedGlobals(global, admins);
    NonBotAdminsDistinct(admins);
    UnlistedGlobalsDistinct(global, admins);
    var r := a + b;
    forall i, j | 0 <= i < j < |r| ensures r[i] != r[j] {
      if j < |a| {
        assert r[i] == a[i] && r[j] == a[j];
      } else if i >= |a| {
        assert r[i] == b[i - |a|] && r[j] == b[j - |a|];
      } else {
        assert r[i] == a[i] && r[j] == b[j - |a|];
        assert a[i] in a && b[j - |a|] in b;
        var k :| 0 <= k < |admins| && !admins[k].isBot && admins[k].userId == a[i];
        assert AdminListed(admins, a[i]);
      }
    }
  }
  // ------------------------------------------------------------ in place

  lemma SentAllSnoc(recipients: seq<Int64>, id: Int64, data: seq<string>)
    ensures SentAll(recipients + [id], data) == SentAll(recipients, data) + [Sent(id, AdminRequest, data)]
  {
    assert (recipients + [id])[..|recipients|] == recipients;
  }

  lemma SentAllConcat(a: seq<Int64>, b: seq<Int64>, data: seq<string>)
    ensures SentAll(a + b, data) == SentAll(a, data) + SentAll(b, data)
  {
  }

  /** The first loop: every administrator of the group that is not a bot, in order. */
  method NotifyGroupAdmins(h: Handler, env: Env, admins: seq<ChatMember>, data: seq<string>)
    modifies h`trace
    ensures h.trace == old(h.trace) + SentAll(NonBotAdmins(admins), data)
  {
    var i := 0;
    ghost var sent: seq<Int64> := [];
    while i < |admins|
      invariant 0 <= i <= |admins|
      invariant sent == NonBotAdmins(admins[..i])
      invariant h.trace == old(h.trace) + SentAll(sent, data)
    {
      NonBotAdminsSnoc(admins, i);
      if !admins[i].isBot {
        var _ := h.Send(env, admins[i].userId, AdminRequest, data);
        SentAllSnoc(sent, admins[i].userId, data);
        sent := sent + [admins[i].userId];
      }
      i := i + 1;
    }
    assert admins[..i] == admins;
  }

  /** The inner scan: whether the group's list carries the user. */
  method AlreadyNotified(admins: seq<ChatMember>, adminId: Int64) returns (b: bool)
    ensures b <==> AdminListed(admins, adminId)
  {
    var k := 0;
    while k < |admins|
      invariant 0 <= k <= |admins|
      invariant forall l :: 0 <= l < k ==> admins[l].userId != adminId
    {
      if admins[k].userId == adminId {
        return true;
      }
      k := k + 1;
    }
    return false;
  }

  lemma UnlistedGlobalsSnoc(global: seq<Int64>, j: nat, admins: seq<ChatMember>)
    requires j < |global|
    ensures UnlistedGlobals(global[..j + 1], admins)
            == UnlistedGlobals(global[..j], admins) + (if AdminListed(admins, global[j]) then [] else [global[j]])
  {
    assert global[..j + 1][..j] == global[..j];
  }

  lemma NonBotAdminsSnoc(admins: seq<ChatMember>, i: nat)
    requires i < |admins|
    ensures NonBotAdmins(admins[..i + 1])
            == NonBotAdmins(admins[..i]) + (if admins[i].isBot then [] else [admins[i].userId])
  {
    assert admins[..i + 1][..i] == admins[..i];
  }

  /** The second loop: every configured administrator the group's list does not carry, in order. */
  method NotifyGlobalAdmins(h: Handler, env: Env, admins: seq<ChatMember>, global: seq<Int64>, data: seq<string>)
    modifies h`trace
    ensures h.trace == old(h.trace) + SentAll(UnlistedGlobals(global, admins), data)
  {
    var j := 0;
    ghost var sent: seq<Int64> := [];
    while j < |global|
      invariant 0 <= j <= |global|
      invariant sent == UnlistedGlobals(global[..j], admins)
      invariant h.trace == old(h.trace) + SentAll(sent, data)
    {
      var adminId := global[j];
      var alreadyNotified := AlreadyNotified(admins, adminId);
      UnlistedGlobalsSnoc(global, j, admins);
      if !alreadyNotified {
        var _ := h.Send(env, adminId, AdminRequest, data);
        SentAllSnoc(sent, adminId, data);
        sent := sent + [adminId];
      }
      j := j + 1;
    }
    assert global[..j] == global;
  }

  /** Both loops: the notice goes to every recipient, in order. */
  method SendNotices(h: Handler, env: Env, admins: seq<ChatMember>, global: seq<Int64>, data: seq<string>)
    modifies h`trace
    ensures h.trace == old(h.trace) + SentAll(NotifyRecipients(admins, global), data)
  {
    ghost var t0 := h.trace;
    ghost var first := SentAll(NonBotAdmins(admins), data);
    ghost var second := SentAll(UnlistedGlobals(global, admins), data);
    SentAllConcat(NonBotAdmins(admins), UnlistedGlobals(global, admins), data);
    NotifyGroupAdmins(h, env, admins, data);
    NotifyGlobalAdmins(h, env, admins, global, data);
    SeqConcatAssoc(t0, first, second);
  }

  lemma SeqConcatAssoc<T>(a: seq<T>, b: seq<T>, c: seq<T>)
    ensures a + b + c == a + (b + c)
  {
  }

  lemma NotifyAdminsSends(s: HState, env: Env, cfg: Config, chat: Int64, channel: Int64, user: Int64,
                          channelName: string, reason: string)
    requires chat in env.admins && user in env.chats && chat in env.chats
    ensures NotifyAdmins(s, env, cfg, chat, channel, user, channelName, reason)
            == Done(s.(trace := s.trace + SentAll(NotifyRecipients(env.admins[chat], cfg.adminUsers),
                                                   AdminRequestData(env.chats[chat], channelName, reason, chat, channel))))
  {
  }

  /** `notifyAdminsAboutApplication` on the handler: the three lookups, then both loops. */
  method NotifyAdminsAboutApplication(h: Handler, env: Env, chat: Int64, channel: Int64, user: Int64,
                                      channelName: string, reason: string) returns (err: Option<Failure>)
    modifies h`trace
    ensures Step(h.State(), err) == NotifyAdmins(old(h.State()), env, h.cfg, chat, channel, user, channelName, reason)
  {
    if chat !in env.admins || user !in env.chats || chat !in env.chats {
      return Some(LookupFailed);
    }
    var admins := env.admins[chat];
    var data := AdminRequestData(env.chats[chat], channelName, reason, chat, channel);
    ghost var before := h.State();
    SendNotices(h, env, admins, h.cfg.adminUsers, data);
    assert h.db.Snapshot() == before.t;
    NotifyAdminsSends(before, env, h.cfg, chat, channel, user, channelName, reason);
    err := None;
  }
}
