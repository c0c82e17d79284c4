/**
 * What each SQL statement of db/database.go does to the tables, written as
 * functions on the table contents, with the facts the bot relies on proved
 * about them. The `Database` class performs these changes in place.
 */
module Store {
  import opened Wrappers
  import opened GoText
  import opened Models

  /** Every table's rows; sequences keep insertion (rowid) order. */
  datatype Tables = Tables(
    whitelist: seq<WhitelistedChannel>,
    blocked: seq<BlockedMessageInfo>,
    settings: map<Int64, GroupSettings>,
    apps: seq<ChannelApplication>,
    userStates: map<Int64, string>,
    prompts: set<PromptRecord>)

  /** The errors the statements return that the model distinguishes. */
  datatype DbError =
    | ConstraintFailed      // a UNIQUE constraint refused an INSERT
    | ApplicationPending    // CreateChannelApplication: the pair already has a pending application
    | ApplicationClaimed    // UpdateChannelApplicationUser: another user claimed it
    | ApplicationNotFound   // UpdateChannelApplicationUser: no pending application
    | ExecFailed(text: string)

  // -------------------------------------------------------------- whitelist

  predicate WhitelistedAt(wl: seq<WhitelistedChannel>, i: int, chat: Int64, channel: Int64)
    requires 0 <= i < |wl|
  {
    wl[i].chatId == chat && wl[i].channelId == channel
  }

  /** `IsChannelWhitelisted`: some row holds the pair. */
  predicate Whitelisted(wl: seq<WhitelistedChannel>, chat: Int64, channel: Int64) {
    exists i | 0 <= i < |wl| :: WhitelistedAt(wl, i, chat, channel)
  }

  /** The UNIQUE(chat_id, channel_id) constraint of `whitelisted_channels`. */
  predicate WhitelistUnique(wl: seq<WhitelistedChannel>) {
    forall i, j | 0 <= i < j < |wl| :: !(wl[i].chatId == wl[j].chatId && wl[i].channelId == wl[j].channelId)
  }

  /** `RemoveChannelFromWhitelist`: every row of the pair goes, the others stay in order. */
  function WithoutChannel(wl: seq<WhitelistedChannel>, chat: Int64, channel: Int64): (r: seq<WhitelistedChannel>)
    ensures |r| <= |wl|
    ensures forall e :: e in r <==> e in wl && !(e.chatId == chat && e.channelId == channel)
  {
    if |wl| == 0 then []
    else
      var rest := WithoutChannel(wl[1..], chat, channel);
      assert forall e :: e in wl <==> e == wl[0] || e in wl[1..];
      if wl[0].chatId == chat && wl[0].channelId == channel then rest else [wl[0]] + rest
  }

  /** The rows of one group, newest first (`ORDER BY added_at DESC`, taken as reverse insertion order). */
  function ChannelsOf(wl: seq<WhitelistedChannel>, chat: Int64): (r: seq<WhitelistedChannel>)
    ensures forall e :: e in r <==> e in wl && e.chatId == chat
  {
    if |wl| == 0 then []
    else
      var last := wl[|wl| - 1];
      var rest := ChannelsOf(wl[..|wl| - 1], chat);
      assert forall e :: e in wl <==> e == last || e in wl[..|wl| - 1];
      if last.chatId == chat then [last] + rest else rest
  }

  lemma WhitelistedIff(wl: seq<WhitelistedChannel>, chat: Int64, channel: Int64)
    ensures Whitelisted(wl, chat, channel) <==> exists e :: e in wl && e.chatId == chat && e.channelId == channel
  {
    if Whitelisted(wl, chat, channel) {
      var i :| 0 <= i < |wl| && WhitelistedAt(wl, i, chat, channel);
      assert wl[i] in wl;
    }
    if exists e :: e in wl && e.chatId == chat && e.channelId == channel {
      var e :| e in wl && e.chatId == chat && e.channelId == channel;
      var i :| 0 <= i < |wl| && wl[i] == e;
      assert WhitelistedAt(wl, i, chat, channel);
    }
  }

  /** Removing a pair un-whitelists exactly that pair. */
  lemma WithoutChannelWhitelisted(wl: seq<WhitelistedChannel>, chat: Int64, channel: Int64, c: Int64, ch: Int64)
    ensures Whitelisted(WithoutChannel(wl, chat, channel), c, ch)
            <==> Whitelisted(wl, c, ch) && !(c == chat && ch == channel)
  {
    WhitelistedIff(wl, c, ch);
    WhitelistedIff(WithoutChannel(wl, chat, channel), c, ch);
  }

  /** Adding a row for a pair that is not yet present keeps the constraint and whitelists the pair. */
  lemma AppendWhitelisted(wl: seq<WhitelistedChannel>, e: WhitelistedChannel, c: Int64, ch: Int64)
    requires WhitelistUnique(wl) && !Whitelisted(wl, e.chatId, e.channelId)
    ensures WhitelistUnique(wl + [e])
    ensures Whitelisted(wl + [e], c, ch) <==> Whitelisted(wl, c, ch) || (c == e.chatId && ch == e.channelId)
  {
    var r := wl + [e];
    forall i, j | 0 <= i < j < |r|
      ensures !(r[i].chatId == r[j].chatId && r[i].channelId == r[j].channelId)
    {
      if j == |wl| {
        assert !WhitelistedAt(wl, i, e.chatId, e.channelId);
      }
    }
    if Whitelisted(r, c, ch) {
      var i :| 0 <= i < |r| && WhitelistedAt(r, i, c, ch);
      if i < |wl| { assert WhitelistedAt(wl, i, c, ch); }
    }
    if Whitelisted(wl, c, ch) {
      var i :| 0 <= i < |wl| && WhitelistedAt(wl, i, c, ch);
      assert WhitelistedAt(r, i, c, ch);
    }
    if c == e.chatId && ch == e.channelId {
      assert WhitelistedAt(r, |wl|, c, ch);
    }
  }

  lemma {:induction false} WithoutChannelUnique(wl: seq<WhitelistedChannel>, chat: Int64, channel: Int64)
    requires WhitelistUnique(wl)
    ensures WhitelistUnique(WithoutChannel(wl, chat, channel))
  {
    if |wl| > 0 {
      var rest := WithoutChannel(wl[1..], chat, channel);
      assert WhitelistUnique(wl[1..]) by {
        forall i, j | 0 <= i < j < |wl[1..]|
          ensures !(wl[1..][i].chatId == wl[1..][j].chatId && wl[1..][i].channelId == wl[1..][j].channelId)
        {
          assert wl[1..][i] == wl[i + 1] && wl[1..][j] == wl[j + 1];
        }
      }
      WithoutChannelUnique(wl[1..], chat, channel);
      if !(wl[0].chatId == chat && wl[0].channelId == channel) {
        var r := [wl[0]] + rest;
        forall i, j | 0 <= i < j < |r|
          ensures !(r[i].chatId == r[j].chatId && r[i].channelId == r[j].channelId)
        {
          if i == 0 {
            assert r[j] in rest;
            assert r[j] in wl[1..];
            var k :| 0 <= k < |wl[1..]| && wl[1..][k] == r[j];
            assert wl[k + 1] == r[j];
          } else {
            assert r[i] == rest[i - 1] && r[j] == rest[j - 1];
          }
        }
      }
    }
  }

  // ----------------------------------------------------------- blocked posts

  /** `GetBlockedMessagesStats`: the number of rows of one group. */
  function BlockedCount(blocked: seq<BlockedMessageInfo>, chat: Int64): (n: nat)
    ensures n <= |blocked|
  {
    if |blocked| == 0 then 0
    else BlockedCount(blocked[..|blocked| - 1], chat) + (if blocked[|blocked| - 1].chatId == chat then 1 else 0)
  }

  /** Logging one post raises its own group's count by one and no other group's. */
  lemma BlockedCountAppend(blocked: seq<BlockedMessageInfo>, m: BlockedMessageInfo, chat: Int64)
    ensures BlockedCount(blocked + [m], chat) == BlockedCount(blocked, chat) + (if m.chatId == chat then 1 else 0)
  {
    assert (blocked + [m])[..|blocked|] == blocked;
  }

  // --------------------------------------------------------------- settings

  /** The row that `GetOrCreateGroupSettings` inserts for a group it has not seen. */
  function DefaultSettings(chat: Int64): GroupSettings {
    GroupSettings(chat, true, 0, true)
  }

  /** The settings a group has after `GetOrCreateGroupSettings`. */
  function SettingsOf(settings: map<Int64, GroupSettings>, chat: Int64): GroupSettings {
    if chat in settings then settings[chat] else DefaultSettings(chat)
  }

  /** The table after `GetOrCreateGroupSettings`: a default row is inserted only when none exists. */
  function EnsureSettings(settings: map<Int64, GroupSettings>, chat: Int64): (r: map<Int64, GroupSettings>)
    ensures chat in r && r[chat] == SettingsOf(settings, chat)
    ensures forall k :: k in settings ==> k in r && r[k] == settings[k]
    ensures forall k :: k in r ==> k in settings || k == chat
  {
    if chat in settings then settings else settings[chat := DefaultSettings(chat)]
  }

  /** `UpdateGroupSettings`: an UPDATE keyed by chat id, which changes nothing when the row is missing. */
  function UpdatedSettings(settings: map<Int64, GroupSettings>, s: GroupSettings): map<Int64, GroupSettings> {
    if s.chatId in settings then settings[s.chatId := s] else settings
  }

  predicate SettingsKeyed(settings: map<Int64, GroupSettings>) {
    forall k :: k in settings ==> settings[k].chatId == k
  }

  // ----------------------------------------------------------- applications

  predicate IsPair(a: ChannelApplication, chat: Int64, channel: Int64) {
    a.chatId == chat && a.channelId == channel
  }

  predicate IsTriple(a: ChannelApplication, chat: Int64, channel: Int64, user: Int64) {
    a.chatId == chat && a.channelId == channel && a.userId == user
  }

  predicate IsPendingPair(a: ChannelApplication, chat: Int64, channel: Int64) {
    IsPair(a, chat, channel) && a.status == Pending
  }

  /**
   * The invariant that sequential use keeps: a group and channel pair has at
   * most one application row, because a row is inserted only when none exists.
   * It implies the table's own UNIQUE(chat_id, channel_id, user_id).
   */
  predicate ApplicationsUnique(apps: seq<ChannelApplication>) {
    forall i, j | 0 <= i < j < |apps| :: !(apps[i].chatId == apps[j].chatId && apps[i].channelId == apps[j].channelId)
  }

  /** The latest row of a pair (`ORDER BY applied_at DESC LIMIT 1`); under ApplicationsUnique the only one. */
  function LatestRow(apps: seq<ChannelApplication>, chat: Int64, channel: Int64): (r: Option<nat>)
    ensures r.Some? ==> r.value < |apps| && IsPair(apps[r.value], chat, channel)
    ensures r.Some? ==> forall j :: r.value < j < |apps| ==> !IsPair(apps[j], chat, channel)
    ensures r.None? ==> forall j :: 0 <= j < |apps| ==> !IsPair(apps[j], chat, channel)
  {
    if |apps| == 0 then None
    else if IsPair(apps[|apps| - 1], chat, channel) then Some(|apps| - 1)
    else LatestRow(apps[..|apps| - 1], chat, channel)
  }

  /** The latest pending row of a pair (GetPendingChannelApplication, UpdateChannelApplicationUser). */
  function LatestPendingRow(apps: seq<ChannelApplication>, chat: Int64, channel: Int64): (r: Option<nat>)
    ensures r.Some? ==> r.value < |apps| && IsPendingPair(apps[r.value], chat, channel)
    ensures r.Some? ==> forall j :: r.value < j < |apps| ==> !IsPendingPair(apps[j], chat, channel)
    ensures r.None? ==> forall j :: 0 <= j < |apps| ==> !IsPendingPair(apps[j], chat, channel)
  {
    if |apps| == 0 then None
    else if IsPendingPair(apps[|apps| - 1], chat, channel) then Some(|apps| - 1)
    else LatestPendingRow(apps[..|apps| - 1], chat, channel)
  }

  /** `HasPendingApplication`: some pending row holds the pair. */
  predicate HasPendingApplication(apps: seq<ChannelApplication>, chat: Int64, channel: Int64) {
    exists i | 0 <= i < |apps| :: IsPendingPair(apps[i], chat, channel)
  }

  /** `GetPendingChannelApplication`: the latest pending row, or nothing. */
  function PendingApplicationOf(apps: seq<ChannelApplication>, chat: Int64, channel: Int64): (r: Option<ChannelApplication>)
    ensures r.Some? <==> HasPendingApplication(apps, chat, channel)
    ensures r.Some? ==> r.value in apps && IsPendingPair(r.value, chat, channel)
  {
    match LatestPendingRow(apps, chat, channel)
    case Some(i) => Some(apps[i])
    case None => None
  }

  /** `GetChannelApplication`: the row of a (chat, channel, user) triple whatever its status, or nothing. */
  function ApplicationOf(apps: seq<ChannelApplication>, chat: Int64, channel: Int64, user: Int64): (r: Option<ChannelApplication>)
    ensures r.Some? ==> r.value in apps && IsTriple(r.value, chat, channel, user)
    ensures r.None? ==> forall j :: 0 <= j < |apps| ==> !IsTriple(apps[j], chat, channel, user)
  {
    if |apps| == 0 then None
    else if IsTriple(apps[0], chat, channel, user) then Some(apps[0])
    else
      var r := ApplicationOf(apps[1..], chat, channel, user);
      assert forall j :: 1 <= j < |apps| ==> apps[j] == apps[1..][j - 1];
      r
  }

  /** `GetPendingApplications`: every pending row, in table order. */
  function PendingApplications(apps: seq<ChannelApplication>): (r: seq<ChannelApplication>)
    ensures forall a :: a in r <==> a in apps && a.status == Pending
    ensures |r| <= |apps|
  {
    if |apps| == 0 then []
    else
      var last := apps[|apps| - 1];
      var rest := PendingApplications(apps[..|apps| - 1]);
      assert forall a :: a in apps <==> a == last || a in apps[..|apps| - 1];
      if last.status == Pending then rest + [last] else rest
  }

  lemma PendingApplicationsSnoc(apps: seq<ChannelApplication>, i: nat)
    requires i < |apps|
    ensures PendingApplications(apps[..i + 1])
            == PendingApplications(apps[..i]) + (if apps[i].status == Pending then [apps[i]] else [])
  {
    assert apps[..i + 1][..i] == apps[..i];
  }

  /** A row as CreateChannelApplication inserts it: pending, unverified, never prompted. */
  function NewApplication(chat: Int64, channel: Int64, user: Int64, reason: string): ChannelApplication {
    ChannelApplication(chat, channel, user, reason, Pending, false, None, false)
  }

  /** The table after a statement that may fail, and the error it returned. */
  datatype Written = Written(apps: seq<ChannelApplication>, err: Option<DbError>)

  /**
   * `CreateChannelApplication`: refused while the pair's latest row is pending;
   * otherwise that row is reopened in place, or a new row is inserted when the
   * pair has none.
   */
  function OpenApplication(apps: seq<ChannelApplication>, chat: Int64, channel: Int64, user: Int64, reason: string): Written {
    match LatestRow(apps, chat, channel)
    case Some(i) =>
      if apps[i].status == Pending then Written(apps, Some(ApplicationPending))
      else Written(apps[i := apps[i].(userId := user, reason := reason, status := Pending, verifiedChannel := false)], None)
    case None => Written(apps + [NewApplication(chat, channel, user, reason)], None)
  }

  /** Some pending row of the pair is held by a user other than `user` (the COUNT of UpdateChannelApplicationUser). */
  predicate ClaimedByOther(apps: seq<ChannelApplication>, chat: Int64, channel: Int64, user: Int64) {
    exists i | 0 <= i < |apps| :: IsPendingPair(apps[i], chat, channel) && apps[i].userId != 0 && apps[i].userId != user
  }

  /**
   * `UpdateChannelApplicationUser`: refused when another user holds a pending
   * row of the pair, refused when the pair has no pending row, otherwise the
   * latest pending row takes `user`.
   */
  function ClaimApplication(apps: seq<ChannelApplication>, chat: Int64, channel: Int64, user: Int64): Written {
    if ClaimedByOther(apps, chat, channel, user) then Written(apps, Some(ApplicationClaimed))
    else match LatestPendingRow(apps, chat, channel)
      case None => Written(apps, Some(ApplicationNotFound))
      case Some(i) => Written(apps[i := apps[i].(userId := user)], None)
  }

  /** `UpdateChannelApplicationStatus`: every row of the triple takes the status, whatever it had. */
  function SetStatus(apps: seq<ChannelApplication>, chat: Int64, channel: Int64, user: Int64, status: Status): (r: seq<ChannelApplication>)
    ensures |r| == |apps|
  {
    seq(|apps|, i requires 0 <= i < |apps| =>
      if IsTriple(apps[i], chat, channel, user) then apps[i].(status := status) else apps[i])
  }

  /** `VerifyChannelOwnership`: every row of the triple is marked verified, whatever its status. */
  function MarkVerified(apps: seq<ChannelApplication>, chat: Int64, channel: Int64, user: Int64): (r: seq<ChannelApplication>)
    ensures |r| == |apps|
  {
    seq(|apps|, i requires 0 <= i < |apps| =>
      if IsTriple(apps[i], chat, channel, user) then apps[i].(verifiedChannel := true) else apps[i])
  }

  /** `UpdateChannelApplicationReason`: only the pending rows of the pair take the reason. */
  function SetReason(apps: seq<ChannelApplication>, chat: Int64, channel: Int64, reason: string): (r: seq<ChannelApplication>)
    ensures |r| == |apps|
  {
    seq(|apps|, i requires 0 <= i < |apps| =>
      if IsPendingPair(apps[i], chat, channel) then apps[i].(reason := reason) else apps[i])
  }

  /** `UpdateLastPromptDate`: the pending rows of the pair record today and clear their flag. */
  function MarkPromptDate(apps: seq<ChannelApplication>, chat: Int64, channel: Int64, today: Day): (r: seq<ChannelApplication>)
    ensures |r| == |apps|
  {
    seq(|apps|, i requires 0 <= i < |apps| =>
      if IsPendingPair(apps[i], chat, channel) then apps[i].(promptedToday := false, lastPromptDate := Some(today)) else apps[i])
  }

  /** The second statement of `ResetDailyPrompts`: every pending row clears its flag. */
  function ClearPromptedToday(apps: seq<ChannelApplication>): (r: seq<ChannelApplication>)
    ensures |r| == |apps|
  {
    seq(|apps|, i requires 0 <= i < |apps| =>
      if apps[i].status == Pending then apps[i].(promptedToday := false) else apps[i])
  }

  /** `GetChannelApplicationByDate`: some row of the pair was last prompted on `date`. */
  predicate PromptedOn(apps: seq<ChannelApplication>, chat: Int64, channel: Int64, date: Day) {
    exists i | 0 <= i < |apps| :: IsPair(apps[i], chat, channel) && apps[i].lastPromptDate == Some(date)
  }

  /** Rows keep their group and channel under every in-place update. */
  predicate SameKeys(a: seq<ChannelApplication>, b: seq<ChannelApplication>) {
    |a| == |b| && forall i | 0 <= i < |a| :: a[i].chatId == b[i].chatId && a[i].channelId == b[i].channelId
  }

  lemma SameKeysUnique(a: seq<ChannelApplication>, b: seq<ChannelApplication>)
    requires SameKeys(a, b) && ApplicationsUnique(a)
    ensures ApplicationsUnique(b)
  {
    forall i, j | 0 <= i < j < |b|
      ensures !(b[i].chatId == b[j].chatId && b[i].channelId == b[j].channelId)
    {
      assert a[i].chatId == b[i].chatId && a[j].chatId == b[j].chatId;
    }
  }

  // ------------------------------------------------------------ user states

  /** `GetUserState`: the stored state, or "" when the user has none. */
  function StateOf(states: map<Int64, string>, user: Int64): string {
    if user in states then states[user] else ""
  }

  // ---------------------------------------------------------- daily prompts

  /** `HasChannelDailyPrompt` for `today`. */
  predicate HasDailyPrompt(prompts: set<PromptRecord>, chat: Int64, channel: Int64, kind: PromptKind, today: Day) {
    PromptRecord(chat, channel, kind, today) in prompts
  }

  /** `RecordChannelDailyPrompt`: INSERT OR IGNORE of today's record. */
  function RecordDailyPrompt(prompts: set<PromptRecord>, chat: Int64, channel: Int64, kind: PromptKind, today: Day): set<PromptRecord> {
    prompts + {PromptRecord(chat, channel, kind, today)}
  }

  /** The first statement of `ResetDailyPrompts`: records of any other day are deleted. */
  function TodaysPrompts(prompts: set<PromptRecord>, today: Day): set<PromptRecord> {
    set r | r in prompts && r.date == today
  }

  // -------------------------------------------------------------- the whole

  /** The invariant of the tables: both constraints the code relies on, and settings keyed by group. */
  predicate WellFormed(t: Tables) {
    WhitelistUnique(t.whitelist) && ApplicationsUnique(t.apps) && SettingsKeyed(t.settings)
  }

  const EmptyTables: Tables := Tables([], [], map[], [], map[], {})
}
