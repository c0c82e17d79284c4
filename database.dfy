/**
 * The bot's SQLite database (db/database.go) as an object whose fields are
 * the tables. Every method performs its statement in place and states the new
 * contents through the table functions of `Store`; the invariant `Valid`
 * holds the UNIQUE constraints the code relies on. Storage I/O errors are not
 * modelled, except where the code branches on them: the scripted INSERT
 * outcomes of `LogBlockedMessage`, the batch statement outcomes and the two
 * statements of `ResetDailyPrompts`.
 */
module Database {
  import opened Wrappers
  import opened GoText
  import opened Models
  import opened Store
  import opened StoreFacts
  import opened Retry

  class DB {
    var whitelist: seq<WhitelistedChannel>
    var blocked: seq<BlockedMessageInfo>
    var settings: map<Int64, GroupSettings>
    var apps: seq<ChannelApplication>
    var userStates: map<Int64, string>
    var prompts: set<PromptRecord>

    /** The contents of all tables. */
    function Snapshot(): Tables
      reads this
    {
      Tables(whitelist, blocked, settings, apps, userStates, prompts)
    }

    predicate Valid()
      reads this
    {
      WellFormed(Snapshot())
    }

    /** A fresh database: `init` creates every table empty. */
    constructor ()
      ensures Snapshot() == EmptyTables && Valid()
    {
      whitelist, blocked, settings, apps, userStates, prompts := [], [], map[], [], map[], {};
    }

    // ------------------------------------------------------------ whitelist

    /** `AddChannelToWhitelist`: the INSERT, refused by UNIQUE(chat_id, channel_id) for a pair already present. */
    method AddChannelToWhitelist(chat: Int64, channel: Int64, addedBy: Int64, addedAt: string, description: string)
      returns (err: Option<DbError>)
      requires Valid()
      modifies this`whitelist
      ensures Valid()
      ensures err.Some? <==> Whitelisted(old(whitelist), chat, channel)
      ensures err.Some? ==> err == Some(ConstraintFailed) && whitelist == old(whitelist)
      ensures err.None? ==> whitelist == old(whitelist) + [WhitelistedChannel(chat, channel, addedBy, addedAt, description)]
    {
      if Whitelisted(whitelist, chat, channel) {
        return Some(ConstraintFailed);
      }
      var row := WhitelistedChannel(chat, channel, addedBy, addedAt, description);
      AppendWhitelisted(whitelist, row, chat, channel);
      whitelist := whitelist + [row];
      err := None;
    }

    /** `RemoveChannelFromWhitelist`: the DELETE of the pair's rows. */
    method RemoveChannelFromWhitelist(chat: Int64, channel: Int64)
      requires Valid()
      modifies this`whitelist
      ensures Valid()
      ensures whitelist == WithoutChannel(old(whitelist), chat, channel)
    {
      WithoutChannelUnique(whitelist, chat, channel);
      whitelist := WithoutChannel(whitelist, chat, channel);
    }

    /** `IsChannelWhitelisted`: a row holds the pair. */
    method IsChannelWhitelisted(chat: Int64, channel: Int64) returns (b: bool)
      ensures b <==> exists e :: e in whitelist && e.chatId == chat && e.channelId == channel
      ensures b == Whitelisted(whitelist, chat, channel)
    {
      WhitelistedIff(whitelist, chat, channel);
      b := Whitelisted(whitelist, chat, channel);
    }

    /** `GetWhitelistedChannels`: the rows of one group, collected row by row, newest first. */
    method GetWhitelistedChannels(chat: Int64) returns (channels: seq<WhitelistedChannel>)
      ensures channels == ChannelsOf(whitelist, chat)
      ensures forall e :: e in channels <==> e in whitelist && e.chatId == chat
    {
      channels := [];
      var i := 0;
      while i < |whitelist|
        invariant 0 <= i <= |whitelist|
        invariant channels == ChannelsOf(whitelist[..i], chat)
      {
        assert whitelist[..i + 1][..i] == whitelist[..i];
        if whitelist[i].chatId == chat {
          channels := [whitelist[i]] + channels;
        }
        i := i + 1;
      }
      assert whitelist[..i] == whitelist;
    }

    // -------------------------------------------------------- blocked posts

    /**
     * `LogBlockedMessage`: the INSERT is attempted as the retry policy says,
     * `script[i]` being the outcome of attempt i; the row is written exactly
     * when an attempt succeeds.
     */
    method LogBlockedMessage(chat: Int64, channel: Int64, messageId: int, text: string, script: seq<ExecResult>)
      returns (report: RetryReport)
      requires |script| >= MaxAttempts
      modifies this`blocked
      ensures report == LogRetry(script)
      ensures blocked == old(blocked) + (if report.err.None? then [BlockedMessageInfo(chat, channel, messageId, text)] else [])
    {
      var backoffs: seq<nat> := [];
      var i := 0;
      while i < MaxAttempts
        invariant 0 <= i <= MaxAttempts
        invariant forall k :: 0 <= k < i ==> Locked(script[k])
        invariant backoffs == LockBackoffs(i)
        invariant blocked == old(blocked)
      {
        var res := script[i];
        if res.ExecOk? {
          blocked := blocked + [BlockedMessageInfo(chat, channel, messageId, text)];
          FirstNotLockedAt(script, i);
          return RetryReport(i + 1, backoffs, None);
        }
        if Contains(res.message, "database is locked") {
          backoffs := backoffs + [100 * ((i + 1) * (i + 1))];
          i := i + 1;
          continue;
        }
        FirstNotLockedAt(script, i);
        return RetryReport(i + 1, backoffs, Some(res.message));
      }
      FirstNotLockedAt(script, MaxAttempts);
      report := RetryReport(MaxAttempts, backoffs, Some(script[MaxAttempts - 1].message));
    }

    /** `GetBlockedMessagesStats`: the COUNT of one group's rows. */
    method GetBlockedMessagesStats(chat: Int64) returns (n: nat)
      ensures n == BlockedCount(blocked, chat) && n <= |blocked|
    {
      n := BlockedCount(blocked, chat);
    }

    /**
     * `LogBlockedMessagesBatch`: the prepared INSERT run for every record in
     * order inside the transaction; it reports failure at the first statement
     * that fails. Nothing is written until the transaction commits; `staged`
     * is what a commit would write.
     */
    method LogBlockedMessagesBatch(messages: array<BlockedMessageInfo>, prepareOk: bool, execOk: seq<bool>)
      returns (success: bool, staged: seq<BlockedMessageInfo>)
      requires |execOk| >= messages.Length
      ensures success <==> prepareOk && forall k :: 0 <= k < messages.Length ==> execOk[k]
      ensures success ==> staged == messages[..]
    {
      staged := [];
      if !prepareOk {
        return false, staged;
      }
      var i := 0;
      while i < messages.Length
        invariant 0 <= i <= messages.Length
        invariant forall k :: 0 <= k < i ==> execOk[k]
        invariant staged == messages[..i]
      {
        if !execOk[i] {
          return false, staged;
        }
        staged := staged + [messages[i]];
        i := i + 1;
      }
      success := true;
    }

    /** `tx.Commit()`: the staged rows are written together, or, when the commit fails, none of them. */
    method CommitBatch(staged: seq<BlockedMessageInfo>, commitOk: bool)
      modifies this`blocked
      ensures blocked == old(blocked) + (if commitOk then staged else [])
    {
      if commitOk {
        blocked := blocked + staged;
      }
    }

    // ------------------------------------------------------------- settings

    /** `GetOrCreateGroupSettings`: the group's row, inserted with the defaults when missing. */
    method GetOrCreateGroupSettings(chat: Int64) returns (g: GroupSettings)
      requires Valid()
      modifies this`settings
      ensures Valid()
      ensures g == SettingsOf(old(settings), chat) && settings == EnsureSettings(old(settings), chat)
      ensures chat !in old(settings) ==> g == GroupSettings(chat, true, 0, true)
    {
      if chat in settings {
        g := settings[chat];
      } else {
        g := DefaultSettings(chat);
        settings := settings[chat := g];
      }
    }

    /** `UpdateGroupSettings`: the UPDATE of the row keyed by `g.chatId`. */
    method UpdateGroupSettings(g: GroupSettings)
      requires Valid()
      modifies this`settings
      ensures Valid()
      ensures settings == UpdatedSettings(old(settings), g)
    {
      if g.chatId in settings {
        settings := settings[g.chatId := g];
      }
    }

    // --------------------------------------------------------- applications

    /** `CreateChannelApplication`. */
    method CreateChannelApplication(chat: Int64, channel: Int64, user: Int64, reason: string) returns (err: Option<DbError>)
      requires Valid()
      modifies this`apps
      ensures Valid()
      ensures Written(apps, err) == OpenApplication(old(apps), chat, channel, user, reason)
    {
      OpenRefusedIffPending(apps, chat, channel, user, reason);
      if !Store.HasPendingApplication(apps, chat, channel) {
        OpenAccepted(apps, chat, channel, user, reason);
      }
      var r := LatestRow(apps, chat, channel);
      if r.Some? && apps[r.value].status == Pending {
        return Some(ApplicationPending);
      }
      if r.Some? {
        var i := r.value;
        apps := apps[i := apps[i].(userId := user, reason := reason, status := Pending, verifiedChannel := false)];
      } else {
        apps := apps + [NewApplication(chat, channel, user, reason)];
      }
      err := None;
    }

    /** `GetChannelApplication`: the row of the triple, if any. */
    method GetChannelApplication(chat: Int64, channel: Int64, user: Int64) returns (r: Option<ChannelApplication>)
      ensures r == ApplicationOf(apps, chat, channel, user)
      ensures r.Some? ==> r.value in apps && IsTriple(r.value, chat, channel, user)
    {
      r := ApplicationOf(apps, chat, channel, user);
    }

    /** `UpdateChannelApplicationStatus`. */
    method UpdateChannelApplicationStatus(chat: Int64, channel: Int64, user: Int64, status: Status)
      requires Valid()
      modifies this`apps
      ensures Valid()
      ensures apps == SetStatus(old(apps), chat, channel, user, status)
    {
      TripleUpdatesTouchOnlyTriple(apps, chat, channel, user, status);
      apps := SetStatus(apps, chat, channel, user, status);
    }

    /** `VerifyChannelOwnership`. */
    method VerifyChannelOwnership(chat: Int64, channel: Int64, user: Int64)
      requires Valid()
      modifies this`apps
      ensures Valid()
      ensures apps == MarkVerified(old(apps), chat, channel, user)
    {
      TripleUpdatesTouchOnlyTriple(apps, chat, channel, user, Pending);
      apps := MarkVerified(apps, chat, channel, user);
    }

    /** `UpdateLastPromptDate`, with today's date as a parameter. */
    method UpdateLastPromptDate(chat: Int64, channel: Int64, today: Day)
      requires Valid()
      modifies this`apps
      ensures Valid()
      ensures apps == MarkPromptDate(old(apps), chat, channel, today)
    {
      PairUpdatesKeepInvariant(apps, chat, channel, "", today);
      apps := MarkPromptDate(apps, chat, channel, today);
    }

    /** `GetPendingApplications`: the pending rows, collected row by row in table order. */
    method GetPendingApplications() returns (r: seq<ChannelApplication>)
      ensures r == PendingApplications(apps)
      ensures forall a :: a in r <==> a in apps && a.status == Pending
    {
      r := [];
      var i := 0;
      while i < |apps|
        invariant 0 <= i <= |apps|
        invariant r == PendingApplications(apps[..i])
      {
        PendingApplicationsSnoc(apps, i);
        if apps[i].status == Pending {
          r := r + [apps[i]];
        }
        i := i + 1;
      }
      assert apps[..i] == apps;
    }

    /** `GetChannelApplicationByDate`. */
    method GetChannelApplicationByDate(chat: Int64, channel: Int64, date: Day) returns (b: bool)
      ensures b <==> exists a :: a in apps && IsPair(a, chat, channel) && a.lastPromptDate == Some(date)
    {
      b := PromptedOn(apps, chat, channel, date);
      if b {
        var i :| 0 <= i < |apps| && IsPair(apps[i], chat, channel) && apps[i].lastPromptDate == Some(date);
        assert apps[i] in apps;
      }
    }

    /** `UpdateChannelApplicationUser`: the COUNT check, then the lookup of the latest pending row, then the UPDATE. */
    method UpdateChannelApplicationUser(chat: Int64, channel: Int64, user: Int64) returns (err: Option<DbError>)
      requires Valid()
      modifies this`apps
      ensures Valid()
      ensures Written(apps, err) == ClaimApplication(old(apps), chat, channel, user)
    {
      ClaimOutcome(apps, chat, channel, user);
      if ClaimedByOther(apps, chat, channel, user) {
        return Some(ApplicationClaimed);
      }
      var r := LatestPendingRow(apps, chat, channel);
      if r.None? {
        return Some(ApplicationNotFound);
      }
      var i := r.value;
      apps := apps[i := apps[i].(userId := user)];
      err := None;
    }

    /** `UpdateChannelApplicationReason`. */
    method UpdateChannelApplicationReason(chat: Int64, channel: Int64, reason: string)
      requires Valid()
      modifies this`apps
      ensures Valid()
      ensures apps == SetReason(old(apps), chat, channel, reason)
    {
      PairUpdatesKeepInvariant(apps, chat, channel, reason, 0);
      apps := SetReason(apps, chat, channel, reason);
    }

    /** `GetPendingChannelApplication`: the latest pending row of the pair, if any. */
    method GetPendingChannelApplication(chat: Int64, channel: Int64) returns (r: Option<ChannelApplication>)
      ensures r == PendingApplicationOf(apps, chat, channel)
      ensures r.Some? <==> Store.HasPendingApplication(apps, chat, channel)
    {
      r := PendingApplicationOf(apps, chat, channel);
    }

    /** `HasPendingApplication`. */
    method HasPendingApplication(chat: Int64, channel: Int64) returns (b: bool)
      ensures b <==> exists a :: a in apps && IsPendingPair(a, chat, channel)
    {
      b := Store.HasPendingApplication(apps, chat, channel);
      if b {
        var i :| 0 <= i < |apps| && IsPendingPair(apps[i], chat, channel);
        assert apps[i] in apps;
      }
    }

    // ---------------------------------------------------------- user states

    /** `SetUserState`: the upsert keyed by user. */
    method SetUserState(user: Int64, state: string)
      modifies this`userStates
      ensures userStates == old(userStates)[user := state]
    {
      userStates := userStates[user := state];
    }

    /** `GetUserState`: "" when the user has no row. */
    method GetUserState(user: Int64) returns (state: string)
      ensures user in userStates ==> state == userStates[user]
      ensures user !in userStates ==> state == ""
    {
      state := StateOf(userStates, user);
    }

    /** `ClearUserState`. */
    method ClearUserState(user: Int64)
      modifies this`userStates
      ensures userStates == old(userStates) - {user}
    {
      userStates := userStates - {user};
    }

    // -------------------------------------------------------- daily prompts

    /** `HasChannelDailyPrompt`, with today's date as a parameter. */
    method HasChannelDailyPrompt(chat: Int64, channel: Int64, kind: PromptKind, today: Day) returns (b: bool)
      ensures b <==> exists r :: r in prompts && r.chatId == chat && r.channelId == channel && r.kind == kind && r.date == today
    {
      b := HasDailyPrompt(prompts, chat, channel, kind, today);
    }

    /** `RecordChannelDailyPrompt`: INSERT OR IGNORE on the whole-row UNIQUE key. */
    method RecordChannelDailyPrompt(chat: Int64, channel: Int64, kind: PromptKind, today: Day)
      modifies this`prompts
      ensures prompts == RecordDailyPrompt(old(prompts), chat, channel, kind, today)
    {
      prompts := prompts + {PromptRecord(chat, channel, kind, today)};
    }

    /** `HasPromptedToday`: the whitelist-warning record of today. */
    method HasPromptedToday(chat: Int64, channel: Int64, today: Day) returns (b: bool)
      ensures b == HasDailyPrompt(prompts, chat, channel, WhitelistWarning, today)
    {
      b := HasChannelDailyPrompt(chat, channel, WhitelistWarning, today);
    }

    /** `HasPendingNoticeToday`: the pending-notice record of today. */
    method HasPendingNoticeToday(chat: Int64, channel: Int64, today: Day) returns (b: bool)
      ensures b == HasDailyPrompt(prompts, chat, channel, PendingNotice, today)
    {
      b := HasChannelDailyPrompt(chat, channel, PendingNotice, today);
    }

    /** `RecordPrompt`. */
    method RecordPrompt(chat: Int64, channel: Int64, today: Day)
      modifies this`prompts
      ensures prompts == RecordDailyPrompt(old(prompts), chat, channel, WhitelistWarning, today)
    {
      RecordChannelDailyPrompt(chat, channel, WhitelistWarning, today);
    }

    /** `RecordPendingNotice`. */
    method RecordPendingNotice(chat: Int64, channel: Int64, today: Day)
      modifies this`prompts
      ensures prompts == RecordDailyPrompt(old(prompts), chat, channel, PendingNotice, today)
    {
      RecordChannelDailyPrompt(chat, channel, PendingNotice, today);
    }

    /**
     * `ResetDailyPrompts`: delete every record of another day, then, only when
     * the delete succeeded, clear `prompted_today` of the pending applications.
     */
    method ResetDailyPrompts(today: Day, deleteOk: bool, updateOk: bool) returns (err: Option<DbError>)
      requires Valid()
      modifies this`prompts, this`apps
      ensures Valid()
      ensures prompts == if deleteOk then TodaysPrompts(old(prompts), today) else old(prompts)
      ensures apps == if deleteOk && updateOk then ClearPromptedToday(old(apps)) else old(apps)
      ensures err.None? <==> deleteOk && updateOk
    {
      if !deleteOk {
        return Some(ExecFailed("DELETE FROM channel_daily_prompts"));
      }
      prompts := set r | r in prompts && r.date == today;
      if !updateOk {
        return Some(ExecFailed("UPDATE channel_applications"));
      }
      PairUpdatesKeepInvariant(apps, 0, 0, "", today);
      apps := ClearPromptedToday(apps);
      err := None;
    }
  }
}
