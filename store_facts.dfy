/**
 * Facts about the table statements of db/database.go that the handlers rely
 * on: when an application can be opened or claimed, that a claim is
 * exclusive, that updates keyed by (chat, channel, user) touch nothing else,
 * and how daily prompt records behave.
 */
module StoreFacts {
  import opened Wrappers
  import opened GoText
  import opened Models
  import opened Store

  // ------------------------------------------------------------ applications

  /** Under the one-row-per-pair invariant no other row shares a row's pair. */
  lemma OtherRowsOtherPairs(apps: seq<ChannelApplication>, i: nat)
    requires ApplicationsUnique(apps) && i < |apps|
    ensures forall j :: 0 <= j < |apps| && j != i ==> !IsPair(apps[j], apps[i].chatId, apps[i].channelId)
  {
    forall j | 0 <= j < |apps| && j != i
      ensures !IsPair(apps[j], apps[i].chatId, apps[i].channelId)
    {
      if j < i {
        assert !(apps[j].chatId == apps[i].chatId && apps[j].channelId == apps[i].channelId);
      } else {
        assert !(apps[i].chatId == apps[j].chatId && apps[i].channelId == apps[j].channelId);
      }
    }
  }

  /** Under the one-row-per-pair invariant the latest row of a pair is its only row. */
  lemma OnlyRow(apps: seq<ChannelApplication>, chat: Int64, channel: Int64, i: nat)
    requires ApplicationsUnique(apps)
    requires i < |apps| && IsPair(apps[i], chat, channel)
    ensures LatestRow(apps, chat, channel) == Some(i)
  {
    OtherRowsOtherPairs(apps, i);
  }

  lemma PendingIsLatest(apps: seq<ChannelApplication>, chat: Int64, channel: Int64)
    requires ApplicationsUnique(apps)
    ensures LatestPendingRow(apps, chat, channel).Some?
            ==> LatestRow(apps, chat, channel) == LatestPendingRow(apps, chat, channel)
    ensures LatestPendingRow(apps, chat, channel).None? && LatestRow(apps, chat, channel).Some?
            ==> apps[LatestRow(apps, chat, channel).value].status != Pending
  {
    var p := LatestPendingRow(apps, chat, channel);
    if p.Some? {
      OnlyRow(apps, chat, channel, p.value);
    }
  }

  /** Opening an application is refused exactly when the pair already has a pending one, and then nothing changes. */
  lemma OpenRefusedIffPending(apps: seq<ChannelApplication>, chat: Int64, channel: Int64, user: Int64, reason: string)
    requires ApplicationsUnique(apps)
    ensures var w := OpenApplication(apps, chat, channel, user, reason);
            (w.err.Some? <==> HasPendingApplication(apps, chat, channel))
            && (w.err.Some? ==> w.err == Some(ApplicationPending) && w.apps == apps)
  {
    PendingIsLatest(apps, chat, channel);
    var p := LatestPendingRow(apps, chat, channel);
    if HasPendingApplication(apps, chat, channel) {
      var k :| 0 <= k < |apps| && IsPendingPair(apps[k], chat, channel);
      assert p.Some?;
    }
  }

  /**
   * An accepted application leaves the pair with one pending, unverified row
   * held by `user` with `reason`; a row is added only when the pair had none,
   * and no other pair's row changes.
   */
  lemma OpenAccepted(apps: seq<ChannelApplication>, chat: Int64, channel: Int64, user: Int64, reason: string)
    requires ApplicationsUnique(apps)
    requires !HasPendingApplication(apps, chat, channel)
    ensures var w := OpenApplication(apps, chat, channel, user, reason);
            w.err.None? && ApplicationsUnique(w.apps)
            && |w.apps| == |apps| + (if LatestRow(apps, chat, channel).None? then 1 else 0)
            && (forall j :: 0 <= j < |apps| && !IsPair(apps[j], chat, channel) ==> w.apps[j] == apps[j])
            && PendingApplicationOf(w.apps, chat, channel).Some?
            && var a := PendingApplicationOf(w.apps, chat, channel).value;
               a.userId == user && a.reason == reason && !a.verifiedChannel
  {
    OpenRefusedIffPending(apps, chat, channel, user, reason);
    var w := OpenApplication(apps, chat, channel, user, reason);
    match LatestRow(apps, chat, channel)
    case Some(i) =>
      assert SameKeys(apps, w.apps);
      SameKeysUnique(apps, w.apps);
      assert IsPendingPair(w.apps[i], chat, channel);
      OnlyRow(w.apps, chat, channel, i);
      PendingIsLatest(w.apps, chat, channel);
    case None =>
      var n := |apps|;
      forall i, j | 0 <= i < j < |w.apps|
        ensures !(w.apps[i].chatId == w.apps[j].chatId && w.apps[i].channelId == w.apps[j].channelId)
      {
        if j == n { assert !IsPair(apps[i], chat, channel); }
      }
      assert IsPendingPair(w.apps[n], chat, channel);
      OnlyRow(w.apps, chat, channel, n);
      PendingIsLatest(w.apps, chat, channel);
  }

  /** The outcomes of a claim: refused when another user holds the pending row, refused when none is pending, else taken. */
  lemma ClaimOutcome(apps: seq<ChannelApplication>, chat: Int64, channel: Int64, user: Int64)
    requires ApplicationsUnique(apps)
    ensures var w := ClaimApplication(apps, chat, channel, user);
            var p := PendingApplicationOf(apps, chat, channel);
            (w.err == Some(ApplicationClaimed) <==> p.Some? && p.value.userId != 0 && p.value.userId != user)
            && (w.err == Some(ApplicationNotFound) <==> p.None?)
            && (w.err.Some? ==> w.apps == apps)
            && (w.err.None? ==>
                  (ApplicationsUnique(w.apps)
                   && PendingApplicationOf(w.apps, chat, channel) == Some(p.value.(userId := user))
                   && forall j :: 0 <= j < |apps| && !IsPair(apps[j], chat, channel) ==> w.apps[j] == apps[j]))
  {
    var w := ClaimApplication(apps, chat, channel, user);
    var lp := LatestPendingRow(apps, chat, channel);
    if ClaimedByOther(apps, chat, channel, user) {
      var k :| 0 <= k < |apps| && IsPendingPair(apps[k], chat, channel) && apps[k].userId != 0 && apps[k].userId != user;
      OnlyRow(apps, chat, channel, k);
      PendingIsLatest(apps, chat, channel);
    } else if lp.Some? {
      var i := lp.value;
      assert SameKeys(apps, w.apps);
      SameKeysUnique(apps, w.apps);
      assert IsPendingPair(w.apps[i], chat, channel);
      OnlyRow(w.apps, chat, channel, i);
      PendingIsLatest(w.apps, chat, channel);
      assert !(apps[i].userId != 0 && apps[i].userId != user);
    }
  }

  /** Once a user holds a pending application, every other user's claim on it is refused and changes nothing. */
  lemma ClaimExclusive(apps: seq<ChannelApplication>, chat: Int64, channel: Int64, first: Int64, second: Int64)
    requires ApplicationsUnique(apps)
    requires first != 0 && second != first
    requires ClaimApplication(apps, chat, channel, first).err.None?
    ensures var after := ClaimApplication(apps, chat, channel, first).apps;
            ClaimApplication(after, chat, channel, second) == Written(after, Some(ApplicationClaimed))
  {
    ClaimOutcome(apps, chat, channel, first);
    var after := ClaimApplication(apps, chat, channel, first).apps;
    var p := PendingApplicationOf(after, chat, channel);
    var i := LatestPendingRow(after, chat, channel).value;
    assert IsPendingPair(after[i], chat, channel) && after[i].userId != 0 && after[i].userId != second;
  }

  /** The same user claiming again succeeds and changes nothing further. */
  lemma ClaimRepeatable(apps: seq<ChannelApplication>, chat: Int64, channel: Int64, user: Int64)
    requires ApplicationsUnique(apps)
    requires ClaimApplication(apps, chat, channel, user).err.None?
    ensures var after := ClaimApplication(apps, chat, channel, user).apps;
            ClaimApplication(after, chat, channel, user) == Written(after, None)
  {
    ClaimOutcome(apps, chat, channel, user);
    var after := ClaimApplication(apps, chat, channel, user).apps;
    ClaimOutcome(after, chat, channel, user);
    var i := LatestPendingRow(after, chat, channel).value;
    assert after[i := after[i].(userId := user)] == after;
  }

  /**
   * A claim followed by `VerifyChannelOwnership` for the claimant leaves the
   * pair's pending application held by the claimant and verified.
   */
  lemma ClaimThenVerify(apps: seq<ChannelApplication>, chat: Int64, channel: Int64, user: Int64)
    requires ApplicationsUnique(apps)
    requires ClaimApplication(apps, chat, channel, user).err.None?
    ensures var w := ClaimApplication(apps, chat, channel, user);
            var v := MarkVerified(w.apps, chat, channel, user);
            ApplicationsUnique(v)
            && PendingApplicationOf(v, chat, channel)
               == Some(PendingApplicationOf(apps, chat, channel).value.(userId := user, verifiedChannel := true))
  {
    ClaimOutcome(apps, chat, channel, user);
    var w := ClaimApplication(apps, chat, channel, user);
    var v := MarkVerified(w.apps, chat, channel, user);
    var i := LatestPendingRow(w.apps, chat, channel).value;
    TripleUpdatesTouchOnlyTriple(w.apps, chat, channel, user, Pending);
    assert v[i] == w.apps[i].(verifiedChannel := true);
    assert IsPendingPair(v[i], chat, channel);
    OnlyRow(v, chat, channel, i);
    PendingIsLatest(v, chat, channel);
  }

  /**
   * Verifying ownership and setting a status change exactly the row of the
   * given (chat, channel, user), whatever its status, and keep the invariant.
   */
  lemma TripleUpdatesTouchOnlyTriple(apps: seq<ChannelApplication>, chat: Int64, channel: Int64, user: Int64, status: Status)
    requires ApplicationsUnique(apps)
    ensures var v := MarkVerified(apps, chat, channel, user);
            ApplicationsUnique(v)
            && forall j :: 0 <= j < |apps| ==>
                 (IsTriple(apps[j], chat, channel, user) ==> v[j] == apps[j].(verifiedChannel := true))
                 && (!IsTriple(apps[j], chat, channel, user) ==> v[j] == apps[j])
    ensures var s := SetStatus(apps, chat, channel, user, status);
            ApplicationsUnique(s)
            && forall j :: 0 <= j < |apps| ==>
                 (IsTriple(apps[j], chat, channel, user) ==> s[j] == apps[j].(status := status))
                 && (!IsTriple(apps[j], chat, channel, user) ==> s[j] == apps[j])
  {
    SameKeysUnique(apps, MarkVerified(apps, chat, channel, user));
    SameKeysUnique(apps, SetStatus(apps, chat, channel, user, status));
  }

  /** The reason, prompt-date and reset updates keep the one-row-per-pair invariant. */
  lemma PairUpdatesKeepInvariant(apps: seq<ChannelApplication>, chat: Int64, channel: Int64, reason: string, today: Day)
    requires ApplicationsUnique(apps)
    ensures ApplicationsUnique(SetReason(apps, chat, channel, reason))
    ensures ApplicationsUnique(MarkPromptDate(apps, chat, channel, today))
    ensures ApplicationsUnique(ClearPromptedToday(apps))
  {
    SameKeysUnique(apps, SetReason(apps, chat, channel, reason));
    SameKeysUnique(apps, MarkPromptDate(apps, chat, channel, today));
    SameKeysUnique(apps, ClearPromptedToday(apps));
  }

  /** Approving takes a pending application out of the pending list: the pair has no pending row afterwards. */
  lemma DecidedLeavesNoPending(apps: seq<ChannelApplication>, a: ChannelApplication, status: Status)
    requires ApplicationsUnique(apps) && a in apps && status != Pending
    ensures !HasPendingApplication(SetStatus(apps, a.chatId, a.channelId, a.userId, status), a.chatId, a.channelId)
  {
    var s := SetStatus(apps, a.chatId, a.channelId, a.userId, status);
    var i :| 0 <= i < |apps| && apps[i] == a;
    OtherRowsOtherPairs(apps, i);
    assert forall j :: 0 <= j < |s| ==> !IsPendingPair(s[j], a.chatId, a.channelId);
  }

  // ---------------------------------------------------------- daily prompts

  /** A recorded prompt is seen for the rest of the day, recording twice is recording once, and other entries are untouched. */
  lemma RecordDailyPromptFacts(p: set<PromptRecord>, chat: Int64, channel: Int64, kind: PromptKind, today: Day,
                               c: Int64, ch: Int64, k: PromptKind, d: Day)
    ensures HasDailyPrompt(RecordDailyPrompt(p, chat, channel, kind, today), chat, channel, kind, today)
    ensures var once := RecordDailyPrompt(p, chat, channel, kind, today);
            RecordDailyPrompt(once, chat, channel, kind, today) == once
    ensures !(c == chat && ch == channel && k == kind && d == today) ==>
            (HasDailyPrompt(RecordDailyPrompt(p, chat, channel, kind, today), c, ch, k, d) <==> HasDailyPrompt(p, c, ch, k, d))
  {
  }

  /** The midnight reset keeps every answer about today and forgets every other day. */
  lemma ResetKeepsToday(p: set<PromptRecord>, today: Day, c: Int64, ch: Int64, k: PromptKind, d: Day)
    ensures HasDailyPrompt(TodaysPrompts(p, today), c, ch, k, d) <==> d == today && HasDailyPrompt(p, c, ch, k, d)
  {
  }
  /** `UpdateChannelApplicationReason` gives the pair's pending application the reason and leaves it the pending one. */
  lemma ReasonOfPending(apps: seq<ChannelApplication>, chat: Int64, channel: Int64, reason: string)
    requires ApplicationsUnique(apps)
    ensures var r := SetReason(apps, chat, channel, reason);
            var p := PendingApplicationOf(apps, chat, channel);
            ApplicationsUnique(r)
            && PendingApplicationOf(r, chat, channel) == (if p.Some? then Some(p.value.(reason := reason)) else None)
  {
    var r := SetReason(apps, chat, channel, reason);
    PairUpdatesKeepInvariant(apps, chat, channel, reason, 0);
    match LatestPendingRow(apps, chat, channel)
    case Some(i) =>
      assert IsPendingPair(r[i], chat, channel);
      OnlyRow(r, chat, channel, i);
      PendingIsLatest(r, chat, channel);
    case None =>
      assert forall j :: 0 <= j < |r| ==> !IsPendingPair(r[j], chat, channel) by {
        forall j | 0 <= j < |r| ensures !IsPendingPair(r[j], chat, channel) {
          assert !IsPendingPair(apps[j], chat, channel);
        }
      }
  }
}
