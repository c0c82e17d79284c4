/**
 * The linear searches the handlers run over `GetPendingApplications`
 * (`for _, app := range applications { if ... { targetApp = app; break } }`):
 * the first pending application, in table order, that fits what the handler
 * looks for.
 */
module Search {
  import opened Wrappers
  import opened GoText
  import opened Models
  import opened Store
  import opened StoreFacts

  /** What a search looks for. */
  datatype Target =
    | UnclaimedOfChannel(channel: Int64)             // HandleClaim
    | UnclaimedOfPair(chat: Int64, channel: Int64)   // the claim button, /start claim_...
    | VerifiedOfChannel(channel: Int64)              // HandleApprove, HandleReject
    | VerifiedOfPair(chat: Int64, channel: Int64)    // the approve / reject buttons

  predicate Matches(a: ChannelApplication, t: Target) {
    match t
    case UnclaimedOfChannel(channel) => a.channelId == channel && a.userId == 0
    case UnclaimedOfPair(chat, channel) => a.chatId == chat && a.channelId == channel && a.userId == 0
    case VerifiedOfChannel(channel) => a.channelId == channel && a.verifiedChannel
    case VerifiedOfPair(chat, channel) => a.chatId == chat && a.channelId == channel && a.verifiedChannel
  }

  /** The position of the first application that fits, if any. */
  function FirstMatchAt(apps: seq<ChannelApplication>, t: Target, i: nat): (r: Option<nat>)
    requires i <= |apps|
    ensures r.Some? ==> i <= r.value < |apps| && Matches(apps[r.value], t)
                        && forall j :: i <= j < r.value ==> !Matches(apps[j], t)
    ensures r.None? ==> forall j :: i <= j < |apps| ==> !Matches(apps[j], t)
    decreases |apps| - i
  {
    if i == |apps| then None
    else if Matches(apps[i], t) then Some(i)
    else FirstMatchAt(apps, t, i + 1)
  }

  /** The application the search picks. */
  function FirstMatch(apps: seq<ChannelApplication>, t: Target): (r: Option<ChannelApplication>)
    ensures r.Some? ==> r.value in apps && Matches(r.value, t)
    ensures r.Some? ==> exists i :: 0 <= i < |apps| && apps[i] == r.value && forall j :: 0 <= j < i ==> !Matches(apps[j], t)
    ensures r.None? <==> forall a :: a in apps ==> !Matches(a, t)
  {
    match FirstMatchAt(apps, t, 0)
    case Some(i) => Some(apps[i])
    case None => None
  }

  /** The search loop of the handlers, with `break` as an early return. */
  method FindTarget(apps: seq<ChannelApplication>, t: Target) returns (r: Option<ChannelApplication>)
    ensures r == FirstMatch(apps, t)
  {
    var i := 0;
    while i < |apps|
      invariant 0 <= i <= |apps|
      invariant FirstMatchAt(apps, t, i) == FirstMatchAt(apps, t, 0)
    {
      if Matches(apps[i], t) {
        return Some(apps[i]);
      }
      i := i + 1;
    }
    r := None;
  }

  /**
   * Searching the pending list for a pair finds exactly the pair's pending
   * row when that row is unclaimed (or verified), and nothing otherwise.
   */
  lemma PairSearchFindsPendingRow(apps: seq<ChannelApplication>, chat: Int64, channel: Int64, verified: bool)
    requires ApplicationsUnique(apps)
    ensures var t := if verified then VerifiedOfPair(chat, channel) else UnclaimedOfPair(chat, channel);
            var p := PendingApplicationOf(apps, chat, channel);
            FirstMatch(PendingApplications(apps), t)
            == if p.Some? && (if verified then p.value.verifiedChannel else p.value.userId == 0) then p else None
  {
    var t := if verified then VerifiedOfPair(chat, channel) else UnclaimedOfPair(chat, channel);
    var p := PendingApplicationOf(apps, chat, channel);
    var pending := PendingApplications(apps);
    var r := FirstMatch(pending, t);
    if r.Some? {
      var a := r.value;
      assert a in apps && a.status == Pending && IsPendingPair(a, chat, channel);
      var i :| 0 <= i < |apps| && apps[i] == a;
      OnlyRow(apps, chat, channel, i);
      PendingIsLatest(apps, chat, channel);
    } else if p.Some? {
      assert p.value in pending;
    }
  }

  /** Whatever the target, the search picks a pending application. */
  lemma SearchFindsPending(apps: seq<ChannelApplication>, t: Target)
    ensures FirstMatch(PendingApplications(apps), t).Some? ==>
              var a := FirstMatch(PendingApplications(apps), t).value;
              a in apps && a.status == Pending && Matches(a, t)
  {
  }
}
