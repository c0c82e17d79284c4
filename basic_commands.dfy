/**
 * handlers/basic_commands.go: `/start` (with the private claim link's
 * payload), `/help`, `/list_channels` and `/stats`.
 */
module BasicCommands {
  import opened Wrappers
  import opened GoText
  import opened Models
  import opened Store
  import opened Telegram
  import opened Effects
  import opened Payloads
  import opened Search
  import opened ChannelUtils
  import opened Handlers

  // ------------------------------------------------------------------ start

  /**
   * `HandleStart`: an argument of the form `claim_<chat>_<channel>` opens
   * the claim of that pair's unclaimed pending application (asking for a
   * reason first when it has none); any other argument gets the greeting.
   */
  function Start(s: HState, env: Env, m: Message, args: string): Step {
    match ParseStartPayload(args)
    case None => Send(s, env, m.chat.id, Greeting, [])
    case Some((chat, channel)) =>
      match FirstMatch(PendingApplications(s.t.apps), UnclaimedOfPair(chat, channel))
      case None => Send(s, env, m.chat.id, NothingToClaim, [])
      case Some(app) =>
        if app.reason == "" then
          var waiting := s.(t := s.t.(userStates := s.t.userStates[m.fromId := WaitingReasonState(chat, channel)]));
          Send(waiting, env, m.chat.id, AskReason, [GroupName(env, chat), ChannelName(env, channel)])
        else
          Send(s, env, m.chat.id, ClaimConfirmation,
               [GroupName(env, chat), ChannelName(env, channel), ConfirmClaimData(chat, channel), CancelClaimData])
  }

  /** `/start` without a claim payload only greets. */
  lemma StartGreets(s: HState, env: Env, m: Message, args: string)
    requires ParseStartPayload(args).None?
    ensures var r := Start(s, env, m, args);
            OnlyRequests(s, r.s) && Requests(s, r.s) == [Sent(m.chat.id, Greeting, [])]
  {
  }

  /**
   * Following the private link of an application (as `/apply` posts it) to
   * an unclaimed pending application with a reason: nothing is written, and
   * the user is offered buttons that read back as a confirmation of this
   * pair and as a cancellation.
   */
  lemma StartOffersConfirmation(s: HState, env: Env, m: Message, chat: Int64, channel: Int64)
    requires WellFormed(s.t)
    requires var p := PendingApplicationOf(s.t.apps, chat, channel);
             p.Some? && p.value.userId == 0 && p.value.reason != ""
    ensures var r := Start(s, env, m, StartPayload(chat, channel));
            OnlyRequests(s, r.s) && |Requests(s, r.s)| == 1
            && Requests(s, r.s)[0].Sent? && |Requests(s, r.s)[0].data| == 4
            && ParseCallback(Requests(s, r.s)[0].data[2]) == ConfirmClaim(Pair(chat, channel))
            && ParseCallback(Requests(s, r.s)[0].data[3]) == CancelClaim
  {
    StartPayloadRoundTrip(chat, channel);
    PairSearchFindsPendingRow(s.t.apps, chat, channel, false);
    ConfirmClaimDataRoundTrip(chat, channel);
    CancelClaimRoundTrip();
    var r := Start(s, env, m, StartPayload(chat, channel));
    assert r.s.trace == s.trace + [Sent(m.chat.id, ClaimConfirmation,
      [GroupName(env, chat), ChannelName(env, channel), ConfirmClaimData(chat, channel), CancelClaimData])];
  }

  /**
   * Following the link to an unclaimed pending application without a
   * reason: only the user's state changes, to one that waits for a reason
   * for this pair.
   */
  lemma StartAsksReason(s: HState, env: Env, m: Message, chat: Int64, channel: Int64)
    requires WellFormed(s.t)
    requires var p := PendingApplicationOf(s.t.apps, chat, channel);
             p.Some? && p.value.userId == 0 && p.value.reason == ""
    ensures var r := Start(s, env, m, StartPayload(chat, channel));
            r.s.t == s.t.(userStates := s.t.userStates[m.fromId := WaitingReasonState(chat, channel)])
            && r.s.queue == s.queue
            && ParseUserState(StateOf(r.s.t.userStates, m.fromId)) == WaitingReason(Pair(chat, channel))
  {
    StartPayloadRoundTrip(chat, channel);
    PairSearchFindsPendingRow(s.t.apps, chat, channel, false);
    WaitingReasonRoundTrip(chat, channel);
  }

  /** A link to a pair without an unclaimed pending application only says so. */
  lemma StartFindsNothing(s: HState, env: Env, m: Message, chat: Int64, channel: Int64)
    requires WellFormed(s.t)
    requires var p := PendingApplicationOf(s.t.apps, chat, channel);
             !(p.Some? && p.value.userId == 0)
    ensures var r := Start(s, env, m, StartPayload(chat, channel));
            OnlyRequests(s, r.s) && Requests(s, r.s) == [Sent(m.chat.id, NothingToClaim, [])]
  {
    StartPayloadRoundTrip(chat, channel);
    PairSearchFindsPendingRow(s.t.apps, chat, channel, false);
  }

  // ------------------------------------------------------------------- help

  /** `HandleHelp`: the fixed help text. */
  function Help(s: HState, env: Env, m: Message): Step {
    Send(s, env, m.chat.id, Telegram.Help, [])
  }

  // --------------------------------------------------------- list_channels

  /**
   * The fixed texts of the channel list. The layout (numbering, line breaks,
   * the optional description line, blank lines between entries) is the
   * code's; the labels are a parameter, and the handler uses ListWording.
   */
  datatype Wording = Wording(
    empty: string,        // the text for a group without whitelisted channels
    title: string,        // the first lines of a non-empty list
    unknown: string,      // the name shown when GetChat gives no title
    channelLabel: string, // between the number and the name
    idLabel: string,      // between the name and the channel id
    addedLabel: string,   // between the channel id and the time it was added
    descriptionLabel: string)

  const ListWording: Wording := Wording(
    "No whitelisted channels", "Whitelisted channels:\n\n", "unknown channel",
    ". Channel \"", "\" (ID: ", ")\n    Added: ", "    Description: ")

  /** The name the list shows: the fetched title, or a fixed text (no id fallback here). */
  function ListedName(w: Wording, env: Env, channel: Int64): string {
    if channel in env.chats && env.chats[channel] != "" then env.chats[channel] else w.unknown
  }

  /** The numbered first two lines of an entry. */
  function EntryHead(w: Wording, env: Env, number: nat, c: WhitelistedChannel): string {
    FormatInt(number) + w.channelLabel + ListedName(w, env, c.channelId) + w.idLabel + FormatInt(c.channelId)
    + w.addedLabel + c.addedAt + "\n"
  }

  /** The description line, present only for a non-empty description. */
  function DescriptionLine(w: Wording, c: WhitelistedChannel): string {
    if c.description != "" then w.descriptionLabel + c.description + "\n" else ""
  }

  function Entry(w: Wording, env: Env, number: nat, c: WhitelistedChannel): string {
    EntryHead(w, env, number, c) + DescriptionLine(w, c)
  }

  /** The text after `i` of the entries, as the loop builds it: each entry but the last is followed by a blank line. */
  function Layout(entries: seq<string>, i: nat): string
    requires i <= |entries|
  {
    if i == 0 then "" else Layout(entries, i - 1) + entries[i - 1] + (if i < |entries| then "\n" else "")
  }

  /** The entries, numbered from 1 in the order of the rows. */
  function Entries(w: Wording, env: Env, channels: seq<WhitelistedChannel>): (r: seq<string>)
    ensures |r| == |channels|
    ensures forall k :: 0 <= k < |channels| ==> r[k] == Entry(w, env, k + 1, channels[k])
  {
    seq(|channels|, k requires 0 <= k < |channels| => Entry(w, env, k + 1, channels[k]))
  }

  function ChannelListText(w: Wording, env: Env, channels: seq<WhitelistedChannel>): string {
    if |channels| == 0 then w.empty else w.title + Layout(Entries(w, env, channels), |channels|)
  }

  /** The text loop of `HandleListChannels`. */
  method BuildChannelList(w: Wording, env: Env, channels: seq<WhitelistedChannel>) returns (text: string)
    ensures text == ChannelListText(w, env, channels)
  {
    if |channels| == 0 {
      return w.empty;
    }
    ghost var entries := Entries(w, env, channels);
    var body := "";
    var i := 0;
    while i < |channels|
      invariant 0 <= i <= |channels|
      invariant body == Layout(entries, i)
    {
      body := AppendEntry(w, env, channels, i, body, entries);
      i := i + 1;
    }
    text := w.title + body;
  }

  /** One turn of the loop: the `i`-th entry, and a line break unless it is the last. */
  method AppendEntry(w: Wording, env: Env, channels: seq<WhitelistedChannel>, i: nat, body: string,
                     ghost entries: seq<string>) returns (after: string)
    requires i < |channels| && entries == Entries(w, env, channels)
    requires body == Layout(entries, i)
    ensures after == Layout(entries, i + 1)
  {
    var entry := Entry(w, env, i + 1, channels[i]);
    var separator := if i < |channels| - 1 then "\n" else "";
    after := body + entry + separator;
  }

  lemma {:induction false} LayoutJoin(entries: seq<string>, i: nat)
    requires 1 <= i <= |entries|
    ensures Layout(entries, i) == Join(entries[..i], '\n') + (if i < |entries| then "\n" else "")
  {
    if i == 1 {
      assert Layout(entries, 0) == "";
      assert entries[..1] == [entries[0]];
    } else {
      LayoutJoin(entries, i - 1);
      JoinSnoc(entries[..i - 1], entries[i - 1], '\n');
      assert entries[..i - 1] + [entries[i - 1]] == entries[..i];
    }
  }

  /** With the handler's labels an entry starts with its number, followed by a character that is not a digit. */
  lemma EntryNumbered(env: Env, number: Int64, c: WhitelistedChannel)
    requires number >= 0
    ensures ScanInt(Entry(ListWording, env, number, c)) == Some(number)
  {
    var w := ListWording;
    var rest := w.channelLabel + ListedName(w, env, c.channelId) + w.idLabel + FormatInt(c.channelId)
                + w.addedLabel + c.addedAt + "\n" + DescriptionLine(w, c);
    assert Entry(w, env, number, c) == FormatInt(number) + rest;
    assert rest[0] == '.';
    ScanFormatInt(number, rest);
  }

  /**
   * The list's layout: an empty group says so; otherwise the title is
   * followed by the entries, one per whitelisted row, separated by blank
   * lines, and the k-th entry starts with the number k + 1.
   */
  lemma ChannelListLayout(env: Env, channels: seq<WhitelistedChannel>)
    ensures |channels| == 0 ==> ChannelListText(ListWording, env, channels) == ListWording.empty
    ensures |channels| > 0 ==>
              ChannelListText(ListWording, env, channels) == ListWording.title + Join(Entries(ListWording, env, channels), '\n')
    ensures forall k :: 0 <= k < |channels| && k < MaxInt64 ==> ScanInt(Entries(ListWording, env, channels)[k]) == Some(k + 1)
  {
    if |channels| > 0 {
      ChannelListJoined(ListWording, env, channels);
    }
    EntriesNumbered(env, channels);
  }

  lemma ChannelListJoined(w: Wording, env: Env, channels: seq<WhitelistedChannel>)
    requires |channels| > 0
    ensures ChannelListText(w, env, channels) == w.title + Join(Entries(w, env, channels), '\n')
  {
    var e := Entries(w, env, channels);
    LayoutJoin(e, |channels|);
    assert e[..|channels|] == e;
  }

  lemma EntriesNumbered(env: Env, channels: seq<WhitelistedChannel>)
    ensures forall k :: 0 <= k < |channels| && k < MaxInt64 ==> ScanInt(Entries(ListWording, env, channels)[k]) == Some(k + 1)
  {
    var e := Entries(ListWording, env, channels);
    forall k | 0 <= k < |channels| && k < MaxInt64
      ensures ScanInt(e[k]) == Some(k + 1)
    {
      var number: Int64 := k + 1;
      assert e[k] == Entry(ListWording, env, number, channels[k]);
      EntryNumbered(env, number, channels[k]);
    }
  }

  /** `HandleListChannels`: groups only; the group's whitelisted rows, newest first. */
  function ListChannels(s: HState, env: Env, m: Message): Step {
    if !IsGroupChat(m.chat.kind) then Send(s, env, m.chat.id, GroupOnly, [])
    else Send(s, env, m.chat.id, ChannelList, [ChannelListText(ListWording, env, ChannelsOf(s.t.whitelist, m.chat.id))])
  }

  /** The list names exactly the group's whitelisted rows, and changes nothing. */
  lemma ListChannelsShowsGroup(s: HState, env: Env, m: Message)
    requires IsGroupChat(m.chat.kind)
    ensures var r := ListChannels(s, env, m);
            var rows := ChannelsOf(s.t.whitelist, m.chat.id);
            OnlyRequests(s, r.s)
            && (forall e :: e in rows <==> e in s.t.whitelist && e.chatId == m.chat.id)
            && Requests(s, r.s) == [Sent(m.chat.id, ChannelList, [ChannelListText(ListWording, env, rows)])]
  {
  }

  // ------------------------------------------------------------------ stats

  /** `HandleStats`: groups only; the number of the group's whitelisted rows and of its logged blocked posts. */
  function Stats(s: HState, env: Env, m: Message): Step {
    if !IsGroupChat(m.chat.kind) then Send(s, env, m.chat.id, GroupOnly, [])
    else
      Send(s, env, m.chat.id, Telegram.Stats,
           [FormatInt(|ChannelsOf(s.t.whitelist, m.chat.id)|), FormatInt(BlockedCount(s.t.blocked, m.chat.id))])
  }

  /** Whitelisting a channel of a group raises the group's channel count by one and no other group's. */
  lemma ChannelCountAppend(wl: seq<WhitelistedChannel>, e: WhitelistedChannel, chat: Int64)
    ensures |ChannelsOf(wl + [e], chat)| == |ChannelsOf(wl, chat)| + (if e.chatId == chat then 1 else 0)
  {
    assert (wl + [e])[..|wl|] == wl;
  }

  /**
   * The figures `/stats` shows follow the tables: each whitelisted row and
   * each logged post of the group counts once, and the command changes
   * nothing.
   */
  lemma StatsFollowTables(s: HState, env: Env, m: Message, e: WhitelistedChannel, b: BlockedMessageInfo)
    requires IsGroupChat(m.chat.kind) && e.chatId == m.chat.id && b.chatId == m.chat.id
    ensures var more := s.(t := s.t.(whitelist := s.t.whitelist + [e], blocked := s.t.blocked + [b]));
            var r := Stats(more, env, m);
            OnlyRequests(more, r.s)
            && Requests(more, r.s)[0].data
               == [FormatInt(|ChannelsOf(s.t.whitelist, m.chat.id)| + 1), FormatInt(BlockedCount(s.t.blocked, m.chat.id) + 1)]
  {
    ChannelCountAppend(s.t.whitelist, e, m.chat.id);
    BlockedCountAppend(s.t.blocked, b, m.chat.id);
  }

  // ------------------------------------------------------------ in place

  /** `HandleStart` on the handler: the payload is parsed, then the search loop, then the user state or the confirmation. */
  method HandleStart(h: Handler, env: Env, m: Message, args: string) returns (err: Option<Failure>)
    requires h.Valid()
    modifies h, h.db
    ensures h.Valid()
    ensures Step(h.State(), err) == Start(old(h.State()), env, m, args)
  {
    var payload := ParseStartPayload(args);
    if payload.None? {
      err := h.Send(env, m.chat.id, Greeting, []);
      return;
    }
    var (chat, channel) := payload.value;
    var pending := h.db.GetPendingApplications();
    var target := FindTarget(pending, UnclaimedOfPair(chat, channel));
    if target.None? {
      err := h.Send(env, m.chat.id, NothingToClaim, []);
      return;
    }
    if target.value.reason == "" {
      h.db.SetUserState(m.fromId, WaitingReasonState(chat, channel));
      err := h.Send(env, m.chat.id, AskReason, [GroupName(env, chat), ChannelName(env, channel)]);
      return;
    }
    err := h.Send(env, m.chat.id, ClaimConfirmation,
                  [GroupName(env, chat), ChannelName(env, channel), ConfirmClaimData(chat, channel), CancelClaimData]);
  }

  /** `HandleHelp` on the handler. */
  method HandleHelp(h: Handler, env: Env, m: Message) returns (err: Option<Failure>)
    modifies h`trace
    ensures Step(h.State(), err) == Help(old(h.State()), env, m)
  {
    err := h.Send(env, m.chat.id, Telegram.Help, []);
  }

  /** `HandleListChannels` on the handler: the group's rows, then the list built by the loop. */
  method HandleListChannels(h: Handler, env: Env, m: Message) returns (err: Option<Failure>)
    modifies h`trace
    ensures Step(h.State(), err) == ListChannels(old(h.State()), env, m)
  {
    if !IsGroupChat(m.chat.kind) {
      err := h.Send(env, m.chat.id, GroupOnly, []);
      return;
    }
    var channels := h.db.GetWhitelistedChannels(m.chat.id);
    var text := BuildChannelList(ListWording, env, channels);
    err := h.Send(env, m.chat.id, ChannelList, [text]);
  }

  /** `HandleStats` on the handler: the two counts read from the tables. */
  method HandleStats(h: Handler, env: Env, m: Message) returns (err: Option<Failure>)
    modifies h`trace
    ensures Step(h.State(), err) == Stats(old(h.State()), env, m)
  {
    if !IsGroupChat(m.chat.kind) {
      err := h.Send(env, m.chat.id, GroupOnly, []);
      return;
    }
    var blockedCount := h.db.GetBlockedMessagesStats(m.chat.id);
    var channels := h.db.GetWhitelistedChannels(m.chat.id);
    err := h.Send(env, m.chat.id, Telegram.Stats, [FormatInt(|channels|), FormatInt(blockedCount)]);
  }
}
