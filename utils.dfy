/** The helpers of utils/utils.go. */
module Utils {
  import opened Wrappers
  import opened GoText
  import opened Telegram

  // ------------------------------------------------------ membership checks

  /** `IsGlobalAdmin`: a scan of the configured administrator ids. */
  method IsGlobalAdmin(adminUsers: seq<Int64>, user: Int64) returns (b: bool)
    ensures b <==> user in adminUsers
  {
    var i := 0;
    while i < |adminUsers|
      invariant 0 <= i <= |adminUsers|
      invariant user !in adminUsers[..i]
    {
      if adminUsers[i] == user {
        return true;
      }
      assert adminUsers[..i + 1] == adminUsers[..i] + [adminUsers[i]];
      i := i + 1;
    }
    assert adminUsers[..i] == adminUsers;
    b := false;
  }

  /** Some entry of an administrator list is the user. */
  predicate AdminListed(admins: seq<ChatMember>, user: Int64) {
    exists k | 0 <= k < |admins| :: admins[k].userId == user
  }

  /** What `IsAdmin` answers: None when `GetChatAdministrators` fails. */
  function ChatAdmin(env: Env, chat: Int64, user: Int64): Option<bool> {
    if chat in env.admins then Some(AdminListed(env.admins[chat], user)) else None
  }

  /** `IsAdmin`: fetch the group's administrators, then scan them for the user. */
  method IsAdmin(env: Env, chat: Int64, user: Int64) returns (r: Option<bool>)
    ensures r.None? <==> chat !in env.admins
    ensures r.Some? ==> (r.value <==> exists m :: m in env.admins[chat] && m.userId == user)
    ensures r == ChatAdmin(env, chat, user)
  {
    if chat !in env.admins {
      return None;
    }
    var admins := env.admins[chat];
    var i := 0;
    while i < |admins|
      invariant 0 <= i <= |admins|
      invariant forall k :: 0 <= k < i ==> admins[k].userId != user
    {
      if admins[i].userId == user {
        assert admins[i] in admins;
        return Some(true);
      }
      i := i + 1;
    }
    r := Some(false);
  }

  // --------------------------------------------------------- channel ids

  /** `ParseChannelID`: trim white space, refuse "", drop one leading '@', then `strconv.ParseInt`. */
  function ParseChannelID(args: string): Option<Int64> {
    var t := TrimSpace(args);
    if t == "" then None else ParseInt64(TrimPrefix(t, "@"))
  }

  lemma TrimSpaceKeeps(s: string)
    requires s != "" && !IsSpace(s[0]) && !IsSpace(s[|s| - 1])
    ensures TrimSpace(s) == s
  {
    assert TrimLeftSpace(s) == s;
    assert TrimRightSpace(s) == s;
  }

  /** The first and last characters of a `%d` text are neither white space nor '@'. */
  lemma FormatIntEdges(n: Int64)
    ensures var f := FormatInt(n);
            !IsSpace(f[0]) && f[0] != '@' && !IsSpace(f[|f| - 1])
  {
    var f := FormatInt(n);
    assert IsDigit(f[0]) || f[0] == '-';
    assert IsDigit(f[|f| - 1]) || |f| == 1;
  }

  /** A channel id written with `%d`, with or without one '@' before it, reads back. */
  lemma ParseChannelIDRoundTrip(n: Int64, at: bool)
    ensures ParseChannelID(if at then "@" + FormatInt(n) else FormatInt(n)) == Some(n)
  {
    if at {
      ParseChannelIDWithAt(n);
    } else {
      ParseChannelIDPlain(n);
    }
  }

  lemma ParseChannelIDWithAt(n: Int64)
    ensures ParseChannelID("@" + FormatInt(n)) == Some(n)
  {
    var f := FormatInt(n);
    var s := "@" + f;
    FormatIntEdges(n);
    assert s[0] == '@' && s[|s| - 1] == f[|f| - 1];
    TrimSpaceKeeps(s);
    assert HasPrefix(s, "@") && s[1..] == f;
    assert TrimPrefix(s, "@") == f;
    ParseFormatInt(n);
  }

  lemma ParseChannelIDPlain(n: Int64)
    ensures ParseChannelID(FormatInt(n)) == Some(n)
  {
    var f := FormatInt(n);
    FormatIntEdges(n);
    TrimSpaceKeeps(f);
    DiffersAt(f, "@", 0);
    assert TrimPrefix(f, "@") == f;
    ParseFormatInt(n);
  }

  /** Empty or blank arguments name no channel. */
  lemma ParseChannelIDRefusesBlank(blank: string)
    requires forall k :: 0 <= k < |blank| ==> IsSpace(blank[k])
    ensures ParseChannelID(blank) == None
  {
    AllSpaceTrimmed(blank);
  }

  lemma {:induction false} AllSpaceTrimmed(s: string)
    requires forall k :: 0 <= k < |s| ==> IsSpace(s[k])
    ensures TrimLeftSpace(s) == ""
  {
    if |s| > 0 {
      assert IsSpace(s[0]);
      AllSpaceTrimmed(s[1..]);
    }
  }

  /** Only one '@' is dropped: whatever follows "@@", the text names no channel. */
  lemma ParseChannelIDDropsOneAt(rest: string)
    ensures ParseChannelID("@@" + rest) == None
  {
    var s := "@@" + rest;
    assert s[0] == '@' && s[1] == '@';
    assert TrimLeftSpace(s) == s;
    var t := TrimRightSpace(s);
    assert !IsSpace(s[1]);
    assert |t| >= 2;
    assert TrimSpace(s) == t;
    assert t[0] == '@' && t[1] == '@';
    assert HasPrefix(t, "@");
    var d := TrimPrefix(t, "@");
    assert d == t[1..] && d[0] == '@';
    assert !IsDigit(d[0]);
  }

  /**
   * Text that is not a number names no channel: once trimmed, a text that is
   * not empty and starts with neither a digit, a sign nor '@' is refused.
   */
  lemma ParseChannelIDRefusesText(s: string)
    requires var t := TrimSpace(s); t != "" && !IsDigit(t[0]) && t[0] != '+' && t[0] != '-' && t[0] != '@'
    ensures ParseChannelID(s) == None
  {
    var t := TrimSpace(s);
    assert !HasPrefix(t, "@");
    assert TrimPrefix(t, "@") == t;
  }

  /** A sender chat that is a channel. */
  predicate IsChannelSender(sender: Option<SenderChat>) {
    sender.Some? && sender.value.kind == Channel
  }

  /** The sender chat's id, or 0 when there is none. */
  function SenderId(sender: Option<SenderChat>): Int64 {
    if sender.Some? then sender.value.id else 0
  }

  /** `IsChannelMessage`: the message is sent on behalf of a channel. */
  predicate IsChannelMessage(m: Message) {
    IsChannelSender(m.senderChat)
  }

  /** `GetChannelID`: the sender chat's id, or 0 when there is none. */
  function GetChannelID(m: Message): Int64 {
    SenderId(m.senderChat)
  }

  lemma ChannelMessageIdentity(m: Message)
    ensures IsChannelMessage(m) ==> m.senderChat.Some? && GetChannelID(m) == m.senderChat.value.id
    ensures m.senderChat.None? ==> !IsChannelMessage(m) && GetChannelID(m) == 0
  {
  }

  // ----------------------------------------------------------------- text

  const EmptyListText: string := "No channels are whitelisted"
  const ListHeader: string := "Whitelisted channels:\n"

  /** `FormatChannelList`. */
  function FormatChannelList(channels: seq<string>): (r: string)
    ensures channels == [] ==> r == EmptyListText
    ensures channels != [] ==> HasPrefix(r, ListHeader)
  {
    if |channels| == 0 then EmptyListText else ListHeader + Join(channels, '\n')
  }

  /** The listed entries are exactly the lines after the header, when no entry spans a line break. */
  lemma FormatChannelListLines(channels: seq<string>)
    requires channels != []
    requires forall k :: 0 <= k < |channels| ==> '\n' !in channels[k]
    ensures Split(TrimPrefix(FormatChannelList(channels), ListHeader), '\n') == channels
  {
    var r := FormatChannelList(channels);
    assert r[|ListHeader|..] == Join(channels, '\n');
    SplitJoin(channels, '\n');
  }

  /**
   * `TruncateText`: text no longer than `maxLength` is kept; longer text
   * keeps its first `maxLength - 3` bytes and gets "..." so that it is
   * exactly `maxLength` long. With `maxLength < 3` the slice bound is
   * negative and Go panics: None.
   */
  function TruncateText(text: string, maxLength: int): (r: Option<string>)
    ensures r.None? <==> |text| > maxLength && maxLength < 3
    ensures r.Some? && |text| <= maxLength ==> r.value == text
    ensures r.Some? && |text| > maxLength ==>
              |r.value| == maxLength
              && r.value[..maxLength - 3] == text[..maxLength - 3]
              && r.value[maxLength - 3..] == "..."
  {
    if |text| <= maxLength then Some(text)
    else if maxLength < 3 then None
    else Some(text[..maxLength - 3] + "...")
  }

  // -------------------------------------------------------------- mentions

  predicate IsMention(e: Entity) { e.kind == "mention" }

  /** A Go slice `text[lo:hi]` is in range. */
  predicate SliceInRange(text: string, lo: int, hi: int) { 0 <= lo <= hi <= |text| }

  /**
   * The entity loop of `IsMentioningBot` from entity `i` on: Some(true) at a
   * mention whose slice is `mention`, None (a panic) at a mention whose slice is
   * out of range, Some(false) when the entities run out.
   */
  function EntityScan(text: string, entities: seq<Entity>, mention: string, i: nat): Option<bool>
    requires i <= |entities|
    decreases |entities| - i
  {
    if i == |entities| then Some(false)
    else
      var e := entities[i];
      if !IsMention(e) then EntityScan(text, entities, mention, i + 1)
      else if !SliceInRange(text, e.offset, e.offset + e.length) then None
      else if text[e.offset..e.offset + e.length] == mention then Some(true)
      else EntityScan(text, entities, mention, i + 1)
  }

  /** `IsMentioningBot`: the text test first, then the entity loop. */
  function MentionsBot(text: string, entities: seq<Entity>, botName: string): Option<bool> {
    if text != "" && Contains(text, "@" + botName) then Some(true)
    else EntityScan(text, entities, "@" + botName, 0)
  }

  predicate BadMention(text: string, e: Entity) {
    IsMention(e) && !SliceInRange(text, e.offset, e.offset + e.length)
  }

  lemma {:induction false} EntityScanFacts(text: string, entities: seq<Entity>, mention: string, i: nat)
    requires i <= |entities|
    requires !Contains(text, mention)
    ensures EntityScan(text, entities, mention, i) != Some(true)
    ensures EntityScan(text, entities, mention, i).None? <==> exists k :: i <= k < |entities| && BadMention(text, entities[k])
    decreases |entities| - i
  {
    if i < |entities| {
      var e := entities[i];
      EntityScanFacts(text, entities, mention, i + 1);
      if IsMention(e) && SliceInRange(text, e.offset, e.offset + e.length) {
        ContainsSlice(text, e.offset, e.offset + e.length);
      }
      if IsMention(e) && !SliceInRange(text, e.offset, e.offset + e.length) {
        assert BadMention(text, entities[i]);
      }
    }
  }

  /**
   * The entity loop never finds a mention the text test missed: when the
   * function does not panic it answers exactly whether the text contains
   * "@" + the bot's name, and it panics exactly when the text does not and
   * some mention entity lies outside the text.
   */
  lemma MentionsBotIff(text: string, entities: seq<Entity>, botName: string)
    ensures var r := MentionsBot(text, entities, botName);
            (r.Some? ==> (r.value <==> Contains(text, "@" + botName)))
            && (r.None? <==> !Contains(text, "@" + botName) && exists k :: 0 <= k < |entities| && BadMention(text, entities[k]))
  {
    if !Contains(text, "@" + botName) {
      EntityScanFacts(text, entities, "@" + botName, 0);
    } else {
      assert text != "";
    }
  }

  /** The loop of `IsMentioningBot`, with None for the panic of an out-of-range slice. */
  method IsMentioningBot(text: string, entities: seq<Entity>, botName: string) returns (r: Option<bool>)
    ensures r == MentionsBot(text, entities, botName)
  {
    var mention := "@" + botName;
    if text != "" && Contains(text, mention) {
      return Some(true);
    }
    r := ScanEntities(text, entities, mention);
  }

  /** The entity loop of `IsMentioningBot`. */
  method ScanEntities(text: string, entities: seq<Entity>, mention: string) returns (r: Option<bool>)
    ensures r == EntityScan(text, entities, mention, 0)
  {
    var i := 0;
    while i < |entities|
      invariant 0 <= i <= |entities|
      invariant EntityScan(text, entities, mention, i) == EntityScan(text, entities, mention, 0)
    {
      var e := entities[i];
      if IsMention(e) {
        if !(0 <= e.offset <= e.offset + e.length <= |text|) {
          return None;
        }
        if text[e.offset..e.offset + e.length] == mention {
          return Some(true);
        }
      }
      i := i + 1;
    }
    r := Some(false);
  }
}
