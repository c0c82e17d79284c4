/**
 * The short strings the bot writes into buttons, deep links and user states,
 * and the parsers that read them back: `claim:<chat>:<channel>` and its
 * siblings in callback data, `claim_<chat>_<channel>` in a `/start` payload,
 * and `waiting_reason:<chat>:<channel>` in a stored user state.
 */
module Payloads {
  import opened Wrappers
  import opened GoText

  // ---------------------------------------------------------------- encoders

  /** `<tag><sep><a><sep><b>` with both numbers printed by `%d`. */
  function Tagged(tag: string, sep: char, a: Int64, b: Int64): string {
    tag + [sep] + FormatInt(a) + [sep] + FormatInt(b)
  }

  function ClaimData(chat: Int64, channel: Int64): string { Tagged("claim", ':', chat, channel) }
  function ConfirmClaimData(chat: Int64, channel: Int64): string { Tagged("confirm_claim", ':', chat, channel) }
  function ConfirmChannelData(chat: Int64, channel: Int64): string { Tagged("confirm_channel", ':', chat, channel) }
  function ApproveData(chat: Int64, channel: Int64): string { Tagged("approve", ':', chat, channel) }
  function RejectData(chat: Int64, channel: Int64): string { Tagged("reject", ':', chat, channel) }
  const CancelClaimData: string := "cancel_claim"

  /** The `/start` payload of the private claim link. */
  function StartPayload(chat: Int64, channel: Int64): string { Tagged("claim", '_', chat, channel) }

  function StartLink(botName: string, chat: Int64, channel: Int64): string {
    "https://t.me/" + botName + "?start=" + StartPayload(chat, channel)
  }

  /** The user state that marks a user as owing a reason for an application. */
  function WaitingReasonState(chat: Int64, channel: Int64): string { Tagged("waiting_reason", ':', chat, channel) }

  // ----------------------------------------------------------------- parsing

  /** Reading `<tag><sep><a><sep><b>`: the number of parts is checked first, then each number. */
  datatype PairParse = WrongShape | BadNumber | Pair(first: Int64, second: Int64)

  function ParsePair(s: string, sep: char): PairParse {
    var parts := Split(s, sep);
    if |parts| != 3 then WrongShape
    else match (ParseInt64(parts[1]), ParseInt64(parts[2]))
      case (Some(a), Some(b)) => Pair(a, b)
      case _ => BadNumber
  }

  /** What a callback query's data asks for, in the order the callback handler tests it. */
  datatype Callback =
    | ClaimButton(parse: PairParse)
    | ConfirmClaim(parse: PairParse)
    | CancelClaim
    | ConfirmChannel(parse: PairParse)
    | Decision(approve: bool, parse: PairParse)
    | Unrecognised

  function ParseCallback(data: string): Callback {
    if HasPrefix(data, "claim:") then ClaimButton(ParsePair(data, ':'))
    else if HasPrefix(data, "confirm_claim:") then ConfirmClaim(ParsePair(data, ':'))
    else if data == CancelClaimData then CancelClaim
    else if HasPrefix(data, "confirm_channel:") then ConfirmChannel(ParsePair(data, ':'))
    else if HasPrefix(data, "approve:") || HasPrefix(data, "reject:") then
      Decision(HasPrefix(data, "approve:"), ParsePair(data, ':'))
    else Unrecognised
  }

  /** The `/start` argument names an application to claim only when it has this exact shape. */
  function ParseStartPayload(args: string): Option<(Int64, Int64)> {
    if HasPrefix(args, "claim_") then
      match ParsePair(args, '_')
      case Pair(a, b) => Some((a, b))
      case _ => None
    else None
  }

  /** A stored user state: none, a waiting-reason marker (well formed or not), or something else. */
  datatype UserStateParse = NoState | WaitingReason(parse: PairParse) | OtherState

  function ParseUserState(state: string): UserStateParse {
    if state == "" then NoState
    else if HasPrefix(state, "waiting_reason:") then WaitingReason(ParsePair(state, ':'))
    else OtherState
  }

  // -------------------------------------------------------------- round trips

  /** Every tagged pair whose tag lacks the separator parses back to its two numbers. */
  lemma TaggedRoundTrip(tag: string, sep: char, a: Int64, b: Int64)
    requires sep !in tag
    requires sep != '-' && !IsDigit(sep)
    ensures ParsePair(Tagged(tag, sep, a, b), sep) == Pair(a, b)
  {
    FormatIntHasNo(a, sep);
    FormatIntHasNo(b, sep);
    SplitWithoutSeparator(FormatInt(b), sep);
    SplitAtFirstSeparator(FormatInt(a), sep, FormatInt(b));
    assert Tagged(tag, sep, a, b) == tag + [sep] + (FormatInt(a) + [sep] + FormatInt(b));
    SplitAtFirstSeparator(tag, sep, FormatInt(a) + [sep] + FormatInt(b));
    ParseFormatInt(a);
    ParseFormatInt(b);
  }

  lemma PrefixOfTagged(tag: string, sep: char, a: Int64, b: Int64)
    ensures HasPrefix(Tagged(tag, sep, a, b), tag + [sep])
  {
    assert Tagged(tag, sep, a, b)[..|tag| + 1] == tag + [sep];
  }

  /** The claim button's data is read back as a claim of the same chat and channel. */
  lemma ClaimDataRoundTrip(chat: Int64, channel: Int64)
    ensures ParseCallback(ClaimData(chat, channel)) == ClaimButton(Pair(chat, channel))
  {
    TaggedRoundTrip("claim", ':', chat, channel);
    PrefixOfTagged("claim", ':', chat, channel);
  }

  lemma ConfirmClaimDataRoundTrip(chat: Int64, channel: Int64)
    ensures ParseCallback(ConfirmClaimData(chat, channel)) == ConfirmClaim(Pair(chat, channel))
  {
    var d := ConfirmClaimData(chat, channel);
    TaggedRoundTrip("confirm_claim", ':', chat, channel);
    PrefixOfTagged("confirm_claim", ':', chat, channel);
    assert d[1] == 'o';
    assert !HasPrefix(d, "claim:") by { assert "claim:"[1] == 'l'; }
  }

  lemma CancelClaimRoundTrip()
    ensures ParseCallback(CancelClaimData) == CancelClaim
  {
    assert !HasPrefix(CancelClaimData, "claim:") by { assert CancelClaimData[1] == 'a'; }
    assert !HasPrefix(CancelClaimData, "confirm_claim:") by { assert CancelClaimData[1] == 'a'; }
  }

  lemma ConfirmChannelDataRoundTrip(chat: Int64, channel: Int64)
    ensures ParseCallback(ConfirmChannelData(chat, channel)) == ConfirmChannel(Pair(chat, channel))
  {
    var d := ConfirmChannelData(chat, channel);
    TaggedRoundTrip("confirm_channel", ':', chat, channel);
    PrefixOfTagged("confirm_channel", ':', chat, channel);
    assert d[1] == 'o' && d[9] == 'h';
    DiffersAt(d, "claim:", 1);
    DiffersAt(d, "confirm_claim:", 9);
    assert d != CancelClaimData by { assert CancelClaimData[1] == 'a'; }
  }

  lemma DecisionDataRoundTrip(approve: bool, chat: Int64, channel: Int64)
    ensures ParseCallback(if approve then ApproveData(chat, channel) else RejectData(chat, channel))
            == Decision(approve, Pair(chat, channel))
  {
    var tag := if approve then "approve" else "reject";
    var d := Tagged(tag, ':', chat, channel);
    TaggedRoundTrip(tag, ':', chat, channel);
    PrefixOfTagged(tag, ':', chat, channel);
    assert d[0] == tag[0];
    assert !HasPrefix(d, "claim:") by { assert "claim:"[0] == 'c'; }
    assert !HasPrefix(d, "confirm_claim:") by { assert "confirm_claim:"[0] == 'c'; }
    assert !HasPrefix(d, "confirm_channel:") by { assert "confirm_channel:"[0] == 'c'; }
    assert d != CancelClaimData by { assert CancelClaimData[0] == 'c'; }
    if !approve {
      assert !HasPrefix(d, "approve:") by { assert "approve:"[0] == 'a'; }
    }
  }

  /** The private claim link carries a payload that `/start` reads back. */
  lemma StartPayloadRoundTrip(chat: Int64, channel: Int64)
    ensures ParseStartPayload(StartPayload(chat, channel)) == Some((chat, channel))
  {
    TaggedRoundTrip("claim", '_', chat, channel);
    PrefixOfTagged("claim", '_', chat, channel);
  }

  /** The state written while waiting for a reason is read back with the same chat and channel. */
  lemma WaitingReasonRoundTrip(chat: Int64, channel: Int64)
    ensures ParseUserState(WaitingReasonState(chat, channel)) == WaitingReason(Pair(chat, channel))
  {
    TaggedRoundTrip("waiting_reason", ':', chat, channel);
    PrefixOfTagged("waiting_reason", ':', chat, channel);
  }
}
