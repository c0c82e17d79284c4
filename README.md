# Telegram-Seer-Bot: moderation and application bookkeeping in Dafny

Telegram-Seer-Bot moderates Telegram groups. It does four things:

- It deletes the posts of channels that a group has not whitelisted.
- It logs each deleted post through a buffered queue.
- It warns the channel once a day.
- It runs an application workflow that lets a channel get onto the whitelist: `/apply` opens an application, a user claims it and proves ownership (by button, by `/claim` or by the `/start claim_...` link, with a reason typed in private), and an administrator approves or rejects it (by command or by button).

This project models that core.

- **Storage.** `Database.DB` is a class with one field per SQLite table:
  - the whitelist;
  - the blocked-post log;
  - group settings;
  - channel applications;
  - user states;
  - daily prompt records.

  Each method of `db/database.go` is a method of this class. Its contract relates it to a pure function of module `Store`. The facts about those functions live in `Store` and `StoreFacts`. The UNIQUE constraints of the schema become the invariant `Store.WellFormed`. One part of it, `Store.ApplicationsUnique` (one application row per (chat, channel)), is stronger than the schema's UNIQUE(chat_id, channel_id, user_id). It is not taken from the schema: it follows from the create-or-reopen rule of `CreateChannelApplication` (db/database.go:336-352), which inserts only when the pair has no row and otherwise updates that row.
- **Handlers.** `Handlers.Handler` is a class holding:
  - the database;
  - the configuration;
  - the command table;
  - the queue of blocked posts;
  - a trace of the requests sent to Telegram (a message or edit sent, a callback answer, a deletion requested).

  Each handler of `handlers/*.go` is written twice:
  - a method on the handler, doing the reads, writes and requests in the order the Go code does them;
  - a function from the state (tables, queue, trace) to the next state and the returned error.

  The method's contract says it computes exactly that function. The properties of the handlers are lemmas about the functions.
- **Telegram.** Telegram is an oracle, `Telegram.Env`. It supplies:
  - which chats a message fails to reach;
  - whether a callback answer succeeds;
  - what `GetChat` and `GetChatAdministrators` return (a missing entry is a lookup error);
  - whether the moderation gate's whitelist query succeeds;
  - today's date and the current time as text.

  Messages are recorded by kind (`Telegram.Notice`) and the data they carry, not by wording.
- **Retry loops.** The retry loops of `LogBlockedMessage` and `deleteMessageWithTimeout` run against a scripted sequence of attempt outcomes. They return the number of attempts and the list of back-off sleeps instead of sleeping.
- **Go library semantics.** Module `GoText` models the semantics of the Go library the code relies on:
  - `strings.Split`/`Join`/`TrimSpace`/`TrimPrefix`/`HasPrefix`/`Contains`;
  - `%d` formatting;
  - `strconv.ParseInt`;
  - `fmt.Sscanf("%d")`.

  Module `Payloads` models the callback data, the `/start` payload and the user-state strings that encode a (group, channel) pair.

Integers of the Go code that are `int64` are `Int64`, a subtype of `int` bounded to the 64-bit range. Strings are sequences of characters, one per Unicode code point.

## Model

| member | source | states |
|---|---|---|
| GoText.Split | handlers/callback_handlers.go:20 | `strings.Split` with a one-character separator gives at least one part, and no part holds the separator |
| GoText.SplitJoin | handlers/callback_handlers.go:20-23 | splitting a joined list of separator-free parts gives the parts back |
| GoText.JoinSplit | handlers/callback_handlers.go:20-23 | joining the parts of a split gives the string back, so splitting loses nothing |
| GoText.TrimPrefix | handlers/message_handlers.go:123-127 | with the prefix present, the prefix followed by the result is the input; without it, the input is returned unchanged |
| GoText.TrimSpace | utils/utils.go:43 | the result is a middle slice of the input with only white space cut on either side, and it neither starts nor ends with white space |
| GoText.FormatNat | handlers/applications.go:95 | `%d` of a natural number gives at least one digit, only digits, and no leading zero |
| GoText.FormatInt | handlers/applications.go:95 | `%d` of an integer gives digits, with a minus sign allowed only in front |
| GoText.FormatNatValue | handlers/applications.go:95 | the value of the printed digits is the number printed |
| GoText.ParseFormatInt | handlers/callback_handlers.go:25-34 | `strconv.ParseInt` reads back every int64 that `%d` printed |
| GoText.LeadingDigits | handlers/applications.go:121-125 | the result is the longest prefix of the input made only of digits |
| GoText.ScanFormatInt | handlers/applications.go:121-125 | `fmt.Sscanf("%d")` reads back every int64 that `%d` printed, whatever non-digit text follows it |
| Payloads.TaggedRoundTrip | handlers/callback_handlers.go:20-34 | a `<tag>:<a>:<b>` string whose tag lacks the separator splits into exactly three parts, and both numbers parse back |
| Payloads.ClaimDataRoundTrip | handlers/applications.go:95 | the `claim:%d:%d` data of the application's button is parsed by the callback handler as a claim of the same pair |
| Payloads.ConfirmClaimDataRoundTrip | handlers/basic_commands.go:96 | the `confirm_claim:%d:%d` data is read back as a group confirmation of the same pair, not as a claim |
| Payloads.CancelClaimRoundTrip | handlers/callback_handlers.go:268 | the `cancel_claim` button is read as a cancellation |
| Payloads.ConfirmChannelDataRoundTrip | handlers/callback_handlers.go:284-299 | the `confirm_channel:%d:%d` data is read back as a private confirmation of the same pair |
| Payloads.DecisionDataRoundTrip | handlers/channel_utils.go:78-79 | the `approve:%d:%d` and `reject:%d:%d` buttons are read back as that decision on the same pair |
| Payloads.StartPayloadRoundTrip | handlers/basic_commands.go:15-22 | the `claim_%d_%d` link payload built by `/apply` is parsed by `/start` as the same pair |
| Payloads.WaitingReasonRoundTrip | handlers/message_handlers.go:264-281 | the `waiting_reason:%d:%d` state written by `/claim` is parsed by the private handler as the same pair |
| Store.WithoutChannel | db/database.go:156-162 | removing a pair keeps exactly the rows of other pairs and never adds a row |
| Store.ChannelsOf | db/database.go:178-218 | the listed rows are exactly the group's whitelist rows |
| Store.WhitelistedIff | db/database.go:165-175 | a pair is whitelisted exactly when some row holds it |
| Store.WithoutChannelWhitelisted | db/database.go:156-162 | after removing a pair, exactly the pairs other than it are still whitelisted |
| Store.AppendWhitelisted | db/database.go:147-153 | inserting a pair that is not present keeps UNIQUE(chat_id, channel_id), whitelists the pair and changes no other pair |
| Store.WithoutChannelUnique | db/database.go:156-162 | removing a pair keeps UNIQUE(chat_id, channel_id) |
| Store.BlockedCount | db/database.go:248-258 | a group's blocked-post count never exceeds the log's size |
| Store.BlockedCountAppend | db/database.go:221-245 | logging a post raises its own group's count by one and no other group's |
| Store.EnsureSettings | db/database.go:261-301 | after `GetOrCreateGroupSettings` the group has a row, every existing row is kept, and no other group gains one |
| Store.LatestRow | db/database.go:319-334 | the row found is the pair's last row in table order, and no row is found only when the pair has none |
| Store.LatestPendingRow | db/database.go:566-597 | the row found is the pair's last pending row, and no row is found only when the pair has no pending row |
| Store.PendingApplicationOf | db/database.go:566-597 | an application is found exactly when the pair has a pending one, and it is a pending row of the pair |
| Store.ApplicationOf | db/database.go:356-385 | a row is found only for the given (chat, channel, user) triple, and nothing is found only when no row has that triple |
| Store.PendingApplications | db/database.go:421-457 | the list holds exactly the pending rows |
| Store.SetStatus | db/database.go:388-395 | setting a status adds and removes no row |
| Store.MarkVerified | db/database.go:398-405 | marking ownership verified adds and removes no row |
| Store.SetReason | db/database.go:556-563 | setting a reason adds and removes no row |
| Store.MarkPromptDate | db/database.go:408-418 | recording the prompt date adds and removes no row |
| Store.ClearPromptedToday | db/database.go:667-673 | clearing the daily flags adds and removes no row |
| StoreFacts.PendingIsLatest | db/database.go:566-597 | with one row per pair, the pending row is the latest row, and a pair whose latest row is not pending has no pending row |
| StoreFacts.OpenRefusedIffPending | db/database.go:319-334 | `CreateChannelApplication` is refused exactly when the pair has a pending application, and a refusal changes nothing |
| StoreFacts.OpenAccepted | db/database.go:337-352 | an accepted application leaves the pair with one pending, unverified row for the user and reason; a row is inserted only when the pair had none, and no other row changes |
| StoreFacts.ClaimOutcome | db/database.go:478-518 | a claim is refused as "claimed" exactly when another user holds the pending row, refused as "not found" exactly when none is pending, and otherwise only the pending row takes the user |
| StoreFacts.ClaimExclusive | db/database.go:478-492 | once a user holds a pending application, every other user's claim is refused and changes nothing |
| StoreFacts.ClaimRepeatable | db/database.go:478-518 | the same user claiming again succeeds and changes nothing |
| StoreFacts.ClaimThenVerify | db/database.go:398-405 | a claim followed by a verification for the claimant leaves the pair's pending application held by the claimant and verified |
| StoreFacts.TripleUpdatesTouchOnlyTriple | db/database.go:388-405 | verification and status updates change exactly the rows of the (chat, channel, user) triple, whatever their status, and keep one row per pair |
| StoreFacts.PairUpdatesKeepInvariant | db/database.go:556-563 | the reason, prompt-date and daily-reset updates keep one row per pair |
| StoreFacts.DecidedLeavesNoPending | db/database.go:388-395 | once an application's status is set to approved or rejected, its pair has no pending application |
| StoreFacts.RecordDailyPromptFacts | db/database.go:624-634 | a recorded prompt is seen for the rest of the day, a second record is the same as one (insert-or-ignore), and records of another pair, kind or day are untouched |
| StoreFacts.ResetKeepsToday | db/database.go:658-676 | after the midnight reset a prompt is seen exactly when it is today's and was recorded |
| StoreFacts.ReasonOfPending | db/database.go:556-563 | setting a reason gives the pair's pending application that reason and keeps it the pending one |
| Retry.LockBackoffs | db/database.go:235-238 | the i-th sleep of the insert retry is 100·(i+1)² ms |
| Retry.FirstNotLocked | db/database.go:224-243 | the attempt found is the first at or after the start that is not refused with "database is locked", or the fifth when all are |
| Retry.LogRetry | db/database.go:221-245 | at most five attempts; success exactly when the last attempt succeeded; every earlier attempt was refused as locked and followed by a 100·(i+1)² ms sleep; a locked attempt before the fifth is always retried; any other error is returned at once |
| Retry.DeleteBackoffs | handlers/message_handlers.go:360-374 | the i-th sleep of the delete retry is 500·(i+1)² ms after "Too Many Requests" and 200·(i+1) ms after other errors |
| Retry.FirstFinal | handlers/message_handlers.go:352-375 | the attempt found is the first at or after the start that ends the loop, or the fifth when none does |
| Retry.DeleteRetry | handlers/message_handlers.go:345-377 | at most five attempts; the message is deleted exactly when the last attempt succeeded; it stops early only at a success, "Forbidden" or "Message to delete not found"; each retry sleeps as its error says |
| Retry.DeleteMessageWithTimeout | handlers/message_handlers.go:345-377 | the loop makes the attempts and sleeps that `DeleteRetry` describes |
| Database.DB.constructor | db/database.go:54-144 | a new database has every table empty, and the invariant holds |
| Database.DB.AddChannelToWhitelist | db/database.go:147-153 | the insert fails exactly for a pair already present and then changes nothing; otherwise one row is appended |
| Database.DB.RemoveChannelFromWhitelist | db/database.go:156-162 | the pair's rows are deleted, nothing else, and the invariant is kept |
| Database.DB.IsChannelWhitelisted | db/database.go:165-175 | the answer is true exactly when some row holds the pair |
| Database.DB.GetWhitelistedChannels | db/database.go:178-218 | the row-by-row collection returns exactly the group's rows, latest added first |
| Database.DB.LogBlockedMessage | db/database.go:221-245 | the insert is attempted as the retry policy says, and the row is written exactly when an attempt succeeds |
| Database.DB.GetBlockedMessagesStats | db/database.go:248-258 | the count is the number of the group's logged posts |
| Database.DB.LogBlockedMessagesBatch | db/database.go:699-717 | the batch succeeds exactly when the statement is prepared and every insert runs, and it then stages the whole array in order |
| Database.DB.CommitBatch | handlers/message_queue.go:56-61 | a commit writes all staged rows together, and a failed one writes none |
| Database.DB.GetOrCreateGroupSettings | db/database.go:261-301 | the group's row is returned, and a missing row is inserted with the defaults (enabled, administrators only, no log channel) |
| Database.DB.UpdateGroupSettings | db/database.go:304-311 | the row keyed by the group is replaced, and no other row changes |
| Database.DB.CreateChannelApplication | db/database.go:314-353 | the writes and the error are those of the create-or-reopen rule |
| Database.DB.GetChannelApplication | db/database.go:356-385 | the row of the triple, if any |
| Database.DB.UpdateChannelApplicationStatus | db/database.go:388-395 | every row of the triple takes the status |
| Database.DB.VerifyChannelOwnership | db/database.go:398-405 | every row of the triple is marked verified |
| Database.DB.UpdateLastPromptDate | db/database.go:408-418 | the pair's pending rows record today's date |
| Database.DB.GetPendingApplications | db/database.go:421-457 | the row-by-row collection returns exactly the pending rows, in table order |
| Database.DB.GetChannelApplicationByDate | db/database.go:460-473 | true exactly when some row of the pair was last prompted on the date |
| Database.DB.UpdateChannelApplicationUser | db/database.go:476-519 | the COUNT check, the lookup and the UPDATE, run one after another, write what the claim rule says and return its error |
| Database.DB.UpdateChannelApplicationReason | db/database.go:556-563 | the pair's pending rows take the reason |
| Database.DB.GetPendingChannelApplication | db/database.go:566-597 | an application is found exactly when the pair has a pending one |
| Database.DB.HasPendingApplication | db/database.go:679-691 | true exactly when a pending row holds the pair |
| Database.DB.SetUserState | db/database.go:522-530 | the user's state is replaced, and no other user's changes |
| Database.DB.GetUserState | db/database.go:533-544 | the stored state, or "" for a user without one |
| Database.DB.ClearUserState | db/database.go:547-553 | only the user's state goes |
| Database.DB.HasChannelDailyPrompt | db/database.go:606-621 | true exactly when a record of the pair, kind and today exists |
| Database.DB.RecordChannelDailyPrompt | db/database.go:624-634 | today's record is inserted or ignored |
| Database.DB.HasPromptedToday | db/database.go:638-640 | the warning kind of the daily prompt query |
| Database.DB.HasPendingNoticeToday | db/database.go:643-645 | the pending-notice kind of the daily prompt query |
| Database.DB.RecordPrompt | db/database.go:648-650 | records today's warning |
| Database.DB.RecordPendingNotice | db/database.go:653-655 | records today's pending notice |
| Database.DB.ResetDailyPrompts | db/database.go:658-676 | only records of another day are deleted; the daily flags are cleared only when that delete succeeded; success exactly when both statements succeed |
| Search.FirstMatchAt | handlers/applications.go:137-143 | the position found holds the first fitting application from the start on, and nothing is found only when none fits |
| Search.FirstMatch | handlers/applications.go:137-143 | the application picked fits, and none before it does; nothing is picked only when none fits |
| Search.FindTarget | handlers/applications.go:137-143 | the loop with `break` picks what `FirstMatch` picks |
| Search.PairSearchFindsPendingRow | handlers/callback_handlers.go:418-430 | searching the pending list for a pair finds the pair's pending application exactly when that application is unclaimed (or verified, for a decision) |
| Search.SearchFindsPending | handlers/applications.go:323-328 | whatever the target, the search picks a pending application of the table |
| Utils.IsGlobalAdmin | utils/utils.go:32-39 | true exactly when the user is among the configured administrators |
| Utils.IsAdmin | utils/utils.go:12-29 | the lookup fails exactly when the administrator list cannot be fetched; otherwise true exactly when the user is on the list |
| Utils.TrimSpaceKeeps | utils/utils.go:43 | a text without white space at either end is kept as it is |
| Utils.ParseChannelIDRoundTrip | utils/utils.go:42-59 | a channel id printed with `%d`, with or without one '@' before it, parses back to itself |
| Utils.ParseChannelIDRefusesBlank | utils/utils.go:43-46 | empty or all-blank arguments name no channel |
| Utils.ParseChannelIDDropsOneAt | utils/utils.go:49-51 | only one leading '@' is dropped: every text starting with "@@" names no channel, whatever follows |
| Utils.ParseChannelIDRefusesText | utils/utils.go:53-56 | every text that, once trimmed, is not empty and starts with neither a digit, a sign nor '@' names no channel |
| Utils.ChannelMessageIdentity | utils/utils.go:62-72 | a channel message has a sender chat whose id is the channel id; a message without a sender chat is no channel message and has id 0 |
| Utils.FormatChannelList | utils/utils.go:75-81 | an empty list gives the fixed empty text, and any other list starts with the header |
| Utils.FormatChannelListLines | utils/utils.go:75-81 | the lines after the header are exactly the entries, when no entry spans a line break |
| Utils.TruncateText | utils/utils.go:84-89 | text that fits is kept; longer text keeps its first max−3 bytes and ends in "...", exactly max long; with max < 3 the slice panics |
| Utils.MentionsBotIff | utils/utils.go:92-109 | without a panic the answer is exactly whether the text contains "@" and the bot's name; it panics exactly when the text does not and some mention entity lies outside the text |
| Utils.IsMentioningBot | utils/utils.go:92-109 | the text test, then the entity loop, give what `MentionsBot` describes |
| Utils.ScanEntities | utils/utils.go:96-106 | the entity loop with early returns gives what `EntityScan` describes |
| Handlers.CommandTableFacts | handlers/handler.go:43-57 | the command table holds exactly the fifteen names, `wl`/`whitelist` and `unwl`/`unwhitelist` share their handler, and every handler has a name |
| Handlers.ApplyAndClaimBound | handlers/handler.go:56-57 | `apply` and `claim` are bound to their handlers |
| Handlers.Handler.New | handlers/handler.go:32-66 | a new handler has the fifteen-name table, an empty queue and an empty trace |
| ChannelUtils.ChannelName | handlers/channel_utils.go:10-23 | the shown name is the fetched title when it is not empty, otherwise "ID: " and the id |
| ChannelUtils.ChannelNameNamesChannel | handlers/channel_utils.go:10-23 | the name is the title, or a label from which the id reads back |
| ChannelUtils.NonBotAdmins | handlers/channel_utils.go:85-91 | exactly the group's administrators that are not bots, in list order |
| ChannelUtils.UnlistedGlobals | handlers/channel_utils.go:94-108 | exactly the configured administrators that no entry of the group's list carries, in configuration order |
| ChannelUtils.NotifyAdminsEffects | handlers/channel_utils.go:26-112 | a failed lookup sends nothing; otherwise one notice per recipient, nothing else changes, and each notice's buttons read back as approval and rejection of this pair |
| ChannelUtils.NotifyRecipientsIff | handlers/channel_utils.go:85-108 | a user is notified exactly when they are a non-bot group administrator, or a configured administrator the group's list does not carry (so a configured administrator listed as a bot gets nothing) |
| ChannelUtils.RecipientsDistinct | handlers/channel_utils.go:94-108 | nobody is notified twice when both lists are free of repeats |
| ChannelUtils.NotifyGroupAdmins | handlers/channel_utils.go:85-91 | the first loop sends one notice to each non-bot group administrator, in order |
| ChannelUtils.AlreadyNotified | handlers/channel_utils.go:96-101 | the inner scan is true exactly when the group's list carries the user |
| ChannelUtils.NotifyGlobalAdmins | handlers/channel_utils.go:94-108 | the second loop sends one notice to each configured administrator the list does not carry, in order |
| ChannelUtils.SendNotices | handlers/channel_utils.go:85-108 | both loops together send one notice to each recipient, in order |
| ChannelUtils.NotifyAdminsAboutApplication | handlers/channel_utils.go:26-112 | the handler's trace and error are those `NotifyAdmins` describes |
| Applications.ApplyRefusesWithoutState | handlers/applications.go:14-25 | outside a group, or from a sender that is not a channel, `/apply` only answers |
| Applications.ApplyWhilePending | handlers/applications.go:38-60 | a pending application blocks a new one; the reminder goes out once a day and is recorded only when delivered; a later `/apply` that day is deleted |
| Applications.ApplyOpensApplication | handlers/applications.go:76-113 | a channel without a pending application that is not whitelisted gets a pending, unclaimed, unverified application with the arguments as reason; its message carries a claim button and a link that read back as this pair |
| Applications.ApplyWhitelistedChannel | handlers/applications.go:62-74 | a whitelisted channel gets no application |
| Applications.ApplyKeepsWellFormed | handlers/applications.go:12-114 | `/apply` keeps the tables' invariant |
| Applications.UnclaimedIsClaimable | handlers/applications.go:137-149 | a pending application nobody holds can be claimed by anyone |
| Applications.ClaimWithoutTarget | handlers/applications.go:119-149 | a missing or zero channel id, or no unclaimed pending application of the channel: `/claim` writes nothing |
| Applications.ClaimPicksFirstUnclaimed | handlers/applications.go:137-143 | the target is a pending, unclaimed application of the channel that precedes every other such application |
| Applications.ClaimWithoutReason | handlers/applications.go:186-214 | an application without a reason is never claimed by `/claim`: a group only gets a private link, and a private chat puts the user in the waiting state for this pair |
| Applications.ClaimAsksConfirmation | handlers/applications.go:217-229 | with account verification, `/claim` writes nothing and only asks for confirmation |
| Applications.ClaimTakesTarget | handlers/applications.go:230-286 | without account verification the sender claims the target and it is verified; the returned error is the notification's or the confirmation's |
| Applications.DecideGuards | handlers/applications.go:292-302 | outside a private chat a decision command does nothing; a sender who is not a configured administrator is only told so |
| Applications.DecisionEffects | handlers/applications.go:337-373 | approving an already-whitelisted channel changes nothing; otherwise the channel is whitelisted (approval only), the application leaves the pending list, nothing else changes, and applicant and group are told |
| Applications.DecideTargetReply | handlers/applications.go:376-378 | the reply goes to the administrator, and its send error is returned unless the decision failed |
| Applications.DecisionIsFinal | handlers/applications.go:322-334 | a second decision on the same application finds nothing |
| Applications.HandleApply | handlers/applications.go:12-114 | the handler's state and error are those of `Apply` |
| Applications.HandleClaim | handlers/applications.go:117-287 | the handler's state and error are those of `Claim` |
| Applications.HandleClaimTarget | handlers/applications.go:186-287 | the handler's state and error are those of `ClaimTarget` |
| Applications.HandleDecision | handlers/applications.go:290-379 | the handler's state and error are those of `Decide` (also for `/reject`, lines 382-463) |
| Applications.ApplyDecision | handlers/applications.go:337-373 | the handler's state and error are those of `Decision` |
| Applications.HandleDecisionTarget | handlers/applications.go:337-378 | the handler's state and error are those of `DecideTarget` |
| Callbacks.ClaimPressedWritesNothing | handlers/callback_handlers.go:42-153 | a claim button writes no table and touches no queue, and with no pending application it only answers so |
| Callbacks.ClaimPressedOffersButtons | handlers/callback_handlers.go:101-153 | for an unclaimed pending application with a reason, the message is edited first, and its buttons read back as a confirmation of this pair (group or private kind) and as a cancellation |
| Callbacks.TakeClaimEffects | handlers/callback_handlers.go:173-249 | a refused claim changes nothing; an accepted one leaves the pending application held by the presser and verified, changes no other table, keeps the invariant, and fails only on a lookup of the notification |
| Callbacks.ConfirmationsWriteTheClaim | handlers/callback_handlers.go:154-376 | both confirmations write exactly what the claim writes and succeed exactly when the claim is accepted and every request goes through |
| Callbacks.SecondClaimRefused | handlers/callback_handlers.go:173-186 | after one user's accepted confirmation, another user's confirmation of the same pair is refused and writes nothing |
| Callbacks.CancelWritesNothing | handlers/callback_handlers.go:268-283 | `cancel_claim` changes no table |
| Callbacks.DecisionNeedsAdmin | handlers/callback_handlers.go:399-407 | a presser who is neither a configured administrator nor an administrator of the group (a failed lookup counts as no) changes nothing |
| Callbacks.DecisionPressedEffects | handlers/callback_handlers.go:418-516 | a permitted decision acts only on a verified pending application; then the pair is left with none pending, unless an approval found the channel already whitelisted |
| Callbacks.MalformedCallbackIgnored | handlers/callback_handlers.go:20-34 | data that does not parse writes nothing and is an error; unknown data does nothing |
| Callbacks.CallbackKeepsWellFormed | handlers/callback_handlers.go:14-521 | no button press breaks the tables' invariant or touches the queue |
| Callbacks.HandleCallbackQuery | handlers/callback_handlers.go:14-521 | the handler's state and error are those of `HandleCallback` |
| Callbacks.HandleClaimButton | handlers/callback_handlers.go:19-153 | the handler's state and error are those of `ClaimPressed` |
| Callbacks.TakeClaimOnHandler | handlers/callback_handlers.go:173-196 | the handler's state and error are those of `TakeClaim` |
| Callbacks.HandleConfirmClaim | handlers/callback_handlers.go:154-267 | the handler's state and error are those of `ConfirmClaimPressed` |
| Callbacks.HandleCancelClaim | handlers/callback_handlers.go:268-283 | the handler's state and error are those of `CancelPressed` |
| Callbacks.HandleConfirmChannel | handlers/callback_handlers.go:284-376 | the handler's state and error are those of `ConfirmChannelPressed` |
| Callbacks.HandleDecisionButton | handlers/callback_handlers.go:377-517 | the handler's state and error are those of `DecisionPressed` |
| BasicCommands.StartGreets | handlers/basic_commands.go:113-120 | `/start` without a claim payload only greets |
| BasicCommands.StartOffersConfirmation | handlers/basic_commands.go:94-108 | following the link `/apply` posts to an unclaimed pending application with a reason writes nothing, and offers buttons that read back as a confirmation and a cancellation of this pair |
| BasicCommands.StartAsksReason | handlers/basic_commands.go:80-91 | for an application without a reason only the user's state changes, to the waiting state of this pair |
| BasicCommands.StartFindsNothing | handlers/basic_commands.go:31-43 | a link to a pair without an unclaimed pending application only says so |
| BasicCommands.Entries | handlers/basic_commands.go:173-199 | one entry per row, in row order |
| BasicCommands.BuildChannelList | handlers/basic_commands.go:169-199 | the `+=` loop builds exactly the list text |
| BasicCommands.AppendEntry | handlers/basic_commands.go:188-198 | one turn of the loop adds the next entry and, unless it is the last, a separator |
| BasicCommands.EntryNumbered | handlers/basic_commands.go:188-189 | an entry starts with its number followed by a non-digit |
| BasicCommands.ChannelListLayout | handlers/basic_commands.go:168-199 | an empty group gets the fixed text; otherwise the title is followed by one entry per row, separated by blank lines with none after the last, and the k-th entry starts with k + 1 |
| BasicCommands.ListChannelsShowsGroup | handlers/basic_commands.go:151-205 | the list names exactly the group's whitelisted rows, newest first, and changes nothing |
| BasicCommands.ChannelCountAppend | handlers/basic_commands.go:224-233 | whitelisting a channel raises its group's `/stats` channel count by one and no other group's |
| BasicCommands.StatsFollowTables | handlers/basic_commands.go:208-238 | `/stats` counts each whitelisted row and each logged post of the group once, and changes nothing |
| BasicCommands.HandleStart | handlers/basic_commands.go:13-121 | the handler's state and error are those of `Start` |
| BasicCommands.HandleHelp | handlers/basic_commands.go:124-148 | the handler's state and error are those of `Help` |
| BasicCommands.HandleListChannels | handlers/basic_commands.go:151-205 | the handler's state and error are those of `ListChannels` |
| BasicCommands.HandleStats | handlers/basic_commands.go:208-238 | the handler's state and error are those of `Stats` |
| AdminCommands.ChannelSourceOf | handlers/admin_commands.go:41-65 | a reply wins over the arguments; a reply from no channel, or no source at all, names no channel |
| AdminCommands.GateFacts | handlers/admin_commands.go:13-65 | the gate lets a command through exactly for a permitted sender in a group whose administrators were fetched and who named a channel; it writes only the default settings row |
| AdminCommands.AddChannelEffects | handlers/admin_commands.go:68-94 | after the gate the channel is whitelisted in this group and no other pair changes; a stop at the gate leaves the whitelist as it was; the invariant is kept |
| AdminCommands.UnwhitelistEffects | handlers/admin_commands.go:155-181 | after the gate the channel is no longer whitelisted in this group and no other pair changes; a stop at the gate leaves the whitelist as it was; the invariant is kept |
| AdminCommands.RemoveUndoesAdd | handlers/admin_commands.go:162-169 | removing a channel that was just added restores the whitelist exactly |
| AdminCommands.AddThenRemove | handlers/admin_commands.go:75-82 | an add that went through, followed by a remove of the same channel, leaves the whitelist as it was |
| AdminCommands.SetEnabledEffects | handlers/admin_commands.go:185-268 | a permitted switch changes only the group's `enabled` flag; a refused one or a failed lookup changes nothing |
| AdminCommands.SettingsOfNewGroup | handlers/admin_commands.go:271-309 | a group never configured shows: enabled, administrators only, no log channel |
| AdminCommands.SettingsShowSwitch | handlers/admin_commands.go:201-215 | after a permitted `/enable` or `/disable`, `/settings` reports the state set |
| AdminCommands.WhitelistGateOnHandler | handlers/admin_commands.go:13-65 | the handler's settings row, checks and channel are those of `WhitelistGate` |
| AdminCommands.HandleAddChannel | handlers/admin_commands.go:11-95 | the handler's state and error are those of `AddChannel` |
| AdminCommands.HandleUnwhitelist | handlers/admin_commands.go:98-182 | the handler's state and error are those of `Unwhitelist` |
| AdminCommands.HandleSetEnabled | handlers/admin_commands.go:185-268 | the handler's state and error are those of `SetEnabled` |
| AdminCommands.HandleSettings | handlers/admin_commands.go:271-309 | the handler's state and error are those of `Settings` |
| MessageQueue.LoggedEach | handlers/message_queue.go:62-67 | what the fallback writes: the records whose retries end in a successful insert, in queue order |
| MessageQueue.LoggedEachIsSubsequence | handlers/message_queue.go:62-67 | the fallback writes only queued records, each at most once, in queue order |
| MessageQueue.FallbackLosesNothing | handlers/message_queue.go:62-67 | when every record's first insert succeeds, the fallback writes the whole queue |
| MessageQueue.FlushEmptyIsNoOp | handlers/message_queue.go:23-27 | flushing an empty queue writes nothing |
| MessageQueue.FlushAppendsQueued | handlers/message_queue.go:20-68 | a flush keeps every earlier row and adds only queued records, at most once each and in order; after an opened transaction whose batch goes through it adds the whole queue, or nothing when the commit fails |
| MessageQueue.FlushWritesWholeQueue | handlers/message_queue.go:46-67 | when fallback inserts succeed at their first attempt and a good batch commits, the flush writes the whole queue in order |
| MessageQueue.AddToMessageQueue | handlers/message_queue.go:71-81 | exactly one record is appended at the end of the queue |
| MessageQueue.LogEach | handlers/message_queue.go:62-67 | the record-by-record loop writes what `LoggedEach` describes |
| MessageQueue.FlushMessageQueue | handlers/message_queue.go:20-68 | the queue is left empty, and the log gains what `Flushed` describes, no other state changes |
| MessageHandlers.MentionedApplyMissedAsWritten | handlers/message_handlers.go:120-127 | as written, "/apply@<bot> <reason>" fails the test of line 120 |
| MessageHandlers.ApplyTextCarriesReason | handlers/message_handlers.go:120-127 | with the test corrected, "/apply", "/apply@<bot>" and both spellings with a reason are recognised and carry that reason |
| MessageHandlers.MessageRouting | handlers/message_handlers.go:16-22 | private chats go to the private handler, and other chats that are not groups are ignored |
| MessageHandlers.DisabledGroupIgnored | handlers/message_handlers.go:26-33 | a group where the bot is disabled is left exactly as it was |
| MessageHandlers.WhitelistedPostPasses | handlers/message_handlers.go:35-120 | every post of a whitelisted channel that the test of line 120 lets pass is neither deleted nor queued and changes only the settings row; of these, only "/apply@<bot> <reason>" is handled, as "/apply" typed as text, by the corrected test |
| MessageHandlers.BlockedPostDeleted | handlers/message_handlers.go:47-49 | every blocked post, `/apply` included, is deleted first, and whitelist and settings are untouched |
| MessageHandlers.ApplyKeepsTrace | handlers/applications.go:12-114 | `/apply` only adds requests to the trace, only writes applications, and keeps the whitelist |
| MessageHandlers.BlockedCommandQueued | handlers/message_handlers.go:88-90 | a command other than `/apply` from a channel that is not whitelisted is deleted and queued, with no notice |
| MessageHandlers.BlockedPlainPost | handlers/message_handlers.go:94-115 | any other post is deleted and queued; the warning goes out only when none was recorded today, and is recorded only when delivered |
| MessageHandlers.WarningOncePerDay | handlers/message_handlers.go:94-110 | after a delivered warning, the next plain post of that channel in that group the same day is only deleted and queued |
| MessageHandlers.BlockedApplyWhilePending | handlers/message_handlers.go:52-80 | `/apply` while an application is pending is deleted and not queued; the reminder goes out once a day and is recorded only when delivered |
| MessageHandlers.BlockedApplyApplies | handlers/message_handlers.go:52-84 | `/apply` with nothing pending is deleted and then handled by `HandleApply` |
| MessageHandlers.PrivateMessageGuards | handlers/message_handlers.go:255-281 | without a waiting state nothing happens; a malformed one is an error that changes nothing |
| MessageHandlers.ReasonReplyTables | handlers/message_handlers.go:284-336 | the reply's writes: the reason is set, and then the claim and verification follow; the state is dropped only after every step succeeded; nothing else changes |
| MessageHandlers.ReasonCompletesClaim | handlers/message_handlers.go:255-336 | after `/start claim_...` stored the waiting state, the next text becomes the pending application's reason and the user holds it, verified; the state is cleared exactly when every step succeeded |
| MessageHandlers.PrivateMessageKeepsWellFormed | handlers/message_handlers.go:253-342 | a private reply keeps the tables' invariant |
| MessageHandlers.GroupMessageKeepsWellFormed | handlers/message_handlers.go:21-168 | a group message keeps the tables' invariant |
| MessageHandlers.HandleMessageKeepsWellFormed | handlers/message_handlers.go:14-250 | `HandleMessage` keeps the tables' invariant |
| MessageHandlers.HandleMessage | handlers/message_handlers.go:14-250 | the handler's state and error are those of `OnMessage` |
| MessageHandlers.HandleBlockedPost | handlers/message_handlers.go:47-115 | the handler's state and error are those of `BlockedPost` |
| MessageHandlers.HandleApplyText | handlers/message_handlers.go:120-168 | the handler's state and error are those of `ApplyText` |
| MessageHandlers.HandlePrivateMessage | handlers/message_handlers.go:253-342 | the handler's state and error are those of `PrivateMessage` |
| Commands.LookupErrorStopsCommand | handlers/commands.go:101-104 | a failed whitelist query is returned before anything is done |
| Commands.BlockedCommandNoHandler | handlers/commands.go:96-115 | a command other than `/apply` from a channel that is not whitelisted is deleted and queued, and no handler runs |
| Commands.ApplyNeedsNoMention | handlers/commands.go:119-124 | `/apply` reaches its handler with or without a mention of the bot |
| Commands.ClaimNeedsNoMention | handlers/commands.go:119-124 | `/claim` reaches its handler with or without a mention, once past the gate |
| Commands.UnmentionedCommandIgnored | handlers/commands.go:127-132 | outside private chats any other command without a mention of the bot is ignored |
| Commands.PrivateCommandHandled | handlers/commands.go:134-139 | in a private chat a registered command runs its handler, and any other gets the unknown-command reply |
| Commands.UpdatePriority | handlers/handler.go:69-96 | exactly one part of an update is handled: a command message, a command post, a message, a post, and a button press only when there is neither message nor post; so a button press beside a message or post, and a post beside a command message, make no difference |
| Commands.RunHandler | handlers/commands.go:134-137 | the handler's state and error are those of `Dispatch` |
| Commands.HandleCommand | handlers/commands.go:90-140 | the handler's state and error are those of `OnCommand` with the handler's own table |
| Commands.HandleUpdate | handlers/handler.go:69-96 | the handler's state and error are those of `OnUpdate` |

## Left out

- Wire encoding: strings are sequences of characters, one per code point, so white space (`GoText.IsSpace`) follows Go's Unicode table. Only two positions are taken as character positions: the byte offsets that `TruncateText` slices at and the UTF-16 offsets of Telegram entities. Both are therefore exact only for ASCII text.
- Concurrency: the goroutines, the mutex and the two-second ticker of `processMsgQueue` (handlers/message_queue.go:10-17) need no model, because every operation here runs to completion one after another. The deletion that `go h.deleteMessageWithTimeout` starts is recorded as a request; its retry loop is modelled on its own by `Retry.DeleteRetry`.
- Real time: sleeps become returned back-off durations. `time.Now` becomes the `today` and `nowText` inputs. The formatting of dates and times is not modelled.
- cmd/bot/main.go is not part of this model: process start, signal handling, the update loop, and the midnight scheduler. Only the effect of the `ResetDailyPrompts` call it makes is modelled.
- config/config.go is not part of this model (JSON loading and the default database path). Commands read the configuration as an input.
- `New`, `Close` and `init` of db/database.go are not modelled beyond the UNIQUE constraints, which become `Store.WellFormed` (its one-row-per-pair part comes from the create-or-reopen rule, not from the schema). PRAGMAs and the connection pool are left out too.
- Storage errors are inputs only where the code branches on them in a way the properties depend on: the insert retry script, the prepare/exec/commit of the batch, `BeginTx`, the two statements of `ResetDailyPrompts`, and the whitelist query of `HandleCommand`. Any other query or statement is taken to succeed, so the `return err` after it is not modelled.
- After the pending check of `CreateChannelApplication` the insert cannot violate UNIQUE(chat_id, channel_id, user_id), because the model keeps one row per pair. That error branch is therefore proved unreachable rather than modelled.
- The fallbacks of db/database.go:207-212 and 377-382, which parse stored timestamps and fall back to `time.Now`, are not modelled: timestamps are opaque text.
- `SetupCommands` (handlers/commands.go:11-87) is not modelled. It only registers the command menu with Telegram.
- Message wording: messages are recorded by kind and data instead of their Chinese text. This includes the fixed text of `HandleHelp`, the list title and labels of `HandleListChannels` (the layout is modelled over any wording), and the user description (name, id and @username) that `/start` puts in its confirmation (handlers/basic_commands.go:70-77): the model's messages carry no user names.
- The second channel block of handlers/message_handlers.go:171-247 has no effect in the model. It re-tests the whitelist, and the earlier branch has already returned for every post that is not whitelisted, so no post that reaches it is acted on.
- "/apply" typed as text is keyed by the sender's user id, because the code passes `message.From.ID` (handlers/message_handlers.go:129-139). The model keeps this as written.
- Telegram's answers come from the `Env` oracle. Which chats cannot be reached, whether callback answers succeed, and what `GetChat` and `GetChatAdministrators` return are fixed for the handling of one update.
- `HandleUnknownCommand`'s reply is recorded as an `UnknownCommand` notice.
- Store.SetStatus: its own ensures says only that no row is added or removed; which rows change is proved in `StoreFacts.TripleUpdatesTouchOnlyTriple` and `StoreFacts.DecidedLeavesNoPending`.
- Store.MarkVerified: its own ensures says only that no row is added or removed; which rows change is proved in `StoreFacts.TripleUpdatesTouchOnlyTriple` and `StoreFacts.ClaimThenVerify`.
- Store.SetReason: its own ensures says only that no row is added or removed; its effect on the pending application is proved in `StoreFacts.ReasonOfPending`.
- Store.MarkPromptDate: its own ensures says only that no row is added or removed; that it keeps one row per pair is proved in `StoreFacts.PairUpdatesKeepInvariant`.
- Store.ClearPromptedToday: its own ensures says only that no row is added or removed; that it keeps one row per pair is proved in `StoreFacts.PairUpdatesKeepInvariant`.
- Store.BlockedCount: its own ensures is only a bound; how the count follows the log is proved in `Store.BlockedCountAppend` and `BasicCommands.StatsFollowTables`.
- Store.ChannelsOf: `ORDER BY added_at DESC` (db/database.go:182) is taken as reverse table order, since rows are appended as they are added and `added_at` defaults to the insertion time; timestamps are opaque text, and no ensures states the order.
- MessageHandlers.HandleMessage: it routes group text with the corrected test `IsApplyText`, not the test of handlers/message_handlers.go:120 as written (see "## Findings"). So a group text "/apply@<bot> <reason>" that reaches `HandleMessage` is handled as "/apply" typed as text, where the code as written lets it pass with no effect. For every other text the two tests agree.
- MessageHandlers.WhitelistedPostPasses: for the same reason, its ensures says that a whitelisted channel's post "/apply@<bot> <reason>" is handled as "/apply" typed as text, not that it passes untouched as the code as written does.
- Utils.FormatChannelList: its own ensures fixes only the empty text and the header; the lines after the header are proved in `Utils.FormatChannelListLines`.

## Findings

| source | as written | input that shows it | evidently intended | confidence | as-written member | corrected member |
|---|---|---|---|---|---|---|
| handlers/message_handlers.go:120-127 | the `if` at line 120 admits "/apply", "/apply@<bot>" and "/apply " followed by a reason, so the branch at lines 125-127, which reads the reason after "/apply@<bot> ", can never be taken | the text "/apply@seerbot please add us" in a group, with bot name "seerbot": it fails the test and is treated as an ordinary message | "/apply@<bot> <reason>" is recognised and its reason passed to `HandleApply` | low, not executed; such texts usually reach `HandleCommand` as commands first | MessageHandlers.MentionedApplyMissedAsWritten | MessageHandlers.ApplyTextCarriesReason |
