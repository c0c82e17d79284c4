/** The records the bot stores, one datatype per table row (db/models/models.go). */
module Models {
  import opened Wrappers
  import opened GoText

  /** A calendar day; the source stores days as "2006-01-02" text and only compares them for equality. */
  type Day = int

  /** A row of `whitelisted_channels`; `addedAt` is the insertion time as the stored text. */
  datatype WhitelistedChannel = WhitelistedChannel(
    chatId: Int64, channelId: Int64, addedBy: Int64, addedAt: string, description: string)

  /** A blocked post as it is queued and as it is written to `blocked_messages`. */
  datatype BlockedMessageInfo = BlockedMessageInfo(
    chatId: Int64, channelId: Int64, messageId: int, messageText: string)

  /** A row of `group_settings`, keyed by the group's chat id. */
  datatype GroupSettings = GroupSettings(
    chatId: Int64, adminOnly: bool, logChannelId: Int64, enabled: bool)

  /** The three values the code ever writes into `channel_applications.status`. */
  datatype Status = Pending | Approved | Rejected

  /** A row of `channel_applications`; a `userId` of 0 means nobody has claimed it yet. */
  datatype ChannelApplication = ChannelApplication(
    chatId: Int64, channelId: Int64, userId: Int64, reason: string, status: Status,
    verifiedChannel: bool, lastPromptDate: Option<Day>, promptedToday: bool)

  /** The two `prompt_type` values: the not-whitelisted warning and the pending-application notice. */
  datatype PromptKind = WhitelistWarning | PendingNotice

  /** A row of `channel_daily_prompts`; the table's UNIQUE key is the whole row. */
  datatype PromptRecord = PromptRecord(chatId: Int64, channelId: Int64, kind: PromptKind, date: Day)
}
