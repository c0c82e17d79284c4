/**
 * What a handler can change while it handles one update: the tables, the
 * queue of blocked posts waiting to be logged (`Handler.messageQueue`), and
 * the trace of requests it sends to Telegram. The handler modules describe
 * each handler as a function from such a state to the next one and the
 * error the handler returns.
 */
module Effects {
  import opened Wrappers
  import opened GoText
  import opened Models
  import opened Store
  import opened Telegram

  datatype HState = HState(t: Tables, queue: seq<BlockedMessageInfo>, trace: seq<Event>)

  /** The state after a handler, and the error it returns (None for `nil`). */
  datatype Step = Step(s: HState, err: Option<Failure>)

  function Emit(s: HState, e: Event): HState {
    s.(trace := s.trace + [e])
  }

  /** The error of `Bot.Send` to a chat (a message or an edit). */
  function SendError(env: Env, to: Int64): Option<Failure> {
    if SendOk(env, to) then None else Some(SendFailed)
  }

  /** `Bot.Send(tgbotapi.NewMessage(to, ...))`. */
  function Send(s: HState, env: Env, to: Int64, kind: Notice, data: seq<string>): Step {
    Step(Emit(s, Sent(to, kind, data)), SendError(env, to))
  }

  /** `Bot.Send(tgbotapi.NewEditMessageText(chat, messageId, ...))`. */
  function Edit(s: HState, env: Env, chat: Int64, messageId: int, kind: Notice, data: seq<string>): Step {
    Step(Emit(s, Edited(chat, messageId, kind, data)), SendError(env, chat))
  }

  /** `Bot.Request(tgbotapi.NewCallback(query.ID, ...))`. */
  function Answer(s: HState, env: Env, kind: Notice): Step {
    Step(Emit(s, Answered(kind)), if env.requestOk then None else Some(RequestFailed))
  }

  /** `go h.deleteMessageWithTimeout(chat, messageId)`: the request is issued; its retries are the Retry module's. */
  function RequestDelete(s: HState, chat: Int64, messageId: int): HState {
    Emit(s, DeleteRequested(chat, messageId))
  }

  /** `addToMessageQueue`: one record at the end of the queue. */
  function Enqueue(s: HState, chat: Int64, channel: Int64, messageId: int, text: string): HState {
    s.(queue := s.queue + [BlockedMessageInfo(chat, channel, messageId, text)])
  }

  function Done(s: HState): Step { Step(s, None) }

  function Fail(s: HState, f: Failure): Step { Step(s, Some(f)) }

  /** The tables are as they were (the trace and queue may have grown). */
  predicate SameTables(a: HState, b: HState) { a.t == b.t }

  /** The trace of `b` continues the trace of `a`: requests once made stay made. */
  predicate TraceExtends(a: HState, b: HState) {
    |a.trace| <= |b.trace| && b.trace[..|a.trace|] == a.trace
  }

  /** Only requests were made: tables and queue are as they were. */
  predicate OnlyRequests(a: HState, b: HState) {
    a.t == b.t && a.queue == b.queue && TraceExtends(a, b)
  }

  /** The requests made between two states. */
  function Requests(a: HState, b: HState): seq<Event>
    requires |a.trace| <= |b.trace|
  {
    b.trace[|a.trace|..]
  }
}
