/**
 * The two bounded retry policies of the bot, run against a scripted sequence
 * of outcomes (one per attempt) instead of a real database or Telegram:
 *
 *  - `LogBlockedMessage` (db/database.go) retries an INSERT only while SQLite
 *    reports "database is locked", sleeping 100·(i+1)² ms after attempt i;
 *  - `deleteMessageWithTimeout` (handlers/message_handlers.go) retries a
 *    deleteMessage request, sleeping 500·(i+1)² ms after "Too Many Requests"
 *    and (i+1)·200 ms after an unrecognised error, and gives up at once on
 *    "Forbidden" or "Message to delete not found".
 *
 * Both make at most five attempts. Nothing sleeps here; the sleeps are
 * returned as a list of durations in milliseconds.
 */
module Retry {
  import opened Wrappers
  import opened GoText

  const MaxAttempts: nat := 5

  /** The outcome of one `Exec` of the INSERT. */
  datatype ExecResult = ExecOk | ExecError(message: string)

  /** The outcome of one `Bot.Request(deleteMsg)`. */
  datatype RequestResult = RequestOk | RequestError(message: string)

  /** How a retry loop ended: attempts made, the sleeps taken, and the error it gave back (None once an attempt succeeded). */
  datatype RetryReport = RetryReport(attempts: nat, backoffs: seq<nat>, err: Option<string>)

  // ------------------------------------------------------- LogBlockedMessage

  predicate Locked(r: ExecResult) {
    r.ExecError? && Contains(r.message, "database is locked")
  }

  /** The sleep after a locked attempt `k` (counted from 0). */
  function LockBackoff(k: nat): nat { 100 * ((k + 1) * (k + 1)) }

  function LockBackoffs(n: nat): (r: seq<nat>)
    ensures |r| == n && forall k :: 0 <= k < n ==> r[k] == LockBackoff(k)
  {
    seq(n, k requires 0 <= k < n => LockBackoff(k))
  }

  /** The first attempt at or after `i` that is not refused with "database is locked", or 5 when the first five all are. */
  function FirstNotLocked(script: seq<ExecResult>, i: nat): (n: nat)
    requires i <= MaxAttempts <= |script|
    ensures i <= n <= MaxAttempts
    ensures forall k :: i <= k < n ==> Locked(script[k])
    ensures n < MaxAttempts ==> !Locked(script[n])
    decreases MaxAttempts - i
  {
    if i == MaxAttempts || !Locked(script[i]) then i else FirstNotLocked(script, i + 1)
  }

  /**
   * What `LogBlockedMessage` does with the scripted outcomes: at most five
   * attempts; success exactly when an attempt succeeds; every retry caused by
   * "database is locked" and followed by a 100·(i+1)² ms sleep (the fifth
   * locked attempt sleeps too, then its error is returned); any other error
   * returned from the attempt that produced it with no sleep.
   */
  function LogRetry(script: seq<ExecResult>): (r: RetryReport)
    requires |script| >= MaxAttempts
    ensures 1 <= r.attempts <= MaxAttempts
            && (r.err.None? <==> script[r.attempts - 1].ExecOk?)
            && (forall k :: 0 <= k < r.attempts - 1 ==> Locked(script[k]))
            && (|r.backoffs| == if Locked(script[r.attempts - 1]) then r.attempts else r.attempts - 1)
            && (forall k :: 0 <= k < |r.backoffs| ==> r.backoffs[k] == 100 * ((k + 1) * (k + 1)) && Locked(script[k]))
            && (r.err.Some? && !Locked(script[r.attempts - 1]) ==> r.err == Some(script[r.attempts - 1].message))
            && (r.attempts == MaxAttempts && Locked(script[MaxAttempts - 1]) ==> r.err == Some(script[MaxAttempts - 1].message))
            && (r.attempts < MaxAttempts ==> !Locked(script[r.attempts - 1]))
  {
    var n := FirstNotLocked(script, 0);
    if n == MaxAttempts then RetryReport(MaxAttempts, LockBackoffs(MaxAttempts), Some(script[MaxAttempts - 1].message))
    else RetryReport(n + 1, LockBackoffs(n), if script[n].ExecOk? then None else Some(script[n].message))
  }

  lemma FirstNotLockedAt(script: seq<ExecResult>, i: nat)
    requires i <= MaxAttempts <= |script|
    requires forall k :: 0 <= k < i ==> Locked(script[k])
    requires i < MaxAttempts ==> !Locked(script[i])
    ensures FirstNotLocked(script, 0) == i
  {
  }

  // ------------------------------------------------- deleteMessageWithTimeout

  predicate TooManyRequests(r: RequestResult) {
    r.RequestError? && Contains(r.message, "Too Many Requests")
  }

  /** An attempt after which the loop returns: success, or a refusal that no retry can fix. */
  predicate Final(r: RequestResult) {
    r.RequestOk?
    || (!TooManyRequests(r) && (Contains(r.message, "Forbidden") || Contains(r.message, "Message to delete not found")))
  }

  /** The sleep after a failed, retried attempt `k`. */
  function DeleteBackoff(r: RequestResult, k: nat): nat {
    if TooManyRequests(r) then 500 * ((k + 1) * (k + 1)) else (k + 1) * 200
  }

  function DeleteBackoffs(script: seq<RequestResult>, n: nat): (r: seq<nat>)
    requires n <= |script|
    ensures |r| == n && forall k :: 0 <= k < n ==> r[k] == DeleteBackoff(script[k], k)
  {
    seq(n, k requires 0 <= k < n => DeleteBackoff(script[k], k))
  }

  /** The first attempt at or after `i` after which the loop returns, or 5 when none of the first five is. */
  function FirstFinal(script: seq<RequestResult>, i: nat): (n: nat)
    requires i <= MaxAttempts <= |script|
    ensures i <= n <= MaxAttempts
    ensures forall k :: i <= k < n ==> !Final(script[k])
    ensures n < MaxAttempts ==> Final(script[n])
    decreases MaxAttempts - i
  {
    if i == MaxAttempts || Final(script[i]) then i else FirstFinal(script, i + 1)
  }

  /**
   * What `deleteMessageWithTimeout` does with the scripted outcomes: at most
   * five attempts; `err` is None exactly when the message was deleted; it
   * stops early only at a success, "Forbidden" or "Message to delete not
   * found" (unless the error also says "Too Many Requests"); every retried
   * attempt is followed by 500·(i+1)² ms after "Too Many Requests" and
   * (i+1)·200 ms after any other error.
   */
  function DeleteRetry(script: seq<RequestResult>): (r: RetryReport)
    requires |script| >= MaxAttempts
    ensures 1 <= r.attempts <= MaxAttempts
            && (r.err.None? <==> script[r.attempts - 1].RequestOk?)
            && (forall k :: 0 <= k < r.attempts - 1 ==> script[k].RequestError? && !Final(script[k]))
            && (|r.backoffs| == if Final(script[r.attempts - 1]) then r.attempts - 1 else r.attempts)
            && (forall k :: 0 <= k < |r.backoffs| ==>
                  script[k].RequestError?
                  && r.backoffs[k] == (if Contains(script[k].message, "Too Many Requests") then 500 * ((k + 1) * (k + 1)) else (k + 1) * 200))
            && (r.attempts < MaxAttempts ==> Final(script[r.attempts - 1]))
  {
    var n := FirstFinal(script, 0);
    if n == MaxAttempts then RetryReport(MaxAttempts, DeleteBackoffs(script, MaxAttempts), Some(script[MaxAttempts - 1].message))
    else RetryReport(n + 1, DeleteBackoffs(script, n), if script[n].RequestOk? then None else Some(script[n].message))
  }

  lemma FirstFinalAt(script: seq<RequestResult>, i: nat)
    requires i <= MaxAttempts <= |script|
    requires forall k :: 0 <= k < i ==> !Final(script[k])
    requires i < MaxAttempts ==> Final(script[i])
    ensures FirstFinal(script, 0) == i
  {
  }

  /**
   * The loop of `deleteMessageWithTimeout` run against `script[i]` as the
   * answer to attempt i.
   */
  method DeleteMessageWithTimeout(script: seq<RequestResult>) returns (r: RetryReport)
    requires |script| >= MaxAttempts
    ensures r == DeleteRetry(script)
  {
    var backoffs: seq<nat> := [];
    var i := 0;
    while i < MaxAttempts
      invariant 0 <= i <= MaxAttempts
      invariant forall k :: 0 <= k < i ==> !Final(script[k])
      invariant backoffs == DeleteBackoffs(script, i)
    {
      var res := script[i];
      if res.RequestOk? {
        FirstFinalAt(script, i);
        return RetryReport(i + 1, backoffs, None);
      }
      if Contains(res.message, "Too Many Requests") {
        backoffs := backoffs + [500 * ((i + 1) * (i + 1))];
        i := i + 1;
        continue;
      }
      if Contains(res.message, "Forbidden") || Contains(res.message, "Message to delete not found") {
        FirstFinalAt(script, i);
        return RetryReport(i + 1, backoffs, Some(res.message));
      }
      backoffs := backoffs + [(i + 1) * 200];
      i := i + 1;
    }
    FirstFinalAt(script, MaxAttempts);
    r := RetryReport(MaxAttempts, backoffs, Some(script[MaxAttempts - 1].message));
  }
}
