/**
 * handlers/message_queue.go: blocked channel posts are queued in memory and
 * flushed to the `blocked_messages` table, as one transaction when it can
 * be opened and every insert of it succeeds, and otherwise record by record
 * through `LogBlockedMessage` and its retries.
 *
 * The storage outcomes are parameters: whether the transaction opens, the
 * statement is prepared, each insert of the batch runs and the commit goes
 * through, and for the fallback one retry script per record.
 */
module MessageQueue {
  import opened Wrappers
  import opened GoText
  import opened Models
  import opened Store
  import opened Retry
  import opened Effects
  import opened Database
  import opened Handlers

  /** Every record has a fallback retry script long enough for the retry policy. */
  predicate ScriptsCover(queue: seq<BlockedMessageInfo>, scripts: seq<seq<ExecResult>>) {
    |scripts| >= |queue| && forall k :: 0 <= k < |scripts| ==> |scripts[k]| >= MaxAttempts
  }

  /** What the record-by-record fallback writes: the records whose retries end in a successful insert, in queue order. */
  function LoggedEach(queue: seq<BlockedMessageInfo>, scripts: seq<seq<ExecResult>>): (r: seq<BlockedMessageInfo>)
    requires ScriptsCover(queue, scripts)
    ensures |r| <= |queue|
    ensures forall x :: x in r ==> x in queue
  {
    if |queue| == 0 then []
    else
      var init := queue[..|queue| - 1];
      var rest := LoggedEach(init, scripts);
      assert forall x :: x in init ==> x in queue;
      rest + (if LogRetry(scripts[|queue| - 1]).err.None? then [queue[|queue| - 1]] else [])
  }

  /** Whether the transaction's batch goes through: the statement is prepared and every insert runs. */
  predicate BatchOk(queue: seq<BlockedMessageInfo>, prepareOk: bool, execOk: seq<bool>)
    requires |execOk| >= |queue|
  {
    prepareOk && forall k :: 0 <= k < |queue| ==> execOk[k]
  }

  /**
   * The `blocked_messages` rows after `flushMessageQueue`: an empty queue
   * writes nothing; a transaction that cannot be opened, or whose batch
   * fails, leads to the fallback; a successful batch is written exactly
   * when the commit goes through.
   */
  function Flushed(blocked: seq<BlockedMessageInfo>, queue: seq<BlockedMessageInfo>, beginOk: bool, prepareOk: bool,
                   execOk: seq<bool>, commitOk: bool, scripts: seq<seq<ExecResult>>): seq<BlockedMessageInfo>
    requires |execOk| >= |queue| && ScriptsCover(queue, scripts)
  {
    if |queue| == 0 then blocked
    else if beginOk && BatchOk(queue, prepareOk, execOk) then blocked + (if commitOk then queue else [])
    else blocked + LoggedEach(queue, scripts)
  }

  // ------------------------------------------------------------- properties

  /** `a` is `b` with some elements left out, the others in order. */
  predicate Subsequence<T(==)>(a: seq<T>, b: seq<T>)
    decreases |b|
  {
    if |a| == 0 then true
    else if |b| == 0 then false
    else if a[|a| - 1] == b[|b| - 1] then Subsequence(a[..|a| - 1], b[..|b| - 1])
    else Subsequence(a, b[..|b| - 1])
  }

  /** Appending `x` to `b`, and to `a` or not, keeps `a` a subsequence of `b`. */
  lemma {:induction false} SubsequenceOfSnoc<T>(a: seq<T>, b: seq<T>, x: T, keep: bool)
    requires Subsequence(a, b)
    ensures Subsequence(a + (if keep then [x] else []), b + [x])
  {
    if keep {
      var a' := a + [x];
      var b' := b + [x];
      assert a'[..|a'| - 1] == a && b'[..|b'| - 1] == b;
    } else {
      assert a + [] == a;
      SubsequenceSkipsLast(a, b, x);
    }
  }

  /** Skipping an appended element keeps a subsequence a subsequence. */
  lemma {:induction false} SubsequenceSkipsLast<T>(a: seq<T>, b: seq<T>, x: T)
    requires Subsequence(a, b)
    ensures Subsequence(a, b + [x])
    decreases |b|, 1
  {
    var b' := b + [x];
    assert b'[..|b'| - 1] == b;
    if |a| > 0 && a[|a| - 1] == x {
      SubsequenceDropsLast(a, b);
    }
  }

  /** A subsequence of `b` stays one after its own last element is dropped. */
  lemma {:induction false} SubsequenceDropsLast<T>(a: seq<T>, b: seq<T>)
    requires |a| > 0 && Subsequence(a, b)
    ensures Subsequence(a[..|a| - 1], b)
    decreases |b|, 0
  {
    var a' := a[..|a| - 1];
    if |a'| == 0 {
    } else if a[|a| - 1] == b[|b| - 1] {
      SubsequenceSkipsLast(a', b[..|b| - 1], b[|b| - 1]);
      assert b[..|b| - 1] + [b[|b| - 1]] == b;
    } else {
      SubsequenceDropsLast(a, b[..|b| - 1]);
      SubsequenceSkipsLast(a', b[..|b| - 1], b[|b| - 1]);
      assert b[..|b| - 1] + [b[|b| - 1]] == b;
    }
  }

  /** The fallback writes only queued records, each at most once, in queue order. */
  lemma {:induction false} LoggedEachIsSubsequence(queue: seq<BlockedMessageInfo>, scripts: seq<seq<ExecResult>>)
    requires ScriptsCover(queue, scripts)
    ensures Subsequence(LoggedEach(queue, scripts), queue)
  {
    if |queue| > 0 {
      var init := queue[..|queue| - 1];
      LoggedEachIsSubsequence(init, scripts);
      SubsequenceOfSnoc(LoggedEach(init, scripts), init, queue[|queue| - 1],
                        LogRetry(scripts[|queue| - 1]).err.None?);
      assert init + [queue[|queue| - 1]] == queue;
    }
  }

  /** When every record's first insert succeeds, the fallback loses nothing. */
  lemma {:induction false} FallbackLosesNothing(queue: seq<BlockedMessageInfo>, scripts: seq<seq<ExecResult>>)
    requires ScriptsCover(queue, scripts)
    requires forall k :: 0 <= k < |queue| ==> scripts[k][0].ExecOk?
    ensures LoggedEach(queue, scripts) == queue
  {
    if |queue| > 0 {
      var init := queue[..|queue| - 1];
      FallbackLosesNothing(init, scripts);
      assert init + [queue[|queue| - 1]] == queue;
    }
  }

  /** An empty queue writes nothing. */
  lemma FlushEmptyIsNoOp(blocked: seq<BlockedMessageInfo>, beginOk: bool, prepareOk: bool, execOk: seq<bool>,
                         commitOk: bool, scripts: seq<seq<ExecResult>>)
    requires ScriptsCover([], scripts)
    ensures Flushed(blocked, [], beginOk, prepareOk, execOk, commitOk, scripts) == blocked
  {
  }

  /**
   * A flush keeps every earlier row and adds only queued records, each at
   * most once and in queue order; when the transaction opens and its batch
   * goes through, it adds the whole queue or (the commit failing) nothing.
   */
  lemma FlushAppendsQueued(blocked: seq<BlockedMessageInfo>, queue: seq<BlockedMessageInfo>, beginOk: bool, prepareOk: bool,
                           execOk: seq<bool>, commitOk: bool, scripts: seq<seq<ExecResult>>)
    requires |execOk| >= |queue| && ScriptsCover(queue, scripts)
    ensures var after := Flushed(blocked, queue, beginOk, prepareOk, execOk, commitOk, scripts);
            |blocked| <= |after| && after[..|blocked|] == blocked
            && Subsequence(after[|blocked|..], queue)
    ensures |queue| > 0 && beginOk && BatchOk(queue, prepareOk, execOk) ==>
              Flushed(blocked, queue, beginOk, prepareOk, execOk, commitOk, scripts)
              == blocked + (if commitOk then queue else [])
  {
    var after := Flushed(blocked, queue, beginOk, prepareOk, execOk, commitOk, scripts);
    if |queue| == 0 {
      assert after[|blocked|..] == [];
    } else if beginOk && BatchOk(queue, prepareOk, execOk) {
      if commitOk {
        assert after[|blocked|..] == queue;
        SubsequenceOfItself(queue);
      } else {
        assert after[|blocked|..] == [];
      }
    } else {
      assert after[|blocked|..] == LoggedEach(queue, scripts);
      LoggedEachIsSubsequence(queue, scripts);
    }
  }

  lemma {:induction false} SubsequenceOfItself<T>(a: seq<T>)
    ensures Subsequence(a, a)
    decreases |a|
  {
    if |a| > 0 {
      SubsequenceOfItself(a[..|a| - 1]);
    }
  }

  /**
   * No blocked post is lost when the fallback inserts succeed at their
   * first attempt and a batch that goes through is committed: the flush
   * then writes the whole queue, in order.
   */
  lemma FlushWritesWholeQueue(blocked: seq<BlockedMessageInfo>, queue: seq<BlockedMessageInfo>, beginOk: bool, prepareOk: bool,
                              execOk: seq<bool>, commitOk: bool, scripts: seq<seq<ExecResult>>)
    requires |execOk| >= |queue| && ScriptsCover(queue, scripts)
    requires forall k :: 0 <= k < |queue| ==> scripts[k][0].ExecOk?
    requires beginOk && BatchOk(queue, prepareOk, execOk) ==> commitOk
    ensures Flushed(blocked, queue, beginOk, prepareOk, execOk, commitOk, scripts) == blocked + queue
  {
    FallbackLosesNothing(queue, scripts);
  }

  // ------------------------------------------------------------ in place

  /** `addToMessageQueue`. */
  method AddToMessageQueue(h: Handler, chat: Int64, channel: Int64, messageId: int, text: string)
    modifies h`queue
    ensures h.State() == Enqueue(old(h.State()), chat, channel, messageId, text)
  {
    h.queue := h.queue + [BlockedMessageInfo(chat, channel, messageId, text)];
  }

  lemma LoggedEachSnoc(messages: seq<BlockedMessageInfo>, scripts: seq<seq<ExecResult>>, i: nat)
    requires ScriptsCover(messages, scripts) && i < |messages|
    ensures LoggedEach(messages[..i + 1], scripts)
            == LoggedEach(messages[..i], scripts) + (if LogRetry(scripts[i]).err.None? then [messages[i]] else [])
  {
    assert messages[..i + 1][..i] == messages[..i];
  }

  /** The fallback loop: `LogBlockedMessage` for every record, its errors ignored. */
  method LogEach(db: DB, messages: seq<BlockedMessageInfo>, scripts: seq<seq<ExecResult>>)
    requires ScriptsCover(messages, scripts)
    modifies db`blocked
    ensures db.blocked == old(db.blocked) + LoggedEach(messages, scripts)
  {
    ghost var start := db.blocked;
    var i := 0;
    while i < |messages|
      invariant 0 <= i <= |messages|
      invariant db.blocked == start + LoggedEach(messages[..i], scripts)
    {
      var m := messages[i];
      ghost var logged := LoggedEach(messages[..i], scripts);
      var report := db.LogBlockedMessage(m.chatId, m.channelId, m.messageId, m.messageText, scripts[i]);
      LoggedEachSnoc(messages, scripts, i);
      assert db.blocked == start + logged + (if report.err.None? then [m] else []);
      i := i + 1;
    }
    assert messages[..i] == messages;
  }

  /**
   * `flushMessageQueue`: the queue is taken and emptied, copied into an
   * array, and written as one transaction or, failing that, record by
   * record. Only the `blocked_messages` rows and the queue change.
   */
  method FlushMessageQueue(h: Handler, beginOk: bool, prepareOk: bool, execOk: seq<bool>, commitOk: bool,
                           scripts: seq<seq<ExecResult>>)
    requires |execOk| >= |h.queue| && ScriptsCover(h.queue, scripts)
    modifies h`queue, h.db`blocked
    ensures h.queue == []
    ensures h.State() == old(h.State()).(queue := [], t := old(h.State()).t.(blocked :=
              Flushed(old(h.db.blocked), old(h.queue), beginOk, prepareOk, execOk, commitOk, scripts)))
  {
    if |h.queue| == 0 {
      return;
    }
    var messages := h.queue;
    h.queue := [];
    var dbMessages := new BlockedMessageInfo[|messages|](k => BlockedMessageInfo(0, 0, 0, ""));
    var i := 0;
    while i < |messages|
      invariant 0 <= i <= |messages|
      invariant dbMessages[..i] == messages[..i]
      modifies dbMessages
    {
      dbMessages[i] := messages[i];
      i := i + 1;
    }
    assert dbMessages[..] == messages;
    if !beginOk {
      LogEach(h.db, messages, scripts);
      return;
    }
    var success, staged := h.db.LogBlockedMessagesBatch(dbMessages, prepareOk, execOk);
    if success {
      h.db.CommitBatch(staged, commitOk);
    } else {
      LogEach(h.db, messages, scripts);
    }
  }
}
