/** The message log both service variants keep per key: a counter of
    successful sends and the history of send attempts, capped at the
    100 most recent entries. */
module MessageLogStore {
  import opened Replies

  /** How many entries a log keeps (the `slice(-100)` bound). */
  const MaxHistory: nat := 100

  datatype Status = Sent | Failed

  /** One send attempt, immutable once appended. */
  datatype Entry = Entry(to: string, message: string, timestamp: Timestamp, status: Status)

  /** The `MessageLog` interface: `count` counts the sent entries ever
      recorded, `messages` holds the most recent attempts, oldest first. */
  datatype MessageLog = MessageLog(numero: string, count: nat, messages: seq<Entry>)

  /** The zero-valued log created for, or reported for, an unknown key. */
  function EmptyLog(numero: string): MessageLog {
    MessageLog(numero, 0, [])
  }

  predicate Bounded(log: MessageLog) {
    |log.messages| <= MaxHistory
  }

  /** The log stored under `key`, or the zero-valued one `logMessage` would
      create for it. */
  function LogOf(logs: map<string, MessageLog>, key: string): (r: MessageLog)
    ensures key in logs ==> r == logs[key]
    ensures key !in logs ==> r.numero == key && r.count == 0 && r.messages == []
  {
    if key in logs then logs[key] else EmptyLog(key)
  }

  /** `if (messages.length > 100) messages = messages.slice(-100)`: the
      history keeps exactly its most recent entries, in order. */
  function KeepRecent(s: seq<Entry>): (r: seq<Entry>)
    ensures |r| <= MaxHistory
    ensures |s| <= MaxHistory ==> r == s
    ensures |s| > MaxHistory ==> |r| == MaxHistory
  {
    if |s| > MaxHistory then s[|s| - MaxHistory..] else s
  }

  function StatusOf(delivered: bool): Status {
    if delivered then Sent else Failed
  }

  /** What `logMessage` does to the one log it touches: append the entry,
      count it if it was sent, and evict the oldest entry once the history
      would exceed 100. */
  function Record(log: MessageLog, e: Entry): (r: MessageLog)
    ensures r.numero == log.numero
    ensures e.status == Sent ==> r.count == log.count + 1
    ensures e.status == Failed ==> r.count == log.count
    ensures Bounded(r)
    ensures |r.messages| > 0 && r.messages[|r.messages| - 1] == e
  {
    var count := if e.status == Sent then log.count + 1 else log.count;
    MessageLog(log.numero, count, KeepRecent(log.messages + [e]))
  }

  /** Below the cap the entry is simply appended; at the cap the oldest
      entry is evicted to make room for it. */
  lemma RecordEvictsOldest(log: MessageLog, e: Entry)
    requires Bounded(log)
    ensures |log.messages| < MaxHistory ==> Record(log, e).messages == log.messages + [e]
    ensures |log.messages| == MaxHistory ==> Record(log, e).messages == log.messages[1..] + [e]
  {
    var s := log.messages + [e];
    if |log.messages| == MaxHistory {
      assert s[|s| - MaxHistory..] == log.messages[1..] + [e];
    }
  }

  /** The log after recording `es` one after another, oldest first. */
  function RecordAll(log: MessageLog, es: seq<Entry>): MessageLog
    decreases |es|
  {
    if es == [] then log else Record(RecordAll(log, es[..|es| - 1]), es[|es| - 1])
  }

  /** The number of sent entries in `es`. */
  function SentCount(es: seq<Entry>): (n: nat)
    ensures n <= |es|
    decreases |es|
  {
    if es == [] then 0
    else SentCount(es[..|es| - 1]) + (if es[|es| - 1].status == Sent then 1 else 0)
  }

  /** The counter grows by exactly the number of sent entries recorded
      (so it never decreases), and the log keeps its owner. */
  lemma {:induction false} RecordAllCount(log: MessageLog, es: seq<Entry>)
    ensures RecordAll(log, es).count == log.count + SentCount(es)
    ensures RecordAll(log, es).numero == log.numero
    decreases |es|
  {
    if es != [] {
      RecordAllCount(log, es[..|es| - 1]);
    }
  }

  /** Truncating before each append gives the same history as truncating
      once at the end. */
  lemma KeepRecentAppend(s: seq<Entry>, e: Entry)
    ensures KeepRecent(KeepRecent(s) + [e]) == KeepRecent(s + [e])
  {
    var k := KeepRecent(s);
    if |s| > MaxHistory {
      assert (k + [e])[|k + [e]| - MaxHistory..] == (s + [e])[|s + [e]| - MaxHistory..];
    }
  }

  /** A bounded log that records `es` holds the most recent 100 entries of
      its old history followed by `es`, in insertion order. */
  lemma {:induction false} RecordAllHistory(log: MessageLog, es: seq<Entry>)
    requires Bounded(log)
    ensures RecordAll(log, es).messages == KeepRecent(log.messages + es)
    decreases |es|
  {
    if es == [] {
      assert log.messages + es == log.messages;
    } else {
      var init, e := es[..|es| - 1], es[|es| - 1];
      RecordAllHistory(log, init);
      KeepRecentAppend(log.messages + init, e);
      assert log.messages + init + [e] == log.messages + es by {
        assert es == init + [e];
      }
    }
  }

  /** Up to 100 attempts on a fresh log: the counter is the number of sent
      attempts and the history is every attempt, in order. */
  lemma FreshLogKeepsEverything(numero: string, es: seq<Entry>)
    requires |es| <= MaxHistory
    ensures RecordAll(EmptyLog(numero), es).count == SentCount(es)
    ensures RecordAll(EmptyLog(numero), es).messages == es
  {
    RecordAllCount(EmptyLog(numero), es);
    RecordAllHistory(EmptyLog(numero), es);
    assert [] + es == es;
  }

  /** At least 100 attempts: the history is exactly the last 100 attempts,
      so the oldest retained one is attempt number |es| - 99 (FIFO eviction). */
  lemma OverflowKeepsLastHundred(log: MessageLog, es: seq<Entry>)
    requires Bounded(log)
    requires |es| >= MaxHistory
    ensures RecordAll(log, es).messages == es[|es| - MaxHistory..]
    ensures RecordAll(log, es).messages[0] == es[|es| - MaxHistory]
  {
    var a, k := log.messages, |es| - MaxHistory;
    assert KeepRecent(a + es) == es[k..] by {
      if |a + es| > MaxHistory {
        DropAfterPrefix(a, es, k);
      } else {
        assert a == [] && a + es == es;
      }
    }
    RecordAllHistory(log, es);
  }

  /** Dropping past a prefix drops into the rest. */
  lemma DropAfterPrefix(a: seq<Entry>, b: seq<Entry>, k: nat)
    requires k <= |b|
    ensures (a + b)[|a| + k..] == b[k..]
  {
    forall i | 0 <= i < |b| - k
      ensures (a + b)[|a| + k..][i] == b[k..][i]
    {
      assert (a + b)[|a| + k + i] == b[k + i];
    }
  }
}
