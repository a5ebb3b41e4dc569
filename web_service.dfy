/** The whatsapp-web.js variant of the messaging service
    (dist/whatsapp/whatsapp.service.js): readiness driven by the client's
    `qr`, `ready`, `disconnected` and `auth_failure` events, and one message
    log per sender, kept in a JavaScript `Map`. */
module WebService {
  import opened Replies
  import opened MessageLogStore
  import opened Address

  /** The client events the service subscribes to. */
  datatype ClientEvent = Qr(code: string) | Ready | Disconnected(reason: string) | AuthFailure(message: string)

  /** The object `getQRCode` returns. */
  datatype QRInfo = QRInfo(qr: string, isReady: bool)

  /** The object `getStatus` returns. */
  datatype StatusReport = StatusReport(isReady: bool, totalNumbers: nat, totalMessages: nat)

  /** `getMessageLogs` returns one log when asked for a number, and every log
      otherwise. */
  datatype LogsReply = One(log: MessageLog) | All(logs: seq<MessageLog>)

  /** The error message `sendMessage` throws when the client is not ready. */
  const NotReadyMessage: string := "WhatsApp client not ready. Scan QR code first."

  predicate Distinct(s: seq<string>) {
    forall i, j :: 0 <= i < j < |s| ==> s[i] != s[j]
  }

  /** The log map together with its key insertion order: every key appears
      once in the order, and every log belongs to its key and is bounded. */
  ghost predicate StoreValid(order: seq<string>, logs: map<string, MessageLog>) {
    && Distinct(order)
    && (forall k :: k in logs <==> k in order)
    && (forall k :: k in logs ==> logs[k].numero == k && Bounded(logs[k]))
  }

  /** `Array.from(messageLogs.values())`: the logs in key insertion order. */
  function Values(order: seq<string>, logs: map<string, MessageLog>): (r: seq<MessageLog>)
    requires forall k :: k in order ==> k in logs
    ensures |r| == |order|
    ensures forall i :: 0 <= i < |order| ==> r[i] == logs[order[i]]
  {
    seq(|order|, i requires 0 <= i < |order| => logs[order[i]])
  }

  /** `logs.reduce((total, log) => total + log.count, 0)`. */
  function SumCounts(logs: seq<MessageLog>): nat
    decreases |logs|
  {
    if logs == [] then 0 else SumCounts(logs[..|logs| - 1]) + logs[|logs| - 1].count
  }

  /** Replacing one log changes the sum by the difference of the counts. */
  lemma {:induction false} SumCountsUpdate(logs: seq<MessageLog>, i: nat, v: MessageLog)
    requires i < |logs|
    ensures SumCounts(logs[i := v]) + logs[i].count == SumCounts(logs) + v.count
    decreases |logs|
  {
    var n := |logs| - 1;
    if i == n {
      assert logs[i := v][..n] == logs[..n];
    } else {
      assert logs[i := v][..n] == logs[..n][i := v];
      SumCountsUpdate(logs[..n], i, v);
    }
  }

  /** Appending a log adds its count to the sum. */
  lemma SumCountsAppend(logs: seq<MessageLog>, v: MessageLog)
    ensures SumCounts(logs + [v]) == SumCounts(logs) + v.count
  {
    assert (logs + [v])[..|logs|] == logs;
  }

  /** The map after `logMessage(from, …)`: only the log under `from` changes. */
  function RecordedLogs(logs: map<string, MessageLog>, from: string, e: Entry): map<string, MessageLog> {
    logs[from := Record(LogOf(logs, from), e)]
  }

  /** The key order after `logMessage(from, …)`: a new sender goes last. */
  function RecordedOrder(order: seq<string>, logs: map<string, MessageLog>, from: string): seq<string> {
    if from in logs then order else order + [from]
  }

  /** Recording an attempt under `from` creates or updates that sender's log
      only: every other sender's log is left as it was. */
  lemma RecordLeavesOthers(logs: map<string, MessageLog>, from: string, e: Entry, k: string)
    requires k != from
    ensures k in RecordedLogs(logs, from, e) <==> k in logs
    ensures k in logs ==> RecordedLogs(logs, from, e)[k] == logs[k]
    ensures from in RecordedLogs(logs, from, e)
  {
  }

  /** Recording an attempt keeps the store well formed: the sender is added
      at the end of the order if new, and its log stays its own and bounded. */
  lemma RecordKeepsStoreValid(order: seq<string>, logs: map<string, MessageLog>, from: string, e: Entry)
    requires StoreValid(order, logs)
    ensures StoreValid(RecordedOrder(order, logs, from), RecordedLogs(logs, from, e))
  {
    var order', logs' := RecordedOrder(order, logs, from), RecordedLogs(logs, from, e);
    if from !in logs {
      forall i, j | 0 <= i < j < |order'| ensures order'[i] != order'[j] {
        if j == |order| {
          assert order'[i] == order[i];
        }
      }
    }
  }

  /** Replacing the log of the `i`-th sender replaces the `i`-th value. */
  lemma ValuesAfterUpdate(order: seq<string>, logs: map<string, MessageLog>, i: nat, v: MessageLog)
    requires Distinct(order) && i < |order|
    requires forall k :: k in order ==> k in logs
    ensures Values(order, logs[order[i] := v]) == Values(order, logs)[i := v]
  {
    var after, before := Values(order, logs[order[i] := v]), Values(order, logs);
    forall j | 0 <= j < |order| ensures after[j] == before[i := v][j] {
      if j != i {
        assert order[j] != order[i];
      }
    }
  }

  /** A log stored under a new last key becomes the last value. */
  lemma ValuesAfterInsert(order: seq<string>, logs: map<string, MessageLog>, k: string, v: MessageLog)
    requires k !in order
    requires forall x :: x in order ==> x in logs
    ensures Values(order + [k], logs[k := v]) == Values(order, logs) + [v]
  {
    var after, before := Values(order + [k], logs[k := v]), Values(order, logs);
    forall j | 0 <= j < |order| ensures after[j] == before[j] {
      assert order[j] != k;
    }
  }

  /** The total that `getStatus` reports grows by one exactly when a sent
      attempt is recorded, whichever sender it is recorded under. */
  lemma TotalAfterRecord(order: seq<string>, logs: map<string, MessageLog>, from: string, e: Entry)
    requires StoreValid(order, logs)
    ensures StoreValid(RecordedOrder(order, logs, from), RecordedLogs(logs, from, e))
    ensures SumCounts(Values(RecordedOrder(order, logs, from), RecordedLogs(logs, from, e)))
      == SumCounts(Values(order, logs)) + (if e.status == Sent then 1 else 0)
  {
    RecordKeepsStoreValid(order, logs, from, e);
    var v := Record(LogOf(logs, from), e);
    var before := Values(order, logs);
    if from in logs {
      var i :| 0 <= i < |order| && order[i] == from;
      ValuesAfterUpdate(order, logs, i, v);
      SumCountsUpdate(before, i, v);
    } else {
      ValuesAfterInsert(order, logs, from, v);
      SumCountsAppend(before, v);
    }
  }

  /** A sequence without repetitions has as many distinct elements as it
      is long. */
  lemma {:induction false} DistinctCardinality(s: seq<string>)
    requires Distinct(s)
    ensures |set k | k in s| == |s|
    decreases |s|
  {
    if s != [] {
      var n := |s| - 1;
      DistinctCardinality(s[..n]);
      assert (set k | k in s) == (set k | k in s[..n]) + {s[n]};
      assert s[n] !in (set k | k in s[..n]);
    }
  }

  /** The number of keys of the map is the number of logs
      `getMessageLogs()` returns. */
  lemma KeyCountIsLogCount(order: seq<string>, logs: map<string, MessageLog>)
    requires StoreValid(order, logs)
    ensures |logs| == |Values(order, logs)|
  {
    DistinctCardinality(order);
    assert logs.Keys == set k | k in order;
  }

  class WhatsappService {
    /** Whether `client` has been assigned a client. */
    var hasClient: bool
    var isReady: bool
    var currentQR: string
    /** The insertion order of the keys of `messageLogs`, which is the order
        in which a JavaScript `Map` yields its values. */
    var senders: seq<string>
    var messageLogs: map<string, MessageLog>

    ghost predicate Valid()
      reads this
    {
      StoreValid(senders, messageLogs)
    }

    constructor ()
      ensures Valid()
      ensures !hasClient && !isReady && currentQR == "" && senders == [] && messageLogs == map[]
    {
      hasClient := false;
      isReady := false;
      currentQR := "";
      senders := [];
      messageLogs := map[];
    }

    /** The assignment of a new client by `onModuleInit`. */
    method CreateClient()
      requires Valid()
      modifies this
      ensures Valid()
      ensures hasClient
      ensures isReady == old(isReady) && currentQR == old(currentQR)
      ensures senders == old(senders) && messageLogs == old(messageLogs)
    {
      hasClient := true;
    }

    /** The four event handlers: `qr` stores the code, `ready` makes the
        client ready and leaves the code alone, `disconnected` makes it not
        ready and clears the code, `auth_failure` clears only the code. */
    method OnEvent(ev: ClientEvent)
      requires Valid()
      modifies this
      ensures Valid()
      ensures hasClient == old(hasClient) && senders == old(senders) && messageLogs == old(messageLogs)
      ensures ev.Qr? ==> currentQR == ev.code && isReady == old(isReady)
      ensures ev.Ready? ==> isReady && currentQR == old(currentQR)
      ensures ev.Disconnected? ==> !isReady && currentQR == ""
      ensures ev.AuthFailure? ==> currentQR == "" && isReady == old(isReady)
    {
      match ev
      case Qr(code) =>
        currentQR := code;
      case Ready =>
        isReady := true;
      case Disconnected(_) =>
        isReady := false;
        currentQR := "";
      case AuthFailure(_) =>
        currentQR := "";
    }

    /** `logMessage`: the attempt is recorded in the log kept under `from`,
        created empty first if missing; no other sender's log changes. */
    method LogMessage(from: string, to: string, message: string, status: Status, now: Timestamp)
      requires Valid()
      modifies this
      ensures Valid()
      ensures messageLogs == RecordedLogs(old(messageLogs), from, Entry(to, message, now, status))
      ensures senders == RecordedOrder(old(senders), old(messageLogs), from)
      ensures hasClient == old(hasClient) && isReady == old(isReady) && currentQR == old(currentQR)
    {
      var e := Entry(to, message, now, status);
      ghost var order', logs' := RecordedOrder(senders, messageLogs, from), RecordedLogs(messageLogs, from, e);
      RecordKeepsStoreValid(senders, messageLogs, from, e);
      var key := from;
      if key !in messageLogs {
        messageLogs := messageLogs[key := EmptyLog(from)];
        senders := senders + [key];
      }
      var log := messageLogs[key];
      assert log == LogOf(old(messageLogs), from);
      messageLogs := messageLogs[key := Record(log, e)];
      assert messageLogs == logs' && senders == order';
    }

    /** `sendMessage`: when not ready it throws and neither reaches the client
        nor logs anything. Otherwise it hands the message to the client under
        the normalised chat id, records exactly one attempt under `from`, sent
        exactly when the client call completed, and replies with `from`. */
    method SendMessage(from: string, to: string, message: string, now: Timestamp, delivery: Outcome)
      returns (r: Result<SendReply>, dispatchedTo: Option<string>)
      requires Valid()
      modifies this
      ensures Valid()
      ensures hasClient == old(hasClient) && isReady == old(isReady) && currentQR == old(currentQR)
      ensures !old(isReady) ==>
        r == Failure(NotReadyMessage) && dispatchedTo == None &&
        messageLogs == old(messageLogs) && senders == old(senders)
      ensures old(isReady) ==>
        && dispatchedTo == Some(Normalize(to, ChatDomain))
        && r == Success(DeliveryReply(delivery, from, to, message, now))
        && messageLogs == RecordedLogs(old(messageLogs), from, Entry(to, message, now, StatusOf(delivery.Done?)))
        && senders == RecordedOrder(old(senders), old(messageLogs), from)
    {
      if !isReady {
        r, dispatchedTo := Failure(NotReadyMessage), None;
        return;
      }
      var chatId := Normalize(to, ChatDomain);
      dispatchedTo := Some(chatId);
      if delivery.Done? {
        LogMessage(from, to, message, Sent, now);
      } else {
        LogMessage(from, to, message, Failed, now);
      }
      r := Success(DeliveryReply(delivery, from, to, message, now));
    }

    /** `getMessageLogs`: for a truthy number, its log, or a zero-valued log
        that is not stored; otherwise every log, in key insertion order. */
    function GetMessageLogs(numero: Option<string>): (r: LogsReply)
      requires Valid()
      reads this
      ensures Truthy(numero) ==> r.One? && r.log.numero == numero.value && Bounded(r.log)
      ensures Truthy(numero) && numero.value in messageLogs ==> r.log == messageLogs[numero.value]
      ensures Truthy(numero) && numero.value !in messageLogs ==> r.log.count == 0 && r.log.messages == []
      ensures !Truthy(numero) ==> r.All? && |r.logs| == |senders|
      ensures !Truthy(numero) ==> forall i :: 0 <= i < |r.logs| ==> r.logs[i] == messageLogs[senders[i]]
    {
      if Truthy(numero) then One(LogOf(messageLogs, numero.value)) else All(Values(senders, messageLogs))
    }

    /** `getQRCode`: the current pairing code and readiness. */
    function GetQRCode(): (r: QRInfo)
      reads this
      ensures r.qr == currentQR && r.isReady == isReady
    {
      QRInfo(currentQR, isReady)
    }

    /** `getStatus`: the number of senders, which is the number of logs
        `getMessageLogs()` returns, and the sum of their sent counters. */
    function GetStatus(): (r: StatusReport)
      requires Valid()
      reads this
      ensures r.isReady == isReady
      ensures r.totalNumbers == |messageLogs| == |GetMessageLogs(None).logs|
      ensures r.totalMessages == SumCounts(GetMessageLogs(None).logs)
    {
      KeyCountIsLogCount(senders, messageLogs);
      StatusReport(isReady, |messageLogs|, SumCounts(Values(senders, messageLogs)))
    }

    /** The state-changing part of `resetWhatsApp`. When destroying the
        existing client throws, nothing is cleared and the reset fails.
        Otherwise the client is made not ready with no pairing code, a new
        client is created and initialised, and the reply reports whether the
        initialisation completed. The logs are kept. */
    method Reset(teardown: Outcome, reinit: Outcome) returns (r: ResetReply)
      requires Valid()
      modifies this
      ensures Valid()
      ensures senders == old(senders) && messageLogs == old(messageLogs)
      ensures old(hasClient) && teardown.Error? ==>
        r == ResetReply(false, "Failed to reset WhatsApp client", Some(teardown.message))
        && isReady == old(isReady) && currentQR == old(currentQR) && hasClient
      ensures !(old(hasClient) && teardown.Error?) ==>
        !isReady && currentQR == "" && hasClient && r.success == reinit.Done?
    {
      if hasClient && teardown.Error? {
        return ResetReply(false, "Failed to reset WhatsApp client", Some(teardown.message));
      }
      isReady := false;
      currentQR := "";
      CreateClient();
      if reinit.Error? {
        return ResetReply(false, "Failed to reset WhatsApp client", Some(reinit.message));
      }
      r := ResetReply(true, "WhatsApp client reset successfully", None);
    }
  }

  /** A ready client to which "A" has sent one message and "B" has failed
      to send one. */
  method TwoSenders(now: Timestamp, to: string) returns (s: WhatsappService)
    ensures fresh(s) && s.Valid() && s.isReady
    ensures s.senders == ["A", "B"]
    ensures s.messageLogs == map["A" := MessageLog("A", 1, [Entry(to, "hi", now, Sent)]),
                                 "B" := MessageLog("B", 0, [Entry(to, "hi", now, Failed)])]
  {
    s := new WhatsappService();
    s.OnEvent(Ready);
    var sent, failed := Entry(to, "hi", now, Sent), Entry(to, "hi", now, Failed);
    var a, b := MessageLog("A", 1, [sent]), MessageLog("B", 0, [failed]);
    var reply, dispatched := s.SendMessage("A", to, "hi", now, Done);
    assert s.messageLogs == RecordedLogs(map[], "A", sent);
    assert Record(EmptyLog("A"), sent) == a by {
      assert [] + [sent] == [sent];
    }
    assert RecordedLogs(map[], "A", sent) == map["A" := a];
    assert s.senders == ["A"];
    reply, dispatched := s.SendMessage("B", to, "hi", now, Error("timeout"));
    assert s.messageLogs == RecordedLogs(map["A" := a], "B", failed);
    assert Record(EmptyLog("B"), failed) == b by {
      assert [] + [failed] == [failed];
    }
    assert RecordedLogs(map["A" := a], "B", failed) == map["A" := a, "B" := b];
  }

  /** Two senders: the status counts both senders but only the sent
      attempt. */
  method StatusScenario(now: Timestamp, to: string) returns (status: StatusReport)
    ensures status == StatusReport(true, 2, 1)
  {
    var s := TwoSenders(now, to);
    var a, b := s.messageLogs["A"], s.messageLogs["B"];
    assert s.GetMessageLogs(None) == All([a, b]);
    assert SumCounts([a, b]) == 1 by {
      SumCountsAppend([], a);
      SumCountsAppend([a], b);
      assert [] + [a] == [a] && [a] + [b] == [a, b];
    }
    status := s.GetStatus();
  }

  /** Two senders: each has its own log, and an unknown sender reads as a
      zero-valued log. */
  method LookupScenario(now: Timestamp, to: string) returns (failedLog: LogsReply, unknown: LogsReply)
    ensures failedLog == One(MessageLog("B", 0, [Entry(to, "hi", now, Failed)]))
    ensures unknown == One(MessageLog("C", 0, []))
  {
    var s := TwoSenders(now, to);
    failedLog := s.GetMessageLogs(Some("B"));
    unknown := s.GetMessageLogs(Some("C"));
  }
}
