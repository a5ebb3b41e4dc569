/** The Baileys variant of the messaging service (src/whatsapp/whatsapp.service.ts):
    one fixed business number, a connection state driven by `connection.update`
    events, and a message log that is always kept under the business number. */
module BaileysService {
  import opened Replies
  import opened MessageLogStore
  import opened Address

  /** The fixed WhatsApp Business number of the service. */
  const BusinessNumber: string := "221786360662"

  /** The status code Baileys' `DisconnectReason.loggedOut` stands for. */
  const LoggedOutCode: int := 401

  /** The `connection` field of a Baileys connection update. */
  datatype Connection = Connecting | Open | Close

  /** The parts of a `Partial<ConnectionState>` the handler reads: the new
      connection phase, the status code of the last disconnect error (absent
      when any link of `lastDisconnect?.error?.output?.statusCode` is missing)
      and a new pairing code. */
  datatype ConnectionUpdate = ConnectionUpdate(
    connection: Option<Connection>,
    disconnectStatus: Option<int>,
    qr: Option<string>)

  /** A close is transient, and a retry is scheduled, unless its status code
      is the logged-out code. */
  predicate ShouldReconnect(u: ConnectionUpdate) {
    u.disconnectStatus != Some(LoggedOutCode)
  }

  /** The object `getQRCode` returns. */
  datatype QRInfo = QRInfo(qr: string, isReady: bool, businessNumber: string)

  /** The object `getStatus` returns. */
  datatype StatusReport = StatusReport(isReady: bool, businessNumber: string, totalNumbers: nat, totalMessages: nat)

  /** The error message `sendMessage` throws when the service is not ready. */
  function NotReadyMessage(number: string): string {
    "WhatsApp Business " + number + " not ready. Please scan QR code first."
  }

  class WhatsappService {
    /** Whether `sock` has been assigned a socket. */
    var hasSocket: bool
    var isReady: bool
    var currentQR: string
    var messageLogs: map<string, MessageLog>
    const businessNumber: string := BusinessNumber

    /** Every stored log is the business number's log, and it is bounded. */
    ghost predicate Valid()
      reads this
    {
      forall k :: k in messageLogs ==>
        k == businessNumber && messageLogs[k].numero == businessNumber && Bounded(messageLogs[k])
    }

    constructor ()
      ensures Valid()
      ensures !hasSocket && !isReady && currentQR == "" && messageLogs == map[]
    {
      hasSocket := false;
      isReady := false;
      currentQR := "";
      messageLogs := map[];
    }

    /** The assignment of a new socket by `initializeWhatsApp`. */
    method AttachSocket()
      requires Valid()
      modifies this
      ensures Valid()
      ensures hasSocket
      ensures isReady == old(isReady) && currentQR == old(currentQR) && messageLogs == old(messageLogs)
    {
      hasSocket := true;
    }

    /** The `connection.update` handler. A truthy `qr` is stored first; an
        `open` connection then makes the service ready and clears the code
        (even one the same update carried); a logged-out `close` makes it
        not ready and clears the code; any other `close` changes nothing
        more and returns that a reconnection is scheduled. */
    method OnConnectionUpdate(u: ConnectionUpdate) returns (reconnectScheduled: bool)
      requires Valid()
      modifies this
      ensures Valid()
      ensures messageLogs == old(messageLogs) && hasSocket == old(hasSocket)
      ensures reconnectScheduled <==> u.connection == Some(Close) && ShouldReconnect(u)
      ensures u.connection == Some(Open) ==> isReady && currentQR == ""
      ensures u.connection == Some(Close) && !ShouldReconnect(u) ==> !isReady && currentQR == ""
      ensures u.connection != Some(Open) && !(u.connection == Some(Close) && !ShouldReconnect(u)) ==>
        isReady == old(isReady) && currentQR == (if Truthy(u.qr) then u.qr.value else old(currentQR))
    {
      reconnectScheduled := false;
      if Truthy(u.qr) {
        currentQR := u.qr.value;
      }
      if u.connection == Some(Close) {
        if ShouldReconnect(u) {
          reconnectScheduled := true;
        } else {
          isReady := false;
          currentQR := "";
        }
      } else if u.connection == Some(Open) {
        isReady := true;
        currentQR := "";
      }
    }

    /** `logMessage`: whatever `from` is, the attempt is recorded in the log
        kept under the business number, which is created empty first if
        missing. */
    method LogMessage(from: string, to: string, message: string, status: Status, now: Timestamp)
      requires Valid()
      modifies this
      ensures Valid()
      ensures messageLogs == old(messageLogs)[businessNumber := Record(LogOf(old(messageLogs), businessNumber), Entry(to, message, now, status))]
      ensures isReady == old(isReady) && currentQR == old(currentQR) && hasSocket == old(hasSocket)
    {
      var key := businessNumber;
      if key !in messageLogs {
        messageLogs := messageLogs[key := EmptyLog(businessNumber)];
      }
      var log := messageLogs[key];
      messageLogs := messageLogs[key := Record(log, Entry(to, message, now, status))];
    }

    /** `sendMessage`: without a ready socket it throws and neither reaches the
        transport nor logs anything. Otherwise it hands the message to the
        transport under the normalised JID, records exactly one attempt,
        sent exactly when the transport call completed, and replies with the
        business number as sender. */
    method SendMessage(from: string, to: string, message: string, now: Timestamp, delivery: Outcome)
      returns (r: Result<SendReply>, dispatchedTo: Option<string>)
      requires Valid()
      modifies this
      ensures Valid()
      ensures isReady == old(isReady) && currentQR == old(currentQR) && hasSocket == old(hasSocket)
      ensures !(old(isReady) && old(hasSocket)) ==>
        r == Failure(NotReadyMessage(businessNumber)) && dispatchedTo == None && messageLogs == old(messageLogs)
      ensures old(isReady) && old(hasSocket) ==>
        && dispatchedTo == Some(Normalize(to, JidDomain))
        && r == Success(DeliveryReply(delivery, businessNumber, to, message, now))
        && messageLogs == old(messageLogs)[businessNumber :=
             Record(LogOf(old(messageLogs), businessNumber), Entry(to, message, now, StatusOf(delivery.Done?)))]
    {
      if !isReady || !hasSocket {
        r, dispatchedTo := Failure(NotReadyMessage(businessNumber)), None;
        return;
      }
      var jid := Normalize(to, JidDomain);
      dispatchedTo := Some(jid);
      if delivery.Done? {
        LogMessage(from, to, message, Sent, now);
      } else {
        LogMessage(from, to, message, Failed, now);
      }
      r := Success(DeliveryReply(delivery, businessNumber, to, message, now));
    }

    /** `getMessageLogs`: a truthy number other than the business number gets
        a zero-valued log of its own; otherwise the business log is returned,
        or a zero-valued one when nothing has been logged yet. */
    function GetMessageLogs(numero: Option<string>): (r: MessageLog)
      requires Valid()
      reads this
      ensures Bounded(r)
      ensures Truthy(numero) && numero.value != businessNumber ==>
        r.numero == numero.value && r.count == 0 && r.messages == []
      ensures !(Truthy(numero) && numero.value != businessNumber) ==>
        r.numero == businessNumber &&
        (businessNumber in messageLogs ==> r == messageLogs[businessNumber]) &&
        (businessNumber !in messageLogs ==> r.count == 0 && r.messages == [])
    {
      if Truthy(numero) && numero.value != businessNumber then
        EmptyLog(numero.value)
      else
        LogOf(messageLogs, businessNumber)
    }

    /** `getQRCode`: the current pairing code and readiness. */
    function GetQRCode(): (r: QRInfo)
      reads this
      ensures r.qr == currentQR && r.isReady == isReady && r.businessNumber == businessNumber
    {
      QRInfo(currentQR, isReady, businessNumber)
    }

    /** `getStatus`: a single number, and as many messages as the business
        log has counted as sent (the count `getMessageLogs()` reports). */
    function GetStatus(): (r: StatusReport)
      requires Valid()
      reads this
      ensures r.isReady == isReady && r.businessNumber == businessNumber
      ensures r.totalNumbers == 1
      ensures r.totalMessages == GetMessageLogs(None).count
    {
      StatusReport(isReady, businessNumber, 1,
        if businessNumber in messageLogs then messageLogs[businessNumber].count else 0)
    }

    /** The state-changing part of `resetWhatsApp`. When closing the existing
        socket throws, nothing is cleared and the reset fails. Otherwise the
        service is made not ready with no pairing code before it is
        reinitialised; the reply reports the reinitialisation's outcome and a
        successful one leaves a new socket in place. The logs are kept. */
    method Reset(teardown: Outcome, reinit: Outcome) returns (r: ResetReply)
      requires Valid()
      modifies this
      ensures Valid()
      ensures messageLogs == old(messageLogs)
      ensures old(hasSocket) && teardown.Error? ==>
        r == ResetReply(false, "Failed to reset WhatsApp Business", Some(teardown.message))
        && isReady == old(isReady) && currentQR == old(currentQR) && hasSocket
      ensures !(old(hasSocket) && teardown.Error?) ==> !isReady && currentQR == ""
      ensures !(old(hasSocket) && teardown.Error?) ==>
        r.success == reinit.Done? && hasSocket == (old(hasSocket) || reinit.Done?)
    {
      if hasSocket && teardown.Error? {
        return ResetReply(false, "Failed to reset WhatsApp Business", Some(teardown.message));
      }
      isReady := false;
      currentQR := "";
      if reinit.Error? {
        return ResetReply(false, "Failed to reset WhatsApp Business", Some(reinit.message));
      }
      AttachSocket();
      r := ResetReply(true, "WhatsApp Business " + businessNumber + " reset successfully", None);
    }
  }

  /** Pairing then connecting: a pairing code is reported while the service is
      not ready, and the successful connection clears it. */
  method PairingScenario() returns (pairing: QRInfo, connected: QRInfo)
    ensures pairing == QRInfo("ABC123", false, BusinessNumber)
    ensures connected == QRInfo("", true, BusinessNumber)
  {
    var s := new WhatsappService();
    var retry := s.OnConnectionUpdate(ConnectionUpdate(None, None, Some("ABC123")));
    pairing := s.GetQRCode();
    retry := s.OnConnectionUpdate(ConnectionUpdate(Some(Open), None, None));
    connected := s.GetQRCode();
  }

  /** Sending while ready: the attempt is logged under the business number,
      the counter goes up by one, and the last entry is the message sent. */
  method SendScenario(now: Timestamp, to: string) returns (reply: Result<SendReply>, log: MessageLog)
    ensures reply.Success? && reply.value.success && reply.value.from == BusinessNumber
    ensures log.count == 1 && log.messages == [Entry(to, "hello", now, Sent)]
  {
    var s := new WhatsappService();
    s.AttachSocket();
    var retry := s.OnConnectionUpdate(ConnectionUpdate(Some(Open), None, None));
    var dispatched;
    var e := Entry(to, "hello", now, Sent);
    reply, dispatched := s.SendMessage("33123456789", e.to, e.message, now, Done);
    assert s.messageLogs == map[BusinessNumber := Record(EmptyLog(BusinessNumber), e)];
    assert Record(EmptyLog(BusinessNumber), e).messages == [e] by {
      assert [] + [e] == [e];
    }
    log := s.GetMessageLogs(None);
  }
}
