/** The terminating store-and-forward session that carries delivery notifications: the
  * network's store-and-forward server opens it to hand over IMDN reports (RFC 5438)
  * for messages sent while the recipient was offline. It is accepted without asking the
  * user and replaces the 1-1 chat session held with the same contact. */
module TerminatingStoreForwardSessionModel {
  import opened Common
  import opened SessionEvents
  import opened ImsServiceModel
  import opened InstantMessagingServiceModel
  import opened ChatUtilsModel
  import TerminatingImageSessionModel

  // ---------------------------------------------------------------------------
  // Replacing the existing 1-1 chat session

  /** What starting the session does to a 1-1 chat session already held with the same
    * contact. */
  datatype Replacement =
    | NoExisting        // nothing to replace
    | RejectNew         // the existing one is kept and the new one refused
    | AbortExisting     // the existing one is aborted by the user, the new one started
    | RejectExisting    // the existing invitation is rejected, the new one started

  /** The replacement policy of startSession, given the chat session cached for the
    * contact and whether its dialog is established. A pending session that this side
    * originated wins over the new one; any other one gives way. */
  function ReplacementFor(existing: Option<SessionRef>, existingEstablished: bool): Replacement
  {
    if existing.None? then NoExisting
    else if !existingEstablished && !existing.value.initiatedByRemote then RejectNew
    else if existing.value.initiatedByRemote then
      if existingEstablished then AbortExisting else RejectExisting
    else AbortExisting
  }

  /** The policy in closed form: an established session is always aborted, a pending
    * remote invitation is rejected, and only a pending local one refuses the new
    * session. */
  lemma ReplacementCases(existing: Option<SessionRef>, established: bool)
    ensures ReplacementFor(existing, established) == NoExisting <==> existing.None?
    ensures ReplacementFor(existing, established) == RejectNew
            <==> existing.Some? && !established && !existing.value.initiatedByRemote
    ensures ReplacementFor(existing, established) == AbortExisting
            <==> existing.Some? && established
    ensures ReplacementFor(existing, established) == RejectExisting
            <==> existing.Some? && !established && existing.value.initiatedByRemote
  {
  }

  /** What startSession records: the refusal of the new session, or what is done to the
    * existing one followed by the registration and the start of the new one. */
  function StartTrace(h: seq<Event>, r: Replacement): (t: seq<Event>)
    ensures Extends(t, h)
  {
    match r
    case RejectNew => h + [SessionRejected]
    case AbortExisting => h + [OtherSessionAborted(TerminationByUser)] + [SessionAdded]
                          + [SessionThreadStarted]
    case RejectExisting => h + [OtherSessionRejected] + [SessionAdded] + [SessionThreadStarted]
    case NoExisting => h + [SessionAdded] + [SessionThreadStarted]
  }

  /** In every case but the refusal the session is registered and then started, and
    * the replaced session is dealt with first; a refused session is neither. */
  lemma StartOrder(h: seq<Event>, r: Replacement)
    ensures var t := StartTrace(h, r);
      r == RejectNew <==> AbsentFrom(t, |h|, SessionThreadStarted)
    ensures var t := StartTrace(h, r);
      r != RejectNew ==> t[|t| - 2] == SessionAdded && t[|t| - 1] == SessionThreadStarted
  {
    var t := StartTrace(h, r);
    if r != RejectNew {
      assert t[|t| - 1] == SessionThreadStarted;
    }
  }

  // ---------------------------------------------------------------------------
  // The session's run

  /** The local MSRP port: the MSRP manager's port when this side connects actively,
    * 9, the discard port, otherwise. */
  function ForwardLocalPort(localSetup: Setup, managerPort: int): int
  {
    if localSetup == Active then managerPort else 9
  }

  /** The port rule is the reverse of the image session's: with a listening port other
    * than 9, exactly one of the two sessions advertises 9 in either role. */
  lemma PortRuleReversed(localSetup: Setup, port: int)
    requires localSetup == Active || localSetup == Passive
    requires port != 9
    ensures (ForwardLocalPort(localSetup, port) == 9)
            != (TerminatingImageSessionModel.ImageLocalPort(localSetup, port) == 9)
  {
  }

  /** handleError: the media are closed, then the session is removed; no listener is
    * told. */
  function ForwardError(h: seq<Event>, error: SharingError): (t: seq<Event>)
    ensures Extends(t, h)
  {
    h + [HandleError(error)] + [MsrpClosed] + [SessionRemoved]
  }

  /** The ACK wait and what follows: the connecting side opens its MSRP session only once
    * the session is established, then the activity manager is started. The connection
    * is made on the session's own thread, so when it fails (`clientOpenFails`) the
    * exception reaches the run's catch-all and handleError, after the establishment. */
  function ForwardAck(h: seq<Event>, localSetup: Setup, ack: AckOutcome,
                      clientOpenFails: bool): (t: seq<Event>)
    ensures Extends(t, h)
  {
    match ack
    case AckReceived =>
      var established := h + [SessionEstablished];
      if localSetup == Active && clientOpenFails then
        ForwardError(established, UnexpectedException)
      else
        var connected := if localSetup == Active then established + [MsrpClientOpened]
                                                      + [EmptyChunkSent]
                         else established;
        connected + [ActivityManagerStarted]
    case NoAck => ForwardError(h, SessionInitiationFailed)
    case SendFailed => ForwardError(h, UnexpectedException)
  }

  /** The answer once the local SDP is set: the listening side opens its MSRP server
    * and sends an empty chunk before the 200 OK. */
  function ForwardAnswer(h: seq<Event>, localSetup: Setup, ack: AckOutcome,
                         clientOpenFails: bool): (t: seq<Event>)
    ensures Extends(t, h)
  {
    var listening := if localSetup == Passive then h + [MsrpServerOpened] + [EmptyChunkSent]
                     else h;
    ForwardAck(listening + [SigEstablished] + [ResponseSent(OK)], localSetup, ack,
               clientOpenFails)
  }

  /** Everything run() does, given the remote offer (None when it cannot be read), the
    * MSRP manager's port, whether the session was interrupted, how the ACK wait ended
    * and whether the connecting side fails to open its MSRP session. The invitation is
    * answered 200 OK without asking anyone. */
  function ForwardRun(h: seq<Event>, remote: Option<RemoteMedia>, managerPort: int,
                      interrupted: bool, ack: AckOutcome, clientOpenFails: bool): (t: seq<Event>)
    ensures Extends(t, h)
  {
    if remote.None? then ForwardError(h, UnexpectedException)
    else
      var localSetup := CreateSetupAnswer(RemoteSetupOf(remote.value.setup));
      var described := h + [LocalSdpSet(ForwardLocalPort(localSetup, managerPort), localSetup)];
      if interrupted then described else ForwardAnswer(described, localSetup, ack, clientOpenFails)
  }

  /** The errors the ACK wait and the connection after it hand to handleError. */
  function ForwardAckErrors(localSetup: Setup, ack: AckOutcome, clientOpenFails: bool)
    : seq<SharingError>
  {
    match ack
    case AckReceived => if localSetup == Active && clientOpenFails then [UnexpectedException] else []
    case NoAck => [SessionInitiationFailed]
    case SendFailed => [UnexpectedException]
  }

  /** A run ends in handleError: the offer cannot be read, or, unless interrupted, the
    * ACK does not come or the connecting side cannot open its MSRP session. */
  predicate RunFails(remote: Option<RemoteMedia>, interrupted: bool, ack: AckOutcome,
                     clientOpenFails: bool)
  {
    remote.None?
    || (!interrupted
        && (ack != AckReceived
            || (CreateSetupAnswer(RemoteSetupOf(remote.value.setup)) == Active
                && clientOpenFails)))
  }

  // ---------------------------------------------------------------------------
  // Received data

  /** A CPIM message as the CPIM parser returns it: its Content-Type header, if any,
    * and its body. */
  datatype CpimMessage = CpimMessage(contentType: Option<string>, content: string)

  /** msrpDataReceived: the activity timer is refreshed; then empty data, data of a
    * type other than message/cpim, unparsable CPIM and CPIM that carries no IMDN
    * report are ignored. A report is handed on with the sender's contact, or with the
    * session's remote contact when the From header is not a valid contact. */
  function ForwardData(h: seq<Event>, data: Option<seq<bv8>>, mimeType: Option<string>,
                       cpim: Option<CpimMessage>, from: Option<ContactId>,
                       remoteContact: ContactId): (t: seq<Event>)
    ensures Extends(t, h)
  {
    var updated := h + [ActivityUpdated];
    if data.None? || |data.value| == 0 || !IsMessageCpimType(mimeType) || cpim.None? then updated
    else if IsMessageImdnType(cpim.value.contentType) then
      updated + [DeliveryStatusReceived(if from.Some? then from.value else remoteContact,
                                        cpim.value.content)]
    else updated
  }

  /** The activity timer is always refreshed first, and a report is handed on exactly
    * when the data is a non-empty CPIM message whose content is an IMDN. */
  lemma DataReceivedDelivers(h: seq<Event>, data: Option<seq<bv8>>, mimeType: Option<string>,
                             cpim: Option<CpimMessage>, from: Option<ContactId>,
                             remoteContact: ContactId)
    ensures var t := ForwardData(h, data, mimeType, cpim, from, remoteContact);
      && t[|h|] == ActivityUpdated
      && (|t| == |h| + 2 <==> data.Some? && |data.value| > 0 && IsMessageCpimType(mimeType)
                              && cpim.Some? && IsMessageImdnType(cpim.value.contentType))
      && (|t| == |h| + 2 ==> t[|h| + 1] == DeliveryStatusReceived(
             if from.Some? then from.value else remoteContact, cpim.value.content))
      && NotesIn(t) == NotesIn(h) && ErrorsIn(t) == ErrorsIn(h)
  {
    var t := ForwardData(h, data, mimeType, cpim, from, remoteContact);
    var updated := h + [ActivityUpdated];
    assert t[..|updated|] == updated;
    assert t[|h|] == updated[|h|];
    Project1(h, ActivityUpdated);
    if |t| == |h| + 2 {
      Project1(updated, t[|h| + 1]);
      assert t == updated + [t[|h| + 1]];
    }
  }

  /** Data that is absent or empty only refreshes the activity timer. */
  lemma EmptyDataIgnored(h: seq<Event>, data: Option<seq<bv8>>, mimeType: Option<string>,
                         cpim: Option<CpimMessage>, from: Option<ContactId>,
                         remoteContact: ContactId)
    ensures (data.None? || data.value == []) ==>
      ForwardData(h, data, mimeType, cpim, from, remoteContact) == h + [ActivityUpdated]
  {
  }

  // ---------------------------------------------------------------------------
  // The session

  class TerminatingStoreAndForwardNotifSession {
    /** This session as the registries see it. */
    const self: SessionRef
    /** The listening port of the session's MSRP manager. */
    const managerPort: int
    /** The IM service that caches 1-1 chat sessions. */
    const im: InstantMessagingService
    var events: seq<Event>

    constructor (self: SessionRef, managerPort: int, im: InstantMessagingService)
      ensures this.self == self && this.managerPort == managerPort && this.im == im
      ensures events == []
    {
      this.self := self;
      this.managerPort := managerPort;
      this.im := im;
      events := [];
    }

    /** startSession: applies the replacement policy to the 1-1 chat session cached for
      * the contact, then registers the new session under the contact and starts it,
      * unless it was refused. `existingEstablished` is the state of the cached
      * session's dialog. */
    method StartSession(existingEstablished: bool)
      requires im.Valid()
      modifies this`events, im`oneToOne, im.ims`sessions
      ensures im.Valid()
      ensures var existing := if self.contact in old(im.oneToOne)
                              then Some(old(im.oneToOne)[self.contact]) else None;
        var r := ReplacementFor(existing, existingEstablished);
        && events == StartTrace(old(events), r)
        && im.oneToOne == (if r == RejectNew then old(im.oneToOne)
                           else old(im.oneToOne)[self.contact := self])
        && im.ims.sessions == (if r == RejectNew then old(im.ims.sessions)
                               else old(im.ims.sessions)[self.callId := self])
    {
      var existing := if self.contact in im.oneToOne then Some(im.oneToOne[self.contact])
                      else None;
      if existing.Some? {
        if !existingEstablished && !existing.value.initiatedByRemote {
          events := events + [SessionRejected];
          return;
        }
        if existing.value.initiatedByRemote {
          if existingEstablished {
            events := events + [OtherSessionAborted(TerminationByUser)];
          } else {
            events := events + [OtherSessionRejected];
          }
        } else {
          events := events + [OtherSessionAborted(TerminationByUser)];
        }
      }
      im.AddOneToOneChatSession(self);
      events := events + [SessionAdded];
      events := events + [SessionThreadStarted];
    }

    /** handleError: closes the media and removes the session from the 1-1 chat cache
      * (the removal the service defers is taken as done). */
    method HandleSessionError(error: SharingError)
      requires im.Valid()
      modifies this`events, im`oneToOne, im.ims`sessions
      ensures im.Valid()
      ensures events == ForwardError(old(events), error)
      ensures im.oneToOne == old(im.oneToOne) - {self.contact}
      ensures im.ims.sessions == old(im.ims.sessions) - {self.callId}
    {
      events := events + [HandleError(error)];
      events := events + [MsrpClosed];
      im.RemoveOneToOneChatSession(self);
      events := events + [SessionRemoved];
    }

    /** The session's thread body. */
    method Run(remote: Option<RemoteMedia>, interrupted: bool, ack: AckOutcome,
               clientOpenFails: bool)
      requires im.Valid()
      modifies this`events, im`oneToOne, im.ims`sessions
      ensures im.Valid()
      ensures events == ForwardRun(old(events), remote, managerPort, interrupted, ack,
                                   clientOpenFails)
      ensures im.oneToOne == if RunFails(remote, interrupted, ack, clientOpenFails)
                             then old(im.oneToOne) - {self.contact} else old(im.oneToOne)
      ensures im.ims.sessions == if RunFails(remote, interrupted, ack, clientOpenFails)
                                 then old(im.ims.sessions) - {self.callId}
                                 else old(im.ims.sessions)
    {
      if remote.None? {
        HandleSessionError(UnexpectedException);
        return;
      }
      var localSetup := CreateSetupAnswer(RemoteSetupOf(remote.value.setup));
      var localPort := if localSetup == Active then managerPort else 9;
      events := events + [LocalSdpSet(localPort, localSetup)];
      if !interrupted {
        Answer(localSetup, ack, clientOpenFails);
      }
    }

    /** Answers 200 OK, waits for the ACK and, on the connecting side, opens the MSRP
      * session. */
    method Answer(localSetup: Setup, ack: AckOutcome, clientOpenFails: bool)
      requires im.Valid()
      modifies this`events, im`oneToOne, im.ims`sessions
      ensures im.Valid()
      ensures events == ForwardAnswer(old(events), localSetup, ack, clientOpenFails)
      ensures im.oneToOne == if ForwardAckErrors(localSetup, ack, clientOpenFails) != []
                             then old(im.oneToOne) - {self.contact} else old(im.oneToOne)
      ensures im.ims.sessions == if ForwardAckErrors(localSetup, ack, clientOpenFails) != []
                                 then old(im.ims.sessions) - {self.callId}
                                 else old(im.ims.sessions)
    {
      if localSetup == Passive {
        events := events + [MsrpServerOpened];
        events := events + [EmptyChunkSent];
      }
      events := events + [SigEstablished];
      events := events + [ResponseSent(OK)];
      match ack {
        case AckReceived =>
          events := events + [SessionEstablished];
          if localSetup == Active {
            if clientOpenFails {
              HandleSessionError(UnexpectedException);
              return;
            }
            events := events + [MsrpClientOpened];
            events := events + [EmptyChunkSent];
          }
          events := events + [ActivityManagerStarted];
        case NoAck =>
          HandleSessionError(SessionInitiationFailed);
        case SendFailed =>
          HandleSessionError(UnexpectedException);
      }
    }

    /** msrpDataReceived, given what the CPIM parser and the contact parser return. */
    method MsrpDataReceived(data: Option<seq<bv8>>, mimeType: Option<string>,
                            cpim: Option<CpimMessage>, from: Option<ContactId>)
      modifies this`events
      ensures events == ForwardData(old(events), data, mimeType, cpim, from, self.contact)
    {
      events := events + [ActivityUpdated];
      if data.None? || |data.value| == 0 {
        return;
      }
      if IsMessageCpimType(mimeType) && cpim.Some? && IsMessageImdnType(cpim.value.contentType) {
        var contact := if from.Some? then from.value else self.contact;
        events := events + [DeliveryStatusReceived(contact, cpim.value.content)];
      }
    }
  }

  // ---------------------------------------------------------------------------
  // Properties of a run

  /** The errors a run hands to handleError: at most one. */
  function ForwardErrors(remote: Option<RemoteMedia>, interrupted: bool, ack: AckOutcome,
                         clientOpenFails: bool): (errors: seq<SharingError>)
    ensures |errors| == 1 <==> RunFails(remote, interrupted, ack, clientOpenFails)
    ensures |errors| <= 1
    ensures errors == [SessionInitiationFailed] <==> remote.Some? && !interrupted && ack == NoAck
  {
    if remote.None? then [UnexpectedException]
    else if interrupted then []
    else ForwardAckErrors(CreateSetupAnswer(RemoteSetupOf(remote.value.setup)), ack,
                          clientOpenFails)
  }

  /** handleError notifies nobody and reports its one error. */
  lemma ErrorProjections(h: seq<Event>, error: SharingError)
    ensures ErrorsIn(ForwardError(h, error)) == ErrorsIn(h) + [error]
    ensures NotesIn(ForwardError(h, error)) == NotesIn(h)
  {
    Project1(h, HandleError(error));
    Project1(h + [HandleError(error)], MsrpClosed);
    Project1(h + [HandleError(error)] + [MsrpClosed], SessionRemoved);
  }

  lemma AckProjections(h: seq<Event>, localSetup: Setup, ack: AckOutcome, clientOpenFails: bool)
    ensures ErrorsIn(ForwardAck(h, localSetup, ack, clientOpenFails))
            == ErrorsIn(h) + ForwardAckErrors(localSetup, ack, clientOpenFails)
    ensures NotesIn(ForwardAck(h, localSetup, ack, clientOpenFails)) == NotesIn(h)
  {
    match ack {
      case AckReceived =>
        var established := h + [SessionEstablished];
        Project1(h, SessionEstablished);
        if localSetup == Active && clientOpenFails {
          ErrorProjections(established, UnexpectedException);
        } else if localSetup == Active {
          Project1(established, MsrpClientOpened);
          Project1(established + [MsrpClientOpened], EmptyChunkSent);
          Project1(established + [MsrpClientOpened] + [EmptyChunkSent], ActivityManagerStarted);
        } else {
          Project1(established, ActivityManagerStarted);
        }
      case NoAck => ErrorProjections(h, SessionInitiationFailed);
      case SendFailed => ErrorProjections(h, UnexpectedException);
    }
  }

  /** A run notifies no listener, and hands handleError exactly the errors of the
    * reference definition. */
  lemma RunProjections(h: seq<Event>, remote: Option<RemoteMedia>, port: int, interrupted: bool,
                       ack: AckOutcome, clientOpenFails: bool)
    ensures ErrorsIn(ForwardRun(h, remote, port, interrupted, ack, clientOpenFails))
            == ErrorsIn(h) + ForwardErrors(remote, interrupted, ack, clientOpenFails)
    ensures NotesIn(ForwardRun(h, remote, port, interrupted, ack, clientOpenFails)) == NotesIn(h)
  {
    if remote.None? {
      ErrorProjections(h, UnexpectedException);
    } else {
      var s := CreateSetupAnswer(RemoteSetupOf(remote.value.setup));
      var described := h + [LocalSdpSet(ForwardLocalPort(s, port), s)];
      Project1(h, LocalSdpSet(ForwardLocalPort(s, port), s));
      if !interrupted {
        var listening := if s == Passive then described + [MsrpServerOpened] + [EmptyChunkSent]
                         else described;
        if s == Passive {
          Project1(described, MsrpServerOpened);
          Project1(described + [MsrpServerOpened], EmptyChunkSent);
        }
        Project1(listening, SigEstablished);
        Project1(listening + [SigEstablished], ResponseSent(OK));
        AckProjections(listening + [SigEstablished] + [ResponseSent(OK)], s, ack, clientOpenFails);
      }
    }
  }

  /** The listening side: the MSRP server is opened and the empty chunk sent before
    * the 200 OK, and after the ACK only the activity manager is started; no client
    * connection is attempted, so its outcome does not matter. */
  lemma PassiveRun(h: seq<Event>, remote: RemoteMedia, port: int, clientOpenFails: bool)
    requires CreateSetupAnswer(RemoteSetupOf(remote.setup)) == Passive
    ensures ForwardRun(h, Some(remote), port, false, AckReceived, clientOpenFails)
            == h + [LocalSdpSet(9, Passive)] + [MsrpServerOpened] + [EmptyChunkSent]
               + [SigEstablished] + [ResponseSent(OK)] + [SessionEstablished]
               + [ActivityManagerStarted]
  {
  }

  /** The connecting side: it advertises the manager's port and opens the MSRP client
    * only after the ACK, once the session is established; when that connection fails,
    * the established session ends in handleError with an unexpected exception. */
  lemma ActiveRun(h: seq<Event>, remote: RemoteMedia, port: int, clientOpenFails: bool)
    requires CreateSetupAnswer(RemoteSetupOf(remote.setup)) == Active
    ensures !clientOpenFails ==>
            ForwardRun(h, Some(remote), port, false, AckReceived, clientOpenFails)
            == h + [LocalSdpSet(port, Active)] + [SigEstablished] + [ResponseSent(OK)]
               + [SessionEstablished] + [MsrpClientOpened] + [EmptyChunkSent]
               + [ActivityManagerStarted]
    ensures clientOpenFails ==>
            ForwardRun(h, Some(remote), port, false, AckReceived, clientOpenFails)
            == h + [LocalSdpSet(port, Active)] + [SigEstablished] + [ResponseSent(OK)]
               + [SessionEstablished] + [HandleError(UnexpectedException)] + [MsrpClosed]
               + [SessionRemoved]
  {
  }

  /** Without an ACK the initiation fails: the error, the closing of the media and the
    * removal of the session end the run. */
  lemma NoAckFails(h: seq<Event>, remote: RemoteMedia, port: int, clientOpenFails: bool)
    ensures var t := ForwardRun(h, Some(remote), port, false, NoAck, clientOpenFails);
      && |t| >= |h| + 3
      && t[|t| - 3] == HandleError(SessionInitiationFailed)
      && t[|t| - 2] == MsrpClosed && t[|t| - 1] == SessionRemoved
  {
  }
}
