/** The terminating image-sharing session: the answer to an incoming INVITE offering an
  * image over MSRP, from the 180 Ringing to the established session, and what it does
  * when the transfer ends or fails. */
module TerminatingImageSessionModel {
  import opened Common
  import opened SessionEvents

  /** The MSRP manager of the session: its local port and whether it uses TLS. */
  datatype MsrpManager = MsrpManager(localPort: int, secured: bool)

  /** The local MSRP port: 9, the discard port, when this side connects actively,
    * since it listens on nothing; the generated listening port otherwise. */
  function ImageLocalPort(localSetup: Setup, generatedPort: int): int
  {
    if localSetup == Active then 9 else generatedPort
  }

  // Each trace function below takes the events recorded so far and returns them
  // extended by what one step of the session does.

  /** The wait for the ACK and what follows it. */
  function ImageAck(h: seq<Event>, localSetup: Setup, ack: AckOutcome, timerActivated: bool)
    : (t: seq<Event>)
    ensures Extends(t, h)
  {
    match ack
    case AckReceived =>
      var connected := if localSetup == Active then h + [MsrpClientOpened] else h;
      var started := connected + [SessionEstablished] + [Notified(Started)];
      if timerActivated then started + [SessionTimerStarted] else started
    case NoAck => h + [HandleError(SessionInitiationFailed)]
    case SendFailed => h + [HandleError(UnexpectedException)]
  }

  /** Opening the listening side if this side listens, then answering 200 OK, with
    * the signalling marked established just before it is sent. */
  function ImageOk(h: seq<Event>, localSetup: Setup, ack: AckOutcome, timerActivated: bool)
    : seq<Event>
  {
    var listening := if localSetup == Passive then h + [MsrpServerOpened] else h;
    ImageAck(listening + [SigEstablished] + [ResponseSent(OK)], localSetup, ack, timerActivated)
  }

  /** The steps after the invitation was accepted: SDP negotiation, media set-up, the
    * 200 OK and the wait for the ACK. `remote` is None when the offer cannot be
    * parsed, which raises an exception. */
  function ImageMedia(h: seq<Event>, remote: Option<RemoteMedia>, generatedPort: int,
                      interrupted: bool, ack: AckOutcome, timerActivated: bool): seq<Event>
  {
    if remote.None? then h + [HandleError(UnexpectedException)]
    else
      var localSetup := CreateSetupAnswer(RemoteSetupOf(remote.value.setup));
      var described := h + [LocalSdpSet(ImageLocalPort(localSetup, generatedPort), localSetup)];
      if interrupted then described else ImageOk(described, localSetup, ack, timerActivated)
  }

  /** The steps that follow the user's answer to the invitation. */
  function ImageAnswer(h: seq<Event>, answer: InvitationStatus, remote: Option<RemoteMedia>,
                       generatedPort: int, interrupted: bool, ack: AckOutcome,
                       timerActivated: bool): seq<Event>
  {
    match answer
    case InvitationRejected => h + [SessionRemoved] + [Notified(Rejected(TerminationByUser))]
    case InvitationTimeout =>
      h + [ResponseSent(BUSY_HERE)] + [SessionRemoved]
      + [Notified(Rejected(TerminationByTimeout))]
    case InvitationRejectedBySystem => h + [SessionRemoved]
    case InvitationCanceled => h + [SessionRemoved] + [Notified(Rejected(TerminationByRemote))]
    case InvitationAccepted =>
      ImageMedia(h + [SessionAccepted] + [Notified(Accepted)], remote, generatedPort, interrupted,
                 ack, timerActivated)
    case _ => h
  }

  /** Everything run() does, given the invitation's content, the user's answer, the
    * remote media, the generated port, whether the thread was interrupted before the
    * 200 OK, how the ACK wait ended and whether the session timer is activated. */
  function ImageRun(h: seq<Event>, contentPresent: bool, answer: InvitationStatus,
                    remote: Option<RemoteMedia>, generatedPort: int, interrupted: bool,
                    ack: AckOutcome, timerActivated: bool): seq<Event>
  {
    var ringing := h + [ResponseSent(RINGING)];
    if !contentPresent then
      ringing + [ResponseSent(UNSUPPORTED_MEDIA_TYPE)] + [HandleError(UnsupportedMediaType)]
    else
      ImageAnswer(ringing + [Notified(Invited)], answer, remote, generatedPort, interrupted, ack,
                  timerActivated)
  }

  /** closeMediaSession: the MSRP manager is closed if there is one, and the partly
    * received image is deleted unless the transfer completed. */
  function CloseMedia(h: seq<Event>, hasManager: bool, imageTransfered: bool): seq<Event>
  {
    var closed := if hasManager then h + [MsrpClosed] else h;
    if imageTransfered then closed else closed + [TempFileDeleted]
  }

  /** msrpTransferError: nothing once the session is interrupted or terminated;
    * otherwise terminate, close the media, refresh the capabilities, leave the
    * registry and, unless the image had arrived or the remote ended the session,
    * report a failed transfer. */
  function TransferError(h: seq<Event>, sessionInterrupted: bool, interrupted: bool,
                         sessionTerminated: bool, terminatedByRemote: bool,
                         hasManager: bool, imageTransfered: bool): seq<Event>
  {
    if sessionInterrupted || interrupted || sessionTerminated then h
    else
      var closed := CloseMedia(h + [Terminated(TerminationBySystem)], hasManager, imageTransfered);
      var removed := closed + [CapabilitiesRequested] + [SessionRemoved];
      if imageTransfered then removed
      else if !sessionInterrupted && !terminatedByRemote then
        removed + [Notified(SharingErrorNote(MediaTransferFailed))]
      else removed
  }

  class TerminatingImageTransferSession {
    /** The invitation carried an image description (getContent() != null). */
    const contentPresent: bool
    var msrpManager: Option<MsrpManager>
    var accepted: bool
    var imageTransfered: bool
    var sessionInterrupted: bool
    /** The session's thread was interrupted. */
    var interrupted: bool
    var sessionTerminated: bool
    var terminatedByRemote: bool
    var events: seq<Event>

    constructor (contentPresent: bool)
      ensures this.contentPresent == contentPresent
      ensures msrpManager.None? && !accepted && !imageTransfered
      ensures !sessionInterrupted && !interrupted && !sessionTerminated && !terminatedByRemote
      ensures events == []
    {
      this.contentPresent := contentPresent;
      msrpManager := None;
      accepted := false;
      imageTransfered := false;
      sessionInterrupted := false;
      interrupted := false;
      sessionTerminated := false;
      terminatedByRemote := false;
      events := [];
    }

    /** The session's thread body. */
    method Run(answer: InvitationStatus, remote: Option<RemoteMedia>, generatedPort: int,
               ack: AckOutcome, timerActivated: bool)
      modifies this`events, this`accepted, this`msrpManager
      ensures events == ImageRun(old(events), contentPresent, answer, remote, generatedPort,
                                 interrupted, ack, timerActivated)
      ensures accepted == (old(accepted) || (contentPresent && answer == InvitationAccepted))
      ensures msrpManager ==
        if contentPresent && answer == InvitationAccepted && remote.Some? then
          var localSetup := CreateSetupAnswer(RemoteSetupOf(remote.value.setup));
          Some(MsrpManager(ImageLocalPort(localSetup, generatedPort), remote.value.secured))
        else old(msrpManager)
    {
      events := events + [ResponseSent(RINGING)];
      if !contentPresent {
        events := events + [ResponseSent(UNSUPPORTED_MEDIA_TYPE)];
        events := events + [HandleError(UnsupportedMediaType)];
        return;
      }
      events := events + [Notified(Invited)];
      match answer {
        case InvitationRejected =>
          events := events + [SessionRemoved] + [Notified(Rejected(TerminationByUser))];
        case InvitationTimeout =>
          events := events + [ResponseSent(BUSY_HERE)];
          events := events + [SessionRemoved] + [Notified(Rejected(TerminationByTimeout))];
        case InvitationRejectedBySystem =>
          events := events + [SessionRemoved];
        case InvitationCanceled =>
          events := events + [SessionRemoved] + [Notified(Rejected(TerminationByRemote))];
        case InvitationAccepted =>
          accepted := true;
          events := events + [SessionAccepted] + [Notified(Accepted)];
          StartMedia(remote, generatedPort, ack, timerActivated);
        case InvitationNotAnswered =>
        case InvitationDeleted =>
      }
    }

    /** Negotiates the media of an accepted invitation and answers it. */
    method StartMedia(remote: Option<RemoteMedia>, generatedPort: int, ack: AckOutcome,
                      timerActivated: bool)
      modifies this`events, this`msrpManager
      ensures events == ImageMedia(old(events), remote, generatedPort, interrupted, ack,
                                   timerActivated)
      ensures msrpManager ==
        if remote.Some? then
          var localSetup := CreateSetupAnswer(RemoteSetupOf(remote.value.setup));
          Some(MsrpManager(ImageLocalPort(localSetup, generatedPort), remote.value.secured))
        else old(msrpManager)
    {
      if remote.None? {
        events := events + [HandleError(UnexpectedException)];
        return;
      }
      var remoteSetup := RemoteSetupOf(remote.value.setup);
      var localSetup := CreateSetupAnswer(remoteSetup);
      var localPort := if localSetup == Active then 9 else generatedPort;
      msrpManager := Some(MsrpManager(localPort, remote.value.secured));
      events := events + [LocalSdpSet(localPort, localSetup)];
      if interrupted {
        return;
      }
      if localSetup == Passive {
        events := events + [MsrpServerOpened];
      }
      events := events + [SigEstablished] + [ResponseSent(OK)];
      match ack {
        case AckReceived =>
          if localSetup == Active {
            events := events + [MsrpClientOpened];
          }
          events := events + [SessionEstablished] + [Notified(Started)];
          if timerActivated {
            events := events + [SessionTimerStarted];
          }
        case NoAck =>
          events := events + [HandleError(SessionInitiationFailed)];
        case SendFailed =>
          events := events + [HandleError(UnexpectedException)];
      }
    }

    /** The whole image arrived: it is saved, and the listeners learn of the transfer
      * unless saving it failed, in which case the file is deleted and the failure
      * reported. */
    method MsrpDataReceived(saveFails: bool)
      modifies this`events, this`imageTransfered
      ensures imageTransfered
      ensures events == old(events) + if saveFails then
                [TempFileDeleted, Notified(SharingErrorNote(MediaSavingFailed))]
              else [Notified(ContentTransfered(true))]
    {
      imageTransfered := true;
      if saveFails {
        events := events + [TempFileDeleted] + [Notified(SharingErrorNote(MediaSavingFailed))];
      } else {
        events := events + [Notified(ContentTransfered(true))];
      }
    }

    /** An aborted transfer deletes the partly received image. */
    method MsrpTransferAborted()
      modifies this`events
      ensures events == old(events) + if imageTransfered then [] else [TempFileDeleted]
    {
      if !imageTransfered {
        events := events + [TempFileDeleted];
      }
    }

    method CloseMediaSession()
      modifies this`events
      ensures events == CloseMedia(old(events), msrpManager.Some?, imageTransfered)
    {
      if msrpManager.Some? {
        events := events + [MsrpClosed];
      }
      if !imageTransfered {
        events := events + [TempFileDeleted];
      }
    }

    method MsrpTransferError()
      modifies this`events
      ensures events == TransferError(old(events), sessionInterrupted, interrupted,
                sessionTerminated, terminatedByRemote, msrpManager.Some?, imageTransfered)
    {
      if sessionInterrupted || interrupted || sessionTerminated {
        return;
      }
      events := events + [Terminated(TerminationBySystem)];
      CloseMediaSession();
      events := events + [CapabilitiesRequested] + [SessionRemoved];
      if imageTransfered {
        return;
      }
      if !sessionInterrupted && !terminatedByRemote {
        events := events + [Notified(SharingErrorNote(MediaTransferFailed))];
      }
    }
  }

  /** The error the ACK wait hands to handleError, if any. */
  function AckErrors(ack: AckOutcome): seq<SharingError>
  {
    match ack
    case AckReceived => []
    case NoAck => [SessionInitiationFailed]
    case SendFailed => [UnexpectedException]
  }

  /** The errors a run hands to handleError after the invitation, as the source's
    * control flow decides them. */
  function AnswerErrors(answer: InvitationStatus, remote: Option<RemoteMedia>,
                        interrupted: bool, ack: AckOutcome): seq<SharingError>
  {
    if answer != InvitationAccepted then []
    else if remote.None? then [UnexpectedException]
    else if interrupted then []
    else AckErrors(ack)
  }

  /** The errors a run hands to handleError: at most one per run. */
  function ImageErrors(contentPresent: bool, answer: InvitationStatus, remote: Option<RemoteMedia>,
                       interrupted: bool, ack: AckOutcome): (errors: seq<SharingError>)
    ensures |errors| <= 1
  {
    if !contentPresent then [UnsupportedMediaType]
    else AnswerErrors(answer, remote, interrupted, ack)
  }

  /** The notifications that follow the invitation: the answer's outcome, then the
    * start once the ACK arrived. */
  function AnswerNotes(answer: InvitationStatus, remote: Option<RemoteMedia>,
                       interrupted: bool, ack: AckOutcome): seq<Note>
  {
    match answer
    case InvitationRejected => [Rejected(TerminationByUser)]
    case InvitationTimeout => [Rejected(TerminationByTimeout)]
    case InvitationCanceled => [Rejected(TerminationByRemote)]
    case InvitationAccepted =>
      [Accepted] + (if remote.Some? && !interrupted && ack == AckReceived then [Started] else [])
    case _ => []
  }

  /** The notifications the listeners receive during a run: nothing without content;
    * otherwise the invitation first. */
  function ImageNotes(contentPresent: bool, answer: InvitationStatus, remote: Option<RemoteMedia>,
                      interrupted: bool, ack: AckOutcome): seq<Note>
  {
    if !contentPresent then [] else [Invited] + AnswerNotes(answer, remote, interrupted, ack)
  }

  lemma AckProjections(h: seq<Event>, localSetup: Setup, ack: AckOutcome, timer: bool)
    ensures ErrorsIn(ImageAck(h, localSetup, ack, timer)) == ErrorsIn(h) + AckErrors(ack)
    ensures NotesIn(ImageAck(h, localSetup, ack, timer))
            == NotesIn(h) + if ack == AckReceived then [Started] else []
  {
    match ack {
      case AckReceived =>
        var connected := if localSetup == Active then h + [MsrpClientOpened] else h;
        var started := connected + [SessionEstablished] + [Notified(Started)];
        Project1(h, MsrpClientOpened);
        Project1(connected, SessionEstablished);
        Project1(connected + [SessionEstablished], Notified(Started));
        Project1(started, SessionTimerStarted);
      case NoAck =>
        Project1(h, HandleError(SessionInitiationFailed));
      case SendFailed =>
        Project1(h, HandleError(UnexpectedException));
    }
  }

  lemma MediaProjections(h: seq<Event>, remote: Option<RemoteMedia>, port: int, interrupted: bool,
                         ack: AckOutcome, timer: bool)
    ensures ErrorsIn(ImageMedia(h, remote, port, interrupted, ack, timer))
            == ErrorsIn(h) + AnswerErrors(InvitationAccepted, remote, interrupted, ack)
    ensures NotesIn(ImageMedia(h, remote, port, interrupted, ack, timer))
            == NotesIn(h) + if remote.Some? && !interrupted && ack == AckReceived then [Started] else []
  {
    if remote.None? {
      Project1(h, HandleError(UnexpectedException));
    } else {
      var s := CreateSetupAnswer(RemoteSetupOf(remote.value.setup));
      var described := h + [LocalSdpSet(ImageLocalPort(s, port), s)];
      Project1(h, LocalSdpSet(ImageLocalPort(s, port), s));
      if !interrupted {
        OkProjections(described, s, ack, timer);
      }
    }
  }

  lemma OkProjections(h: seq<Event>, localSetup: Setup, ack: AckOutcome, timer: bool)
    ensures ErrorsIn(ImageOk(h, localSetup, ack, timer)) == ErrorsIn(h) + AckErrors(ack)
    ensures NotesIn(ImageOk(h, localSetup, ack, timer))
            == NotesIn(h) + if ack == AckReceived then [Started] else []
  {
    var listening := if localSetup == Passive then h + [MsrpServerOpened] else h;
    Project1(h, MsrpServerOpened);
    Project1(listening, SigEstablished);
    Project1(listening + [SigEstablished], ResponseSent(OK));
    AckProjections(listening + [SigEstablished] + [ResponseSent(OK)], localSetup, ack, timer);
  }

  lemma AnswerProjections(h: seq<Event>, answer: InvitationStatus, remote: Option<RemoteMedia>,
                          port: int, interrupted: bool, ack: AckOutcome, timer: bool)
    ensures var t := ImageAnswer(h, answer, remote, port, interrupted, ack, timer);
      && ErrorsIn(t) == ErrorsIn(h) + AnswerErrors(answer, remote, interrupted, ack)
      && NotesIn(t) == NotesIn(h) + AnswerNotes(answer, remote, interrupted, ack)
  {
    match answer {
      case InvitationAccepted =>
        Project1(h, SessionAccepted);
        Project1(h + [SessionAccepted], Notified(Accepted));
        MediaProjections(h + [SessionAccepted] + [Notified(Accepted)], remote, port,
                         interrupted, ack, timer);
      case InvitationTimeout =>
        Project1(h, ResponseSent(BUSY_HERE));
        Project1(h + [ResponseSent(BUSY_HERE)], SessionRemoved);
        Project1(h + [ResponseSent(BUSY_HERE)] + [SessionRemoved],
                 Notified(Rejected(TerminationByTimeout)));
      case InvitationRejected =>
        Project1(h, SessionRemoved);
        Project1(h + [SessionRemoved], Notified(Rejected(TerminationByUser)));
      case InvitationCanceled =>
        Project1(h, SessionRemoved);
        Project1(h + [SessionRemoved], Notified(Rejected(TerminationByRemote)));
      case InvitationRejectedBySystem =>
        Project1(h, SessionRemoved);
      case InvitationNotAnswered =>
      case InvitationDeleted =>
    }
  }

  /** What a run hands to handleError and to the listeners agrees with the reference
    * definitions; in particular a run reports at most one error. */
  lemma RunProjections(h: seq<Event>, content: bool, answer: InvitationStatus,
                       remote: Option<RemoteMedia>, port: int, interrupted: bool,
                       ack: AckOutcome, timer: bool)
    ensures var t := ImageRun(h, content, answer, remote, port, interrupted, ack, timer);
      && ErrorsIn(t) == ErrorsIn(h) + ImageErrors(content, answer, remote, interrupted, ack)
      && NotesIn(t) == NotesIn(h) + ImageNotes(content, answer, remote, interrupted, ack)
  {
    var ringing := h + [ResponseSent(RINGING)];
    Project1(h, ResponseSent(RINGING));
    if !content {
      Project1(ringing, ResponseSent(UNSUPPORTED_MEDIA_TYPE));
      Project1(ringing + [ResponseSent(UNSUPPORTED_MEDIA_TYPE)],
               HandleError(UnsupportedMediaType));
    } else {
      Project1(ringing, Notified(Invited));
      AnswerProjections(ringing + [Notified(Invited)], answer, remote, port, interrupted, ack, timer);
      var notes := AnswerNotes(answer, remote, interrupted, ack);
      assert NotesIn(ringing + [Notified(Invited)]) == NotesIn(h) + [Invited];
      Assoc(NotesIn(h), [Invited], notes);
    }
  }

  /** An invitation without content is refused with 415 and one UNSUPPORTED_MEDIA_TYPE
    * error, and no listener hears of it. */
  lemma MissingContentRefusedBeforeInvite(h: seq<Event>, answer: InvitationStatus,
                                          remote: Option<RemoteMedia>, port: int,
                                          interrupted: bool, ack: AckOutcome, timer: bool)
    ensures var t := ImageRun(h, false, answer, remote, port, interrupted, ack, timer);
      && t == h + [ResponseSent(RINGING)] + [ResponseSent(UNSUPPORTED_MEDIA_TYPE)]
              + [HandleError(UnsupportedMediaType)]
      && ErrorsIn(t) == ErrorsIn(h) + [UnsupportedMediaType]
      && NotesIn(t) == NotesIn(h)
  {
    RunProjections(h, false, answer, remote, port, interrupted, ack, timer);
  }

  /** The branch each answer other than acceptance takes: what follows the
    * invitation. None of them builds media or answers 200 OK. */
  lemma AnswerBranches(h: seq<Event>, remote: Option<RemoteMedia>, port: int, interrupted: bool,
                       ack: AckOutcome, timer: bool)
    ensures var invited := h + [ResponseSent(RINGING)] + [Notified(Invited)];
      && ImageRun(h, true, InvitationRejected, remote, port, interrupted, ack, timer)
         == invited + [SessionRemoved] + [Notified(Rejected(TerminationByUser))]
      && ImageRun(h, true, InvitationTimeout, remote, port, interrupted, ack, timer)
         == invited + [ResponseSent(BUSY_HERE)] + [SessionRemoved]
            + [Notified(Rejected(TerminationByTimeout))]
      && ImageRun(h, true, InvitationRejectedBySystem, remote, port, interrupted, ack, timer)
         == invited + [SessionRemoved]
      && ImageRun(h, true, InvitationCanceled, remote, port, interrupted, ack, timer)
         == invited + [SessionRemoved] + [Notified(Rejected(TerminationByRemote))]
      && ImageRun(h, true, InvitationNotAnswered, remote, port, interrupted, ack, timer) == invited
      && ImageRun(h, true, InvitationDeleted, remote, port, interrupted, ack, timer) == invited
  {
  }

  /** Only an accepted invitation whose offer could be read is answered with 200 OK,
    * and only when the thread was not interrupted. */
  lemma OkOnlyWhenAccepted(h: seq<Event>, content: bool, answer: InvitationStatus,
                           remote: Option<RemoteMedia>, port: int, interrupted: bool,
                           ack: AckOutcome, timer: bool)
    ensures !(content && answer == InvitationAccepted && remote.Some? && !interrupted) ==>
      AbsentFrom(ImageRun(h, content, answer, remote, port, interrupted, ack, timer), |h|,
                 ResponseSent(OK))
  {
    var t := ImageRun(h, content, answer, remote, port, interrupted, ack, timer);
    if !content {
      MissingContentRefusedBeforeInvite(h, answer, remote, port, interrupted, ack, timer);
    } else if answer != InvitationAccepted {
      AnswerBranches(h, remote, port, interrupted, ack, timer);
    } else if remote.None? {
      assert t == h + [ResponseSent(RINGING)] + [Notified(Invited)] + [SessionAccepted]
                  + [Notified(Accepted)] + [HandleError(UnexpectedException)];
    } else if interrupted {
      var s := CreateSetupAnswer(RemoteSetupOf(remote.value.setup));
      assert t == h + [ResponseSent(RINGING)] + [Notified(Invited)] + [SessionAccepted]
                  + [Notified(Accepted)] + [LocalSdpSet(ImageLocalPort(s, port), s)];
    }
  }

  /** The local port is the discard port 9 exactly when this side connects actively
    * (for any generated listening port other than 9); an offer without a setup
    * attribute makes this side connect from port 9. */
  lemma LocalPortRule(remote: RemoteMedia, generatedPort: int)
    requires generatedPort != 9
    ensures var localSetup := CreateSetupAnswer(RemoteSetupOf(remote.setup));
      ImageLocalPort(localSetup, generatedPort) == 9 <==> localSetup == Active
    ensures remote.setup.None? ==> ImageLocalPort(CreateSetupAnswer(RemoteSetupOf(remote.setup)),
                                                  generatedPort) == 9
  {
  }

  /** In the listening role the MSRP server is opened before the 200 OK is sent, the
    * signalling is established before it is sent too, and no client connects. */
  lemma PassiveServerOpensBeforeOk(h: seq<Event>, remote: RemoteMedia, port: int,
                                   ack: AckOutcome, timer: bool)
    requires CreateSetupAnswer(RemoteSetupOf(remote.setup)) == Passive
    ensures var t := ImageRun(h, true, InvitationAccepted, Some(remote), port, false, ack, timer);
      && PrecedesFrom(t, |h|, MsrpServerOpened, ResponseSent(OK))
      && PrecedesFrom(t, |h|, SigEstablished, ResponseSent(OK))
      && AbsentFrom(t, |h|, MsrpClientOpened)
  {
    var t := ImageRun(h, true, InvitationAccepted, Some(remote), port, false, ack, timer);
    var p := h + [ResponseSent(RINGING)] + [Notified(Invited)] + [SessionAccepted]
             + [Notified(Accepted)] + [LocalSdpSet(port, Passive)] + [MsrpServerOpened]
             + [SigEstablished] + [ResponseSent(OK)];
    assert t == ImageAck(p, Passive, ack, timer);
    assert p[|h| + 5] == MsrpServerOpened && p[|h| + 6] == SigEstablished;
    assert p[|h| + 7] == ResponseSent(OK);
    assert t[..|p|] == p;
    assert t[|h| + 5] == p[|h| + 5] && t[|h| + 6] == p[|h| + 6] && t[|h| + 7] == p[|h| + 7];
    PrecedesFromAt(t, |h|, |h| + 5, |h| + 7);
    PrecedesFromAt(t, |h|, |h| + 6, |h| + 7);
  }

  /** After the ACK, in the connecting role, the run ends: the client connects, then
    * the session is established, then the listeners learn it started, then the
    * session timer runs. No server is opened. */
  lemma ActiveAckOrder(h: seq<Event>, remote: RemoteMedia, port: int)
    requires CreateSetupAnswer(RemoteSetupOf(remote.setup)) == Active
    ensures ImageRun(h, true, InvitationAccepted, Some(remote), port, false, AckReceived, true)
            == h + [ResponseSent(RINGING)] + [Notified(Invited)] + [SessionAccepted]
               + [Notified(Accepted)] + [LocalSdpSet(9, Active)] + [SigEstablished]
               + [ResponseSent(OK)] + [MsrpClientOpened] + [SessionEstablished]
               + [Notified(Started)] + [SessionTimerStarted]
  {
  }

  /** A 200 OK that is not acknowledged fails the initiation, with that one error, as
    * the run's last step, and the session is not established. */
  lemma NoAckFailsInitiation(h: seq<Event>, remote: RemoteMedia, port: int, timer: bool)
    ensures var t := ImageRun(h, true, InvitationAccepted, Some(remote), port, false, NoAck, timer);
      && ErrorsIn(t) == ErrorsIn(h) + [SessionInitiationFailed]
      && t[|t| - 1] == HandleError(SessionInitiationFailed)
      && AbsentFrom(t, |h|, SessionEstablished)
  {
    var t := ImageRun(h, true, InvitationAccepted, Some(remote), port, false, NoAck, timer);
    var s := CreateSetupAnswer(RemoteSetupOf(remote.setup));
    RunProjections(h, true, InvitationAccepted, Some(remote), port, false, NoAck, timer);
    var d := h + [ResponseSent(RINGING)] + [Notified(Invited)] + [SessionAccepted]
             + [Notified(Accepted)] + [LocalSdpSet(ImageLocalPort(s, port), s)];
    var l := if s == Passive then d + [MsrpServerOpened] else d;
    assert t == l + [SigEstablished] + [ResponseSent(OK)] + [HandleError(SessionInitiationFailed)];
  }

  /** A failure to parse the offer or to send the 200 OK ends the run with exactly one
    * UNEXPECTED_EXCEPTION error, as its last step, and the session is not
    * established. */
  lemma ExceptionGivesOneUnexpectedError(h: seq<Event>, remote: Option<RemoteMedia>, port: int,
                                         ack: AckOutcome, timer: bool)
    requires remote.None? || ack == SendFailed
    ensures var t := ImageRun(h, true, InvitationAccepted, remote, port, false, ack, timer);
      && ErrorsIn(t) == ErrorsIn(h) + [UnexpectedException]
      && t[|t| - 1] == HandleError(UnexpectedException)
      && AbsentFrom(t, |h|, SessionEstablished)
  {
    RunProjections(h, true, InvitationAccepted, remote, port, false, ack, timer);
    ExceptionTrace(h, remote, port, ack, timer);
  }

  /** The trace of a run that ends in an exception, written out. */
  lemma ExceptionTrace(h: seq<Event>, remote: Option<RemoteMedia>, port: int, ack: AckOutcome,
                       timer: bool)
    requires remote.None? || ack == SendFailed
    ensures var t := ImageRun(h, true, InvitationAccepted, remote, port, false, ack, timer);
      && |t| > |h|
      && t[|t| - 1] == HandleError(UnexpectedException)
      && AbsentFrom(t, |h|, SessionEstablished)
  {
    var t := ImageRun(h, true, InvitationAccepted, remote, port, false, ack, timer);
    var a := h + [ResponseSent(RINGING), Notified(Invited), SessionAccepted, Notified(Accepted)];
    if remote.Some? {
      var s := CreateSetupAnswer(RemoteSetupOf(remote.value.setup));
      var d := a + [LocalSdpSet(ImageLocalPort(s, port), s)];
      var l := if s == Passive then d + [MsrpServerOpened] else d;
      assert t == l + [SigEstablished, ResponseSent(OK), HandleError(UnexpectedException)];
    } else {
      assert t == a + [HandleError(UnexpectedException)];
    }
  }

  /** A transfer error on an interrupted or terminated session changes nothing. */
  lemma TransferErrorIgnoredWhenStopped(h: seq<Event>, si: bool, i: bool, st: bool,
                                        byRemote: bool, mgr: bool, transferred: bool)
    requires si || i || st
    ensures TransferError(h, si, i, st, byRemote, mgr, transferred) == h
  {
  }

  /** On a running session a transfer error terminates the session before it leaves
    * the registry. */
  lemma TransferErrorOrder(h: seq<Event>, byRemote: bool, mgr: bool, transferred: bool)
    ensures var t := TransferError(h, false, false, false, byRemote, mgr, transferred);
      PrecedesFrom(t, |h|, Terminated(TerminationBySystem), SessionRemoved)
  {
    var t := TransferError(h, false, false, false, byRemote, mgr, transferred);
    var closed := CloseMedia(h + [Terminated(TerminationBySystem)], mgr, transferred);
    var removed := closed + [CapabilitiesRequested] + [SessionRemoved];
    assert t[..|removed|] == removed;
    assert closed[|h|] == Terminated(TerminationBySystem);
    assert t[|h|] == Terminated(TerminationBySystem) && t[|removed| - 1] == SessionRemoved;
    PrecedesFromAt(t, |h|, |h|, |removed| - 1);
  }

  /** On a running session a transfer error deletes the partial file iff the image
    * had not arrived. */
  lemma TransferErrorDeletesPartialFile(h: seq<Event>, byRemote: bool, mgr: bool,
                                        transferred: bool)
    ensures var t := TransferError(h, false, false, false, byRemote, mgr, transferred);
      !AbsentFrom(t, |h|, TempFileDeleted) <==> !transferred
  {
    var t := TransferError(h, false, false, false, byRemote, mgr, transferred);
    var term := h + [Terminated(TerminationBySystem)];
    var closing := if mgr then term + [MsrpClosed] else term;
    if transferred {
      assert t == closing + [CapabilitiesRequested] + [SessionRemoved];
      forall i | |h| <= i < |t|
        ensures t[i] != TempFileDeleted
      {
      }
    } else {
      assert t[..|closing| + 1] == closing + [TempFileDeleted];
      assert t[|closing|] == TempFileDeleted;
    }
  }

  /** On a running session the failure is reported once iff the image had not
    * arrived and the remote had not ended the session. */
  lemma TransferErrorNotes(h: seq<Event>, byRemote: bool, mgr: bool, transferred: bool)
    ensures NotesIn(TransferError(h, false, false, false, byRemote, mgr, transferred))
            == NotesIn(h) + (if transferred || byRemote then []
                             else [SharingErrorNote(MediaTransferFailed)])
  {
    var term := h + [Terminated(TerminationBySystem)];
    var closing := if mgr then term + [MsrpClosed] else term;
    var closed := if transferred then closing else closing + [TempFileDeleted];
    var removed := closed + [CapabilitiesRequested] + [SessionRemoved];
    Project1(h, Terminated(TerminationBySystem));
    Project1(term, MsrpClosed);
    Project1(closing, TempFileDeleted);
    Project1(closed, CapabilitiesRequested);
    Project1(closed + [CapabilitiesRequested], SessionRemoved);
    Project1(removed, Notified(SharingErrorNote(MediaTransferFailed)));
  }
}
