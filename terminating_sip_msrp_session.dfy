/** The terminating MSRP session of the generic multimedia-session service: the answer
  * to an incoming INVITE for an application-defined MSRP session, from the 180 Ringing
  * to the established session. */
module TerminatingSipMsrpSessionModel {
  import opened Common
  import opened SessionEvents

  // Each trace function below takes the events recorded so far and returns them
  // extended by what one step of the session does.

  /** The wait for the ACK and what follows it: on ACK the session is established,
    * the session timer started if activated, and only then are the listeners told. */
  function SipAck(h: seq<Event>, ack: AckOutcome, timerActivated: bool): (t: seq<Event>)
    ensures Extends(t, h)
  {
    match ack
    case AckReceived =>
      var established := h + [SessionEstablished];
      var timed := if timerActivated then established + [SessionTimerStarted] else established;
      timed + [Notified(Started)]
    case NoAck => h + [HandleError(SessionInitiationFailed)]
    case SendFailed => h + [HandleError(UnexpectedException)]
  }

  /** The steps after the invitation was accepted. The MSRP connection is started in
    * either role (listening or connecting) before the 200 OK is built; the thread's
    * interruption is tested before and after that. `remote` is None when the offer
    * cannot be parsed, which raises an exception. */
  function SipMedia(h: seq<Event>, remote: Option<RemoteMedia>, localPort: int,
                    interrupted: bool, interruptedDuringMedia: bool, ack: AckOutcome,
                    timerActivated: bool): (t: seq<Event>)
    ensures Extends(t, h)
  {
    if remote.None? then h + [HandleError(UnexpectedException)]
    else
      var localSetup := CreateSetupAnswer(RemoteSetupOf(remote.value.setup));
      var described := h + [LocalSdpSet(localPort, localSetup)];
      if interrupted then described
      else
        var connection := if localSetup == Passive then MsrpServerOpened else MsrpClientOpened;
        var started := described + [connection];
        if interruptedDuringMedia then started
        else SipAck(started + [SigEstablished] + [ResponseSent(OK)], ack, timerActivated)
  }

  /** What follows the invitation, as the user's answer decides it. */
  function SipAnswer(h: seq<Event>, answer: InvitationStatus, remote: Option<RemoteMedia>,
                     localPort: int, interrupted: bool, interruptedDuringMedia: bool,
                     ack: AckOutcome, timerActivated: bool): (t: seq<Event>)
    ensures Extends(t, h)
  {
    match answer
    case InvitationRejected => h + [SessionRemoved] + [Notified(Rejected(TerminationByUser))]
    case InvitationTimeout =>
      h + [ResponseSent(BUSY_HERE)] + [SessionRemoved] + [Notified(Rejected(TerminationByTimeout))]
    case InvitationRejectedBySystem => h + [SessionRemoved]
    case InvitationCanceled => h + [SessionRemoved] + [Notified(Rejected(TerminationByRemote))]
    case InvitationAccepted =>
      SipMedia(h + [SessionAccepted] + [Notified(Accepted)], remote, localPort, interrupted,
               interruptedDuringMedia, ack, timerActivated)
    case InvitationDeleted => h + [SessionRemoved]
    case InvitationNotAnswered => h
  }

  /** Everything run() does, given the user's answer, the remote media, the port the
    * answer advertises, whether the thread was interrupted before or during the media
    * set-up, how the ACK wait ended and whether the session timer is activated. */
  function SipRun(h: seq<Event>, answer: InvitationStatus, remote: Option<RemoteMedia>,
                  localPort: int, interrupted: bool, interruptedDuringMedia: bool,
                  ack: AckOutcome, timerActivated: bool): (t: seq<Event>)
    ensures Extends(t, h + [ResponseSent(RINGING)] + [Notified(Invited)])
  {
    SipAnswer(h + [ResponseSent(RINGING)] + [Notified(Invited)], answer, remote, localPort,
              interrupted, interruptedDuringMedia, ack, timerActivated)
  }

  class TerminatingSipMsrpSession {
    /** The MSRP port that the SDP answer advertises. */
    const localPort: int
    var accepted: bool
    /** The session's thread was interrupted. */
    var interrupted: bool
    var events: seq<Event>

    constructor (localPort: int)
      ensures this.localPort == localPort && !accepted && !interrupted && events == []
    {
      this.localPort := localPort;
      accepted := false;
      interrupted := false;
      events := [];
    }

    /** The session's thread body; `interruptedDuringMedia` says whether the thread is
      * interrupted while the MSRP connection is being started. */
    method Run(answer: InvitationStatus, remote: Option<RemoteMedia>,
               interruptedDuringMedia: bool, ack: AckOutcome, timerActivated: bool)
      modifies this`events, this`accepted, this`interrupted
      ensures events == SipRun(old(events), answer, remote, localPort, old(interrupted),
                               interruptedDuringMedia, ack, timerActivated)
      ensures accepted == (old(accepted) || answer == InvitationAccepted)
      ensures interrupted ==
                (old(interrupted) || (answer == InvitationAccepted && remote.Some? && interruptedDuringMedia))
    {
      events := events + [ResponseSent(RINGING)];
      events := events + [Notified(Invited)];
      match answer {
        case InvitationRejected =>
          events := events + [SessionRemoved];
          events := events + [Notified(Rejected(TerminationByUser))];
        case InvitationTimeout =>
          events := events + [ResponseSent(BUSY_HERE)];
          events := events + [SessionRemoved];
          events := events + [Notified(Rejected(TerminationByTimeout))];
        case InvitationRejectedBySystem =>
          events := events + [SessionRemoved];
        case InvitationCanceled =>
          events := events + [SessionRemoved];
          events := events + [Notified(Rejected(TerminationByRemote))];
        case InvitationAccepted =>
          accepted := true;
          events := events + [SessionAccepted];
          events := events + [Notified(Accepted)];
          StartMedia(remote, interruptedDuringMedia, ack, timerActivated);
        case InvitationDeleted =>
          events := events + [SessionRemoved];
        case InvitationNotAnswered =>
      }
    }

    /** Negotiates the media of an accepted invitation and answers it. */
    method StartMedia(remote: Option<RemoteMedia>, interruptedDuringMedia: bool, ack: AckOutcome,
                      timerActivated: bool)
      modifies this`events, this`interrupted
      ensures events == SipMedia(old(events), remote, localPort, old(interrupted),
                                 interruptedDuringMedia, ack, timerActivated)
      ensures interrupted == (old(interrupted) || (remote.Some? && interruptedDuringMedia))
    {
      if remote.None? {
        events := events + [HandleError(UnexpectedException)];
        return;
      }
      var localSetup := CreateSetupAnswer(RemoteSetupOf(remote.value.setup));
      events := events + [LocalSdpSet(localPort, localSetup)];
      if interrupted {
        return;
      }
      if localSetup == Passive {
        events := events + [MsrpServerOpened];
      } else {
        events := events + [MsrpClientOpened];
      }
      interrupted := interruptedDuringMedia;
      if interrupted {
        return;
      }
      events := events + [SigEstablished];
      events := events + [ResponseSent(OK)];
      match ack {
        case AckReceived =>
          events := events + [SessionEstablished];
          if timerActivated {
            events := events + [SessionTimerStarted];
          }
          events := events + [Notified(Started)];
        case NoAck =>
          events := events + [HandleError(SessionInitiationFailed)];
        case SendFailed =>
          events := events + [HandleError(UnexpectedException)];
      }
    }
  }

  /** The notifications that follow the answer: the three rejections name who ended
    * it, a rejection by the system and a deleted invitation tell no one, and an
    * accepted one is followed by the start once the ACK arrived. */
  function AnswerNotes(answer: InvitationStatus, remote: Option<RemoteMedia>, interrupted: bool,
                       interruptedDuringMedia: bool, ack: AckOutcome): seq<Note>
  {
    match answer
    case InvitationRejected => [Rejected(TerminationByUser)]
    case InvitationTimeout => [Rejected(TerminationByTimeout)]
    case InvitationCanceled => [Rejected(TerminationByRemote)]
    case InvitationAccepted =>
      [Accepted] + (if remote.Some? && !interrupted && !interruptedDuringMedia
                       && ack == AckReceived then [Started] else [])
    case _ => []
  }

  /** The notifications of a run: the invitation, then what the answer brings. */
  function SipNotes(answer: InvitationStatus, remote: Option<RemoteMedia>, interrupted: bool,
                    interruptedDuringMedia: bool, ack: AckOutcome): seq<Note>
  {
    [Invited] + AnswerNotes(answer, remote, interrupted, interruptedDuringMedia, ack)
  }

  /** The errors a run hands to handleError: at most one. */
  function SipErrors(answer: InvitationStatus, remote: Option<RemoteMedia>, interrupted: bool,
                     interruptedDuringMedia: bool, ack: AckOutcome): (errors: seq<SharingError>)
    ensures |errors| <= 1
  {
    if answer != InvitationAccepted then []
    else if remote.None? then [UnexpectedException]
    else if interrupted || interruptedDuringMedia then []
    else match ack
      case AckReceived => []
      case NoAck => [SessionInitiationFailed]
      case SendFailed => [UnexpectedException]
  }

  lemma SipAckProjections(h: seq<Event>, ack: AckOutcome, timer: bool)
    ensures ErrorsIn(SipAck(h, ack, timer))
            == ErrorsIn(h) + SipErrors(InvitationAccepted, Some(RemoteMedia(None, false)),
                                       false, false, ack)
    ensures NotesIn(SipAck(h, ack, timer))
            == NotesIn(h) + if ack == AckReceived then [Started] else []
  {
    match ack {
      case AckReceived =>
        var established := h + [SessionEstablished];
        var timed := if timer then established + [SessionTimerStarted] else established;
        Project1(h, SessionEstablished);
        Project1(established, SessionTimerStarted);
        Project1(timed, Notified(Started));
      case NoAck =>
        Project1(h, HandleError(SessionInitiationFailed));
      case SendFailed =>
        Project1(h, HandleError(UnexpectedException));
    }
  }

  lemma SipMediaProjections(h: seq<Event>, remote: Option<RemoteMedia>, port: int, i1: bool,
                            i2: bool, ack: AckOutcome, timer: bool)
    ensures ErrorsIn(SipMedia(h, remote, port, i1, i2, ack, timer))
            == ErrorsIn(h) + SipErrors(InvitationAccepted, remote, i1, i2, ack)
    ensures NotesIn(SipMedia(h, remote, port, i1, i2, ack, timer))
            == NotesIn(h) + if remote.Some? && !i1 && !i2 && ack == AckReceived then [Started]
                            else []
  {
    if remote.None? {
      Project1(h, HandleError(UnexpectedException));
    } else {
      var s := CreateSetupAnswer(RemoteSetupOf(remote.value.setup));
      var described := h + [LocalSdpSet(port, s)];
      var connection := if s == Passive then MsrpServerOpened else MsrpClientOpened;
      var started := described + [connection];
      Project1(h, LocalSdpSet(port, s));
      Project1(described, connection);
      Project1(started, SigEstablished);
      Project1(started + [SigEstablished], ResponseSent(OK));
      SipAckProjections(started + [SigEstablished] + [ResponseSent(OK)], ack, timer);
    }
  }

  lemma SipAnswerProjections(h: seq<Event>, answer: InvitationStatus,
                             remote: Option<RemoteMedia>, port: int, i1: bool, i2: bool,
                             ack: AckOutcome, timer: bool)
    ensures var t := SipAnswer(h, answer, remote, port, i1, i2, ack, timer);
      && ErrorsIn(t) == ErrorsIn(h) + SipErrors(answer, remote, i1, i2, ack)
      && NotesIn(t) == NotesIn(h) + AnswerNotes(answer, remote, i1, i2, ack)
  {
    match answer {
      case InvitationAccepted =>
        Project1(h, SessionAccepted);
        Project1(h + [SessionAccepted], Notified(Accepted));
        SipMediaProjections(h + [SessionAccepted] + [Notified(Accepted)], remote, port,
                            i1, i2, ack, timer);
      case InvitationTimeout =>
        Project1(h, ResponseSent(BUSY_HERE));
        Project1(h + [ResponseSent(BUSY_HERE)], SessionRemoved);
        Project1(h + [ResponseSent(BUSY_HERE)] + [SessionRemoved],
                 Notified(Rejected(TerminationByTimeout)));
      case InvitationRejected =>
        Project1(h, SessionRemoved);
        Project1(h + [SessionRemoved], Notified(Rejected(TerminationByUser)));
      case InvitationCanceled =>
        Project1(h, SessionRemoved);
        Project1(h + [SessionRemoved], Notified(Rejected(TerminationByRemote)));
      case InvitationRejectedBySystem =>
        Project1(h, SessionRemoved);
      case InvitationDeleted =>
        Project1(h, SessionRemoved);
      case InvitationNotAnswered =>
    }
  }

  /** What a run hands to handleError and to the listeners agrees with the reference
    * definitions. */
  lemma SipRunProjections(h: seq<Event>, answer: InvitationStatus, remote: Option<RemoteMedia>,
                          port: int, i1: bool, i2: bool, ack: AckOutcome, timer: bool)
    ensures var t := SipRun(h, answer, remote, port, i1, i2, ack, timer);
      && ErrorsIn(t) == ErrorsIn(h) + SipErrors(answer, remote, i1, i2, ack)
      && NotesIn(t) == NotesIn(h) + SipNotes(answer, remote, i1, i2, ack)
  {
    var ringing := h + [ResponseSent(RINGING)];
    Project1(h, ResponseSent(RINGING));
    Project1(ringing, Notified(Invited));
    SipAnswerProjections(ringing + [Notified(Invited)], answer, remote, port, i1, i2, ack, timer);
    assert NotesIn(ringing + [Notified(Invited)]) == NotesIn(h) + [Invited];
    Assoc(NotesIn(h), [Invited], AnswerNotes(answer, remote, i1, i2, ack));
  }

  /** 180 Ringing is sent and every listener hears of the invitation before the answer
    * is awaited: these are the first two steps of every run. */
  lemma InvitedBeforeAnswer(h: seq<Event>, answer: InvitationStatus, remote: Option<RemoteMedia>,
                            port: int, i1: bool, i2: bool, ack: AckOutcome, timer: bool)
    ensures var t := SipRun(h, answer, remote, port, i1, i2, ack, timer);
      && |t| >= |h| + 2 && t[|h|] == ResponseSent(RINGING) && t[|h| + 1] == Notified(Invited)
  {
    var t := SipRun(h, answer, remote, port, i1, i2, ack, timer);
    var invited := h + [ResponseSent(RINGING)] + [Notified(Invited)];
    assert t[..|invited|] == invited;
    assert t[|h|] == invited[|h|] && t[|h| + 1] == invited[|h| + 1];
  }

  /** The answers that end the run before any media: each removes the session, a
    * timeout answers 486 Busy Here first, and the listeners hear the reason for
    * the three rejections, and nothing for a rejection by the system or a deleted
    * invitation. */
  lemma UnansweredBranches(h: seq<Event>, remote: Option<RemoteMedia>, port: int, i1: bool,
                           i2: bool, ack: AckOutcome, timer: bool)
    ensures var invited := h + [ResponseSent(RINGING)] + [Notified(Invited)];
      && SipRun(h, InvitationRejected, remote, port, i1, i2, ack, timer)
         == invited + [SessionRemoved] + [Notified(Rejected(TerminationByUser))]
      && SipRun(h, InvitationTimeout, remote, port, i1, i2, ack, timer)
         == invited + [ResponseSent(BUSY_HERE)] + [SessionRemoved]
            + [Notified(Rejected(TerminationByTimeout))]
      && SipRun(h, InvitationCanceled, remote, port, i1, i2, ack, timer)
         == invited + [SessionRemoved] + [Notified(Rejected(TerminationByRemote))]
      && SipRun(h, InvitationRejectedBySystem, remote, port, i1, i2, ack, timer)
         == invited + [SessionRemoved]
      && SipRun(h, InvitationDeleted, remote, port, i1, i2, ack, timer)
         == invited + [SessionRemoved]
  {
  }

  /** On timeout, 486 is sent before the session is removed. */
  lemma TimeoutBusyBeforeRemoval(h: seq<Event>, remote: Option<RemoteMedia>, port: int, i1: bool,
                                 i2: bool, ack: AckOutcome, timer: bool)
    ensures PrecedesFrom(SipRun(h, InvitationTimeout, remote, port, i1, i2, ack, timer), |h|,
                         ResponseSent(BUSY_HERE), SessionRemoved)
  {
    var t := SipRun(h, InvitationTimeout, remote, port, i1, i2, ack, timer);
    assert t[|h| + 2] == ResponseSent(BUSY_HERE) && t[|h| + 3] == SessionRemoved;
    PrecedesFromAt(t, |h|, |h| + 2, |h| + 3);
  }

  /** The events of an accepted, uninterrupted run whose offer could be read, up to
    * the 200 OK. */
  function AcceptedUpToOk(h: seq<Event>, localSetup: Setup, port: int): seq<Event>
  {
    h + [ResponseSent(RINGING)] + [Notified(Invited)] + [SessionAccepted] + [Notified(Accepted)]
    + [LocalSdpSet(port, localSetup)]
    + [if localSetup == Passive then MsrpServerOpened else MsrpClientOpened]
    + [SigEstablished] + [ResponseSent(OK)]
  }

  /** In both roles the MSRP connection is started before the 200 OK: the listening
    * side opens a server, the connecting side a client. */
  lemma MsrpStartsBeforeOk(h: seq<Event>, remote: RemoteMedia, port: int, ack: AckOutcome,
                           timer: bool)
    ensures var s := CreateSetupAnswer(RemoteSetupOf(remote.setup));
      var t := SipRun(h, InvitationAccepted, Some(remote), port, false, false, ack, timer);
      && PrecedesFrom(t, |h|, if s == Passive then MsrpServerOpened else MsrpClientOpened,
                      ResponseSent(OK))
      && PrecedesFrom(t, |h|, SigEstablished, ResponseSent(OK))
  {
    var s := CreateSetupAnswer(RemoteSetupOf(remote.setup));
    var t := SipRun(h, InvitationAccepted, Some(remote), port, false, false, ack, timer);
    var p := AcceptedUpToOk(h, s, port);
    assert t == SipAck(p, ack, timer);
    assert t[..|p|] == p;
    assert t[|h| + 5] == p[|h| + 5] && t[|h| + 6] == p[|h| + 6] && t[|h| + 7] == p[|h| + 7];
    PrecedesFromAt(t, |h|, |h| + 5, |h| + 7);
    PrecedesFromAt(t, |h|, |h| + 6, |h| + 7);
  }

  /** An interruption detected before or after the media set-up ends the run without
    * a 200 OK (and, by SipRunProjections, without an error). */
  lemma InterruptionEndsWithoutOk(h: seq<Event>, remote: RemoteMedia, port: int, i1: bool,
                                  i2: bool, ack: AckOutcome, timer: bool)
    ensures i1 || i2 ==>
      AbsentFrom(SipRun(h, InvitationAccepted, Some(remote), port, i1, i2, ack, timer), |h|,
                 ResponseSent(OK))
  {
    if i1 || i2 {
      var s := CreateSetupAnswer(RemoteSetupOf(remote.setup));
      var described := h + [ResponseSent(RINGING)] + [Notified(Invited)] + [SessionAccepted]
                       + [Notified(Accepted)] + [LocalSdpSet(port, s)];
      var t := SipRun(h, InvitationAccepted, Some(remote), port, i1, i2, ack, timer);
      if i1 {
        assert t == described;
      } else {
        assert t == described + [if s == Passive then MsrpServerOpened else MsrpClientOpened];
      }
    }
  }

  /** After the ACK the session is established, then the session timer is started,
    * then the listeners learn it started, which ends the run; in the image session
    * the listeners hear before the timer starts. */
  lemma AckOrder(h: seq<Event>, remote: RemoteMedia, port: int)
    ensures var s := CreateSetupAnswer(RemoteSetupOf(remote.setup));
      SipRun(h, InvitationAccepted, Some(remote), port, false, false, AckReceived, true)
      == AcceptedUpToOk(h, s, port) + [SessionEstablished] + [SessionTimerStarted]
         + [Notified(Started)]
  {
  }

  /** A 200 OK that is not acknowledged fails the initiation, and an exception (an
    * unreadable offer or a failed send) gives UNEXPECTED_EXCEPTION; either error is
    * the run's last step and its only error. */
  lemma FailuresEndTheRun(h: seq<Event>, remote: Option<RemoteMedia>, port: int, ack: AckOutcome,
                          timer: bool)
    requires ack != AckReceived || remote.None?
    ensures var t := SipRun(h, InvitationAccepted, remote, port, false, false, ack, timer);
      var e := if remote.Some? && ack == NoAck then SessionInitiationFailed
               else UnexpectedException;
      && t[|t| - 1] == HandleError(e)
      && ErrorsIn(t) == ErrorsIn(h) + [e]
  {
    SipRunProjections(h, InvitationAccepted, remote, port, false, false, ack, timer);
  }
}
