/** What the IMS session state machines do to their collaborators (the SIP stack, the
  * MSRP manager, the service registries and the session listeners), recorded as a trace
  * of events, and the connection-setup negotiation of their MSRP media (section 4 of
  * RFC 4145, RFC 4975). */
module SessionEvents {
  import opened Common

  /** The error codes of a content-sharing session (ContentSharingError). */
  datatype SharingError =
    | SessionInitiationFailed
    | SessionInitiationCancelled
    | SessionInitiationDeclined
    | MediaSavingFailed
    | MediaTransferFailed
    | MediaStreamingFailed
    | UnsupportedMediaType
    | NotEnoughStorageSpace
    | MediaSizeTooBig
    | UnexpectedException
    | MediaRendererNotInitialized

  /** A notification delivered to every listener of a session, in listener order. */
  datatype Note =
    | Invited
    | Ringing                             // the remote side answered 180 Ringing
    | Rejected(reason: TerminationReason)
    | Accepted
    | Started
    | SharingErrorNote(error: SharingError)
    | ContentTransfered(initiatedByRemote: bool)

  datatype Event =
    | ResponseSent(status: int)          // a SIP response to the INVITE was sent
    | Notified(note: Note)                // every listener was notified once
    | HandleError(error: SharingError)    // the session's handleError
    | SessionAccepted                     // setSessionAccepted
    | SessionAdded                        // registered with its service
    | SessionThreadStarted                // the session's thread was started
    | SessionRemoved                      // removed from its service's registry
    | LocalSdpSet(port: int, setup: Setup) // local SDP stored in the dialog path
    | MsrpServerOpened                    // listening MSRP session created and opened
    | MsrpClientOpened                    // connecting MSRP session created and opened
    | EmptyChunkSent                      // an empty MSRP chunk opened the client's path
    | MsrpClosed                          // the MSRP manager was closed
    | SigEstablished                      // the dialog path's signalling is established
    | SessionEstablished                  // the dialog path's session is established
    | SessionTimerStarted
    | ActivityManagerStarted
    | ActivityUpdated
    | Terminated(reason: TerminationReason) // terminateSession
    | TempFileDeleted
    | CapabilitiesRequested
    | InviteStored                        // the INVITE stored in the dialog path
    | AuthorizationSet                    // authorization header added to the INVITE
    | InviteSent
    | SessionRejected                     // rejectSession on this session
    | OtherSessionAborted(reason: TerminationReason) // abortSession on the session replaced
    | OtherSessionRejected                // rejectSession on the session replaced
    | DeliveryStatusReceived(contact: ContactId, xml: string) // an IMDN report handed on

  /** What the remote offer says about the media: its `a=setup` attribute, if any, and
    * whether its MSRP protocol is TCP/TLS/MSRP. */
  datatype RemoteMedia = RemoteMedia(setup: Option<string>, secured: bool)

  /** How sending the 200 OK and waiting for the ACK ended. */
  datatype AckOutcome = AckReceived | NoAck | SendFailed

  /** A connection-setup role (section 4 of RFC 4145): connect, listen, either one,
    * or an attribute value this side does not know. */
  datatype Setup = Active | Passive | ActPass | OtherSetup(value: string)

  /** The remote setup role: the offered attribute, "passive" when it is absent. */
  function RemoteSetupOf(attr: Option<string>): Setup
  {
    if attr.None? then Passive
    else if attr.value == "active" then Active
    else if attr.value == "passive" then Passive
    else if attr.value == "actpass" then ActPass
    else OtherSetup(attr.value)
  }

  /** The attribute value written for a role. */
  function SetupName(setup: Setup): string
  {
    match setup
    case Active => "active"
    case Passive => "passive"
    case ActPass => "actpass"
    case OtherSetup(value) => value
  }

  /** Reading back the written attribute of a known role gives the role. */
  lemma SetupNameRoundTrip(setup: Setup)
    requires !setup.OtherSetup?
    ensures RemoteSetupOf(Some(SetupName(setup))) == setup
  {
  }

  /** The answerer's role for an offered role (section 4.1 of RFC 4145): the answerer
    * connects when the offerer listens or lets it choose, and listens otherwise. */
  function CreateSetupAnswer(offer: Setup): (answer: Setup)
    ensures answer == Active || answer == Passive
  {
    match offer
    case ActPass => Active
    case Active => Passive
    case Passive => Active
    case OtherSetup(_) => Passive
  }

  /** Exactly one side of the connection opens it: an offer that takes a role is
    * answered with the other role, and an offer that leaves the choice is answered
    * by connecting. */
  lemma SetupAnswerComplements(offer: Setup)
    ensures offer == Active || offer == Passive ==> CreateSetupAnswer(offer) != offer
    ensures offer == ActPass ==> CreateSetupAnswer(offer) == Active
    ensures offer.OtherSetup? ==> CreateSetupAnswer(offer) == Passive
  {
  }

  /** An offer without a setup attribute is answered by connecting actively. */
  lemma MissingSetupAnsweredActive()
    ensures CreateSetupAnswer(RemoteSetupOf(None)) == Active
  {
  }

  /** The error an event hands to handleError, if any. */
  function ErrorOf(e: Event): seq<SharingError>
  {
    if e.HandleError? then [e.error] else []
  }

  /** The notification an event delivers, if any. */
  function NoteOf(e: Event): seq<Note>
  {
    if e.Notified? then [e.note] else []
  }

  /** The errors handed to handleError, in order. */
  function ErrorsIn(t: seq<Event>): seq<SharingError>
  {
    if t == [] then [] else ErrorOf(t[0]) + ErrorsIn(t[1..])
  }

  lemma {:induction false} ErrorsInAppend(a: seq<Event>, b: seq<Event>)
    ensures ErrorsIn(a + b) == ErrorsIn(a) + ErrorsIn(b)
    decreases |a|
  {
    if a == [] {
      assert a + b == b;
    } else {
      assert (a + b)[1..] == a[1..] + b;
      ErrorsInAppend(a[1..], b);
    }
  }

  /** A trace records an error iff it holds a HandleError event. */
  lemma {:induction false} ErrorsInEmpty(t: seq<Event>)
    ensures ErrorsIn(t) == [] <==> forall i :: 0 <= i < |t| ==> !t[i].HandleError?
    decreases |t|
  {
    if t != [] {
      ErrorsInEmpty(t[1..]);
      forall i | 1 <= i < |t|
        ensures t[i] == t[1..][i - 1]
      {
      }
    }
  }

  /** The notifications sent to the listeners, in order. */
  function NotesIn(t: seq<Event>): seq<Note>
  {
    if t == [] then [] else NoteOf(t[0]) + NotesIn(t[1..])
  }

  /** A trace notifies nobody iff it holds no Notified event. */
  lemma {:induction false} NotesInEmpty(t: seq<Event>)
    ensures NotesIn(t) == [] <==> forall i :: 0 <= i < |t| ==> !t[i].Notified?
    decreases |t|
  {
    if t != [] {
      NotesInEmpty(t[1..]);
      forall i | 1 <= i < |t|
        ensures t[i] == t[1..][i - 1]
      {
      }
    }
  }

  lemma {:induction false} NotesInAppend(a: seq<Event>, b: seq<Event>)
    ensures NotesIn(a + b) == NotesIn(a) + NotesIn(b)
    decreases |a|
  {
    if a == [] {
      assert a + b == b;
    } else {
      assert (a + b)[1..] == a[1..] + b;
      NotesInAppend(a[1..], b);
    }
  }

  /** The errors and notifications of a trace extended by one event. */
  lemma Project1(h: seq<Event>, a: Event)
    ensures ErrorsIn(h + [a]) == if a.HandleError? then ErrorsIn(h) + [a.error] else ErrorsIn(h)
    ensures NotesIn(h + [a]) == if a.Notified? then NotesIn(h) + [a.note] else NotesIn(h)
  {
    ErrorsInAppend(h, [a]);
    NotesInAppend(h, [a]);
    assert [a][1..] == [];
  }
}
