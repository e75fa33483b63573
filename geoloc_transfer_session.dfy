/** Geolocation sharing sessions: the state every geoloc session keeps (the location
  * shared and whether it has been transferred), its error handling, and the
  * originating session that offers the location over MSRP (RFC 4975) with the
  * file-transfer attributes of RFC 5547. */
module GeolocTransferSessionModel {
  import opened Common
  import opened SessionEvents
  import opened JavaStrings
  import ChatUtilsModel

  /** A shared location. Its coordinates are doubles in the source and are only carried
    * around here, so they are kept as opaque integers. */
  datatype Geoloc = Geoloc(labelText: Option<string>, latitude: int, longitude: int,
                           expiration: int, accuracy: int)

  // ---------------------------------------------------------------------------
  // The offer

  /** The MSRP port an originating geoloc session offers: 9, the discard port, since
    * it connects actively (section 4 of RFC 4145). */
  const LOCAL_MSRP_PORT: nat := 9

  /** The lines of the SDP offer: `ntp` is the NTP time of the offer, `address` the local
    * address in its `IN IP4`/`IN IP6` form, `path` the local MSRP path and `encoding` the
    * content's MIME type; the file-selector and file-location lines are present only
    * when the attribute is. */
  function OfferLines(ntp: string, address: string, path: string, localSetup: Setup,
                      encoding: string, transferId: string, selector: Option<string>,
                      location: Option<string>): seq<string>
  {
    ["v=0", "o=- " + ntp + " " + ntp + " " + address, "s=-", "c=" + address, "t=0 0",
     "m=message " + DecimalString(LOCAL_MSRP_PORT) + " TCP/MSRP *", "a=path:" + path,
     "a=setup:" + SetupName(localSetup), "a=accept-types:" + encoding,
     "a=file-transfer-id:" + transferId, "a=file-disposition:render", "a=sendonly"]
    + (if selector.Some? then ["a=file-selector:" + selector.value] else [])
    + (if location.Some? then ["a=file-location:" + location.value] else [])
  }

  /** A text made of lines, each ended by CRLF. */
  function JoinLines(lines: seq<string>): (text: string)
  {
    if lines == [] then [] else JoinLines(lines[..|lines| - 1]) + lines[|lines| - 1]
                                + ChatUtilsModel.CRLF
  }

  /** Joining lines distributes over concatenation, so appending a line to the text
    * appends it to the lines. */
  lemma {:induction false} JoinLinesAppend(a: seq<string>, b: seq<string>)
    ensures JoinLines(a + b) == JoinLines(a) + JoinLines(b)
    decreases |b|
  {
    if b == [] {
      assert a + b == a;
    } else {
      var b' := b[..|b| - 1];
      assert (a + b)[..|a + b| - 1] == a + b';
      JoinLinesAppend(a, b');
    }
  }

  /** Appending one line to the text appends it to the lines. */
  lemma JoinLinesSnoc(lines: seq<string>, line: string)
    ensures JoinLines(lines + [line]) == JoinLines(lines) + (line + ChatUtilsModel.CRLF)
  {
    assert (lines + [line])[..|lines|] == lines;
  }

  /** The text of a non-empty list of lines ends with CRLF. */
  lemma JoinLinesEndsWithCrlf(lines: seq<string>)
    requires lines != []
    ensures EndsWith(JoinLines(lines), ChatUtilsModel.CRLF)
  {
    var text := JoinLines(lines);
    assert text == JoinLines(lines[..|lines| - 1]) + lines[|lines| - 1] + ChatUtilsModel.CRLF;
    assert text[|text| - 2..] == ChatUtilsModel.CRLF;
  }

  /** What the offer says: port 9 on the media line, the setup role, the accepted type
    * equal to the content encoding, the transfer id, send-only, and one optional line
    * for each attribute that is present, in that order. */
  lemma OfferAttributes(ntp: string, address: string, path: string, localSetup: Setup,
                        encoding: string, transferId: string, selector: Option<string>,
                        location: Option<string>)
    ensures var lines := OfferLines(ntp, address, path, localSetup, encoding, transferId,
                                    selector, location);
      && lines[5] == "m=message 9 TCP/MSRP *"
      && lines[7] == "a=setup:" + SetupName(localSetup)
      && lines[8] == "a=accept-types:" + encoding
      && lines[9] == "a=file-transfer-id:" + transferId
      && lines[11] == "a=sendonly"
      && |lines| == 12 + (if selector.Some? then 1 else 0) + (if location.Some? then 1 else 0)
      && (selector.Some? ==> lines[12] == "a=file-selector:" + selector.value)
      && (location.Some? ==> lines[|lines| - 1] == "a=file-location:" + location.value)
  {
    assert DecimalString(LOCAL_MSRP_PORT) == "9";
  }

  // ---------------------------------------------------------------------------
  // Traces

  /** closeMediaSession: the MSRP manager is closed if one was created. */
  function CloseMedia(h: seq<Event>, hasManager: bool): (t: seq<Event>)
    ensures Extends(t, h)
  {
    if hasManager then h + [MsrpClosed] else h
  }

  /** handleError of a session that is not interrupted: the media are closed, the
    * session removed, then every listener told of the error. */
  function GeolocError(h: seq<Event>, hasManager: bool, error: SharingError): (t: seq<Event>)
    ensures Extends(t, h)
  {
    CloseMedia(h + [HandleError(error)], hasManager) + [SessionRemoved]
    + [Notified(SharingErrorNote(error))]
  }

  /** How the INVITE of an originating run ends: sent, or an exception thrown by
    * createInvite (before anything is done with it) or by sendInvite (after it was
    * authorized and stored in the dialog path). */
  datatype InviteOutcome = InviteSendsOk | CreateFails | SendFails

  /** The originating run after the offer was built: the offer is stored, the INVITE
    * created, authorized, stored and sent. An exception from creating or sending the
    * INVITE goes to handleError with UNEXPECTED_EXCEPTION (ignored if the session is
    * interrupted by then). */
  function OfferTrace(h: seq<Event>, localSetup: Setup, invite: InviteOutcome, interrupted: bool)
    : (t: seq<Event>)
    ensures Extends(t, h)
  {
    var described := h + [LocalSdpSet(LOCAL_MSRP_PORT, localSetup)];
    var prepared := if invite == CreateFails then described
                    else described + [AuthorizationSet] + [InviteStored];
    if invite == InviteSendsOk then prepared + [InviteSent]
    else if interrupted then prepared
    else GeolocError(prepared, true, UnexpectedException)
  }

  /** msrpDataTransfered: the media are closed, the session terminated by the user and
    * removed, then each listener learns the content was transferred by this side. */
  function DataTransfered(h: seq<Event>, hasManager: bool): (t: seq<Event>)
    ensures Extends(t, h)
  {
    CloseMedia(h, hasManager) + [Terminated(TerminationByUser)] + [SessionRemoved]
    + [Notified(ContentTransfered(false))]
  }

  /** msrpTransferError on a session that is not interrupted: the media are closed, the
    * session terminated by the system, the remote capabilities requested, the session
    * removed, then each listener told MEDIA_TRANSFER_FAILED. */
  function TransferError(h: seq<Event>, hasManager: bool): (t: seq<Event>)
    ensures Extends(t, h)
  {
    CloseMedia(h, hasManager) + [Terminated(TerminationBySystem)] + [CapabilitiesRequested]
    + [SessionRemoved] + [Notified(SharingErrorNote(MediaTransferFailed))]
  }

  // ---------------------------------------------------------------------------
  // The sessions

  /** The state every geoloc sharing session keeps. */
  class GeolocTransferSession {
    var geolocTransfered: bool
    var geoloc: Option<Geoloc>
    /** The session was interrupted (aborted or terminated). */
    var sessionInterrupted: bool
    /** An MSRP manager was created (only the originating run creates one). */
    var hasManager: bool
    var events: seq<Event>

    constructor ()
      ensures !geolocTransfered && geoloc.None? && !sessionInterrupted && !hasManager
      ensures events == []
    {
      geolocTransfered := false;
      geoloc := None;
      sessionInterrupted := false;
      hasManager := false;
      events := [];
    }

    method SetGeoloc(g: Option<Geoloc>)
      modifies this`geoloc
      ensures geoloc == g
    {
      geoloc := g;
    }

    /** getGeoloc gives back the last value set. */
    method GetGeoloc() returns (g: Option<Geoloc>)
      ensures g == geoloc
    {
      g := geoloc;
    }

    /** The flag is only ever set, never cleared. */
    method GeolocTransfered()
      modifies this`geolocTransfered
      ensures geolocTransfered
    {
      geolocTransfered := true;
    }

    method IsGeolocTransfered() returns (b: bool)
      ensures b == geolocTransfered
    {
      b := geolocTransfered;
    }

    /** handleError: ignored once the session is interrupted. */
    method HandleSessionError(error: SharingError)
      modifies this`events
      ensures events == if sessionInterrupted then old(events)
                        else GeolocError(old(events), hasManager, error)
    {
      if sessionInterrupted {
        return;
      }
      events := events + [HandleError(error)];
      if hasManager {
        events := events + [MsrpClosed];
      }
      events := events + [SessionRemoved];
      events := events + [Notified(SharingErrorNote(error))];
    }

    /** startSession: registers the session with the rich-call service, then starts it. */
    method StartSession()
      modifies this`events
      ensures events == old(events) + [SessionAdded] + [SessionThreadStarted]
    {
      events := events + [SessionAdded];
      events := events + [SessionThreadStarted];
    }

    method RemoveSession()
      modifies this`events
      ensures events == old(events) + [SessionRemoved]
    {
      events := events + [SessionRemoved];
    }
  }

  /** The originating session: offers the location to the remote contact. */
  class OriginatingGeolocTransferSession {
    const session: GeolocTransferSession
    /** The local content of the dialog path: the SDP offer, once built. */
    var localContent: Option<string>

    constructor (geoloc: Geoloc)
      ensures fresh(session)
      ensures session.geoloc == Some(geoloc) && !session.geolocTransfered
      ensures !session.sessionInterrupted && !session.hasManager && session.events == []
      ensures localContent.None?
    {
      session := new GeolocTransferSession();
      localContent := None;
      new;
      session.SetGeoloc(Some(geoloc));
    }

    /** run(): builds the offer line by line, stores it, then creates, authorizes,
      * stores and sends the INVITE. */
    method Run(localSetup: Setup, ntp: string, address: string, path: string, encoding: string,
               transferId: string, selector: Option<string>, location: Option<string>,
               invite: InviteOutcome)
      modifies this`localContent, session`hasManager, session`events
      ensures session.hasManager
      ensures localContent == Some(JoinLines(OfferLines(ntp, address, path, localSetup, encoding,
                                                        transferId, selector, location)))
      ensures session.events == OfferTrace(old(session.events), localSetup, invite,
                                           session.sessionInterrupted)
    {
      session.hasManager := true;
      var base := ["v=0", "o=- " + ntp + " " + ntp + " " + address, "s=-", "c=" + address,
                   "t=0 0", "m=message " + DecimalString(LOCAL_MSRP_PORT) + " TCP/MSRP *",
                   "a=path:" + path, "a=setup:" + SetupName(localSetup),
                   "a=accept-types:" + encoding, "a=file-transfer-id:" + transferId,
                   "a=file-disposition:render", "a=sendonly"];
      var sdp := JoinLines(base);
      var lines := base;
      assert sdp == JoinLines(lines);
      if selector.Some? {
        JoinLinesSnoc(lines, "a=file-selector:" + selector.value);
        sdp := sdp + ("a=file-selector:" + selector.value + ChatUtilsModel.CRLF);
        lines := lines + ["a=file-selector:" + selector.value];
      }
      if location.Some? {
        JoinLinesSnoc(lines, "a=file-location:" + location.value);
        sdp := sdp + ("a=file-location:" + location.value + ChatUtilsModel.CRLF);
        lines := lines + ["a=file-location:" + location.value];
      }
      assert lines == OfferLines(ntp, address, path, localSetup, encoding, transferId, selector,
                                 location);
      localContent := Some(sdp);
      session.events := session.events + [LocalSdpSet(LOCAL_MSRP_PORT, localSetup)];
      if invite == CreateFails {
        session.HandleSessionError(UnexpectedException);
        return;
      }
      session.events := session.events + [AuthorizationSet];
      session.events := session.events + [InviteStored];
      if invite == SendFails {
        session.HandleSessionError(UnexpectedException);
        return;
      }
      session.events := session.events + [InviteSent];
    }

    /** msrpDataTransfered: marks the location transferred and ends the session. */
    method MsrpDataTransfered()
      modifies session`geolocTransfered, session`events
      ensures session.geolocTransfered
      ensures session.events == DataTransfered(old(session.events), session.hasManager)
    {
      session.GeolocTransfered();
      if session.hasManager {
        session.events := session.events + [MsrpClosed];
      }
      session.events := session.events + [Terminated(TerminationByUser)];
      session.RemoveSession();
      session.events := session.events + [Notified(ContentTransfered(false))];
    }

    /** msrpTransferError: ignored once the session is interrupted. */
    method MsrpTransferError()
      modifies session`events
      ensures session.events == if session.sessionInterrupted then old(session.events)
                                else TransferError(old(session.events), session.hasManager)
    {
      if session.sessionInterrupted {
        return;
      }
      if session.hasManager {
        session.events := session.events + [MsrpClosed];
      }
      session.events := session.events + [Terminated(TerminationBySystem)];
      session.events := session.events + [CapabilitiesRequested];
      session.RemoveSession();
      session.events := session.events + [Notified(SharingErrorNote(MediaTransferFailed))];
    }

    /** handle180Ringing: every listener hears that the remote side is ringing. */
    method Handle180Ringing()
      modifies session`events
      ensures session.events == old(session.events) + [Notified(Ringing)]
    {
      session.events := session.events + [Notified(Ringing)];
    }
  }

  // ---------------------------------------------------------------------------
  // Properties

  /** handleError reports the one error to handleError's caller and to the listeners,
    * after the media are closed and the session removed. */
  lemma ErrorOutcome(h: seq<Event>, hasManager: bool, error: SharingError)
    ensures var t := GeolocError(h, hasManager, error);
      && ErrorsIn(t) == ErrorsIn(h) + [error]
      && NotesIn(t) == NotesIn(h) + [SharingErrorNote(error)]
      && t[|t| - 2] == SessionRemoved
      && (hasManager ==> t[|h| + 1] == MsrpClosed)
  {
    var e := h + [HandleError(error)];
    var c := CloseMedia(e, hasManager);
    Project1(h, HandleError(error));
    if hasManager {
      Project1(e, MsrpClosed);
    }
    Project1(c, SessionRemoved);
    Project1(c + [SessionRemoved], Notified(SharingErrorNote(error)));
  }

  /** What a failed INVITE leaves after the history: the offer, the authorization and
    * storing of the INVITE when only the send failed, and the error handling unless
    * the session is interrupted. */
  lemma FailedInviteTail(h: seq<Event>, localSetup: Setup, invite: InviteOutcome, interrupted: bool)
    requires invite != InviteSendsOk
    ensures var prepared := [LocalSdpSet(LOCAL_MSRP_PORT, localSetup)]
                            + (if invite == SendFails then [AuthorizationSet, InviteStored] else []);
      OfferTrace(h, localSetup, invite, interrupted)
      == h + prepared + (if interrupted then []
                         else [HandleError(UnexpectedException), MsrpClosed, SessionRemoved,
                               Notified(SharingErrorNote(UnexpectedException))])
  {
  }

  /** Nothing is sent when creating or sending the INVITE fails; a failed send follows
    * the authorization and the storing of the INVITE, a failed creation neither. */
  lemma FailedInviteSteps(h: seq<Event>, localSetup: Setup, invite: InviteOutcome, interrupted: bool)
    requires invite != InviteSendsOk
    ensures AbsentFrom(OfferTrace(h, localSetup, invite, interrupted), |h|, InviteSent)
    ensures invite == SendFails ==>
              var t := OfferTrace(h, localSetup, invite, interrupted);
              t[|h| + 1] == AuthorizationSet && t[|h| + 2] == InviteStored
    ensures invite == CreateFails ==>
              AbsentFrom(OfferTrace(h, localSetup, invite, interrupted), |h|, AuthorizationSet)
              && AbsentFrom(OfferTrace(h, localSetup, invite, interrupted), |h|, InviteStored)
  {
    FailedInviteTail(h, localSetup, invite, interrupted);
  }

  /** The offer and the INVITE are stored in the dialog path before the INVITE is sent. */
  lemma OfferStoredBeforeSent(h: seq<Event>, localSetup: Setup)
    ensures var t := OfferTrace(h, localSetup, InviteSendsOk, false);
      && PrecedesFrom(t, |h|, LocalSdpSet(LOCAL_MSRP_PORT, localSetup), InviteSent)
      && PrecedesFrom(t, |h|, InviteStored, InviteSent)
      && PrecedesFrom(t, |h|, AuthorizationSet, InviteStored)
  {
    var t := OfferTrace(h, localSetup, InviteSendsOk, false);
    PrecedesFromAt(t, |h|, |h|, |h| + 3);
    PrecedesFromAt(t, |h|, |h| + 2, |h| + 3);
    PrecedesFromAt(t, |h|, |h| + 1, |h| + 2);
  }

  /** A transferred location is reported once, as sent by this side, after the session
    * was terminated by the user and removed; no error is reported. */
  lemma DataTransferedOutcome(h: seq<Event>, hasManager: bool)
    ensures var t := DataTransfered(h, hasManager);
      && NotesIn(t) == NotesIn(h) + [ContentTransfered(false)]
      && ErrorsIn(t) == ErrorsIn(h)
      && t[|t| - 3] == Terminated(TerminationByUser) && t[|t| - 2] == SessionRemoved
  {
    var c := CloseMedia(h, hasManager);
    if hasManager {
      Project1(h, MsrpClosed);
    }
    Project1(c, Terminated(TerminationByUser));
    Project1(c + [Terminated(TerminationByUser)], SessionRemoved);
    Project1(c + [Terminated(TerminationByUser)] + [SessionRemoved],
             Notified(ContentTransfered(false)));
  }

  /** A transfer error is reported once, as MEDIA_TRANSFER_FAILED, after the session was
    * terminated by the system and removed. */
  lemma TransferErrorOutcome(h: seq<Event>, hasManager: bool)
    ensures var t := TransferError(h, hasManager);
      && NotesIn(t) == NotesIn(h) + [SharingErrorNote(MediaTransferFailed)]
      && t[|t| - 4] == Terminated(TerminationBySystem)
      && t[|t| - 3] == CapabilitiesRequested && t[|t| - 2] == SessionRemoved
  {
    var c := CloseMedia(h, hasManager);
    if hasManager {
      Project1(h, MsrpClosed);
    }
    Project1(c, Terminated(TerminationBySystem));
    Project1(c + [Terminated(TerminationBySystem)], CapabilitiesRequested);
    Project1(c + [Terminated(TerminationBySystem)] + [CapabilitiesRequested], SessionRemoved);
    Project1(c + [Terminated(TerminationBySystem)] + [CapabilitiesRequested] + [SessionRemoved],
             Notified(SharingErrorNote(MediaTransferFailed)));
  }
}
