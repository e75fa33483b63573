/** The geolocation sharing object of the API: what it reports about one geolocation
  * sharing, how it maps session events to a persisted state and reason, and what it
  * broadcasts. It follows the image sharing object except for its error mapping and for
  * a transferred geolocation. */
module GeolocSharingImplModel {
  import opened Common
  import SessionEvents
  import opened SharingStates
  import GeolocTransferSessionModel
  import ImageSharingImplModel

  type Geoloc = GeolocTransferSessionModel.Geoloc

  /** The geolocation transfer session the rich-call service holds for this sharing,
    * reduced to what the API object reads. */
  datatype GeolocSession = GeolocSession(
    contact: ContactId,
    dialogEstablished: bool,   // the dialog path exists and its session is established
    initiatedByRemote: bool,
    accepted: bool,
    geolocTransfered: bool,
    timestamp: int,
    geoloc: Option<Geoloc>)

  /** The persisted geolocation sharing row; an incoming one has no geolocation until it
    * has been received. */
  datatype GeolocRecord = GeolocRecord(contact: ContactId, direction: Direction,
                                       geoloc: Option<Geoloc>, state: State,
                                       reason: ReasonCode, timestamp: int)

  /** toStateAndReasonCode: the state and reason an error code is persisted as; None for
    * the codes it throws IllegalArgumentException on, which here include the two
    * resource limits. */
  function GeolocStateAndReason(error: SessionEvents.SharingError): (r: Option<StateAndReason>)
    ensures r.None? <==> error in {SessionEvents.UnexpectedException,
                                   SessionEvents.MediaRendererNotInitialized,
                                   SessionEvents.NotEnoughStorageSpace,
                                   SessionEvents.MediaSizeTooBig}
    ensures r.Some? ==> ReasonFits(r.value) && r.value.state in {Failed, Rejected}
  {
    match error
    case SessionInitiationFailed => Some(StateAndReason(Failed, FailedInitiation))
    case SessionInitiationCancelled => Some(StateAndReason(Rejected, RejectedByRemote))
    case SessionInitiationDeclined => Some(StateAndReason(Rejected, RejectedByRemote))
    case MediaSavingFailed => Some(StateAndReason(Failed, FailedSharing))
    case MediaTransferFailed => Some(StateAndReason(Failed, FailedSharing))
    case MediaStreamingFailed => Some(StateAndReason(Failed, FailedSharing))
    case UnsupportedMediaType => Some(StateAndReason(Failed, FailedSharing))
    case _ => None
  }

  /** The geolocation mapping agrees with the image one everywhere except on three codes:
    * a saving failure is a sharing failure here, and the two resource limits, which an
    * image sharing reports as rejections, are not mapped at all. */
  lemma MappingsDiffer(error: SessionEvents.SharingError)
    ensures error !in {SessionEvents.MediaSavingFailed, SessionEvents.NotEnoughStorageSpace,
                       SessionEvents.MediaSizeTooBig}
            <==> GeolocStateAndReason(error) == ImageSharingImplModel.ImageStateAndReason(error)
    ensures error == SessionEvents.MediaSavingFailed ==>
      && GeolocStateAndReason(error) == Some(StateAndReason(Failed, FailedSharing))
      && ImageSharingImplModel.ImageStateAndReason(error)
         == Some(StateAndReason(Failed, FailedSaving))
    ensures error in {SessionEvents.NotEnoughStorageSpace, SessionEvents.MediaSizeTooBig} ==>
      GeolocStateAndReason(error).None? && ImageSharingImplModel.ImageStateAndReason(error).Some?
  {
  }

  /** acceptInvitation, rejectInvitation and abortSharing: each throws
    * IllegalStateException without a live session; a rejection declines with 603; an
    * abort of a transferred geolocation does nothing, since the session closes by
    * itself. */
  function AcceptInvitation(live: Option<GeolocSession>): (r: ApiCall)
    ensures r == IllegalState <==> live.None?
  {
    if live.None? then IllegalState else AcceptSession
  }

  function RejectInvitation(live: Option<GeolocSession>): (r: ApiCall)
    ensures r == IllegalState <==> live.None?
  {
    if live.None? then IllegalState else RejectSession(DECLINE)
  }

  function AbortSharing(live: Option<GeolocSession>): (r: ApiCall)
    ensures r == IllegalState <==> live.None?
  {
    if live.None? then IllegalState
    else if live.value.geolocTransfered then NoCall
    else AbortSession(TerminationByUser)
  }

  /** The three requests act on the live session only, and an abort reaches it exactly
    * while the geolocation has not been transferred. */
  lemma RequestGuards(live: Option<GeolocSession>)
    ensures AcceptInvitation(live) == AcceptSession <==> live.Some?
    ensures RejectInvitation(live) == RejectSession(DECLINE) <==> live.Some?
    ensures AbortSharing(live) == AbortSession(TerminationByUser)
            <==> live.Some? && !live.value.geolocTransfered
    ensures AbortSharing(live) == NoCall <==> live.Some? && live.value.geolocTransfered
  {
  }

  class GeolocSharingImpl {
    const sharingId: string
    /** The session the rich-call service holds under this sharing id, if any. */
    var live: Option<GeolocSession>
    /** The geolocation sharing service still holds this object. */
    var registered: bool
    /** The persisted row, if any. */
    var stored: Option<GeolocRecord>
    var log: seq<ApiEvent>

    constructor (sharingId: string, live: Option<GeolocSession>, stored: Option<GeolocRecord>)
      ensures this.sharingId == sharingId && this.live == live && this.stored == stored
      ensures registered && log == []
    {
      this.sharingId := sharingId;
      this.live := live;
      this.stored := stored;
      registered := true;
      log := [];
    }

    // Getters: the live session's value, or the persisted one without a session (None
    // when there is neither).

    function GetGeoloc(): Option<Geoloc>
      reads this
    {
      if live.Some? then live.value.geoloc
      else if stored.Some? then stored.value.geoloc else None
    }

    function GetRemoteContact(): Option<ContactId>
      reads this
    {
      if live.Some? then Some(live.value.contact)
      else if stored.Some? then Some(stored.value.contact) else None
    }

    function GetState(): Option<State>
      reads this
    {
      if live.Some? then
        Some(LiveState(live.value.dialogEstablished, live.value.initiatedByRemote,
                       live.value.accepted))
      else if stored.Some? then Some(stored.value.state) else None
    }

    function GetReasonCode(): Option<ReasonCode>
      reads this
    {
      if live.Some? then Some(Unspecified)
      else if stored.Some? then Some(stored.value.reason) else None
    }

    function GetDirection(): Option<Direction>
      reads this
    {
      if live.Some? then Some(if live.value.initiatedByRemote then Incoming else Outgoing)
      else if stored.Some? then Some(stored.value.direction) else None
    }

    function GetTimestamp(): Option<int>
      reads this
    {
      if live.Some? then Some(live.value.timestamp)
      else if stored.Some? then Some(stored.value.timestamp) else None
    }

    /** setStateAndReasonCodeAndBroadcast: persists, then broadcasts. */
    method SetStateAndBroadcast(contact: ContactId, state: State, reason: ReasonCode)
      modifies this`stored, this`log
      ensures stored == if old(stored).Some? then Some(old(stored).value.(state := state,
                                                                           reason := reason))
                        else None
      ensures log == old(log) + [StateStored(state, reason)]
                     + [StateBroadcast(contact, state, reason)]
    {
      if stored.Some? {
        stored := Some(stored.value.(state := state, reason := reason));
      }
      log := log + [StateStored(state, reason)];
      log := log + [StateBroadcast(contact, state, reason)];
    }

    /** handleSessionRejected: removes the sharing, then persists and broadcasts a
      * rejection with the given reason. */
    method HandleSessionRejected(contact: ContactId, reason: ReasonCode)
      modifies this`registered, this`stored, this`log
      ensures !registered
      ensures stored == if old(stored).Some? then Some(old(stored).value.(state := Rejected,
                                                                           reason := reason))
                        else None
      ensures log == old(log) + [SharingRemoved] + [StateStored(Rejected, reason)]
                     + [StateBroadcast(contact, Rejected, reason)]
    {
      registered := false;
      log := log + [SharingRemoved];
      SetStateAndBroadcast(contact, Rejected, reason);
    }

    method HandleSessionRejectedByUser(contact: ContactId)
      modifies this`registered, this`stored, this`log
      ensures !registered
      ensures stored == if old(stored).Some? then Some(old(stored).value.(state := Rejected,
                                                                  reason := RejectedByUser))
                        else None
      ensures log == old(log) + [SharingRemoved] + [StateStored(Rejected, RejectedByUser)]
                     + [StateBroadcast(contact, Rejected, RejectedByUser)]
    {
      HandleSessionRejected(contact, RejectedByUser);
    }

    /** A timeout of the invitation is reported as a rejection for inactivity. */
    method HandleSessionRejectedByTimeout(contact: ContactId)
      modifies this`registered, this`stored, this`log
      ensures !registered
      ensures stored == if old(stored).Some? then Some(old(stored).value.(state := Rejected,
                                                            reason := RejectedByInactivity))
                        else None
      ensures log == old(log) + [SharingRemoved] + [StateStored(Rejected, RejectedByInactivity)]
                     + [StateBroadcast(contact, Rejected, RejectedByInactivity)]
    {
      HandleSessionRejected(contact, RejectedByInactivity);
    }

    method HandleSessionRejectedByRemote(contact: ContactId)
      modifies this`registered, this`stored, this`log
      ensures !registered
      ensures stored == if old(stored).Some? then Some(old(stored).value.(state := Rejected,
                                                                reason := RejectedByRemote))
                        else None
      ensures log == old(log) + [SharingRemoved] + [StateStored(Rejected, RejectedByRemote)]
                     + [StateBroadcast(contact, Rejected, RejectedByRemote)]
    {
      HandleSessionRejected(contact, RejectedByRemote);
    }

    method HandleSessionStarted(contact: ContactId)
      modifies this`stored, this`log
      ensures stored == if old(stored).Some? then Some(old(stored).value.(state := Started,
                                                                   reason := Unspecified))
                        else None
      ensures log == old(log) + [StateStored(Started, Unspecified)]
                     + [StateBroadcast(contact, Started, Unspecified)]
    {
      SetStateAndBroadcast(contact, Started, Unspecified);
    }

    /** handleSessionAborted: removes the sharing, then persists the mapped state, or
      * throws (`thrown`) for a reason the mapping does not know, after the removal. */
    method HandleSessionAborted(contact: ContactId, reason: TerminationReason)
      returns (thrown: bool)
      modifies this`registered, this`stored, this`log
      ensures !registered
      ensures thrown <==> AbortedStateAndReason(reason).None?
      ensures var sr := AbortedStateAndReason(reason);
        && stored == (if sr.Some? && old(stored).Some?
                      then Some(old(stored).value.(state := sr.value.state,
                                                   reason := sr.value.reason))
                      else old(stored))
        && log == old(log) + [SharingRemoved]
                  + (if sr.Some? then [StateStored(sr.value.state, sr.value.reason)]
                                      + [StateBroadcast(contact, sr.value.state, sr.value.reason)]
                     else [])
    {
      registered := false;
      log := log + [SharingRemoved];
      var sr := AbortedStateAndReason(reason);
      if sr.None? {
        return true;
      }
      SetStateAndBroadcast(contact, sr.value.state, sr.value.reason);
      return false;
    }

    /** handleSessionTerminatedByRemote: removes the sharing; a sharing whose geolocation
      * was transferred keeps its TRANSFERRED state, any other one becomes aborted by the
      * remote side. */
    method HandleSessionTerminatedByRemote(contact: ContactId)
      modifies this`registered, this`stored, this`log
      ensures !registered
      ensures old(stored).Some? && old(stored).value.state == Transferred ==>
        stored == old(stored) && log == old(log) + [SharingRemoved]
      ensures !(old(stored).Some? && old(stored).value.state == Transferred) ==>
        && stored == (if old(stored).Some?
                      then Some(old(stored).value.(state := Aborted, reason := AbortedByRemote))
                      else None)
        && log == old(log) + [SharingRemoved] + [StateStored(Aborted, AbortedByRemote)]
                  + [StateBroadcast(contact, Aborted, AbortedByRemote)]
    {
      registered := false;
      log := log + [SharingRemoved];
      if !(stored.Some? && stored.value.state == Transferred) {
        SetStateAndBroadcast(contact, Aborted, AbortedByRemote);
      }
    }

    /** handleSharingError: maps the error (throwing, before anything changes, for a
      * code it does not know), removes the sharing, then persists and broadcasts. */
    method HandleSharingError(contact: ContactId, error: SessionEvents.SharingError)
      returns (thrown: bool)
      modifies this`registered, this`stored, this`log
      ensures thrown <==> GeolocStateAndReason(error).None?
      ensures thrown ==> registered == old(registered) && stored == old(stored)
                         && log == old(log)
      ensures !thrown ==> var sr := GeolocStateAndReason(error).value;
        && !registered
        && stored == (if old(stored).Some?
                      then Some(old(stored).value.(state := sr.state, reason := sr.reason))
                      else None)
        && log == old(log) + [SharingRemoved] + [StateStored(sr.state, sr.reason)]
                  + [StateBroadcast(contact, sr.state, sr.reason)]
    {
      var sr := GeolocStateAndReason(error);
      if sr.None? {
        return true;
      }
      registered := false;
      log := log + [SharingRemoved];
      SetStateAndBroadcast(contact, sr.value.state, sr.value.reason);
      return false;
    }

    /** handleContentTransfered: removes the sharing; a received geolocation is written
      * into the history row with the TRANSFERRED state, a sent one gets its state
      * persisted here; either way TRANSFERRED is broadcast once. */
    method HandleContentTransfered(contact: ContactId, geoloc: Geoloc, initiatedByRemote: bool)
      modifies this`registered, this`stored, this`log
      ensures !registered
      ensures initiatedByRemote ==>
        && stored == (if old(stored).Some?
                      then Some(old(stored).value.(state := Transferred, reason := Unspecified,
                                                   geoloc := Some(geoloc)))
                      else None)
        && log == old(log) + [SharingRemoved] + [HistoryMarkedTransferred]
                  + [StateBroadcast(contact, Transferred, Unspecified)]
      ensures !initiatedByRemote ==>
        && stored == (if old(stored).Some?
                      then Some(old(stored).value.(state := Transferred, reason := Unspecified))
                      else None)
        && log == old(log) + [SharingRemoved] + [StateStored(Transferred, Unspecified)]
                  + [StateBroadcast(contact, Transferred, Unspecified)]
    {
      registered := false;
      log := log + [SharingRemoved];
      if initiatedByRemote {
        if stored.Some? {
          stored := Some(stored.value.(state := Transferred, reason := Unspecified,
                                       geoloc := Some(geoloc)));
        }
        log := log + [HistoryMarkedTransferred];
      } else {
        if stored.Some? {
          stored := Some(stored.value.(state := Transferred, reason := Unspecified));
        }
        log := log + [StateStored(Transferred, Unspecified)];
      }
      log := log + [StateBroadcast(contact, Transferred, Unspecified)];
    }

    method HandleSessionAccepted(contact: ContactId)
      modifies this`stored, this`log
      ensures stored == if old(stored).Some? then Some(old(stored).value.(state := Accepting,
                                                                     reason := Unspecified))
                        else None
      ensures log == old(log) + [StateStored(Accepting, Unspecified)]
                     + [StateBroadcast(contact, Accepting, Unspecified)]
    {
      SetStateAndBroadcast(contact, Accepting, Unspecified);
    }

    /** handleSessionInvited: stores an incoming, invited row without a geolocation, then
      * broadcasts the invitation. */
    method HandleSessionInvited(contact: ContactId, timestamp: int)
      modifies this`stored, this`log
      ensures stored == Some(GeolocRecord(contact, Incoming, None, Invited, Unspecified,
                                          timestamp))
      ensures log == old(log) + [RecordAdded] + [InvitationBroadcast]
    {
      stored := Some(GeolocRecord(contact, Incoming, None, Invited, Unspecified, timestamp));
      log := log + [RecordAdded];
      log := log + [InvitationBroadcast];
    }

    method Handle180Ringing(contact: ContactId)
      modifies this`stored, this`log
      ensures stored == if old(stored).Some? then Some(old(stored).value.(state := Ringing,
                                                                   reason := Unspecified))
                        else None
      ensures log == old(log) + [StateStored(Ringing, Unspecified)]
                     + [StateBroadcast(contact, Ringing, Unspecified)]
    {
      SetStateAndBroadcast(contact, Ringing, Unspecified);
    }
  }

  /** Without a live session every getter reads the persisted row; with one, the reason
    * is UNSPECIFIED, the direction follows who initiated it and the state is derived
    * from the session's flags. */
  lemma GettersFollowSession(impl: GeolocSharingImpl)
    ensures impl.live.None? ==>
      && impl.GetState() == (if impl.stored.Some? then Some(impl.stored.value.state) else None)
      && impl.GetReasonCode()
         == (if impl.stored.Some? then Some(impl.stored.value.reason) else None)
      && impl.GetGeoloc() == (if impl.stored.Some? then impl.stored.value.geoloc else None)
    ensures impl.live.Some? ==>
      && impl.GetReasonCode() == Some(Unspecified)
      && (impl.GetDirection() == Some(Incoming) <==> impl.live.value.initiatedByRemote)
      && (impl.GetState() == Some(Started) <==> impl.live.value.dialogEstablished)
      && impl.GetGeoloc() == impl.live.value.geoloc
  {
  }

  /** A BYE after a completed transfer, in either direction, leaves the sharing
    * TRANSFERRED: nothing is stored or broadcast after the removal, and a received
    * geolocation stays readable once the session is gone. */
  method TransferThenTerminatedByRemote(impl: GeolocSharingImpl, contact: ContactId,
                                        geoloc: Geoloc, initiatedByRemote: bool)
    requires impl.stored.Some? && impl.live.None?
    modifies impl`registered, impl`stored, impl`log
    ensures impl.GetState() == Some(Transferred)
    ensures impl.GetReasonCode() == Some(Unspecified)
    ensures initiatedByRemote ==> impl.GetGeoloc() == Some(geoloc)
    ensures impl.log == old(impl.log) + [SharingRemoved]
                        + [if initiatedByRemote then HistoryMarkedTransferred
                           else StateStored(Transferred, Unspecified)]
                        + [StateBroadcast(contact, Transferred, Unspecified)]
                        + [SharingRemoved]
  {
    impl.HandleContentTransfered(contact, geoloc, initiatedByRemote);
    impl.HandleSessionTerminatedByRemote(contact);
    GettersFollowSession(impl);
  }
}
