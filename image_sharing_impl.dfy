/** The image sharing object of the API: what it reports about one image sharing, how it
  * maps session events to a persisted state and reason, and what it broadcasts. */
module ImageSharingImplModel {
  import opened Common
  import SessionEvents
  import opened SharingStates

  /** The shared file: name, URI, size in bytes and MIME type. */
  datatype Content = Content(name: string, uri: string, size: int, mimeType: string)

  /** The image transfer session the rich-call service holds for this sharing, reduced to
    * what the API object reads. */
  datatype ImageSession = ImageSession(
    contact: ContactId,
    dialogEstablished: bool,   // the dialog path exists and its session is established
    initiatedByRemote: bool,
    accepted: bool,
    imageTransfered: bool,
    timestamp: int,
    content: Content)

  /** The persisted image sharing row. */
  datatype ImageRecord = ImageRecord(contact: ContactId, direction: Direction, content: Content,
                                     state: State, reason: ReasonCode, timestamp: int,
                                     progress: int)

  /** toStateAndReasonCode: the state and reason an error code is persisted as; None for
    * the codes it throws IllegalArgumentException on. */
  function ImageStateAndReason(error: SessionEvents.SharingError): (r: Option<StateAndReason>)
    ensures r.None? <==> error == SessionEvents.UnexpectedException
                         || error == SessionEvents.MediaRendererNotInitialized
    ensures r.Some? ==> ReasonFits(r.value) && r.value.state in {Failed, Rejected}
  {
    match error
    case SessionInitiationFailed => Some(StateAndReason(Failed, FailedInitiation))
    case SessionInitiationCancelled => Some(StateAndReason(Rejected, RejectedByRemote))
    case SessionInitiationDeclined => Some(StateAndReason(Rejected, RejectedByRemote))
    case MediaSavingFailed => Some(StateAndReason(Failed, FailedSaving))
    case MediaTransferFailed => Some(StateAndReason(Failed, FailedSharing))
    case MediaStreamingFailed => Some(StateAndReason(Failed, FailedSharing))
    case UnsupportedMediaType => Some(StateAndReason(Failed, FailedSharing))
    case NotEnoughStorageSpace => Some(StateAndReason(Rejected, RejectedLowSpace))
    case MediaSizeTooBig => Some(StateAndReason(Rejected, RejectedMaxSize))
    case _ => None
  }

  /** Which codes are rejections: the remote side's refusal and the two resource limits;
    * every other mapped code is a failure. */
  lemma ImageErrorRejections(error: SessionEvents.SharingError)
    requires ImageStateAndReason(error).Some?
    ensures ImageStateAndReason(error).value.state == Rejected
            <==> error in {SessionEvents.SessionInitiationCancelled,
                           SessionEvents.SessionInitiationDeclined,
                           SessionEvents.NotEnoughStorageSpace, SessionEvents.MediaSizeTooBig}
  {
  }

  /** acceptInvitation, rejectInvitation and abortSharing: each throws
    * IllegalStateException without a live session; a rejection declines with 603; an
    * abort of a transferred image does nothing, since the session closes by itself. */
  function AcceptInvitation(live: Option<ImageSession>): (r: ApiCall)
    ensures r == IllegalState <==> live.None?
  {
    if live.None? then IllegalState else AcceptSession
  }

  function RejectInvitation(live: Option<ImageSession>): (r: ApiCall)
    ensures r == IllegalState <==> live.None?
  {
    if live.None? then IllegalState else RejectSession(DECLINE)
  }

  function AbortSharing(live: Option<ImageSession>): (r: ApiCall)
    ensures r == IllegalState <==> live.None?
  {
    if live.None? then IllegalState
    else if live.value.imageTransfered then NoCall
    else AbortSession(TerminationByUser)
  }

  /** The three requests act on the live session only, and an abort reaches it exactly
    * while the image has not been transferred. */
  lemma RequestGuards(live: Option<ImageSession>)
    ensures AcceptInvitation(live) == AcceptSession <==> live.Some?
    ensures RejectInvitation(live) == RejectSession(DECLINE) <==> live.Some?
    ensures AbortSharing(live) == AbortSession(TerminationByUser)
            <==> live.Some? && !live.value.imageTransfered
    ensures AbortSharing(live) == NoCall <==> live.Some? && live.value.imageTransfered
  {
  }

  class ImageSharingImpl {
    const sharingId: string
    /** The session the rich-call service holds under this sharing id, if any. */
    var live: Option<ImageSession>
    /** The image sharing service still holds this object. */
    var registered: bool
    /** The persisted row, if any. */
    var stored: Option<ImageRecord>
    var log: seq<ApiEvent>

    constructor (sharingId: string, live: Option<ImageSession>, stored: Option<ImageRecord>)
      ensures this.sharingId == sharingId && this.live == live && this.stored == stored
      ensures registered && log == []
    {
      this.sharingId := sharingId;
      this.live := live;
      this.stored := stored;
      registered := true;
      log := [];
    }

    // Getters: the live session's value, or the persisted one without a session (None
    // when there is neither).

    function GetRemoteContact(): Option<ContactId>
      reads this
    {
      if live.Some? then Some(live.value.contact)
      else if stored.Some? then Some(stored.value.contact) else None
    }

    function GetContent(): Option<Content>
      reads this
    {
      if live.Some? then Some(live.value.content)
      else if stored.Some? then Some(stored.value.content) else None
    }

    function GetState(): Option<State>
      reads this
    {
      if live.Some? then
        Some(LiveState(live.value.dialogEstablished, live.value.initiatedByRemote,
                       live.value.accepted))
      else if stored.Some? then Some(stored.value.state) else None
    }

    function GetReasonCode(): Option<ReasonCode>
      reads this
    {
      if live.Some? then Some(Unspecified)
      else if stored.Some? then Some(stored.value.reason) else None
    }

    function GetDirection(): Option<Direction>
      reads this
    {
      if live.Some? then Some(if live.value.initiatedByRemote then Incoming else Outgoing)
      else if stored.Some? then Some(stored.value.direction) else None
    }

    function GetTimestamp(): Option<int>
      reads this
    {
      if live.Some? then Some(live.value.timestamp)
      else if stored.Some? then Some(stored.value.timestamp) else None
    }

    /** setStateAndReasonCodeAndBroadcast: persists, then broadcasts. */
    method SetStateAndBroadcast(contact: ContactId, state: State, reason: ReasonCode)
      modifies this`stored, this`log
      ensures stored == if old(stored).Some? then Some(old(stored).value.(state := state,
                                                                           reason := reason))
                        else None
      ensures log == old(log) + [StateStored(state, reason)]
                     + [StateBroadcast(contact, state, reason)]
    {
      if stored.Some? {
        stored := Some(stored.value.(state := state, reason := reason));
      }
      log := log + [StateStored(state, reason)];
      log := log + [StateBroadcast(contact, state, reason)];
    }

    /** Removes the sharing from the service, then persists and broadcasts. */
    method RemoveAndSet(contact: ContactId, state: State, reason: ReasonCode)
      modifies this`registered, this`stored, this`log
      ensures !registered
      ensures stored == if old(stored).Some? then Some(old(stored).value.(state := state,
                                                                           reason := reason))
                        else None
      ensures log == old(log) + [SharingRemoved] + [StateStored(state, reason)]
                     + [StateBroadcast(contact, state, reason)]
    {
      registered := false;
      log := log + [SharingRemoved];
      SetStateAndBroadcast(contact, state, reason);
    }

    method HandleSessionRejectedByUser(contact: ContactId)
      modifies this`registered, this`stored, this`log
      ensures !registered
      ensures stored == if old(stored).Some? then Some(old(stored).value.(state := Rejected,
                                                                  reason := RejectedByUser))
                        else None
      ensures log == old(log) + [SharingRemoved] + [StateStored(Rejected, RejectedByUser)]
                     + [StateBroadcast(contact, Rejected, RejectedByUser)]
    {
      RemoveAndSet(contact, Rejected, RejectedByUser);
    }

    /** A timeout of the invitation is reported as a rejection for inactivity. */
    method HandleSessionRejectedByTimeout(contact: ContactId)
      modifies this`registered, this`stored, this`log
      ensures !registered
      ensures stored == if old(stored).Some? then Some(old(stored).value.(state := Rejected,
                                                            reason := RejectedByInactivity))
                        else None
      ensures log == old(log) + [SharingRemoved] + [StateStored(Rejected, RejectedByInactivity)]
                     + [StateBroadcast(contact, Rejected, RejectedByInactivity)]
    {
      RemoveAndSet(contact, Rejected, RejectedByInactivity);
    }

    method HandleSessionRejectedByRemote(contact: ContactId)
      modifies this`registered, this`stored, this`log
      ensures !registered
      ensures stored == if old(stored).Some? then Some(old(stored).value.(state := Rejected,
                                                                reason := RejectedByRemote))
                        else None
      ensures log == old(log) + [SharingRemoved] + [StateStored(Rejected, RejectedByRemote)]
                     + [StateBroadcast(contact, Rejected, RejectedByRemote)]
    {
      RemoveAndSet(contact, Rejected, RejectedByRemote);
    }

    method HandleSessionStarted(contact: ContactId)
      modifies this`stored, this`log
      ensures stored == if old(stored).Some? then Some(old(stored).value.(state := Started,
                                                                   reason := Unspecified))
                        else None
      ensures log == old(log) + [StateStored(Started, Unspecified)]
                     + [StateBroadcast(contact, Started, Unspecified)]
    {
      SetStateAndBroadcast(contact, Started, Unspecified);
    }

    /** handleSessionAborted: removes the sharing, then persists the mapped state, or
      * throws (`thrown`) for a reason the mapping does not know, after the removal. */
    method HandleSessionAborted(contact: ContactId, reason: TerminationReason)
      returns (thrown: bool)
      modifies this`registered, this`stored, this`log
      ensures !registered
      ensures thrown <==> AbortedStateAndReason(reason).None?
      ensures var sr := AbortedStateAndReason(reason);
        && stored == (if sr.Some? && old(stored).Some?
                      then Some(old(stored).value.(state := sr.value.state,
                                                   reason := sr.value.reason))
                      else old(stored))
        && log == old(log) + [SharingRemoved]
                  + (if sr.Some? then [StateStored(sr.value.state, sr.value.reason)]
                                      + [StateBroadcast(contact, sr.value.state, sr.value.reason)]
                     else [])
    {
      registered := false;
      log := log + [SharingRemoved];
      var sr := AbortedStateAndReason(reason);
      if sr.None? {
        return true;
      }
      SetStateAndBroadcast(contact, sr.value.state, sr.value.reason);
      return false;
    }

    /** handleSessionTerminatedByRemote: removes the sharing; a sharing whose image was
      * transferred keeps its TRANSFERRED state, any other one becomes aborted by the
      * remote side. */
    method HandleSessionTerminatedByRemote(contact: ContactId)
      modifies this`registered, this`stored, this`log
      ensures !registered
      ensures old(stored).Some? && old(stored).value.state == Transferred ==>
        stored == old(stored) && log == old(log) + [SharingRemoved]
      ensures !(old(stored).Some? && old(stored).value.state == Transferred) ==>
        && stored == (if old(stored).Some?
                      then Some(old(stored).value.(state := Aborted, reason := AbortedByRemote))
                      else None)
        && log == old(log) + [SharingRemoved] + [StateStored(Aborted, AbortedByRemote)]
                  + [StateBroadcast(contact, Aborted, AbortedByRemote)]
    {
      registered := false;
      log := log + [SharingRemoved];
      if !(stored.Some? && stored.value.state == Transferred) {
        SetStateAndBroadcast(contact, Aborted, AbortedByRemote);
      }
    }

    /** handleSharingError: maps the error (throwing, before anything changes, for a
      * code it does not know), removes the sharing, then persists and broadcasts. */
    method HandleSharingError(contact: ContactId, error: SessionEvents.SharingError) returns (thrown: bool)
      modifies this`registered, this`stored, this`log
      ensures thrown <==> ImageStateAndReason(error).None?
      ensures thrown ==> registered == old(registered) && stored == old(stored)
                         && log == old(log)
      ensures !thrown ==> var sr := ImageStateAndReason(error).value;
        && !registered
        && stored == (if old(stored).Some?
                      then Some(old(stored).value.(state := sr.state, reason := sr.reason))
                      else None)
        && log == old(log) + [SharingRemoved] + [StateStored(sr.state, sr.reason)]
                  + [StateBroadcast(contact, sr.state, sr.reason)]
    {
      var sr := ImageStateAndReason(error);
      if sr.None? {
        return true;
      }
      RemoveAndSet(contact, sr.value.state, sr.value.reason);
      return false;
    }

    /** handleSharingProgress: persists the transferred size, then broadcasts it. */
    method HandleSharingProgress(contact: ContactId, current: int, total: int)
      modifies this`stored, this`log
      ensures stored == if old(stored).Some? then Some(old(stored).value.(progress := current))
                        else None
      ensures log == old(log) + [ProgressStored(current)]
                     + [ProgressBroadcast(contact, current, total)]
    {
      if stored.Some? {
        stored := Some(stored.value.(progress := current));
      }
      log := log + [ProgressStored(current)];
      log := log + [ProgressBroadcast(contact, current, total)];
    }

    method HandleContentTransfered(contact: ContactId)
      modifies this`registered, this`stored, this`log
      ensures !registered
      ensures stored == if old(stored).Some? then Some(old(stored).value.(state := Transferred,
                                                                       reason := Unspecified))
                        else None
      ensures log == old(log) + [SharingRemoved] + [StateStored(Transferred, Unspecified)]
                     + [StateBroadcast(contact, Transferred, Unspecified)]
    {
      RemoveAndSet(contact, Transferred, Unspecified);
    }

    method HandleSessionAccepted(contact: ContactId)
      modifies this`stored, this`log
      ensures stored == if old(stored).Some? then Some(old(stored).value.(state := Accepting,
                                                                     reason := Unspecified))
                        else None
      ensures log == old(log) + [StateStored(Accepting, Unspecified)]
                     + [StateBroadcast(contact, Accepting, Unspecified)]
    {
      SetStateAndBroadcast(contact, Accepting, Unspecified);
    }

    /** handleSessionInvited: stores an incoming, invited row, then broadcasts the
      * invitation. */
    method HandleSessionInvited(contact: ContactId, content: Content, timestamp: int)
      modifies this`stored, this`log
      ensures stored == Some(ImageRecord(contact, Incoming, content, Invited, Unspecified,
                                         timestamp, 0))
      ensures log == old(log) + [RecordAdded] + [InvitationBroadcast]
    {
      stored := Some(ImageRecord(contact, Incoming, content, Invited, Unspecified, timestamp, 0));
      log := log + [RecordAdded];
      log := log + [InvitationBroadcast];
    }

    method Handle180Ringing(contact: ContactId)
      modifies this`stored, this`log
      ensures stored == if old(stored).Some? then Some(old(stored).value.(state := Ringing,
                                                                   reason := Unspecified))
                        else None
      ensures log == old(log) + [StateStored(Ringing, Unspecified)]
                     + [StateBroadcast(contact, Ringing, Unspecified)]
    {
      SetStateAndBroadcast(contact, Ringing, Unspecified);
    }
  }

  /** Without a live session every getter reads the persisted row; with one, the reason
    * is UNSPECIFIED, the direction follows who initiated it and the state is derived
    * from the session's flags. */
  lemma GettersFollowSession(impl: ImageSharingImpl)
    ensures impl.live.None? ==>
      && impl.GetState() == (if impl.stored.Some? then Some(impl.stored.value.state) else None)
      && impl.GetReasonCode()
         == (if impl.stored.Some? then Some(impl.stored.value.reason) else None)
      && impl.GetDirection()
         == (if impl.stored.Some? then Some(impl.stored.value.direction) else None)
      && impl.GetRemoteContact()
         == (if impl.stored.Some? then Some(impl.stored.value.contact) else None)
    ensures impl.live.Some? ==>
      && impl.GetReasonCode() == Some(Unspecified)
      && (impl.GetDirection() == Some(Incoming) <==> impl.live.value.initiatedByRemote)
      && (impl.GetState() == Some(Started) <==> impl.live.value.dialogEstablished)
      && impl.GetState().value in {Started, Accepting, Invited, Initiating}
  {
  }
}
