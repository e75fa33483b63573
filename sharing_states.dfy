/** What the content-sharing API objects (image and geolocation sharing) report to
  * applications: states and reason codes, the state derived from a live session, and
  * the record of what they persisted and broadcast. */
module SharingStates {
  import opened Common

  datatype State =
    | Invited | Initiating | Ringing | Accepting | Started
    | Aborted | Failed | Rejected | Transferred

  datatype ReasonCode =
    | Unspecified
    | AbortedByUser | AbortedByRemote | AbortedBySystem
    | RejectedByUser | RejectedByRemote | RejectedByInactivity | RejectedLowSpace | RejectedMaxSize
    | FailedInitiation | FailedSharing | FailedSaving

  datatype Direction = Incoming | Outgoing

  datatype StateAndReason = StateAndReason(state: State, reason: ReasonCode)

  /** A reason code belongs to its state: an aborted, rejected or failed sharing gives
    * a reason of its own kind, any other state none. */
  predicate ReasonFits(sr: StateAndReason)
  {
    match sr.state
    case Aborted => sr.reason in {AbortedByUser, AbortedByRemote, AbortedBySystem}
    case Rejected =>
      sr.reason in {RejectedByUser, RejectedByRemote, RejectedByInactivity, RejectedLowSpace,
                    RejectedMaxSize}
    case Failed => sr.reason in {FailedInitiation, FailedSharing, FailedSaving}
    case _ => sr.reason == Unspecified
  }

  /** What an API object did, in order. */
  datatype ApiEvent =
    | SharingRemoved                        // removed from its sharing service
    | StateStored(state: State, reason: ReasonCode) // persisted state and reason
    | StateBroadcast(contact: ContactId, state: State, reason: ReasonCode)
    | ProgressStored(current: int)
    | ProgressBroadcast(contact: ContactId, current: int, total: int)
    | RecordAdded                           // a new row was stored
    | InvitationBroadcast
    | HistoryMarkedTransferred              // the rich-call history marked it transferred

  /** What an accept, reject or abort request does: throws IllegalStateException, does
    * nothing, or asks the session (on a thread of its own) to accept, reject with a SIP
    * status, or abort. */
  datatype ApiCall =
    | IllegalState
    | NoCall
    | AcceptSession
    | RejectSession(status: int)
    | AbortSession(reason: TerminationReason)

  /** getState of a live session: started once its dialog is established; before that
    * an incoming sharing is accepting or invited depending on whether the user
    * accepted it, and an outgoing one is initiating. */
  function LiveState(established: bool, initiatedByRemote: bool, accepted: bool): (s: State)
    ensures s in {Started, Accepting, Invited, Initiating}
  {
    if established then Started
    else if initiatedByRemote then (if accepted then Accepting else Invited)
    else Initiating
  }

  /** Each live state identifies the session flags that give it. */
  lemma LiveStateCases(established: bool, initiatedByRemote: bool, accepted: bool)
    ensures var s := LiveState(established, initiatedByRemote, accepted);
      && (s == Started <==> established)
      && (s == Accepting <==> !established && initiatedByRemote && accepted)
      && (s == Invited <==> !established && initiatedByRemote && !accepted)
      && (s == Initiating <==> !established && !initiatedByRemote)
  {
  }

  /** handleSessionAborted's mapping of a termination reason; None where it throws
    * IllegalArgumentException (termination by the remote side or by inactivity). */
  function AbortedStateAndReason(reason: TerminationReason): (r: Option<StateAndReason>)
    ensures r.None? <==> reason == TerminationByRemote || reason == TerminationByInactivity
    ensures r.Some? ==> ReasonFits(r.value) && r.value.state in {Aborted, Failed}
  {
    match reason
    case TerminationBySystem => Some(StateAndReason(Aborted, AbortedBySystem))
    case TerminationByTimeout => Some(StateAndReason(Aborted, AbortedBySystem))
    case TerminationByConnectionLost => Some(StateAndReason(Failed, FailedSharing))
    case TerminationByUser => Some(StateAndReason(Aborted, AbortedByUser))
    case _ => None
  }

  /** Only a lost connection turns an abort into a failure, and only the user's own
    * abort is reported as such. */
  lemma AbortedMappingCases(reason: TerminationReason)
    requires AbortedStateAndReason(reason).Some?
    ensures AbortedStateAndReason(reason).value.state == Failed
            <==> reason == TerminationByConnectionLost
    ensures AbortedStateAndReason(reason).value.reason == AbortedByUser
            <==> reason == TerminationByUser
  {
  }
}
