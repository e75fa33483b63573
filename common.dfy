/** Types shared by the IMS service layer: optional values, session references,
  * termination reasons, SIP status codes (RFC 3261) and ordering on event traces. */
module Common {

  datatype Option<T> = None | Some(value: T)

  /** The Call-ID of a SIP dialog (section 8.1.1.4 of RFC 3261). */
  type CallId = string

  /** A normalised remote contact (a phone number or SIP user part). */
  type ContactId = string

  /** An IMS service session, reduced to the identifiers the registries key it by. */
  datatype SessionRef = SessionRef(
    callId: CallId,              // Call-ID of the session's dialog path
    sessionId: string,           // service-level id: chat id, transfer id, upload id or session id
    contact: ContactId,          // remote contact
    initiatedByRemote: bool,     // terminating (true) or originating (false) session
    hasDialogPath: bool,         // false for HTTP file transfers, which have no SIP dialog
    subscriberCallId: Option<CallId>) // dialog of the conference-event subscriber (group chats)

  /** Reasons given to abortSession and to the termination listeners. */
  datatype TerminationReason =
    | TerminationByUser
    | TerminationBySystem
    | TerminationByTimeout
    | TerminationByRemote
    | TerminationByConnectionLost
    | TerminationByInactivity

  /** The outcome of waiting for the user's answer to an incoming invitation. */
  datatype InvitationStatus =
    | InvitationNotAnswered
    | InvitationAccepted
    | InvitationRejected
    | InvitationRejectedBySystem
    | InvitationCanceled
    | InvitationTimeout
    | InvitationDeleted

  // SIP response codes used by the services (RFC 3261, section 21)
  const RINGING: int := 180
  const OK: int := 200
  const ACCEPTED: int := 202
  const FORBIDDEN: int := 403
  const PROXY_AUTHENTICATION_REQUIRED: int := 407
  const UNSUPPORTED_MEDIA_TYPE: int := 415
  const BUSY_HERE: int := 486
  const DECLINE: int := 603

  /** Event `a` is recorded at some position before event `b` in trace `t`. */
  predicate Precedes<E(==)>(t: seq<E>, a: E, b: E)
  {
    exists i, j :: 0 <= i < j < |t| && t[i] == a && t[j] == b
  }

  /** Exhibits the positions of two events to conclude that the first precedes the second. */
  lemma PrecedesAt<E>(t: seq<E>, i: nat, j: nat)
    requires i < j < |t|
    ensures Precedes(t, t[i], t[j])
  {
  }

  /** Concatenation regrouped. */
  lemma Assoc<T>(a: seq<T>, b: seq<T>, c: seq<T>)
    ensures a + b + c == a + (b + c)
  {
  }

  /** Event `a` is recorded before event `b`, both at or after position `n` of `t`:
    * the order of two events within the part of a trace that one operation added. */
  predicate PrecedesFrom<E(==)>(t: seq<E>, n: nat, a: E, b: E)
  {
    exists i, j :: n <= i < j < |t| && t[i] == a && t[j] == b
  }

  lemma PrecedesFromAt<E>(t: seq<E>, n: nat, i: nat, j: nat)
    requires n <= i < j < |t|
    ensures PrecedesFrom(t, n, t[i], t[j])
  {
  }

  /** Event `e` does not occur at or after position `n` of `t`. */
  predicate AbsentFrom<E(==)>(t: seq<E>, n: nat, e: E)
  {
    forall i :: n <= i < |t| ==> t[i] != e
  }

  /** `t` starts with `h`: what was recorded before is kept. */
  predicate Extends<E(==)>(t: seq<E>, h: seq<E>)
  {
    |h| <= |t| && t[..|h|] == h
  }
}
