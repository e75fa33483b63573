/** The IP call service: a cache of calls keyed by session id, a ceiling read once
  * at construction, and the admission of incoming calls (one call at a time). */
module IPCallServiceModel {
  import opened Common
  import opened ImsServiceModel

  /** What receiving a call invitation does, in order. */
  datatype IpCallEvent =
    | IpCallRejectedMaxSessions       // the listener is told the call was rejected
    | IpCallErrorResponse(code: int)
    | IpCallInvitationNotified
    | IpCallSessionStarted

  /** The outcome of an admission: the events, and whether a contact-format
    * exception escaped to the caller. */
  datatype IpCallAdmission = IpCallAdmission(events: seq<IpCallEvent>, thrown: bool)

  class IPCallService {
    const ims: ImsService
    /** The ceiling on concurrent calls, read from the settings once, at construction. */
    const maxSessions: nat
    /** Calls keyed by session id. */
    var calls: map<string, SessionRef>

    ghost predicate Valid()
      reads this, ims
    {
      ims.Valid() && forall id :: id in calls ==> calls[id].sessionId == id
    }

    constructor (ims: ImsService, settingsMaxSessions: nat)
      requires ims.Valid()
      ensures Valid() && this.ims == ims
      ensures maxSessions == settingsMaxSessions && calls == map[]
    {
      this.ims := ims;
      maxSessions := settingsMaxSessions;
      calls := map[];
    }

    /** Sets the started flag; starting a started service changes nothing. */
    method Start()
      modifies ims`started
      ensures ims.started
    {
      if ims.started {
        return;
      }
      ims.SetServiceStarted(true);
    }

    /** Clears the started flag; stopping a stopped service changes nothing. */
    method Stop()
      modifies ims`started
      ensures !ims.started
    {
      if !ims.started {
        return;
      }
      ims.SetServiceStarted(false);
    }

    /** Caches a call under its session id (overwriting) and under its Call-ID. */
    method AddSession(s: SessionRef)
      requires Valid()
      modifies this`calls, ims`sessions
      ensures Valid()
      ensures calls == old(calls)[s.sessionId := s]
      ensures ims.sessions == old(ims.sessions)[s.callId := s]
    {
      calls := calls[s.sessionId := s];
      ims.AddImsServiceSession(s);
    }

    /** Removes the call under the session's id only. */
    method RemoveSession(s: SessionRef)
      requires Valid()
      modifies this`calls, ims`sessions
      ensures Valid()
      ensures calls == old(calls) - {s.sessionId}
      ensures forall id :: id != s.sessionId ==> (id in calls <==> id in old(calls))
      ensures ims.sessions == old(ims.sessions) - {s.callId}
    {
      calls := calls - {s.sessionId};
      ims.RemoveImsServiceSession(s);
    }

    /** The call cached under a session id, if any; it carries that id. */
    function GetIPCallSession(sessionId: string): (r: Option<SessionRef>)
      requires Valid()
      reads this, ims
      ensures r.Some? <==> sessionId in calls
      ensures r.Some? ==> r.value == calls[sessionId] && r.value.sessionId == sessionId
    {
      if sessionId in calls then Some(calls[sessionId]) else None
    }

    /** Throws exactly when a ceiling is set and the cache has reached it. */
    function AssertAvailableIpCallSession(): (thrown: bool)
      reads this
      ensures thrown <==> maxSessions != 0 && |calls| >= maxSessions
      ensures maxSessions == 0 ==> !thrown
    {
      maxSessions != 0 && |calls| >= maxSessions
    }

    /** A call is in progress: the cache holds at least one (unidirectional) session. */
    predicate IsCurrentSharingUnidirectional()
      reads this
    {
      |calls| >= 1
    }

    /** An incoming call. While any call exists it is rejected (listener told, then 486);
      * the listener call parses the identity itself, so an identity that does not parse
      * throws out of this path before 486 is sent. With no call in progress, an
      * unparseable identity gets 486 alone; otherwise the call is notified and started. */
    function ReceiveIPCallInvitation(remote: Option<ContactId>): (r: IpCallAdmission)
      reads this
      ensures IsCurrentSharingUnidirectional() && remote.Some? ==>
                r == IpCallAdmission([IpCallRejectedMaxSessions, IpCallErrorResponse(BUSY_HERE)], false)
      ensures IsCurrentSharingUnidirectional() && remote.None? ==> r.thrown && r.events == []
      ensures !IsCurrentSharingUnidirectional() && remote.None? ==>
                r == IpCallAdmission([IpCallErrorResponse(BUSY_HERE)], false)
      ensures IpCallSessionStarted in r.events <==> |calls| == 0 && remote.Some?
      ensures IpCallRejectedMaxSessions in r.events ==> |calls| >= 1
    {
      if IsCurrentSharingUnidirectional() then
        if remote.None? then IpCallAdmission([], true)
        else IpCallAdmission([IpCallRejectedMaxSessions, IpCallErrorResponse(BUSY_HERE)], false)
      else if remote.None? then
        IpCallAdmission([IpCallErrorResponse(BUSY_HERE)], false)
      else
        IpCallAdmission([IpCallInvitationNotified, IpCallSessionStarted], false)
    }

    /** The admission the busy path evidently intends: 486 whatever the identity. */
    function ReceiveIPCallInvitationIntended(remote: Option<ContactId>): (r: IpCallAdmission)
      reads this
      ensures !r.thrown
      ensures r.events != [] && r.events[|r.events| - 1] == IpCallErrorResponse(BUSY_HERE) <==>
                !(|calls| == 0 && remote.Some?)
      ensures IpCallSessionStarted in r.events <==> |calls| == 0 && remote.Some?
      ensures remote.Some? ==> r == ReceiveIPCallInvitation(remote)
    {
      if IsCurrentSharingUnidirectional() then
        if remote.None? then IpCallAdmission([IpCallErrorResponse(BUSY_HERE)], false)
        else IpCallAdmission([IpCallRejectedMaxSessions, IpCallErrorResponse(BUSY_HERE)], false)
      else if remote.None? then
        IpCallAdmission([IpCallErrorResponse(BUSY_HERE)], false)
      else
        IpCallAdmission([IpCallInvitationNotified, IpCallSessionStarted], false)
    }

    /** Aborts every cached IMS session with TERMINATION_BY_SYSTEM. */
    method AbortAllSessions()
      requires Valid()
      modifies ims`aborts
      ensures |ims.aborts| == |old(ims.aborts)| + |ims.sessions|
      ensures ims.aborts[..|old(ims.aborts)|] == old(ims.aborts)
      ensures forall i :: |old(ims.aborts)| <= i < |ims.aborts| ==>
                ims.aborts[i].reason == TerminationBySystem
      ensures AbortsEachOnce(ims.aborts[|old(ims.aborts)|..], ims.sessions, TerminationBySystem)
    {
      ims.AbortAllSessions(TerminationBySystem);
    }

    /** A call is connected exactly when the cache is not empty. */
    function IsCallConnected(): (b: bool)
      reads this
      ensures b <==> calls != map[]
    {
      |calls| > 0
    }

    /** Looks through the cached calls for one with the given remote contact. */
    method IsCallConnectedWith(contact: ContactId) returns (b: bool)
      ensures b <==> exists id :: id in calls && calls[id].contact == contact
    {
      var remaining := calls.Keys;
      while remaining != {}
        invariant remaining <= calls.Keys
        invariant forall id :: id in calls && id !in remaining ==> calls[id].contact != contact
        decreases remaining
      {
        var id :| id in remaining;
        if calls[id].contact == contact {
          return true;
        }
        remaining := remaining - {id};
      }
      return false;
    }
  }

  /** With a call in progress and an identity that does not parse, the code as
    * written sends no response at all, where 486 is evidently intended. */
  lemma BusyWithUnparseableIdentitySendsNothing(svc: IPCallService)
    requires |svc.calls| >= 1
    ensures svc.ReceiveIPCallInvitation(None).events == []
    ensures svc.ReceiveIPCallInvitation(None).thrown
    ensures svc.ReceiveIPCallInvitationIntended(None).events == [IpCallErrorResponse(BUSY_HERE)]
  {
  }
}
