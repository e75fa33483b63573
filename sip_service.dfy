/** The generic SIP service: two independent caches (MSRP and RTP sessions, both
  * keyed by session id) and the sending of a stand-alone SIP MESSAGE with one
  * retry after a proxy-authentication challenge (section 22.3 of RFC 3261). */
module SipServiceModel {
  import opened Common
  import opened ImsServiceModel

  /** The MIME type of multimedia-service content. */
  const MIME_TYPE: string := "application/*"

  /** What one sendSipMessageAndWait gives back: a final status, or an exception. */
  datatype SendOutcome = Response(status: int) | Failure

  /** A MESSAGE request as sent: its CSeq number and whether it carries Proxy-Authorization. */
  datatype MessageRequest = MessageRequest(cseq: int, authorized: bool)

  /** A transaction succeeded: 200 OK or 202 Accepted. */
  predicate IsSuccess(o: SendOutcome)
  {
    o.Response? && (o.status == OK || o.status == ACCEPTED)
  }

  class SipService {
    const ims: ImsService
    var msrpSessions: map<string, SessionRef>
    var rtpSessions: map<string, SessionRef>

    ghost predicate Valid()
      reads this, ims
    {
      && ims.Valid()
      && (forall id :: id in msrpSessions ==> msrpSessions[id].sessionId == id)
      && (forall id :: id in rtpSessions ==> rtpSessions[id].sessionId == id)
    }

    constructor (ims: ImsService)
      requires ims.Valid()
      ensures Valid() && this.ims == ims
      ensures msrpSessions == map[] && rtpSessions == map[]
    {
      this.ims := ims;
      msrpSessions := map[];
      rtpSessions := map[];
    }

    /** Sets the started flag; starting a started service changes nothing. */
    method Start()
      modifies ims`started
      ensures ims.started
    {
      if ims.started {
        return;
      }
      ims.SetServiceStarted(true);
    }

    /** Clears the started flag; stopping a stopped service changes nothing. */
    method Stop()
      modifies ims`started
      ensures !ims.started
    {
      if !ims.started {
        return;
      }
      ims.SetServiceStarted(false);
    }

    /** Caches an MSRP session; the RTP cache is not touched. */
    method AddMsrpSession(s: SessionRef)
      requires Valid()
      modifies this`msrpSessions, ims`sessions
      ensures Valid()
      ensures msrpSessions == old(msrpSessions)[s.sessionId := s]
      ensures ims.sessions == old(ims.sessions)[s.callId := s]
    {
      msrpSessions := msrpSessions[s.sessionId := s];
      ims.AddImsServiceSession(s);
    }

    /** Removes an MSRP session; the RTP cache is not touched. */
    method RemoveMsrpSession(s: SessionRef)
      requires Valid()
      modifies this`msrpSessions, ims`sessions
      ensures Valid()
      ensures msrpSessions == old(msrpSessions) - {s.sessionId}
      ensures ims.sessions == old(ims.sessions) - {s.callId}
    {
      msrpSessions := msrpSessions - {s.sessionId};
      ims.RemoveImsServiceSession(s);
    }

    /** Caches an RTP session; the MSRP cache is not touched. */
    method AddRtpSession(s: SessionRef)
      requires Valid()
      modifies this`rtpSessions, ims`sessions
      ensures Valid()
      ensures rtpSessions == old(rtpSessions)[s.sessionId := s]
      ensures ims.sessions == old(ims.sessions)[s.callId := s]
    {
      rtpSessions := rtpSessions[s.sessionId := s];
      ims.AddImsServiceSession(s);
    }

    /** Removes an RTP session; the MSRP cache is not touched. */
    method RemoveRtpSession(s: SessionRef)
      requires Valid()
      modifies this`rtpSessions, ims`sessions
      ensures Valid()
      ensures rtpSessions == old(rtpSessions) - {s.sessionId}
      ensures ims.sessions == old(ims.sessions) - {s.callId}
    {
      rtpSessions := rtpSessions - {s.sessionId};
      ims.RemoveImsServiceSession(s);
    }

    function GetGenericSipMsrpSession(sessionId: string): (r: Option<SessionRef>)
      reads this
      ensures r.Some? <==> sessionId in msrpSessions
      ensures r.Some? ==> r.value == msrpSessions[sessionId]
    {
      if sessionId in msrpSessions then Some(msrpSessions[sessionId]) else None
    }

    function GetGenericSipRtpSession(sessionId: string): (r: Option<SessionRef>)
      reads this
      ensures r.Some? <==> sessionId in rtpSessions
      ensures r.Some? ==> r.value == rtpSessions[sessionId]
    {
      if sessionId in rtpSessions then Some(rtpSessions[sessionId]) else None
    }

    /** Sends a MESSAGE on a new dialog path (CSeq 1). On 407 the CSeq is incremented
      * and one authorised MESSAGE is sent; the result is whether the last transaction
      * ended in 200 or 202. An exception on either send yields false. */
    method SendInstantMessage(first: SendOutcome, retry: SendOutcome)
      returns (result: bool, sent: seq<MessageRequest>)
      ensures |sent| >= 1 && sent[0] == MessageRequest(1, false)
      ensures first == Response(PROXY_AUTHENTICATION_REQUIRED) ==>
                |sent| == 2 && sent[1] == MessageRequest(sent[0].cseq + 1, true)
      ensures first != Response(PROXY_AUTHENTICATION_REQUIRED) ==> |sent| == 1
      ensures result <==>
                if first == Response(PROXY_AUTHENTICATION_REQUIRED) then IsSuccess(retry) else IsSuccess(first)
      ensures first.Failure? ==> !result
    {
      var cseq := 1;
      sent := [MessageRequest(cseq, false)];
      result := false;
      var ctx := first;
      if ctx.Failure? {
        return;
      }
      if ctx.status == PROXY_AUTHENTICATION_REQUIRED {
        cseq := cseq + 1;
        sent := sent + [MessageRequest(cseq, true)];
        ctx := retry;
        if ctx.Failure? {
          return;
        }
        if ctx.status == OK || ctx.status == ACCEPTED {
          result := true;
        }
      } else if ctx.status == OK || ctx.status == ACCEPTED {
        result := true;
      }
    }
  }
}
