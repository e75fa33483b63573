/** The base IMS service: an activation flag, a started flag and the cache of
  * IMS service sessions keyed by the Call-ID of their dialog path. */
module ImsServiceModel {
  import opened Common

  /** A call of abortSession on one cached session. */
  datatype Abort = Abort(session: SessionRef, reason: TerminationReason)

  /** A sequence without repeats that lists exactly the members of a set is as long as
    * the set is large. */
  lemma {:induction false} DistinctCoversCard<T>(xs: seq<T>, s: set<T>)
    requires forall i, j :: 0 <= i < j < |xs| ==> xs[i] != xs[j]
    requires forall x :: x in xs <==> x in s
    ensures |xs| == |s|
  {
    if xs != [] {
      var last := xs[|xs| - 1];
      var init := xs[..|xs| - 1];
      assert forall x :: x in init <==> x in s - {last} by {
        forall x
          ensures x in init <==> x in s - {last}
        {
          if x in init {
            var i :| 0 <= i < |init| && init[i] == x;
            assert xs[i] == x;
          }
          assert xs == init + [last];
        }
      }
      DistinctCoversCard(init, s - {last});
    }
  }

  /** The state of abortAllSessions' loop: `order` lists the Call-IDs done, without
    * repeats, and `added` the aborts made for them. */
  ghost predicate AbortLoop(order: seq<CallId>, added: seq<Abort>, remaining: set<CallId>,
                            sessions: map<CallId, SessionRef>, reason: TerminationReason)
  {
    && remaining <= sessions.Keys
    && |added| == |order|
    && (forall x :: x in order <==> x in sessions.Keys && x !in remaining)
    && (forall i :: 0 <= i < |order| ==> added[i] == Abort(sessions[order[i]], reason))
    && (forall i, j :: 0 <= i < j < |order| ==> order[i] != order[j])
  }

  lemma AbortLoopStep(order: seq<CallId>, added: seq<Abort>, remaining: set<CallId>,
                      sessions: map<CallId, SessionRef>, reason: TerminationReason, k: CallId)
    requires AbortLoop(order, added, remaining, sessions, reason) && k in remaining
    ensures AbortLoop(order + [k], added + [Abort(sessions[k], reason)], remaining - {k},
                      sessions, reason)
  {
  }

  /** `added` aborts every cached session exactly once, each with `reason`. */
  ghost predicate AbortsEachOnce(added: seq<Abort>, sessions: map<CallId, SessionRef>,
                                 reason: TerminationReason)
  {
    && |added| == |sessions|
    && (forall i :: 0 <= i < |added| ==>
          added[i].reason == reason && added[i].session.callId in sessions
          && added[i].session == sessions[added[i].session.callId])
    && (forall i, j :: 0 <= i < j < |added| ==>
          added[i].session.callId != added[j].session.callId)
    && (forall k :: k in sessions ==>
          exists i :: 0 <= i < |added| && added[i].session == sessions[k])
  }

  /** One abort per listed Call-ID, in list order, covers every cached session once. */
  lemma AbortsCoverSessions(added: seq<Abort>, order: seq<CallId>,
                            sessions: map<CallId, SessionRef>, reason: TerminationReason)
    requires forall k :: k in sessions ==> sessions[k].callId == k
    requires |added| == |order|
    requires forall x :: x in order <==> x in sessions.Keys
    requires forall i :: 0 <= i < |order| ==> added[i] == Abort(sessions[order[i]], reason)
    requires forall i, j :: 0 <= i < j < |order| ==> order[i] != order[j]
    ensures AbortsEachOnce(added, sessions, reason)
  {
    DistinctCoversCard(order, sessions.Keys);
    forall i | 0 <= i < |added|
      ensures added[i].session.callId == order[i]
    {
      assert order[i] in sessions;
    }
    forall k | k in sessions
      ensures exists i :: 0 <= i < |added| && added[i].session == sessions[k]
    {
      var j :| 0 <= j < |order| && order[j] == k;
      assert added[j].session == sessions[k];
    }
  }

  class ImsService {
    var activated: bool
    var started: bool
    /** Cache of sessions keyed by their dialog's Call-ID. */
    var sessions: map<CallId, SessionRef>
    /** The abortSession calls made on cached sessions, in order. */
    var aborts: seq<Abort>
    /** The error responses that reached the SIP stack, in order. */
    var errorResponses: seq<int>

    /** Every cached session is stored under its own Call-ID. */
    ghost predicate Valid()
      reads this
    {
      forall k :: k in sessions ==> sessions[k].callId == k
    }

    /** A service is created with the given activation flag, not started, with no session. */
    constructor (activated: bool)
      ensures Valid()
      ensures this.activated == activated && !started
      ensures sessions == map[] && aborts == [] && errorResponses == []
    {
      this.activated := activated;
      started := false;
      sessions := map[];
      aborts := [];
      errorResponses := [];
    }

    /** Changes the activation flag and nothing else. */
    method SetActivated(activated: bool)
      modifies this`activated
      ensures this.activated == activated
    {
      this.activated := activated;
    }

    /** Changes the started flag and nothing else. */
    method SetServiceStarted(state: bool)
      modifies this`started
      ensures started == state
    {
      started := state;
    }

    /** Caches the session under its Call-ID, replacing any session cached there before. */
    method AddImsServiceSession(s: SessionRef)
      requires Valid()
      modifies this`sessions
      ensures Valid()
      ensures sessions == old(sessions)[s.callId := s]
      ensures s.callId in sessions && sessions[s.callId] == s
      ensures forall k :: k != s.callId ==> (k in sessions <==> k in old(sessions))
    {
      sessions := sessions[s.callId := s];
    }

    /** Removes the entry under the session's Call-ID; other entries are unchanged. */
    method RemoveImsServiceSession(s: SessionRef)
      requires Valid()
      modifies this`sessions
      ensures Valid()
      ensures sessions == old(sessions) - {s.callId}
      ensures s.callId !in sessions
      ensures forall k :: k in sessions ==> k in old(sessions) && sessions[k] == old(sessions)[k]
    {
      sessions := sessions - {s.callId};
    }

    /** The session cached under a Call-ID, if any. */
    function GetImsServiceSession(callId: CallId): (r: Option<SessionRef>)
      reads this
      ensures r.Some? <==> callId in sessions
      ensures r.Some? ==> r.value == sessions[callId]
    {
      if callId in sessions then Some(sessions[callId]) else None
    }

    /** Calls abortSession(reason) exactly once on every cached session, in an
      * unspecified order (the iteration order of the map's values). */
    method AbortAllSessions(reason: TerminationReason)
      requires Valid()
      modifies this`aborts
      ensures |old(aborts)| <= |aborts| && aborts[..|old(aborts)|] == old(aborts)
      ensures AbortsEachOnce(aborts[|old(aborts)|..], sessions, reason)
    {
      var remaining := sessions.Keys;
      ghost var order: seq<CallId> := [];
      ghost var added: seq<Abort> := [];
      while remaining != {}
        invariant aborts == old(aborts) + added
        invariant AbortLoop(order, added, remaining, sessions, reason)
        decreases remaining
      {
        var k :| k in remaining;
        AbortLoopStep(order, added, remaining, sessions, reason, k);
        aborts := aborts + [Abort(sessions[k], reason)];
        added := added + [Abort(sessions[k], reason)];
        order := order + [k];
        remaining := remaining - {k};
      }
      AbortsCoverSessions(added, order, sessions, reason);
      assert aborts[|old(aborts)|..] == added;
    }

    /** Sends an error response to an invitation. A failure to build or send the
      * response (`fails`) is swallowed: the method always returns normally and only
      * a response that was sent is recorded. */
    method SendErrorResponse(code: int, fails: bool)
      modifies this`errorResponses
      ensures errorResponses == old(errorResponses) + (if fails then [] else [code])
    {
      if !fails {
        errorResponses := errorResponses + [code];
      }
    }
  }
}
