/** The instant messaging service: seven session caches, capacity questions
  * answered against configured ceilings (0 means "no limit"), and the admission
  * paths that an incoming chat, file-transfer or store-and-forward invitation
  * goes through before a session is created. */
module InstantMessagingServiceModel {
  import opened Common
  import opened ImsServiceModel

  /** The settings the service reads each time it needs them. */
  datatype ImSettings = ImSettings(
    maxChatSessions: nat,
    maxFileTransferSessions: nat,
    maxConcurrentOutgoingFileTransferSessions: nat,
    maxFileTransferSize: int,
    msgCapValidityPeriod: int)

  /** The outcome of an assert* check: it passes or throws a CoreException. */
  datatype Check = Passed | CoreException

  /** Reason codes given to the file-transfer rejection listener. */
  datatype FtReasonCode = RejectedSpam | RejectedMaxFileTransfers | RejectedMaxSize | RejectedLowSpace

  /** Reason codes given to the group-chat rejection listener. */
  datatype GcReasonCode = GcRejectedSpam | GcRejectedMaxChats

  /** The error FileSharingSession.isFileCapacityAcceptable may return. */
  datatype FileSharingError = MediaSizeTooBig | NotEnoughStorageSpace | OtherFileSharingError(code: int)

  /** The kinds of session an invitation can create. */
  datatype SessionKind =
    | OneToOneChat | AdhocGroupChat | MsrpFileTransfer | HttpFileTransfer | StoreAndForwardChat

  /** What an admission path does, in order: responses, listener calls, stores. */
  datatype ImEvent =
    | ErrorResponse(code: int)
    | FileTransferRejected(ftReason: FtReasonCode)
    | GroupChatRejected(gcReason: GcReasonCode)
    | SpamMessageSaved(spamId: string)
    | IncomingMessageSaved(savedId: string)
    | DeliveredReportSent(reportedId: string)
    | InvitationNotified(notified: SessionKind)
    | SessionStarted(started: SessionKind)
    | NextInvitationAccepted(chatId: string)
    | StoredMessagesReceived
    | StoredNotificationsReceived
    | ChatSessionError(error: FileSharingError)

  /** What the paths receiving a conference NOTIFY or a delivery report do, in order. */
  datatype StatusEvent =
    | OkSent
    | FileDeliveryNotified(fileContact: ContactId, fileMsgId: string)
    | ChatSessionDeliveryNotified(chat: SessionRef, chatContact: ContactId, chatMsgId: string)
    | MessageDeliveryNotified(msgContact: ContactId, msgId: string)
    | ConferenceNotificationForwarded(subscriber: SessionRef)

  /** What an admission path did, in order, and whether it ended by throwing. */
  datatype ImAdmission = ImAdmission(events: seq<ImEvent>, thrown: bool)

  /** The parts of an incoming INVITE the admission paths look at. */
  datatype Invitation = Invitation(
    remote: Option<ContactId>,    // the identity as a contact; None when it does not parse
    firstMessageId: Option<string>, // id of the first message carried by the INVITE
    deliveredRequested: bool,     // a positive-delivery IMDN is requested
    messageId: Option<string>,    // the imdn.Message-ID header value
    contributionId: string)       // the chat id of a group chat

  // ---------------------------------------------------------------------------
  // Capacity questions

  /** A chat can be started when there is no ceiling or the 1-1 and group chats are below it. */
  predicate ChatAvailable(maxChat: nat, oneToOneCount: nat, groupCount: nat)
  {
    maxChat == 0 || oneToOneCount + groupCount < maxChat
  }

  /** A transfer can be started when there is no ceiling or transfers and uploads are below it. */
  predicate FileTransferAvailable(maxFt: nat, transferCount: nat, uploadCount: nat)
  {
    maxFt == 0 || transferCount + uploadCount < maxFt
  }

  /** The transfers in a cache that this side originated. */
  function OutgoingTransfers(fts: map<string, SessionRef>): set<string>
  {
    set k | k in fts && !fts[k].initiatedByRemote
  }

  /** A file of this size is refused: a positive ceiling exists and the size is above it. */
  function IsFileSizeExceeded(settings: ImSettings, size: int): (b: bool)
    ensures b <==> settings.maxFileTransferSize > 0 && size > settings.maxFileTransferSize
    ensures settings.maxFileTransferSize <= 0 ==> !b
    ensures b ==> size > 0
  {
    if settings.maxFileTransferSize > 0 && size > settings.maxFileTransferSize then true else false
  }

  /** The size check that throws: it throws exactly when IsFileSizeExceeded holds. */
  function AssertFileSizeNotExceedingMaxLimit(settings: ImSettings, size: int): (c: Check)
    ensures c == CoreException <==> IsFileSizeExceeded(settings, size)
  {
    if settings.maxFileTransferSize > 0 && size > settings.maxFileTransferSize then CoreException
    else Passed
  }

  /** Capabilities refreshed at `lastRefresh` are still valid at `now`. */
  function IsCapabilitiesValid(settings: ImSettings, now: int, lastRefresh: int): (b: bool)
    ensures b <==> now <= lastRefresh + settings.msgCapValidityPeriod
  {
    if now > lastRefresh + settings.msgCapValidityPeriod then false else true
  }

  /** Once the ceiling is reached, adding a further entry to any cache keeps it reached. */
  lemma {:induction false} ChatCeilingStaysReached<K, V>(maxChat: nat, a: map<K, V>, b: map<K, V>, k: K, v: V)
    requires !ChatAvailable(maxChat, |a|, |b|)
    ensures !ChatAvailable(maxChat, |a[k := v]|, |b|)
    ensures !ChatAvailable(maxChat, |a|, |b[k := v]|)
  {
    MapUpdateNoSmaller(a, k, v);
    MapUpdateNoSmaller(b, k, v);
  }

  /** Storing under a key never shrinks a map; it grows by one exactly when the key is new. */
  lemma {:induction false} MapUpdateNoSmaller<K, V>(m: map<K, V>, k: K, v: V)
    ensures |m[k := v]| == if k in m then |m| else |m| + 1
  {
    if k in m {
      assert m[k := v].Keys == m.Keys;
    } else {
      assert m[k := v].Keys == m.Keys + {k};
    }
  }

  // ---------------------------------------------------------------------------
  // The service and its caches

  /** The state of the IMDN manager the service owns. */
  datatype ImdnManagerState = ImdnNotCreated | ImdnRunning | ImdnTerminated

  class InstantMessagingService {
    /** The base service: started flag and Call-ID cache. */
    const ims: ImsService
    var oneToOne: map<ContactId, SessionRef>
    var storeAndForwardMsg: map<ContactId, SessionRef>
    var storeAndForwardNotif: map<ContactId, SessionRef>
    var groupChat: map<string, SessionRef>
    var fileTransfer: map<string, SessionRef>
    var upload: map<string, SessionRef>
    var conferenceSubscriber: map<CallId, SessionRef>
    /** HTTP transfers, which the base service tracks without a dialog path. */
    var withoutDialogPath: set<SessionRef>
    var imdnManager: ImdnManagerState
    /** Number of requests made to the core listener to start the IM service tasks. */
    var serviceTaskRequests: nat

    /** Every cache stores a session under the key the session itself carries. */
    ghost predicate Valid()
      reads this, ims
    {
      && ims.Valid()
      && (forall c :: c in oneToOne ==> oneToOne[c].contact == c)
      && (forall c :: c in storeAndForwardMsg ==> storeAndForwardMsg[c].contact == c)
      && (forall c :: c in storeAndForwardNotif ==> storeAndForwardNotif[c].contact == c)
      && (forall id :: id in groupChat ==> groupChat[id].sessionId == id)
      && (forall id :: id in fileTransfer ==> fileTransfer[id].sessionId == id)
      && (forall id :: id in upload ==> upload[id].sessionId == id)
    }

    constructor (ims: ImsService)
      requires ims.Valid()
      ensures Valid() && this.ims == ims
      ensures oneToOne == map[] && storeAndForwardMsg == map[] && storeAndForwardNotif == map[]
      ensures groupChat == map[] && fileTransfer == map[] && upload == map[]
      ensures conferenceSubscriber == map[] && withoutDialogPath == {}
      ensures imdnManager == ImdnNotCreated && serviceTaskRequests == 0
    {
      this.ims := ims;
      oneToOne := map[];
      storeAndForwardMsg := map[];
      storeAndForwardNotif := map[];
      groupChat := map[];
      fileTransfer := map[];
      upload := map[];
      conferenceSubscriber := map[];
      withoutDialogPath := {};
      imdnManager := ImdnNotCreated;
      serviceTaskRequests := 0;
    }

    /** Starts the service once: a second start while started changes nothing. */
    method Start()
      modifies ims`started, this`imdnManager, this`serviceTaskRequests
      ensures ims.started
      ensures old(ims.started) ==>
                imdnManager == old(imdnManager) && serviceTaskRequests == old(serviceTaskRequests)
      ensures !old(ims.started) ==>
                imdnManager == ImdnRunning && serviceTaskRequests == old(serviceTaskRequests) + 1
    {
      if ims.started {
        return;
      }
      ims.SetServiceStarted(true);
      imdnManager := ImdnRunning;
      serviceTaskRequests := serviceTaskRequests + 1;
    }

    /** Stops the service once: a stop while stopped changes nothing. */
    method Stop()
      modifies ims`started, this`imdnManager
      ensures !old(ims.started) ==> !ims.started && imdnManager == old(imdnManager)
      ensures old(ims.started) ==> !ims.started && imdnManager == ImdnTerminated
    {
      if !ims.started {
        return;
      }
      ims.SetServiceStarted(false);
      imdnManager := ImdnTerminated;
    }

    /** Caches a 1-1 chat under its contact (overwriting) and under its Call-ID. */
    method AddOneToOneChatSession(s: SessionRef)
      requires Valid()
      modifies this`oneToOne, ims`sessions
      ensures Valid()
      ensures oneToOne == old(oneToOne)[s.contact := s]
      ensures ims.sessions == old(ims.sessions)[s.callId := s]
    {
      oneToOne := oneToOne[s.contact := s];
      ims.AddImsServiceSession(s);
    }

    /** Removes the 1-1 chat entry of the session's contact and its Call-ID entry. */
    method RemoveOneToOneChatSession(s: SessionRef)
      requires Valid()
      modifies this`oneToOne, ims`sessions
      ensures Valid()
      ensures oneToOne == old(oneToOne) - {s.contact}
      ensures ims.sessions == old(ims.sessions) - {s.callId}
    {
      oneToOne := oneToOne - {s.contact};
      ims.RemoveImsServiceSession(s);
    }

    /** Caches a store-and-forward message session under its contact and its Call-ID. */
    method AddStoreAndForwardMsgSession(s: SessionRef)
      requires Valid()
      modifies this`storeAndForwardMsg, ims`sessions
      ensures Valid()
      ensures storeAndForwardMsg == old(storeAndForwardMsg)[s.contact := s]
      ensures ims.sessions == old(ims.sessions)[s.callId := s]
    {
      storeAndForwardMsg := storeAndForwardMsg[s.contact := s];
      ims.AddImsServiceSession(s);
    }

    method RemoveStoreAndForwardMsgSession(s: SessionRef)
      requires Valid()
      modifies this`storeAndForwardMsg, ims`sessions
      ensures Valid()
      ensures storeAndForwardMsg == old(storeAndForwardMsg) - {s.contact}
      ensures ims.sessions == old(ims.sessions) - {s.callId}
    {
      storeAndForwardMsg := storeAndForwardMsg - {s.contact};
      ims.RemoveImsServiceSession(s);
    }

    /** Caches a store-and-forward notification session under its contact and its Call-ID. */
    method AddStoreAndForwardNotifSession(s: SessionRef)
      requires Valid()
      modifies this`storeAndForwardNotif, ims`sessions
      ensures Valid()
      ensures storeAndForwardNotif == old(storeAndForwardNotif)[s.contact := s]
      ensures ims.sessions == old(ims.sessions)[s.callId := s]
    {
      storeAndForwardNotif := storeAndForwardNotif[s.contact := s];
      ims.AddImsServiceSession(s);
    }

    method RemoveStoreAndForwardNotifSession(s: SessionRef)
      requires Valid()
      modifies this`storeAndForwardNotif, ims`sessions
      ensures Valid()
      ensures storeAndForwardNotif == old(storeAndForwardNotif) - {s.contact}
      ensures ims.sessions == old(ims.sessions) - {s.callId}
    {
      storeAndForwardNotif := storeAndForwardNotif - {s.contact};
      ims.RemoveImsServiceSession(s);
    }

    /** Caches a group chat under its chat id and its Call-ID. */
    method AddGroupChatSession(s: SessionRef)
      requires Valid()
      modifies this`groupChat, ims`sessions
      ensures Valid()
      ensures groupChat == old(groupChat)[s.sessionId := s]
      ensures ims.sessions == old(ims.sessions)[s.callId := s]
    {
      groupChat := groupChat[s.sessionId := s];
      ims.AddImsServiceSession(s);
    }

    /** Removes a group chat; when its conference-event subscriber has a dialog,
      * the subscriber entry under that dialog's Call-ID goes too. */
    method RemoveGroupChatSession(s: SessionRef)
      requires Valid()
      modifies this`groupChat, this`conferenceSubscriber, ims`sessions
      ensures Valid()
      ensures conferenceSubscriber ==
                if s.subscriberCallId.Some? then old(conferenceSubscriber) - {s.subscriberCallId.value}
                else old(conferenceSubscriber)
      ensures groupChat == old(groupChat) - {s.sessionId}
      ensures ims.sessions == old(ims.sessions) - {s.callId}
    {
      if s.subscriberCallId.Some? {
        conferenceSubscriber := conferenceSubscriber - {s.subscriberCallId.value};
      }
      groupChat := groupChat - {s.sessionId};
      ims.RemoveImsServiceSession(s);
    }

    /** Caches a group chat under the Call-ID of its conference-event subscription. */
    method AddGroupChatConferenceSubscriber(callId: CallId, s: SessionRef)
      modifies this`conferenceSubscriber
      ensures conferenceSubscriber == old(conferenceSubscriber)[callId := s]
    {
      conferenceSubscriber := conferenceSubscriber[callId := s];
    }

    method RemoveGroupChatConferenceSubscriber(callId: CallId)
      modifies this`conferenceSubscriber
      ensures conferenceSubscriber == old(conferenceSubscriber) - {callId}
    {
      conferenceSubscriber := conferenceSubscriber - {callId};
    }

    /** Caches a transfer under its transfer id; an MSRP transfer (with a dialog path)
      * also goes into the Call-ID cache, an HTTP transfer into the set without one. */
    method AddFileSharingSession(s: SessionRef)
      requires Valid()
      modifies this`fileTransfer, this`withoutDialogPath, ims`sessions
      ensures Valid()
      ensures fileTransfer == old(fileTransfer)[s.sessionId := s]
      ensures s.hasDialogPath ==>
                ims.sessions == old(ims.sessions)[s.callId := s] && withoutDialogPath == old(withoutDialogPath)
      ensures !s.hasDialogPath ==>
                ims.sessions == old(ims.sessions) && withoutDialogPath == old(withoutDialogPath) + {s}
    {
      fileTransfer := fileTransfer[s.sessionId := s];
      if s.hasDialogPath {
        ims.AddImsServiceSession(s);
      } else {
        withoutDialogPath := withoutDialogPath + {s};
      }
    }

    method RemoveFileSharingSession(s: SessionRef)
      requires Valid()
      modifies this`fileTransfer, this`withoutDialogPath, ims`sessions
      ensures Valid()
      ensures fileTransfer == old(fileTransfer) - {s.sessionId}
      ensures s.hasDialogPath ==>
                ims.sessions == old(ims.sessions) - {s.callId} && withoutDialogPath == old(withoutDialogPath)
      ensures !s.hasDialogPath ==>
                ims.sessions == old(ims.sessions) && withoutDialogPath == old(withoutDialogPath) - {s}
    {
      fileTransfer := fileTransfer - {s.sessionId};
      if s.hasDialogPath {
        ims.RemoveImsServiceSession(s);
      } else {
        withoutDialogPath := withoutDialogPath - {s};
      }
    }

    /** Caches an upload under its upload id; uploads are not IMS sessions. */
    method AddFileUploadSession(s: SessionRef)
      requires Valid()
      modifies this`upload
      ensures Valid()
      ensures upload == old(upload)[s.sessionId := s]
    {
      upload := upload[s.sessionId := s];
    }

    method RemoveFileUploadSession(s: SessionRef)
      requires Valid()
      modifies this`upload
      ensures Valid()
      ensures upload == old(upload) - {s.sessionId}
    {
      upload := upload - {s.sessionId};
    }

    /** The cache lookups: a session is found exactly when its key is cached. */
    function GetOneToOneChatSession(contact: ContactId): (r: Option<SessionRef>)
      reads this
      ensures r.Some? <==> contact in oneToOne
      ensures r.Some? ==> r.value == oneToOne[contact]
    {
      if contact in oneToOne then Some(oneToOne[contact]) else None
    }

    function GetStoreAndForwardMsgSession(contact: ContactId): (r: Option<SessionRef>)
      reads this
      ensures r.Some? <==> contact in storeAndForwardMsg
      ensures r.Some? ==> r.value == storeAndForwardMsg[contact]
    {
      if contact in storeAndForwardMsg then Some(storeAndForwardMsg[contact]) else None
    }

    function GetStoreAndForwardNotifSession(contact: ContactId): (r: Option<SessionRef>)
      reads this
      ensures r.Some? <==> contact in storeAndForwardNotif
      ensures r.Some? ==> r.value == storeAndForwardNotif[contact]
    {
      if contact in storeAndForwardNotif then Some(storeAndForwardNotif[contact]) else None
    }

    function GetGroupChatSession(chatId: string): (r: Option<SessionRef>)
      reads this
      ensures r.Some? <==> chatId in groupChat
      ensures r.Some? ==> r.value == groupChat[chatId]
    {
      if chatId in groupChat then Some(groupChat[chatId]) else None
    }

    function GetGroupChatSessionOfConferenceSubscriber(callId: CallId): (r: Option<SessionRef>)
      reads this
      ensures r.Some? <==> callId in conferenceSubscriber
      ensures r.Some? ==> r.value == conferenceSubscriber[callId]
    {
      if callId in conferenceSubscriber then Some(conferenceSubscriber[callId]) else None
    }

    function GetFileSharingSession(fileTransferId: string): (r: Option<SessionRef>)
      reads this
      ensures r.Some? <==> fileTransferId in fileTransfer
      ensures r.Some? ==> r.value == fileTransfer[fileTransferId]
    {
      if fileTransferId in fileTransfer then Some(fileTransfer[fileTransferId]) else None
    }

    function GetFileUploadSession(uploadId: string): (r: Option<SessionRef>)
      reads this
      ensures r.Some? <==> uploadId in upload
      ensures r.Some? ==> r.value == upload[uploadId]
    {
      if uploadId in upload then Some(upload[uploadId]) else None
    }

    /** Chat capacity of the current caches. */
    predicate IsChatSessionAvailable(settings: ImSettings)
      reads this
    {
      ChatAvailable(settings.maxChatSessions, |oneToOne|, |groupChat|)
    }

    /** File-transfer capacity of the current caches. */
    predicate IsFileTransferSessionAvailable(settings: ImSettings)
      reads this
    {
      FileTransferAvailable(settings.maxFileTransferSessions, |fileTransfer|, |upload|)
    }

    /** Throws exactly when a ceiling is set and 1-1 plus group chats reach it. */
    function AssertAvailableChatSession(settings: ImSettings): (c: Check)
      reads this
      ensures c == CoreException <==>
                settings.maxChatSessions != 0 && |oneToOne| + |groupChat| >= settings.maxChatSessions
    {
      if !IsChatSessionAvailable(settings) then CoreException else Passed
    }

    /** Throws exactly when a ceiling is set and transfers plus uploads reach it. */
    function AssertAvailableFileTransferSession(settings: ImSettings): (c: Check)
      reads this
      ensures c == CoreException <==>
                settings.maxFileTransferSessions != 0
                && |fileTransfer| + |upload| >= settings.maxFileTransferSessions
    {
      if !IsFileTransferSessionAvailable(settings) then CoreException else Passed
    }

    /** Counts the originated transfers and compares them, with the uploads, to the ceiling. */
    method IsMaxConcurrentOutgoingFileTransfersReached(settings: ImSettings) returns (reached: bool)
      ensures reached <==>
                (settings.maxConcurrentOutgoingFileTransferSessions != 0
                 && |OutgoingTransfers(fileTransfer)| + |upload| >= settings.maxConcurrentOutgoingFileTransferSessions)
    {
      var count := 0;
      var remaining := fileTransfer.Keys;
      while remaining != {}
        invariant remaining <= fileTransfer.Keys
        invariant count == |set k | k in fileTransfer && k !in remaining && !fileTransfer[k].initiatedByRemote|
        decreases remaining
      {
        var k :| k in remaining;
        ghost var counted := set j | j in fileTransfer && j !in remaining && !fileTransfer[j].initiatedByRemote;
        ghost var next := set j | j in fileTransfer && j !in remaining - {k} && !fileTransfer[j].initiatedByRemote;
        if !fileTransfer[k].initiatedByRemote {
          assert next == counted + {k};
          count := count + 1;
        } else {
          assert next == counted;
        }
        remaining := remaining - {k};
      }
      assert (set k | k in fileTransfer && k !in remaining && !fileTransfer[k].initiatedByRemote)
          == OutgoingTransfers(fileTransfer);
      var max := settings.maxConcurrentOutgoingFileTransferSessions;
      if max == 0 {
        return false;
      }
      if count >= max {
        return true;
      }
      count := count + |upload|;
      return count >= max;
    }

    // -------------------------------------------------------------------------
    // Admission paths

    /** An incoming MSRP file transfer: an unparseable identity is ignored, then a
      * blocked contact and then a full transfer cache are declined with 603. */
    function ReceiveFileTransferInvitation(inv: Invitation, blocked: set<ContactId>, settings: ImSettings): (t: seq<ImEvent>)
      reads this
      ensures inv.remote.None? ==> t == []
      ensures inv.remote.Some? && inv.remote.value in blocked ==>
                t == [FileTransferRejected(RejectedSpam), ErrorResponse(DECLINE)]
      ensures inv.remote.Some? && inv.remote.value !in blocked && !IsFileTransferSessionAvailable(settings) ==>
                t == [FileTransferRejected(RejectedMaxFileTransfers), ErrorResponse(DECLINE)]
      ensures SessionStarted(MsrpFileTransfer) in t <==>
                inv.remote.Some? && inv.remote.value !in blocked && IsFileTransferSessionAvailable(settings)
      ensures SessionStarted(MsrpFileTransfer) in t ==>
                Precedes(t, InvitationNotified(MsrpFileTransfer), SessionStarted(MsrpFileTransfer))
    {
      match inv.remote
      case None => []
      case Some(remote) =>
        if remote in blocked then
          [FileTransferRejected(RejectedSpam), ErrorResponse(DECLINE)]
        else if !IsFileTransferSessionAvailable(settings) then
          [FileTransferRejected(RejectedMaxFileTransfers), ErrorResponse(DECLINE)]
        else
          var t := [InvitationNotified(MsrpFileTransfer), SessionStarted(MsrpFileTransfer)];
          PrecedesAt(t, 0, 1);
          t
    }

    /** An incoming 1-1 chat. A blocked contact gets its first message saved as spam
      * (unless already stored), a delivery report when one is requested and the
      * message id is known, then 486. Otherwise the first message is stored and the
      * chat is started if there is room, else 486 with no notification. */
    function ReceiveOneToOneChatSession(inv: Invitation, blocked: set<ContactId>,
                                        persisted: set<string>, settings: ImSettings): (t: seq<ImEvent>)
      reads this
      ensures inv.remote.None? ==> t == []
      ensures inv.remote.Some? ==> |t| > 0
      ensures SessionStarted(OneToOneChat) in t <==>
                inv.remote.Some? && inv.remote.value !in blocked && IsChatSessionAvailable(settings)
      ensures inv.remote.Some? && !(SessionStarted(OneToOneChat) in t) ==> t[|t| - 1] == ErrorResponse(BUSY_HERE)
      ensures forall id :: SpamMessageSaved(id) in t ==>
                inv.remote.Some? && inv.remote.value in blocked && inv.firstMessageId == Some(id) && id !in persisted
      ensures forall id :: IncomingMessageSaved(id) in t ==>
                inv.remote.Some? && inv.remote.value !in blocked && inv.firstMessageId == Some(id) && id !in persisted
      ensures forall id :: DeliveredReportSent(id) in t ==>
                inv.remote.Some? && inv.remote.value in blocked && inv.deliveredRequested && inv.messageId == Some(id)
    {
      match inv.remote
      case None => []
      case Some(remote) =>
        var saveable := inv.firstMessageId.Some? && inv.firstMessageId.value !in persisted;
        if remote in blocked then
          (if saveable then [SpamMessageSaved(inv.firstMessageId.value)] else [])
          + (if inv.deliveredRequested && inv.messageId.Some? then [DeliveredReportSent(inv.messageId.value)] else [])
          + [ErrorResponse(BUSY_HERE)]
        else
          (if saveable then [IncomingMessageSaved(inv.firstMessageId.value)] else [])
          + (if !IsChatSessionAvailable(settings) then [ErrorResponse(BUSY_HERE)]
             else [InvitationNotified(OneToOneChat), SessionStarted(OneToOneChat)])
    }

    /** An incoming ad-hoc group chat. An identity that does not parse skips the
      * blocked-contact test; a chat the user left while offline is declined once
      * and its "reject next invitation" flag is cleared. The rejection listener call
      * parses the referred identity again, so a full service receiving an identity
      * that does not parse throws out of this path before 486 is sent. */
    function ReceiveAdhocGroupChatSession(inv: Invitation, blocked: set<ContactId>,
                                          nextInviteRejected: bool, settings: ImSettings): (r: ImAdmission)
      reads this
      ensures r.thrown <==> inv.remote.None? && !IsChatSessionAvailable(settings)
      ensures r.thrown ==> r.events == []
      ensures inv.remote.Some? && inv.remote.value in blocked ==>
                r == ImAdmission([GroupChatRejected(GcRejectedSpam), ErrorResponse(BUSY_HERE)], false)
      ensures inv.remote.Some? && inv.remote.value !in blocked && !IsChatSessionAvailable(settings) ==>
                r == ImAdmission([GroupChatRejected(GcRejectedMaxChats), ErrorResponse(BUSY_HERE)], false)
      ensures SessionStarted(AdhocGroupChat) in r.events <==>
                !(inv.remote.Some? && inv.remote.value in blocked) && IsChatSessionAvailable(settings)
                && !nextInviteRejected
      ensures NextInvitationAccepted(inv.contributionId) in r.events ==>
                Precedes(r.events, ErrorResponse(DECLINE), NextInvitationAccepted(inv.contributionId))
    {
      if inv.remote.Some? && inv.remote.value in blocked then
        ImAdmission([GroupChatRejected(GcRejectedSpam), ErrorResponse(BUSY_HERE)], false)
      else if !IsChatSessionAvailable(settings) then
        if inv.remote.None? then ImAdmission([], true)
        else ImAdmission([GroupChatRejected(GcRejectedMaxChats), ErrorResponse(BUSY_HERE)], false)
      else if nextInviteRejected then
        var t := [ErrorResponse(DECLINE), NextInvitationAccepted(inv.contributionId)];
        PrecedesAt(t, 0, 1);
        ImAdmission(t, false)
      else
        ImAdmission([InvitationNotified(AdhocGroupChat), SessionStarted(AdhocGroupChat)], false)
    }

    /** The admission the full-service path evidently intends: the rejection is reported
      * and 486 sent whatever the identity, and nothing is thrown. */
    function ReceiveAdhocGroupChatSessionIntended(inv: Invitation, blocked: set<ContactId>,
                                                  nextInviteRejected: bool, settings: ImSettings): (r: ImAdmission)
      reads this
      ensures !r.thrown
      ensures !(inv.remote.Some? && inv.remote.value in blocked) && !IsChatSessionAvailable(settings) ==>
                r.events == [GroupChatRejected(GcRejectedMaxChats), ErrorResponse(BUSY_HERE)]
      ensures SessionStarted(AdhocGroupChat) in r.events <==>
                !(inv.remote.Some? && inv.remote.value in blocked) && IsChatSessionAvailable(settings)
                && !nextInviteRejected
      ensures !(inv.remote.None? && !IsChatSessionAvailable(settings)) ==>
                r == ReceiveAdhocGroupChatSession(inv, blocked, nextInviteRejected, settings)
    {
      if inv.remote.Some? && inv.remote.value in blocked then
        ImAdmission([GroupChatRejected(GcRejectedSpam), ErrorResponse(BUSY_HERE)], false)
      else if !IsChatSessionAvailable(settings) then
        ImAdmission([GroupChatRejected(GcRejectedMaxChats), ErrorResponse(BUSY_HERE)], false)
      else if nextInviteRejected then
        ImAdmission([ErrorResponse(DECLINE), NextInvitationAccepted(inv.contributionId)], false)
      else
        ImAdmission([InvitationNotified(AdhocGroupChat), SessionStarted(AdhocGroupChat)], false)
    }

    /** Store-and-forward push of messages: 486 for a blocked contact, otherwise the
      * first message is stored (unless already stored) and the stored messages fetched. */
    function ReceiveStoredAndForwardPushMessages(inv: Invitation, blocked: set<ContactId>,
                                                 persisted: set<string>): (t: seq<ImEvent>)
      ensures inv.remote.None? ==> t == []
      ensures inv.remote.Some? && inv.remote.value in blocked ==> t == [ErrorResponse(BUSY_HERE)]
      ensures StoredMessagesReceived in t <==> inv.remote.Some? && inv.remote.value !in blocked
      ensures StoredMessagesReceived in t ==> t[|t| - 1] == StoredMessagesReceived
      ensures forall id :: IncomingMessageSaved(id) in t ==> inv.firstMessageId == Some(id) && id !in persisted
    {
      match inv.remote
      case None => []
      case Some(remote) =>
        if remote in blocked then [ErrorResponse(BUSY_HERE)]
        else
          (if inv.firstMessageId.Some? && inv.firstMessageId.value !in persisted
           then [IncomingMessageSaved(inv.firstMessageId.value)] else [])
          + [StoredMessagesReceived]
    }

    /** Store-and-forward push of notifications: 486 for a blocked contact. */
    function ReceiveStoredAndForwardPushNotifications(inv: Invitation, blocked: set<ContactId>): (t: seq<ImEvent>)
      ensures inv.remote.None? ==> t == []
      ensures StoredNotificationsReceived in t <==> inv.remote.Some? && inv.remote.value !in blocked
      ensures inv.remote.Some? && inv.remote.value in blocked ==> t == [ErrorResponse(BUSY_HERE)]
    {
      match inv.remote
      case None => []
      case Some(remote) =>
        if remote in blocked then [ErrorResponse(BUSY_HERE)] else [StoredNotificationsReceived]
    }

    /** An incoming HTTP file transfer carried in a 1-1 chat INVITE: blocked contact,
      * capacity, then the file-capacity error. The remote is the Referred-By identity, but
      * every rejection notice parses the P-Asserted-Identity again (lines 188-190); when
      * that one does not parse, the exception ends the handling at the outer catch, so a
      * blocked contact or a full service gets neither the notice nor the 603, and a size
      * error gets only the 603 sent before it. On a size error the reason switch falls
      * through, so a too-big file reports both REJECTED_MAX_SIZE and REJECTED_LOW_SPACE.
      * Otherwise the chat session and then the transfer are started. */
    function ReceiveOneToOneHttpFileTransferInvitation(inv: Invitation, assertedParses: bool,
                                                       blocked: set<ContactId>,
                                                       sizeError: Option<FileSharingError>,
                                                       settings: ImSettings): (t: seq<ImEvent>)
      reads this
      ensures inv.remote.None? ==> t == []
      ensures SessionStarted(HttpFileTransfer) in t <==>
                inv.remote.Some? && inv.remote.value !in blocked
                && IsFileTransferSessionAvailable(settings) && sizeError.None?
      ensures SessionStarted(HttpFileTransfer) in t ==>
                Precedes(t, SessionStarted(OneToOneChat), SessionStarted(HttpFileTransfer))
      ensures inv.remote.Some? && !assertedParses
              && (inv.remote.value in blocked || !IsFileTransferSessionAvailable(settings)) ==>
                t == []
      ensures inv.remote.Some? && assertedParses && inv.remote.value in blocked ==>
                t == [FileTransferRejected(RejectedSpam), ErrorResponse(DECLINE)]
      ensures inv.remote.Some? && assertedParses && inv.remote.value !in blocked
              && !IsFileTransferSessionAvailable(settings) ==>
                t == [FileTransferRejected(RejectedMaxFileTransfers), ErrorResponse(DECLINE)]
      ensures (inv.remote.Some? && inv.remote.value !in blocked && IsFileTransferSessionAvailable(settings)
                && sizeError.Some?) ==>
                t == [ErrorResponse(DECLINE)]
                     + (if assertedParses then SizeRejectionsAsWritten(sizeError.value) else [])
    {
      match inv.remote
      case None => []
      case Some(remote) =>
        if remote in blocked then
          if assertedParses then [FileTransferRejected(RejectedSpam), ErrorResponse(DECLINE)]
          else []
        else if !IsFileTransferSessionAvailable(settings) then
          if assertedParses
          then [FileTransferRejected(RejectedMaxFileTransfers), ErrorResponse(DECLINE)]
          else []
        else if sizeError.Some? then
          [ErrorResponse(DECLINE)]
          + (if assertedParses then SizeRejectionsAsWritten(sizeError.value) else [])
        else
          var t := [SessionStarted(OneToOneChat), InvitationNotified(HttpFileTransfer), SessionStarted(HttpFileTransfer)];
          PrecedesAt(t, 0, 2);
          t
    }

    /** The HTTP file transfer admission as evidently intended: the rejection notice names
      * the remote already parsed, so every rejection is reported and answered with 603
      * whatever the asserted identity, and a size error gives one reason. */
    function ReceiveOneToOneHttpFileTransferInvitationIntended(inv: Invitation,
                                                               blocked: set<ContactId>,
                                                               sizeError: Option<FileSharingError>,
                                                               settings: ImSettings): (t: seq<ImEvent>)
      reads this
      ensures inv.remote.None? ==> t == []
      ensures inv.remote.Some? && !(inv.remote.value !in blocked && IsFileTransferSessionAvailable(settings)
                                    && sizeError.None?) ==>
                ErrorResponse(DECLINE) in t
      ensures SessionStarted(HttpFileTransfer) in t <==>
                inv.remote.Some? && inv.remote.value !in blocked
                && IsFileTransferSessionAvailable(settings) && sizeError.None?
      ensures sizeError != Some(MediaSizeTooBig) ==>
                t == ReceiveOneToOneHttpFileTransferInvitation(inv, true, blocked, sizeError,
                                                               settings)
    {
      match inv.remote
      case None => []
      case Some(remote) =>
        if remote in blocked then
          [FileTransferRejected(RejectedSpam), ErrorResponse(DECLINE)]
        else if !IsFileTransferSessionAvailable(settings) then
          [FileTransferRejected(RejectedMaxFileTransfers), ErrorResponse(DECLINE)]
        else if sizeError.Some? then
          SizeRejectionsAgreeExceptFallThrough(sizeError.value);
          [ErrorResponse(DECLINE)] + SizeRejection(sizeError.value)
        else
          [SessionStarted(OneToOneChat), InvitationNotified(HttpFileTransfer), SessionStarted(HttpFileTransfer)]
    }

    /** A store-and-forward HTTP file transfer: the store-and-forward chat is started
      * first; a too-big file then gets 403 and the chat's error handler. */
    function ReceiveStoredAndForwardOneToOneHttpFileTransferInvitation(inv: Invitation, fileSize: int,
                                                                      settings: ImSettings): (t: seq<ImEvent>)
      ensures inv.remote.None? ==> t == []
      ensures inv.remote.Some? ==> |t| > 1 && t[0] == SessionStarted(StoreAndForwardChat)
      ensures SessionStarted(HttpFileTransfer) in t <==>
                inv.remote.Some? && !IsFileSizeExceeded(settings, fileSize)
      ensures inv.remote.Some? && IsFileSizeExceeded(settings, fileSize) ==>
                t == [SessionStarted(StoreAndForwardChat), ErrorResponse(FORBIDDEN), ChatSessionError(MediaSizeTooBig)]
    {
      match inv.remote
      case None => []
      case Some(_) =>
        [SessionStarted(StoreAndForwardChat)]
        + if IsFileSizeExceeded(settings, fileSize) then
            [ErrorResponse(FORBIDDEN), ChatSessionError(MediaSizeTooBig)]
          else
            [InvitationNotified(HttpFileTransfer), SessionStarted(HttpFileTransfer)]
    }

    /** A conference NOTIFY is handed to the subscriber of the group chat whose
      * subscription has its Call-ID; a NOTIFY for no known subscription is dropped. */
    function ReceiveConferenceNotification(callId: CallId): (t: seq<StatusEvent>)
      reads this
      ensures |t| <= 1
      ensures t != [] <==> callId in conferenceSubscriber
      ensures forall s :: ConferenceNotificationForwarded(s) in t ==> s == conferenceSubscriber[callId]
    {
      match GetGroupChatSessionOfConferenceSubscriber(callId)
      case Some(session) => [ConferenceNotificationForwarded(session)]
      case None => []
    }

    /** A delivery report received in a SIP MESSAGE. 200 OK is sent first and nothing
      * else happens when it cannot be sent. A report that does not parse (`msgId` None)
      * or whose sender's identity does not parse (`remote` None) is dropped. Otherwise
      * the report of a file transfer goes to the file delivery listener, and that of a
      * chat message to the sender's 1-1 chat session if there is one, else to the
      * message delivery listener. */
    function ReceiveMessageDeliveryStatus(okFails: bool, msgId: Option<string>, remote: Option<ContactId>,
                                          fileTransferIds: set<string>): (t: seq<StatusEvent>)
      reads this
      ensures t == [] <==> okFails
      ensures t != [] ==> t[0] == OkSent && |t| <= 2
      ensures |t| == 2 <==> !okFails && msgId.Some? && remote.Some?
      ensures forall c, id :: FileDeliveryNotified(c, id) in t <==>
                !okFails && remote == Some(c) && msgId == Some(id) && id in fileTransferIds
      ensures forall s, c, id :: ChatSessionDeliveryNotified(s, c, id) in t <==>
                !okFails && remote == Some(c) && msgId == Some(id) && id !in fileTransferIds
                && c in oneToOne && s == oneToOne[c]
      ensures forall c, id :: MessageDeliveryNotified(c, id) in t <==>
                !okFails && remote == Some(c) && msgId == Some(id) && id !in fileTransferIds
                && c !in oneToOne
    {
      if okFails then []
      else if msgId.None? || remote.None? then [OkSent]
      else
        var contact := remote.value;
        var id := msgId.value;
        [OkSent] + (
          if id in fileTransferIds then ReceiveFileDeliveryStatus(contact, id)
          else match GetOneToOneChatSession(contact)
            case Some(session) => [ChatSessionDeliveryNotified(session, contact, id)]
            case None => [MessageDeliveryNotified(contact, id)])
    }

    /** A file delivery report goes to the listener, outside any chat session. */
    function ReceiveFileDeliveryStatus(contact: ContactId, msgId: string): (t: seq<StatusEvent>)
      ensures t == [FileDeliveryNotified(contact, msgId)]
    {
      [FileDeliveryNotified(contact, msgId)]
    }
  }

  /** The rejection notifications after a size error, as the switch is written: the
    * MEDIA_SIZE_TOO_BIG case has no break and runs into NOT_ENOUGH_STORAGE_SPACE. */
  function SizeRejectionsAsWritten(e: FileSharingError): (t: seq<ImEvent>)
    ensures e.OtherFileSharingError? <==> t == []
    ensures e == NotEnoughStorageSpace ==> t == [FileTransferRejected(RejectedLowSpace)]
  {
    match e
    case MediaSizeTooBig =>
      [FileTransferRejected(RejectedMaxSize), FileTransferRejected(RejectedLowSpace)]
    case NotEnoughStorageSpace => [FileTransferRejected(RejectedLowSpace)]
    case OtherFileSharingError(_) => []
  }

  /** A too-big file is reported to the listener twice, the second time as low storage. */
  lemma SizeTooBigReportsLowSpaceToo()
    ensures SizeRejectionsAsWritten(MediaSizeTooBig) ==
              [FileTransferRejected(RejectedMaxSize), FileTransferRejected(RejectedLowSpace)]
    ensures |SizeRejectionsAsWritten(MediaSizeTooBig)| == 2
  {
  }

  /** The rejection notification each size error evidently calls for: one reason per error. */
  function SizeRejection(e: FileSharingError): (t: seq<ImEvent>)
    ensures |t| <= 1
    ensures e == MediaSizeTooBig ==> t == [FileTransferRejected(RejectedMaxSize)]
    ensures e == NotEnoughStorageSpace ==> t == [FileTransferRejected(RejectedLowSpace)]
    ensures e.OtherFileSharingError? ==> t == []
  {
    match e
    case MediaSizeTooBig => [FileTransferRejected(RejectedMaxSize)]
    case NotEnoughStorageSpace => [FileTransferRejected(RejectedLowSpace)]
    case OtherFileSharingError(_) => []
  }

  /** The as-written switch reports the intended reason first and adds a spurious
    * low-space reason only for a too-big file. */
  lemma {:induction false} SizeRejectionsAgreeExceptFallThrough(e: FileSharingError)
    ensures e != MediaSizeTooBig ==> SizeRejectionsAsWritten(e) == SizeRejection(e)
    ensures e == MediaSizeTooBig ==>
              SizeRejectionsAsWritten(e) == SizeRejection(e) + [FileTransferRejected(RejectedLowSpace)]
  {
    match e
    case MediaSizeTooBig =>
    case NotEnoughStorageSpace =>
    case OtherFileSharingError(_) =>
  }

  /** As written, a full service receiving an ad-hoc group chat whose referred identity
    * does not parse throws before any response, where the intended admission reports
    * the rejection and answers 486 Busy Here. */
  lemma FullServiceWithUnparseableIdentitySendsNothing(svc: InstantMessagingService, inv: Invitation,
                                                      blocked: set<ContactId>, nextInviteRejected: bool,
                                                      settings: ImSettings)
    requires inv.remote.None? && !svc.IsChatSessionAvailable(settings)
    ensures svc.ReceiveAdhocGroupChatSession(inv, blocked, nextInviteRejected, settings) == ImAdmission([], true)
    ensures svc.ReceiveAdhocGroupChatSessionIntended(inv, blocked, nextInviteRejected, settings).events ==
              [GroupChatRejected(GcRejectedMaxChats), ErrorResponse(BUSY_HERE)]
  {
  }

  /** A parsed delivery report from a known sender reaches exactly one handler, after the
    * 200 OK. */
  lemma {:induction false} DeliveryReportRoutedOnce(svc: InstantMessagingService, msgId: string,
                                                    contact: ContactId, fileTransferIds: set<string>)
    ensures var t := svc.ReceiveMessageDeliveryStatus(false, Some(msgId), Some(contact), fileTransferIds);
            && |t| == 2 && t[0] == OkSent && !t[1].OkSent? && !t[1].ConferenceNotificationForwarded?
            && Precedes(t, OkSent, t[1])
            && (t[1].FileDeliveryNotified? <==> msgId in fileTransferIds)
            && (t[1].ChatSessionDeliveryNotified? <==> msgId !in fileTransferIds && contact in svc.oneToOne)
            && (t[1].MessageDeliveryNotified? <==> msgId !in fileTransferIds && contact !in svc.oneToOne)
  {
    var t := svc.ReceiveMessageDeliveryStatus(false, Some(msgId), Some(contact), fileTransferIds);
    PrecedesAt(t, 0, 1);
  }

  /** As written, a blocked sender of an HTTP file transfer whose asserted identity does
    * not parse is neither reported nor declined, where the intended admission reports
    * the spam rejection and answers 603 Decline. */
  lemma UnparseableAssertedIdentitySuppressesRejection(svc: InstantMessagingService,
                                                       inv: Invitation, blocked: set<ContactId>,
                                                       sizeError: Option<FileSharingError>,
                                                       settings: ImSettings)
    requires inv.remote.Some? && inv.remote.value in blocked
    ensures svc.ReceiveOneToOneHttpFileTransferInvitation(inv, false, blocked, sizeError, settings)
            == []
    ensures svc.ReceiveOneToOneHttpFileTransferInvitationIntended(inv, blocked, sizeError, settings)
            == [FileTransferRejected(RejectedSpam), ErrorResponse(DECLINE)]
  {
  }
}
