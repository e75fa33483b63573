# RCS/IMS service core — a Dafny model

This project models the core of an RCS (Rich Communication Services) client stack built on IMS.
It covers these parts, each with properties proved about it:

- **IMS services.** The base service keeps an activation flag, a started flag and a cache of IMS
  sessions keyed by the Call-ID of their SIP dialog. The instant messaging, IP call and SIP
  (MSRP/RTP) services build their own session caches, admission rules and capacity limits on
  top of it. Their invitation handlers decide whether an incoming invitation is rejected (and
  with which SIP response and listener notification) or turned into a session.
- **Service extensions.** The codec between the settings' `;`-separated extension list and a
  set of extension ids, the authorization rule, and the change detection that restarts
  registration.
- **Chat utilities.** MIME type predicates, IMDN header extraction, CPIM SIP URI formatting,
  the CPIM and IMDN message builders, and the choice of the first message of a chat.
- **Terminating and originating sessions.** The image-share, SIP-MSRP, store-and-forward and
  geolocation sessions are step-by-step state machines. Each is a class whose `run` and
  callbacks append what they do to collaborators (SIP responses, MSRP set-up, listener
  notifications) to an event log. The order of those events is proved.
- **Sharing API objects.** The image and geolocation sharing objects map session events to the
  persisted state and reason code of a sharing, and guard accept, reject and abort.
- **Providers.** The file-transfer HTTP resume record, the file-transfer and group-chat logs, and
  the rich call history tables. These are classes over maps of rows, with their insert and
  update rules and their queries.

Modules follow the source files: one module per core file, plus `Common` (shared value types:
Option, termination reasons, SIP codes, session references) and `JavaStrings` (the `String`
operations the source relies on: trim, split, prefix tests).

## Model

| member | source | states |
|---|---|---|
| ImsServiceModel.ImsService.constructor | core/src/com/gsma/rcs/core/ims/service/ImsService.java:122-126 | a new service keeps the activation flag it is given, is not started and caches no session |
| ImsServiceModel.ImsService.SetActivated | core/src/com/gsma/rcs/core/ims/service/ImsService.java:142-144 | the activation flag becomes the value given |
| ImsServiceModel.ImsService.SetServiceStarted | core/src/com/gsma/rcs/core/ims/service/ImsService.java:197-199 | the started flag becomes the value given |
| ImsServiceModel.ImsService.AddImsServiceSession | core/src/com/gsma/rcs/core/ims/service/ImsService.java:160-162 | the session is cached under its dialog's Call-ID, replacing any earlier one; every other Call-ID keeps its entry, and every entry stays under its own Call-ID |
| ImsServiceModel.ImsService.RemoveImsServiceSession | core/src/com/gsma/rcs/core/ims/service/ImsService.java:169-171 | the session's Call-ID leaves the cache and no other entry changes |
| ImsServiceModel.ImsService.GetImsServiceSession | core/src/com/gsma/rcs/core/ims/service/ImsService.java:173-177 | a session is found exactly when its Call-ID is cached, and it is the cached one |
| ImsServiceModel.ImsService.AbortAllSessions | core/src/com/gsma/rcs/core/ims/service/ImsService.java:216-222 | earlier aborts are kept, and the new ones abort every cached session exactly once with the given reason, in some order |
| ImsServiceModel.AbortsCoverSessions | core/src/com/gsma/rcs/core/ims/service/ImsService.java:216-222 | one abort per Call-ID of a repeat-free list of the cache's keys is exactly one abort per cached session, as many as the cache holds |
| ImsServiceModel.ImsService.SendErrorResponse | core/src/com/gsma/rcs/core/ims/service/ImsService.java:230-245 | the error response is recorded once when it could be sent; a failure is swallowed and records nothing |
| IPCallServiceModel.IPCallService.constructor | core/src/com/gsma/rcs/core/ims/service/ipcall/IPCallService.java:93-97 | the maximum number of sessions is read from the settings and the call cache starts empty |
| IPCallServiceModel.IPCallService.Start | core/src/com/gsma/rcs/core/ims/service/ipcall/IPCallService.java:113-119 | the service is started afterwards |
| IPCallServiceModel.IPCallService.Stop | core/src/com/gsma/rcs/core/ims/service/ipcall/IPCallService.java:124-130 | the service is stopped afterwards |
| IPCallServiceModel.IPCallService.AddSession | core/src/com/gsma/rcs/core/ims/service/ipcall/IPCallService.java:138-147 | the call is cached under its session id and also in the base service's cache under its Call-ID |
| IPCallServiceModel.IPCallService.RemoveSession | core/src/com/gsma/rcs/core/ims/service/ipcall/IPCallService.java:149-167 | the call leaves both caches and no other session id changes membership |
| IPCallServiceModel.IPCallService.GetIPCallSession | core/src/com/gsma/rcs/core/ims/service/ipcall/IPCallService.java:169-173 | a call is found exactly when its session id is cached |
| IPCallServiceModel.IPCallService.AssertAvailableIpCallSession | core/src/com/gsma/rcs/core/ims/service/ipcall/IPCallService.java:175-184 | it throws exactly when a non-zero maximum is reached; a maximum of 0 means no limit |
| IPCallServiceModel.IPCallService.ReceiveIPCallInvitation | core/src/com/gsma/rcs/core/ims/service/ipcall/IPCallService.java:230-258 | a call starts exactly when none is connected and the caller's identity parses; when busy it logs the rejection then answers 486 Busy Here, and throws before answering when the identity does not parse |
| IPCallServiceModel.IPCallService.AbortAllSessions | core/src/com/gsma/rcs/core/ims/service/ipcall/IPCallService.java:263-268 | every cached IMS session is aborted once with TERMINATION_BY_SYSTEM and earlier aborts are kept |
| IPCallServiceModel.IPCallService.IsCallConnected | core/src/com/gsma/rcs/core/ims/service/ipcall/IPCallService.java:275-279 | connected exactly when the call cache is not empty |
| IPCallServiceModel.IPCallService.IsCallConnectedWith | core/src/com/gsma/rcs/core/ims/service/ipcall/IPCallService.java:287-296 | true exactly when some cached call has the given remote contact |
| SipServiceModel.SipService.constructor | core/src/com/gsma/rcs/core/ims/service/sip/SipService.java:81-83 | both session caches start empty |
| SipServiceModel.SipService.Start | core/src/com/gsma/rcs/core/ims/service/sip/SipService.java:88-94 | the service is started afterwards |
| SipServiceModel.SipService.Stop | core/src/com/gsma/rcs/core/ims/service/sip/SipService.java:99-105 | the service is stopped afterwards |
| SipServiceModel.SipService.AddMsrpSession | core/src/com/gsma/rcs/core/ims/service/sip/SipService.java:188-197 | the MSRP session is cached under its session id and in the base cache under its Call-ID |
| SipServiceModel.SipService.RemoveMsrpSession | core/src/com/gsma/rcs/core/ims/service/sip/SipService.java:199-217 | the MSRP session leaves both caches |
| SipServiceModel.SipService.GetGenericSipMsrpSession | core/src/com/gsma/rcs/core/ims/service/sip/SipService.java:219-226 | an MSRP session is found exactly when its id is cached |
| SipServiceModel.SipService.AddRtpSession | core/src/com/gsma/rcs/core/ims/service/sip/SipService.java:228-237 | the RTP session is cached under its session id and in the base cache under its Call-ID |
| SipServiceModel.SipService.RemoveRtpSession | core/src/com/gsma/rcs/core/ims/service/sip/SipService.java:239-257 | the RTP session leaves both caches |
| SipServiceModel.SipService.GetGenericSipRtpSession | core/src/com/gsma/rcs/core/ims/service/sip/SipService.java:259-266 | an RTP session is found exactly when its id is cached |
| SipServiceModel.SipService.SendInstantMessage | core/src/com/gsma/rcs/core/ims/service/sip/SipService.java:276-363 | a MESSAGE is sent with CSeq 1; only a 407 answer leads to one retry with the next CSeq and authentication; the result is whether the last answer was 200 or 202, and false when sending failed |
| IPCallServiceModel.IPCallService.ReceiveIPCallInvitationIntended | core/src/com/gsma/rcs/core/ims/service/ipcall/IPCallService.java:230-258 | the intended admission: it never throws, answers 486 Busy Here as its last step exactly when no call can start, starts a call exactly when none is connected and the identity parses, and agrees with the code as written whenever the identity parses |
| IPCallServiceModel.BusyWithUnparseableIdentitySendsNothing | core/src/com/gsma/rcs/core/ims/service/ipcall/IPCallService.java:232-240 | as written, a busy service receiving a call whose identity does not parse throws before any response, where the intended admission answers 486 Busy Here |
| InstantMessagingServiceModel.IsFileSizeExceeded | core/src/com/gsma/rcs/core/ims/service/im/InstantMessagingService.java:1433-1441 | a size is too big exactly when a positive maximum is configured and the size exceeds it; a maximum of 0 or less never limits |
| InstantMessagingServiceModel.AssertFileSizeNotExceedingMaxLimit | core/src/com/gsma/rcs/core/ims/service/im/InstantMessagingService.java:644-661 | throws exactly when the size is too big by that rule |
| InstantMessagingServiceModel.IsCapabilitiesValid | core/src/com/gsma/rcs/core/ims/service/im/InstantMessagingService.java:1449-1456 | capabilities are valid exactly while the last refresh plus the validity period has not passed |
| InstantMessagingServiceModel.ChatCeilingStaysReached | core/src/com/gsma/rcs/core/ims/service/im/InstantMessagingService.java:485-498 | once the chat ceiling is reached, caching one more one-to-one or group chat keeps it reached |
| InstantMessagingServiceModel.InstantMessagingService.constructor | core/src/com/gsma/rcs/core/ims/service/im/InstantMessagingService.java:179-186 | all seven caches start empty and no IMDN manager exists yet |
| InstantMessagingServiceModel.InstantMessagingService.Start | core/src/com/gsma/rcs/core/ims/service/im/InstantMessagingService.java:213-225 | a stopped service starts, creates and starts its IMDN manager and asks once for the service tasks; a started one changes nothing |
| InstantMessagingServiceModel.InstantMessagingService.Stop | core/src/com/gsma/rcs/core/ims/service/im/InstantMessagingService.java:230-240 | a started service stops and terminates its IMDN manager; a stopped one changes nothing |
| InstantMessagingServiceModel.InstantMessagingService.AddOneToOneChatSession | core/src/com/gsma/rcs/core/ims/service/im/InstantMessagingService.java:264-274 | the chat is cached under its contact and in the base cache under its Call-ID |
| InstantMessagingServiceModel.InstantMessagingService.RemoveOneToOneChatSession | core/src/com/gsma/rcs/core/ims/service/im/InstantMessagingService.java:276-295 | the chat leaves both caches |
| InstantMessagingServiceModel.InstantMessagingService.GetOneToOneChatSession | core/src/com/gsma/rcs/core/ims/service/im/InstantMessagingService.java:297-305 | a chat is found exactly when its contact is cached |
| InstantMessagingServiceModel.InstantMessagingService.AddStoreAndForwardMsgSession | core/src/com/gsma/rcs/core/ims/service/im/InstantMessagingService.java:307-317 | the session is cached under its contact and in the base cache under its Call-ID |
| InstantMessagingServiceModel.InstantMessagingService.RemoveStoreAndForwardMsgSession | core/src/com/gsma/rcs/core/ims/service/im/InstantMessagingService.java:319-338 | the session leaves both caches |
| InstantMessagingServiceModel.InstantMessagingService.GetStoreAndForwardMsgSession | core/src/com/gsma/rcs/core/ims/service/im/InstantMessagingService.java:340-349 | a session is found exactly when its contact is cached |
| InstantMessagingServiceModel.InstantMessagingService.AddStoreAndForwardNotifSession | core/src/com/gsma/rcs/core/ims/service/im/InstantMessagingService.java:351-361 | the session is cached under its contact and in the base cache under its Call-ID |
| InstantMessagingServiceModel.InstantMessagingService.RemoveStoreAndForwardNotifSession | core/src/com/gsma/rcs/core/ims/service/im/InstantMessagingService.java:363-384 | the session leaves both caches |
| InstantMessagingServiceModel.InstantMessagingService.GetStoreAndForwardNotifSession | core/src/com/gsma/rcs/core/ims/service/im/InstantMessagingService.java:386-395 | a session is found exactly when its contact is cached |
| InstantMessagingServiceModel.InstantMessagingService.AddGroupChatSession | core/src/com/gsma/rcs/core/ims/service/im/InstantMessagingService.java:397-407 | the chat is cached under its chat id and in the base cache under its Call-ID |
| InstantMessagingServiceModel.InstantMessagingService.RemoveGroupChatSession | core/src/com/gsma/rcs/core/ims/service/im/InstantMessagingService.java:409-434 | the chat leaves both caches, and its conference subscriber's Call-ID leaves the subscriber cache when it has one |
| InstantMessagingServiceModel.InstantMessagingService.GetGroupChatSession | core/src/com/gsma/rcs/core/ims/service/im/InstantMessagingService.java:436-444 | a chat is found exactly when its chat id is cached |
| InstantMessagingServiceModel.InstantMessagingService.AddGroupChatConferenceSubscriber | core/src/com/gsma/rcs/core/ims/service/im/InstantMessagingService.java:446-454 | the chat is cached under the subscriber's Call-ID |
| InstantMessagingServiceModel.InstantMessagingService.RemoveGroupChatConferenceSubscriber | core/src/com/gsma/rcs/core/ims/service/im/InstantMessagingService.java:456-473 | the subscriber's Call-ID leaves the cache |
| InstantMessagingServiceModel.InstantMessagingService.GetGroupChatSessionOfConferenceSubscriber | core/src/com/gsma/rcs/core/ims/service/im/InstantMessagingService.java:475-483 | a chat is found exactly when the subscriber's Call-ID is cached |
| InstantMessagingServiceModel.InstantMessagingService.AddFileSharingSession | core/src/com/gsma/rcs/core/ims/service/im/InstantMessagingService.java:513-532 | the transfer is cached under its id; with a dialog path it is also cached by Call-ID, without one it joins the sessions tracked without a dialog path |
| InstantMessagingServiceModel.InstantMessagingService.RemoveFileSharingSession | core/src/com/gsma/rcs/core/ims/service/im/InstantMessagingService.java:534-563 | the transfer leaves its cache and whichever base cache holds it |
| InstantMessagingServiceModel.InstantMessagingService.GetFileSharingSession | core/src/com/gsma/rcs/core/ims/service/im/InstantMessagingService.java:565-573 | a transfer is found exactly when its id is cached |
| InstantMessagingServiceModel.InstantMessagingService.AddFileUploadSession | core/src/com/gsma/rcs/core/ims/service/im/InstantMessagingService.java:575-584 | the upload is cached under its id |
| InstantMessagingServiceModel.InstantMessagingService.RemoveFileUploadSession | core/src/com/gsma/rcs/core/ims/service/im/InstantMessagingService.java:586-604 | the upload leaves its cache |
| InstantMessagingServiceModel.InstantMessagingService.GetFileUploadSession | core/src/com/gsma/rcs/core/ims/service/im/InstantMessagingService.java:606-614 | an upload is found exactly when its id is cached |
| InstantMessagingServiceModel.InstantMessagingService.AssertAvailableChatSession | core/src/com/gsma/rcs/core/ims/service/im/InstantMessagingService.java:500-511 | throws exactly when a non-zero ceiling is reached by the one-to-one and group chats together |
| InstantMessagingServiceModel.InstantMessagingService.AssertAvailableFileTransferSession | core/src/com/gsma/rcs/core/ims/service/im/InstantMessagingService.java:631-642 | throws exactly when a non-zero ceiling is reached by the transfers and uploads together |
| InstantMessagingServiceModel.InstantMessagingService.IsMaxConcurrentOutgoingFileTransfersReached | core/src/com/gsma/rcs/core/ims/service/im/InstantMessagingService.java:668-691 | reached exactly when a non-zero ceiling is reached by the outgoing transfers plus the uploads |
| InstantMessagingServiceModel.InstantMessagingService.ReceiveFileTransferInvitation | core/src/com/gsma/rcs/core/ims/service/im/InstantMessagingService.java:760-812 | nothing without a parseable identity; a blocked contact is rejected as spam, a full service for lack of sessions, each with 603 Decline; otherwise the listeners hear of the invitation before the session starts |
| InstantMessagingServiceModel.InstantMessagingService.ReceiveOneToOneChatSession | core/src/com/gsma/rcs/core/ims/service/im/InstantMessagingService.java:840-917 | the chat starts exactly for an unblocked contact while chats are available, and every other parseable invitation ends with 486 Busy Here; a spam copy is saved only for a blocked contact's new first message, and a delivery report only for a blocked contact that asked for one |
| InstantMessagingServiceModel.InstantMessagingService.ReceiveAdhocGroupChatSession | core/src/com/gsma/rcs/core/ims/service/im/InstantMessagingService.java:950-1025 | a blocked contact, or a full service with a parsed identity, is rejected with 486 Busy Here; a full service with an identity that does not parse throws before any response, because the rejection handler (lines 195-206) parses the identity again; the chat starts exactly when neither rejection applies and its next invitation is not to be rejected, in which case the 603 Decline comes before the flag is cleared |
| InstantMessagingServiceModel.InstantMessagingService.ReceiveAdhocGroupChatSessionIntended | core/src/com/gsma/rcs/core/ims/service/im/InstantMessagingService.java:950-1025 | the intended admission: it never throws, reports a full service and answers 486 Busy Here whatever the identity, starts the chat in the same cases, and agrees with the code as written on every other input |
| InstantMessagingServiceModel.FullServiceWithUnparseableIdentitySendsNothing | core/src/com/gsma/rcs/core/ims/service/im/InstantMessagingService.java:972-990 | as written, a full service receiving a group chat whose referred identity does not parse throws before any response, where the intended admission reports the rejection and answers 486 Busy Here |
| InstantMessagingServiceModel.InstantMessagingService.ReceiveConferenceNotification | core/src/com/gsma/rcs/core/ims/service/im/InstantMessagingService.java:1109-1114 | a conference NOTIFY reaches exactly the subscriber cached under its Call-ID, and is dropped when none is |
| InstantMessagingServiceModel.InstantMessagingService.ReceiveMessageDeliveryStatus | core/src/com/gsma/rcs/core/ims/service/im/InstantMessagingService.java:1121-1172 | nothing happens when 200 OK cannot be sent; otherwise 200 OK comes first, and a report that parses from a sender that parses goes to the file delivery listener exactly for a file transfer id, to the sender's 1-1 chat session exactly when it is not one and the session exists, and to the message delivery listener otherwise |
| InstantMessagingServiceModel.InstantMessagingService.ReceiveFileDeliveryStatus | core/src/com/gsma/rcs/core/ims/service/im/InstantMessagingService.java:1180-1183 | a file delivery report is handed to the listener with its contact and message id |
| InstantMessagingServiceModel.DeliveryReportRoutedOnce | core/src/com/gsma/rcs/core/ims/service/im/InstantMessagingService.java:1121-1172 | a parsed report from a parsed sender reaches exactly one of the three handlers, after the 200 OK |
| InstantMessagingServiceModel.InstantMessagingService.ReceiveStoredAndForwardPushMessages | core/src/com/gsma/rcs/core/ims/service/im/InstantMessagingService.java:1201-1241 | a blocked contact gets 486 Busy Here; any other parseable sender's stored messages are received last, after a new first message is saved |
| InstantMessagingServiceModel.InstantMessagingService.ReceiveStoredAndForwardPushNotifications | core/src/com/gsma/rcs/core/ims/service/im/InstantMessagingService.java:1248-1275 | stored notifications are received exactly for an unblocked parseable sender; a blocked one gets 486 Busy Here |
| InstantMessagingServiceModel.InstantMessagingService.ReceiveOneToOneHttpFileTransferInvitation | core/src/com/gsma/rcs/core/ims/service/im/InstantMessagingService.java:1283-1367 | the HTTP transfer starts exactly for an unblocked sender, with transfers available and a size accepted, and its chat starts first; a blocked sender or a full service is reported and declined with 603 when the asserted identity parses and gets nothing when it does not, because the rejection notice parses that identity again (lines 188-190) and the exception ends the handling; a size refusal sends 603 and then, only when the asserted identity parses, the fall-through reasons |
| InstantMessagingServiceModel.InstantMessagingService.ReceiveOneToOneHttpFileTransferInvitationIntended | core/src/com/gsma/rcs/core/ims/service/im/InstantMessagingService.java:1283-1367 | the intended admission: every rejection is reported and answered with 603 whatever the asserted identity, a size error gives one reason, the transfer starts in the same cases, and it agrees with the code as written whenever the asserted identity parses and the file is not too big |
| InstantMessagingServiceModel.UnparseableAssertedIdentitySuppressesRejection | core/src/com/gsma/rcs/core/ims/service/im/InstantMessagingService.java:1289-1300 | as written, a blocked sender whose asserted identity does not parse is neither reported nor declined, where the intended admission reports the spam rejection and answers 603 Decline |
| InstantMessagingServiceModel.InstantMessagingService.ReceiveStoredAndForwardOneToOneHttpFileTransferInvitation | core/src/com/gsma/rcs/core/ims/service/im/InstantMessagingService.java:1375-1425 | the store-and-forward chat always starts first; the transfer starts exactly when the size is not too big, and otherwise 403 Forbidden and a size error follow |
| InstantMessagingServiceModel.SizeRejectionsAsWritten | core/src/com/gsma/rcs/core/ims/service/im/InstantMessagingService.java:1327-1339 | the rejections the size switch reports as written: none for another error, low space for low space |
| InstantMessagingServiceModel.SizeTooBigReportsLowSpaceToo | core/src/com/gsma/rcs/core/ims/service/im/InstantMessagingService.java:1327-1339 | as written, a size that is too big is reported twice: as too big, then as low space |
| InstantMessagingServiceModel.SizeRejection | core/src/com/gsma/rcs/core/ims/service/im/InstantMessagingService.java:1327-1339 | the intended switch: at most one rejection, the one that names the error |
| InstantMessagingServiceModel.SizeRejectionsAgreeExceptFallThrough | core/src/com/gsma/rcs/core/ims/service/im/InstantMessagingService.java:1327-1339 | the two switches agree on every error but a size that is too big, where the one as written adds the low-space rejection |
| ChatUtilsModel.HasMimePrefix | core/src/com/gsma/rcs/core/ims/service/im/chat/ChatUtils.java:234-296 | a MIME type matches exactly when it is present and, lower-cased, starts with the wanted type |
| ChatUtilsModel.IsTextPlainType | core/src/com/gsma/rcs/core/ims/service/im/chat/ChatUtils.java:234-240 | true exactly for a present type starting with text/plain, in any case |
| ChatUtilsModel.IsApplicationIsComposingType | core/src/com/gsma/rcs/core/ims/service/im/chat/ChatUtils.java:248-254 | true exactly for a present type starting with the is-composing type, in any case |
| ChatUtilsModel.IsMessageCpimType | core/src/com/gsma/rcs/core/ims/service/im/chat/ChatUtils.java:262-268 | true exactly for a present type starting with message/cpim, in any case |
| ChatUtilsModel.IsMessageImdnType | core/src/com/gsma/rcs/core/ims/service/im/chat/ChatUtils.java:276-282 | true exactly for a present type starting with message/imdn+xml, in any case |
| ChatUtilsModel.IsGeolocType | core/src/com/gsma/rcs/core/ims/service/im/chat/ChatUtils.java:290-296 | true exactly for a present type starting with the geolocation push type, in any case |
| ChatUtilsModel.MimeClassesExclusive | core/src/com/gsma/rcs/core/ims/service/im/chat/ChatUtils.java:234-296 | no MIME type is both text/plain and CPIM, text/plain and is-composing, CPIM and IMDN, is-composing and geolocation, or CPIM and geolocation |
| ChatUtilsModel.MimeTestIgnoresCase | core/src/com/gsma/rcs/core/ims/service/im/chat/ChatUtils.java:234-296 | two types that lower-case alike match the same MIME types |
| ChatUtilsModel.GetContributionId | core/src/com/gsma/rcs/core/ims/service/im/chat/ChatUtils.java:167-175 | the Contribution-ID header's value when the request has one, and nothing otherwise |
| ChatUtilsModel.HeaderLineValueSpec | core/src/com/gsma/rcs/core/ims/service/im/chat/ChatUtils.java:340-408 | a header's value is the text from one character after the header's first occurrence up to the first CRLF after it; there is none when the content, the header or that CRLF is missing |
| ChatUtilsModel.IsImdnDeliveredRequested | core/src/com/gsma/rcs/core/ims/service/im/chat/ChatUtils.java:340-358 | true exactly when the Disposition-Notification line is present and contains positive-delivery |
| ChatUtilsModel.IsImdnDisplayedRequested | core/src/com/gsma/rcs/core/ims/service/im/chat/ChatUtils.java:366-384 | true exactly when the Disposition-Notification line is present and contains display |
| ChatUtilsModel.GetMessageId | core/src/com/gsma/rcs/core/ims/service/im/chat/ChatUtils.java:392-408 | the trimmed value of the imdn.Message-ID line when there is one, and nothing otherwise |
| ChatUtilsModel.FormatCpimSipUri | core/src/com/gsma/rcs/core/ims/service/im/chat/ChatUtils.java:416-436 | a trimmed address already in angle brackets or quotes is kept, a sip: or tel: URI is bracketed, and a number is turned into a SIP URI and bracketed; the result always starts with '<' or '"' |
| ChatUtilsModel.FormatCpimSipUriIdempotent | core/src/com/gsma/rcs/core/ims/service/im/chat/ChatUtils.java:416-436 | formatting an address twice gives the same result as once |
| ChatUtilsModel.BracketedIsFormatted | core/src/com/gsma/rcs/core/ims/service/im/chat/ChatUtils.java:416-436 | an address in angle brackets with no blank at either end is left as it is |
| ChatUtilsModel.BuildCpimMessage | core/src/com/gsma/rcs/core/ims/service/im/chat/ChatUtils.java:447-456 | the message starts with the From and To lines and ends with the content |
| ChatUtilsModel.CpimMessageReadsBack | core/src/com/gsma/rcs/core/ims/service/im/chat/ChatUtils.java:447-456 | a receiver reads the Content-type written as the given type with the UTF-8 charset, and the content is exactly the text after that line and the blank line |
| ChatUtilsModel.BuildCpimMessageWithImdn | core/src/com/gsma/rcs/core/ims/service/im/chat/ChatUtils.java:468-481 | the message starts with the addresses, namespace, date and message-id lines and ends with the content |
| ChatUtilsModel.BuildCpimMessageWithDeliveredImdn | core/src/com/gsma/rcs/core/ims/service/im/chat/ChatUtils.java:493-506 | the message starts with the addresses, namespace, date and message-id lines and ends with the content |
| ChatUtilsModel.BuildCpimDeliveryReport | core/src/com/gsma/rcs/core/ims/service/im/chat/ChatUtils.java:516-532 | the report starts with the From and To lines and ends with the IMDN document |
| ChatUtilsModel.DeliveryReportReadsBack | core/src/com/gsma/rcs/core/ims/service/im/chat/ChatUtils.java:516-532 | a receiver reads back the generated message id, trimmed, and a Content-length equal to the UTF-8 byte length of the IMDN document, which is exactly the text after that line and the blank line |
| ChatUtilsModel.ContentLengthOfWritten | core/src/com/gsma/rcs/core/ims/service/im/chat/ChatUtils.java:468-506 | the Content-length an IMDN-requesting message carries is read back as the UTF-8 byte length of its content, and the content is exactly the text after that line and the blank line |
| ChatUtilsModel.ImdnBuildersDeclareContentLength | core/src/com/gsma/rcs/core/ims/service/im/chat/ChatUtils.java:468-506 | both buildCpimMessageWithImdn and buildCpimMessageWithDeliveredImdn declare the UTF-8 byte length of their content, which follows the Content-length line and a blank line |
| ChatUtilsModel.MessageIdRoundTrip | core/src/com/gsma/rcs/core/ims/service/im/chat/ChatUtils.java:392-408 | the message id written into a CPIM message with IMDN headers is read back by getMessageId, trimmed |
| ChatUtilsModel.DispositionRoundTrip | core/src/com/gsma/rcs/core/ims/service/im/chat/ChatUtils.java:340-384 | a message built with both notifications asks for delivery and display, and one built with delivery only asks for delivery and not display |
| ChatUtilsModel.NotificationElement | core/src/com/gsma/rcs/core/ims/service/im/chat/ChatUtils.java:580-596 | displayed gives display-notification, delivered gives delivery-notification, and any other status processing-notification |
| ChatUtilsModel.BuildDeliveryReport | core/src/com/gsma/rcs/core/ims/service/im/chat/ChatUtils.java:580-596 | the document holds the message-id element and the status inside the element its status calls for |
| ChatUtilsModel.AdditionalRcseTags | core/src/com/gsma/rcs/core/ims/service/im/chat/ChatUtils.java:137-160 | the RCS-e tags listed are exactly those of the enabled features: geolocation push, file transfer, HTTP transfer and store-and-forward transfer |
| ChatUtilsModel.SupportedFeatureTagsForChat | core/src/com/gsma/rcs/core/ims/service/im/chat/ChatUtils.java:137-160 | the OMA IM tag first, then one quoted, comma-joined RCS-e tag only when some feature is enabled |
| ChatUtilsModel.SupportedFeatureTagsForGroupChat | core/src/com/gsma/rcs/core/ims/service/im/chat/ChatUtils.java:96-119 | the group chat offers the same tags as a one-to-one chat |
| ChatUtilsModel.AcceptContactTagsForGroupChat | core/src/com/gsma/rcs/core/ims/service/im/chat/ChatUtils.java:126-130 | only the OMA IM tag |
| ChatUtilsModel.IsImdnService | core/src/com/gsma/rcs/core/ims/service/im/chat/ChatUtils.java:323-332 | true exactly when the content names the IMDN namespace and the content type is message/cpim, in any case |
| ChatUtilsModel.GetFirstMessageFromCpim | core/src/com/gsma/rcs/core/ims/service/im/chat/ChatUtils.java:746-779 | a first message exists exactly with a CPIM part holding content and type, a remote contact and a message id; it is a geolocation when the type names geolocation, a file transfer when it names the HTTP transfer type, text otherwise; text and file-transfer bodies are the UTF-8 decoding of the content, a geolocation body the content itself |
| ChatUtilsModel.GetFirstMessageFromSubject | core/src/com/gsma/rcs/core/ims/service/im/chat/ChatUtils.java:787-804 | a non-empty Subject from a known contact becomes a text message whose body is the Subject decoded from UTF-8, with a generated id and the current time |
| ChatUtilsModel.GetFirstMessage | core/src/com/gsma/rcs/core/ims/service/im/chat/ChatUtils.java:721-728 | the CPIM part is preferred and the Subject used only when it gives nothing; any result comes from the remote contact |
| ServiceExtensionManagerModel.ParseExtensions | core/src/com/gsma/rcs/core/ims/service/extension/ServiceExtensionManager.java:215-228 | an absent or empty string gives no extension; otherwise the extensions are the non-blank pieces between ';' |
| ServiceExtensionManagerModel.JoinExtensions | core/src/com/gsma/rcs/core/ims/service/extension/ServiceExtensionManager.java:236-256 | the intended join: the non-blank extensions with ';' between them, and "" for none |
| ServiceExtensionManagerModel.JoinsDifferByTrailingSeparator | core/src/com/gsma/rcs/core/ims/service/extension/ServiceExtensionManager.java:236-256 | the join as written is the intended join plus at most one trailing ';' |
| ServiceExtensionManagerModel.BlankIteratedLastLeavesSeparator | core/src/com/gsma/rcs/core/ims/service/extension/ServiceExtensionManager.java:236-256 | as written, "a" followed by a blank extension joins to "a;" where "a" is intended |
| ServiceExtensionManagerModel.TrailingSeparatorWhenBlankIteratedLast | core/src/com/gsma/rcs/core/ims/service/extension/ServiceExtensionManager.java:236-256 | whenever a blank extension comes after the last kept one, the join as written ends with a ';' the intended join does not have |
| ServiceExtensionManagerModel.ParseJoinRoundTrip | core/src/com/gsma/rcs/core/ims/service/extension/ServiceExtensionManager.java:215-256 | parsing the joined extensions gives back the set of non-blank, separator-free extensions |
| ServiceExtensionManagerModel.ParseIgnoresTrailingSeparator | core/src/com/gsma/rcs/core/ims/service/extension/ServiceExtensionManager.java:215-228 | a trailing ';' does not change what is parsed |
| ServiceExtensionManagerModel.ParseJoinAsWrittenRoundTrip | core/src/com/gsma/rcs/core/ims/service/extension/ServiceExtensionManager.java:215-256 | the join as written still parses back to the same set |
| ServiceExtensionManagerModel.DeclaredExtensions | core/src/com/gsma/rcs/core/ims/service/extension/ServiceExtensionManager.java:124-169 | the extensions the applications declare are non-blank and free of ';' |
| ServiceExtensionManagerModel.ServiceExtensionManager.constructor | core/src/com/gsma/rcs/core/ims/service/extension/ServiceExtensionManager.java:62-64 | the manager starts from the settings it is given (whether extensions are allowed, the supported extensions) and has restarted no registration |
| ServiceExtensionManagerModel.ServiceExtensionManager.IsExtensionAuthorized | core/src/com/gsma/rcs/core/ims/service/extension/ServiceExtensionManager.java:178-189 | an extension is authorized exactly when extensions are allowed |
| ServiceExtensionManagerModel.ServiceExtensionManager.CheckExtensions | core/src/com/gsma/rcs/core/ims/service/extension/ServiceExtensionManager.java:100-117 | the supported extensions are kept, and the new ones are added exactly when extensions are allowed |
| ServiceExtensionManagerModel.ServiceExtensionManager.AuthorizedExtensions | core/src/com/gsma/rcs/core/ims/service/extension/ServiceExtensionManager.java:124-169 | all declared extensions when extensions are allowed, none otherwise |
| ServiceExtensionManagerModel.ServiceExtensionManager.UpdateSupportedExtensions | core/src/com/gsma/rcs/core/ims/service/extension/ServiceExtensionManager.java:124-169 | with no context nothing changes; otherwise the authorized extensions are saved, and registration restarts once exactly when the core is started and the set changed |
| ServiceExtensionManagerModel.ServiceExtensionManager.RemoveSupportedExtensions | core/src/com/gsma/rcs/core/ims/service/extension/ServiceExtensionManager.java:196-198 | the same update as updateSupportedExtensions: the recomputed set, and one registration restart exactly when the stack is started and the set changed |
| ServiceExtensionManagerModel.ServiceExtensionManager.AddNewSupportedExtensions | core/src/com/gsma/rcs/core/ims/service/extension/ServiceExtensionManager.java:205-207 | the same update as updateSupportedExtensions: the recomputed set, and one registration restart exactly when the stack is started and the set changed |
| SessionEvents.SetupNameRoundTrip | core/src/com/gsma/rcs/core/ims/service/richcall/image/TerminatingImageTransferSession.java:218-223 | the setup attribute value written for a known role is read back as the same role |
| SessionEvents.CreateSetupAnswer | core/src/com/gsma/rcs/core/ims/service/richcall/image/TerminatingImageTransferSession.java:228-229 | the local answer to any offered setup role is either active or passive |
| SessionEvents.SetupAnswerComplements | core/src/com/gsma/rcs/core/ims/service/richcall/image/TerminatingImageTransferSession.java:228-229 | an active offer is answered passive and a passive offer active, actpass is answered active and any other value passive |
| SessionEvents.MissingSetupAnsweredActive | core/src/com/gsma/rcs/core/ims/service/richcall/image/TerminatingImageTransferSession.java:218-229 | an offer without a setup attribute counts as passive and is therefore answered active |
| TerminatingImageSessionModel.TerminatingImageTransferSession.constructor | core/src/com/gsma/rcs/core/ims/service/richcall/image/TerminatingImageTransferSession.java:88-96 | a new terminating session has no MSRP manager, is neither accepted, transferred, interrupted nor terminated, and has emitted nothing |
| TerminatingImageSessionModel.TerminatingImageTransferSession.Run | core/src/com/gsma/rcs/core/ims/service/richcall/image/TerminatingImageTransferSession.java:101-374 | the events emitted are those of the image-share answer flow for the content, the user's answer, the remote media, the interruption flag, the ACK outcome and the session timer; the session is accepted exactly when content is present and the invitation accepted; an MSRP manager is created on the negotiated local port exactly when the remote media could be read |
| TerminatingImageSessionModel.TerminatingImageTransferSession.StartMedia | core/src/com/gsma/rcs/core/ims/service/richcall/image/TerminatingImageTransferSession.java:196-374 | after acceptance the local setup is negotiated, the MSRP manager is created on port 9 for an active answer or on a generated port otherwise, and the 200 OK, ACK and MSRP open steps are emitted in the source's order |
| TerminatingImageSessionModel.TerminatingImageTransferSession.MsrpDataReceived | core/src/com/gsma/rcs/core/ims/service/richcall/image/TerminatingImageTransferSession.java:405-433 | the image is marked transferred; a failed save deletes the temporary file and reports a media-saving error, otherwise the listeners learn the content was transferred |
| TerminatingImageSessionModel.TerminatingImageTransferSession.MsrpTransferAborted | core/src/com/gsma/rcs/core/ims/service/richcall/image/TerminatingImageTransferSession.java:480-489 | the temporary file is deleted exactly when the image had not been transferred |
| TerminatingImageSessionModel.TerminatingImageTransferSession.CloseMediaSession | core/src/com/gsma/rcs/core/ims/service/richcall/image/TerminatingImageTransferSession.java:558-570 | the MSRP session is closed when a manager exists and the partial file is deleted when the image had not been transferred |
| TerminatingImageSessionModel.TerminatingImageTransferSession.MsrpTransferError | core/src/com/gsma/rcs/core/ims/service/richcall/image/TerminatingImageTransferSession.java:498-535 | a transfer error is ignored once the session is interrupted or terminated; otherwise the session is terminated by the system, closed and removed, and listeners get a transfer error unless the remote had terminated |
| TerminatingImageSessionModel.ImageErrors | core/src/com/gsma/rcs/core/ims/service/richcall/image/TerminatingImageTransferSession.java:101-374 | one run of the answer flow hands at most one error to handleError |
| TerminatingImageSessionModel.RunProjections | core/src/com/gsma/rcs/core/ims/service/richcall/image/TerminatingImageTransferSession.java:101-374 | the errors and listener notifications of one run are exactly those tabulated per answer, media outcome and ACK outcome |
| TerminatingImageSessionModel.MissingContentRefusedBeforeInvite | core/src/com/gsma/rcs/core/ims/service/richcall/image/TerminatingImageTransferSession.java:107-121 | without content the session sends 180 Ringing, then 415, then reports an unsupported media type, and notifies no listener |
| TerminatingImageSessionModel.AnswerBranches | core/src/com/gsma/rcs/core/ims/service/richcall/image/TerminatingImageTransferSession.java:132-194 | rejection, timeout (486 Busy Here), system rejection and cancellation each remove the session and notify the matching rejection; an unanswered or deleted invitation stops silently |
| TerminatingImageSessionModel.OkOnlyWhenAccepted | core/src/com/gsma/rcs/core/ims/service/richcall/image/TerminatingImageTransferSession.java:132-306 | no 200 OK is sent unless content is present, the invitation was accepted, the remote media was read and the session was not interrupted |
| TerminatingImageSessionModel.LocalPortRule | core/src/com/gsma/rcs/core/ims/service/richcall/image/TerminatingImageTransferSession.java:234-240 | the local MSRP port is 9 exactly when the local setup is active, and always when the offer had no setup attribute |
| TerminatingImageSessionModel.PassiveServerOpensBeforeOk | core/src/com/gsma/rcs/core/ims/service/richcall/image/TerminatingImageTransferSession.java:267-306 | with a passive local setup the MSRP server session is opened and signalling established before the 200 OK, and no client session is opened |
| TerminatingImageSessionModel.ActiveAckOrder | core/src/com/gsma/rcs/core/ims/service/richcall/image/TerminatingImageTransferSession.java:309-352 | with an active local setup and an ACK the client session is opened after the 200 OK, then the session is established, listeners are told it started and the session timer starts |
| TerminatingImageSessionModel.NoAckFailsInitiation | core/src/com/gsma/rcs/core/ims/service/richcall/image/TerminatingImageTransferSession.java:353-360 | without an ACK the last event is a session-initiation-failed error and the session is never established |
| TerminatingImageSessionModel.ExceptionGivesOneUnexpectedError | core/src/com/gsma/rcs/core/ims/service/richcall/image/TerminatingImageTransferSession.java:361-369 | an unreadable remote SDP or a failed send ends the run with exactly one unexpected-exception error and no established session |
| TerminatingImageSessionModel.TransferErrorIgnoredWhenStopped | core/src/com/gsma/rcs/core/ims/service/richcall/image/TerminatingImageTransferSession.java:498-503 | a transfer error on an interrupted or terminated session emits nothing |
| TerminatingImageSessionModel.TransferErrorOrder | core/src/com/gsma/rcs/core/ims/service/richcall/image/TerminatingImageTransferSession.java:504-535 | after a transfer error the session is terminated by the system before it is removed |
| TerminatingImageSessionModel.TransferErrorDeletesPartialFile | core/src/com/gsma/rcs/core/ims/service/richcall/image/TerminatingImageTransferSession.java:504-535 | a transfer error deletes the temporary file exactly when the image had not been transferred |
| TerminatingImageSessionModel.TransferErrorNotes | core/src/com/gsma/rcs/core/ims/service/richcall/image/TerminatingImageTransferSession.java:504-535 | a transfer error notifies a media-transfer failure unless the image was transferred or the remote had terminated the session |
| TerminatingSipMsrpSessionModel.TerminatingSipMsrpSession.constructor | core/src/com/gsma/rcs/core/ims/service/sip/messaging/TerminatingSipMsrpSession.java:74-84 | a new terminating MSRP session is neither accepted nor interrupted and has emitted nothing |
| TerminatingSipMsrpSessionModel.TerminatingSipMsrpSession.Run | core/src/com/gsma/rcs/core/ims/service/sip/messaging/TerminatingSipMsrpSession.java:89-318 | the events emitted are those of the answer flow for the user's answer, the remote media, the two interruption checks, the ACK outcome and the session timer; the session is accepted exactly when the invitation was accepted, and it becomes interrupted only when it already was or the media set-up of an accepted invitation with readable remote media is interrupted |
| TerminatingSipMsrpSessionModel.TerminatingSipMsrpSession.StartMedia | core/src/com/gsma/rcs/core/ims/service/sip/messaging/TerminatingSipMsrpSession.java:176-317 | after acceptance the local setup is negotiated, the local SDP set, the MSRP server or client session opened by setup role, and the 200 OK, ACK handling and start notification follow in the source's order; the interrupted flag becomes set only by an interruption during the MSRP set-up of readable remote media |
| TerminatingSipMsrpSessionModel.SipErrors | core/src/com/gsma/rcs/core/ims/service/sip/messaging/TerminatingSipMsrpSession.java:89-318 | one run hands at most one error to handleError |
| TerminatingSipMsrpSessionModel.SipRunProjections | core/src/com/gsma/rcs/core/ims/service/sip/messaging/TerminatingSipMsrpSession.java:89-318 | the errors and listener notifications of one run are exactly those tabulated per answer, media outcome, interruption and ACK outcome |
| TerminatingSipMsrpSessionModel.InvitedBeforeAnswer | core/src/com/gsma/rcs/core/ims/service/sip/messaging/TerminatingSipMsrpSession.java:95-101 | every run first sends 180 Ringing and then tells the listeners about the invitation |
| TerminatingSipMsrpSessionModel.UnansweredBranches | core/src/com/gsma/rcs/core/ims/service/sip/messaging/TerminatingSipMsrpSession.java:104-174 | rejection, timeout (486 Busy Here first), cancellation, system rejection and deletion each remove the session; the first three notify the matching rejection reason |
| TerminatingSipMsrpSessionModel.TimeoutBusyBeforeRemoval | core/src/com/gsma/rcs/core/ims/service/sip/messaging/TerminatingSipMsrpSession.java:118-132 | on an invitation timeout 486 Busy Here is sent before the session is removed |
| TerminatingSipMsrpSessionModel.MsrpStartsBeforeOk | core/src/com/gsma/rcs/core/ims/service/sip/messaging/TerminatingSipMsrpSession.java:216-281 | the MSRP server (passive setup) or client (active setup) session is started, and signalling established, before the 200 OK is sent |
| TerminatingSipMsrpSessionModel.InterruptionEndsWithoutOk | core/src/com/gsma/rcs/core/ims/service/sip/messaging/TerminatingSipMsrpSession.java:209-267 | an interruption noticed before or after the media setup ends the run without a 200 OK |
| TerminatingSipMsrpSessionModel.AckOrder | core/src/com/gsma/rcs/core/ims/service/sip/messaging/TerminatingSipMsrpSession.java:283-301 | with an ACK the session is established, the session timer started and the listeners told it started, in that order, as the last events |
| TerminatingSipMsrpSessionModel.FailuresEndTheRun | core/src/com/gsma/rcs/core/ims/service/sip/messaging/TerminatingSipMsrpSession.java:302-317 | a missing ACK ends the run with a session-initiation-failed error, and an unreadable SDP or failed send with an unexpected-exception error, each as the last event and the only error |
| TerminatingStoreForwardSessionModel.ReplacementCases | core/src/com/gsma/rcs/core/ims/service/im/chat/standfw/TerminatingStoreAndForwardNotifSession.java:446-481 | with no current one-to-one session the new one is simply added; an unestablished local session makes the new one be rejected; an established one is aborted; an unestablished remote one is rejected |
| TerminatingStoreForwardSessionModel.StartOrder | core/src/com/gsma/rcs/core/ims/service/im/chat/standfw/TerminatingStoreAndForwardNotifSession.java:439-484 | the new session is started exactly when it is not itself rejected, and then it is added to the service before its thread starts |
| TerminatingStoreForwardSessionModel.PortRuleReversed | core/src/com/gsma/rcs/core/ims/service/im/chat/standfw/TerminatingStoreAndForwardNotifSession.java:138-143 | the store-and-forward session puts port 9 in its SDP for a passive answer, the opposite of the image-share session's rule |
| TerminatingStoreForwardSessionModel.DataReceivedDelivers | core/src/com/gsma/rcs/core/ims/service/im/chat/standfw/TerminatingStoreAndForwardNotifSession.java:303-351 | received data always updates the activity timer; a delivery report is forwarded exactly for non-empty CPIM data carrying an IMDN, attributed to the CPIM sender or, when that cannot be parsed, to the remote contact; no error or notification is raised |
| TerminatingStoreForwardSessionModel.EmptyDataIgnored | core/src/com/gsma/rcs/core/ims/service/im/chat/standfw/TerminatingStoreAndForwardNotifSession.java:311-316 | missing or empty data only updates the activity timer |
| TerminatingStoreForwardSessionModel.TerminatingStoreAndForwardNotifSession.constructor | core/src/com/gsma/rcs/core/ims/service/im/chat/standfw/TerminatingStoreAndForwardNotifSession.java:83-98 | a new session keeps its identity, its MSRP manager port and its service, and has emitted nothing |
| TerminatingStoreForwardSessionModel.TerminatingStoreAndForwardNotifSession.StartSession | core/src/com/gsma/rcs/core/ims/service/im/chat/standfw/TerminatingStoreAndForwardNotifSession.java:439-484 | the cached one-to-one session for the contact is handled as the replacement rule says; unless the new session is rejected it replaces the cache entry for its contact and is cached under its Call-ID; service invariants are kept |
| TerminatingStoreForwardSessionModel.TerminatingStoreAndForwardNotifSession.HandleSessionError | core/src/com/gsma/rcs/core/ims/service/im/chat/standfw/TerminatingStoreAndForwardNotifSession.java:274-285 | an error closes the media, is reported, and removes the session from the one-to-one cache and from the IMS session cache |
| TerminatingStoreForwardSessionModel.TerminatingStoreAndForwardNotifSession.Run | core/src/com/gsma/rcs/core/ims/service/im/chat/standfw/TerminatingStoreAndForwardNotifSession.java:103-246 | the events emitted are those of the answer flow for the remote media, the interruption flag, the ACK outcome and the outcome of the connecting side's MSRP open; a failing run, including an active open that fails after the ACK, removes the session from both caches |
| TerminatingStoreForwardSessionModel.TerminatingStoreAndForwardNotifSession.Answer | core/src/com/gsma/rcs/core/ims/service/im/chat/standfw/TerminatingStoreAndForwardNotifSession.java:192-237 | the 200 OK is sent after signalling is established; without an ACK, or when the connecting side cannot open its MSRP session after it, the session is removed from both caches |
| TerminatingStoreForwardSessionModel.TerminatingStoreAndForwardNotifSession.MsrpDataReceived | core/src/com/gsma/rcs/core/ims/service/im/chat/standfw/TerminatingStoreAndForwardNotifSession.java:303-351 | the emitted events are those of the received-data rule for the session's remote contact |
| TerminatingStoreForwardSessionModel.ForwardErrors | core/src/com/gsma/rcs/core/ims/service/im/chat/standfw/TerminatingStoreAndForwardNotifSession.java:103-246 | a run reports exactly one error when it fails and none otherwise; it fails when the offer cannot be read or, unless interrupted, when the ACK does not come or the active MSRP open fails; only a missing ACK is a session initiation failure |
| TerminatingStoreForwardSessionModel.RunProjections | core/src/com/gsma/rcs/core/ims/service/im/chat/standfw/TerminatingStoreAndForwardNotifSession.java:103-246 | the errors of a run are exactly those of the failure table, including the unexpected exception of a failed active MSRP open, and no listener is notified |
| TerminatingStoreForwardSessionModel.PassiveRun | core/src/com/gsma/rcs/core/ims/service/im/chat/standfw/TerminatingStoreAndForwardNotifSession.java:155-228 | with a passive answer the SDP offers port 9, the server session is opened and an empty chunk sent before signalling and the 200 OK, then the session is established and the activity manager started |
| TerminatingStoreForwardSessionModel.ActiveRun | core/src/com/gsma/rcs/core/ims/service/im/chat/standfw/TerminatingStoreAndForwardNotifSession.java:138-246 | with an active answer the SDP offers the manager's port and the client session is opened only after the ACK, once the session is established; when that open fails the established session ends in handleError with an unexpected exception, the media closed and the session removed |
| TerminatingStoreForwardSessionModel.NoAckFails | core/src/com/gsma/rcs/core/ims/service/im/chat/standfw/TerminatingStoreAndForwardNotifSession.java:230-285 | without an ACK the run reports a session-initiation failure, closes the MSRP session and removes the session, in that order |
| GeolocTransferSessionModel.OfferAttributes | core/src/com/gsma/rcs/core/ims/service/richcall/geoloc/OriginatingGeolocTransferSession.java:116-137 | the SDP offer announces MSRP over TCP on port 9, the offered setup role, the content's encoding as accept type, the transfer id and send-only direction, and adds a file-selector and a file-location line exactly when those attributes exist |
| GeolocTransferSessionModel.JoinLinesEndsWithCrlf | core/src/com/gsma/rcs/core/ims/service/richcall/geoloc/OriginatingGeolocTransferSession.java:118-137 | every SDP line written, the last one included, ends with CRLF |
| GeolocTransferSessionModel.GeolocTransferSession.constructor | core/src/com/gsma/rcs/core/ims/service/richcall/geoloc/GeolocTransferSession.java:75-79 | a new geolocation session holds no geolocation, has not transferred it, is not interrupted and has no MSRP manager |
| GeolocTransferSessionModel.GeolocTransferSession.SetGeoloc | core/src/com/gsma/rcs/core/ims/service/richcall/geoloc/GeolocTransferSession.java:86-88 | the stored geolocation becomes the one given |
| GeolocTransferSessionModel.GeolocTransferSession.GetGeoloc | core/src/com/gsma/rcs/core/ims/service/richcall/geoloc/GeolocTransferSession.java:95-97 | returns the stored geolocation |
| GeolocTransferSessionModel.GeolocTransferSession.GeolocTransfered | core/src/com/gsma/rcs/core/ims/service/richcall/geoloc/GeolocTransferSession.java:102-104 | the session is marked as having transferred its geolocation |
| GeolocTransferSessionModel.GeolocTransferSession.IsGeolocTransfered | core/src/com/gsma/rcs/core/ims/service/richcall/geoloc/GeolocTransferSession.java:111-113 | returns whether the geolocation was transferred |
| GeolocTransferSessionModel.GeolocTransferSession.HandleSessionError | core/src/com/gsma/rcs/core/ims/service/richcall/geoloc/GeolocTransferSession.java:131-152 | an error on an interrupted session is ignored; otherwise the media is closed, the session removed and the error passed to the listeners |
| GeolocTransferSessionModel.GeolocTransferSession.StartSession | core/src/com/gsma/rcs/core/ims/service/richcall/geoloc/GeolocTransferSession.java:155-158 | the session is added to its service before its thread starts |
| GeolocTransferSessionModel.GeolocTransferSession.RemoveSession | core/src/com/gsma/rcs/core/ims/service/richcall/geoloc/GeolocTransferSession.java:161-163 | the session is removed from its service |
| GeolocTransferSessionModel.ErrorOutcome | core/src/com/gsma/rcs/core/ims/service/richcall/geoloc/GeolocTransferSession.java:131-152 | an error that is not ignored is handed to the listeners exactly once, after the MSRP session is closed (when there is one) and the session removed |
| GeolocTransferSessionModel.OriginatingGeolocTransferSession.constructor | core/src/com/gsma/rcs/core/ims/service/richcall/geoloc/OriginatingGeolocTransferSession.java:80-90 | an outgoing geolocation session holds the geolocation to send, has transferred nothing, has no MSRP manager and has not built its SDP |
| GeolocTransferSessionModel.OriginatingGeolocTransferSession.Run | core/src/com/gsma/rcs/core/ims/service/richcall/geoloc/OriginatingGeolocTransferSession.java:95-169 | an MSRP manager is created, the local SDP is exactly the offer built from the setup role, NTP time, address, path, encoding, transfer id and optional selector and location, and the INVITE steps follow in the source's order; a throw from creating the INVITE goes to the error handling right after the SDP is stored, a throw from sending it only after the authorization and the storing of the INVITE |
| GeolocTransferSessionModel.OfferStoredBeforeSent | core/src/com/gsma/rcs/core/ims/service/richcall/geoloc/OriginatingGeolocTransferSession.java:140-155 | the local SDP is stored, the authorization header set and the INVITE stored before the INVITE is sent |
| GeolocTransferSessionModel.FailedInviteTail | core/src/com/gsma/rcs/core/ims/service/richcall/geoloc/OriginatingGeolocTransferSession.java:146-164 | a failed INVITE leaves the SDP, plus the authorization and the stored INVITE when only the send failed, then close, removal and the unexpected-exception notification unless interrupted |
| GeolocTransferSessionModel.FailedInviteSteps | core/src/com/gsma/rcs/core/ims/service/richcall/geoloc/OriginatingGeolocTransferSession.java:146-164 | a failed creation or send sends no INVITE; a failed send comes after the authorization and the storing of the INVITE, a failed creation before both |
| GeolocTransferSessionModel.OriginatingGeolocTransferSession.MsrpDataTransfered | core/src/com/gsma/rcs/core/ims/service/richcall/geoloc/OriginatingGeolocTransferSession.java:235-259 | the geolocation is marked transferred, and the session is terminated, closed and removed with the listeners told the content was transferred |
| GeolocTransferSessionModel.DataTransferedOutcome | core/src/com/gsma/rcs/core/ims/service/richcall/geoloc/OriginatingGeolocTransferSession.java:235-259 | after the transfer the listeners learn of it once and no error is raised; the session is terminated by the user before it is removed |
| GeolocTransferSessionModel.OriginatingGeolocTransferSession.MsrpTransferError | core/src/com/gsma/rcs/core/ims/service/richcall/geoloc/OriginatingGeolocTransferSession.java:311-338 | a transfer error on an interrupted session is ignored; otherwise the transfer-error trace is emitted |
| GeolocTransferSessionModel.TransferErrorOutcome | core/src/com/gsma/rcs/core/ims/service/richcall/geoloc/OriginatingGeolocTransferSession.java:311-338 | a transfer error terminates the session by the system, requests the remote's capabilities, removes the session and reports a media-transfer failure, in that order |
| GeolocTransferSessionModel.OriginatingGeolocTransferSession.Handle180Ringing | core/src/com/gsma/rcs/core/ims/service/richcall/geoloc/OriginatingGeolocTransferSession.java:346-354 | a 180 Ringing response is passed on to the listeners as ringing |
| SharingStates.LiveState | core/src/com/gsma/rcs/service/api/GeolocSharingImpl.java:134-149 | the state derived from a live session is one of started, accepting, invited or initiating |
| SharingStates.LiveStateCases | core/src/com/gsma/rcs/service/api/GeolocSharingImpl.java:134-149 | a live session is started exactly when established; otherwise an incoming one is accepting once accepted and invited before, and an outgoing one initiating |
| SharingStates.AbortedStateAndReason | core/src/com/gsma/rcs/service/api/GeolocSharingImpl.java:325-352 | an abort by the remote or by inactivity gives no state change; any other abort gives an aborted or failed state whose reason code fits that state |
| SharingStates.AbortedMappingCases | core/src/com/gsma/rcs/service/api/GeolocSharingImpl.java:325-352 | a lost connection, and only that, maps to a failed state; a user termination, and only that, gives the aborted-by-user reason |
| ImageSharingImplModel.ImageStateAndReason | core/src/com/gsma/rcs/service/api/ImageSharingImpl.java:99-129 | an unexpected exception or an uninitialized media renderer maps to no state (the source throws); every other sharing error maps to a failed or rejected state with a reason code of that state |
| ImageSharingImplModel.ImageErrorRejections | core/src/com/gsma/rcs/service/api/ImageSharingImpl.java:99-129 | an image-sharing error gives the rejected state exactly for a cancelled or declined initiation, too little storage space or a media size over the limit |
| ImageSharingImplModel.AcceptInvitation | core/src/com/gsma/rcs/service/api/ImageSharingImpl.java:284-303 | accepting throws an illegal-state error exactly when no live session has the sharing id |
| ImageSharingImplModel.RejectInvitation | core/src/com/gsma/rcs/service/api/ImageSharingImpl.java:308-326 | rejecting throws an illegal-state error exactly when no live session has the sharing id |
| ImageSharingImplModel.AbortSharing | core/src/com/gsma/rcs/service/api/ImageSharingImpl.java:331-353 | aborting throws an illegal-state error exactly when no live session has the sharing id |
| ImageSharingImplModel.RequestGuards | core/src/com/gsma/rcs/service/api/ImageSharingImpl.java:284-353 | with a live session accepting asks it to accept and rejecting asks it to decline; aborting asks for a user termination unless the image was already transferred, in which case it does nothing |
| ImageSharingImplModel.ImageSharingImpl.constructor | core/src/com/gsma/rcs/service/api/ImageSharingImpl.java:85-94 | the API object keeps its sharing id, its live session and stored record, is registered and has done nothing |
| ImageSharingImplModel.GettersFollowSession | core/src/com/gsma/rcs/service/api/ImageSharingImpl.java:161-271 | without a live session the contact, state, reason and direction come from the stored record; with one the reason is unspecified, the direction is incoming exactly when the remote initiated, and the state is started exactly when the dialog is established and otherwise accepting, invited or initiating |
| ImageSharingImplModel.ImageSharingImpl.SetStateAndBroadcast | core/src/com/gsma/rcs/service/api/ImageSharingImpl.java:131-135 | the stored state and reason become the given ones, then they are broadcast |
| ImageSharingImplModel.ImageSharingImpl.RemoveAndSet | core/src/com/gsma/rcs/service/api/ImageSharingImpl.java:137-145 | the sharing is removed from its service, then the given state and reason are stored and broadcast |
| ImageSharingImplModel.ImageSharingImpl.HandleSessionRejectedByUser | core/src/com/gsma/rcs/service/api/ImageSharingImpl.java:487-489 | the sharing is removed and stored and broadcast as rejected by the user |
| ImageSharingImplModel.ImageSharingImpl.HandleSessionRejectedByTimeout | core/src/com/gsma/rcs/service/api/ImageSharingImpl.java:495-497 | the sharing is removed and stored and broadcast as rejected by inactivity |
| ImageSharingImplModel.ImageSharingImpl.HandleSessionRejectedByRemote | core/src/com/gsma/rcs/service/api/ImageSharingImpl.java:500-502 | the sharing is removed and stored and broadcast as rejected by the remote |
| ImageSharingImplModel.ImageSharingImpl.HandleSessionStarted | core/src/com/gsma/rcs/service/api/ImageSharingImpl.java:360-368 | the sharing is stored and broadcast as started, with no reason |
| ImageSharingImplModel.ImageSharingImpl.HandleSessionAborted | core/src/com/gsma/rcs/service/api/ImageSharingImpl.java:375-403 | the sharing is removed; an abort by the remote or by inactivity then throws without storing anything, any other abort stores and broadcasts its mapped state and reason |
| ImageSharingImplModel.ImageSharingImpl.HandleSessionTerminatedByRemote | core/src/com/gsma/rcs/service/api/ImageSharingImpl.java:408-424 | the sharing is removed; an image already transferred keeps its state, any other is stored and broadcast as aborted by the remote |
| ImageSharingImplModel.ImageSharingImpl.HandleSharingError | core/src/com/gsma/rcs/service/api/ImageSharingImpl.java:431-442 | an error that maps to no state throws and changes nothing; any other removes the sharing and stores and broadcasts the mapped state and reason |
| ImageSharingImplModel.ImageSharingImpl.HandleSharingProgress | core/src/com/gsma/rcs/service/api/ImageSharingImpl.java:450-456 | the progress is stored and broadcast with the total size |
| ImageSharingImplModel.ImageSharingImpl.HandleContentTransfered | core/src/com/gsma/rcs/service/api/ImageSharingImpl.java:464-473 | the sharing is removed and stored and broadcast as transferred |
| ImageSharingImplModel.ImageSharingImpl.HandleSessionAccepted | core/src/com/gsma/rcs/service/api/ImageSharingImpl.java:476-484 | the sharing is stored and broadcast as accepting |
| ImageSharingImplModel.ImageSharingImpl.HandleSessionInvited | core/src/com/gsma/rcs/service/api/ImageSharingImpl.java:505-515 | a new incoming record in the invited state is stored with the contact, content and timestamp and nothing transferred, then the invitation is broadcast |
| ImageSharingImplModel.ImageSharingImpl.Handle180Ringing | core/src/com/gsma/rcs/service/api/ImageSharingImpl.java:518-523 | the sharing is stored and broadcast as ringing |
| GeolocSharingImplModel.GeolocStateAndReason | core/src/com/gsma/rcs/service/api/GeolocSharingImpl.java:268-289 | an unexpected exception, an uninitialized media renderer, too little storage space or a media size over the limit maps to no state (the source throws); every other sharing error maps to a failed or rejected state with a reason code of that state |
| GeolocSharingImplModel.MappingsDiffer | core/src/com/gsma/rcs/service/api/GeolocSharingImpl.java:268-289 | the geolocation and image mappings agree on every error except a media-saving failure (failed sharing against failed saving) and the two storage errors, which only the image mapping accepts |
| GeolocSharingImplModel.AcceptInvitation | core/src/com/gsma/rcs/service/api/GeolocSharingImpl.java:192-211 | accepting throws an illegal-state error exactly when no live session has the sharing id |
| GeolocSharingImplModel.RejectInvitation | core/src/com/gsma/rcs/service/api/GeolocSharingImpl.java:216-234 | rejecting throws an illegal-state error exactly when no live session has the sharing id |
| GeolocSharingImplModel.AbortSharing | core/src/com/gsma/rcs/service/api/GeolocSharingImpl.java:239-261 | aborting throws an illegal-state error exactly when no live session has the sharing id |
| GeolocSharingImplModel.RequestGuards | core/src/com/gsma/rcs/service/api/GeolocSharingImpl.java:192-261 | with a live session accepting asks it to accept and rejecting asks it to decline; aborting asks for a user termination unless the geolocation was already transferred, in which case it does nothing |
| GeolocSharingImplModel.GeolocSharingImpl.constructor | core/src/com/gsma/rcs/service/api/GeolocSharingImpl.java:83-91 | the API object keeps its sharing id, its live session and stored record, is registered and has done nothing |
| GeolocSharingImplModel.GettersFollowSession | core/src/com/gsma/rcs/service/api/GeolocSharingImpl.java:107-179 | without a live session the geolocation, state and reason come from the stored record; with one the geolocation is the session's, the reason is unspecified, the direction is incoming exactly when the remote initiated, and the state is started exactly when the dialog is established |
| GeolocSharingImplModel.GeolocSharingImpl.SetStateAndBroadcast | core/src/com/gsma/rcs/service/api/GeolocSharingImpl.java:291-295 | the stored state and reason become the given ones, then they are broadcast |
| GeolocSharingImplModel.GeolocSharingImpl.HandleSessionRejected | core/src/com/gsma/rcs/service/api/GeolocSharingImpl.java:297-305 | the sharing is removed, then stored and broadcast as rejected with the given reason |
| GeolocSharingImplModel.GeolocSharingImpl.HandleSessionRejectedByUser | core/src/com/gsma/rcs/service/api/GeolocSharingImpl.java:429-431 | the sharing is removed and stored and broadcast as rejected by the user |
| GeolocSharingImplModel.GeolocSharingImpl.HandleSessionRejectedByTimeout | core/src/com/gsma/rcs/service/api/GeolocSharingImpl.java:437-439 | the sharing is removed and stored and broadcast as rejected by inactivity |
| GeolocSharingImplModel.GeolocSharingImpl.HandleSessionRejectedByRemote | core/src/com/gsma/rcs/service/api/GeolocSharingImpl.java:442-444 | the sharing is removed and stored and broadcast as rejected by the remote |
| GeolocSharingImplModel.GeolocSharingImpl.HandleSessionStarted | core/src/com/gsma/rcs/service/api/GeolocSharingImpl.java:310-317 | the sharing is stored and broadcast as started, with no reason |
| GeolocSharingImplModel.GeolocSharingImpl.HandleSessionAborted | core/src/com/gsma/rcs/service/api/GeolocSharingImpl.java:325-352 | the sharing is removed; an abort by the remote or by inactivity then throws without storing anything, any other abort stores and broadcasts its mapped state and reason |
| GeolocSharingImplModel.GeolocSharingImpl.HandleSessionTerminatedByRemote | core/src/com/gsma/rcs/service/api/GeolocSharingImpl.java:357-373 | the sharing is removed; a geolocation already transferred keeps its state, any other is stored and broadcast as aborted by the remote |
| GeolocSharingImplModel.GeolocSharingImpl.HandleSharingError | core/src/com/gsma/rcs/service/api/GeolocSharingImpl.java:381-393 | an error that maps to no state throws and changes nothing; any other removes the sharing and stores and broadcasts the mapped state and reason |
| GeolocSharingImplModel.GeolocSharingImpl.HandleContentTransfered | core/src/com/gsma/rcs/service/api/GeolocSharingImpl.java:402-416 | the sharing is removed; an incoming geolocation is written into the stored row with the TRANSFERRED state and no reason, an outgoing one gets the TRANSFERRED state stored, and the transferred state is broadcast either way |
| GeolocSharingImplModel.TransferThenTerminatedByRemote | core/src/com/gsma/rcs/service/api/GeolocSharingImpl.java:357-416 | a BYE after a completed transfer in either direction leaves the sharing TRANSFERRED with no reason and nothing stored or broadcast after the removal, and a received geolocation stays readable once the session is gone |
| GeolocSharingImplModel.GeolocSharingImpl.HandleSessionAccepted | core/src/com/gsma/rcs/service/api/GeolocSharingImpl.java:419-426 | the sharing is stored and broadcast as accepting |
| GeolocSharingImplModel.GeolocSharingImpl.HandleSessionInvited | core/src/com/gsma/rcs/service/api/GeolocSharingImpl.java:447-453 | a new incoming record in the invited state is stored with the contact and timestamp and no geolocation yet, then the invitation is broadcast |
| GeolocSharingImplModel.GeolocSharingImpl.Handle180Ringing | core/src/com/gsma/rcs/service/api/GeolocSharingImpl.java:456-460 | the sharing is stored and broadcast as ringing |
| FtHttpResumeModel.NewFtHttpResume | core/src/com/gsma/rcs/provider/fthttp/FtHttpResume.java:93-108 | construction fails exactly when the size is not positive or the file or file name is missing; a built record has a positive size |
| FtHttpResumeModel.GettersReturnArguments | core/src/com/gsma/rcs/provider/fthttp/FtHttpResume.java:99-189 | every field of a built record, read through its getter, is the constructor argument unchanged |
| FtHttpResumeModel.OptionalFieldsUnchecked | core/src/com/gsma/rcs/provider/fthttp/FtHttpResume.java:95-107 | whether construction succeeds does not depend on the icon, the contact or the chat id |
| FtHttpResumeModel.RoundTrip | core/src/com/gsma/rcs/provider/fthttp/FtHttpResume.java:38-189 | rebuilding a valid record from its own getters gives the same record |
| GroupChatLogModel.UserAbortionToInt | core/src/com/gsma/rcs/provider/messaging/GroupChatLog.java:79-108 | the two user-abortion values are stored as 0 and 1 |
| GroupChatLogModel.UserAbortionValueOf | core/src/com/gsma/rcs/provider/messaging/GroupChatLog.java:79-108 | an integer names a user-abortion value exactly when it is 0 or 1 (any other value throws) |
| GroupChatLogModel.UserAbortionRoundTrip | core/src/com/gsma/rcs/provider/messaging/GroupChatLog.java:79-108 | reading back a stored user-abortion value gives the value, and an accepted integer is the one that value is stored as |
| GroupChatLogModel.ParticipantTextRoundTrip | core/src/com/gsma/rcs/provider/messaging/GroupChatLog.java:126-144 | for a non-empty participant list whose contacts contain no '=' or ',', parsing the written text gives back the list |
| GroupChatLogModel.WriteParticipantInfo | core/src/com/gsma/rcs/provider/messaging/GroupChatLog.java:126-144 | the loop produces the participant text: nothing for an empty list, otherwise contact=status items separated by ',' with no separator after the last |
| GroupChatLogModel.ConnectedMembers | core/src/com/gsma/rcs/provider/messaging/GroupChatLog.java:293-335 | a participant is connected exactly when it is among the stored participants and neither departed nor declined |
| GroupChatLogModel.RejectNextMarks | core/src/com/gsma/rcs/provider/messaging/GroupChatLog.java:344-364 | after the reject-next flag is set, the next invitation is rejected exactly when the chat exists and was aborted by the user |
| GroupChatLogModel.AcceptNextClears | core/src/com/gsma/rcs/provider/messaging/GroupChatLog.java:181-195 | after accepting the next invitation it is no longer rejected; only the row that matched the reject predicate changes, back to server-notified, and every other row is unchanged |
| GroupChatLogModel.RejoinMakesActive | core/src/com/gsma/rcs/provider/messaging/GroupChatLog.java:238-247 | setting a rejoin id adds the chat, and only it, to the active chats eligible for auto-rejoin |
| GroupChatLogModel.AddedChatReadsBack | core/src/com/gsma/rcs/provider/messaging/GroupChatLog.java:151-172 | a new group chat reads back its participants and does not reject its next invitation |
| GroupChatLogModel.AddedChatGettersReadBack | core/src/com/gsma/rcs/provider/messaging/GroupChatLog.java:438-489 | after addGroupChat the state, reason, direction, subject and participant getters return what was added |
| GroupChatLogModel.StateUpdateReadsBack | core/src/com/gsma/rcs/provider/messaging/GroupChatLog.java:198-211 | after a state update the state and reason getters return the new values and the direction and subject getters the old ones for an existing chat, and nothing for a missing one |
| GroupChatLogModel.GroupChatLog.constructor | core/src/com/gsma/rcs/provider/messaging/GroupChatLog.java:115-118 | a new log holds no group chat |
| GroupChatLogModel.GroupChatLog.AddGroupChat | core/src/com/gsma/rcs/provider/messaging/GroupChatLog.java:151-172 | the row for the chat id holds the contact, state, reason, subject, written participant text, direction, creation time, the server-notified flag and no rejoin id |
| GroupChatLogModel.GroupChatLog.AcceptGroupChatNextInvitation | core/src/com/gsma/rcs/provider/messaging/GroupChatLog.java:181-195 | the rows become those of the accept-next rule |
| GroupChatLogModel.GroupChatLog.SetGroupChatStateAndReasonCode | core/src/com/gsma/rcs/provider/messaging/GroupChatLog.java:198-210 | the chat's state and reason change, no other column or row does, and a missing chat changes nothing |
| GroupChatLogModel.GroupChatLog.UpdateGroupChatParticipant | core/src/com/gsma/rcs/provider/messaging/GroupChatLog.java:219-229 | the chat's participant text is rewritten from the given participants, no other column or row changes, and a missing chat changes nothing |
| GroupChatLogModel.GroupChatLog.SetGroupChatRejoinId | core/src/com/gsma/rcs/provider/messaging/GroupChatLog.java:238-247 | the chat's rejoin id is set and its state becomes started; nothing else changes |
| GroupChatLogModel.GroupChatLog.SetRejectNextGroupChatNextInvitation | core/src/com/gsma/rcs/provider/messaging/GroupChatLog.java:496-504 | the chat's user-abortion flag becomes server-not-notified; nothing else changes |
| GroupChatLogModel.GroupChatLog.IsGroupChatNextInviteRejected | core/src/com/gsma/rcs/provider/messaging/GroupChatLog.java:344-364 | the next invitation is rejected exactly when the chat exists, is aborted by the user and its flag reads server-not-notified |
| GroupChatLogModel.GroupChatLog.GetGroupChatConnectedParticipants | core/src/com/gsma/rcs/provider/messaging/GroupChatLog.java:293-335 | the result is the connected subset of the stored participants, or empty when the chat or its participant text is missing or unreadable |
| GroupChatLogModel.GroupChatLog.GetChatIdsOfActiveGroupChatsForAutoRejoin | core/src/com/gsma/rcs/provider/messaging/GroupChatLog.java:511-531 | the result lists, without repeats, exactly the chats whose state is started |
| GroupChatLogModel.GroupChatLog.GetGroupChatState | core/src/com/gsma/rcs/provider/messaging/GroupChatLog.java:449-454 | a state is returned exactly when the chat exists; the value is the stored one through AddedChatGettersReadBack and StateUpdateReadsBack |
| GroupChatLogModel.GroupChatLog.GetGroupChatReasonCode | core/src/com/gsma/rcs/provider/messaging/GroupChatLog.java:461-466 | a reason code is returned exactly when the chat exists; the value is the stored one through AddedChatGettersReadBack and StateUpdateReadsBack |
| GroupChatLogModel.GroupChatLog.GetGroupChatDirection | core/src/com/gsma/rcs/provider/messaging/GroupChatLog.java:438-443 | a direction is returned exactly when the chat exists; the value is the stored one through AddedChatGettersReadBack and StateUpdateReadsBack |
| GroupChatLogModel.GroupChatLog.GetSubject | core/src/com/gsma/rcs/provider/messaging/GroupChatLog.java:472-477 | a subject (possibly none) is returned exactly when the chat exists; the value is the stored one through AddedChatGettersReadBack and StateUpdateReadsBack |
| GroupChatLogModel.GroupChatLog.GetGroupChatParticipants | core/src/com/gsma/rcs/provider/messaging/GroupChatLog.java:484-489 | the stored participants are returned exactly when the chat exists |
| FileTransferLogModel.InsertedRowsAreFresh | core/src/com/gsma/rcs/provider/messaging/FileTransferLog.java:94-227 | every inserted row starts with nothing transferred, unread, with the insertion time as timestamp and zero delivered and displayed timestamps; a one-to-one row uses the contact as chat id and an outgoing group row is sent at insertion time |
| FileTransferLogModel.UpdateRows | core/src/com/gsma/rcs/provider/messaging/FileTransferLog.java:230-342 | an update by transfer id changes exactly the rows with that id, keeps the row count, and leaves every other row as it was |
| FileTransferLogModel.StateUpdateColumns | core/src/com/gsma/rcs/provider/messaging/FileTransferLog.java:230-250 | a state update sets the state and reason, sets the delivered timestamp only for the delivered state and the displayed timestamp only for the displayed state, and changes no other column |
| FileTransferLogModel.MarkReadOnlyReadStatus | core/src/com/gsma/rcs/provider/messaging/FileTransferLog.java:253-269 | marking a transfer read sets its read status to read and changes no other column of any row |
| FileTransferLogModel.TransferredColumns | core/src/com/gsma/rcs/provider/messaging/FileTransferLog.java:281-293 | marking a transfer transferred sets the transferred state, no reason and the transferred size to the content's size, and changes nothing else |
| FileTransferLogModel.WithoutKey | core/src/com/gsma/rcs/provider/messaging/FileTransferLog.java:183-187 | deleting by id, as the delete of a transfer does on its rows and on its delivery entries, keeps exactly the records with another id |
| FileTransferLogModel.GroupDeliveries | core/src/com/gsma/rcs/provider/messaging/FileTransferLog.java:170-177 | an outgoing group transfer gets one not-delivered entry per connected participant, in participant order |
| FileTransferLogModel.RollbackRemovesAll | core/src/com/gsma/rcs/provider/messaging/FileTransferLog.java:169-189 | deleting the transfer after a failed insertion removes the row just inserted and every delivery entry added for it, leaving the table as a delete of the transfer from the old table would |
| FileTransferLogModel.FirstWithId | core/src/com/gsma/rcs/provider/messaging/FileTransferLog.java:484-512 | the row read for a transfer id is none exactly when no row has that id, and otherwise a row with that id |
| FileTransferLogModel.UpdateReadsBack | core/src/com/gsma/rcs/provider/messaging/FileTransferLog.java:230-342 | after an update the row read back for the id is the old one with the update applied, and still none for a missing id |
| FileTransferLogModel.GroupDetection | core/src/com/gsma/rcs/provider/messaging/FileTransferLog.java:683-704 | a one-to-one transfer is never a group transfer; adding an outgoing group row, or an incoming one from a contact other than the chat, keeps a group transfer a group transfer |
| FileTransferLogModel.PausedBySystemRows | core/src/com/gsma/rcs/provider/messaging/FileTransferLog.java:57-60 | the selection keeps exactly the rows paused by the system |
| FileTransferLogModel.InsertByTimestamp | core/src/com/gsma/rcs/provider/messaging/FileTransferLog.java:67 | inserting a row into the ascending order adds just that row |
| FileTransferLogModel.InsertKeepsSorted | core/src/com/gsma/rcs/provider/messaging/FileTransferLog.java:67 | inserting into rows in ascending timestamp order keeps them in that order |
| FileTransferLogModel.SortByTimestamp | core/src/com/gsma/rcs/provider/messaging/FileTransferLog.java:67 | ordering by timestamp keeps the same rows with the same multiplicities |
| FileTransferLogModel.SortSorts | core/src/com/gsma/rcs/provider/messaging/FileTransferLog.java:67 | the rows ordered by timestamp are in ascending timestamp order |
| FileTransferLogModel.PausedCursorContents | core/src/com/gsma/rcs/provider/messaging/FileTransferLog.java:345-349 | the paused-by-system cursor lists exactly the rows paused by the system, each as often as stored, in ascending timestamp order |
| FileTransferLogModel.ReadRow | core/src/com/gsma/rcs/provider/messaging/FileTransferLog.java:369-404 | a row whose contact cannot be parsed is skipped; one with a valid contact throws when nothing is transferred (the resume record refuses it) or when it is incoming without a download address (Uri.parse of null); any other becomes a download carrying its address when incoming and an upload otherwise, with its transfer id, contact and group flag |
| FileTransferLogModel.KeptRows | core/src/com/gsma/rcs/provider/messaging/FileTransferLog.java:372-382 | the rows kept by the cursor loop are cursor rows with a parseable contact |
| FileTransferLogModel.ReadCursorMatchesKeptRows | core/src/com/gsma/rcs/provider/messaging/FileTransferLog.java:367-406 | when the loop completes it returns one resume record per kept row, in cursor order, each the record read from that row |
| FileTransferLogModel.ReadCursorThrows | core/src/com/gsma/rcs/provider/messaging/FileTransferLog.java:367-406 | the loop throws exactly when some kept row has nothing transferred or is incoming without a download address |
| FileTransferLogModel.KeptRowsSorted | core/src/com/gsma/rcs/provider/messaging/FileTransferLog.java:349-405 | skipping rows keeps the cursor's timestamp order |
| FileTransferLogModel.ReadCursorStep | core/src/com/gsma/rcs/provider/messaging/FileTransferLog.java:368-405 | one more iteration of the cursor loop ends in a throw, skips the row, or appends the row's resume record |
| FileTransferLogModel.FileTransferLog.constructor | core/src/com/gsma/rcs/provider/messaging/FileTransferLog.java:86-91 | a new log holds no transfer and no delivery entry and uses the given group chat log |
| FileTransferLogModel.FileTransferLog.AddFileTransfer | core/src/com/gsma/rcs/provider/messaging/FileTransferLog.java:94-136 | one one-to-one row is appended, built from the arguments |
| FileTransferLogModel.FileTransferLog.AddOutgoingGroupFileTransfer | core/src/com/gsma/rcs/provider/messaging/FileTransferLog.java:139-190 | the connected participants of the chat are read; when every delivery entry is added, one outgoing group row and one not-delivered entry per participant are appended; when an entry fails, the transfer and its delivery entries are deleted |
| FileTransferLogModel.FileTransferLog.AddIncomingGroupFileTransfer | core/src/com/gsma/rcs/provider/messaging/FileTransferLog.java:193-227 | one incoming group row is appended, built from the arguments |
| FileTransferLogModel.FileTransferLog.SetFileTransferStateAndReasonCode | core/src/com/gsma/rcs/provider/messaging/FileTransferLog.java:230-250 | every row of the transfer gets the state update and no other row changes |
| FileTransferLogModel.FileTransferLog.MarkFileTransferAsRead | core/src/com/gsma/rcs/provider/messaging/FileTransferLog.java:253-269 | every row of the transfer is marked read and no other row changes |
| FileTransferLogModel.FileTransferLog.SetFileTransferProgress | core/src/com/gsma/rcs/provider/messaging/FileTransferLog.java:272-278 | every row of the transfer gets the new transferred size and no other row changes |
| FileTransferLogModel.FileTransferLog.SetFileTransferred | core/src/com/gsma/rcs/provider/messaging/FileTransferLog.java:281-293 | every row of the transfer becomes transferred with the content's size and no other row changes |
| FileTransferLogModel.FileTransferLog.SetFileUploadTId | core/src/com/gsma/rcs/provider/messaging/FileTransferLog.java:319-329 | every row of the transfer gets the upload transaction id and no other row changes |
| FileTransferLogModel.FileTransferLog.SetFileDownloadAddress | core/src/com/gsma/rcs/provider/messaging/FileTransferLog.java:332-342 | every row of the transfer gets the download address and no other row changes |
| FileTransferLogModel.FileTransferLog.GetFileTransferChatId | core/src/com/gsma/rcs/provider/messaging/FileTransferLog.java:551-556 | a chat id is returned exactly when the transfer exists, and it is the chat id of a row of that transfer |
| FileTransferLogModel.FileTransferLog.GetFileTransferRemoteContact | core/src/com/gsma/rcs/provider/messaging/FileTransferLog.java:562-575 | a contact result is returned only for an existing transfer, and it is "no contact" exactly when the transfer's row stores none |
| FileTransferLogModel.FileTransferLog.GetFileTransferState | core/src/com/gsma/rcs/provider/messaging/FileTransferLog.java:647-652 | a state is returned exactly when the transfer exists |
| FileTransferLogModel.FileTransferLog.GetFileTransferStateReasonCode | core/src/com/gsma/rcs/provider/messaging/FileTransferLog.java:659-664 | a reason code is returned exactly when the transfer exists |
| FileTransferLogModel.FileTransferLog.GetFileTransferDirection | core/src/com/gsma/rcs/provider/messaging/FileTransferLog.java:635-640 | a direction is returned exactly when the transfer exists; the value is the added one through AddedTransferReadsBack |
| FileTransferLogModel.FileTransferLog.GetFileSize | core/src/com/gsma/rcs/provider/messaging/FileTransferLog.java:671-676 | a size is returned exactly when the transfer exists |
| FileTransferLogModel.FileTransferLog.RetrieveFileTransfersPausedBySystem | core/src/com/gsma/rcs/provider/messaging/FileTransferLog.java:345-419 | the loop over the paused-by-system cursor returns what reading that cursor row by row gives, including the throw on a row with nothing transferred or an incoming row without a download address |
| FileTransferLogModel.PausedRetrieval | core/src/com/gsma/rcs/provider/messaging/FileTransferLog.java:345-406 | a completed retrieval returns, in ascending timestamp order, one record per stored row paused by the system with a parseable contact; incoming rows become downloads, the others uploads, each with its own transfer id; every download carries its row's download address |
| FileTransferLogModel.StateReadsBack | core/src/com/gsma/rcs/provider/messaging/FileTransferLog.java:230-250 | after a state update the getters return the new state and reason for an existing transfer and nothing for a missing one |
| FileTransferLogModel.AddedTransferReadsBack | core/src/com/gsma/rcs/provider/messaging/FileTransferLog.java:94-136 | after adding a new one-to-one transfer the getters return the contact as chat id and remote contact, the given state, reason and direction and the content's size, and it is not a group transfer |
| FileTransferLogModel.FirstWithUploadTid | core/src/com/gsma/rcs/provider/messaging/FileTransferLog.java:425-432 | the row the query reads first is the first row holding the upload transaction id, and there is none exactly when no row holds it |
| FileTransferLogModel.RetrieveFtHttpResumeUpload | core/src/com/gsma/rcs/provider/messaging/FileTransferLog.java:422-477 | nothing is read exactly when no row has the upload transaction id; the result is null (Skipped) exactly when the first such row's contact does not parse, an exception exactly when its contact parses and its transferred size is not positive, and otherwise an upload carrying that id whose record holds the row's direction, file, name, transferred size, icon, contact, chat id and transfer id, a group transfer exactly when the contact differs from the chat id |
| RichCallHistoryModel.TotalSize | core/src/com/gsma/rcs/provider/sharing/RichCallHistory.java:330-349 | the total size is the stored file size of the sharing, and 0 when there is no row |
| RichCallHistoryModel.TransferredCountsWholeSize | core/src/com/gsma/rcs/provider/sharing/RichCallHistory.java:306-322 | a state update sets the state and reason; on the transferred state with a non-zero stored size the transferred count becomes that size, otherwise it is unchanged; no other column or row changes |
| RichCallHistoryModel.AddThenTransferred | core/src/com/gsma/rcs/provider/sharing/RichCallHistory.java:277-322 | an image sharing added and then marked transferred records its whole content size as transferred |
| RichCallHistoryModel.RichCallHistory.constructor | core/src/com/gsma/rcs/provider/sharing/RichCallHistory.java:190-193 | the history works on the tables it is given |
| RichCallHistoryModel.RichCallHistory.AddVideoSharing | core/src/com/gsma/rcs/provider/sharing/RichCallHistory.java:207-227 | the video row for the sharing id holds the contact, direction, video content, state, reason and time, with duration 0 |
| RichCallHistoryModel.RichCallHistory.SetVideoSharingStateAndReasonCode | core/src/com/gsma/rcs/provider/sharing/RichCallHistory.java:236-247 | the video's state and reason change and nothing else does; a missing row changes nothing |
| RichCallHistoryModel.RichCallHistory.SetVideoSharingDuration | core/src/com/gsma/rcs/provider/sharing/RichCallHistory.java:255-263 | the video's duration changes and nothing else does; a missing row changes nothing |
| RichCallHistoryModel.RichCallHistory.AddImageSharing | core/src/com/gsma/rcs/provider/sharing/RichCallHistory.java:277-297 | the image row for the sharing id holds the contact, direction, content, state, reason and time, with nothing transferred |
| RichCallHistoryModel.RichCallHistory.SetImageSharingStateAndReasonCode | core/src/com/gsma/rcs/provider/sharing/RichCallHistory.java:306-322 | the image table becomes that of the state-update rule |
| RichCallHistoryModel.RichCallHistory.GetImageSharingTotalSize | core/src/com/gsma/rcs/provider/sharing/RichCallHistory.java:330-349 | the total size of the sharing, and 0 when there is no row; a non-zero result means the row exists |
| RichCallHistoryModel.RichCallHistory.SetImageSharingProgress | core/src/com/gsma/rcs/provider/sharing/RichCallHistory.java:357-362 | the image's transferred count changes and nothing else does; a missing row changes nothing |
| RichCallHistoryModel.RichCallHistory.DeleteAllEntries | core/src/com/gsma/rcs/provider/sharing/RichCallHistory.java:367-370 | both the image table and the video table become empty |
| RichCallHistoryModel.RichCallHistory.GetImageSharingRemoteContact | core/src/com/gsma/rcs/provider/sharing/RichCallHistory.java:378-384 | a contact is returned exactly when the image sharing exists |
| RichCallHistoryModel.RichCallHistory.GetImage | core/src/com/gsma/rcs/provider/sharing/RichCallHistory.java:392-398 | a file is returned exactly when the image sharing exists |
| RichCallHistoryModel.RichCallHistory.GetImageSharingName | core/src/com/gsma/rcs/provider/sharing/RichCallHistory.java:406-411 | a file name is returned exactly when the image sharing exists; the value is the stored one through AddedImageReadsBack and ImageStateUpdateReadsBack |
| RichCallHistoryModel.RichCallHistory.GetImageSharingSize | core/src/com/gsma/rcs/provider/sharing/RichCallHistory.java:419-424 | a size is returned exactly when the image sharing exists, and it is the total size |
| RichCallHistoryModel.RichCallHistory.GetImageSharingMimeType | core/src/com/gsma/rcs/provider/sharing/RichCallHistory.java:432-437 | a MIME type is returned exactly when the image sharing exists; the value is the stored one through AddedImageReadsBack and ImageStateUpdateReadsBack |
| RichCallHistoryModel.RichCallHistory.GetImageSharingState | core/src/com/gsma/rcs/provider/sharing/RichCallHistory.java:445-450 | a state is returned exactly when the image sharing exists |
| RichCallHistoryModel.RichCallHistory.GetImageSharingReasonCode | core/src/com/gsma/rcs/provider/sharing/RichCallHistory.java:458-463 | a reason code is returned exactly when the image sharing exists; the value is the stored one through AddedImageReadsBack and ImageStateUpdateReadsBack |
| RichCallHistoryModel.RichCallHistory.GetImageSharingDirection | core/src/com/gsma/rcs/provider/sharing/RichCallHistory.java:471-476 | a direction is returned exactly when the image sharing exists |
| RichCallHistoryModel.RichCallHistory.GetVideoSharingRemoteContact | core/src/com/gsma/rcs/provider/sharing/RichCallHistory.java:484-490 | a contact is returned exactly when the video sharing exists; the value is the stored one through AddedVideoReadsBack and VideoStateUpdateReadsBack |
| RichCallHistoryModel.RichCallHistory.GetVideoSharingState | core/src/com/gsma/rcs/provider/sharing/RichCallHistory.java:498-503 | a state is returned exactly when the video sharing exists; the value is the stored one through AddedVideoReadsBack and VideoStateUpdateReadsBack |
| RichCallHistoryModel.RichCallHistory.GetVideoSharingReasonCode | core/src/com/gsma/rcs/provider/sharing/RichCallHistory.java:511-516 | a reason code is returned exactly when the video sharing exists; the value is the stored one through AddedVideoReadsBack and VideoStateUpdateReadsBack |
| RichCallHistoryModel.RichCallHistory.GetVideoSharingDirection | core/src/com/gsma/rcs/provider/sharing/RichCallHistory.java:524-529 | a direction is returned exactly when the video sharing exists; the value is the stored one through AddedVideoReadsBack and VideoStateUpdateReadsBack |
| RichCallHistoryModel.AddedImageReadsBack | core/src/com/gsma/rcs/provider/sharing/RichCallHistory.java:277-476 | after an image sharing is added the getters return its contact, file, file name, MIME type, size, state, reason and direction |
| RichCallHistoryModel.ImageStateUpdateReadsBack | core/src/com/gsma/rcs/provider/sharing/RichCallHistory.java:306-463 | after an image state update the state and reason getters return the new values and the name and MIME type getters the old ones for an existing sharing, and nothing for a missing one |
| RichCallHistoryModel.AddedVideoReadsBack | core/src/com/gsma/rcs/provider/sharing/RichCallHistory.java:207-529 | after a video sharing is added the getters return its contact, state, reason and direction |
| RichCallHistoryModel.VideoStateUpdateReadsBack | core/src/com/gsma/rcs/provider/sharing/RichCallHistory.java:236-529 | after a video state update the state and reason getters return the new values and the contact and direction getters the old ones for an existing sharing, and nothing for a missing one |
| RichCallHistoryModel.Registry.constructor | core/src/com/gsma/rcs/provider/sharing/RichCallHistory.java:51 | before creation there is no instance |
| RichCallHistoryModel.Registry.CreateInstance | core/src/com/gsma/rcs/provider/sharing/RichCallHistory.java:170-174 | the instance is created only when there is none; an existing instance is kept |
| RichCallHistoryModel.Registry.GetInstance | core/src/com/gsma/rcs/provider/sharing/RichCallHistory.java:181-183 | returns the current instance |
| RichCallHistoryModel.CreateInstanceTwice | core/src/com/gsma/rcs/provider/sharing/RichCallHistory.java:170-183 | creating the instance twice keeps the first one, built on the first tables |

## Left out

- IsImdnService: the case-insensitive comparison of the content type folds ASCII letters only, whereas Java's equalsIgnoreCase also equates characters such as 'ı' (U+0131) with 'i' and 'ſ' (U+017F) with 's', so a content type such as "meſſage/cpim" is accepted by the source and not by the model.
- HasMimePrefix: lower-casing folds ASCII letters only and does not depend on a locale, whereas Java's toLowerCase() uses the device's default locale (under a Turkish locale "TEXT/PLAIN" lower-cases to "text/plaın" and is not text/plain for the source), and folds non-ASCII letters too.
- Threads and concurrency: the sessions' `run` methods execute on their own threads and a removal the source defers to a new thread is modelled as immediate; interleavings are not modelled.
- Collaborators (SIP stack, MSRP manager, RTP, content resolver, listeners, Binder broadcasts) are not modelled as code: each call to them is an event appended to a log, and what they answer (the user's answer, an ACK, an exception) is a parameter.
- Logging, clocks and randomness: timestamps are a `now` parameter and generated ports or ids are parameters.
- Object identity: sessions are values (`Common.SessionRef`) compared by their fields, so two distinct session objects with equal fields are not told apart.
- createSetupAnswer: ImsServiceSession.java is not part of this model; the answer table of section 4 of RFC 4145 (actpass gives active, active gives passive, passive gives active) stands in for it.
- The store-and-forward session's listening side opens its MSRP server on a thread of its own that only logs an IOException; the model records that open and the empty chunk as done. On both sides the source swallows and logs a failure of the empty chunk, and the model records the chunk as sent.
- GenericSipMsrpSession.java is not part of this model: the set-up steps the terminating SIP-MSRP session inherits from it appear as single events.
- handleError: the error handling of the session base classes is one event carrying the error; the clean-up it triggers inside those base classes is not modelled. In particular, the established session that TerminatingStoreAndForwardNotifSession.startSession aborts stays cached under its Call-ID in the base service, since its removal happens later in that session's own clean-up.
- Geolocation payloads: coordinates, labels and the XML document of a geolocation are opaque values, not parsed or formatted.
- The rich call history's geolocation sharing table is not part of this model: marking a geolocation sharing transferred there (setGeolocSharingTransferred) is one `HistoryMarkedTransferred` event of the geolocation sharing object, and it is taken to write the TRANSFERRED state, no reason and the received geolocation into the row that the object's persistent storage reads.
- ParticipantInfo.Status is not part of this model: a participant's status is a natural number, and the statuses the log tests are named constants whose values no proof depends on. The ChatLog participant decoder is not part of this model either; ParseParticipantInfo, proved to invert WriteParticipantInfo, stands in for it.
- The group chat table and the rich call history tables are maps keyed by id (one row per id). The file transfer table is a sequence of rows in insertion order: an update changes every row with the id and a read takes the first one. A group chat's participants are a `seq` rather than a Java `Set`.
- StringUtils is not part of this model: the UTF-8 decoding it applies to a first message's text (StringUtils.decodeUTF8) is a `decode` parameter of the first-message functions.
- Contact parsing (ContactUtils) is not part of this model: whether an identity parses is a `validContact` parameter.
- FtHttpResumeDownload and FtHttpResumeUpload are not part of this model; paused-by-system retrieval uses the transferred column as the size it records.
- GroupDeliveryInfoLog is not part of this model: a failure while writing its rows is the `failAt` parameter.
- receiveGroupFileDeliveryStatus (InstantMessagingService.java:1192-1194) only passes its arguments to the listener and is not modelled. In receiveMessageDeliveryStatus the IMDN document is reduced to its message id, and a parse failure and a null document are the same `None`; an exception from the messaging log's file-transfer query is not modelled.
- Database failures other than a missing row (for example an SQLite exception in a query) are not modelled.
- MIME constants that the core files import from other classes are taken from their registered values (text/plain, message/cpim, message/imdn+xml, application/im-iscomposing+xml, application/vnd.gsma.rcspushlocation+xml, application/vnd.gsma.rcs-ft-http+xml).
- addImsServiceSessionWithoutDialogPath and its removal are modelled as a separate set of sessions held by the instant messaging service, since ImsService.java in the revision modelled does not define them.
- getGroupChatInfo and getGroupChatData return cursors and are replaced by getters that read the row map directly.
- The instant messaging service's HTTP file-transfer receive path follows the code as written: the size switch with its fall-through (SizeRejectionsAsWritten) and the second parse of the asserted identity. ReceiveOneToOneHttpFileTransferInvitationIntended, with the corrected switch SizeRejection, is proved beside it; both differences are listed under Findings.

## Findings

| source | as written | input that shows it | evidently intended | confidence | as-written member | corrected member |
|---|---|---|---|---|---|---|
| core/src/com/gsma/rcs/core/ims/service/im/InstantMessagingService.java:1327-1339 | the MEDIA_SIZE_TOO_BIG case has no `break` and runs into NOT_ENOUGH_STORAGE_SPACE | an HTTP file transfer whose size exceeds the maximum: the listener is told REJECTED_MAX_SIZE and then REJECTED_LOW_SPACE | one rejection, REJECTED_MAX_SIZE | not executed | InstantMessagingServiceModel.SizeTooBigReportsLowSpaceToo | InstantMessagingServiceModel.SizeRejectionsAgreeExceptFallThrough |
| core/src/com/gsma/rcs/core/ims/service/ipcall/IPCallService.java:232-240 | when a call is already connected, the rejection handler (lines 99-108) parses the caller's identity before 486 Busy Here is sent, and a parse failure throws | an invitation whose asserted identity does not parse, received while a call is connected: no response is sent | answer 486 Busy Here whatever the identity | not executed | IPCallServiceModel.BusyWithUnparseableIdentitySendsNothing | IPCallServiceModel.IPCallService.ReceiveIPCallInvitationIntended |
| core/src/com/gsma/rcs/core/ims/service/im/InstantMessagingService.java:972-990 | when the service is full, the rejection handler (lines 195-206) parses the referred identity again before 486 Busy Here is sent, and a parse failure throws; the first parse failure, at line 958, was caught | an ad-hoc group chat INVITE whose Referred-By and asserted identities do not parse, received when the chat ceiling is reached: no response is sent | report the rejection and answer 486 Busy Here whatever the identity | not executed | InstantMessagingServiceModel.FullServiceWithUnparseableIdentitySendsNothing | InstantMessagingServiceModel.InstantMessagingService.ReceiveAdhocGroupChatSessionIntended |
| core/src/com/gsma/rcs/core/ims/service/im/InstantMessagingService.java:1289-1316 | the blocked and full-service rejections notify through a helper (lines 188-190) that parses the P-Asserted-Identity, not the Referred-By identity already parsed, and the parse failure ends the handling at the catch of line 1362 | an HTTP file transfer INVITE from a blocked contact whose Referred-By identity parses and whose P-Asserted-Identity does not: no rejection is reported and no 603 is sent | report the rejection for the contact already parsed and answer 603 Decline | not executed | InstantMessagingServiceModel.UnparseableAssertedIdentitySuppressesRejection | InstantMessagingServiceModel.InstantMessagingService.ReceiveOneToOneHttpFileTransferInvitationIntended |
| core/src/com/gsma/rcs/core/ims/service/extension/ServiceExtensionManager.java:236-256 | the separator is written after every element but the last one iterated, so a blank element iterated last leaves a trailing `;` | the extensions {"a", "\t"} in a HashSet, which iterates "\t" last: the join gives "a;"; the defect is latent for the class's own callers, since every set it joins comes from the String parser (lines 222-224), which drops blank pieces, so only an outside caller of the public static join can reach it | "a", with `;` only between kept extensions | not executed | ServiceExtensionManagerModel.BlankIteratedLastLeavesSeparator | ServiceExtensionManagerModel.ParseJoinRoundTrip |
