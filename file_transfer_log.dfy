/** The file transfer table of the chat provider: how a transfer's row is inserted and
  * updated, how an outgoing group transfer records its delivery entries (and removes
  * everything when that fails), and how transfers paused by the system are read back
  * as resume records. */
module FileTransferLogModel {
  import opened Common
  import opened FtHttpResumeModel
  import GroupChatLogModel

  /** FileTransfer.State and FileTransfer.ReasonCode, as far as the table tests them. */
  datatype FtState =
    | Invited | Initiating | Started | Transferred | Aborted | Failed | Paused | Rejected
    | Accepting | Delivered | Displayed | Queued
  datatype FtReason = Unspecified | PausedBySystem | PausedByUser | OtherReason(code: int)

  datatype ReadStatus = Unread | Read

  /** The content of a transfer or of its icon (MmContent): URI, name, MIME type and
    * size. */
  datatype Content = Content(uri: string, name: string, encoding: string, size: int)

  /** A row of the file transfer table. */
  datatype FtRow = FtRow(
    ftId: string,
    chatId: string,
    contact: Option<string>,     // absent for an outgoing group transfer
    file: string,
    fileName: string,
    mimeType: string,
    direction: Direction,
    transferred: int,
    fileSize: int,
    fileIcon: Option<string>,
    readStatus: ReadStatus,
    state: FtState,
    reason: FtReason,
    timestamp: int,
    timestampSent: int,
    timestampDelivered: int,
    timestampDisplayed: int,
    uploadTid: Option<string>,
    downloadUri: Option<string>)

  datatype DeliveryStatus = NotDelivered | DeliveryDelivered | DeliveryDisplayed | DeliveryFailed

  /** A group delivery entry: whether one participant received one message or file. */
  datatype DeliveryEntry = DeliveryEntry(chatId: string, contact: ContactId, msgId: string,
                                         status: DeliveryStatus)

  function IconUri(icon: Option<Content>): Option<string>
  {
    if icon.Some? then Some(icon.value.uri) else None
  }

  // ----- inserted rows -----

  /** addFileTransfer's row: a one-to-one transfer keyed by the contact as chat id. */
  function OneToOneRow(ftId: string, contact: ContactId, direction: Direction, content: Content,
                       fileIcon: Option<Content>, state: FtState, reason: FtReason, now: int)
    : FtRow
  {
    FtRow(ftId, contact, Some(contact), content.uri, content.name, content.encoding, direction,
          0, content.size, IconUri(fileIcon), Unread, state, reason, now,
          if direction == Incoming then 0 else now, 0, 0, None, None)
  }

  /** addOutgoingGroupFileTransfer's row: no contact column. */
  function OutgoingGroupRow(ftId: string, chatId: string, content: Content,
                            thumbnail: Option<Content>, state: FtState, reason: FtReason, now: int)
    : FtRow
  {
    FtRow(ftId, chatId, None, content.uri, content.name, content.encoding, Outgoing, 0,
          content.size, IconUri(thumbnail), Unread, state, reason, now, now, 0, 0, None, None)
  }

  /** addIncomingGroupFileTransfer's row. */
  function IncomingGroupRow(ftId: string, chatId: string, contact: ContactId, content: Content,
                            fileIcon: Option<Content>, state: FtState, reason: FtReason, now: int)
    : FtRow
  {
    FtRow(ftId, chatId, Some(contact), content.uri, content.name, content.encoding, Incoming, 0,
          content.size, IconUri(fileIcon), Unread, state, reason, now, 0, 0, 0, None, None)
  }

  /** The columns every insert starts the same way: unread, nothing transferred, not
    * delivered or displayed, and a sent timestamp only when the file goes out. */
  predicate FreshRow(r: FtRow, now: int)
  {
    r.readStatus == Unread && r.transferred == 0 && r.timestamp == now
    && r.timestampSent == (if r.direction == Incoming then 0 else now)
    && r.timestampDelivered == 0 && r.timestampDisplayed == 0
  }

  lemma InsertedRowsAreFresh(ftId: string, chatId: string, contact: ContactId,
                             direction: Direction, content: Content, icon: Option<Content>,
                             state: FtState, reason: FtReason, now: int)
    ensures FreshRow(OneToOneRow(ftId, contact, direction, content, icon, state, reason, now), now)
    ensures FreshRow(OutgoingGroupRow(ftId, chatId, content, icon, state, reason, now), now)
    ensures FreshRow(IncomingGroupRow(ftId, chatId, contact, content, icon, state, reason, now),
                     now)
    ensures OneToOneRow(ftId, contact, direction, content, icon, state, reason, now).chatId
            == contact
    ensures OutgoingGroupRow(ftId, chatId, content, icon, state, reason, now).timestampSent == now
  {
  }

  // ----- updates by transfer id -----

  /** The column changes of the update methods. */
  datatype Update =
    | SetStateAndReason(state: FtState, reason: FtReason, now: int)
    | MarkRead
    | SetProgress(current: int)
    | SetTransferred(size: int)
    | SetUploadTid(tId: string)
    | SetDownloadUri(uri: string)

  function Apply(r: FtRow, u: Update): FtRow
  {
    match u
    case SetStateAndReason(s, c, now) =>
      if s == Delivered then r.(state := s, reason := c, timestampDelivered := now)
      else if s == Displayed then r.(state := s, reason := c, timestampDisplayed := now)
      else r.(state := s, reason := c)
    case MarkRead => r.(readStatus := Read)
    case SetProgress(n) => r.(transferred := n)
    case SetTransferred(n) => r.(state := Transferred, reason := Unspecified, transferred := n)
    case SetUploadTid(t) => r.(uploadTid := Some(t))
    case SetDownloadUri(a) => r.(downloadUri := Some(a))
  }

  /** An update on the URI of one transfer: every row with that id changes, no other. */
  function UpdateRows(rows: seq<FtRow>, ftId: string, u: Update): (r: seq<FtRow>)
    ensures |r| == |rows|
    ensures forall i :: 0 <= i < |rows| ==>
      r[i] == if rows[i].ftId == ftId then Apply(rows[i], u) else rows[i]
  {
    seq(|rows|, i requires 0 <= i < |rows| =>
      if rows[i].ftId == ftId then Apply(rows[i], u) else rows[i])
  }

  /** setFileTransferStateAndReasonCode changes the state and the reason, stamps the
    * delivery time only for DELIVERED and the display time only for DISPLAYED, and
    * leaves every other column alone. */
  lemma StateUpdateColumns(r: FtRow, s: FtState, c: FtReason, now: int)
    ensures var n := Apply(r, SetStateAndReason(s, c, now));
      && n.state == s && n.reason == c
      && n.(state := r.state, reason := r.reason, timestampDelivered := r.timestampDelivered,
            timestampDisplayed := r.timestampDisplayed) == r
      && (n.timestampDelivered == (if s == Delivered then now else r.timestampDelivered))
      && (n.timestampDisplayed == (if s == Displayed then now else r.timestampDisplayed))
  {
  }

  /** markFileTransferAsRead sets the read status to READ and nothing else. */
  lemma MarkReadOnlyReadStatus(rows: seq<FtRow>, ftId: string)
    ensures var n := UpdateRows(rows, ftId, MarkRead);
      forall i :: 0 <= i < |rows| ==>
        && n[i].(readStatus := rows[i].readStatus) == rows[i]
        && (rows[i].ftId == ftId ==> n[i].readStatus == Read)
  {
  }

  /** setFileTransferred: TRANSFERRED, UNSPECIFIED and the whole content size as the
    * transferred amount. */
  lemma TransferredColumns(r: FtRow, content: Content)
    ensures var n := Apply(r, SetTransferred(content.size));
      n.state == Transferred && n.reason == Unspecified && n.transferred == content.size
      && n.(state := r.state, reason := r.reason, transferred := r.transferred) == r
  {
  }

  // ----- deletes by transfer id -----

  /** The transfer id of a row; the key a transfer's delete selects rows by. */
  function RowId(r: FtRow): string { r.ftId }

  /** The message id of a delivery entry; the key the delivery log deletes by. */
  function EntryId(e: DeliveryEntry): string { e.msgId }

  /** A delete by id: keeps, in order, exactly the records whose key is another id. */
  function WithoutKey<T(!new)>(xs: seq<T>, key: T -> string, id: string): (r: seq<T>)
    ensures forall x :: x in r <==> x in xs && key(x) != id
  {
    if xs == [] then []
    else (if key(xs[0]) == id then [] else [xs[0]]) + WithoutKey(xs[1..], key, id)
  }

  lemma {:induction false} WithoutKeyAppend<T(!new)>(a: seq<T>, b: seq<T>, key: T -> string, id: string)
    ensures WithoutKey(a + b, key, id) == WithoutKey(a, key, id) + WithoutKey(b, key, id)
  {
    if a != [] {
      var head := if key(a[0]) == id then [] else [a[0]];
      assert (a + b)[0] == a[0] && (a + b)[1..] == a[1..] + b;
      assert WithoutKey(a + b, key, id) == head + WithoutKey(a[1..] + b, key, id);
      WithoutKeyAppend(a[1..], b, key, id);
      assert WithoutKey(a, key, id) == head + WithoutKey(a[1..], key, id);
    } else {
      assert a + b == b;
    }
  }

  /** The entries an outgoing group transfer records: one NOT_DELIVERED entry per
    * connected participant, in the order given. */
  function GroupDeliveries(chatId: string, ps: seq<GroupChatLogModel.ParticipantInfo>,
                           ftId: string): (r: seq<DeliveryEntry>)
    ensures |r| == |ps|
    ensures forall i :: 0 <= i < |ps| ==>
      r[i] == DeliveryEntry(chatId, ps[i].contact, ftId, NotDelivered)
  {
    seq(|ps|, i requires 0 <= i < |ps| => DeliveryEntry(chatId, ps[i].contact, ftId, NotDelivered))
  }

  /** Records all carrying an id all disappear with that id's deletion. */
  lemma {:induction false} OwnRecordsVanish<T(!new)>(xs: seq<T>, key: T -> string, id: string)
    requires forall i :: 0 <= i < |xs| ==> key(xs[i]) == id
    ensures WithoutKey(xs, key, id) == []
  {
    if xs != [] {
      OwnRecordsVanish(xs[1..], key, id);
    }
  }

  /** Deleting a transfer after a partial insert leaves what was there before, less that
    * transfer. */
  lemma RollbackRemovesAll(rows: seq<FtRow>, row: FtRow, entries: seq<DeliveryEntry>,
                           added: seq<DeliveryEntry>, ftId: string)
    requires row.ftId == ftId
    requires forall i :: 0 <= i < |added| ==> added[i].msgId == ftId
    ensures WithoutKey(rows + [row], RowId, ftId) == WithoutKey(rows, RowId, ftId)
    ensures WithoutKey(entries + added, EntryId, ftId) == WithoutKey(entries, EntryId, ftId)
  {
    WithoutKeyAppend(rows, [row], RowId, ftId);
    WithoutKeyAppend(entries, added, EntryId, ftId);
    OwnRecordsVanish(added, EntryId, ftId);
  }

  // ----- reads by transfer id -----

  /** The row the URI of a transfer finds first; None where getFileTransferData throws
    * for want of a row. */
  function FirstWithId(rows: seq<FtRow>, ftId: string): (r: Option<FtRow>)
    ensures r.None? <==> forall i :: 0 <= i < |rows| ==> rows[i].ftId != ftId
    ensures r.Some? ==> r.value in rows && r.value.ftId == ftId
  {
    if rows == [] then None
    else if rows[0].ftId == ftId then Some(rows[0])
    else
      assert forall i :: 1 <= i < |rows| ==> rows[i] == rows[1..][i - 1];
      FirstWithId(rows[1..], ftId)
  }

  /** An update is read back under the same id: the updated row is the one found first,
    * and a row is found afterwards exactly when one was found before. */
  lemma {:induction false} UpdateReadsBack(rows: seq<FtRow>, ftId: string, u: Update)
    ensures var before := FirstWithId(rows, ftId);
      FirstWithId(UpdateRows(rows, ftId, u), ftId)
      == if before.Some? then Some(Apply(before.value, u)) else None
  {
    if rows != [] && rows[0].ftId != ftId {
      UpdateReadsBack(rows[1..], ftId, u);
      assert UpdateRows(rows, ftId, u)[1..] == UpdateRows(rows[1..], ftId, u);
    }
  }

  // ----- group detection -----

  /** isGroupFileTransfer: no row of that transfer has its chat id equal to its contact
    * (which is how a one-to-one transfer is stored). An unknown id counts as a group
    * transfer. */
  predicate IsGroupTransfer(rows: seq<FtRow>, ftId: string)
  {
    !exists i :: 0 <= i < |rows| && rows[i].ftId == ftId && rows[i].contact == Some(rows[i].chatId)
  }

  /** A one-to-one transfer is never a group transfer once added; a group transfer added
    * under a fresh id is one, whether it goes out or comes from another participant. */
  lemma GroupDetection(rows: seq<FtRow>, ftId: string, chatId: string, contact: ContactId,
                       direction: Direction, content: Content, icon: Option<Content>,
                       state: FtState, reason: FtReason, now: int)
    ensures !IsGroupTransfer(rows + [OneToOneRow(ftId, contact, direction, content, icon, state,
                                                 reason, now)], ftId)
    ensures IsGroupTransfer(rows, ftId) ==>
      IsGroupTransfer(rows + [OutgoingGroupRow(ftId, chatId, content, icon, state, reason, now)],
                      ftId)
    ensures IsGroupTransfer(rows, ftId) && contact != chatId ==>
      IsGroupTransfer(rows + [IncomingGroupRow(ftId, chatId, contact, content, icon, state,
                                               reason, now)], ftId)
  {
    var n := |rows|;
    assert (rows + [OneToOneRow(ftId, contact, direction, content, icon, state, reason, now)])[n]
           .contact == Some(contact);
  }

  // ----- the paused-by-system query -----

  predicate IsPausedBySystem(r: FtRow)
  {
    r.state == Paused && r.reason == PausedBySystem
  }

  function PausedBySystemRows(rows: seq<FtRow>): (r: seq<FtRow>)
    ensures forall x :: x in r <==> x in rows && IsPausedBySystem(x)
  {
    if rows == [] then []
    else (if IsPausedBySystem(rows[0]) then [rows[0]] else []) + PausedBySystemRows(rows[1..])
  }

  predicate SortedByTimestamp(rows: seq<FtRow>)
  {
    forall i, j :: 0 <= i < j < |rows| ==> rows[i].timestamp <= rows[j].timestamp
  }

  function InsertByTimestamp(r: FtRow, rows: seq<FtRow>): (s: seq<FtRow>)
    ensures |s| == |rows| + 1
    ensures multiset(s) == multiset(rows) + multiset{r}
    ensures s[0] == r || (rows != [] && s[0] == rows[0])
  {
    if rows == [] then [r]
    else if r.timestamp <= rows[0].timestamp then [r] + rows
    else
      assert rows == [rows[0]] + rows[1..];
      [rows[0]] + InsertByTimestamp(r, rows[1..])
  }

  /** No row of `rows` is older than `t`. */
  predicate NotBefore(t: int, rows: seq<FtRow>)
  {
    forall k :: 0 <= k < |rows| ==> t <= rows[k].timestamp
  }

  lemma InsertNotBefore(t: int, r: FtRow, rows: seq<FtRow>)
    requires t <= r.timestamp && NotBefore(t, rows)
    ensures NotBefore(t, InsertByTimestamp(r, rows))
  {
    var s := InsertByTimestamp(r, rows);
    forall k | 0 <= k < |s|
      ensures t <= s[k].timestamp
    {
      assert s[k] in multiset(s);
      if s[k] != r {
        assert s[k] in rows;
      }
    }
  }

  lemma {:induction false} InsertKeepsSorted(r: FtRow, rows: seq<FtRow>)
    requires SortedByTimestamp(rows)
    ensures SortedByTimestamp(InsertByTimestamp(r, rows))
  {
    if rows != [] && r.timestamp > rows[0].timestamp {
      InsertKeepsSorted(r, rows[1..]);
      assert NotBefore(rows[0].timestamp, rows[1..]);
      InsertNotBefore(rows[0].timestamp, r, rows[1..]);
    }
  }

  /** The order the query asks of the database: ascending timestamps. */
  function SortByTimestamp(rows: seq<FtRow>): (s: seq<FtRow>)
    ensures multiset(s) == multiset(rows)
  {
    if rows == [] then []
    else
      assert rows == [rows[0]] + rows[1..];
      InsertByTimestamp(rows[0], SortByTimestamp(rows[1..]))
  }

  lemma {:induction false} SortSorts(rows: seq<FtRow>)
    ensures SortedByTimestamp(SortByTimestamp(rows))
  {
    if rows != [] {
      SortSorts(rows[1..]);
      InsertKeepsSorted(rows[0], SortByTimestamp(rows[1..]));
    }
  }

  /** The cursor of retrieveFileTransfersPausedBySystem: the rows PAUSED with reason
    * PAUSED_BY_SYSTEM, oldest first. */
  function PausedCursor(rows: seq<FtRow>): seq<FtRow>
  {
    SortByTimestamp(PausedBySystemRows(rows))
  }

  /** The cursor holds exactly the paused-by-system rows, each as often as in the table,
    * in ascending timestamp order. */
  lemma PausedCursorContents(rows: seq<FtRow>)
    ensures SortedByTimestamp(PausedCursor(rows))
    ensures multiset(PausedCursor(rows)) == multiset(PausedBySystemRows(rows))
    ensures forall x :: x in PausedCursor(rows) <==> x in rows && IsPausedBySystem(x)
  {
    SortSorts(PausedBySystemRows(rows));
    forall x
      ensures x in PausedCursor(rows) <==> x in PausedBySystemRows(rows)
    {
      assert x in PausedCursor(rows) <==> x in multiset(PausedCursor(rows));
      assert x in PausedBySystemRows(rows) <==> x in multiset(PausedBySystemRows(rows));
    }
  }

  // ----- reading rows back as resume records -----

  /** A resume record: a download keeps the server address, an upload the transaction id
    * of the upload (which may be missing). FtHttpResumeDownload and FtHttpResumeUpload are not part of this
    * model; they are taken to pass their content's size, file and name to the
    * validating constructor. */
  datatype ResumeItem =
    | Download(resume: FtHttpResume, downloadAddress: string)
    | Upload(resume: FtHttpResume, tId: Option<string>)

  /** What reading one cursor row gives: skipped when its contact cannot be parsed, an
    * exception when the resume constructor refuses it or an incoming row has no download
    * address, a record otherwise. */
  datatype RowOutcome = Skipped | Thrown | Resumed(item: ResumeItem)

  /** A row whose read throws once its contact parses: the resume constructor refuses a
    * size that is not positive, and Uri.parse throws a NullPointerException on the null
    * download address of an incoming row. Neither is the SQLException the read catches. */
  predicate RowThrows(r: FtRow)
  {
    r.transferred <= 0 || (r.direction == Incoming && r.downloadUri.None?)
  }

  /** A row whose contact ContactUtils.createContactId accepts. */
  predicate HasValidContact(r: FtRow, validContact: string -> bool)
  {
    r.contact.Some? && validContact(r.contact.value)
  }

  /** The record for one row. Its size is the row's transferred column, and it is a group
    * transfer when the contact differs from the chat id. */
  function ReadRow(r: FtRow, validContact: string -> bool): (o: RowOutcome)
    ensures o.Skipped? <==> !HasValidContact(r, validContact)
    ensures o.Thrown? <==> HasValidContact(r, validContact) && RowThrows(r)
    ensures o.Resumed? ==> (o.item.Download? <==> r.direction == Incoming)
                           && (o.item.Download? ==> Some(o.item.downloadAddress) == r.downloadUri)
                           && o.item.resume.fileTransferId == Some(r.ftId)
                           && o.item.resume.contact == r.contact
                           && (o.item.resume.groupTransfer <==> r.contact != Some(r.chatId))
  {
    if !HasValidContact(r, validContact) then Skipped
    else
      var isGroup := r.contact.value != r.chatId;
      var resume := NewFtHttpResume(r.direction, Some(r.file), Some(r.fileName), r.transferred,
                                    r.fileIcon, r.contact, Some(r.chatId), Some(r.ftId), isGroup);
      if r.direction == Incoming && r.downloadUri.None? then Thrown
      else if resume.None? then Thrown
      else if r.direction == Incoming then Resumed(Download(resume.value, r.downloadUri.value))
      else Resumed(Upload(resume.value, r.uploadTid))
  }

  /** The records of a cursor read front to back; None once a row throws. */
  function ReadCursor(cursor: seq<FtRow>, validContact: string -> bool): Option<seq<ResumeItem>>
  {
    if cursor == [] then Some([])
    else
      var before := ReadCursor(cursor[..|cursor| - 1], validContact);
      var last := ReadRow(cursor[|cursor| - 1], validContact);
      if before.None? || last.Thrown? then None
      else if last.Skipped? then before
      else Some(before.value + [last.item])
  }

  /** Reading one more row of the cursor. */
  lemma ReadCursorStep(cursor: seq<FtRow>, i: nat, validContact: string -> bool)
    requires i < |cursor|
    ensures var before := ReadCursor(cursor[..i], validContact);
            var last := ReadRow(cursor[i], validContact);
      ReadCursor(cursor[..i + 1], validContact)
      == if before.None? || last.Thrown? then None
         else if last.Skipped? then before
         else Some(before.value + [last.item])
  {
    assert cursor[..i + 1][..i] == cursor[..i];
  }

  /** The rows of a cursor that give a record, in cursor order. */
  function KeptRows(cursor: seq<FtRow>, validContact: string -> bool): (kept: seq<FtRow>)
    ensures forall x :: x in kept ==> x in cursor && HasValidContact(x, validContact)
  {
    if cursor == [] then []
    else
      KeptRows(cursor[..|cursor| - 1], validContact)
      + (if HasValidContact(cursor[|cursor| - 1], validContact) then [cursor[|cursor| - 1]]
         else [])
  }

  /** A read that does not throw gives one record per kept row, in the same order: a
    * download exactly for an incoming row, carrying that row's id and contact. */
  lemma {:induction false} ReadCursorMatchesKeptRows(cursor: seq<FtRow>,
                                                     validContact: string -> bool)
    requires ReadCursor(cursor, validContact).Some?
    ensures var items := ReadCursor(cursor, validContact).value;
            var kept := KeptRows(cursor, validContact);
      && |items| == |kept|
      && forall k :: 0 <= k < |items| ==>
           ReadRow(kept[k], validContact) == Resumed(items[k])
  {
    if cursor != [] {
      ReadCursorMatchesKeptRows(cursor[..|cursor| - 1], validContact);
    }
  }

  /** The read throws exactly when some row with a parseable contact has nothing
    * transferred, or is incoming without a download address. */
  lemma {:induction false} ReadCursorThrows(cursor: seq<FtRow>, validContact: string -> bool)
    ensures ReadCursor(cursor, validContact).None?
            <==> exists x :: x in cursor && HasValidContact(x, validContact) && RowThrows(x)
  {
    if cursor != [] {
      var init := cursor[..|cursor| - 1];
      ReadCursorThrows(init, validContact);
      assert cursor == init + [cursor[|cursor| - 1]];
      assert forall x :: x in cursor <==> x in init || x == cursor[|cursor| - 1];
    }
  }

  /** Skipping rows keeps ascending timestamps. */
  lemma {:induction false} KeptRowsSorted(cursor: seq<FtRow>, validContact: string -> bool)
    requires SortedByTimestamp(cursor)
    ensures SortedByTimestamp(KeptRows(cursor, validContact))
  {
    if cursor != [] {
      var init := cursor[..|cursor| - 1];
      var last := cursor[|cursor| - 1];
      assert SortedByTimestamp(init);
      KeptRowsSorted(init, validContact);
      var kept := KeptRows(init, validContact);
      forall k | 0 <= k < |kept|
        ensures kept[k].timestamp <= last.timestamp
      {
        assert kept[k] in init;
        var m :| 0 <= m < |init| && init[m] == kept[k];
      }
    }
  }

  class FileTransferLog {
    /** The file transfer table, in insertion order. */
    var rows: seq<FtRow>
    /** The group delivery table. */
    var deliveries: seq<DeliveryEntry>
    const groupChatLog: GroupChatLogModel.GroupChatLog

    constructor (groupChatLog: GroupChatLogModel.GroupChatLog)
      ensures this.groupChatLog == groupChatLog && rows == [] && deliveries == []
    {
      this.groupChatLog := groupChatLog;
      rows := [];
      deliveries := [];
    }

    method AddFileTransfer(ftId: string, contact: ContactId, direction: Direction,
                           content: Content, fileIcon: Option<Content>, state: FtState,
                           reason: FtReason, now: int)
      modifies this`rows
      ensures rows == old(rows) + [OneToOneRow(ftId, contact, direction, content, fileIcon,
                                               state, reason, now)]
    {
      rows := rows + [OneToOneRow(ftId, contact, direction, content, fileIcon, state, reason,
                                  now)];
    }

    /** addOutgoingGroupFileTransfer: inserts the row, then one delivery entry per
      * connected participant of the chat. `failAt` is the index of the delivery insert
      * that throws, if one does (the delivery log is not part of this model); then the
      * transfer's row and delivery entries are all deleted. */
    method AddOutgoingGroupFileTransfer(ftId: string, chatId: string, content: Content,
                                        thumbnail: Option<Content>, state: FtState,
                                        reason: FtReason, now: int, failAt: Option<nat>)
      returns (participants: seq<GroupChatLogModel.ParticipantInfo>)
      modifies this`rows, this`deliveries
      ensures var stored := if chatId in groupChatLog.rows
                            then GroupChatLogModel.ParseParticipantInfo(
                                   groupChatLog.rows[chatId].participants)
                            else None;
        participants == if stored.Some? then GroupChatLogModel.Connected(stored.value) else []
      ensures failAt.None? || failAt.value >= |participants| ==>
        && rows == old(rows) + [OutgoingGroupRow(ftId, chatId, content, thumbnail, state,
                                                 reason, now)]
        && deliveries == old(deliveries) + GroupDeliveries(chatId, participants, ftId)
      ensures failAt.Some? && failAt.value < |participants| ==>
        && rows == WithoutKey(old(rows), RowId, ftId)
        && deliveries == WithoutKey(old(deliveries), EntryId, ftId)
    {
      var row := OutgoingGroupRow(ftId, chatId, content, thumbnail, state, reason, now);
      rows := rows + [row];
      participants := groupChatLog.GetGroupChatConnectedParticipants(chatId);
      var entries := GroupDeliveries(chatId, participants, ftId);
      var i := 0;
      var failed := false;
      while i < |participants|
        invariant 0 <= i <= |participants|
        invariant rows == old(rows) + [row]
        invariant deliveries == old(deliveries) + entries[..i]
        invariant failed ==> failAt == Some(i) && i < |participants|
        invariant !failed ==> failAt.None? || failAt.value >= i
      {
        if failAt == Some(i) {
          failed := true;
          break;
        }
        assert entries[..i + 1] == entries[..i] + [entries[i]];
        deliveries := deliveries + [DeliveryEntry(chatId, participants[i].contact, ftId,
                                                  NotDelivered)];
        i := i + 1;
      }
      if failed {
        RollbackRemovesAll(old(rows), row, old(deliveries), entries[..i], ftId);
        rows := WithoutKey(rows, RowId, ftId);
        deliveries := WithoutKey(deliveries, EntryId, ftId);
      } else {
        assert entries[..i] == entries;
      }
    }

    method AddIncomingGroupFileTransfer(ftId: string, chatId: string, contact: ContactId,
                                        content: Content, fileIcon: Option<Content>,
                                        state: FtState, reason: FtReason, now: int)
      modifies this`rows
      ensures rows == old(rows) + [IncomingGroupRow(ftId, chatId, contact, content, fileIcon,
                                                    state, reason, now)]
    {
      rows := rows + [IncomingGroupRow(ftId, chatId, contact, content, fileIcon, state, reason,
                                       now)];
    }

    method SetFileTransferStateAndReasonCode(ftId: string, state: FtState, reason: FtReason,
                                             now: int)
      modifies this`rows
      ensures rows == UpdateRows(old(rows), ftId, SetStateAndReason(state, reason, now))
    {
      rows := UpdateRows(rows, ftId, SetStateAndReason(state, reason, now));
    }

    method MarkFileTransferAsRead(ftId: string)
      modifies this`rows
      ensures rows == UpdateRows(old(rows), ftId, MarkRead)
    {
      rows := UpdateRows(rows, ftId, MarkRead);
    }

    method SetFileTransferProgress(ftId: string, currentSize: int)
      modifies this`rows
      ensures rows == UpdateRows(old(rows), ftId, SetProgress(currentSize))
    {
      rows := UpdateRows(rows, ftId, SetProgress(currentSize));
    }

    method SetFileTransferred(ftId: string, content: Content)
      modifies this`rows
      ensures rows == UpdateRows(old(rows), ftId, SetTransferred(content.size))
    {
      rows := UpdateRows(rows, ftId, SetTransferred(content.size));
    }

    method SetFileUploadTId(ftId: string, tId: string)
      modifies this`rows
      ensures rows == UpdateRows(old(rows), ftId, SetUploadTid(tId))
    {
      rows := UpdateRows(rows, ftId, SetUploadTid(tId));
    }

    method SetFileDownloadAddress(ftId: string, downloadAddress: string)
      modifies this`rows
      ensures rows == UpdateRows(old(rows), ftId, SetDownloadUri(downloadAddress))
    {
      rows := UpdateRows(rows, ftId, SetDownloadUri(downloadAddress));
    }

    predicate IsFileTransfer(ftId: string)
      reads this
    {
      exists i :: 0 <= i < |rows| && rows[i].ftId == ftId
    }

    /** The getters: None where no row carries the id and the read throws. */
    function GetFileTransferChatId(ftId: string): (r: Option<string>)
      reads this
      ensures r.None? <==> !IsFileTransfer(ftId)
      ensures r.Some? ==> exists i :: 0 <= i < |rows| && rows[i].ftId == ftId
                                      && rows[i].chatId == r.value
    {
      var row := FirstWithId(rows, ftId);
      if row.Some? then Some(row.value.chatId) else None
    }

    /** The contact column parsed by `validContact`; an outgoing group transfer has none
      * (Some(None)), and an unparseable contact throws like a missing row (None). */
    function GetFileTransferRemoteContact(ftId: string, validContact: string -> bool)
      : (r: Option<Option<ContactId>>)
      reads this
      ensures r.Some? ==> IsFileTransfer(ftId)
      ensures r == Some(None) <==> FirstWithId(rows, ftId).Some?
                                   && FirstWithId(rows, ftId).value.contact.None?
    {
      var row := FirstWithId(rows, ftId);
      if row.None? then None
      else if row.value.contact.None? then Some(None)
      else if validContact(row.value.contact.value) then Some(row.value.contact)
      else None
    }

    function GetFileTransferState(ftId: string): (r: Option<FtState>)
      reads this
      ensures r.None? <==> !IsFileTransfer(ftId)
    {
      var row := FirstWithId(rows, ftId);
      if row.Some? then Some(row.value.state) else None
    }

    function GetFileTransferStateReasonCode(ftId: string): (r: Option<FtReason>)
      reads this
      ensures r.None? <==> !IsFileTransfer(ftId)
    {
      var row := FirstWithId(rows, ftId);
      if row.Some? then Some(row.value.reason) else None
    }

    function GetFileTransferDirection(ftId: string): (r: Option<Direction>)
      reads this
      ensures r.None? <==> !IsFileTransfer(ftId)
    {
      var row := FirstWithId(rows, ftId);
      if row.Some? then Some(row.value.direction) else None
    }

    function GetFileSize(ftId: string): (r: Option<int>)
      reads this
      ensures r.None? <==> !IsFileTransfer(ftId)
    {
      var row := FirstWithId(rows, ftId);
      if row.Some? then Some(row.value.fileSize) else None
    }

    predicate IsGroupFileTransfer(ftId: string)
      reads this
    {
      IsGroupTransfer(rows, ftId)
    }

    /** retrieveFileTransfersPausedBySystem: reads the cursor front to back, skipping
      * rows whose contact cannot be parsed; None where a row throws (RowThrows). */
    method RetrieveFileTransfersPausedBySystem(validContact: string -> bool)
      returns (fileTransfers: Option<seq<ResumeItem>>)
      ensures fileTransfers == ReadCursor(PausedCursor(rows), validContact)
    {
      var cursor := PausedCursor(rows);
      var acc: seq<ResumeItem> := [];
      var i := 0;
      while i < |cursor|
        invariant 0 <= i <= |cursor|
        invariant ReadCursor(cursor[..i], validContact) == Some(acc)
      {
        ReadCursorStep(cursor, i, validContact);
        var row := cursor[i];
        if !(row.contact.Some? && validContact(row.contact.value)) {
          i := i + 1;
          continue;
        }
        if row.direction == Incoming && row.downloadUri.None? {
          ReadCursorThrows(cursor, validContact);
          return None;
        }
        var isGroup := row.contact.value != row.chatId;
        var resume := NewFtHttpResume(row.direction, Some(row.file), Some(row.fileName),
                                      row.transferred, row.fileIcon, row.contact,
                                      Some(row.chatId), Some(row.ftId), isGroup);
        if resume.None? {
          ReadCursorThrows(cursor, validContact);
          return None;
        }
        if row.direction == Incoming {
          acc := acc + [Download(resume.value, row.downloadUri.value)];
        } else {
          acc := acc + [Upload(resume.value, row.uploadTid)];
        }
        i := i + 1;
      }
      assert cursor[..i] == cursor;
      return Some(acc);
    }
  }

  /** A state set under an id reads back under that id, with its reason, once the
    * transfer exists. */
  lemma StateReadsBack(log: FileTransferLog, ftId: string, state: FtState, reason: FtReason,
                       now: int, before: seq<FtRow>)
    requires log.rows == UpdateRows(before, ftId, SetStateAndReason(state, reason, now))
    ensures log.GetFileTransferState(ftId)
            == if FirstWithId(before, ftId).Some? then Some(state) else None
    ensures log.GetFileTransferStateReasonCode(ftId)
            == if FirstWithId(before, ftId).Some? then Some(reason) else None
  {
    UpdateReadsBack(before, ftId, SetStateAndReason(state, reason, now));
  }

  /** A one-to-one transfer just added is found under its id, keyed by its contact, and
    * its contact, state, reason, direction and size read back. */
  lemma AddedTransferReadsBack(log: FileTransferLog, before: seq<FtRow>, ftId: string,
                               contact: ContactId, direction: Direction, content: Content,
                               icon: Option<Content>, state: FtState, reason: FtReason,
                               now: int, validContact: string -> bool)
    requires forall i :: 0 <= i < |before| ==> before[i].ftId != ftId
    requires log.rows == before + [OneToOneRow(ftId, contact, direction, content, icon, state,
                                               reason, now)]
    requires validContact(contact)
    ensures log.GetFileTransferChatId(ftId) == Some(contact)
    ensures log.GetFileTransferRemoteContact(ftId, validContact) == Some(Some(contact))
    ensures log.GetFileTransferState(ftId) == Some(state)
    ensures log.GetFileTransferStateReasonCode(ftId) == Some(reason)
    ensures log.GetFileTransferDirection(ftId) == Some(direction)
    ensures log.GetFileSize(ftId) == Some(content.size)
    ensures !log.IsGroupFileTransfer(ftId)
  {
    FirstWithIdAppend(before, [OneToOneRow(ftId, contact, direction, content, icon, state,
                                           reason, now)], ftId);
    GroupDetection(before, ftId, contact, contact, direction, content, icon, state, reason, now);
  }

  lemma {:induction false} FirstWithIdAppend(a: seq<FtRow>, b: seq<FtRow>, ftId: string)
    requires forall i :: 0 <= i < |a| ==> a[i].ftId != ftId
    ensures FirstWithId(a + b, ftId) == FirstWithId(b, ftId)
  {
    if a != [] {
      assert (a + b)[1..] == a[1..] + b;
      FirstWithIdAppend(a[1..], b, ftId);
    } else {
      assert a + b == b;
    }
  }

  /** What retrieveFileTransfersPausedBySystem promises: unless a row throws, one record
    * per paused-by-system row with a parseable contact, oldest first, a download exactly
    * for an incoming transfer, carrying the row's download address. */
  lemma PausedRetrieval(rows: seq<FtRow>, validContact: string -> bool)
    requires ReadCursor(PausedCursor(rows), validContact).Some?
    ensures var items := ReadCursor(PausedCursor(rows), validContact).value;
            var kept := KeptRows(PausedCursor(rows), validContact);
      && |items| == |kept|
      && SortedByTimestamp(kept)
      && (forall k :: 0 <= k < |kept| ==> kept[k] in rows && IsPausedBySystem(kept[k])
                                          && HasValidContact(kept[k], validContact))
      && (forall k :: 0 <= k < |items| ==>
            (items[k].Download? <==> kept[k].direction == Incoming)
            && (items[k].Download? ==> kept[k].downloadUri == Some(items[k].downloadAddress))
            && items[k].resume.fileTransferId == Some(kept[k].ftId))
  {
    PausedCursorContents(rows);
    KeptRowsSorted(PausedCursor(rows), validContact);
    ReadCursorMatchesKeptRows(PausedCursor(rows), validContact);
  }

  /** The position of the first row holding that upload transaction id, the row the
    * query for it reads first. */
  function FirstWithUploadTid(rows: seq<FtRow>, tId: string): (k: Option<nat>)
    ensures k.None? <==> forall i :: 0 <= i < |rows| ==> rows[i].uploadTid != Some(tId)
    ensures k.Some? ==> k.value < |rows| && rows[k.value].uploadTid == Some(tId)
                        && forall j :: 0 <= j < k.value ==> rows[j].uploadTid != Some(tId)
  {
    if rows == [] then None
    else if rows[0].uploadTid == Some(tId) then Some(0)
    else
      var rest := FirstWithUploadTid(rows[1..], tId);
      assert forall i :: 1 <= i < |rows| ==> rows[i] == rows[1..][i - 1];
      if rest.None? then None else Some(rest.value + 1)
  }

  /** retrieveFtHttpResumeUpload: the first row with that upload transaction id, read as
    * an upload whatever its direction: null (Skipped) when its contact does not parse, an
    * exception when the resume constructor refuses its size, and otherwise the upload of
    * that row's file, name, transferred size, icon, contact, chat id and transfer id, a
    * group transfer when the contact differs from the chat id. */
  function RetrieveFtHttpResumeUpload(rows: seq<FtRow>, tId: string,
                                      validContact: string -> bool): (o: Option<RowOutcome>)
    ensures o.None? <==> forall i :: 0 <= i < |rows| ==> rows[i].uploadTid != Some(tId)
    ensures var k := FirstWithUploadTid(rows, tId);
      o == Some(Skipped) <==> k.Some? && !HasValidContact(rows[k.value], validContact)
    ensures var k := FirstWithUploadTid(rows, tId);
      o == Some(Thrown) <==> k.Some? && HasValidContact(rows[k.value], validContact)
                             && rows[k.value].transferred <= 0
    ensures var k := FirstWithUploadTid(rows, tId);
      o.Some? && o.value.Resumed? ==>
        k.Some? &&
        var r := rows[k.value];
        && o.value.item.Upload? && o.value.item.tId == Some(tId)
        && o.value.item.resume == FtHttpResume(r.direction, r.file, r.fileName, r.transferred,
                                               r.fileIcon, r.contact, Some(r.chatId),
                                               Some(r.ftId), r.contact != Some(r.chatId))
  {
    if rows == [] then None
    else if rows[0].uploadTid == Some(tId) then
      var r := rows[0];
      if !HasValidContact(r, validContact) then Some(Skipped)
      else
        var isGroup := r.contact.value != r.chatId;
        var resume := NewFtHttpResume(r.direction, Some(r.file), Some(r.fileName), r.transferred,
                                      r.fileIcon, r.contact, Some(r.chatId), Some(r.ftId),
                                      isGroup);
        if resume.None? then Some(Thrown) else Some(Resumed(Upload(resume.value, Some(tId))))
    else
      var rest := RetrieveFtHttpResumeUpload(rows[1..], tId, validContact);
      assert forall i :: 1 <= i < |rows| ==> rows[i] == rows[1..][i - 1];
      rest
  }
}
