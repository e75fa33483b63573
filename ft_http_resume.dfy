/** The data kept to resume an HTTP file transfer: an immutable value whose constructor
  * refuses a non-positive size and a missing file or file name. */
module FtHttpResumeModel {
  import opened Common

  datatype Direction = Incoming | Outgoing

  /** A validated resume record; every field is final and its getter returns it as
    * given. The icon, the contact and the chat id may be absent (null). */
  datatype FtHttpResume = FtHttpResume(
    direction: Direction,
    file: string,               // URI of the file
    fileName: string,
    size: int,                  // bytes
    fileIcon: Option<string>,   // URI of the icon
    contact: Option<ContactId>,
    chatId: Option<string>,
    fileTransferId: Option<string>,
    groupTransfer: bool)

  /** The invariant every constructed value keeps. */
  predicate Valid(r: FtHttpResume)
  {
    r.size > 0
  }

  /** The constructor: None where it throws IllegalArgumentException, which is when the
    * size is not positive or the file or the file name is null. */
  function NewFtHttpResume(direction: Direction, file: Option<string>, fileName: Option<string>,
                           size: int, fileIcon: Option<string>, contact: Option<ContactId>,
                           chatId: Option<string>, fileTransferId: Option<string>,
                           groupTransfer: bool): (r: Option<FtHttpResume>)
    ensures r.None? <==> size <= 0 || file.None? || fileName.None?
    ensures r.Some? ==> Valid(r.value)
  {
    if size <= 0 || file.None? || fileName.None? then None
    else Some(FtHttpResume(direction, file.value, fileName.value, size, fileIcon, contact,
                           chatId, fileTransferId, groupTransfer))
  }

  /** Every getter returns its constructor argument unchanged: constructing from the
    * fields of any valid value gives that value back. */
  lemma GettersReturnArguments(direction: Direction, file: string, fileName: string, size: int,
                               fileIcon: Option<string>, contact: Option<ContactId>,
                               chatId: Option<string>, fileTransferId: Option<string>,
                               groupTransfer: bool)
    requires size > 0
    ensures var r := NewFtHttpResume(direction, Some(file), Some(fileName), size, fileIcon,
                                     contact, chatId, fileTransferId, groupTransfer);
      && r.Some?
      && r.value.direction == direction && r.value.file == file
      && r.value.fileName == fileName && r.value.size == size
      && r.value.fileIcon == fileIcon && r.value.contact == contact
      && r.value.chatId == chatId && r.value.fileTransferId == fileTransferId
      && r.value.groupTransfer == groupTransfer
  {
  }

  /** The icon, the contact and the chat id are not validated: the constructor accepts
    * them absent whenever it accepts them present. */
  lemma OptionalFieldsUnchecked(direction: Direction, file: Option<string>,
                                fileName: Option<string>, size: int, fileIcon: Option<string>,
                                contact: Option<ContactId>, chatId: Option<string>,
                                fileTransferId: Option<string>, groupTransfer: bool)
    ensures NewFtHttpResume(direction, file, fileName, size, fileIcon, contact, chatId,
                            fileTransferId, groupTransfer).Some?
            <==> NewFtHttpResume(direction, file, fileName, size, None, None, None,
                                 fileTransferId, groupTransfer).Some?
  {
  }

  /** Reconstructing a valid value from its own fields gives it back. */
  lemma RoundTrip(r: FtHttpResume)
    requires Valid(r)
    ensures NewFtHttpResume(r.direction, Some(r.file), Some(r.fileName), r.size, r.fileIcon,
                            r.contact, r.chatId, r.fileTransferId, r.groupTransfer) == Some(r)
  {
  }
}
