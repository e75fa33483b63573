/** The rich call history provider: one table of image sharings and one of video
  * sharings, which the sharing sessions insert into and update, and the process-wide
  * instance that reaches them. */
module RichCallHistoryModel {
  import opened Common
  import opened SharingStates

  /** The shared file (MmContent): URI, name, MIME type and size in bytes. */
  datatype MmContent = MmContent(uri: string, name: string, encoding: string, size: int)

  /** The shared video stream (VideoContent): its encoding and frame size. */
  datatype VideoContent = VideoContent(encoding: string, width: int, height: int)

  datatype ImageRow = ImageRow(
    contact: ContactId,
    direction: Direction,
    file: string,
    fileName: string,
    mimeType: string,
    transferred: int,
    fileSize: int,
    state: State,
    reason: ReasonCode,
    timestamp: int)

  datatype VideoRow = VideoRow(
    contact: ContactId,
    direction: Direction,
    state: State,
    reason: ReasonCode,
    timestamp: int,
    duration: int,
    encoding: string,
    width: int,
    height: int)

  /** The row addImageSharing inserts: nothing transferred yet, stamped now. */
  function NewImageRow(contact: ContactId, direction: Direction, content: MmContent,
                       state: State, reason: ReasonCode, now: int): ImageRow
  {
    ImageRow(contact, direction, content.uri, content.name, content.encoding, 0, content.size,
             state, reason, now)
  }

  /** The row addVideoSharing inserts: no duration yet, stamped now. */
  function NewVideoRow(contact: ContactId, direction: Direction, content: VideoContent,
                       state: State, reason: ReasonCode, now: int): VideoRow
  {
    VideoRow(contact, direction, state, reason, now, 0, content.encoding, content.width,
             content.height)
  }

  /** getImageSharingTotalSize: the stored file size, or 0 when there is no row. */
  function TotalSize(images: map<string, ImageRow>, sharingId: string): (n: int)
    ensures sharingId !in images ==> n == 0
    ensures sharingId in images ==> n == images[sharingId].fileSize
  {
    if sharingId in images then images[sharingId].fileSize else 0
  }

  /** setImageSharingStateAndReasonCode on one row, given the total size read first. */
  function ImageStateUpdate(row: ImageRow, state: State, reason: ReasonCode, total: int): ImageRow
  {
    row.(state := state, reason := reason,
         transferred := if state == Transferred && total != 0 then total else row.transferred)
  }

  /** An update on the URI of a sharing changes its row if there is one, and nothing
    * otherwise. */
  function UpdateImage(images: map<string, ImageRow>, sharingId: string, state: State,
                       reason: ReasonCode): map<string, ImageRow>
  {
    if sharingId in images
    then images[sharingId := ImageStateUpdate(images[sharingId], state, reason,
                                              TotalSize(images, sharingId))]
    else images
  }

  /** A sharing that ends TRANSFERRED counts its whole stored size as transferred, unless
    * that size is 0; any other state leaves the transferred count alone. The state and
    * the reason are always the new ones, and no other row changes. */
  lemma TransferredCountsWholeSize(images: map<string, ImageRow>, sharingId: string,
                                   state: State, reason: ReasonCode)
    requires sharingId in images
    ensures var after := UpdateImage(images, sharingId, state, reason);
            var before := images[sharingId];
      && after.Keys == images.Keys
      && after[sharingId].state == state && after[sharingId].reason == reason
      && after[sharingId].transferred
         == (if state == Transferred && before.fileSize != 0 then before.fileSize
             else before.transferred)
      && after[sharingId].(state := before.state, reason := before.reason,
                           transferred := before.transferred) == before
      && forall id :: id in images && id != sharingId ==> after[id] == images[id]
  {
  }

  /** A freshly inserted image sharing, once TRANSFERRED, reads as fully transferred:
    * the file size is non-zero or the count stays at 0. */
  lemma AddThenTransferred(images: map<string, ImageRow>, sharingId: string,
                           contact: ContactId, direction: Direction, content: MmContent,
                           state: State, reason: ReasonCode, now: int, endReason: ReasonCode)
    ensures var added := images[sharingId := NewImageRow(contact, direction, content, state,
                                                          reason, now)];
            var done := UpdateImage(added, sharingId, Transferred, endReason);
      && done[sharingId].transferred == content.size
      && done[sharingId].state == Transferred
  {
  }

  /** The tables behind the content resolver; they outlive any history object. */
  class SharingTables {
    var images: map<string, ImageRow>
    var videos: map<string, VideoRow>

    constructor ()
      ensures images == map[] && videos == map[]
    {
      images := map[];
      videos := map[];
    }
  }

  class RichCallHistory {
    const tables: SharingTables

    constructor (tables: SharingTables)
      ensures this.tables == tables
    {
      this.tables := tables;
    }

    method AddVideoSharing(sharingId: string, contact: ContactId, direction: Direction,
                           content: VideoContent, state: State, reason: ReasonCode, now: int)
      modifies tables`videos
      ensures tables.videos
              == old(tables.videos)[sharingId := NewVideoRow(contact, direction, content, state,
                                                             reason, now)]
    {
      tables.videos := tables.videos[sharingId := NewVideoRow(contact, direction, content,
                                                              state, reason, now)];
    }

    method SetVideoSharingStateAndReasonCode(sharingId: string, state: State,
                                             reason: ReasonCode)
      modifies tables`videos
      ensures sharingId in old(tables.videos) ==>
        tables.videos == old(tables.videos)[sharingId := old(tables.videos)[sharingId]
                                                           .(state := state, reason := reason)]
      ensures sharingId !in old(tables.videos) ==> tables.videos == old(tables.videos)
    {
      if sharingId in tables.videos {
        tables.videos := tables.videos[sharingId := tables.videos[sharingId]
                                                      .(state := state, reason := reason)];
      }
    }

    method SetVideoSharingDuration(sharingId: string, duration: int)
      modifies tables`videos
      ensures sharingId in old(tables.videos) ==>
        tables.videos == old(tables.videos)[sharingId := old(tables.videos)[sharingId]
                                                           .(duration := duration)]
      ensures sharingId !in old(tables.videos) ==> tables.videos == old(tables.videos)
    {
      if sharingId in tables.videos {
        tables.videos := tables.videos[sharingId := tables.videos[sharingId]
                                                      .(duration := duration)];
      }
    }

    method AddImageSharing(sharingId: string, contact: ContactId, direction: Direction,
                           content: MmContent, state: State, reason: ReasonCode, now: int)
      modifies tables`images
      ensures tables.images
              == old(tables.images)[sharingId := NewImageRow(contact, direction, content, state,
                                                             reason, now)]
    {
      tables.images := tables.images[sharingId := NewImageRow(contact, direction, content,
                                                              state, reason, now)];
    }

    /** Reads the total size only for TRANSFERRED, then writes the state, the reason and,
      * when that size is not 0, the transferred count. */
    method SetImageSharingStateAndReasonCode(sharingId: string, state: State,
                                             reason: ReasonCode)
      modifies tables`images
      ensures tables.images == UpdateImage(old(tables.images), sharingId, state, reason)
    {
      var total := 0;
      if state == Transferred {
        total := GetImageSharingTotalSize(sharingId);
      }
      if sharingId in tables.images {
        tables.images := tables.images[sharingId := ImageStateUpdate(tables.images[sharingId],
                                                                     state, reason, total)];
      }
    }

    function GetImageSharingTotalSize(sharingId: string): (n: int)
      reads this, tables
      ensures n == TotalSize(tables.images, sharingId)
      ensures n != 0 ==> sharingId in tables.images
    {
      if sharingId in tables.images then tables.images[sharingId].fileSize else 0
    }

    method SetImageSharingProgress(sharingId: string, currentSize: int)
      modifies tables`images
      ensures sharingId in old(tables.images) ==>
        tables.images == old(tables.images)[sharingId := old(tables.images)[sharingId]
                                                           .(transferred := currentSize)]
      ensures sharingId !in old(tables.images) ==> tables.images == old(tables.images)
    {
      if sharingId in tables.images {
        tables.images := tables.images[sharingId := tables.images[sharingId]
                                                      .(transferred := currentSize)];
      }
    }

    method DeleteAllEntries()
      modifies tables
      ensures tables.images == map[] && tables.videos == map[]
    {
      tables.images := map[];
      tables.videos := map[];
    }

    /** The single-column getters: None where the read throws for want of a row. */
    function GetImageSharingRemoteContact(sharingId: string): (r: Option<ContactId>)
      reads this, tables
      ensures r.None? <==> sharingId !in tables.images
    {
      if sharingId in tables.images then Some(tables.images[sharingId].contact) else None
    }

    function GetImage(sharingId: string): (r: Option<string>)
      reads this, tables
      ensures r.None? <==> sharingId !in tables.images
    {
      if sharingId in tables.images then Some(tables.images[sharingId].file) else None
    }

    function GetImageSharingName(sharingId: string): (r: Option<string>)
      reads this, tables
      ensures r.None? <==> sharingId !in tables.images
    {
      if sharingId in tables.images then Some(tables.images[sharingId].fileName) else None
    }

    function GetImageSharingSize(sharingId: string): (r: Option<int>)
      reads this, tables
      ensures r.None? <==> sharingId !in tables.images
      ensures r.Some? ==> r.value == GetImageSharingTotalSize(sharingId)
    {
      if sharingId in tables.images then Some(tables.images[sharingId].fileSize) else None
    }

    function GetImageSharingMimeType(sharingId: string): (r: Option<string>)
      reads this, tables
      ensures r.None? <==> sharingId !in tables.images
    {
      if sharingId in tables.images then Some(tables.images[sharingId].mimeType) else None
    }

    function GetImageSharingState(sharingId: string): (r: Option<State>)
      reads this, tables
      ensures r.None? <==> sharingId !in tables.images
    {
      if sharingId in tables.images then Some(tables.images[sharingId].state) else None
    }

    function GetImageSharingReasonCode(sharingId: string): (r: Option<ReasonCode>)
      reads this, tables
      ensures r.None? <==> sharingId !in tables.images
    {
      if sharingId in tables.images then Some(tables.images[sharingId].reason) else None
    }

    function GetImageSharingDirection(sharingId: string): (r: Option<Direction>)
      reads this, tables
      ensures r.None? <==> sharingId !in tables.images
    {
      if sharingId in tables.images then Some(tables.images[sharingId].direction) else None
    }

    function GetVideoSharingRemoteContact(sharingId: string): (r: Option<ContactId>)
      reads this, tables
      ensures r.None? <==> sharingId !in tables.videos
    {
      if sharingId in tables.videos then Some(tables.videos[sharingId].contact) else None
    }

    function GetVideoSharingState(sharingId: string): (r: Option<State>)
      reads this, tables
      ensures r.None? <==> sharingId !in tables.videos
    {
      if sharingId in tables.videos then Some(tables.videos[sharingId].state) else None
    }

    function GetVideoSharingReasonCode(sharingId: string): (r: Option<ReasonCode>)
      reads this, tables
      ensures r.None? <==> sharingId !in tables.videos
    {
      if sharingId in tables.videos then Some(tables.videos[sharingId].reason) else None
    }

    function GetVideoSharingDirection(sharingId: string): (r: Option<Direction>)
      reads this, tables
      ensures r.None? <==> sharingId !in tables.videos
    {
      if sharingId in tables.videos then Some(tables.videos[sharingId].direction) else None
    }
  }

  /** An added image sharing reads back through the getters as inserted. */
  lemma AddedImageReadsBack(h: RichCallHistory, before: map<string, ImageRow>,
                            sharingId: string, contact: ContactId, direction: Direction,
                            content: MmContent, state: State, reason: ReasonCode, now: int)
    requires h.tables.images
             == before[sharingId := NewImageRow(contact, direction, content, state, reason,
                                                now)]
    ensures h.GetImageSharingRemoteContact(sharingId) == Some(contact)
    ensures h.GetImage(sharingId) == Some(content.uri)
    ensures h.GetImageSharingSize(sharingId) == Some(content.size)
    ensures h.GetImageSharingName(sharingId) == Some(content.name)
    ensures h.GetImageSharingMimeType(sharingId) == Some(content.encoding)
    ensures h.GetImageSharingState(sharingId) == Some(state)
    ensures h.GetImageSharingReasonCode(sharingId) == Some(reason)
    ensures h.GetImageSharingDirection(sharingId) == Some(direction)
  {
  }

  /** After setImageSharingStateAndReasonCode the state and reason getters give the new
    * values and the name and MIME type getters the old ones. */
  lemma ImageStateUpdateReadsBack(h: RichCallHistory, before: map<string, ImageRow>,
                                  sharingId: string, state: State, reason: ReasonCode)
    requires h.tables.images == UpdateImage(before, sharingId, state, reason)
    ensures h.GetImageSharingState(sharingId)
            == if sharingId in before then Some(state) else None
    ensures h.GetImageSharingReasonCode(sharingId)
            == if sharingId in before then Some(reason) else None
    ensures h.GetImageSharingName(sharingId)
            == if sharingId in before then Some(before[sharingId].fileName) else None
    ensures h.GetImageSharingMimeType(sharingId)
            == if sharingId in before then Some(before[sharingId].mimeType) else None
  {
  }

  /** A video sharing just added reads back through the getters as inserted. */
  lemma AddedVideoReadsBack(h: RichCallHistory, before: map<string, VideoRow>,
                            sharingId: string, contact: ContactId, direction: Direction,
                            content: VideoContent, state: State, reason: ReasonCode, now: int)
    requires h.tables.videos
             == before[sharingId := NewVideoRow(contact, direction, content, state, reason,
                                                now)]
    ensures h.GetVideoSharingRemoteContact(sharingId) == Some(contact)
    ensures h.GetVideoSharingState(sharingId) == Some(state)
    ensures h.GetVideoSharingReasonCode(sharingId) == Some(reason)
    ensures h.GetVideoSharingDirection(sharingId) == Some(direction)
  {
  }

  /** After setVideoSharingStateAndReasonCode the state and reason getters give the new
    * values, the contact and direction getters the old ones, and a sharing that was not
    * there is still not found. */
  lemma VideoStateUpdateReadsBack(h: RichCallHistory, before: map<string, VideoRow>,
                                  sharingId: string, state: State, reason: ReasonCode)
    requires h.tables.videos
             == if sharingId in before
                then before[sharingId := before[sharingId].(state := state, reason := reason)]
                else before
    ensures h.GetVideoSharingState(sharingId)
            == if sharingId in before then Some(state) else None
    ensures h.GetVideoSharingReasonCode(sharingId)
            == if sharingId in before then Some(reason) else None
    ensures h.GetVideoSharingRemoteContact(sharingId)
            == if sharingId in before then Some(before[sharingId].contact) else None
    ensures h.GetVideoSharingDirection(sharingId)
            == if sharingId in before then Some(before[sharingId].direction) else None
  {
  }

  /** The holder of the static instance. */
  class Registry {
    var instance: RichCallHistory?

    constructor ()
      ensures instance == null
    {
      instance := null;
    }

    /** createInstance: builds the history the first time only. */
    method CreateInstance(tables: SharingTables)
      modifies this
      ensures old(instance) != null ==> instance == old(instance)
      ensures old(instance) == null ==> instance != null && fresh(instance)
                                        && instance.tables == tables
    {
      if instance == null {
        instance := new RichCallHistory(tables);
      }
    }

    function GetInstance(): (r: RichCallHistory?)
      reads this
      ensures r == instance
    {
      instance
    }
  }

  /** Two creations give the instance of the first, whatever tables the second names. */
  method CreateInstanceTwice(registry: Registry, first: SharingTables, second: SharingTables)
    returns (history: RichCallHistory?)
    requires registry.instance == null
    modifies registry
    ensures history != null && history.tables == first && history == registry.instance
  {
    registry.CreateInstance(first);
    var created := registry.GetInstance();
    registry.CreateInstance(second);
    history := registry.GetInstance();
    assert history == created;
  }
}
