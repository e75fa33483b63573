/** The group chat table of the chat provider: one row per group chat, with its
  * participants written as text, the user-abortion flag that makes the next invitation
  * to an aborted chat be refused, and the queries the chat service runs on it. */
module GroupChatLogModel {
  import opened Common
  import opened JavaStrings

  /** A group chat participant and its status (ParticipantInfo). */
  datatype ParticipantInfo = ParticipantInfo(contact: ContactId, status: nat)

  /** The status values of a participant that declined the chat or left it. Their
    * numbers come from ParticipantInfo.Status, which is not part of this model; no proof
    * depends on them. */
  const DEPARTED: nat
  const DECLINED: nat

  /** GroupChat.State and GroupChat.ReasonCode, as far as the table queries test them. */
  datatype ChatState = Invited | Initiating | Started | Aborted | Failed | Accepting | Rejected
  datatype ChatReason = Unspecified | AbortedByUser | OtherReason(code: int)

  datatype Direction = Incoming | Outgoing

  /** Whether the server was told that the user left the chat (UserAbortion). */
  datatype UserAbortion = ServerNotified | ServerNotNotified

  function UserAbortionToInt(u: UserAbortion): (n: int)
    ensures n == 0 || n == 1
  {
    match u
    case ServerNotified => 0
    case ServerNotNotified => 1
  }

  /** UserAbortion.valueOf: None where it throws IllegalArgumentException. */
  function UserAbortionValueOf(n: int): (r: Option<UserAbortion>)
    ensures r.Some? <==> n == 0 || n == 1
  {
    if n == 0 then Some(ServerNotified)
    else if n == 1 then Some(ServerNotNotified)
    else None
  }

  /** valueOf inverts toInt, and toInt inverts valueOf where it is defined. */
  lemma UserAbortionRoundTrip(u: UserAbortion, n: int)
    ensures UserAbortionValueOf(UserAbortionToInt(u)) == Some(u)
    ensures UserAbortionValueOf(n) == Some(u) ==> UserAbortionToInt(u) == n
  {
  }

  // ----- writeParticipantInfo and the matching reader -----

  /** One `contact=status` item. */
  function Item(p: ParticipantInfo): string
  {
    p.contact + ['='] + DecimalString(p.status)
  }

  function Items(ps: seq<ParticipantInfo>): (items: seq<string>)
    ensures |items| == |ps|
  {
    seq(|ps|, i requires 0 <= i < |ps| => Item(ps[i]))
  }

  /** What writeParticipantInfo stores: null (None) for no participants, otherwise the
    * items joined by ',' with no separator after the last one. */
  function ParticipantText(ps: seq<ParticipantInfo>): Option<string>
  {
    if ps == [] then None else Some(JoinWith(Items(ps), ','))
  }

  /** A contact can be written and read back when it holds neither separator. */
  predicate Writable(ps: seq<ParticipantInfo>)
  {
    forall i :: 0 <= i < |ps| ==> ',' !in ps[i].contact && '=' !in ps[i].contact
  }

  predicate IsDigits(s: string)
  {
    s != [] && forall i :: 0 <= i < |s| ==> '0' <= s[i] <= '9'
  }

  /** Reads one item; None for a malformed one. */
  function ParseItem(item: string): (r: Option<ParticipantInfo>)
    ensures r.Some? ==> '=' !in r.value.contact
  {
    var parts := Split(item, '=');
    if |parts| == 2 && IsDigits(parts[1])
    then Some(ParticipantInfo(parts[0], DecimalValue(parts[1])))
    else None
  }

  function ParseItems(items: seq<string>): (r: Option<seq<ParticipantInfo>>)
    ensures r.Some? ==> |r.value| == |items|
  {
    if items == [] then Some([])
    else
      var first := ParseItem(items[0]);
      var rest := ParseItems(items[1..]);
      if first.Some? && rest.Some? then Some([first.value] + rest.value) else None
  }

  /** The reader the provider's callers use on the stored text (ChatLog's decoder is not
    * part of this model): the participants, or None for null or malformed text. */
  function ParseParticipantInfo(text: Option<string>): Option<seq<ParticipantInfo>>
  {
    if text.None? then None else ParseItems(Split(text.value, ','))
  }

  /** The text of one item splits at '=' into the contact and the status digits. */
  lemma ParseItemOfItem(p: ParticipantInfo)
    requires '=' !in p.contact
    ensures ParseItem(Item(p)) == Some(p)
  {
    var digits := DecimalString(p.status);
    assert forall k :: 0 <= k < |digits| ==> digits[k] != '=';
    assert '=' !in digits;
    SplitPrefixToken(p.contact, digits, '=');
    SplitOfToken(digits, '=');
    DecimalRoundTrip(p.status);
  }

  lemma {:induction false} ParseItemsOfItems(ps: seq<ParticipantInfo>)
    requires Writable(ps)
    ensures ParseItems(Items(ps)) == Some(ps)
  {
    if ps != [] {
      ParseItemOfItem(ps[0]);
      assert Items(ps)[1..] == Items(ps[1..]);
      ParseItemsOfItems(ps[1..]);
      assert [ps[0]] + ps[1..] == ps;
    }
  }

  /** Reading back what writeParticipantInfo stored gives the participants, in order,
    * whenever no contact holds a separator. */
  lemma ParticipantTextRoundTrip(ps: seq<ParticipantInfo>)
    requires ps != [] && Writable(ps)
    ensures ParseParticipantInfo(ParticipantText(ps)) == Some(ps)
  {
    forall i | 0 <= i < |ps|
      ensures ',' !in Items(ps)[i]
    {
      var digits := DecimalString(ps[i].status);
      assert forall k :: 0 <= k < |digits| ==> digits[k] != ',';
      assert Items(ps)[i] == ps[i].contact + ['='] + digits;
    }
    SplitJoin(Items(ps), ',');
    ParseItemsOfItems(ps);
  }

  /** Joining one more item adds a separator and the item. */
  lemma {:induction false} JoinWithSnoc(xs: seq<string>, y: string, sep: char)
    requires xs != []
    ensures JoinWith(xs + [y], sep) == JoinWith(xs, sep) + [sep] + y
  {
    if |xs| == 1 {
      assert (xs + [y])[1..] == [y];
    } else {
      assert (xs + [y])[1..] == xs[1..] + [y];
      JoinWithSnoc(xs[1..], y, sep);
    }
  }

  /** writeParticipantInfo: walks the participants once, appending each item and, while
    * items remain, a separator. */
  method WriteParticipantInfo(participants: seq<ParticipantInfo>) returns (text: Option<string>)
    ensures text == ParticipantText(participants)
  {
    if |participants| == 0 {
      return None;
    }
    var sb: string := "";
    var size := |participants|;
    var i := 0;
    while i < |participants|
      invariant 0 <= i <= |participants|
      invariant size == |participants| - i
      invariant i == 0 ==> sb == ""
      invariant 0 < i ==> sb == JoinWith(Items(participants[..i]), ',')
                                 + (if i < |participants| then [','] else [])
    {
      var item := Item(participants[i]);
      assert Items(participants[..i + 1]) == Items(participants[..i]) + [item];
      if i > 0 {
        JoinWithSnoc(Items(participants[..i]), item, ',');
      }
      sb := sb + item;
      size := size - 1;
      if size != 0 {
        sb := sb + [','];
      }
      i := i + 1;
    }
    assert participants[..i] == participants;
    assert Items(participants[..i]) == Items(participants);
    assert sb == JoinWith(Items(participants), ',');
    assert ParticipantText(participants) == Some(JoinWith(Items(participants), ','));
    return Some(sb);
  }

  // ----- the table -----

  /** A row of the group chat table. The participants column holds ParticipantText. */
  datatype GroupChatRow = GroupChatRow(
    chatId: string,
    contact: Option<ContactId>,
    state: ChatState,
    reason: ChatReason,
    subject: Option<string>,
    participants: Option<string>,
    direction: Direction,
    timestamp: int,
    userAbortion: int,
    rejoinId: Option<string>)

  /** The selection that marks a chat whose next invitation is to be refused: aborted by
    * the user, and the server not told. */
  predicate NextInviteRejectedRow(r: GroupChatRow)
  {
    r.state == Aborted && r.reason == AbortedByUser
    && r.userAbortion == UserAbortionToInt(ServerNotNotified)
  }

  /** isGroupChatNextInviteRejected: whether the chat's row matches that selection. */
  predicate NextInviteRejected(rows: map<string, GroupChatRow>, chatId: string)
  {
    chatId in rows && NextInviteRejectedRow(rows[chatId])
  }

  /** Connected participants: every participant but those that departed or declined. */
  predicate IsConnected(p: ParticipantInfo)
  {
    p.status != DEPARTED && p.status != DECLINED
  }

  function Connected(ps: seq<ParticipantInfo>): (r: seq<ParticipantInfo>)
    ensures |r| <= |ps|
  {
    if ps == [] then []
    else Connected(ps[..|ps| - 1]) + (if IsConnected(ps[|ps| - 1]) then [ps[|ps| - 1]] else [])
  }

  /** The connected participants are exactly the stored ones that neither departed nor
    * declined. */
  lemma {:induction false} ConnectedMembers(ps: seq<ParticipantInfo>, p: ParticipantInfo)
    ensures p in Connected(ps) <==> p in ps && IsConnected(p)
  {
    if ps != [] {
      ConnectedMembers(ps[..|ps| - 1], p);
      assert ps == ps[..|ps| - 1] + [ps[|ps| - 1]];
    }
  }

  /** The chat ids getChatIdsOfActiveGroupChatsForAutoRejoin selects: state STARTED. */
  function ActiveChatIds(rows: map<string, GroupChatRow>): set<string>
  {
    set id | id in rows && rows[id].state == Started
  }

  function WithUserAbortion(rows: map<string, GroupChatRow>, chatId: string, flag: UserAbortion)
    : map<string, GroupChatRow>
  {
    if chatId in rows then rows[chatId := rows[chatId].(userAbortion := UserAbortionToInt(flag))]
    else rows
  }

  /** acceptGroupChatNextInvitation's update: resets the flag only on a matching row. */
  function AcceptNext(rows: map<string, GroupChatRow>, chatId: string): map<string, GroupChatRow>
  {
    if NextInviteRejected(rows, chatId) then WithUserAbortion(rows, chatId, ServerNotified)
    else rows
  }

  function WithRejoinId(rows: map<string, GroupChatRow>, chatId: string, rejoinId: string)
    : map<string, GroupChatRow>
  {
    if chatId in rows then rows[chatId := rows[chatId].(rejoinId := Some(rejoinId),
                                                       state := Started)]
    else rows
  }

  /** After setRejectNextGroupChatNextInvitation the next invitation is refused exactly
    * when the chat was aborted by the user. */
  lemma RejectNextMarks(rows: map<string, GroupChatRow>, chatId: string)
    ensures NextInviteRejected(WithUserAbortion(rows, chatId, ServerNotNotified), chatId)
            <==> chatId in rows && rows[chatId].state == Aborted
                 && rows[chatId].reason == AbortedByUser
  {
  }

  /** Accepting the next invitation clears the mark, touches only a marked row and no
    * other chat. */
  lemma AcceptNextClears(rows: map<string, GroupChatRow>, chatId: string)
    ensures !NextInviteRejected(AcceptNext(rows, chatId), chatId)
    ensures AcceptNext(rows, chatId).Keys == rows.Keys
    ensures forall id :: id in rows && id != chatId ==> AcceptNext(rows, chatId)[id] == rows[id]
    ensures !NextInviteRejected(rows, chatId) ==> AcceptNext(rows, chatId) == rows
    ensures NextInviteRejected(rows, chatId) ==>
      AcceptNext(rows, chatId)[chatId]
      == rows[chatId].(userAbortion := UserAbortionToInt(ServerNotified))
  {
  }

  /** Setting a rejoin id makes the chat one the service rejoins automatically, and
    * changes no other chat's membership in that list. */
  lemma RejoinMakesActive(rows: map<string, GroupChatRow>, chatId: string, rejoinId: string)
    requires chatId in rows
    ensures ActiveChatIds(WithRejoinId(rows, chatId, rejoinId))
            == ActiveChatIds(rows) + {chatId}
  {
  }

  class GroupChatLog {
    /** The group chat table, one row per chat id. */
    var rows: map<string, GroupChatRow>

    constructor ()
      ensures rows == map[]
    {
      rows := map[];
    }

    /** addGroupChat: a new row, its participants written as text and the user-abortion
      * flag at SERVER_NOTIFIED. */
    method AddGroupChat(chatId: string, contact: Option<ContactId>, subject: Option<string>,
                        participants: seq<ParticipantInfo>, state: ChatState, reason: ChatReason,
                        direction: Direction, now: int)
      modifies this`rows
      ensures rows == old(rows)[chatId := GroupChatRow(chatId, contact, state, reason, subject,
                                                       ParticipantText(participants), direction,
                                                       now, UserAbortionToInt(ServerNotified),
                                                       None)]
    {
      var text := WriteParticipantInfo(participants);
      rows := rows[chatId := GroupChatRow(chatId, contact, state, reason, subject, text,
                                          direction, now, UserAbortionToInt(ServerNotified),
                                          None)];
    }

    method AcceptGroupChatNextInvitation(chatId: string)
      modifies this`rows
      ensures rows == AcceptNext(old(rows), chatId)
    {
      if chatId in rows && NextInviteRejectedRow(rows[chatId]) {
        rows := rows[chatId := rows[chatId].(userAbortion := UserAbortionToInt(ServerNotified))];
      }
    }

    method SetGroupChatStateAndReasonCode(chatId: string, state: ChatState, reason: ChatReason)
      modifies this`rows
      ensures rows == if chatId in old(rows)
                      then old(rows)[chatId := old(rows)[chatId].(state := state, reason := reason)]
                      else old(rows)
    {
      if chatId in rows {
        rows := rows[chatId := rows[chatId].(state := state, reason := reason)];
      }
    }

    method UpdateGroupChatParticipant(chatId: string, participants: seq<ParticipantInfo>)
      modifies this`rows
      ensures rows == if chatId in old(rows)
                      then old(rows)[chatId := old(rows)[chatId].(participants :=
                                                                    ParticipantText(participants))]
                      else old(rows)
    {
      var text := WriteParticipantInfo(participants);
      if chatId in rows {
        rows := rows[chatId := rows[chatId].(participants := text)];
      }
    }

    /** setGroupChatRejoinId: stores the rejoin id and sets the state to STARTED. */
    method SetGroupChatRejoinId(chatId: string, rejoinId: string)
      modifies this`rows
      ensures rows == WithRejoinId(old(rows), chatId, rejoinId)
    {
      if chatId in rows {
        rows := rows[chatId := rows[chatId].(rejoinId := Some(rejoinId), state := Started)];
      }
    }

    method SetRejectNextGroupChatNextInvitation(chatId: string)
      modifies this`rows
      ensures rows == WithUserAbortion(old(rows), chatId, ServerNotNotified)
    {
      if chatId in rows {
        rows := rows[chatId := rows[chatId].(userAbortion := UserAbortionToInt(ServerNotNotified))];
      }
    }

    function IsGroupChatNextInviteRejected(chatId: string): (rejected: bool)
      reads this
      ensures rejected <==> chatId in rows && rows[chatId].state == Aborted
                            && rows[chatId].reason == AbortedByUser
                            && UserAbortionValueOf(rows[chatId].userAbortion)
                               == Some(ServerNotNotified)
    {
      NextInviteRejected(rows, chatId)
    }

    /** getGroupChatConnectedParticipants: the stored participants that neither departed
      * nor declined; none without a row or readable participants. */
    method GetGroupChatConnectedParticipants(chatId: string) returns (result: seq<ParticipantInfo>)
      ensures var stored := if chatId in rows then ParseParticipantInfo(rows[chatId].participants)
                            else None;
        result == if stored.Some? then Connected(stored.value) else []
    {
      result := [];
      if chatId !in rows {
        return;
      }
      var participants := ParseParticipantInfo(rows[chatId].participants);
      if participants.None? {
        return;
      }
      var ps := participants.value;
      var i := 0;
      while i < |ps|
        invariant 0 <= i <= |ps|
        invariant result == Connected(ps[..i])
      {
        assert ps[..i + 1][..i] == ps[..i];
        if ps[i].status != DEPARTED && ps[i].status != DECLINED {
          result := result + [ps[i]];
        }
        i := i + 1;
      }
      assert ps[..i] == ps;
    }

    /** getChatIdsOfActiveGroupChatsForAutoRejoin: every chat id in state STARTED, each
      * once. */
    method GetChatIdsOfActiveGroupChatsForAutoRejoin() returns (chatIds: seq<string>)
      ensures forall id :: id in chatIds <==> id in ActiveChatIds(rows)
      ensures forall i, j :: 0 <= i < j < |chatIds| ==> chatIds[i] != chatIds[j]
    {
      chatIds := [];
      var remaining := rows.Keys;
      ghost var seen: set<string> := {};
      while remaining != {}
        invariant remaining !! seen && remaining + seen == rows.Keys
        invariant forall id :: id in chatIds <==> id in seen && rows[id].state == Started
        invariant forall i, j :: 0 <= i < j < |chatIds| ==> chatIds[i] != chatIds[j]
        decreases |remaining|
      {
        var id :| id in remaining;
        if rows[id].state == Started {
          chatIds := chatIds + [id];
        }
        remaining := remaining - {id};
        seen := seen + {id};
      }
    }

    // Single-column getters: None where the provider throws SQLException (no row).

    function GetGroupChatState(chatId: string): (r: Option<ChatState>)
      reads this
      ensures r.None? <==> chatId !in rows
    {
      if chatId in rows then Some(rows[chatId].state) else None
    }

    function GetGroupChatReasonCode(chatId: string): (r: Option<ChatReason>)
      reads this
      ensures r.None? <==> chatId !in rows
    {
      if chatId in rows then Some(rows[chatId].reason) else None
    }

    function GetGroupChatDirection(chatId: string): (r: Option<Direction>)
      reads this
      ensures r.None? <==> chatId !in rows
    {
      if chatId in rows then Some(rows[chatId].direction) else None
    }

    function GetSubject(chatId: string): (r: Option<Option<string>>)
      reads this
      ensures r.None? <==> chatId !in rows
    {
      if chatId in rows then Some(rows[chatId].subject) else None
    }

    function GetGroupChatParticipants(chatId: string): (r: Option<Option<seq<ParticipantInfo>>>)
      reads this
      ensures r.None? <==> chatId !in rows
    {
      if chatId in rows then Some(ParseParticipantInfo(rows[chatId].participants)) else None
    }
  }

  /** A chat just added reports back the participants it was added with, filtered to the
    * connected ones, and its next invitation is not refused. */
  lemma AddedChatReadsBack(rows: map<string, GroupChatRow>, chatId: string,
                           contact: Option<ContactId>, subject: Option<string>,
                           participants: seq<ParticipantInfo>, state: ChatState,
                           reason: ChatReason, direction: Direction, now: int)
    requires participants != [] && Writable(participants)
    ensures var added := rows[chatId := GroupChatRow(chatId, contact, state, reason, subject,
                                                     ParticipantText(participants), direction,
                                                     now, UserAbortionToInt(ServerNotified),
                                                     None)];
      && ParseParticipantInfo(added[chatId].participants) == Some(participants)
      && !NextInviteRejected(added, chatId)
  {
    ParticipantTextRoundTrip(participants);
  }

  /** A chat just added reads back through the getters with the state, reason, direction,
    * subject and participants it was added with. */
  lemma AddedChatGettersReadBack(log: GroupChatLog, before: map<string, GroupChatRow>,
                                 chatId: string, contact: Option<ContactId>,
                                 subject: Option<string>, participants: seq<ParticipantInfo>,
                                 state: ChatState, reason: ChatReason, direction: Direction,
                                 now: int)
    requires participants != [] && Writable(participants)
    requires log.rows == before[chatId := GroupChatRow(chatId, contact, state, reason, subject,
                                                       ParticipantText(participants), direction,
                                                       now, UserAbortionToInt(ServerNotified),
                                                       None)]
    ensures log.GetGroupChatState(chatId) == Some(state)
    ensures log.GetGroupChatReasonCode(chatId) == Some(reason)
    ensures log.GetGroupChatDirection(chatId) == Some(direction)
    ensures log.GetSubject(chatId) == Some(subject)
    ensures log.GetGroupChatParticipants(chatId) == Some(Some(participants))
  {
    ParticipantTextRoundTrip(participants);
  }

  /** After setGroupChatStateAndReasonCode the state and reason getters give the new
    * values, the direction and subject getters the old ones, and a chat that was not
    * there is still not found. */
  lemma StateUpdateReadsBack(log: GroupChatLog, before: map<string, GroupChatRow>,
                             chatId: string, state: ChatState, reason: ChatReason)
    requires log.rows == if chatId in before
                         then before[chatId := before[chatId].(state := state, reason := reason)]
                         else before
    ensures log.GetGroupChatState(chatId) == if chatId in before then Some(state) else None
    ensures log.GetGroupChatReasonCode(chatId) == if chatId in before then Some(reason) else None
    ensures log.GetGroupChatDirection(chatId)
            == if chatId in before then Some(before[chatId].direction) else None
    ensures log.GetSubject(chatId)
            == if chatId in before then Some(before[chatId].subject) else None
  {
  }
}
