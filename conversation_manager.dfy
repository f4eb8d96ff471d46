/** The `whatsapp_conversations` and `whatsapp_messages` tables and the five
    operations the engine performs on them. */
module ConversationManager {
  import opened Common
  import opened Domain

  /** A row of `whatsapp_conversations`. The state and context columns may be
      null; `lastMessageAt` is an instant in milliseconds. */
  datatype ConvRow = ConvRow(
    id: string,
    userId: Option<string>,
    phone: string,
    state: Option<ConvState>,
    context: Option<Context>,
    lastMessageAt: int,
    lastMessageFrom: Option<string>)

  /** A conversation as the engine sees it: state and context always present. */
  datatype Conversation = Conversation(
    id: string,
    userId: Option<string>,
    phone: string,
    state: ConvState,
    context: Context,
    lastMessageAt: int)

  datatype Direction = Inbound | Outbound

  /** A row of `whatsapp_messages`. */
  datatype MessageRow = MessageRow(
    conversationId: string,
    userId: Option<string>,
    direction: Direction,
    text: string,
    messageType: string,
    twilioSid: Option<string>)

  /** The two kinds of update the engine applies to one conversation row. */
  datatype Write =
    | SetState(state: ConvState, context: Context, userId: Option<string>, now: int)
    | ResetWrite(now: int)

  /** A stored row read back with `?? {}` and `?? 'idle'` defaults. */
  function AsConversation(r: ConvRow): (c: Conversation)
    ensures c.id == r.id && c.userId == r.userId && c.phone == r.phone && c.lastMessageAt == r.lastMessageAt
    ensures r.state.None? ==> c.state == Idle
    ensures r.context.None? ==> c.context == EmptyContext
    ensures r.state.Some? ==> c.state == r.state.value
    ensures r.context.Some? ==> c.context == r.context.value
  {
    Conversation(r.id, r.userId, r.phone, r.state.GetOr(Idle), r.context.GetOr(EmptyContext), r.lastMessageAt)
  }

  /** `if (userId) updateData.user_id = userId`: the empty string is falsy. */
  predicate Truthy(userId: Option<string>) {
    userId.Some? && userId.value != ""
  }

  /** The columns one update writes. */
  function ApplyWrite(r: ConvRow, w: Write): ConvRow {
    match w
    case SetState(state, context, userId, now) =>
      r.(state := Some(state), context := Some(context), lastMessageAt := now,
         lastMessageFrom := Some("bot"), userId := if Truthy(userId) then userId else r.userId)
    case ResetWrite(now) =>
      r.(state := Some(Idle), context := Some(EmptyContext), lastMessageAt := now)
  }

  /** `update(...).eq('id', id)`: every row with that id takes the write. */
  function UpdateById(rows: map<string, ConvRow>, id: string, w: Write): map<string, ConvRow> {
    map p | p in rows :: if rows[p].id == id then ApplyWrite(rows[p], w) else rows[p]
  }

  /** Rows are keyed by their phone, and no two rows share an id. */
  ghost predicate WellFormed(rows: map<string, ConvRow>) {
    && (forall p :: p in rows ==> rows[p].phone == p)
    && (forall p, q :: p in rows && q in rows && rows[p].id == rows[q].id ==> p == q)
  }

  /** An update never changes an id or a phone, so the table stays well formed. */
  lemma UpdateKeepsWellFormed(rows: map<string, ConvRow>, id: string, w: Write)
    requires WellFormed(rows)
    ensures WellFormed(UpdateById(rows, id, w))
    ensures UpdateById(rows, id, w).Keys == rows.Keys
  {
    var r := UpdateById(rows, id, w);
    forall p, q | p in r && q in r && r[p].id == r[q].id
      ensures p == q
    {
      assert r[p].id == rows[p].id && r[q].id == rows[q].id;
    }
  }

  /** With unique ids, an update by id touches exactly the row that has it. */
  lemma UpdateTouchesOneRow(rows: map<string, ConvRow>, phone: string, w: Write)
    requires WellFormed(rows) && phone in rows
    ensures UpdateById(rows, rows[phone].id, w) == rows[phone := ApplyWrite(rows[phone], w)]
  {
    var r := UpdateById(rows, rows[phone].id, w);
    var s := rows[phone := ApplyWrite(rows[phone], w)];
    assert r.Keys == s.Keys;
    forall p | p in r
      ensures r[p] == s[p]
    {
      if p != phone {
        assert rows[p].id != rows[phone].id;
      }
    }
  }

  /** An update for an id no row has changes nothing. */
  lemma UpdateMissingId(rows: map<string, ConvRow>, id: string, w: Write)
    requires forall p :: p in rows ==> rows[p].id != id
    ensures UpdateById(rows, id, w) == rows
  {
    var r := UpdateById(rows, id, w);
    assert r.Keys == rows.Keys;
    forall p | p in r
      ensures r[p] == rows[p]
    {
    }
  }

  /** `updateConversation` writes exactly the given state and context, marks
      the bot as last sender and changes the user only for a non-empty id. */
  lemma SetStateEffect(r: ConvRow, state: ConvState, context: Context, userId: Option<string>, now: int)
    ensures var c := AsConversation(ApplyWrite(r, SetState(state, context, userId, now)));
      && c.state == state && c.context == context && c.lastMessageAt == now
      && c.id == r.id && c.phone == r.phone
      && (c.userId != r.userId ==> userId.Some? && userId.value != "" && c.userId == userId)
      && (userId.None? ==> c.userId == r.userId)
    ensures ApplyWrite(r, SetState(state, context, userId, now)).lastMessageFrom == Some("bot")
    ensures Truthy(userId) ==> ApplyWrite(r, SetState(state, context, userId, now)).userId == userId
    ensures !Truthy(userId) ==> ApplyWrite(r, SetState(state, context, userId, now)).userId == r.userId
  {
  }

  /** `resetConversation` leaves the user untouched and reads back as idle with
      an empty context. */
  lemma ResetEffect(r: ConvRow, now: int)
    ensures var c := AsConversation(ApplyWrite(r, ResetWrite(now)));
      && c.state == Idle && c.context == EmptyContext && c.lastMessageAt == now
      && c.userId == r.userId && c.id == r.id && c.phone == r.phone
    ensures ApplyWrite(r, ResetWrite(now)).lastMessageFrom == r.lastMessageFrom
  {
  }

  /** A conversation is stale when it is not idle and its last activity is
      strictly more than an hour old. */
  predicate IsStale(c: Conversation, now: int) {
    c.state != Idle && c.lastMessageAt < now - HourMs
  }

  /** Idle conversations are never stale, and neither is one exactly an hour
      old; a busy one a millisecond older is. */
  lemma StaleBoundary(c: Conversation, now: int)
    ensures c.state == Idle ==> !IsStale(c, now)
    ensures c.lastMessageAt == now - HourMs ==> !IsStale(c, now)
    ensures c.state != Idle && c.lastMessageAt == now - HourMs - 1 ==> IsStale(c, now)
  {
  }

  class ConversationStore {
    var rows: map<string, ConvRow>
    var messages: seq<MessageRow>

    ghost predicate Valid()
      reads this
    {
      WellFormed(rows)
    }

    constructor()
      ensures Valid() && rows == map[] && messages == []
    {
      rows := map[];
      messages := [];
    }

    /** `getOrCreateConversation`. An existing row is read back with defaults;
        otherwise one idle row with an empty context is inserted under the id
        the database assigns. A failed insert throws. */
    method GetOrCreate(phone: string, freshId: string, insertOk: bool, now: int) returns (r: Result<Conversation>)
      requires Valid()
      requires forall p :: p in rows ==> rows[p].id != freshId
      modifies this
      ensures Valid()
      ensures messages == old(messages)
      ensures phone in old(rows) ==> rows == old(rows) && r == Ok(AsConversation(rows[phone]))
      ensures phone !in old(rows) && !insertOk ==> rows == old(rows) && r.Err?
      ensures phone !in old(rows) && insertOk ==>
        && rows == old(rows)[phone := ConvRow(freshId, None, phone, Some(Idle), Some(EmptyContext), now, None)]
        && r == Ok(Conversation(freshId, None, phone, Idle, EmptyContext, now))
    {
      if phone in rows {
        return Ok(AsConversation(rows[phone]));
      }
      if !insertOk {
        return Err("Failed to create conversation");
      }
      var row := ConvRow(freshId, None, phone, Some(Idle), Some(EmptyContext), now, None);
      rows := rows[phone := row];
      r := Ok(AsConversation(row));
    }

    /** `updateConversation` */
    method Update(id: string, state: ConvState, context: Context, userId: Option<string>, now: int)
      requires Valid()
      modifies this
      ensures Valid()
      ensures rows == UpdateById(old(rows), id, SetState(state, context, userId, now))
      ensures messages == old(messages)
    {
      UpdateKeepsWellFormed(rows, id, SetState(state, context, userId, now));
      rows := UpdateById(rows, id, SetState(state, context, userId, now));
    }

    /** `resetConversation` */
    method Reset(id: string, now: int)
      requires Valid()
      modifies this
      ensures Valid()
      ensures rows == UpdateById(old(rows), id, ResetWrite(now))
      ensures messages == old(messages)
    {
      UpdateKeepsWellFormed(rows, id, ResetWrite(now));
      rows := UpdateById(rows, id, ResetWrite(now));
    }

    /** `logMessage`: exactly one text row is appended; conversations are
        untouched. */
    method LogMessage(conversationId: string, userId: Option<string>, direction: Direction, text: string, twilioSid: Option<string>)
      modifies this
      ensures rows == old(rows)
      ensures messages == old(messages) + [MessageRow(conversationId, userId, direction, text, "text", twilioSid)]
    {
      messages := messages + [MessageRow(conversationId, userId, direction, text, "text", twilioSid)];
    }

    /** `checkAndResetStaleConversation`: a stale conversation is reset in the
        table and returned with only its state and context changed. */
    method CheckAndResetStale(c: Conversation, now: int) returns (r: Conversation)
      requires Valid()
      modifies this
      ensures Valid()
      ensures messages == old(messages)
      ensures IsStale(c, now) ==>
        r == c.(state := Idle, context := EmptyContext) && rows == UpdateById(old(rows), c.id, ResetWrite(now))
      ensures !IsStale(c, now) ==> r == c && rows == old(rows)
    {
      if c.state != Idle && c.lastMessageAt < now - HourMs {
        Reset(c.id, now);
        return c.(state := Idle, context := EmptyContext);
      }
      return c;
    }
  }
}
