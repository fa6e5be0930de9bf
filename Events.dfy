/** The records that travel over the realtime data channel and into the
    client's event log (client/components/App.jsx), and the two field
    stampings the client applies to them. */
module Events {

  datatype Option<+T> = None | Some(value: T)

  /** An optional string field read in a JavaScript boolean context
      (`x || y`, `!x`): it counts only when it is there and non-empty. */
  predicate Present(field: Option<string>) {
    field.Some? && field.value != ""
  }

  /** What `crypto.randomUUID()` and `toLocaleTimeString()` produce: never empty. */
  type NonEmptyString = s: string | s != "" witness "0"

  const ConversationItemCreate: string := "conversation.item.create"
  const ResponseCreate: string := "response.create"
  const LogUpdate: string := "log.update"

  datatype Role = SystemRole | UserRole | AssistantRole

  /** A content part `{type: "input_text", text}`. */
  datatype ContentPart = InputText(text: string)

  /** A conversation item `{type: "message", role, content}`. */
  datatype Item = Message(role: Role, content: seq<ContentPart>)

  /** One message on the channel and one entry of the event log. `kind` is the
      `type` tag; `caption` is the field a `log.update` event carries; `item`
      is the body of a `conversation.item.create`. Other payload fields are
      carried by the remote side and are not read by the client. */
  datatype Event = Event(
    kind: string,
    eventId: Option<string>,
    timestamp: Option<string>,
    caption: Option<string>,
    item: Option<Item>)

  /** `message.event_id = message.event_id || crypto.randomUUID()` */
  function StampId(m: Event, freshId: NonEmptyString): (r: Event)
    ensures Present(r.eventId)
    ensures Present(m.eventId) ==> r.eventId == m.eventId
    ensures !Present(m.eventId) ==> r.eventId == Some(freshId)
    ensures r.(eventId := m.eventId) == m
  {
    if Present(m.eventId) then m else m.(eventId := Some(freshId))
  }

  /** `if (!e.timestamp) e.timestamp = now` */
  function BackfillTimestamp(e: Event, now: NonEmptyString): (r: Event)
    ensures Present(r.timestamp)
    ensures Present(e.timestamp) ==> r.timestamp == e.timestamp
    ensures !Present(e.timestamp) ==> r.timestamp == Some(now)
    ensures r.(timestamp := e.timestamp) == e
  {
    if Present(e.timestamp) then e else e.(timestamp := Some(now))
  }

  /** Stamping twice keeps the first identifier: a second dispatch of the
      same record would not renumber it. */
  lemma StampIdIdempotent(m: Event, a: NonEmptyString, b: NonEmptyString)
    ensures StampId(StampId(m, a), b) == StampId(m, a)
  {
  }

  /** A backfilled timestamp is never overwritten by a later backfill. */
  lemma BackfillIdempotent(e: Event, a: NonEmptyString, b: NonEmptyString)
    ensures BackfillTimestamp(BackfillTimestamp(e, a), b) == BackfillTimestamp(e, a)
  {
  }

  /** An outbound conversation item of the given role with one text part. */
  function ConversationItem(role: Role, text: string): (r: Event)
    ensures r.kind == ConversationItemCreate
    ensures r.item.Some? && r.item.value.role == role
    ensures r.item.value.content == [InputText(text)]
    ensures !Present(r.eventId) && !Present(r.timestamp)
  {
    Event(ConversationItemCreate, None, None, None, Some(Message(role, [InputText(text)])))
  }

  /** `{ type: "response.create" }` */
  function ResponseCreateEvent(): (r: Event)
    ensures r.kind == ResponseCreate && r.item.None?
    ensures !Present(r.eventId) && !Present(r.timestamp)
  {
    Event(ResponseCreate, None, None, None, None)
  }
}
