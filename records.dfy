/**
 * The rows of the application tables (src/lib/types.ts), one datatype per
 * table. Identifiers are opaque numbers handed out by the store and
 * timestamps are numbers whose order is the order of creation.
 */
module Records {
  import opened Wrappers

  type Id = nat
  type UserId = string
  type Timestamp = nat

  datatype Project = Project(
    id: Id, userId: UserId, name: string, description: string,
    createdAt: Timestamp, updatedAt: Timestamp)

  datatype ApiKey = ApiKey(
    id: Id, projectId: Id, key: string, name: string,
    lastUsedAt: Option<Timestamp>, createdAt: Timestamp)

  /** The CHECK (type IN ('email', 'telegram')) of the channel table. */
  datatype ChannelType = Email | Telegram

  /** `["email", "telegram"].includes(text)` */
  function ParseChannelType(text: string): (r: Option<ChannelType>)
    ensures r == Some(Email) <==> text == "email"
    ensures r == Some(Telegram) <==> text == "telegram"
  {
    if text == "email" then Some(Email)
    else if text == "telegram" then Some(Telegram)
    else None
  }

  datatype Channel = Channel(
    id: Id, userId: UserId, kind: ChannelType, name: string, config: string,
    enabled: int, createdAt: Timestamp, updatedAt: Timestamp)

  datatype Event = Event(
    id: Id, projectId: Id, apiKeyId: Id, channel: string, title: string,
    description: string, icon: Option<string>, metadata: string, createdAt: Timestamp)

  /** `event.metadata || "{}"`: the text the senders hand to `JSON.parse`. */
  function MetadataText(e: Event): (t: string)
    ensures t != ""
    ensures e.metadata != "" ==> t == e.metadata
    ensures e.metadata == "" ==> t == "{}"
  {
    if e.metadata == "" then "{}" else e.metadata
  }

  /** The CHECK (status IN ('pending', 'sent', 'failed')) of the notification table. */
  datatype Status = Pending | Sent | Failed

  datatype Notification = Notification(
    id: Id, eventId: Id, channelId: Id, status: Status,
    error: Option<string>, sentAt: Option<Timestamp>, createdAt: Timestamp)

  datatype Rule = Rule(
    id: Id, projectId: Id, channelId: Id, eventCategory: string, createdAt: Timestamp)

  /** A delivery record that has reached its final state, with the fields that state implies. */
  predicate Terminal(n: Notification) {
    || (n.status == Sent && n.sentAt.Some? && n.error.None?)
    || (n.status == Failed && n.error.Some? && n.sentAt.None?)
  }
}
