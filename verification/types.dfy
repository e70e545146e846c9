/** The record shapes shared by the service, the controller and the renderer
    (services/types.ts). */
module Types {
  import opened Wrappers

  /** The `maps` part of a grounding chunk: when present it carries both fields. */
  datatype MapsPlace = MapsPlace(uri: string, title: string)

  /** One grounding chunk returned by the remote service; `maps` may be absent. */
  datatype GroundingChunk = GroundingChunk(maps: Option<MapsPlace>)

  /** A normalised answer: always a text and always a (possibly empty) chunk list. */
  datatype SearchResult = SearchResult(text: string, groundingLinks: seq<GroundingChunk>)

  /** A position fix. The coordinates are floating point in the program; the model
      only ever copies them, so any value type would do. */
  datatype Location = Location(latitude: real, longitude: real)

  /** `ChatMessage.role` takes exactly these two values. */
  datatype Role = User | Assistant

  /** A message id: the literal `'welcome'`, or the decimal rendering of a
      millisecond clock reading. */
  datatype MessageId = WelcomeId | ClockId(millis: int)

  /** One entry of the conversation store; `links` is optional. */
  datatype ChatMessage = ChatMessage(
    id: MessageId,
    role: Role,
    content: string,
    links: Option<seq<GroundingChunk>>,
    timestamp: int)
}
