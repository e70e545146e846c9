/** The query dispatcher (services/geminiService.ts): builds one request for the
    hosted model, hands it to the SDK, and normalises the response or maps any
    failure of the call to one uniform error. The SDK call itself is the parameter `send`. */
module Service {
  import opened Wrappers
  import opened Types

  const ModelName := "gemini-2.5-flash"

  /** Fixed phrase put in front of every query. */
  const QueryPrefix := "Query related to Presidency University, Bengaluru: "

  /** The fixed persona profile sent with every request. */
  const SystemInstruction :=
    "You are the official \"Presidency University Campus Guide\". \n"
    + "Your goal is to provide accurate directions, information, and location details for Presidency University, Bengaluru (located in Itgalpur, Rajanakunte).\n"
    + "Always use the Google Maps tool to fetch real-time information. \n"
    + "Help users find specific blocks (Block A, B, C, etc.), libraries, cafeterias, hostels, and administrative offices.\n"
    + "If a user asks for directions, provide a clear step-by-step text guide and always include the Google Maps links provided by the grounding tool.\n"
    + "Keep your tone professional, helpful, and welcoming to students and visitors."

  /** Answer text used when the response carries no text or an empty one. */
  const NoDetailsText := "I couldn't find specific details for that request. Please try again."

  /** The one message every failed call is reported with. */
  const FetchFailedMessage := "Failed to fetch campus data. Please check your connection."

  // ----- outbound request -----

  datatype Tool = GoogleMaps
  datatype LatLng = LatLng(latitude: real, longitude: real)
  datatype RetrievalConfig = RetrievalConfig(latLng: LatLng)
  datatype ToolConfig = ToolConfig(retrievalConfig: RetrievalConfig)

  datatype Request = Request(
    model: string,
    contents: string,
    tools: seq<Tool>,
    toolConfig: Option<ToolConfig>,
    systemInstruction: string)

  // ----- inbound response, as far as the dispatcher reads it -----

  datatype GroundingMetadata = GroundingMetadata(groundingChunks: Option<seq<GroundingChunk>>)
  datatype Candidate = Candidate(groundingMetadata: Option<GroundingMetadata>)
  datatype Response = Response(text: Option<string>, candidates: Option<seq<Candidate>>)

  /** What the SDK call settles with: a response, or a rejection whose detail is only logged. */
  datatype CallOutcome = Responded(response: Response) | Rejected(detail: string)

  datatype ServiceError = ServiceError(message: string)

  /** The request for `query`: the maps tool is always on, the query is prefixed,
      and the caller's position is attached as retrieval context exactly when it
      is known, with its coordinates copied and no default substituted. */
  function BuildRequest(query: string, location: Option<Location>): (r: Request)
    ensures r.model == ModelName && r.systemInstruction == SystemInstruction
    ensures r.tools == [GoogleMaps]
    ensures r.contents == QueryPrefix + query
    ensures r.toolConfig.Some? <==> location.Some?
    ensures location.Some? ==>
      r.toolConfig.value.retrievalConfig.latLng == LatLng(location.value.latitude, location.value.longitude)
  {
    var toolConfig :=
      match location
      case None => None
      case Some(loc) => Some(ToolConfig(RetrievalConfig(LatLng(loc.latitude, loc.longitude))));
    Request(ModelName, QueryPrefix + query, [GoogleMaps], toolConfig, SystemInstruction)
  }

  /** The query a request carries, if its contents start with the fixed prefix. */
  function QueryOf(req: Request): Option<string> {
    if QueryPrefix <= req.contents then Some(req.contents[|QueryPrefix|..]) else None
  }

  /** The caller position a request carries, if any. */
  function LocationOf(req: Request): Option<Location> {
    match req.toolConfig
    case None => None
    case Some(tc) => Some(Location(tc.retrievalConfig.latLng.latitude, tc.retrievalConfig.latLng.longitude))
  }

  /** Nothing of the query or the position is lost in the request: both can be read back. */
  lemma BuildRequestRoundTrip(query: string, location: Option<Location>)
    ensures QueryOf(BuildRequest(query, location)) == Some(query)
    ensures LocationOf(BuildRequest(query, location)) == location
  { }

  /** `response.candidates?.[0]?.groundingMetadata?.groundingChunks`: undefined as
      soon as any link of that path is absent (an empty candidate list included). */
  function FirstCandidateChunks(resp: Response): Option<seq<GroundingChunk>> {
    match resp.candidates
    case None => None
    case Some(cs) =>
      if |cs| == 0 then None
      else
        match cs[0].groundingMetadata
        case None => None
        case Some(md) => md.groundingChunks
  }

  /** The normalised answer: a missing or empty text becomes the fixed "no details"
      text, any other text is kept unchanged; the links are the first candidate's
      chunks exactly as received (map-less ones included) or [] when the path is absent. */
  function Normalize(resp: Response): (r: SearchResult)
    ensures r.text != []
    ensures resp.text.Some? && resp.text.value != [] ==> r.text == resp.text.value
    ensures resp.text.None? || resp.text.value == [] ==> r.text == NoDetailsText
    ensures FirstCandidateChunks(resp).Some? ==> r.groundingLinks == FirstCandidateChunks(resp).value
    ensures FirstCandidateChunks(resp).None? ==> r.groundingLinks == []
  {
    var text := if resp.text.Some? && resp.text.value != [] then resp.text.value else NoDetailsText;
    var links := match FirstCandidateChunks(resp) case Some(cs) => cs case None => [];
    SearchResult(text, links)
  }

  /** `searchCampus(query, userLocation)`: exactly the request built from the two
      arguments is sent; a rejection of any kind becomes the single fixed error with
      no partial result, and a response is normalised. */
  function SearchCampus(query: string, location: Option<Location>, send: Request -> CallOutcome)
    : (r: Result<SearchResult, ServiceError>)
    ensures r.Failure? <==> send(BuildRequest(query, location)).Rejected?
    ensures r.Failure? ==> r.error == ServiceError(FetchFailedMessage)
    ensures r.Success? ==> r.value == Normalize(send(BuildRequest(query, location)).response)
  {
    match send(BuildRequest(query, location))
    case Rejected(_) => Failure(ServiceError(FetchFailedMessage))
    case Responded(resp) => Success(Normalize(resp))
  }
}
