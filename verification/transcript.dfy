/** Whole sessions: the controller's transitions driven by a sequence of UI
    events, and the invariants of the conversation store across them. */
module Transcript {
  import opened Wrappers
  import opened Types
  import opened Whitespace
  import Service
  import Render
  import opened Controller

  /** Everything that can change the session: typing, a send (Enter, the send
      button, or a quick action with its canned query), a dispatched call settling,
      a position fix, and "NEW TRIP". A settle is not tied to a pending call, so
      `Run` also admits sequences the program cannot produce (a reply with no
      user entry before it); the invariants below hold for these extra runs too. */
  datatype Event =
    | Typed(text: string)
    | Send(queryText: Option<string>, now: int)
    | Settled(outcome: Result<SearchResult, Service.ServiceError>, now: int)
    | Located(loc: Location)
    | NewTripPressed(now: int)

  function Step(s: Session, e: Event): Session {
    match e
    case Typed(text) => EditInput(s, text)
    case Send(q, now) => Submit(s, q, now).session
    case Settled(outcome, now) => Complete(s, outcome, now)
    case Located(loc) => Locate(s, loc)
    case NewTripPressed(now) => NewTrip(s, now)
  }

  function Run(s: Session, events: seq<Event>): Session
    decreases |events|
  {
    if events == [] then s else Run(Step(s, events[0]), events[1..])
  }

  /** Without "NEW TRIP" the store is append-only: every earlier entry stays, in place. */
  lemma {:induction false} RunAppendOnly(s: Session, events: seq<Event>)
    requires forall i | 0 <= i < |events| :: !events[i].NewTripPressed?
    ensures s.messages <= Run(s, events).messages
    decreases |events|
  {
    if events != [] {
      var s' := Step(s, events[0]);
      assert s.messages <= s'.messages;
      RunAppendOnly(s', events[1..]);
    }
  }

  /** The store is never empty once it holds an entry, resets included. */
  lemma {:induction false} RunKeepsStoreNonEmpty(s: Session, events: seq<Event>)
    requires |s.messages| >= 1
    ensures |Run(s, events).messages| >= 1
    decreases |events|
  {
    if events != [] {
      RunKeepsStoreNonEmpty(Step(s, events[0]), events[1..]);
    }
  }

  /** Only assistant entries ever carry `links`. */
  predicate LinksOnlyOnAssistant(s: Session) {
    forall i | 0 <= i < |s.messages| :: s.messages[i].links.Some? ==> s.messages[i].role == Assistant
  }

  lemma {:induction false} RunKeepsLinksOnlyOnAssistant(s: Session, events: seq<Event>)
    requires LinksOnlyOnAssistant(s)
    ensures LinksOnlyOnAssistant(Run(s, events))
    decreases |events|
  {
    if events != [] {
      var s' := Step(s, events[0]);
      assert LinksOnlyOnAssistant(s');
      RunKeepsLinksOnlyOnAssistant(s', events[1..]);
    }
  }

  /** Every session reachable from mount has a non-empty store in which only
      assistant entries carry links, so no user entry ever shows an anchor. */
  lemma ReachableInvariants(now: int, events: seq<Event>)
    ensures |Run(Init(now), events).messages| >= 1
    ensures LinksOnlyOnAssistant(Run(Init(now), events))
    ensures forall m | m in Run(Init(now), events).messages :: m.role == User ==> m.links.None?
  {
    RunKeepsStoreNonEmpty(Init(now), events);
    RunKeepsLinksOnlyOnAssistant(Init(now), events);
    var r := Run(Init(now), events);
    forall m | m in r.messages
      ensures m.role == User ==> m.links.None?
    {
      var i :| 0 <= i < |r.messages| && r.messages[i] == m;
    }
  }

  /** One user turn submitted with a canned or typed query, and what its call settles with. */
  datatype Turn = Turn(query: string, outcome: Result<SearchResult, Service.ServiceError>, sentAt: int, settledAt: int)

  function PlayTurns(s: Session, turns: seq<Turn>): Session
    decreases |turns|
  {
    if turns == [] then s
    else
      var t := turns[0];
      PlayTurns(Complete(Submit(s, Some(t.query), t.sentAt).session, t.outcome, t.settledAt), turns[1..])
  }

  /** Starting idle, n non-blank turns grow the store by exactly 2n entries
      (never by one or three per turn), keep every earlier entry, and end idle. */
  lemma {:induction false} TurnsGrowByTwo(s: Session, turns: seq<Turn>)
    requires !s.isLoading
    requires forall i | 0 <= i < |turns| :: !Blank(turns[i].query)
    ensures |PlayTurns(s, turns).messages| == |s.messages| + 2 * |turns|
    ensures s.messages <= PlayTurns(s, turns).messages
    ensures !PlayTurns(s, turns).isLoading
    decreases |turns|
  {
    if turns != [] {
      var t := turns[0];
      assert Submit(s, Some(t.query), t.sentAt).dispatch.Some?;
      CycleAppendsTwo(s, Some(t.query), t.outcome, t.sentAt, t.settledAt);
      var s' := Complete(Submit(s, Some(t.query), t.sentAt).session, t.outcome, t.settledAt);
      assert s.messages <= s'.messages;
      TurnsGrowByTwo(s', turns[1..]);
    }
  }

  /** A full turn against the dispatcher: submit, send the built request, complete
      with what the dispatcher returns. */
  function ServiceTurn(s: Session, queryText: Option<string>, send: Service.Request -> Service.CallOutcome,
                       t1: int, t2: int): Session
  {
    var sub := Submit(s, queryText, t1);
    match sub.dispatch
    case None => sub.session
    case Some(d) => Complete(sub.session, Service.SearchCampus(d.query, d.location, send), t2)
  }

  /** The reply of an accepted turn, as stored and as displayed: the request sent
      carries the chosen text and the position held at submission; a response gives
      a non-empty text and the unfiltered chunk list, of which only the map-bearing
      chunks are shown; a rejection gives the apology and shows no anchors. */
  lemma ServiceTurnReply(s: Session, queryText: Option<string>, send: Service.Request -> Service.CallOutcome,
                         t1: int, t2: int)
    requires !s.isLoading && !Blank(ChosenText(queryText, s.input))
    ensures var req := Service.BuildRequest(ChosenText(queryText, s.input), s.userLocation);
      var r := ServiceTurn(s, queryText, send, t1, t2);
      var reply := r.messages[|s.messages| + 1];
      && |r.messages| == |s.messages| + 2
      && (send(req).Responded? ==>
            && reply.content == Service.Normalize(send(req).response).text
            && reply.content != []
            && reply.links == Some(Service.Normalize(send(req).response).groundingLinks)
            && Render.RenderedLinks(reply) == Render.Project(Service.Normalize(send(req).response).groundingLinks))
      && (send(req).Rejected? ==>
            reply.content == ApologyText && Render.RenderedLinks(reply) == [])
  { }

  /** Stubbed success: one question on a fresh session yields three entries, the
      third with the stubbed text and its one link, shown as one anchor. */
  lemma ScenarioStubbedSuccess(t0: int, t1: int, t2: int)
    ensures var place := MapsPlace("https://maps.example/c", "Block C Cafeteria");
      var res := SearchResult("It's near Block C.", [GroundingChunk(Some(place))]);
      var r := Complete(Submit(Init(t0), Some("Where is the nearest cafeteria?"), t1).session, Success(res), t2);
      && |r.messages| == 3
      && r.messages[2].content == "It's near Block C."
      && r.messages[2].links == Some([GroundingChunk(Some(place))])
      && Render.RenderedLinks(r.messages[2]) == [Render.RenderedLink("https://maps.example/c", "Block C Cafeteria")]
  {
    assert !IsWhitespace("Where is the nearest cafeteria?"[0]);
  }

  /** Stubbed failure: the third entry is the apology, with no links. */
  lemma ScenarioStubbedFailure(t0: int, t1: int, t2: int)
    ensures var r := Complete(Submit(Init(t0), Some("Where is the nearest cafeteria?"), t1).session,
                              Failure(Service.ServiceError(Service.FetchFailedMessage)), t2);
      && |r.messages| == 3
      && r.messages[2].content == ApologyText
      && r.messages[2].links.None?
  {
    assert !IsWhitespace("Where is the nearest cafeteria?"[0]);
  }
}
