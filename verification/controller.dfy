/** The conversation controller of App.tsx. The session state is the four pieces
    of component state; the asynchronous `handleSend` is split at its one `await`
    into `Submit` (guard, user entry, busy flag, dispatch) and `Complete` (the
    assistant entry for the settled call, busy flag cleared). Every `Date.now()`
    reading is the parameter `now`. */
module Controller {
  import opened Wrappers
  import opened Types
  import opened Whitespace
  import Service

  const WelcomeText := "Hello! I am your Presidency University Navigator. How can I help you find your way around campus today?"

  /** The welcome text of a store started afresh with "NEW TRIP". */
  const NewTripText := "Hello! How can I help you find your way around today?"

  /** The assistant reply appended when the dispatcher fails. */
  const ApologyText := "I'm sorry, I'm having trouble connecting to the campus map right now. Please try again in a moment."

  /** `messages`, `input`, `isLoading` and `userLocation`. */
  datatype Session = Session(
    messages: seq<ChatMessage>,
    input: string,
    isLoading: bool,
    userLocation: Option<Location>)

  /** The call `searchCampus(query, location)` an accepted submission starts. */
  datatype Dispatch = Dispatch(query: string, location: Option<Location>)

  /** The session after a submission, and the call it started, if any. */
  datatype Submitted = Submitted(session: Session, dispatch: Option<Dispatch>)

  /** The state on mount: one welcome entry, empty input, idle, no position. */
  function Init(now: int): (s: Session)
    ensures |s.messages| == 1
    ensures s.messages[0].id == WelcomeId && s.messages[0].role == Assistant
    ensures s.messages[0].content == WelcomeText && s.messages[0].links.None?
    ensures s.input == [] && !s.isLoading && s.userLocation.None?
  {
    Session([ChatMessage(WelcomeId, Assistant, WelcomeText, None, now)], "", false, None)
  }

  /** `queryText || input`: a non-empty argument wins, otherwise the input box. */
  function ChosenText(queryText: Option<string>, input: string): (t: string)
    ensures queryText.Some? && queryText.value != [] ==> t == queryText.value
    ensures queryText.None? || queryText.value == [] ==> t == input
  {
    match queryText
    case Some(q) => if q != [] then q else input
    case None => input
  }

  /** The user entry for an accepted submission: the chosen text, untrimmed. */
  function UserEntry(text: string, now: int): ChatMessage {
    ChatMessage(ClockId(now), User, text, None, now)
  }

  /** First half of `handleSend`. A blank chosen text or a busy session is a no-op
      that starts no call. Otherwise exactly one user entry holding the untrimmed
      chosen text is appended, the input is cleared, the session becomes busy, and
      one call is started with that text and the position known now. */
  function Submit(s: Session, queryText: Option<string>, now: int): (r: Submitted)
    ensures r.dispatch.None? <==> Blank(ChosenText(queryText, s.input)) || s.isLoading
    ensures r.dispatch.None? ==> r.session == s
    ensures r.dispatch.Some? ==>
      && r.session.messages == s.messages + [UserEntry(ChosenText(queryText, s.input), now)]
      && r.session.input == []
      && r.session.isLoading
      && r.session.userLocation == s.userLocation
      && r.dispatch.value == Dispatch(ChosenText(queryText, s.input), s.userLocation)
  {
    var text := ChosenText(queryText, s.input);
    TrimEmptyIffBlank(text);
    if Trim(text) == [] || s.isLoading then
      Submitted(s, None)
    else
      Submitted(s.(messages := s.messages + [UserEntry(text, now)], input := "", isLoading := true),
                Some(Dispatch(text, s.userLocation)))
  }

  /** The assistant entry for a settled call: the answer with its chunks, or the
      fixed apology without links. */
  function ReplyEntry(outcome: Result<SearchResult, Service.ServiceError>, now: int): ChatMessage {
    match outcome
    case Success(res) => ChatMessage(ClockId(now + 1), Assistant, res.text, Some(res.groundingLinks), now)
    case Failure(_) => ChatMessage(ClockId(now + 1), Assistant, ApologyText, None, now)
  }

  /** Second half of `handleSend`: exactly one assistant entry is appended to the
      current store, earlier entries untouched; on success it carries the result's
      text and chunk list, on failure the fixed apology and no links; either way
      the session is idle afterwards. */
  function Complete(s: Session, outcome: Result<SearchResult, Service.ServiceError>, now: int): (r: Session)
    ensures |r.messages| == |s.messages| + 1
    ensures r.messages[..|s.messages|] == s.messages
    ensures r.messages[|s.messages|].role == Assistant
    ensures outcome.Success? ==>
      && r.messages[|s.messages|].content == outcome.value.text
      && r.messages[|s.messages|].links == Some(outcome.value.groundingLinks)
    ensures outcome.Failure? ==>
      r.messages[|s.messages|].content == ApologyText && r.messages[|s.messages|].links.None?
    ensures !r.isLoading
    ensures r.input == s.input && r.userLocation == s.userLocation
  {
    var m := ReplyEntry(outcome, now);
    var msgs := s.messages + [m];
    assert msgs[..|s.messages|] == s.messages;
    s.(messages := msgs, isLoading := false)
  }

  /** "NEW TRIP": whatever the store held, it becomes the single fresh welcome
      entry. The busy flag is not consulted and not changed. */
  function NewTrip(s: Session, now: int): (r: Session)
    ensures |r.messages| == 1
    ensures r.messages[0].id == WelcomeId && r.messages[0].role == Assistant
    ensures r.messages[0].content == NewTripText && r.messages[0].links.None?
    ensures r.input == s.input && r.isLoading == s.isLoading && r.userLocation == s.userLocation
  {
    s.(messages := [ChatMessage(WelcomeId, Assistant, NewTripText, None, now)])
  }

  /** A position fix replaces the held location outright; nothing else changes. */
  function Locate(s: Session, loc: Location): (r: Session)
    ensures r.userLocation == Some(loc)
    ensures r.messages == s.messages && r.input == s.input && r.isLoading == s.isLoading
  {
    s.(userLocation := Some(loc))
  }

  /** Typing into the input box replaces its text; nothing else changes. */
  function EditInput(s: Session, text: string): (r: Session)
    ensures r.input == text
    ensures r.messages == s.messages && r.isLoading == s.isLoading && r.userLocation == s.userLocation
  {
    s.(input := text)
  }

  /** The send button's `disabled` condition, negated. */
  predicate SendEnabled(s: Session) {
    !(Trim(s.input) == [] || s.isLoading)
  }

  /** The send button is enabled exactly when a submission from the input box
      (Enter or the button, which pass no argument) would be accepted. */
  lemma SendEnabledIffAccepted(s: Session, now: int)
    ensures SendEnabled(s) <==> Submit(s, None, now).dispatch.Some?
  {
    TrimEmptyIffBlank(s.input);
  }

  /** A busy session ignores every submission, whatever the text. */
  lemma BusyBlocksSubmit(s: Session, queryText: Option<string>, now: int)
    requires s.isLoading
    ensures Submit(s, queryText, now) == Submitted(s, None)
  { }

  /** After an accepted submission, a second one before completion is a no-op. */
  lemma NoSecondDispatchInFlight(s: Session, q1: Option<string>, q2: Option<string>, t1: int, t2: int)
    requires !s.isLoading && !Blank(ChosenText(q1, s.input))
    ensures Submit(Submit(s, q1, t1).session, q2, t2).dispatch.None?
    ensures Submit(Submit(s, q1, t1).session, q2, t2).session == Submit(s, q1, t1).session
  { }

  /** A full cycle: an accepted submission followed by its completion grows the
      store by exactly two entries, a user entry then an assistant entry, keeps
      every earlier entry, and leaves the session idle with an empty input. */
  lemma CycleAppendsTwo(s: Session, queryText: Option<string>,
                        outcome: Result<SearchResult, Service.ServiceError>, t1: int, t2: int)
    requires !s.isLoading && !Blank(ChosenText(queryText, s.input))
    ensures var r := Complete(Submit(s, queryText, t1).session, outcome, t2);
      && |r.messages| == |s.messages| + 2
      && r.messages[..|s.messages|] == s.messages
      && r.messages[|s.messages|] == UserEntry(ChosenText(queryText, s.input), t1)
      && r.messages[|s.messages| + 1].role == Assistant
      && !r.isLoading && r.input == []
  { }

  /** A reset while a call is in flight does not stop it: the reply lands after
      the fresh welcome entry. */
  lemma CompleteAfterNewTrip(s: Session, queryText: Option<string>,
                             outcome: Result<SearchResult, Service.ServiceError>, t1: int, t2: int, t3: int)
    requires !s.isLoading && !Blank(ChosenText(queryText, s.input))
    ensures var r := Complete(NewTrip(Submit(s, queryText, t1).session, t2), outcome, t3);
      && |r.messages| == 2
      && r.messages[0].content == NewTripText
      && r.messages[1].role == Assistant
  { }
}
