/** The application shell: the transcript with its flags, one chat session
    per selected profile, and the transitions that change them — sending a
    message, receiving a stream chunk, a stream failure, the end of a send,
    switching profile and starting a new chat.

    React state updates are modelled as pure functions on a state record;
    the asynchronous send becomes a sequence of steps, and a `World` with
    several sends in progress lets other events interleave with them. */
module App {
  import opened Wrappers
  import opened Strings
  import opened Types
  import opened Gemini
  import ChatMessage

  /** The fixed text that replaces a reply whose stream failed. */
  const Apology: string := "I'm having trouble connecting to my knowledge base right now. Please try again."

  /** The component's state. `nextId` stands for the UUID generator (every
      id it hands out is new) and `nextSerial` counts the chat sessions
      created so far. */
  datatype AppState = AppState(
    messages: seq<Message>,
    hasStarted: bool,
    isLoading: bool,
    chatSession: Option<Chat>,
    modelType: ModelType,
    nextId: MessageId,
    nextSerial: nat)

  /** State on first render, before the session effect has run. */
  function Initial(): AppState {
    AppState([], false, false, None, Tutor, 0, 0)
  }

  /** The session effect: a new chat session for the selected profile
      replaces the current one. */
  function WithNewSession(s: AppState): AppState {
    s.(chatSession := Some(CreateChatSession(Some(s.modelType), s.nextSerial)),
       nextSerial := s.nextSerial + 1)
  }

  /** The state after mount: the session effect has run once. */
  function Mounted(): AppState {
    WithNewSession(Initial())
  }

  /** `handleModelChange` followed by the session effect it triggers through
      its dependency on `modelType`. */
  function HandleModelChange(s: AppState, newModel: ModelType): AppState {
    if s.modelType == newModel then s
    else WithNewSession(s.(modelType := newModel, messages := [], hasStarted := false))
  }

  /** A new chat: transcript emptied, welcome screen back, and a new
      session for the same profile. */
  function HandleReset(s: AppState): AppState {
    WithNewSession(s.(messages := [], hasStarted := false))
  }

  // ---------------------------------------------------------------------
  // transcript
  // ---------------------------------------------------------------------

  /** A message with its text replaced and its thinking indicator off. */
  function Patched(m: Message, text: string): Message {
    m.(text := text, isThinking := Some(false))
  }

  /** The transcript update a send applies to its placeholder: same length
      and order, same ids and roles; entries with the id get the text and
      stop thinking, every other entry is left as it was. */
  function UpdateById(msgs: seq<Message>, id: MessageId, text: string): (r: seq<Message>)
    ensures |r| == |msgs|
    ensures forall i :: 0 <= i < |msgs| ==> r[i].id == msgs[i].id && r[i].role == msgs[i].role
    ensures forall i :: 0 <= i < |msgs| && msgs[i].id != id ==> r[i] == msgs[i]
    ensures forall i :: 0 <= i < |msgs| && msgs[i].id == id ==>
      r[i].text == text && r[i].isThinking == Some(false)
  {
    if msgs == [] then []
    else [if msgs[0].id == id then Patched(msgs[0], text) else msgs[0]] + UpdateById(msgs[1..], id, text)
  }

  predicate HasId(msgs: seq<Message>, id: MessageId) {
    exists i :: 0 <= i < |msgs| && msgs[i].id == id
  }

  /** An id that is not in the list leaves the list as it is. */
  lemma UpdateAbsentIsIdentity(msgs: seq<Message>, id: MessageId, text: string)
    requires !HasId(msgs, id)
    ensures UpdateById(msgs, id, text) == msgs
  {
    var r := UpdateById(msgs, id, text);
    assert forall i :: 0 <= i < |msgs| ==> r[i] == msgs[i];
  }

  /** A second update of the same id overrides the first. */
  lemma UpdateOverrides(msgs: seq<Message>, id: MessageId, first: string, second: string)
    ensures UpdateById(UpdateById(msgs, id, first), id, second) == UpdateById(msgs, id, second)
  {
    var a := UpdateById(UpdateById(msgs, id, first), id, second);
    var b := UpdateById(msgs, id, second);
    forall i | 0 <= i < |msgs|
      ensures a[i] == b[i]
    {
    }
  }

  /** Updating a concatenation updates each part. */
  lemma UpdateDistributes(xs: seq<Message>, ys: seq<Message>, id: MessageId, text: string)
    ensures UpdateById(xs + ys, id, text) == UpdateById(xs, id, text) + UpdateById(ys, id, text)
  {
    var a := UpdateById(xs + ys, id, text);
    var b := UpdateById(xs, id, text) + UpdateById(ys, id, text);
    forall i | 0 <= i < |xs + ys|
      ensures a[i] == b[i]
    {
      if i >= |xs| {
        assert (xs + ys)[i] == ys[i - |xs|];
      }
    }
  }

  predicate IdsBelow(msgs: seq<Message>, bound: MessageId) {
    forall i :: 0 <= i < |msgs| ==> msgs[i].id < bound
  }

  predicate IdsFrom(msgs: seq<Message>, bound: MessageId) {
    forall i :: 0 <= i < |msgs| ==> bound <= msgs[i].id
  }

  predicate IdsIncreasing(msgs: seq<Message>) {
    forall i, j :: 0 <= i < j < |msgs| ==> msgs[i].id < msgs[j].id
  }

  // ---------------------------------------------------------------------
  // one send
  // ---------------------------------------------------------------------

  /** A send in progress, as seen by its handler: the placeholder it owns,
      the reply text accumulated so far (`fullText`) and the request it
      made. */
  datatype Flight = Flight(placeholderId: MessageId, fullText: string, request: Request)

  function UserEntry(id: MessageId, text: string): Message {
    Message(id, User, text, None)
  }

  /** The empty model entry a send appends; it shows the thinking indicator
      under the deep profile only. */
  function Placeholder(id: MessageId, modelType: ModelType): Message {
    Message(id, Model, "", Some(modelType == Tutor))
  }

  /** The synchronous start of `handleSendMessage`: without a session nothing
      happens; otherwise the flags go up, a user entry and a placeholder are
      appended and the text is sent on the session. */
  function BeginSend(s: AppState, text: string): (AppState, Option<Flight>) {
    match s.chatSession
    case None => (s, None)
    case Some(chat) =>
      var userId := s.nextId;
      var modelId := s.nextId + 1;
      var started := s.(hasStarted := true, isLoading := true,
                        messages := s.messages + [UserEntry(userId, text), Placeholder(modelId, s.modelType)],
                        nextId := s.nextId + 2);
      (started, Some(Flight(modelId, "", SendMessageStream(chat, text))))
  }

  /** The chunk's text is present and non-empty. */
  predicate CarriesText(c: Chunk) {
    c.text.Some? && c.text.value != ""
  }

  /** What a chunk adds to the reply. */
  function Delta(c: Chunk): string {
    if CarriesText(c) then c.text.value else ""
  }

  /** One step of the loop over the stream: a chunk with text extends the
      buffer and rewrites the placeholder, any other chunk is skipped. */
  function OnChunk(s: AppState, f: Flight, c: Chunk): (AppState, Flight) {
    if CarriesText(c) then
      var fullText := f.fullText + c.text.value;
      (s.(messages := UpdateById(s.messages, f.placeholderId, fullText)), f.(fullText := fullText))
    else
      (s, f)
  }

  /** The error path: the placeholder is rewritten to the apology. */
  function OnError(s: AppState, f: Flight): AppState {
    s.(messages := UpdateById(s.messages, f.placeholderId, Apology))
  }

  /** The clean-up that runs however the send ended: loading is over. */
  function OnSettled(s: AppState): AppState {
    s.(isLoading := false)
  }

  /** The loop run over the chunks delivered so far. */
  function Deliver(s: AppState, f: Flight, cs: seq<Chunk>): (AppState, Flight)
    decreases |cs|
  {
    if cs == [] then (s, f)
    else
      var (s', f') := Deliver(s, f, cs[..|cs| - 1]);
      OnChunk(s', f', cs[|cs| - 1])
  }

  /** The concatenation of the non-empty chunk texts. */
  function Accumulated(cs: seq<Chunk>): string
    decreases |cs|
  {
    if cs == [] then "" else Accumulated(cs[..|cs| - 1]) + Delta(cs[|cs| - 1])
  }

  /** Some chunk carries text. */
  predicate HasText(cs: seq<Chunk>) {
    exists i :: 0 <= i < |cs| && CarriesText(cs[i])
  }

  /** The whole of `handleSendMessage` when nothing else happens meanwhile:
      start, the chunks of the stream, the apology if it raised, and the
      `finally`. */
  function HandleSendMessage(s: AppState, text: string, stream: Stream): AppState {
    var (started, flight) := BeginSend(s, text);
    match flight
    case None => started
    case Some(f) =>
      var (received, f') := Deliver(started, f, stream.chunks);
      OnSettled(if stream.ending == Raised then OnError(received, f') else received)
  }

  /** The accumulated text is empty exactly when no chunk carried text. */
  lemma {:induction false} AccumulatedEmptyIffSilent(cs: seq<Chunk>)
    ensures Accumulated(cs) == "" <==> !HasText(cs)
    decreases |cs|
  {
    if cs != [] {
      var init := cs[..|cs| - 1];
      AccumulatedEmptyIffSilent(init);
      assert forall i :: 0 <= i < |init| ==> init[i] == cs[i];
      if HasText(init) {
        var i :| 0 <= i < |init| && CarriesText(init[i]);
        assert CarriesText(cs[i]);
      }
    }
  }

  /** After any prefix of the stream the handler's buffer holds the
      concatenation of the non-empty chunk texts; the placeholder holds the
      same text and has stopped thinking once some chunk carried text, and
      nothing else in the state has changed. Chunks without text change
      nothing. */
  lemma {:induction false} DeliverEffect(s: AppState, f: Flight, cs: seq<Chunk>)
    ensures Deliver(s, f, cs).1 == f.(fullText := f.fullText + Accumulated(cs))
    ensures Deliver(s, f, cs).0 ==
      if HasText(cs) then s.(messages := UpdateById(s.messages, f.placeholderId, f.fullText + Accumulated(cs)))
      else s
    decreases |cs|
  {
    if cs == [] {
      assert f.fullText + "" == f.fullText;
    } else {
      var init := cs[..|cs| - 1];
      var last := cs[|cs| - 1];
      DeliverEffect(s, f, init);
      assert forall i :: 0 <= i < |init| ==> init[i] == cs[i];
      assert HasText(cs) <==> HasText(init) || CarriesText(last) by {
        if HasText(cs) && !CarriesText(last) {
          var i :| 0 <= i < |cs| && CarriesText(cs[i]);
          assert i < |init| && CarriesText(init[i]);
        }
        if CarriesText(last) {
          assert CarriesText(cs[|cs| - 1]);
        }
      }
      if CarriesText(last) {
        assert f.fullText + Accumulated(cs) == f.fullText + Accumulated(init) + last.text.value;
        if HasText(init) {
          UpdateOverrides(s.messages, f.placeholderId, f.fullText + Accumulated(init), f.fullText + Accumulated(cs));
        }
      } else {
        assert Accumulated(cs) == Accumulated(init) + "";
      }
    }
  }

  /** Start of a send: without a session the state is left exactly as it
      was and nothing is sent; otherwise `hasStarted` and `isLoading` are
      set and exactly two entries are appended in order — a user entry with
      the given text and an empty model placeholder that is thinking exactly
      under the deep profile — under two new ids, and the given text goes
      unchanged to the current session. */
  lemma SendStarts(s: AppState, text: string)
    requires IdsBelow(s.messages, s.nextId)
    ensures s.chatSession.None? ==> BeginSend(s, text) == (s, None)
    ensures s.chatSession.Some? ==>
      var (r, f) := BeginSend(s, text);
      && r.hasStarted && r.isLoading
      && r.messages == s.messages + [UserEntry(s.nextId, text), Placeholder(s.nextId + 1, s.modelType)]
      && !HasId(s.messages, s.nextId) && !HasId(s.messages, s.nextId + 1)
      && IdsBelow(r.messages, r.nextId)
      && f.Some? && f.value.placeholderId == s.nextId + 1 && f.value.fullText == ""
      && f.value.request.chat == s.chatSession.value && f.value.request.message == text
      && r.chatSession == s.chatSession && r.modelType == s.modelType
  {
  }

  /** Updating the placeholder of a freshly started send touches nothing but
      the placeholder. */
  lemma UpdateFreshPlaceholder(s: AppState, text: string, reply: string)
    requires IdsBelow(s.messages, s.nextId)
    ensures UpdateById(s.messages + [UserEntry(s.nextId, text), Placeholder(s.nextId + 1, s.modelType)], s.nextId + 1, reply)
      == s.messages + [UserEntry(s.nextId, text), Patched(Placeholder(s.nextId + 1, s.modelType), reply)]
  {
    var tail := [UserEntry(s.nextId, text), Placeholder(s.nextId + 1, s.modelType)];
    UpdateDistributes(s.messages, tail, s.nextId + 1, reply);
    UpdateAbsentIsIdentity(s.messages, s.nextId + 1, reply);
    var t := UpdateById(tail, s.nextId + 1, reply);
    assert t[0] == tail[0];
  }

  /** Sending with no session leaves every part of the state unchanged. */
  lemma SendWithoutSessionIsNoop(s: AppState, text: string, stream: Stream)
    requires s.chatSession.None?
    ensures HandleSendMessage(s, text, stream) == s
  {
  }

  /** A send whose stream closes cleanly leaves the transcript extended by
      the user entry and a reply holding the concatenation of all non-empty
      chunk texts; the reply has stopped thinking if some chunk carried
      text and otherwise keeps its initial flag (empty text, still thinking
      under the deep profile). `isLoading` is down again. */
  lemma SendCompletes(s: AppState, text: string, cs: seq<Chunk>)
    requires s.chatSession.Some?
    requires IdsBelow(s.messages, s.nextId)
    ensures HandleSendMessage(s, text, Stream(cs, Closed)) ==
      s.(messages := s.messages + [UserEntry(s.nextId, text),
                                   Message(s.nextId + 1, Model, Accumulated(cs),
                                           if HasText(cs) then Some(false) else Some(s.modelType == Tutor))],
         hasStarted := true, isLoading := false, nextId := s.nextId + 2)
  {
    var (started, f) := BeginSend(s, text);
    FreshDelivery(s, text, cs);
    var (received, _) := Deliver(started, f.value, cs);
    assert HandleSendMessage(s, text, Stream(cs, Closed)) == OnSettled(received);
  }

  /** The chunks of a freshly started send turn its placeholder into the
      reply `SendCompletes` describes, and change nothing else. */
  lemma FreshDelivery(s: AppState, text: string, cs: seq<Chunk>)
    requires s.chatSession.Some?
    requires IdsBelow(s.messages, s.nextId)
    ensures var (started, f) := BeginSend(s, text);
      Deliver(started, f.value, cs).0 ==
        started.(messages := s.messages + [UserEntry(s.nextId, text),
                                           Message(s.nextId + 1, Model, Accumulated(cs),
                                                   if HasText(cs) then Some(false) else Some(s.modelType == Tutor))])
  {
    if HasText(cs) {
      SpokenDelivery(s, text, cs);
    } else {
      AccumulatedEmptyIffSilent(cs);
      SilentDelivery(s, text, cs);
    }
  }

  /** Chunks with some text patch the placeholder of a fresh send with their
      concatenation. */
  lemma SpokenDelivery(s: AppState, text: string, cs: seq<Chunk>)
    requires s.chatSession.Some? && HasText(cs)
    requires IdsBelow(s.messages, s.nextId)
    ensures var (started, f) := BeginSend(s, text);
      Deliver(started, f.value, cs).0 ==
        started.(messages := s.messages + [UserEntry(s.nextId, text), Message(s.nextId + 1, Model, Accumulated(cs), Some(false))])
  {
    var started := BeginSend(s, text).0;
    var flight := BeginSend(s, text).1.value;
    var reply := Accumulated(cs);
    assert flight.placeholderId == s.nextId + 1 && flight.fullText + reply == reply;
    var patched := UpdateById(started.messages, s.nextId + 1, reply);
    assert patched == s.messages + [UserEntry(s.nextId, text), Message(s.nextId + 1, Model, reply, Some(false))] by {
      UpdateFreshPlaceholder(s, text, reply);
    }
    DeliverEffect(started, flight, cs);
  }

  /** Chunks without text leave a fresh send exactly as it started. */
  lemma SilentDelivery(s: AppState, text: string, cs: seq<Chunk>)
    requires s.chatSession.Some? && !HasText(cs)
    ensures var (started, f) := BeginSend(s, text);
      Deliver(started, f.value, cs).0 == started
  {
    var (started, f) := BeginSend(s, text);
    DeliverEffect(started, f.value, cs);
  }

  /** A send whose stream raises — before the first chunk or after any
      number of them — leaves the reply holding the apology, not thinking,
      and `isLoading` down. */
  lemma SendFails(s: AppState, text: string, cs: seq<Chunk>)
    requires s.chatSession.Some?
    requires IdsBelow(s.messages, s.nextId)
    ensures HandleSendMessage(s, text, Stream(cs, Raised)) ==
      s.(messages := s.messages + [UserEntry(s.nextId, text), Message(s.nextId + 1, Model, Apology, Some(false))],
         hasStarted := true, isLoading := false, nextId := s.nextId + 2)
  {
    FailedDelivery(s, text, cs);
  }

  /** The apology overwrites whatever the chunks of a fresh send wrote into
      its placeholder, and nothing else. */
  lemma FailedDelivery(s: AppState, text: string, cs: seq<Chunk>)
    requires s.chatSession.Some?
    requires IdsBelow(s.messages, s.nextId)
    ensures var started := BeginSend(s, text).0;
      var (received, f') := Deliver(started, BeginSend(s, text).1.value, cs);
      OnError(received, f') ==
        started.(messages := s.messages + [UserEntry(s.nextId, text), Message(s.nextId + 1, Model, Apology, Some(false))])
  {
    var started := BeginSend(s, text).0;
    var flight := BeginSend(s, text).1.value;
    assert flight.placeholderId == s.nextId + 1;
    var received := Deliver(started, flight, cs).0;
    var patched := UpdateById(started.messages, s.nextId + 1, Apology);
    assert patched == s.messages + [UserEntry(s.nextId, text), Message(s.nextId + 1, Model, Apology, Some(false))] by {
      UpdateFreshPlaceholder(s, text, Apology);
    }
    assert UpdateById(received.messages, s.nextId + 1, Apology) == patched by {
      DeliverEffect(started, flight, cs);
      if HasText(cs) {
        UpdateOverrides(started.messages, s.nextId + 1, "" + Accumulated(cs), Apology);
      }
    }
    var f' := Deliver(started, flight, cs).1;
    assert f'.placeholderId == s.nextId + 1 && received == started.(messages := received.messages) by {
      DeliverEffect(started, flight, cs);
    }
  }

  /** End to end: when the finished reply is a trimmed answer, the
      delimiter and a payload that decodes to `chips`, the view shows the
      answer as text, no thinking indicator, and the chips exactly when
      there are some. */
  lemma FinishedReplyRendersAnswerAndChips(
    s: AppState, text: string, cs: seq<Chunk>,
    decode: ChatMessage.Decoder, answer: string, payload: string, chips: seq<string>)
    requires s.chatSession.Some?
    requires IdsBelow(s.messages, s.nextId)
    requires Accumulated(cs) == answer + ChatMessage.Delimiter + payload
    requires IsTrimmed(answer) && !Contains(answer, ChatMessage.Delimiter)
    requires !Contains(payload, ChatMessage.Delimiter)
    requires decode(payload) == Some(chips)
    ensures var r := HandleSendMessage(s, text, Stream(cs, Closed));
      |r.messages| > 0 &&
      var reply := r.messages[|r.messages| - 1];
      && ChatMessage.ParseMessage(reply, decode) == ChatMessage.Parsed(answer, chips)
      && !IsThinking(reply)
      && (ChatMessage.ShowsChips(reply, ChatMessage.ParseMessage(reply, decode)) <==> |chips| > 0)
  {
    SendCompletes(s, text, cs);
    AccumulatedEmptyIffSilent(cs);
    var r := HandleSendMessage(s, text, Stream(cs, Closed));
    var reply := r.messages[|r.messages| - 1];
    ChatMessage.ParseRoundTrip(reply, decode, answer, payload, chips);
  }

  // ---------------------------------------------------------------------
  // switching profile, new chat
  // ---------------------------------------------------------------------

  /** The session belongs to the selected profile and was created last. */
  predicate SessionMatchesModel(s: AppState) {
    s.chatSession.Some? ==>
      s.chatSession.value.config == ChatConfigFor(Some(s.modelType)) && s.chatSession.value.serial < s.nextSerial
  }

  /** Choosing the current profile changes nothing. Choosing the other one
      selects it, empties the transcript, returns to the welcome screen and
      replaces the session by a new one configured for it. */
  lemma ModelChangeResets(s: AppState, newModel: ModelType)
    requires SessionMatchesModel(s)
    ensures newModel == s.modelType ==> HandleModelChange(s, newModel) == s
    ensures newModel != s.modelType ==>
      var r := HandleModelChange(s, newModel);
      && r.modelType == newModel && r.messages == [] && !r.hasStarted
      && r.chatSession.Some? && r.chatSession != s.chatSession
      && r.chatSession.value.config == ChatConfigFor(Some(newModel))
      && r.chatSession.value.config != ChatConfigFor(Some(s.modelType))
      && r.isLoading == s.isLoading && r.nextId == s.nextId
  {
    if newModel != s.modelType {
      ConfigIdentifiesProfile(Some(newModel), Some(s.modelType));
    }
  }

  /** A new chat empties the transcript, returns to the welcome screen and
      replaces the session by a new one for the same profile. */
  lemma ResetClears(s: AppState)
    requires SessionMatchesModel(s)
    ensures var r := HandleReset(s);
      && r.messages == [] && !r.hasStarted && r.modelType == s.modelType
      && r.chatSession.Some? && r.chatSession != s.chatSession
      && r.chatSession.value.config == ChatConfigFor(Some(s.modelType))
      && r.isLoading == s.isLoading && r.nextId == s.nextId
  {
  }

  // ---------------------------------------------------------------------
  // interleaved sends
  // ---------------------------------------------------------------------

  /** A send's handler and whether its stream is still being consumed. */
  datatype Run = Run(flight: Flight, active: bool)

  /** The component together with every send started so far. */
  datatype World = World(app: AppState, runs: seq<Run>)

  /** Everything that can happen: user actions, and the stream of run
      `run` delivering a chunk, raising, or closing. */
  datatype Event =
    | ChangeModel(model: ModelType)
    | NewChat
    | Send(text: string)
    | Receive(run: nat, chunk: Chunk)
    | Fail(run: nat)
    | Finish(run: nat)

  function StartWorld(): World {
    World(Mounted(), [])
  }

  function Step(w: World, e: Event): World {
    match e
    case ChangeModel(m) => w.(app := HandleModelChange(w.app, m))
    case NewChat => w.(app := HandleReset(w.app))
    case Send(text) =>
      var (a, f) := BeginSend(w.app, text);
      if f.Some? then World(a, w.runs + [Run(f.value, true)]) else w.(app := a)
    case Receive(k, c) =>
      if k < |w.runs| && w.runs[k].active then
        var (a, f) := OnChunk(w.app, w.runs[k].flight, c);
        World(a, w.runs[k := Run(f, true)])
      else w
    case Fail(k) =>
      if k < |w.runs| && w.runs[k].active then
        World(OnSettled(OnError(w.app, w.runs[k].flight)), w.runs[k := w.runs[k].(active := false)])
      else w
    case Finish(k) =>
      if k < |w.runs| && w.runs[k].active then
        World(OnSettled(w.app), w.runs[k := w.runs[k].(active := false)])
      else w
  }

  function RunEvents(w: World, es: seq<Event>): World
    decreases |es|
  {
    if es == [] then w else RunEvents(Step(w, es[0]), es[1..])
  }

  /** The events of one send made as run `k` with nothing interleaved: the
      send, one delivery per chunk, then the close or the error. */
  function SendEvents(k: nat, text: string, stream: Stream): seq<Event> {
    [Send(text)] + Receives(k, stream.chunks)
      + [if stream.ending == Closed then Finish(k) else Fail(k)]
  }

  /** One delivery event per chunk, in order, all for run `k`. */
  function Receives(k: nat, cs: seq<Chunk>): seq<Event>
    decreases |cs|
  {
    if cs == [] then [] else Receives(k, cs[..|cs| - 1]) + [Receive(k, cs[|cs| - 1])]
  }

  /** Running two event sequences one after the other is running their
      concatenation. */
  lemma {:induction false} RunEventsAppend(w: World, a: seq<Event>, b: seq<Event>)
    ensures RunEvents(w, a + b) == RunEvents(RunEvents(w, a), b)
    decreases |a|
  {
    if a == [] {
      assert a + b == b;
    } else {
      assert (a + b)[0] == a[0];
      assert (a + b)[1..] == a[1..] + b;
      RunEventsAppend(Step(w, a[0]), a[1..], b);
    }
  }

  /** Delivering chunks to an active run through the event model is the
      handler's loop over those chunks: the app state and the run's buffer
      are what the loop leaves, and the run stays active. */
  lemma {:induction false} ReceivesDeliver(w: World, k: nat, cs: seq<Chunk>)
    requires k < |w.runs| && w.runs[k].active
    ensures var (a, f) := Deliver(w.app, w.runs[k].flight, cs);
      RunEvents(w, Receives(k, cs)) == World(a, w.runs[k := Run(f, true)])
    decreases |cs|
  {
    if cs == [] {
      assert w.runs[k := Run(w.runs[k].flight, true)] == w.runs;
    } else {
      var init := cs[..|cs| - 1];
      ReceivesDeliver(w, k, init);
      RunEventsAppend(w, Receives(k, init), [Receive(k, cs[|cs| - 1])]);
      var mid := RunEvents(w, Receives(k, init));
      assert RunEvents(mid, [Receive(k, cs[|cs| - 1])]) == Step(mid, Receive(k, cs[|cs| - 1]));
    }
  }

  /** The interleaving model agrees with the single-send model: a send made
      as a new run, followed by its chunks and its ending with nothing in
      between, leaves the app state `HandleSendMessage` describes. So
      `SendCompletes` and `SendFails` also hold of runs in a `World`. */
  lemma SendEventsAgree(w: World, text: string, stream: Stream)
    requires w.app.chatSession.Some?
    ensures RunEvents(w, SendEvents(|w.runs|, text, stream)).app == HandleSendMessage(w.app, text, stream)
  {
    var k := |w.runs|;
    var last: Event := if stream.ending == Closed then Finish(k) else Fail(k);
    var rs := Receives(k, stream.chunks);
    RunEventsAppend(w, [Send(text)] + rs, [last]);
    RunEventsAppend(w, [Send(text)], rs);
    var (started, f) := BeginSend(w.app, text);
    var w1 := World(started, w.runs + [Run(f.value, true)]);
    assert RunEvents(w, [Send(text)]) == w1 by {
      assert Step(w, Send(text)) == w1;
    }
    ReceivesDeliver(w1, k, stream.chunks);
    var (received, f') := Deliver(started, f.value, stream.chunks);
    var w2 := World(received, w1.runs[k := Run(f', true)]);
    assert RunEvents(w1, rs) == w2;
    assert RunEvents(w2, [last]) == Step(w2, last);
    assert w2.runs[k] == Run(f', true);
    EndingStep(w2, k, stream.ending);
  }

  /** The close or the error of an active run is the handler's error path
      (for an error) followed by its clean-up. */
  lemma EndingStep(x: World, k: nat, ending: Ending)
    requires k < |x.runs| && x.runs[k].active
    ensures Step(x, if ending == Closed then Finish(k) else Fail(k)).app ==
      OnSettled(if ending == Raised then OnError(x.app, x.runs[k].flight) else x.app)
  {
  }

  /** What every reachable world satisfies: ids increase along the
      transcript and were all handed out already, every run's placeholder id
      was handed out, the session belongs to the selected profile, and a
      message shows the thinking indicator only while it is an empty model
      reply under the deep profile. */
  predicate Valid(w: World) {
    && IdsIncreasing(w.app.messages)
    && IdsBelow(w.app.messages, w.app.nextId)
    && (forall k :: 0 <= k < |w.runs| ==> w.runs[k].flight.placeholderId < w.app.nextId)
    && SessionMatchesModel(w.app)
    && (forall i :: 0 <= i < |w.app.messages| && IsThinking(w.app.messages[i]) ==>
          w.app.messages[i].role == Model && w.app.messages[i].text == "" && w.app.modelType == Tutor)
  }

  /** On mount the session effect has created a session for the default
      deep profile, with its reasoning budget, before anything is shown:
      the transcript is empty and nothing is loading. */
  lemma MountedSession()
    ensures var s := Mounted();
      && s.messages == [] && !s.hasStarted && !s.isLoading
      && s.modelType == DefaultModelType
      && s.chatSession.Some?
      && s.chatSession.value.config.model == Tutor.Id()
      && s.chatSession.value.config.thinkingConfig.thinkingBudget == TutorThinkingBudget
      && SessionMatchesModel(s)
  {
  }

  lemma StartWorldValid()
    ensures Valid(StartWorld())
  {
  }

  lemma StepKeepsValid(w: World, e: Event)
    requires Valid(w)
    ensures Valid(Step(w, e))
  {
    match e
    case ChangeModel(m) =>
    case NewChat =>
    case Send(text) => SendKeepsValid(w, text);
    case Receive(k, c) => ReceiveKeepsValid(w, k, c);
    case Fail(k) => FailKeepsValid(w, k);
    case Finish(k) =>
  }

  lemma SendKeepsValid(w: World, text: string)
    requires Valid(w)
    ensures Valid(Step(w, Send(text)))
  {
    SendStarts(w.app, text);
    var w' := Step(w, Send(text));
    if w.app.chatSession.Some? {
      var msgs := w'.app.messages;
      assert msgs == w.app.messages + [UserEntry(w.app.nextId, text), Placeholder(w.app.nextId + 1, w.app.modelType)];
      forall i | 0 <= i < |msgs| && IsThinking(msgs[i])
        ensures msgs[i].role == Model && msgs[i].text == "" && w'.app.modelType == Tutor
      {
        if i < |w.app.messages| {
          assert msgs[i] == w.app.messages[i];
        }
      }
    }
  }

  /** An update by id keeps the id-related parts of `Valid` and clears the
      thinking flag it touches. */
  lemma UpdateKeepsValid(w: World, id: MessageId, text: string, runs: seq<Run>)
    requires Valid(w)
    requires |runs| == |w.runs|
    requires forall k :: 0 <= k < |runs| ==> runs[k].flight.placeholderId == w.runs[k].flight.placeholderId
    ensures Valid(World(w.app.(messages := UpdateById(w.app.messages, id, text)), runs))
  {
    var msgs := UpdateById(w.app.messages, id, text);
    forall i | 0 <= i < |msgs| && IsThinking(msgs[i])
      ensures msgs[i] == w.app.messages[i]
    {
    }
  }

  lemma ReceiveKeepsValid(w: World, k: nat, c: Chunk)
    requires Valid(w)
    ensures Valid(Step(w, Receive(k, c)))
  {
    if k < |w.runs| && w.runs[k].active && CarriesText(c) {
      var f := w.runs[k].flight;
      var runs := w.runs[k := Run(f.(fullText := f.fullText + c.text.value), true)];
      UpdateKeepsValid(w, f.placeholderId, f.fullText + c.text.value, runs);
    }
  }

  lemma FailKeepsValid(w: World, k: nat)
    requires Valid(w)
    ensures Valid(Step(w, Fail(k)))
  {
    if k < |w.runs| && w.runs[k].active {
      var runs := w.runs[k := w.runs[k].(active := false)];
      UpdateKeepsValid(w, w.runs[k].flight.placeholderId, Apology, runs);
    }
  }

  lemma {:induction false} RunKeepsValid(w: World, es: seq<Event>)
    requires Valid(w)
    ensures Valid(RunEvents(w, es))
    decreases |es|
  {
    if es != [] {
      StepKeepsValid(w, es[0]);
      RunKeepsValid(Step(w, es[0]), es[1..]);
    }
  }

  /** In every reachable world, no message is thinking while the fast
      profile is selected, and a thinking message is an empty model reply. */
  lemma ThinkingOnlyWhileEmptyUnderTutor(es: seq<Event>)
    ensures var w := RunEvents(StartWorld(), es);
      forall i :: 0 <= i < |w.app.messages| && IsThinking(w.app.messages[i]) ==>
        && w.app.modelType == Tutor
        && w.app.messages[i].role == Model && w.app.messages[i].text == ""
  {
    StartWorldValid();
    RunKeepsValid(StartWorld(), es);
  }

  /** Ids in every reachable transcript are pairwise distinct. */
  lemma IdsNeverRepeat(es: seq<Event>)
    ensures var msgs := RunEvents(StartWorld(), es).app.messages;
      forall i, j :: 0 <= i < |msgs| && 0 <= j < |msgs| && i != j ==> msgs[i].id != msgs[j].id
  {
    StartWorldValid();
    RunKeepsValid(StartWorld(), es);
    var msgs := RunEvents(StartWorld(), es).app.messages;
    forall i, j | 0 <= i < |msgs| && 0 <= j < |msgs| && i != j
      ensures msgs[i].id != msgs[j].id
    {
      if i < j {
        assert msgs[i].id < msgs[j].id;
      } else {
        assert msgs[j].id < msgs[i].id;
      }
    }
  }

  /** The event is addressed to one of the first `n` runs. */
  predicate ForEarlierRun(e: Event, n: nat) {
    (e.Receive? || e.Fail? || e.Finish?) && e.run < n
  }

  /** The events left after dropping those addressed to the first `n` runs. */
  function DropEarlierRuns(es: seq<Event>, n: nat): (r: seq<Event>)
    ensures forall i :: 0 <= i < |r| ==> !ForEarlierRun(r[i], n)
    decreases |es|
  {
    if es == [] then []
    else if ForEarlierRun(es[0], n) then DropEarlierRuns(es[1..], n)
    else [es[0]] + DropEarlierRuns(es[1..], n)
  }

  /** The app state without the loading flag. */
  function Core(a: AppState): AppState {
    a.(isLoading := false)
  }

  /** `x` runs the events of the first `n` runs, `y` does not: both agree on
      everything but the loading flag and those runs, whose placeholders are
      older than every entry of the transcript. */
  predicate Shadows(x: World, y: World, n: nat, bound: MessageId) {
    && Core(x.app) == Core(y.app)
    && |x.runs| == |y.runs| && n <= |x.runs|
    && (forall k :: n <= k < |x.runs| ==> x.runs[k] == y.runs[k])
    && (forall k :: 0 <= k < n ==> x.runs[k].flight.placeholderId < bound)
    && IdsFrom(x.app.messages, bound) && bound <= x.app.nextId
  }

  lemma StepShadowsDropped(x: World, y: World, n: nat, bound: MessageId, e: Event)
    requires Shadows(x, y, n, bound)
    requires ForEarlierRun(e, n)
    ensures Shadows(Step(x, e), y, n, bound)
  {
    var k := e.run;
    if k < |x.runs| && x.runs[k].active {
      var id := x.runs[k].flight.placeholderId;
      assert !HasId(x.app.messages, id);
      if e.Receive? {
        UpdateAbsentIsIdentity(x.app.messages, id, x.runs[k].flight.fullText + e.chunk.text.GetOr(""));
      } else if e.Fail? {
        UpdateAbsentIsIdentity(x.app.messages, id, Apology);
      }
    }
  }

  lemma StepShadowsKept(x: World, y: World, n: nat, bound: MessageId, e: Event)
    requires Shadows(x, y, n, bound)
    requires !ForEarlierRun(e, n)
    ensures Shadows(Step(x, e), Step(y, e), n, bound)
  {
    match e
    case ChangeModel(m) =>
    case NewChat =>
    case Send(text) => SendShadows(x, y, n, bound, text);
    case Receive(k, c) => RunEventShadows(x, y, n, bound, e);
    case Fail(k) => RunEventShadows(x, y, n, bound, e);
    case Finish(k) => RunEventShadows(x, y, n, bound, e);
  }

  lemma SendShadows(x: World, y: World, n: nat, bound: MessageId, text: string)
    requires Shadows(x, y, n, bound)
    ensures Shadows(Step(x, Send(text)), Step(y, Send(text)), n, bound)
  {
    assert x.app.chatSession == y.app.chatSession;
    assert x.app.messages == y.app.messages && x.app.nextId == y.app.nextId;
  }

  lemma RunEventShadows(x: World, y: World, n: nat, bound: MessageId, e: Event)
    requires Shadows(x, y, n, bound)
    requires (e.Receive? || e.Fail? || e.Finish?) && e.run >= n
    ensures Shadows(Step(x, e), Step(y, e), n, bound)
  {
    assert x.app.messages == y.app.messages;
    if e.run < |x.runs| {
      assert x.runs[e.run] == y.runs[e.run];
    }
  }

  lemma {:induction false} RunShadows(x: World, y: World, n: nat, bound: MessageId, es: seq<Event>)
    requires Shadows(x, y, n, bound)
    ensures Shadows(RunEvents(x, es), RunEvents(y, DropEarlierRuns(es, n)), n, bound)
    decreases |es|
  {
    if es != [] {
      if ForEarlierRun(es[0], n) {
        StepShadowsDropped(x, y, n, bound, es[0]);
        RunShadows(Step(x, es[0]), y, n, bound, es[1..]);
      } else {
        StepShadowsKept(x, y, n, bound, es[0]);
        RunShadows(Step(x, es[0]), Step(y, es[0]), n, bound, es[1..]);
        assert DropEarlierRuns(es, n) == [es[0]] + DropEarlierRuns(es[1..], n);
        assert ([es[0]] + DropEarlierRuns(es[1..], n))[1..] == DropEarlierRuns(es[1..], n);
      }
    }
  }

  /** After a new chat or a profile switch, the sends that were in flight
      before it can only touch the loading flag: whatever their streams
      still deliver, raise or close, the rest of the state (transcript,
      profile, session, counters) is the one that results from the
      remaining events alone. */
  lemma ClearingSilencesEarlierSends(w: World, clear: Event, es: seq<Event>)
    requires Valid(w)
    requires clear == NewChat || (clear.ChangeModel? && clear.model != w.app.modelType)
    ensures var start := Step(w, clear);
      Core(RunEvents(start, es).app) == Core(RunEvents(start, DropEarlierRuns(es, |w.runs|)).app)
  {
    var start := Step(w, clear);
    assert start.app.messages == [];
    assert Shadows(start, start, |w.runs|, w.app.nextId);
    RunShadows(start, start, |w.runs|, w.app.nextId, es);
  }

  /** Nothing keeps sends one at a time: the `finally` of a send started
      before a new chat lowers `isLoading` — re-enabling the composer —
      while a later send is still streaming. */
  lemma EarlierFinishClearsLoadingOfLaterSend()
    ensures var w := RunEvents(StartWorld(), [Send("a"), NewChat, Send("b"), Finish(0)]);
      && !w.app.isLoading
      && |w.runs| == 2 && w.runs[1].active
  {
    var es: seq<Event> := [Send("a"), NewChat, Send("b"), Finish(0)];
    var w0 := StartWorld();
    var w1 := Step(w0, es[0]);
    var w2 := Step(w1, es[1]);
    var w3 := Step(w2, es[2]);
    var w4 := Step(w3, es[3]);
    assert RunEvents(w3, es[3..]) == w4 by {
      assert es[3..][1..] == [];
    }
    assert RunEvents(w2, es[2..]) == RunEvents(w3, es[3..]) by {
      assert es[2..][1..] == es[3..];
    }
    assert RunEvents(w1, es[1..]) == RunEvents(w2, es[2..]) by {
      assert es[1..][1..] == es[2..];
    }
  }
}
