/**
 What a peer does with a parsed message: route replies, fetch notifications, sets
 and calls to the registered callbacks and answer those that want an answer. User
 code is arbitrary: every callback may change the user's state and the peer's
 tables, return anything or throw anything.
 */
module Dispatch {
  import opened Common
  import opened Json
  import opened Errors

  const METHOD := "method"
  const PARAMS := "params"
  const CHANGE := "change"
  const READ_ONLY := "state is read only!"

  /**
   What is registered: states (with or without a callback), methods, fetches and
   the ids of open requests.
   */
  datatype Tables = Tables(states: map<Path, bool>, methods: set<Path>, fetches: set<int>, open: set<nat>)

  /** What a method callback does. */
  datatype CallOutcome = Answered(value: Json) | Raised(t: Thrown)

  /** The user's code and the network, as functions of the user's state. */
  datatype Env<!U> = Env(
    onSet: (U, Tables, Path, Json) -> (U, Tables, SetOutcome),
    onCall: (U, Tables, Path, Json) -> (U, Tables, CallOutcome),
    onNote: (U, Tables, int, Json) -> (U, Tables),
    onReply: (U, Tables, nat, Json) -> (U, Tables),
    send: (U, Json) -> (U, Option<string>))  // the error text if sending fails

  datatype World<U> = World(user: U, tables: Tables, sent: seq<Json>)

  // ---- what a message asks for ----

  datatype Request =
    | ReplyTo(id: nat)
    | NoteFor(fetch: int)
    | SetOf(path: Path, value: Json)   // a registered state; null values are ignored
    | CallOf(path: Path)
    | Nothing

  function Classify(tables: Tables, data: Json): Request {
    match Get(data, METHOD)
    case Null =>
      var id := AsInt(Get(data, ID));
      if id >= 0 && id in tables.open then ReplyTo(id) else Nothing
    case Int(f) => if f in tables.fetches then NoteFor(f) else Nothing
    case Str(path) =>
      if path in tables.states then SetOf(path, Get(Get(data, PARAMS), VALUE))
      else if path in tables.methods then CallOf(path)
      else Nothing
    case _ => Nothing
  }

  function ChangeNote(path: Path, value: Json): Json {
    Obj(map[METHOD := Str(CHANGE), PARAMS := Obj(map[PATH := Str(path), VALUE := value])])
  }

  /** `sendMessage`: on success the message is on the wire. */
  function Send<U>(env: Env<U>, w: World<U>, m: Json): (World<U>, Option<string>) {
    var (u, error) := env.send(w.user, m);
    (w.(user := u, sent := if error == None then w.sent + [m] else w.sent), error)
  }

  /** Run the state callback and notify its change; the result is the response without id. */
  function RunSet<U>(env: Env<U>, w: World<U>, path: Path, value: Json): (World<U>, Json) {
    if path in w.tables.states && !w.tables.states[path] then (w, ErrorResponse(INTERNAL_ERROR, READ_ONLY))
    else
      var (u, tables, outcome) := env.onSet(w.user, w.tables, path, value);
      var w1 := w.(user := u, tables := tables);
      match outcome
      case Threw(t) => (w1, Caught(t))
      case Returned(changed, code, message) =>
        if changed == Null then (w1, SetResponse(code, message))
        else
          var (w2, error) := Send(env, w1, ChangeNote(path, changed));
          (w2, if error.Some? then Caught(JsonRpc(-1, error.value)) else SetResponse(code, message))
  }

  function RunCall<U>(env: Env<U>, w: World<U>, path: Path, params: Json): (World<U>, Json) {
    var (u, tables, outcome) := env.onCall(w.user, w.tables, path, params);
    (w.(user := u, tables := tables),
     match outcome case Answered(v) => Put(Null, RESULT, v) case Raised(t) => Caught(t))
  }

  /** Answer, unless the message carries no id. A failing send is only logged. */
  function Respond<U>(env: Env<U>, w: World<U>, response: Json, id: Json): World<U> {
    if id == Null then w else Send(env, w, Put(response, ID, id)).0
  }

  function Handle<U>(env: Env<U>, w: World<U>, data: Json): World<U> {
    match Classify(w.tables, data)
    case ReplyTo(id) =>
      var (u, tables) := env.onReply(w.user, w.tables.(open := w.tables.open - {id}), id, data);
      w.(user := u, tables := tables)
    case NoteFor(f) =>
      var (u, tables) := env.onNote(w.user, w.tables, f, Get(data, PARAMS));
      w.(user := u, tables := tables)
    case SetOf(path, value) =>
      if value == Null then w
      else var (w1, response) := RunSet(env, w, path, value); Respond(env, w1, response, Get(data, ID))
    case CallOf(path) =>
      var (w1, response) := RunCall(env, w, path, Get(data, PARAMS)); Respond(env, w1, response, Get(data, ID))
    case Nothing => w
  }

  function HandleAll<U>(env: Env<U>, w: World<U>, ms: seq<Json>): World<U>
    decreases |ms|
  {
    if ms == [] then w else HandleAll(env, Handle(env, w, ms[0]), ms[1..])
  }

  /** `receiveCallback`: a batch, a single message, or something to be ignored. */
  function Receive<U>(env: Env<U>, w: World<U>, data: Json): World<U> {
    match data
    case Arr(items) => HandleAll(env, w, items)
    case Obj(_) => Handle(env, w, data)
    case _ => w
  }

  function ReceiveAll<U>(env: Env<U>, w: World<U>, frames: seq<Json>): World<U>
    decreases |frames|
  {
    if frames == [] then w else ReceiveAll(env, Receive(env, w, frames[0]), frames[1..])
  }

  // ---- batches ----

  /**
   A batch of message objects does exactly what its elements do as separate frames:
   same tables, same user state after the same callbacks, same messages sent.
   */
  lemma {:induction false} BatchIsSequence<U>(env: Env<U>, w: World<U>, ms: seq<Json>)
    requires forall i :: 0 <= i < |ms| ==> ms[i].Obj?
    ensures Receive(env, w, Arr(ms)) == ReceiveAll(env, w, ms)
    decreases |ms|
  {
    if ms != [] {
      BatchIsSequence(env, Handle(env, w, ms[0]), ms[1..]);
      assert Receive(env, w, ms[0]) == Handle(env, w, ms[0]);
    }
  }

  /**
   The elements have to be objects: null in a batch counts as a reply with id 0,
   while null as a frame of its own is ignored.
   */
  lemma NullInBatch<U>(env: Env<U>, w: World<U>)
    ensures ReceiveAll(env, w, [Null]) == w
    ensures Classify(w.tables, Null) == if 0 in w.tables.open then ReplyTo(0) else Nothing
    ensures 0 !in w.tables.open ==> Receive(env, w, Arr([Null])) == w
    ensures 0 in w.tables.open ==>
              var (u, tables) := env.onReply(w.user, w.tables.(open := w.tables.open - {0}), 0, Null);
              Receive(env, w, Arr([Null])) == w.(user := u, tables := tables)
  {
    assert Get(Null, METHOD) == Null && [Null][1..] == [];
    assert Receive(env, w, Arr([Null])) == HandleAll(env, Handle(env, w, Null), []);
    assert ReceiveAll(env, w, [Null]) == ReceiveAll(env, Receive(env, w, Null), []);
  }

  // ---- one response per request ----

  /** The message asks for the registered state or method named by its "method" member. */
  predicate Asks(data: Json, path: Path) {
    Get(data, "method") == Str(path)
  }

  /** A set of a registered state to a value other than null. */
  predicate IsSet(tables: Tables, data: Json, path: Path) {
    Asks(data, path) && path in tables.states && Get(Get(data, "params"), "value") != Null
  }

  /** A call of a registered method; a state of the same name goes first. */
  predicate IsCall(tables: Tables, data: Json, path: Path) {
    Asks(data, path) && path !in tables.states && path in tables.methods
  }

  /** The id under which message `data` must be answered, if it must. */
  function Owed(tables: Tables, data: Json): Option<Json> {
    var name := AsString(Get(data, "method"));
    if Get(data, "id") != Null && (IsSet(tables, data, name) || IsCall(tables, data, name))
    then Some(Get(data, "id")) else None
  }

  predicate IsResponse(m: Json) {
    IsMember(m, ID)
  }

  /** The responses among the messages sent, in order. */
  function Responses(sent: seq<Json>): seq<Json> {
    Filter(IsResponse, sent)
  }

  /** The network does not lose responses; notifications may fail. */
  ghost predicate DeliversResponses<U(!new)>(env: Env<U>) {
    forall u, m :: IsResponse(m) ==> env.send(u, m).1 == None
  }

  lemma ChangeIsNoResponse(path: Path, value: Json)
    ensures !IsResponse(ChangeNote(path, value))
  {
    assert |ID| == 2 && |METHOD| == 6 && |PARAMS| == 6;
  }

  lemma AppendSent(sent: seq<Json>, m: Json)
    ensures Responses(sent + [m]) == if IsResponse(m) then Responses(sent) + [m] else Responses(sent)
  {
    assert (sent + [m])[..|sent + [m]| - 1] == sent;
  }

  /** Every way a set can end gives a response that is either a result or an error, and sends none itself. */
  lemma SetAnswer<U>(env: Env<U>, w: World<U>, path: Path, value: Json, id: Json)
    ensures var (w1, response) := RunSet(env, w, path, value);
            && Responses(w1.sent) == Responses(w.sent)
            && WellFormed(Put(response, ID, id)) && Get(Put(response, ID, id), ID) == id
  {
    KeysDiffer();
    CaughtIsError(JsonRpc(INTERNAL_ERROR, READ_ONLY), id);
    if !(path in w.tables.states && !w.tables.states[path]) {
      var (u, tables, outcome) := env.onSet(w.user, w.tables, path, value);
      match outcome {
      case Threw(t) => CaughtIsError(t, id);
      case Returned(changed, code, message) =>
        SetResponseIsResult(code, message, id);
        ChangeIsNoResponse(path, changed);
        AppendSent(w.sent, ChangeNote(path, changed));
        var (_, error) := env.send(u, ChangeNote(path, changed));
        if error.Some? { CaughtIsError(JsonRpc(-1, error.value), id); }
      }
    }
  }

  lemma CallAnswer<U>(env: Env<U>, w: World<U>, path: Path, params: Json, id: Json)
    ensures var (w1, response) := RunCall(env, w, path, params);
            && w1.sent == w.sent
            && WellFormed(Put(response, ID, id)) && Get(Put(response, ID, id), ID) == id
  {
    KeysDiffer();
    var (_, _, outcome) := env.onCall(w.user, w.tables, path, params);
    if outcome.Raised? { CaughtIsError(outcome.t, id); }
  }

  /**
   A message that must be answered gets exactly one response, under its own id, with
   exactly one of result and error; any other message gets none.
   */
  lemma OneResponse<U(!new)>(env: Env<U>, w: World<U>, data: Json) returns (response: Json)
    requires DeliversResponses(env)
    ensures var owed := Owed(w.tables, data);
            && Responses(Handle(env, w, data).sent)
               == (if owed.Some? then Responses(w.sent) + [response] else Responses(w.sent))
            && (owed.Some? ==> WellFormed(response) && Get(response, ID) == owed.value)
  {
    response := Null;
    var id := Get(data, ID);
    match Classify(w.tables, data)
    case SetOf(path, value) =>
      if value != Null {
        SetAnswer(env, w, path, value, id);
        var (w1, r) := RunSet(env, w, path, value);
        response := Put(r, ID, id);
        AppendSent(w1.sent, response);
      }
    case CallOf(path) =>
      CallAnswer(env, w, path, Get(data, PARAMS), id);
      var (w1, r) := RunCall(env, w, path, Get(data, PARAMS));
      response := Put(r, ID, id);
      AppendSent(w1.sent, response);
    case _ =>
  }

  // ---- from the callback to the remote setter ----

  /** What a set comes to: the notes sent, what the remote setter gets and the user's state before the response. */
  datatype Fate<U> = Fate(notes: seq<Json>, result: SetStateValueResult, user: U)

  /**
   What a set should come to. Read-only states and changes that cannot be sent are
   errors; a warning keeps its code and loses its text.
   */
  function FateOf<U>(env: Env<U>, w: World<U>, path: Path, value: Json): Fate<U>
    requires path in w.tables.states
  {
    var (u, _, outcome) := env.onSet(w.user, w.tables, path, value);
    if !w.tables.states[path] then Fate([], Errors.Raised(JetException(INTERNAL_ERROR, READ_ONLY, Null)), w.user)
    else match outcome
      case Threw(t) => Fate([], Errors.Raised(Seen(t)), u)
      case Returned(Null, code, _) => Fate([], Completed(code, ""), u)
      case Returned(changed, code, _) =>
        var (u1, error) := env.send(u, ChangeNote(path, changed));
        if error.Some? then Fate([], Errors.Raised(JetException(-1, error.value, Null)), u1)
        else Fate([ChangeNote(path, changed)], Completed(code, ""), u1)
  }

  /** The response to a set, before it gets its id, means to the setter what the set came to. */
  lemma RunSetFate<U>(env: Env<U>, w: World<U>, path: Path, value: Json, ownerId: Json, callerId: Json)
    requires path in w.tables.states
    ensures var (w1, response) := RunSet(env, w, path, value);
            var fate := FateOf(env, w, path, value);
            && w1.sent == w.sent + fate.notes && w1.user == fate.user
            && SetStateValue(Routed(response, ownerId, callerId)) == fate.result
  {
    if !w.tables.states[path] {
      ThrownReachesSetter(JsonRpc(INTERNAL_ERROR, READ_ONLY), ownerId, callerId);
    } else {
      var (u, _, outcome) := env.onSet(w.user, w.tables, path, value);
      match outcome {
      case Threw(t) => ThrownReachesSetter(t, ownerId, callerId);
      case Returned(changed, code, message) =>
        WarningReachesSetter(code, message, ownerId, callerId);
        var error := env.send(u, ChangeNote(path, changed)).1;
        if error.Some? { ThrownReachesSetter(JsonRpc(-1, error.value), ownerId, callerId); }
      }
    }
  }

  /** A change notification names the path and carries the new value. */
  lemma ChangeFields(path: Path, value: Json)
    ensures var note := ChangeNote(path, value);
            && Get(note, "method") == Str("change") && !IsMember(note, "id")
            && Get(Get(note, "params"), "path") == Str(path) && Get(Get(note, "params"), "value") == value
  {
    assert |"method"| == 6 && |"id"| == 2 && |"path"| == 4 && |"value"| == 5 && "method"[0] != "params"[0];
  }

  /**
   End to end, for a set with an id: the state's callback gets the value, the peer sends
   the change it returned, if any, and then one response, and the remote setter, to whom
   the daemon routes the response under the setter's own id, raises or returns exactly
   what the set came to.
   */
  lemma SetterSeesOutcome<U(!new)>(env: Env<U>, w: World<U>, data: Json, path: Path, callerId: Json)
    returns (response: Json)
    requires DeliversResponses(env) && IsSet(w.tables, data, path) && Get(data, "id") != Null
    ensures var value := Get(Get(data, "params"), "value");
            var (_, tables, outcome) := env.onSet(w.user, w.tables, path, value);
            var w', fate := Handle(env, w, data), FateOf(env, w, path, value);
            && w'.sent == w.sent + fate.notes + [response] && w'.user == env.send(fate.user, response).0
            && w'.tables == (if w.tables.states[path] then tables else w.tables)
            && SetStateValue(Put(response, "id", callerId)) == fate.result
            && (forall n :: n in fate.notes ==>
                  && Get(n, "method") == Str("change") && Get(Get(n, "params"), "path") == Str(path)
                  && outcome.Returned? && Get(Get(n, "params"), "value") == outcome.value)
  {
    var id, value := Get(data, ID), Get(Get(data, PARAMS), VALUE);
    RunSetFate(env, w, path, value, id, callerId);
    var (w1, r) := RunSet(env, w, path, value);
    var outcome := env.onSet(w.user, w.tables, path, value).2;
    if outcome.Returned? { ChangeFields(path, outcome.value); }
    response := Put(r, ID, id);
    assert IsResponse(response);
  }

  /** Nested entries: what the owner's callback throws is what the setter reads out. */
  lemma EntriesReachSetter<U(!new)>(env: Env<U>, w: World<U>, data: Json, path: Path, callerId: Json,
                                    entries: map<string, Entry>) returns (response: Json)
    requires DeliversResponses(env) && IsSet(w.tables, data, path) && w.tables.states[path] && Get(data, "id") != Null
    requires env.onSet(w.user, w.tables, path, Get(Get(data, "params"), "value")).2
             == Threw(Jet(JetException(-1, SEE_DATA, EntriesJson(entries))))
    ensures Handle(env, w, data).sent == w.sent + [response]
    ensures var r := SetStateValue(Put(response, "id", callerId));
            r.Raised? && r.e.code == -1 && r.e.message == SEE_DATA && EntriesOf(r.e.data) == entries
  {
    response := SetterSeesOutcome(env, w, data, path, callerId);
    EntriesRoundTrip(entries);
    assert w.sent + [] + [response] == w.sent + [response];
  }

  /**
   For a call with an id: the method's callback gets the parameters, and the peer sends
   one response, under that id, with the callback's answer as the result or with the
   code, message and data it threw.
   */
  lemma CallerSeesAnswer<U(!new)>(env: Env<U>, w: World<U>, data: Json, path: Path) returns (response: Json)
    requires DeliversResponses(env) && IsCall(w.tables, data, path) && Get(data, "id") != Null
    ensures var (u, tables, outcome) := env.onCall(w.user, w.tables, path, Get(data, "params"));
            && Handle(env, w, data) == World(env.send(u, response).0, tables, w.sent + [response])
            && Get(response, "id") == Get(data, "id")
            && match outcome
               case Answered(v) =>
                 IsMember(response, "result") && Get(response, "result") == v && !IsMember(response, "error")
               case Raised(t) => IsMember(response, "error") && FromResponse(response) == Seen(t)
  {
    KeysDiffer();
    var id := Get(data, ID);
    var (_, _, outcome) := env.onCall(w.user, w.tables, path, Get(data, PARAMS));
    if outcome.Raised? { SeenIsCaught(outcome.t); }
    var (w1, r) := RunCall(env, w, path, Get(data, PARAMS));
    response := Put(r, ID, id);
    assert IsResponse(response) && (IsMember(response, ERR) <==> IsMember(r, ERR));
    assert Get(response, ERR) == Get(r, ERR);
  }

  /** A notification runs the callback of its fetch with the parameters, and nothing else happens. */
  lemma NotificationDispatched<U>(env: Env<U>, w: World<U>, data: Json, f: int)
    requires Get(data, "method") == Int(f)
    ensures var (u, tables) := env.onNote(w.user, w.tables, f, Get(data, "params"));
            Handle(env, w, data) == if f in w.tables.fetches then World(u, tables, w.sent) else w
  {
  }

  /** A reply closes its request and runs the request's callback with the whole reply, or nothing happens. */
  lemma ReplyDispatched<U>(env: Env<U>, w: World<U>, data: Json, id: nat)
    requires Get(data, "method") == Null && Get(data, "id") == Int(id)
    ensures var (u, tables) := env.onReply(w.user, w.tables.(open := w.tables.open - {id}), id, data);
            Handle(env, w, data) == if id in w.tables.open then World(u, tables, w.sent) else w
  {
  }

  // ---- whole streams ----

  /** The ids to be answered over a whole stream; callbacks may change the tables on the way. */
  function AllOwed<U>(env: Env<U>, w: World<U>, ms: seq<Json>): seq<Json>
    decreases |ms|
  {
    if ms == [] then [] else OwedNow(w.tables, ms[0]) + AllOwed(env, Handle(env, w, ms[0]), ms[1..])
  }

  function OwedNow(tables: Tables, data: Json): seq<Json> {
    var owed := Owed(tables, data);
    if owed.Some? then [owed.value] else []
  }

  ghost predicate AnswersTo(responses: seq<Json>, ids: seq<Json>) {
    && |responses| == |ids|
    && forall i :: 0 <= i < |ids| ==> WellFormed(responses[i]) && Get(responses[i], ID) == ids[i]
  }

  lemma AnswersConcat(a: seq<Json>, b: seq<Json>, ids: seq<Json>, more: seq<Json>)
    requires AnswersTo(a, ids) && AnswersTo(b, more)
    ensures AnswersTo(a + b, ids + more)
  {
  }

  lemma AnsweredNow<U(!new)>(env: Env<U>, w: World<U>, data: Json) returns (now: seq<Json>)
    requires DeliversResponses(env)
    ensures Responses(Handle(env, w, data).sent) == Responses(w.sent) + now
    ensures AnswersTo(now, OwedNow(w.tables, data))
  {
    var response := OneResponse(env, w, data);
    now := if Owed(w.tables, data).Some? then [response] else [];
  }

  lemma {:induction false} MessagesAnswered<U(!new)>(env: Env<U>, w: World<U>, ms: seq<Json>)
    returns (responses: seq<Json>)
    requires DeliversResponses(env)
    ensures Responses(HandleAll(env, w, ms).sent) == Responses(w.sent) + responses
    ensures AnswersTo(responses, AllOwed(env, w, ms))
    decreases |ms|
  {
    if ms == [] {
      return [];
    }
    var now := AnsweredNow(env, w, ms[0]);
    var rest := MessagesAnswered(env, Handle(env, w, ms[0]), ms[1..]);
    responses := now + rest;
    AnswersConcat(now, rest, OwedNow(w.tables, ms[0]), AllOwed(env, Handle(env, w, ms[0]), ms[1..]));
    ConcatAssociative(Responses(w.sent), now, rest);
  }

  /** The messages in a frame: the elements of a batch, an object, or none. */
  function Messages(frame: Json): seq<Json> {
    match frame
    case Arr(items) => items
    case Obj(_) => [frame]
    case _ => []
  }

  function AllMessages(frames: seq<Json>): seq<Json> {
    if frames == [] then [] else Messages(frames[0]) + AllMessages(frames[1..])
  }

  lemma {:induction false} HandleConcat<U>(env: Env<U>, w: World<U>, a: seq<Json>, b: seq<Json>)
    ensures HandleAll(env, w, a + b) == HandleAll(env, HandleAll(env, w, a), b)
    decreases |a|
  {
    if a == [] {
      assert a + b == b;
    } else {
      assert (a + b)[1..] == a[1..] + b;
      HandleConcat(env, Handle(env, w, a[0]), a[1..], b);
    }
  }

  /** A stream of frames does what its messages do, one after the other. */
  lemma {:induction false} FramesAreMessages<U>(env: Env<U>, w: World<U>, frames: seq<Json>)
    ensures ReceiveAll(env, w, frames) == HandleAll(env, w, AllMessages(frames))
    decreases |frames|
  {
    if frames != [] {
      var w1 := Receive(env, w, frames[0]);
      assert w1 == HandleAll(env, w, Messages(frames[0])) by {
        if frames[0].Obj? { assert [frames[0]][1..] == []; }
      }
      FramesAreMessages(env, w1, frames[1..]);
      HandleConcat(env, w, Messages(frames[0]), AllMessages(frames[1..]));
    }
  }

  /**
   Over any stream of frames, batches included, the responses sent are, in order,
   exactly one for each request that carries an id, each a result or an error.
   */
  lemma EveryRequestAnswered<U(!new)>(env: Env<U>, w: World<U>, frames: seq<Json>) returns (responses: seq<Json>)
    requires DeliversResponses(env)
    ensures Responses(ReceiveAll(env, w, frames).sent) == Responses(w.sent) + responses
    ensures AnswersTo(responses, AllOwed(env, w, AllMessages(frames)))
  {
    FramesAreMessages(env, w, frames);
    responses := MessagesAnswered(env, w, AllMessages(frames));
  }

  // ---- the code ----

  class Peer<U> {
    const env: Env<U>
    var user: U
    var tables: Tables
    var sent: seq<Json>

    ghost function View(): World<U>
      reads this
    {
      World(user, tables, sent)
    }

    constructor (env: Env<U>, user: U)
      ensures this.env == env && View() == World(user, Tables(map[], {}, {}, {}), [])
    {
      this.env := env;
      this.user := user;
      tables := Tables(map[], {}, {}, {});
      sent := [];
    }

    method SendMessage(m: Json) returns (error: Option<string>)
      modifies this
      ensures (View(), error) == Send(env, old(View()), m)
    {
      var (u, e) := env.send(user, m);
      user := u;
      error := e;
      if e == None { sent := sent + [m]; }
    }

    /** Lines 789 to 830 of lib/peerasync.cpp. */
    method HandleSet(path: Path, value: Json) returns (response: Json)
      requires path in tables.states
      modifies this
      ensures (View(), response) == RunSet(env, old(View()), path, value)
    {
      response := Null;
      if !tables.states[path] {
        response := ErrorResponse(INTERNAL_ERROR, READ_ONLY);
        return;
      }
      var (u, t, outcome) := env.onSet(user, tables, path, value);
      user, tables := u, t;
      match outcome
      case Threw(thrown) => response := Caught(thrown);
      case Returned(changed, code, message) =>
        if changed != Null {
          // the change is notified before the response is sent
          var error := SendMessage(ChangeNote(path, changed));
          if error.Some? {
            response := Caught(JsonRpc(-1, error.value));
            return;
          }
        }
        if code != 0 {
          var warning := Put(Null, CODE, Int(code));
          if message != "" { warning := Put(warning, MESSAGE, Str(message)); }
          response := Put(response, RESULT, Put(Null, WARNING, warning));
        } else {
          response := Put(response, RESULT, Obj(map[]));
        }
    }

    /** Lines 850 to 865. */
    method HandleCall(path: Path, params: Json) returns (response: Json)
      modifies this
      ensures (View(), response) == RunCall(env, old(View()), path, params)
    {
      var (u, t, outcome) := env.onCall(user, tables, path, params);
      user, tables := u, t;
      match outcome
      case Answered(v) => response := Put(Null, RESULT, v);
      case Raised(thrown) => response := Caught(thrown);
    }

    /** Lines 832 to 840 and 866 to 874. */
    method Answer(response: Json, id: Json)
      modifies this
      ensures View() == Respond(env, old(View()), response, id)
    {
      if id != Null {
        var _ := SendMessage(Put(response, ID, id));
      }
    }

    /** `handleMessage`. */
    method HandleMessage(data: Json)
      modifies this
      ensures View() == Handle(env, old(View()), data)
    {
      var methodNode := Get(data, METHOD);
      match methodNode
      case Null =>
        var id := AsInt(Get(data, ID));
        if id >= 0 && id in tables.open {
          tables := tables.(open := tables.open - {id});
          var (u, t) := env.onReply(user, tables, id, data);
          user, tables := u, t;
        }
      case Int(f) =>
        if f in tables.fetches {
          var (u, t) := env.onNote(user, tables, f, Get(data, PARAMS));
          user, tables := u, t;
        }
      case Str(path) =>
        if path in tables.states {
          var value := Get(Get(data, PARAMS), VALUE);
          if value != Null {
            var response := HandleSet(path, value);
            Answer(response, Get(data, ID));
          }
          return;
        }
        if path in tables.methods {
          var response := HandleCall(path, Get(data, PARAMS));
          Answer(response, Get(data, ID));
        }
      case _ =>
    }

    /** `receiveCallback`. */
    method ReceiveCallback(data: Json)
      modifies this
      ensures View() == Receive(env, old(View()), data)
    {
      match data
      case Arr(items) =>
        for i := 0 to |items|
          invariant HandleAll(env, View(), items[i..]) == HandleAll(env, old(View()), items)
        {
          assert items[i..][1..] == items[i + 1..];
          HandleMessage(items[i]);
        }
      case Obj(_) => HandleMessage(data);
      case _ =>
    }
  }
}
