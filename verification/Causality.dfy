/**
 Peers, the daemon between them and the FIFO channels that connect them. Any peer
 may own states, fetch and set; the daemon behaves as lib/README.md describes. The
 question is what a caller has already seen when the response to its set arrives.
 */
module Causality {
  import opened Common
  import opened Matching

  type PeerId = nat
  type FetchId = nat
  type ReqId = nat
  type Value = int

  /** A set request, named by its caller and the caller's request id. */
  datatype Tag = Tag(caller: PeerId, req: ReqId)
  datatype Carried = Carried(path: Path, value: Value)

  /** The owner's answer to a routed set, with the change it notified before answering. */
  datatype Answer = Answer(tag: Tag, ok: bool, carried: Option<Carried>)

  datatype Event = Added | Changed | Removed

  /** How a fetch is requested: without a result callback, with one, or by a synchronous call. */
  datatype Mode = NoResult | Async | Sync

  datatype Up =
    | Fetch(fetch: FetchId, matcher: Matcher, mode: Mode)
    | Unfetch(fetch: FetchId)
    | Set(req: ReqId, path: Path, value: Value)
    | Change(change: Carried, cause: Option<Tag>)
    | Respond(answer: Answer)
    | Declare(path: Path, value: Value)
    | Withdraw(path: Path)

  datatype Down =
    | Note(fetch: FetchId, event: Event, change: Carried, cause: Option<Tag>)
    | Routed(tag: Tag, path: Path, value: Value)
    | Result(req: ReqId, ok: bool, carried: Option<Carried>)
    | Refusal(fetch: FetchId, sync: bool)  // error reply to a fetch that awaits a result

  /**
   `open` holds the unanswered set requests, each with the fetches that were sent
   earlier on the same connection. `log` holds the notes on which a fetch callback
   has run. `answering` is a routed set between its change notification and its
   response. `calling` holds the fetches whose synchronous call has not returned,
   `rejected` those among them whose refusal has arrived on this connection: the
   calling thread unregisters them later.
   */
  datatype Peer = Peer(
    table: map<FetchId, Matcher>,
    sent: set<FetchId>,
    nextFetch: FetchId,
    nextReq: ReqId,
    open: map<ReqId, set<FetchId>>,
    answering: Option<Answer>,
    up: seq<Up>,
    down: seq<Down>,
    log: set<Down>,
    calling: set<FetchId>,
    rejected: set<FetchId>)

  datatype Owned = Owned(owner: PeerId, value: Value)

  /**
   `registered` holds the paths in the state registry of each peer, `removed` those
   that were taken out by a removal on the current connection. `barred` holds the
   fetches the daemon has refused to establish on the current connection. `accepted`
   and `refused` record what it did with change notifications caused by sets.
   */
  datatype World = World(
    peers: PeerId -> Peer,
    states: map<Path, Owned>,
    fetches: map<(PeerId, FetchId), Matcher>,
    barred: set<(PeerId, FetchId)>,
    waiting: set<Tag>,
    accepted: set<(Tag, Carried)>,
    refused: set<(Tag, Carried)>,
    registered: set<(PeerId, Path)>,
    removed: set<(PeerId, Path)>)

  /** What the owner's handling of a routed set comes to; in `GaveUp` the callback removed its own state. */
  datatype Outcome = Ignored | Failed | Done(change: Option<Value>) | GaveUp(value: Value)

  type Batch = PeerId -> seq<Down>

  datatype Step =
    | AddFetch(p: PeerId, matcher: Matcher, sync: bool)  // registers; no lock spans the call, so the send may be late
    | SendFetch(p: PeerId, fetch: FetchId, matcher: Matcher, mode: Mode)  // of a new or a restored fetch
    | Return(p: PeerId, fetch: FetchId)          // a synchronous call ends well
    | RemoveFetch(p: PeerId, fetch: FetchId)     // unregisters, also as a rollback
    | SendUnfetch(p: PeerId, fetch: FetchId)
    | SetState(p: PeerId, path: Path, value: Value)
    | Notify(p: PeerId, path: Path, value: Value)
    | AddState(p: PeerId, path: Path)    // registers
    | SendAdd(p: PeerId, path: Path, value: Value)
    | Unregister(p: PeerId, path: Path)  // rollback of a failed add
    | RemoveState(p: PeerId, path: Path)
    | SendRemove(p: PeerId, path: Path)
    | Daemon(p: PeerId, refuse: bool, batch: Batch)  // the daemon takes the next message of p
    | Deliver(p: PeerId, outcome: Outcome)  // p takes its next message
    | SendResponse(p: PeerId, ok: bool)
    // cancelled: fetches still awaited; late: removed paths whose REMOVE is yet to be sent
    | Disconnect(p: PeerId, cancelled: set<FetchId>, late: set<Path>, batch: Batch)

  function With(w: World, p: PeerId, x: Peer): World {
    w.(peers := (q: PeerId) => if q == p then x else w.peers(q))
  }

  function Push(x: Peer, m: Up): Peer {
    x.(up := x.up + [m])
  }

  function Broadcast(w: World, batch: Batch): World {
    w.(peers := (q: PeerId) => w.peers(q).(down := w.peers(q).down + batch(q)))
  }

  ghost predicate Silent(batch: Batch) {
    forall q: PeerId :: batch(q) == []
  }

  /** Exactly one note for each matching fetch of each peer, in some order. */
  ghost predicate NotesFor(w: World, batch: Batch, event: Event, change: Carried, cause: Option<Tag>) {
    && (forall q: PeerId, n :: n in batch(q) ==>
          n.Note? && n == Note(n.fetch, event, change, cause)
          && (q, n.fetch) in w.fetches && Matches(w.fetches[(q, n.fetch)], change.path))
    && (forall q: PeerId, f: FetchId :: (q, f) in w.fetches && Matches(w.fetches[(q, f)], change.path) ==>
          Note(f, event, change, cause) in batch(q))
    && (forall q: PeerId, i, j :: 0 <= i < j < |batch(q)| ==> batch(q)[i] != batch(q)[j])
  }

  /** A new fetch is told the current value of every matching state. */
  ghost predicate CurrentValues(w: World, batch: Batch, p: PeerId, f: FetchId, m: Matcher) {
    && (forall q: PeerId :: q != p ==> batch(q) == [])
    && (forall n :: n in batch(p) ==>
          n.Note? && n.fetch == f && n.event == Added && n.cause == None
          && n.change.path in w.states && n.change.value == w.states[n.change.path].value)
    && (forall path :: path in w.states && Matches(m, path) ==>
          Note(f, Added, Carried(path, w.states[path].value), None) in batch(p))
  }

  /** The states of a disconnected peer disappear. */
  ghost predicate Disappearance(batch: Batch) {
    forall q: PeerId, n :: n in batch(q) ==> n.Note? && n.event == Removed && n.cause == None
  }

  predicate Owns(w: World, p: PeerId, path: Path) {
    path in w.states && w.states[path].owner == p
  }

  /** What the daemon may send when it takes message `m` of peer `p`. */
  ghost predicate DaemonMay(w: World, p: PeerId, m: Up, refuse: bool, batch: Batch) {
    match m
    case Fetch(f, matcher, _) => if refuse then Silent(batch) else CurrentValues(w, batch, p, f, matcher)
    case Change(change, cause) =>
      if Owns(w, p, change.path) then NotesFor(w, batch, Changed, change, cause) else Silent(batch)
    case Declare(path, value) =>
      if path in w.states then Silent(batch) else NotesFor(w, batch, Added, Carried(path, value), None)
    case Withdraw(path) =>
      if Owns(w, p, path) then NotesFor(w, batch, Removed, Carried(path, w.states[path].value), None) else Silent(batch)
    case _ => Silent(batch)
  }

  /** Only a fetch that awaits a result is refused, and a refusal stands for the connection. */
  predicate FetchAnswer(w: World, p: PeerId, m: Up, refuse: bool)
    requires m.Fetch?
  {
    if (p, m.fetch) in w.barred then refuse else refuse ==> m.mode != NoResult
  }

  /** No refusal of the synchronous call for `f` is under way. */
  predicate MayReturn(x: Peer, f: FetchId) {
    && f !in x.rejected && Refusal(f, true) !in x.down
    && forall m :: m in x.up && m.Fetch? && m.mode == Sync ==> m.fetch != f
  }

  ghost predicate Enabled(w: World, step: Step) {
    match step
    case Daemon(p, refuse, batch) =>
      && w.peers(p).up != []
      && (w.peers(p).up[0].Fetch? ==> FetchAnswer(w, p, w.peers(p).up[0], refuse))
      && (refuse ==> w.peers(p).up[0].Fetch?)
      && DaemonMay(w, p, w.peers(p).up[0], refuse, batch)
    case Deliver(p, outcome) =>
      && w.peers(p).down != [] && w.peers(p).answering == None
      && (w.peers(p).down[0].Routed? && !outcome.Ignored? ==> (p, w.peers(p).down[0].path) in w.registered)
    case SendResponse(p, _) => w.peers(p).answering.Some?
    case Disconnect(p, _, late, batch) => Disappearance(batch) && forall path :: path in late ==> (p, path) in w.removed
    case SendRemove(p, path) => (p, path) in w.removed
    case SendFetch(p, f, m, mode) =>
      && f < w.peers(p).nextFetch && (f in w.peers(p).table ==> w.peers(p).table[f] == m)
      && (mode == Sync && f in w.peers(p).table ==> f in w.peers(p).calling)
    case Return(p, f) => MayReturn(w.peers(p), f)
    case SendUnfetch(p, f) => f < w.peers(p).nextFetch && f !in w.peers(p).table
    case _ => true
  }

  /** The daemon's own state after message `m` of peer `p`. */
  function Record(w: World, p: PeerId, m: Up, refuse: bool): World {
    match m
    case Fetch(f, matcher, _) =>
      if !refuse then w.(fetches := w.fetches[(p, f) := matcher])
      else if (p, f) in w.fetches then w else w.(barred := w.barred + {(p, f)})
    case Unfetch(f) => w.(fetches := w.fetches - {(p, f)})
    case Set(req, path, _) => if path in w.states then w.(waiting := w.waiting + {Tag(p, req)}) else w
    case Change(change, cause) =>
      var done := if cause.Some? then {(cause.value, change)} else {};
      if Owns(w, p, change.path)
      then w.(states := w.states[change.path := Owned(p, change.value)], accepted := w.accepted + done)
      else w.(refused := w.refused + done)
    case Respond(answer) => w.(waiting := w.waiting - {answer.tag})
    case Declare(path, value) => if path in w.states then w else w.(states := w.states[path := Owned(p, value)])
    case Withdraw(path) => if Owns(w, p, path) then w.(states := w.states - {path}) else w
  }

  /** The message the daemon passes on for `m`, if any, and to whom. */
  function Forward(w: World, p: PeerId, m: Up, refuse: bool): Option<(PeerId, Down)> {
    match m
    case Fetch(f, _, mode) => if refuse && mode != NoResult then Some((p, Refusal(f, mode == Sync))) else None
    case Set(req, path, value) =>
      if path in w.states then Some((w.states[path].owner, Routed(Tag(p, req), path, value)))
      else Some((p, Result(req, false, None)))
    case Respond(a) =>
      if a.tag in w.waiting then Some((a.tag.caller, Result(a.tag.req, a.ok, a.carried))) else None
    case _ => None
  }

  function Forwarded(w: World, to: Option<(PeerId, Down)>): World {
    if to == None then w
    else With(w, to.value.0, w.peers(to.value.0).(down := w.peers(to.value.0).down + [to.value.1]))
  }

  /** The daemon takes the next message of `p`. */
  function Take(w: World, p: PeerId, refuse: bool): World
    requires w.peers(p).up != []
  {
    var x := w.peers(p);
    Forwarded(Record(With(w, p, x.(up := x.up[1..])), p, x.up[0], refuse), Forward(w, p, x.up[0], refuse))
  }

  /** One message taken by a peer. */
  function Handled(x: Peer, d: Down, outcome: Outcome): Peer {
    match d
    case Note(f, _, _, _) => if f in x.table then x.(log := x.log + {d}) else x
    case Result(req, _, _) => x.(open := x.open - {req})
    case Refusal(f, sync) =>
      if !sync then x.(table := x.table - {f}) else if f in x.table then x.(rejected := x.rejected + {f}) else x
    case Routed(tag, path, _) =>
      match outcome
      case Ignored => x
      case Failed => x.(answering := Some(Answer(tag, false, None)))
      case Done(None) => x.(answering := Some(Answer(tag, true, None)))
      case Done(Some(v)) =>
        Push(x, Change(Carried(path, v), Some(tag))).(answering := Some(Answer(tag, true, Some(Carried(path, v)))))
      case GaveUp(v) =>
        Push(Push(x, Withdraw(path)), Change(Carried(path, v), Some(tag)))
          .(answering := Some(Answer(tag, true, Some(Carried(path, v)))))
  }

  function PeerStep(x: Peer, step: Step): Peer
    requires step.Deliver? ==> x.down != []
    requires step.SendResponse? ==> x.answering.Some?
  {
    match step
    case AddFetch(_, m, sync) =>
      x.(table := x.table[x.nextFetch := m], nextFetch := x.nextFetch + 1,
         calling := if sync then x.calling + {x.nextFetch} else x.calling)
    case SendFetch(_, f, m, mode) => Push(x, Fetch(f, m, mode)).(sent := x.sent + {f})
    case Return(_, f) => x.(calling := x.calling - {f})
    case RemoveFetch(_, f) => x.(table := x.table - {f}, calling := x.calling - {f}, rejected := x.rejected - {f})
    case SendUnfetch(_, f) => Push(x, Unfetch(f))
    case SetState(_, path, v) =>
      Push(x, Set(x.nextReq, path, v)).(nextReq := x.nextReq + 1, open := x.open[x.nextReq := x.sent * x.table.Keys])
    case Notify(_, path, v) => Push(x, Change(Carried(path, v), None))
    case AddState(_, _) => x
    case SendAdd(_, path, v) => Push(x, Declare(path, v))
    case Unregister(_, _) => x
    case RemoveState(_, _) => x
    case SendRemove(_, path) => Push(x, Withdraw(path))
    case Deliver(_, outcome) => Handled(x.(down := x.down[1..]), x.down[0], outcome)
    case SendResponse(_, ok) =>
      var y := x.(answering := None);
      if ok then Push(y, Respond(x.answering.value)) else y
    case Disconnect(_, cancelled, _, _) =>
      x.(table := x.table - cancelled, sent := {}, open := map[], answering := None, up := [], down := [],
         rejected := {})
    case Daemon(_, _, _) => x
  }

  /** The daemon forgets a disconnected peer. */
  function Forget(w: World, p: PeerId): World {
    w.(states := map path | path in w.states && w.states[path].owner != p :: w.states[path],
       fetches := map k | k in w.fetches && k.0 != p :: w.fetches[k],
       barred := (set k | k in w.barred && k.0 != p),
       waiting := set t | t in w.waiting && t.caller != p)
  }

  /** The path whose set callback removes it, if any. */
  function GivenUpBy(x: Peer, step: Step): set<(PeerId, Path)> {
    if step.Deliver? && step.outcome.GaveUp? && x.down != [] && x.down[0].Routed?
    then {(step.p, x.down[0].path)} else {}
  }

  function RegisteredPaths(w: World, step: Step): set<(PeerId, Path)> {
    var p := step.p;
    match step
    case AddState(_, path) => w.registered + {(p, path)}
    case Unregister(_, path) => w.registered - {(p, path)}
    case RemoveState(_, path) => w.registered - {(p, path)}
    case Disconnect(_, _, _, _) => set k | k in w.registered && k.0 != p
    case _ => w.registered - GivenUpBy(w.peers(p), step)
  }

  function RemovedPaths(w: World, step: Step): set<(PeerId, Path)> {
    var p := step.p;
    match step
    case RemoveState(_, path) => w.removed + {(p, path)}
    case Disconnect(_, _, late, _) => set k | k in w.removed && (k.0 != p || k.1 in late)
    case _ => w.removed + GivenUpBy(w.peers(p), step)
  }

  function Apply(w: World, step: Step): World
    requires Enabled(w, step)
  {
    Moved(w, step).(registered := RegisteredPaths(w, step), removed := RemovedPaths(w, step))
  }

  /** The step as the channels, the tables of fetches and the daemon see it. */
  function Moved(w: World, step: Step): World
    requires Enabled(w, step)
  {
    match step
    case Daemon(p, refuse, batch) => Take(Broadcast(w, batch), p, refuse)
    case Disconnect(p, _, _, batch) => Forget(With(Broadcast(w, batch), p, PeerStep(w.peers(p), step)), p)
    case _ => With(w, step.p, PeerStep(w.peers(step.p), step))
  }

  // ---- invariants ----

  /** `f` was sent before the still unanswered set `s` on this connection and is still registered. */
  predicate Live(x: Peer, s: ReqId, f: FetchId) {
    s in x.open && f in x.open[s] && f in x.table
  }

  ghost predicate Numbered(w: World, c: PeerId) {
    var x := w.peers(c);
    && (forall f: FetchId :: f in x.table || f in x.sent ==> f < x.nextFetch)
    && (forall s: ReqId, f: FetchId :: s in x.open && f in x.open[s] ==> f < x.nextFetch)
    && (forall s: ReqId :: s in x.open ==> s < x.nextReq)
  }

  /** The daemon's fetches and the messages about fetches agree with the local table. */
  ghost predicate Consistent(w: World, c: PeerId) {
    var x := w.peers(c);
    && (forall f: FetchId :: Unfetch(f) in x.up ==> f !in x.table && f < x.nextFetch)
    && (forall f: FetchId, m, a :: Fetch(f, m, a) in x.up ==> f < x.nextFetch && (f in x.table ==> m == x.table[f]))
    && (forall f: FetchId :: (c, f) in w.fetches ==>
          f < x.nextFetch && (f in x.table ==> w.fetches[(c, f)] == x.table[f]))
  }

  /** The refusal of `f` is in `before` or has arrived for its synchronous call. */
  predicate Warned(x: Peer, f: FetchId, before: seq<Down>) {
    Refusal(f, true) in before || Refusal(f, false) in before || f in x.rejected
  }

  /** A refused fetch that is still registered is about to be rolled back, and a rejected call has not returned. */
  ghost predicate BarredOk(w: World, c: PeerId) {
    var x := w.peers(c);
    && (forall f: FetchId :: (c, f) in w.barred && f in x.table ==> Warned(x, f, x.down))
    && (forall f: FetchId :: f in x.calling || f in x.rejected || (c, f) in w.barred ==> f < x.nextFetch)
    && (forall f: FetchId :: f in x.rejected ==> f in x.calling)
    && (forall f: FetchId :: f in x.table && Refusal(f, true) in x.down ==> f in x.calling)
    && (forall f: FetchId, m :: f in x.table && Fetch(f, m, Sync) in x.up ==> f in x.calling)
    && (forall d :: d in x.down && d.Refusal? ==> d.fetch < x.nextFetch)
  }

  /** The daemon has answered fetch `f`. */
  predicate Known(w: World, c: PeerId, f: FetchId) {
    (c, f) in w.fetches || (c, f) in w.barred
  }

  /** Fetch `f` has reached the daemon, or does so before the rest of the channel is read. */
  predicate Reaches(w: World, c: PeerId, f: FetchId, before: seq<Up>)
    requires f in w.peers(c).table
  {
    || Known(w, c, f)
    || Fetch(f, w.peers(c).table[f], NoResult) in before
    || Fetch(f, w.peers(c).table[f], Async) in before
    || Fetch(f, w.peers(c).table[f], Sync) in before
  }

  ghost predicate SentOk(w: World, c: PeerId) {
    var x := w.peers(c);
    forall f: FetchId :: f in x.sent && f in x.table ==> Reaches(w, c, f, x.up)
  }

  /** FIFO: the fetches sent before a set reach the daemon before it. */
  ghost predicate SetsOk(w: World, c: PeerId) {
    var x := w.peers(c);
    && (forall s: ReqId, f: FetchId :: s in x.open && f in x.open[s] && f in x.table ==> f in x.sent)
    && (forall i :: 0 <= i < |x.up| && x.up[i].Set? ==> x.up[i].req < x.nextReq)
    && (forall i, f: FetchId :: 0 <= i < |x.up| && x.up[i].Set? && Live(x, x.up[i].req, f) ==>
          Reaches(w, c, f, x.up[..i]))
  }

  /** Every live fetch of the set `t` is known to the daemon. */
  ghost predicate Ready(w: World, t: Tag) {
    && t.req < w.peers(t.caller).nextReq
    && forall f: FetchId :: Live(w.peers(t.caller), t.req, f) ==> Known(w, t.caller, f)
  }

  predicate Processed(w: World, t: Tag, change: Carried) {
    (t, change) in w.accepted || (t, change) in w.refused
  }

  /** The owner's change precedes its answer. */
  ghost predicate AnswersOk(w: World, q: PeerId) {
    var x := w.peers(q);
    && (x.answering.Some? ==>
          var a := x.answering.value;
          Ready(w, a.tag)
          && (a.carried.Some? ==> Change(a.carried.value, Some(a.tag)) in x.up || Processed(w, a.tag, a.carried.value)))
    && (forall i :: 0 <= i < |x.up| && x.up[i].Respond? ==>
          var a := x.up[i].answer;
          a.tag.req < w.peers(a.tag.caller).nextReq
          && (a.carried.Some? ==>
                Change(a.carried.value, Some(a.tag)) in x.up[..i] || Processed(w, a.tag, a.carried.value)))
  }

  /** Whatever a set has caused so far is caused after its fetches are known. */
  ghost predicate CausesOk(w: World, q: PeerId) {
    var x := w.peers(q);
    && (forall m :: m in x.up && m.Change? && m.cause.Some? ==> Ready(w, m.cause.value))
    && (forall d :: d in x.down && d.Routed? ==> Ready(w, d.tag))
  }

  /** Every live matching fetch of the set `t` has run with the change, finds it in `before` or was refused. */
  ghost predicate Notified(w: World, t: Tag, change: Carried, before: seq<Down>) {
    var x := w.peers(t.caller);
    forall f: FetchId :: Live(x, t.req, f) && Matches(x.table[f], change.path) ==>
      || Note(f, Changed, change, Some(t)) in x.log || Note(f, Changed, change, Some(t)) in before
      || ((t.caller, f) in w.barred && Warned(x, f, before))
  }

  ghost predicate AcceptedOk(w: World) {
    && (forall t, change :: (t, change) in w.accepted ==>
          t.req < w.peers(t.caller).nextReq && Notified(w, t, change, w.peers(t.caller).down))
    && (forall t, change :: (t, change) in w.refused ==> t.req < w.peers(t.caller).nextReq)
  }

  /** FIFO: the notes of a change precede the result that carries it. */
  ghost predicate ResultsOk(w: World, c: PeerId) {
    var x := w.peers(c);
    forall i :: 0 <= i < |x.down| && x.down[i].Result? ==>
      && x.down[i].req < x.nextReq
      && (x.down[i].carried.Some? ==>
            var t := Tag(c, x.down[i].req);
            var change := x.down[i].carried.value;
            (t, change) in w.refused || Notified(w, t, change, x.down[..i]))
  }

  ghost predicate PeerInv(w: World, c: PeerId) {
    && Numbered(w, c) && Consistent(w, c) && BarredOk(w, c) && SentOk(w, c) && SetsOk(w, c)
    && AnswersOk(w, c) && CausesOk(w, c) && ResultsOk(w, c)
  }

  ghost predicate Inv(w: World) {
    AcceptedOk(w) && forall c: PeerId :: PeerInv(w, c)
  }

  // ---- steps of one peer ----

  /** Peer record `y` owes its earlier sets no more than `x` did. */
  ghost predicate Ages(x: Peer, y: Peer) {
    && y.nextReq >= x.nextReq && y.log >= x.log
    && forall s: ReqId, f: FetchId :: s < x.nextReq && Live(y, s, f) ==> Live(x, s, f) && y.table[f] == x.table[f]
  }

  /** Notes of still registered fetches are not lost while a set is unanswered. */
  ghost predicate KeepsNotes(x: Peer, y: Peer) {
    y.open == map[] ||
    (&& (forall n :: n in x.down && n.Note? && n.fetch in y.table ==> n in y.down || n in y.log)
     && KeepsWarnings(x, y, x.down, y.down))
  }

  /** Of still registered fetches no refusal is lost. */
  ghost predicate KeepsWarnings(x: Peer, y: Peer, before: seq<Down>, after: seq<Down>) {
    forall f: FetchId :: f in y.table && Warned(x, f, before) ==> Warned(y, f, after)
  }

  lemma ReadyKept(w: World, p: PeerId, y: Peer, t: Tag)
    requires Ages(w.peers(p), y) && Ready(w, t)
    ensures Ready(With(w, p, y), t)
  {
  }

  lemma NotifiedKept(w: World, p: PeerId, y: Peer, t: Tag, change: Carried, before: seq<Down>, after: seq<Down>)
    requires Ages(w.peers(p), y) && Notified(w, t, change, before) && t.req < w.peers(t.caller).nextReq
    requires forall n :: n in before && n.Note? && n.fetch in With(w, p, y).peers(t.caller).table ==>
               n in after || n in With(w, p, y).peers(t.caller).log
    requires KeepsWarnings(w.peers(t.caller), With(w, p, y).peers(t.caller), before, after)
    ensures Notified(With(w, p, y), t, change, after)
  {
  }

  lemma AcceptedKept(w: World, p: PeerId, y: Peer)
    requires AcceptedOk(w) && Ages(w.peers(p), y) && KeepsNotes(w.peers(p), y)
    ensures AcceptedOk(With(w, p, y))
  {
    var w' := With(w, p, y);
    forall t, change | (t, change) in w'.accepted
      ensures Notified(w', t, change, w'.peers(t.caller).down)
    {
      if t.caller != p || y.open != map[] {
        NotifiedKept(w, p, y, t, change, w.peers(t.caller).down, w'.peers(t.caller).down);
      }
    }
  }

  lemma ResultsKept(w: World, p: PeerId, y: Peer, c: PeerId)
    requires ResultsOk(w, c) && Ages(w.peers(p), y) && KeepsNotes(w.peers(p), y) && c != p
    ensures ResultsOk(With(w, p, y), c)
  {
  }

  lemma OthersKept(w: World, p: PeerId, y: Peer, c: PeerId)
    requires PeerInv(w, c) && Ages(w.peers(p), y) && KeepsNotes(w.peers(p), y) && c != p
    ensures PeerInv(With(w, p, y), c)
  {
    var w' := With(w, p, y);
    ResultsKept(w, p, y, c);
    var x := w'.peers(c);
    forall t | Ready(w, t) ensures Ready(w', t) { ReadyKept(w, p, y, t); }
  }

  /** To keep the invariant, a peer's step only has to respect its own part of it. */
  lemma UpdateKeeps(w: World, p: PeerId, y: Peer)
    requires Inv(w) && Ages(w.peers(p), y) && KeepsNotes(w.peers(p), y)
    requires PeerInv(With(w, p, y), p)
    ensures Inv(With(w, p, y))
  {
    AcceptedKept(w, p, y);
    forall c: PeerId | c != p ensures PeerInv(With(w, p, y), c) { OthersKept(w, p, y, c); }
  }

  /** A message that does not concern fetches, sets or answers may join the channel. */
  lemma PushPlain(w: World, p: PeerId, m: Up)
    requires Inv(w) && (m.Declare? || m.Withdraw? || (m.Change? && m.cause == None))
    ensures Inv(With(w, p, Push(w.peers(p), m)))
  {
    assert PeerInv(w, p);
    var y := Push(w.peers(p), m);
    PushSets(w, p, y, m);
    PushAnswers(w, p, y, m);
    UpdateKeeps(w, p, y);
  }

  /** Appending to the channel leaves what is said about its earlier messages. */
  lemma PushSets(w: World, p: PeerId, y: Peer, m: Up)
    requires PeerInv(w, p) && y.up == w.peers(p).up + [m] && Ages(w.peers(p), y)
    requires y.table == w.peers(p).table && y.sent >= w.peers(p).sent && y.down == w.peers(p).down
    requires forall s: ReqId, f: FetchId :: s in y.open && f in y.open[s] && f in y.table ==> f in y.sent
    requires m.Set? ==> m.req < y.nextReq && y.sent == w.peers(p).sent
    ensures SetsOk(With(w, p, y), p)
  {
    var x, w' := w.peers(p), With(w, p, y);
    forall i, f: FetchId | 0 <= i < |y.up| && y.up[i].Set? && Live(y, y.up[i].req, f)
      ensures Reaches(w', p, f, y.up[..i])
    {
      if i < |x.up| {
        assert y.up[i] == x.up[i] && y.up[..i] == x.up[..i];
        assert Live(x, x.up[i].req, f);
      } else {
        assert y.up[..i] == x.up;
      }
    }
  }

  lemma PushAnswers(w: World, p: PeerId, y: Peer, m: Up)
    requires Inv(w) && y.up == w.peers(p).up + [m] && Ages(w.peers(p), y) && KeepsNotes(w.peers(p), y)
    requires y.answering == w.peers(p).answering && y.down == w.peers(p).down && y.rejected == w.peers(p).rejected
    requires m.Change? && m.cause.Some? ==> Ready(w, m.cause.value)
    requires !m.Respond?
    ensures AnswersOk(With(w, p, y), p) && CausesOk(With(w, p, y), p) && ResultsOk(With(w, p, y), p)
  {
    assert PeerInv(w, p);
    var x, w' := w.peers(p), With(w, p, y);
    forall t | Ready(w, t) ensures Ready(w', t) { ReadyKept(w, p, y, t); }
    forall i | 0 <= i < |y.up| && y.up[i].Respond? ensures y.up[i] == x.up[i] && y.up[..i] == x.up[..i] { }
    SameResults(w, p, y);
  }

  /** The invariant does not depend on the daemon's values. */
  lemma SamePeers(w: World, w': World)
    requires Inv(w) && forall q: PeerId :: w'.peers(q) == w.peers(q)
    requires w'.fetches == w.fetches && w'.barred == w.barred && w'.accepted == w.accepted && w'.refused == w.refused
    ensures Inv(w')
  {
    forall c: PeerId ensures PeerInv(w', c) {
      assert PeerInv(w, c);
      SameParts(w, w', c);
    }
  }

  lemma SameParts(w: World, w': World, c: PeerId)
    requires PeerInv(w, c) && forall q: PeerId :: w'.peers(q) == w.peers(q)
    requires w'.fetches == w.fetches && w'.barred == w.barred && w'.accepted == w.accepted && w'.refused == w.refused
    ensures PeerInv(w', c)
  {
    forall t | Ready(w, t) ensures Ready(w', t) { }
    assert ResultsOk(w', c);
  }

  lemma NewFetch(w: World, step: Step)
    requires Inv(w) && step.AddFetch?
    ensures Inv(With(w, step.p, PeerStep(w.peers(step.p), step)))
  {
    var p, x, y := step.p, w.peers(step.p), PeerStep(w.peers(step.p), step);
    assert PeerInv(w, p);
    forall s: ReqId, f: FetchId | Live(y, s, f) ensures Live(x, s, f) && y.table[f] == x.table[f] { }
    PopOwn(w, p, y);
    SameResults(w, p, y);
    UpdateKeeps(w, p, y);
  }

  lemma FetchSent(w: World, p: PeerId, f: FetchId, matcher: Matcher, mode: Mode)
    requires Inv(w) && Enabled(w, SendFetch(p, f, matcher, mode))
    ensures Inv(With(w, p, Push(w.peers(p), Fetch(f, matcher, mode)).(sent := w.peers(p).sent + {f})))
  {
    var x := w.peers(p);
    assert PeerInv(w, p);
    var m := Fetch(f, matcher, mode);
    var y := Push(x, m).(sent := x.sent + {f});
    PushSets(w, p, y, m);
    PushAnswers(w, p, y, m);
    UpdateKeeps(w, p, y);
  }

  lemma ReturnKeeps(w: World, p: PeerId, f: FetchId)
    requires Inv(w) && MayReturn(w.peers(p), f)
    ensures Inv(With(w, p, w.peers(p).(calling := w.peers(p).calling - {f})))
  {
    assert PeerInv(w, p);
    var y := w.peers(p).(calling := w.peers(p).calling - {f});
    PopLocal(w, p, y);
    PopOwn(w, p, y);
    SameResults(w, p, y);
    UpdateKeeps(w, p, y);
  }

  lemma DropFetch(w: World, p: PeerId, f: FetchId)
    requires Inv(w)
    ensures Inv(With(w, p, PeerStep(w.peers(p), RemoveFetch(p, f))))
  {
    assert PeerInv(w, p);
    var y := PeerStep(w.peers(p), RemoveFetch(p, f));
    PopLocal(w, p, y);
    PopOwn(w, p, y);
    SameResults(w, p, y);
    UpdateKeeps(w, p, y);
  }

  lemma SameResults(w: World, p: PeerId, y: Peer)
    requires ResultsOk(w, p) && y.down == w.peers(p).down && Ages(w.peers(p), y)
    requires forall f: FetchId :: f in w.peers(p).rejected && f in y.table ==> f in y.rejected
    ensures ResultsOk(With(w, p, y), p)
  {
    var x, w' := w.peers(p), With(w, p, y);
    forall i | 0 <= i < |y.down| && y.down[i].Result? && y.down[i].carried.Some?
      ensures var t := Tag(p, y.down[i].req); var change := y.down[i].carried.value;
              (t, change) in w.refused || Notified(w', t, change, y.down[..i])
    {
      var t, change := Tag(p, y.down[i].req), y.down[i].carried.value;
      if (t, change) !in w.refused { NotifiedKept(w, p, y, t, change, x.down[..i], y.down[..i]); }
    }
  }

  lemma PushUnfetch(w: World, p: PeerId, f: FetchId)
    requires Inv(w) && f !in w.peers(p).table && f < w.peers(p).nextFetch
    ensures Inv(With(w, p, Push(w.peers(p), Unfetch(f))))
  {
    assert PeerInv(w, p);
    var y := Push(w.peers(p), Unfetch(f));
    PushSets(w, p, y, Unfetch(f));
    PushAnswers(w, p, y, Unfetch(f));
    UpdateKeeps(w, p, y);
  }

  lemma SetStateKeeps(w: World, step: Step)
    requires Inv(w) && step.SetState?
    ensures Inv(With(w, step.p, PeerStep(w.peers(step.p), step)))
  {
    var p, x, y := step.p, w.peers(step.p), PeerStep(w.peers(step.p), step);
    assert PeerInv(w, p);
    var m := Set(x.nextReq, step.path, step.value);
    PushSets(w, p, y, m);
    PushAnswers(w, p, y, m);
    UpdateKeeps(w, p, y);
  }

  lemma SendResponseKeeps(w: World, step: Step)
    requires Inv(w) && step.SendResponse? && Enabled(w, step)
    ensures Inv(With(w, step.p, PeerStep(w.peers(step.p), step)))
  {
    var p, x, y := step.p, w.peers(step.p), PeerStep(w.peers(step.p), step);
    assert PeerInv(w, p);
    if step.ok {
      PushSets(w, p, y, Respond(x.answering.value));
      RespondOwn(w, p, y);
      UpdateKeeps(w, p, y);
    } else {
      ResponseLost(w, p);
    }
  }

  lemma ResponseLost(w: World, p: PeerId)
    requires Inv(w)
    ensures Inv(With(w, p, w.peers(p).(answering := None)))
  {
    assert PeerInv(w, p);
    var y := w.peers(p).(answering := None);
    forall t | Ready(w, t) ensures Ready(With(w, p, y), t) { ReadyKept(w, p, y, t); }
    PopLocal(w, p, y);
    SameResults(w, p, y);
    UpdateKeeps(w, p, y);
  }

  lemma RespondOwn(w: World, p: PeerId, y: Peer)
    requires Inv(w) && w.peers(p).answering.Some?
    requires y == Push(w.peers(p).(answering := None), Respond(w.peers(p).answering.value))
    ensures AnswersOk(With(w, p, y), p) && CausesOk(With(w, p, y), p) && ResultsOk(With(w, p, y), p)
  {
    assert PeerInv(w, p);
    var x, w' := w.peers(p), With(w, p, y);
    forall t | Ready(w, t) ensures Ready(w', t) { ReadyKept(w, p, y, t); }
    forall i | 0 <= i < |x.up| ensures y.up[i] == x.up[i] && y.up[..i] == x.up[..i] { }
    assert y.up[..|x.up|] == x.up;
  }

  /** Taking the next message shifts the channel; the note taken is in the log or its fetch is gone. */
  lemma PopResults(w: World, p: PeerId, y: Peer)
    requires PeerInv(w, p) && w.peers(p).down != [] && y.down == w.peers(p).down[1..]
    requires Ages(w.peers(p), y) && y.nextReq == w.peers(p).nextReq
    requires w.peers(p).down[0].Note? && w.peers(p).down[0].fetch in y.table ==> w.peers(p).down[0] in y.log
    requires w.peers(p).down[0].Refusal? && w.peers(p).down[0].fetch in y.table ==>
               w.peers(p).down[0].fetch in y.rejected
    requires forall f: FetchId :: f in w.peers(p).rejected && f in y.table ==> f in y.rejected
    ensures ResultsOk(With(w, p, y), p)
  {
    var x, w' := w.peers(p), With(w, p, y);
    forall i | 0 <= i < |y.down| && y.down[i].Result? && y.down[i].carried.Some?
      ensures var t := Tag(p, y.down[i].req); var change := y.down[i].carried.value;
              (t, change) in w.refused || Notified(w', t, change, y.down[..i])
    {
      var t, change := Tag(p, y.down[i].req), y.down[i].carried.value;
      assert x.down[i + 1] == y.down[i] && x.down[..i + 1] == [x.down[0]] + y.down[..i];
      if (t, change) !in w.refused {
        NotifiedKept(w, p, y, t, change, x.down[..i + 1], y.down[..i]);
      }
    }
  }

  lemma DeliverPlain(w: World, step: Step)
    requires Inv(w) && step.Deliver? && Enabled(w, step)
    requires !w.peers(step.p).down[0].Routed? || step.outcome.Ignored?
    ensures Inv(With(w, step.p, PeerStep(w.peers(step.p), step)))
  {
    var p, y := step.p, PeerStep(w.peers(step.p), step);
    assert PeerInv(w, p);
    PlainShape(w.peers(p), step.outcome);
    PopResults(w, p, y);
    PopOwn(w, p, y);
    PopLocal(w, p, y);
    UpdateKeeps(w, p, y);
  }

  /** A note runs a callback, a result ends a request, a refusal ends a fetch or wakes its caller. */
  lemma PlainShape(x: Peer, outcome: Outcome)
    requires x.down != [] && (!x.down[0].Routed? || outcome.Ignored?)
    ensures var d, y := x.down[0], Handled(x.(down := x.down[1..]), x.down[0], outcome);
            && Ages(x, y) && KeepsNotes(x, y) && KeepsWarnings(x, y, x.down, y.down)
            && y.down == x.down[1..] && y.up == x.up && y.sent == x.sent && y.calling == x.calling
            && y.nextFetch == x.nextFetch && y.nextReq == x.nextReq && y.answering == x.answering
            && y.rejected == (if d.Refusal? && d.sync && d.fetch in x.table then x.rejected + {d.fetch} else x.rejected)
            && (d.Note? && d.fetch in y.table ==> d in y.log)
            && (d.Refusal? && d.fetch in y.table ==> d.fetch in y.rejected)
            && (forall f: FetchId :: f in y.table ==> f in x.table && y.table[f] == x.table[f])
            && (forall s: ReqId :: s in y.open ==> s in x.open && y.open[s] == x.open[s])
  {
    assert x.down == [x.down[0]] + x.down[1..];
  }

  lemma PopLocal(w: World, p: PeerId, y: Peer)
    requires PeerInv(w, p)
    requires var x := w.peers(p);
             y.sent == x.sent && y.nextFetch == x.nextFetch && y.nextReq == x.nextReq && y.up == x.up
    requires forall f: FetchId :: f in y.table ==> f in w.peers(p).table && y.table[f] == w.peers(p).table[f]
    requires KeepsWarnings(w.peers(p), y, w.peers(p).down, y.down) && (forall d :: d in y.down ==> d in w.peers(p).down)
    requires forall f: FetchId :: f in y.calling ==> f in w.peers(p).calling
    requires forall f: FetchId :: f in y.table && f in w.peers(p).calling && !MayReturn(w.peers(p), f) ==>
               f in y.calling
    requires forall f: FetchId :: f in y.rejected ==> f in y.calling
    requires forall s: ReqId :: s in y.open ==> s in w.peers(p).open && y.open[s] == w.peers(p).open[s]
    ensures var w' := With(w, p, y);
            Numbered(w', p) && Consistent(w', p) && SentOk(w', p) && SetsOk(w', p) && BarredOk(w', p)
  {
    var x, w' := w.peers(p), With(w, p, y);
    forall s: ReqId, f: FetchId | Live(y, s, f) ensures Live(x, s, f) { }
    forall f: FetchId, before | f in y.table && Reaches(w, p, f, before) ensures Reaches(w', p, f, before) { }
  }

  lemma PopOwn(w: World, p: PeerId, y: Peer)
    requires PeerInv(w, p) && Ages(w.peers(p), y) && KeepsNotes(w.peers(p), y)
    requires y.answering == w.peers(p).answering && y.up == w.peers(p).up
    requires forall d :: d in y.down ==> d in w.peers(p).down
    ensures AnswersOk(With(w, p, y), p) && CausesOk(With(w, p, y), p)
  {
    forall t | Ready(w, t) ensures Ready(With(w, p, y), t) { ReadyKept(w, p, y, t); }
  }

  /** The owner has handled a routed set: the change, if any, is sent before the answer is. */
  lemma AnswerKeeps(w: World, p: PeerId, a: Answer)
    requires Inv(w) && w.peers(p).answering == None && Ready(w, a.tag)
    ensures var x := w.peers(p);
            var y := if a.carried.Some? then Push(x, Change(a.carried.value, Some(a.tag))) else x;
            Inv(With(w, p, y.(answering := Some(a))))
  {
    assert PeerInv(w, p);
    var x := w.peers(p);
    var y := if a.carried.Some? then Push(x, Change(a.carried.value, Some(a.tag))) else x;
    var z := y.(answering := Some(a));
    if a.carried.Some? {
      PushSets(w, p, y, Change(a.carried.value, Some(a.tag)));
      PushAnswers(w, p, y, Change(a.carried.value, Some(a.tag)));
      UpdateKeeps(w, p, y);
      var w1 := With(w, p, y);
      AnswerOwn(w1, p, a);
      SamePeers(With(w1, p, z), With(w, p, z));
    } else {
      AnswerOwn(w, p, a);
    }
  }

  lemma AnswerOwn(w: World, p: PeerId, a: Answer)
    requires Inv(w) && Ready(w, a.tag)
    requires a.carried.Some? ==> Change(a.carried.value, Some(a.tag)) in w.peers(p).up
    ensures Inv(With(w, p, w.peers(p).(answering := Some(a))))
  {
    assert PeerInv(w, p);
    var z := w.peers(p).(answering := Some(a));
    forall t | Ready(w, t) ensures Ready(With(w, p, z), t) { ReadyKept(w, p, z, t); }
    UpdateKeeps(w, p, z);
  }

  lemma DeliverRouted(w: World, step: Step)
    requires Inv(w) && step.Deliver? && Enabled(w, step)
    requires w.peers(step.p).down[0].Routed? && !step.outcome.Ignored?
    ensures Inv(With(w, step.p, PeerStep(w.peers(step.p), step)))
  {
    var p, x, y := step.p, w.peers(step.p), PeerStep(w.peers(step.p), step);
    assert PeerInv(w, p);
    DeliverPlain(w, step.(outcome := Ignored));
    var z, t := x.(down := x.down[1..]), x.down[0].tag;
    var w1 := With(w, p, z);
    ReadyKept(w, p, z, t);
    if step.outcome.GaveUp? {
      GiveUpKeeps(w1, p, y.answering.value, x.down[0].path);
    } else {
      AnswerKeeps(w1, p, y.answering.value);
    }
    SamePeers(With(w1, p, y), With(w, p, y));
  }

  /** A callback may send a removal before the change. */
  lemma GiveUpKeeps(w: World, p: PeerId, a: Answer, path: Path)
    requires Inv(w) && w.peers(p).answering == None && Ready(w, a.tag) && a.carried.Some?
    ensures var y := Push(Push(w.peers(p), Withdraw(path)), Change(a.carried.value, Some(a.tag)));
            Inv(With(w, p, y.(answering := Some(a))))
  {
    var x := Push(w.peers(p), Withdraw(path));
    var y := Push(x, Change(a.carried.value, Some(a.tag))).(answering := Some(a));
    var w1 := With(w, p, x);
    PushPlain(w, p, Withdraw(path));
    assert KeepsNotes(w.peers(p), x);
    ReadyKept(w, p, x, a.tag);
    AnswerKeeps(w1, p, a);
    SamePeers(With(w1, p, y), With(w, p, y));
  }

  // ---- steps of the daemon ----

  lemma ReadyGrows(w: World, w': World, t: Tag)
    requires Ready(w, t) && w'.fetches == w.fetches && w'.barred == w.barred
    requires var x, y := w.peers(t.caller), w'.peers(t.caller);
             y.table == x.table && y.open == x.open && y.nextReq == x.nextReq
    ensures Ready(w', t)
  {
    forall f: FetchId | Live(w'.peers(t.caller), t.req, f) ensures Known(w', t.caller, f) {
      assert Live(w.peers(t.caller), t.req, f) && Known(w, t.caller, f);
    }
  }

  ghost predicate OnlyNotes(batch: Batch) {
    forall q: PeerId, n :: n in batch(q) ==> n.Note?
  }

  lemma BroadcastResults(w: World, batch: Batch, c: PeerId)
    requires ResultsOk(w, c) && OnlyNotes(batch)
    ensures ResultsOk(Broadcast(w, batch), c)
  {
    var x, w' := w.peers(c), Broadcast(w, batch);
    var y := w'.peers(c);
    forall i | |x.down| <= i < |y.down| ensures !y.down[i].Result? {
      var n := batch(c)[i - |x.down|];
      assert n in batch(c) && n.Note? && y.down[i] == n;
    }
    forall i | 0 <= i < |x.down| ensures y.down[i] == x.down[i] && y.down[..i] == x.down[..i] { }
  }

  /** Notes may join any channel. */
  lemma BroadcastKeeps(w: World, batch: Batch)
    requires Inv(w) && OnlyNotes(batch)
    ensures Inv(Broadcast(w, batch))
  {
    var w' := Broadcast(w, batch);
    forall c: PeerId ensures PeerInv(w', c) {
      assert PeerInv(w, c);
      BroadcastResults(w, batch, c);
      BroadcastParts(w, batch, c);
    }
  }

  lemma BroadcastParts(w: World, batch: Batch, c: PeerId)
    requires PeerInv(w, c) && OnlyNotes(batch)
    ensures var w' := Broadcast(w, batch);
            SentOk(w', c) && SetsOk(w', c) && AnswersOk(w', c) && CausesOk(w', c) && BarredOk(w', c)
  {
    var x, w' := w.peers(c), Broadcast(w, batch);
    var y := w'.peers(c);
    forall t | Ready(w, t) ensures Ready(w', t) { ReadyGrows(w, w', t); }
    forall s: ReqId, f: FetchId ensures Live(y, s, f) == Live(x, s, f) { }
    forall f: FetchId, before | f in x.table && Reaches(w, c, f, before) ensures Reaches(w', c, f, before) { }
    forall d | d in y.down && !d.Note? ensures d in x.down { assert d in batch(c) ==> d.Note?; }
  }

  /** The daemon has taken a message whose effect is already recorded. */
  lemma PopKeeps(w: World, p: PeerId)
    requires Inv(w) && w.peers(p).up != []
    requires var m := w.peers(p).up[0];
             (m.Fetch? && m.fetch in w.peers(p).table ==> Known(w, p, m.fetch))
             && (m.Change? && m.cause.Some? ==> Processed(w, m.cause.value, m.change))
    ensures Inv(With(w, p, w.peers(p).(up := w.peers(p).up[1..])))
  {
    assert PeerInv(w, p);
    var y := w.peers(p).(up := w.peers(p).up[1..]);
    PopSets(w, p, y);
    PopAnswers(w, p, y);
    UpdateKeeps(w, p, y);
  }

  lemma PopSets(w: World, p: PeerId, y: Peer)
    requires PeerInv(w, p) && w.peers(p).up != [] && y == w.peers(p).(up := w.peers(p).up[1..])
    requires var m := w.peers(p).up[0]; m.Fetch? && m.fetch in w.peers(p).table ==> Known(w, p, m.fetch)
    ensures SetsOk(With(w, p, y), p)
  {
    var x, w' := w.peers(p), With(w, p, y);
    forall i, f: FetchId | 0 <= i < |y.up| && y.up[i].Set? && Live(y, y.up[i].req, f)
      ensures Reaches(w', p, f, y.up[..i])
    {
      assert x.up[i + 1] == y.up[i] && x.up[..i + 1] == [x.up[0]] + y.up[..i];
      assert Reaches(w, p, f, x.up[..i + 1]);
    }
  }

  lemma PopAnswers(w: World, p: PeerId, y: Peer)
    requires PeerInv(w, p) && w.peers(p).up != [] && y == w.peers(p).(up := w.peers(p).up[1..])
    requires var m := w.peers(p).up[0]; m.Change? && m.cause.Some? ==> Processed(w, m.cause.value, m.change)
    ensures AnswersOk(With(w, p, y), p) && CausesOk(With(w, p, y), p)
  {
    var x, w' := w.peers(p), With(w, p, y);
    forall t | Ready(w, t) ensures Ready(w', t) { ReadyKept(w, p, y, t); }
    forall i | 0 <= i < |y.up| && y.up[i].Respond?
      ensures var a := y.up[i].answer;
              a.tag.req < w'.peers(a.tag.caller).nextReq
              && (a.carried.Some? ==> Change(a.carried.value, Some(a.tag)) in y.up[..i]
                                      || Processed(w', a.tag, a.carried.value))
    {
      PopAnswer(w, p, i);
    }
    assert x.up == [x.up[0]] + y.up;
  }

  lemma PopAnswer(w: World, p: PeerId, i: nat)
    requires AnswersOk(w, p) && i + 1 < |w.peers(p).up| && w.peers(p).up[i + 1].Respond?
    requires var m := w.peers(p).up[0]; m.Change? && m.cause.Some? ==> Processed(w, m.cause.value, m.change)
    ensures var up := w.peers(p).up;
            var a := up[i + 1].answer;
            a.tag.req < w.peers(a.tag.caller).nextReq
            && (a.carried.Some? ==> Change(a.carried.value, Some(a.tag)) in up[1..][..i]
                                    || Processed(w, a.tag, a.carried.value))
  {
    var up := w.peers(p).up;
    assert up[..i + 1] == [up[0]] + up[1..][..i];
  }

  /** The daemon's knowledge of fetches changes without touching registered ones. */
  lemma FetchesKeep(w: World, w': World)
    requires Inv(w) && w' == w.(fetches := w'.fetches)
    requires forall c: PeerId, f: FetchId :: f in w.peers(c).table && (c, f) in w.fetches ==>
               (c, f) in w'.fetches
    requires forall c: PeerId, f: FetchId :: (c, f) in w'.fetches ==>
               f < w.peers(c).nextFetch && (f in w.peers(c).table ==> w'.fetches[(c, f)] == w.peers(c).table[f])
    ensures Inv(w')
  {
    forall c: PeerId ensures PeerInv(w', c) {
      assert PeerInv(w, c);
      FetchParts(w, w', c);
    }
  }

  lemma FetchParts(w: World, w': World, c: PeerId)
    requires PeerInv(w, c) && w' == w.(fetches := w'.fetches)
    requires forall c: PeerId, f: FetchId :: f in w.peers(c).table && (c, f) in w.fetches ==>
               (c, f) in w'.fetches
    requires forall f: FetchId :: (c, f) in w'.fetches ==>
               f < w.peers(c).nextFetch && (f in w.peers(c).table ==> w'.fetches[(c, f)] == w.peers(c).table[f])
    ensures PeerInv(w', c)
  {
    forall t | Ready(w, t) ensures Ready(w', t) { }
    forall f: FetchId, before | f in w.peers(c).table && Reaches(w, c, f, before) ensures Reaches(w', c, f, before) { }
    assert ResultsOk(w', c);
  }

  /** The daemon has accepted or refused a change. */
  lemma ProcessedKeeps(w: World, w': World)
    requires Inv(w) && w' == w.(accepted := w'.accepted, refused := w'.refused)
    requires w'.accepted >= w.accepted && w'.refused >= w.refused && AcceptedOk(w')
    ensures Inv(w')
  {
    forall c: PeerId ensures PeerInv(w', c) {
      assert PeerInv(w, c);
      forall t | Ready(w, t) ensures Ready(w', t) { }
      ProcessedResults(w, w', c);
    }
  }

  lemma ProcessedResults(w: World, w': World, c: PeerId)
    requires ResultsOk(w, c) && w' == w.(accepted := w'.accepted, refused := w'.refused) && w'.refused >= w.refused
    ensures ResultsOk(w', c)
  {
  }

  /** A routed set, a result or a refusal may join a channel. */
  lemma ForwardKeeps(w: World, q: PeerId, d: Down)
    requires Inv(w) && !d.Note?
    requires d.Refusal? ==> d.fetch < w.peers(q).nextFetch
    requires d.Refusal? && d.sync && d.fetch in w.peers(q).table ==> d.fetch in w.peers(q).calling
    requires d.Routed? ==> Ready(w, d.tag)
    requires d.Result? ==> d.req < w.peers(q).nextReq
    requires d.Result? && d.carried.Some? ==>
               (Tag(q, d.req), d.carried.value) in w.refused
               || Notified(w, Tag(q, d.req), d.carried.value, w.peers(q).down)
    ensures Inv(With(w, q, w.peers(q).(down := w.peers(q).down + [d])))
  {
    assert PeerInv(w, q);
    var x, y := w.peers(q), w.peers(q).(down := w.peers(q).down + [d]);
    var w' := With(w, q, y);
    forall t | Ready(w, t) ensures Ready(w', t) { ReadyKept(w, q, y, t); }
    ForwardResults(w, q, d, y);
    UpdateKeeps(w, q, y);
  }

  lemma ForwardResults(w: World, q: PeerId, d: Down, y: Peer)
    requires ResultsOk(w, q) && y == w.peers(q).(down := w.peers(q).down + [d])
    requires d.Result? ==> d.req < w.peers(q).nextReq
    requires d.Result? && d.carried.Some? ==>
               (Tag(q, d.req), d.carried.value) in w.refused
               || Notified(w, Tag(q, d.req), d.carried.value, w.peers(q).down)
    ensures ResultsOk(With(w, q, y), q)
  {
    var x, w' := w.peers(q), With(w, q, y);
    forall i | 0 <= i < |y.down|
      ensures i < |x.down| ==> y.down[i] == x.down[i] && y.down[..i] == x.down[..i]
    { }
    assert y.down[..|x.down|] == x.down;
  }

  /** A set is taken: its live fetches are known by then. */
  lemma SetReady(w: World, p: PeerId)
    requires PeerInv(w, p) && w.peers(p).up != [] && w.peers(p).up[0].Set?
    ensures Ready(w, Tag(p, w.peers(p).up[0].req))
  {
    var x := w.peers(p);
    forall f: FetchId | Live(x, x.up[0].req, f) ensures Known(w, p, f) {
      assert Reaches(w, p, f, x.up[..0]);
    }
  }

  /** An accepted change has its notes in the channels, so every live matching fetch will see it. */
  lemma AcceptKeeps(w: World, t: Tag, change: Carried)
    requires Inv(w) && Ready(w, t)
    requires forall f: FetchId :: (t.caller, f) in w.fetches && Matches(w.fetches[(t.caller, f)], change.path) ==>
               Note(f, Changed, change, Some(t)) in w.peers(t.caller).down
    ensures Inv(w.(accepted := w.accepted + {(t, change)}))
  {
    var w' := w.(accepted := w.accepted + {(t, change)});
    assert PeerInv(w, t.caller);
    forall u, ch | (u, ch) in w'.accepted ensures Notified(w', u, ch, w'.peers(u.caller).down) {
      if (u, ch) in w.accepted {
        assert Notified(w, u, ch, w.peers(u.caller).down);
      }
    }
    ProcessedKeeps(w, w');
  }

  lemma RefuseKeeps(w: World, t: Tag, change: Carried)
    requires Inv(w) && Ready(w, t)
    ensures Inv(w.(refused := w.refused + {(t, change)}))
  {
    var w' := w.(refused := w.refused + {(t, change)});
    forall u, ch | (u, ch) in w'.accepted ensures Notified(w', u, ch, w'.peers(u.caller).down) {
      assert Notified(w, u, ch, w.peers(u.caller).down);
    }
    ProcessedKeeps(w, w');
  }

  /** The notes of an accepted change are in its causer's channel. */
  ghost predicate NotesOut(w: World, p: PeerId, m: Up) {
    m.Change? && m.cause.Some? && Owns(w, p, m.change.path) ==>
      var c := m.cause.value.caller;
      forall f: FetchId :: (c, f) in w.fetches && Matches(w.fetches[(c, f)], m.change.path) ==>
        Note(f, Changed, m.change, m.cause) in w.peers(c).down
  }

  lemma FetchesConsistent(w: World, c: PeerId, f: FetchId)
    requires Inv(w) && (c, f) in w.fetches
    ensures f < w.peers(c).nextFetch && (f in w.peers(c).table ==> w.fetches[(c, f)] == w.peers(c).table[f])
  {
    assert PeerInv(w, c);
  }

  /** A fetch or unfetch is recorded. */
  lemma RecordFetch(w: World, p: PeerId)
    requires Inv(w) && w.peers(p).up != [] && (w.peers(p).up[0].Fetch? || w.peers(p).up[0].Unfetch?)
    ensures Inv(Record(w, p, w.peers(p).up[0], false))
  {
    assert PeerInv(w, p);
    var m := w.peers(p).up[0];
    var w' := Record(w, p, m, false);
    assert m in w.peers(p).up;
    assert m.Fetch? ==> m == Fetch(m.fetch, m.matcher, m.mode);
    forall c: PeerId, f: FetchId | (c, f) in w'.fetches
      ensures f < w.peers(c).nextFetch && (f in w.peers(c).table ==> w'.fetches[(c, f)] == w.peers(c).table[f])
    {
      if (c, f) in w.fetches { FetchesConsistent(w, c, f); }
    }
    FetchesKeep(w, w');
  }

  /** The daemon records the next message of `p` before removing it from the channel. */
  lemma RecordKeeps(w: World, p: PeerId)
    requires Inv(w) && w.peers(p).up != []
    requires NotesOut(w, p, w.peers(p).up[0])
    ensures Inv(Record(w, p, w.peers(p).up[0], false))
  {
    assert PeerInv(w, p);
    var m := w.peers(p).up[0];
    match m
    case Fetch(_, _, _) => RecordFetch(w, p);
    case Unfetch(_) => RecordFetch(w, p);
    case Change(change, cause) =>
      if cause.Some? {
        if Owns(w, p, change.path) {
          AcceptKeeps(w, cause.value, change);
          SamePeers(w.(accepted := w.accepted + {(cause.value, change)}), Record(w, p, m, false));
        } else {
          RefuseKeeps(w, cause.value, change);
        }
      } else {
        SamePeers(w, Record(w, p, m, false));
      }
    case _ => SamePeers(w, Record(w, p, m, false));
  }

  /** Recording looks only at the daemon's state, so it commutes with the channel. */
  lemma TakeKeeps(w: World, p: PeerId)
    requires Inv(w) && w.peers(p).up != []
    requires NotesOut(w, p, w.peers(p).up[0])
    ensures Inv(Take(w, p, false))
  {
    RecordKeeps(w, p);
    RecordedPop(w, p, Record(w, p, w.peers(p).up[0], false));
    ForwardedOk(w, p, Record(With(w, p, w.peers(p).(up := w.peers(p).up[1..])), p, w.peers(p).up[0], false));
  }

  /** A fetch whose refusal is under way may be barred. */
  lemma BarKeeps(w: World, p: PeerId, f: FetchId)
    requires Inv(w) && f < w.peers(p).nextFetch
    requires f in w.peers(p).table ==> Warned(w.peers(p), f, w.peers(p).down)
    ensures Inv(w.(barred := w.barred + {(p, f)}))
  {
    var w' := w.(barred := w.barred + {(p, f)});
    forall t, change | (t, change) in w'.accepted ensures Notified(w', t, change, w'.peers(t.caller).down) {
      assert Notified(w, t, change, w.peers(t.caller).down);
    }
    forall c: PeerId ensures PeerInv(w', c) {
      assert PeerInv(w, c);
      BarParts(w, w', c);
      assert BarredOk(w', c);
    }
  }

  lemma BarParts(w: World, w': World, c: PeerId)
    requires PeerInv(w, c) && w' == w.(barred := w'.barred) && w.barred <= w'.barred
    ensures SentOk(w', c) && SetsOk(w', c) && AnswersOk(w', c) && CausesOk(w', c) && ResultsOk(w', c)
  {
    forall t | Ready(w, t) ensures Ready(w', t) { }
    forall f: FetchId, before | f in w.peers(c).table && Reaches(w, c, f, before) ensures Reaches(w', c, f, before) { }
    forall t, change, before | Notified(w, t, change, before) ensures Notified(w', t, change, before) { }
  }

  /** A refused fetch is answered instead; the answer precedes everything sent later. */
  lemma RefuseFetchKeeps(w: World, p: PeerId)
    requires Inv(w) && w.peers(p).up != [] && w.peers(p).up[0].Fetch? && FetchAnswer(w, p, w.peers(p).up[0], true)
    ensures Inv(Take(w, p, true))
  {
    var x, m := w.peers(p), w.peers(p).up[0];
    var w1 := Forwarded(w, Forward(w, p, m, true));
    assert PeerInv(w, p) && m in x.up && m == Fetch(m.fetch, m.matcher, m.mode);
    if m.mode != NoResult { ForwardKeeps(w, p, Refusal(m.fetch, m.mode == Sync)); }
    RefusedPop(w1, p);
    var w2 := Record(w1, p, m, true);
    SamePeers(With(w2, p, w2.peers(p).(up := x.up[1..])), Take(w, p, true));
  }

  lemma RefusedPop(w: World, p: PeerId)
    requires Inv(w) && w.peers(p).up != [] && w.peers(p).up[0].Fetch?
    requires var m, x := w.peers(p).up[0], w.peers(p);
             (p, m.fetch) in w.barred || (m.mode != NoResult && Refusal(m.fetch, m.mode == Sync) in x.down)
    ensures var w2 := Record(w, p, w.peers(p).up[0], true);
            Inv(With(w2, p, w.peers(p).(up := w.peers(p).up[1..])))
  {
    var m := w.peers(p).up[0];
    assert PeerInv(w, p) && m in w.peers(p).up && m == Fetch(m.fetch, m.matcher, m.mode);
    if (p, m.fetch) !in w.fetches { BarKeeps(w, p, m.fetch); }
    PopKeeps(Record(w, p, m, true), p);
  }

  lemma RecordedPop(w: World, p: PeerId, w1: World)
    requires w.peers(p).up != [] && w1 == Record(w, p, w.peers(p).up[0], false) && Inv(w1)
    ensures Inv(Record(With(w, p, w.peers(p).(up := w.peers(p).up[1..])), p, w.peers(p).up[0], false))
  {
    var m, y := w.peers(p).up[0], w.peers(p).(up := w.peers(p).up[1..]);
    RecordAgrees(w, p, y, m);
    PopKeeps(w1, p);
    SamePeers(With(w1, p, y), Record(With(w, p, y), p, m, false));
  }

  /** Recording looks only at the daemon's own state. */
  lemma RecordAgrees(w: World, p: PeerId, y: Peer, m: Up)
    ensures var w1, w2 := Record(w, p, m, false), Record(With(w, p, y), p, m, false);
            && w1.peers == w.peers && w2.peers == With(w, p, y).peers
            && w2.fetches == w1.fetches && w2.barred == w1.barred
            && w2.accepted == w1.accepted && w2.refused == w1.refused
            && (m.Fetch? ==> (p, m.fetch) in w1.fetches)
            && (m.Change? && m.cause.Some? ==> Processed(w1, m.cause.value, m.change))
  {
    assert forall path :: Owns(With(w, p, y), p, path) == Owns(w, p, path);
  }

  lemma ForwardedOk(w: World, p: PeerId, w2: World)
    requires Inv(w) && w.peers(p).up != [] && Inv(w2)
    requires w2 == Record(With(w, p, w.peers(p).(up := w.peers(p).up[1..])), p, w.peers(p).up[0], false)
    ensures Inv(Forwarded(w2, Forward(w, p, w.peers(p).up[0], false)))
  {
    assert PeerInv(w, p);
    var m := w.peers(p).up[0];
    if m.Set? {
      SetReady(w, p);
      var to := Forward(w, p, m, false);
      ReadyGrows(w, w2, Tag(p, m.req));
      ForwardKeeps(w2, to.value.0, to.value.1);
    } else if m.Respond? && m.answer.tag in w.waiting {
      var a := m.answer;
      assert w.peers(p).up[..0] == [];
      if a.carried.Some? && (a.tag, a.carried.value) !in w.refused {
        assert (a.tag, a.carried.value) in w.accepted;
        assert Notified(w2, a.tag, a.carried.value, w2.peers(a.tag.caller).down);
      }
      ForwardKeeps(w2, a.tag.caller, Result(a.tag.req, a.ok, a.carried));
    }
  }

  lemma MayNote(w: World, p: PeerId, m: Up, refuse: bool, batch: Batch)
    requires DaemonMay(w, p, m, refuse, batch)
    ensures OnlyNotes(batch) && NotesOut(Broadcast(w, batch), p, m)
  {
    forall q: PeerId, n | n in batch(q) ensures n.Note? { }
  }

  lemma DaemonKeeps(w: World, p: PeerId, refuse: bool, batch: Batch)
    requires Inv(w) && Enabled(w, Daemon(p, refuse, batch))
    ensures Inv(Moved(w, Daemon(p, refuse, batch)))
  {
    MayNote(w, p, w.peers(p).up[0], refuse, batch);
    BroadcastKeeps(w, batch);
    if refuse { RefuseFetchKeeps(Broadcast(w, batch), p); } else { TakeKeeps(Broadcast(w, batch), p); }
  }

  lemma DisconnectKeeps(w: World, step: Step)
    requires Inv(w) && step.Disconnect? && Enabled(w, step)
    ensures Inv(Moved(w, step))
  {
    var p, z := step.p, PeerStep(w.peers(step.p), step);
    BroadcastKeeps(w, step.batch);
    var w1 := Broadcast(w, step.batch);
    CloseKeeps(w1, p);
    var w2 := Closed(w1, p);
    ForgetKeeps(w2, p);
    ResetKeeps(Forgotten(w2, p), p, z);
    SamePeers(With(Forgotten(w2, p), p, z), Forget(With(w1, p, z), p));
  }

  /** Nothing is sent or awaited on the old connection any more. */
  function Closed(w: World, p: PeerId): World {
    With(w, p, w.peers(p).(sent := {}, open := map[], answering := None, up := []))
  }

  lemma CloseKeeps(w: World, p: PeerId)
    requires Inv(w)
    ensures Inv(Closed(w, p))
  {
    assert PeerInv(w, p);
    var y := Closed(w, p).peers(p);
    SameResults(w, p, y);
    forall t | Ready(w, t) ensures Ready(With(w, p, y), t) { ReadyKept(w, p, y, t); }
    UpdateKeeps(w, p, y);
  }

  lemma ResetKeeps(w: World, p: PeerId, z: Peer)
    requires Inv(w) && z == w.peers(p).(table := z.table, down := [], rejected := {})
    requires w.peers(p) == w.peers(p).(sent := {}, open := map[], answering := None, up := [])
    requires forall f: FetchId :: f in z.table ==> f in w.peers(p).table && z.table[f] == w.peers(p).table[f]
    requires forall f: FetchId :: (p, f) !in w.barred
    ensures Inv(With(w, p, z))
  {
    assert PeerInv(w, p);
    UpdateKeeps(w, p, z);
  }

  /** What the daemon forgets about the fetches of a disconnected peer. */
  function Forgotten(w: World, p: PeerId): World {
    w.(fetches := map k | k in w.fetches && k.0 != p :: w.fetches[k], barred := set k | k in w.barred && k.0 != p)
  }

  lemma ForgetKeeps(w: World, p: PeerId)
    requires Inv(w) && w.peers(p).open == map[] && w.peers(p).sent == {} && w.peers(p).up == []
    ensures Inv(Forgotten(w, p))
  {
    var w' := Forgotten(w, p);
    forall t, change, before | Notified(w, t, change, before) ensures Notified(w', t, change, before) { }
    forall c: PeerId ensures PeerInv(w', c) {
      assert PeerInv(w, c);
      ForgetParts(w, p, c);
    }
  }

  lemma ForgetParts(w: World, p: PeerId, c: PeerId)
    requires PeerInv(w, c) && w.peers(p).open == map[] && w.peers(p).sent == {} && w.peers(p).up == []
    ensures PeerInv(Forgotten(w, p), c)
  {
    var w' := Forgotten(w, p);
    forall t | Ready(w, t) ensures Ready(w', t) { }
    forall t, change, before | Notified(w, t, change, before) ensures Notified(w', t, change, before) { }
    forall f: FetchId, before | c != p && f in w.peers(c).table && Reaches(w, c, f, before)
      ensures Reaches(w', c, f, before)
    { }
    assert ResultsOk(w', c);
  }

  lemma StepKeepsInv(w: World, step: Step)
    requires Inv(w) && Enabled(w, step)
    ensures Inv(Apply(w, step))
  {
    MoveKeepsInv(w, step);
    SamePeers(Moved(w, step), Apply(w, step));
  }

  lemma MoveKeepsInv(w: World, step: Step)
    requires Inv(w) && Enabled(w, step)
    ensures Inv(Moved(w, step))
  {
    match step
    case AddFetch(_, _, _) => NewFetch(w, step);
    case SendFetch(p, f, m, mode) => FetchSent(w, p, f, m, mode);
    case Return(p, f) => ReturnKeeps(w, p, f);
    case RemoveFetch(p, f) => DropFetch(w, p, f);
    case SendUnfetch(p, f) => PushUnfetch(w, p, f);
    case SetState(_, _, _) => SetStateKeeps(w, step);
    case Notify(p, path, v) => PushPlain(w, p, Change(Carried(path, v), None));
    case AddState(_, _) => SamePeers(w, Moved(w, step));
    case SendAdd(p, path, v) => PushPlain(w, p, Declare(path, v));
    case Unregister(_, _) => SamePeers(w, Moved(w, step));
    case RemoveState(_, _) => SamePeers(w, Moved(w, step));
    case SendRemove(p, path) => PushPlain(w, p, Withdraw(path));
    case Daemon(p, refuse, batch) => DaemonKeeps(w, p, refuse, batch);
    case Deliver(p, outcome) =>
      if w.peers(p).down[0].Routed? && !outcome.Ignored? { DeliverRouted(w, step); } else { DeliverPlain(w, step); }
    case SendResponse(_, _) => SendResponseKeeps(w, step);
    case Disconnect(_, _, _, _) => DisconnectKeeps(w, step);
  }

  // ---- runs ----

  const IDLE := Peer(map[], {}, 0, 0, map[], None, [], [], {}, {}, {})

  ghost predicate IsRun(ws: seq<World>, steps: seq<Step>) {
    && |ws| == |steps| + 1
    && (forall p: PeerId :: ws[0].peers(p) == IDLE)
    && ws[0].fetches == map[] && ws[0].barred == {} && ws[0].accepted == {} && ws[0].refused == {}
    && ws[0].registered == {} && ws[0].removed == {}
    && forall i {:trigger steps[i]} :: 0 <= i < |steps| ==>
         Enabled(ws[i], steps[i]) && ws[i + 1] == Apply(ws[i], steps[i])
  }

  lemma {:induction false} RunInv(ws: seq<World>, steps: seq<Step>, i: nat)
    requires IsRun(ws, steps) && i < |ws|
    ensures Inv(ws[i])
  {
    if i == 0 {
      forall c: PeerId ensures PeerInv(ws[0], c) { }
    } else {
      RunInv(ws, steps, i - 1);
      StepKeepsInv(ws[i - 1], steps[i - 1]);
    }
  }

  /**
   Read your writes: when the result of a set that carried a change reaches the
   caller's callback, every still registered matching fetch that the caller sent
   earlier on the same connection has already run with that change. There are two
   exceptions: the daemon refused the change because the owner had given up the path,
   or it refused the fetch and the synchronous call that asked for it has not returned.
   */
  lemma SetSeenBeforeResult(ws: seq<World>, steps: seq<Step>, i: nat, s: ReqId, change: Carried, f: FetchId)
    requires IsRun(ws, steps) && i < |steps| && steps[i].Deliver?
    requires var x := ws[i].peers(steps[i].p);
             && x.down[0] == Result(s, true, Some(change))
             && Live(x, s, f) && Matches(x.table[f], change.path)
    requires (Tag(steps[i].p, s), change) !in ws[i].refused
    ensures var x := ws[i].peers(steps[i].p);
            || Note(f, Changed, change, Some(Tag(steps[i].p, s))) in x.log
            || ((steps[i].p, f) in ws[i].barred && f in x.rejected && f in x.calling)
  {
    var p, w := steps[i].p, ws[i];
    RunInv(ws, steps, i);
    assert PeerInv(w, p);
    assert Notified(w, Tag(p, s), change, w.peers(p).down[..0]);
  }

  /** The daemon takes a change for a path it does not attribute to the sender. */
  ghost predicate GivenUp(w: World, step: Step, t: Tag, change: Carried) {
    && step.Daemon? && w.peers(step.p).up != [] && w.peers(step.p).up[0] == Change(change, Some(t))
    && !Owns(w, step.p, change.path)
  }

  lemma RefusalStep(w: World, step: Step, t: Tag, change: Carried)
    requires Enabled(w, step) && (t, change) in Apply(w, step).refused && (t, change) !in w.refused
    ensures GivenUp(w, step, t, change)
  {
    if step.Daemon? {
      var m := w.peers(step.p).up[0];
      assert Owns(Broadcast(w, step.batch), step.p, change.path) == Owns(w, step.p, change.path);
      assert m.Change?;
    }
  }

  /** Changes are refused only after the owner has given up the path. */
  lemma {:induction false} RefusedMeansGivenUp(ws: seq<World>, steps: seq<Step>, i: nat, t: Tag, change: Carried)
    requires IsRun(ws, steps) && i < |ws| && (t, change) in ws[i].refused
    ensures exists j :: 0 <= j < i && GivenUp(ws[j], steps[j], t, change)
  {
    if (t, change) in ws[i - 1].refused {
      RefusedMeansGivenUp(ws, steps, i - 1, t, change);
    } else {
      RefusalStep(ws[i - 1], steps[i - 1], t, change);
    }
  }
}
