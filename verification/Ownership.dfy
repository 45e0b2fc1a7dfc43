/**
 Registration of states and methods at the daemon. A path is registered locally
 before the daemon agrees and rolled back when the daemon refuses, the send fails
 or the request is cancelled. No lock spans a call, so registering, storing the
 result callback and sending are separate steps here, and so are the parts of
 `stop()` and the two halves of an error completion: taking the request out and
 undoing the registration. The model follows one peer, its connection and what the
 daemon attributes to that connection.
 */
module Ownership {
  import opened Common

  type Id = nat
  type CallId = nat

  datatype Kind = StateKind | MethodKind

  /** An entry of the state or the method registry. */
  datatype Item = Item(kind: Kind, path: Path)

  datatype Up = Add(path: Path, id: Option<Id>) | Remove(path: Path)
  datatype Reply = Reply(id: Id, error: bool)

  /** A call between its steps: registered with the callback yet to be stored, or about to send. */
  datatype Call = Begun(item: Item) | Ready(message: Up)

  /**
   `open` holds the requests whose completion would undo a registration, `failing`
   those whose send failed and whose error is not yet delivered. `undoing` holds the
   error completions between taking the request out and unregistering: by the result
   callback, or by the woken thread of a synchronous call. `owned` is what the daemon
   attributes to this connection.
   */
  datatype World = World(
    linkUp: bool,
    registered: set<Item>,
    calls: map<CallId, Call>,
    nextId: Id,
    open: map<Id, Item>,
    failing: set<Id>,
    undoing: map<Id, Item>,
    up: seq<Up>,
    down: seq<Reply>,
    owned: set<Path>)

  const INIT := World(true, {}, map[], 0, map[], {}, map[], [], [], {})

  datatype Step =
    | Register(call: CallId, item: Item, result: bool)  // an add begins, with or without a result
    | Store(call: CallId)
    | Send(call: CallId, ok: bool)
    | Unregister(call: CallId, item: Item)              // a removal begins
    | Daemon(accept: bool)         // the daemon takes the next message
    | Deliver                      // the peer takes the next reply
    | NotifierFires(id: Id)
    | Undo(id: Id)
    | LinkLost                     // the daemon sees the connection break
    | Disconnect                   // stop() closes the connection,
    | ClearTable(kind: Kind)       // clears states and methods
    | CancelAll                    // and cancels the requests of every peer of the process
    | Start

  predicate Registered(w: World, p: Path) {
    Item(StateKind, p) in w.registered || Item(MethodKind, p) in w.registered
  }

  /** Completing request `id`. */
  function Complete(w: World, id: Id, error: bool): World {
    if id !in w.open then w
    else w.(open := w.open - {id}, undoing := if error then w.undoing[id := w.open[id]] else w.undoing)
  }

  predicate Enabled(w: World, step: Step) {
    match step
    case Register(c, _, _) => c !in w.calls
    case Store(c) => c in w.calls && w.calls[c].Begun?
    case Send(c, _) => c in w.calls && w.calls[c].Ready?
    case Unregister(c, item) => c !in w.calls && item.path != ""  // removing an empty path does nothing
    case Daemon(accept) => w.up != [] && (accept ==> w.up[0].Add? && w.up[0].path !in w.owned)
    case Deliver => w.down != []
    case NotifierFires(id) => id in w.failing
    case Undo(id) => id in w.undoing
    case LinkLost => w.linkUp
    case Start => !w.linkUp
    case _ => true
  }

  function StoreStep(w: World, c: CallId): World
    requires c in w.calls && w.calls[c].Begun?
  {
    w.(nextId := w.nextId + 1, open := w.open[w.nextId := w.calls[c].item],
       calls := w.calls[c := Ready(Add(w.calls[c].item.path, Some(w.nextId)))])
  }

  /** A message handed to the socket arrives only while the link is up; errors are noted for requests with an id. */
  function SendStep(w: World, c: CallId, ok: bool): World
    requires c in w.calls && w.calls[c].Ready?
  {
    var m, w1 := w.calls[c].message, w.(calls := w.calls - {c});
    if ok then if w.linkUp then w1.(up := w.up + [m]) else w1
    else if IdOf(m).Some? then w1.(failing := w.failing + {m.id.value}) else w1
  }

  function IdOf(m: Up): Option<Id> {
    if m.Add? then m.id else None
  }

  function DaemonStep(w: World, accept: bool): World
    requires w.up != []
  {
    var w1 := w.(up := w.up[1..]);
    match w.up[0]
    case Remove(path) => w1.(owned := w.owned - {path})
    case Add(path, id) =>
      w1.(owned := if accept then w.owned + {path} else w.owned,
          down := if id.Some? then w.down + [Reply(id.value, !accept)] else w.down)
  }

  function Apply(w: World, step: Step): World
    requires Enabled(w, step)
  {
    match step
    case Register(c, item, result) =>
      w.(registered := w.registered + {item},
         calls := w.calls[c := if result then Begun(item) else Ready(Add(item.path, None))])
    case Store(c) => StoreStep(w, c)
    case Send(c, ok) => SendStep(w, c, ok)
    case Unregister(c, item) =>
      w.(registered := w.registered - {item}, calls := w.calls[c := Ready(Remove(item.path))])
    case Daemon(accept) => DaemonStep(w, accept)
    case Deliver => Complete(w.(down := w.down[1..]), w.down[0].id, w.down[0].error)
    case NotifierFires(id) => Complete(w.(failing := w.failing - {id}), id, true)
    case Undo(id) => w.(registered := w.registered - {w.undoing[id]}, undoing := w.undoing - {id})
    case LinkLost => w.(linkUp := false, up := [], owned := {})
    case Disconnect => w.(linkUp := false, up := [], down := [], owned := {})
    case ClearTable(kind) => w.(registered := set item | item in w.registered && item.kind != kind)
    case CancelAll => w.(open := map[], failing := {}, undoing := w.undoing + w.open)
    case Start => w.(linkUp := true, up := [], down := [])
  }

  // ---- the property ----

  /** A call is about to send a REMOVE of `p`. */
  predicate Removing(w: World, p: Path) {
    exists c :: c in w.calls && w.calls[c] == Ready(Remove(p))
  }

  /** Each path attributed to this peer is in its local registry or has a REMOVE in flight. */
  ghost predicate Accounted(w: World) {
    forall p :: p in w.owned ==> Registered(w, p) || Remove(p) in w.up || Removing(w, p)
  }

  // ---- the invariant ----

  /** Where the daemon's claim to a path may come from: it has it, or an ADD in flight, or one about to be sent. */
  datatype Source = Held | Flying(i: nat) | Calling(c: CallId)

  /** No REMOVE of `p` follows. */
  predicate Stays(up: seq<Up>, i: nat, p: Path) {
    forall j :: i <= j < |up| ==> up[j] != Remove(p)
  }

  predicate IsAdd(call: Call, p: Path) {
    match call
    case Begun(item) => item.path == p
    case Ready(m) => m.Add? && m.path == p
  }

  predicate IsSource(w: World, p: Path, o: Source) {
    match o
    case Held => p in w.owned && Stays(w.up, 0, p) && !Removing(w, p)
    case Flying(i) => i < |w.up| && w.up[i].Add? && w.up[i].path == p && Stays(w.up, i, p) && !Removing(w, p)
    case Calling(c) => c in w.calls && IsAdd(w.calls[c], p)
  }

  /** The registration that a refusal of `m` would undo. */
  function AtRisk(open: map<Id, Item>, m: Up): Option<Item> {
    if IdOf(m).Some? && IdOf(m).value in open then Some(open[IdOf(m).value]) else None
  }

  function CallRisk(open: map<Id, Item>, call: Call): Option<Item> {
    match call
    case Begun(item) => Some(item)
    case Ready(m) => AtRisk(open, m)
  }

  /** The ADD may still end in an error that undoes `item`. */
  predicate IsThreat(w: World, item: Item, x: Source) {
    match x
    case Held => false
    case Flying(i) => i < |w.up| && AtRisk(w.open, w.up[i]) == Some(item)
    case Calling(c) => c in w.calls && CallRisk(w.open, w.calls[c]) == Some(item)
  }

  predicate ErrorReply(w: World, r: Reply, item: Item) {
    r.error && r.id in w.open && w.open[r.id] == item
  }

  /** An error that will undo `item` is under way. */
  predicate Erring(w: World, item: Item) {
    || (exists r :: r in w.down && ErrorReply(w, r, item))
    || (exists id :: id in w.failing && id in w.open && w.open[id] == item)
    || (exists id :: id in w.undoing && w.undoing[id] == item)
  }

  /** Something else than `o` may undo `item`. */
  ghost predicate Threatened(w: World, item: Item, o: Source) {
    Erring(w, item) || exists x :: x != o && IsThreat(w, item, x)
  }

  /** If the daemon's claim comes from `o`, the registration `item` survives. */
  ghost predicate SecuredBy(w: World, item: Item, o: Source) {
    item in w.registered && !Threatened(w, item, o)
  }

  ghost predicate Secure(w: World, p: Path, o: Source) {
    exists kind :: SecuredBy(w, Item(kind, p), o)
  }

  /** Whatever the daemon's claim to `p` comes from, some registration of `p` survives. */
  ghost predicate PathInv(w: World, p: Path) {
    forall o :: IsSource(w, p, o) ==> Secure(w, p, o)
  }

  /** Request ids are fresh and each message belongs to its request. */
  ghost predicate Numbered(w: World) {
    && (forall id :: id in w.open || id in w.failing ==> id < w.nextId)
    && (forall id :: id in w.undoing ==> id < w.nextId && id !in w.open)
    && (forall x, id: Id :: Carries(w, x, id) ==> id < w.nextId)
    && (forall i :: 0 <= i < |w.up| ==> MessageOk(w, w.up[i]))
    && (forall c :: c in w.calls && w.calls[c].Ready? ==> MessageOk(w, w.calls[c].message))
  }

  predicate MessageOk(w: World, m: Up) {
    AtRisk(w.open, m).Some? ==> AtRisk(w.open, m).value.path == m.path
  }

  /** What carries a request id on its way to its completion. */
  datatype Carrier = InCall(c: CallId) | InUp(i: nat) | InDown(i: nat) | InFailing

  predicate Carries(w: World, x: Carrier, id: Id) {
    match x
    case InCall(c) => c in w.calls && w.calls[c].Ready? && IdOf(w.calls[c].message) == Some(id)
    case InUp(i) => i < |w.up| && IdOf(w.up[i]) == Some(id)
    case InDown(i) => i < |w.down| && w.down[i].id == id
    case InFailing => id in w.failing
  }

  ghost predicate Distinct(w: World) {
    forall x, y, id: Id :: Carries(w, x, id) && Carries(w, y, id) ==> x == y
  }

  ghost predicate Inv(w: World) {
    && (forall p :: PathInv(w, p))
    && Numbered(w) && Distinct(w)
    && (!w.linkUp ==> w.up == [] && w.owned == {})
  }

  lemma InvAccounted(w: World)
    requires forall p :: PathInv(w, p)
    ensures Accounted(w)
  {
    forall p | p in w.owned && Remove(p) !in w.up && !Removing(w, p) ensures Registered(w, p) {
      assert PathInv(w, p) && IsSource(w, p, Held);
      var kind :| SecuredBy(w, Item(kind, p), Held);
      match kind case StateKind => case MethodKind =>
    }
  }

  // ---- steps ----

  /** The registration is gone or about to be undone. */
  predicate Hurt(w: World, item: Item) {
    item !in w.registered || Erring(w, item)
  }

  /** `item` was already hurt, or threatened by something that is not the origin of a claim any more. */
  ghost predicate WasHurt(w: World, w': World, p: Path, item: Item, back: Source -> Source) {
    || Hurt(w, item)
    || exists x :: IsThreat(w, item, x) && forall o :: IsSource(w', p, o) ==> back(o) != x
  }

  /** Every claim and every threat of `w'` continues one of `w`, and errors hit only what was threatened. */
  lemma Carry(w: World, w': World, p: Path, back: Source -> Source)
    requires PathInv(w, p)
    requires forall o :: IsSource(w', p, o) ==> IsSource(w, p, back(o))
    requires forall k, x :: IsThreat(w', Item(k, p), x) ==> IsThreat(w, Item(k, p), back(x))
    requires forall o, k, x :: IsSource(w', p, o) && IsThreat(w', Item(k, p), x) && back(o) == back(x) ==> o == x
    requires forall k :: Hurt(w', Item(k, p)) ==> WasHurt(w, w', p, Item(k, p), back)
    ensures PathInv(w', p)
  {
    forall o | IsSource(w', p, o) ensures Secure(w', p, o) {
      var kind :| SecuredBy(w, Item(kind, p), back(o));
      assert !WasHurt(w, w', p, Item(kind, p), back);
      forall x | IsThreat(w', Item(kind, p), x) ensures x == o { assert IsThreat(w, Item(kind, p), back(x)); }
      assert SecuredBy(w', Item(kind, p), o);
    }
  }

  lemma StoreKeeps(w: World, c: CallId, p: Path)
    requires PathInv(w, p) && Numbered(w) && Enabled(w, Store(c))
    ensures PathInv(StoreStep(w, c), p)
  {
    var w' := StoreStep(w, c);
    StoreRisks(w, c);
    forall o ensures IsSource(w', p, o) == IsSource(w, p, o) { }
    Carry(w, w', p, (o: Source) => o);
  }

  /** Storing the callback changes neither what is threatened nor what errs. */
  lemma StoreRisks(w: World, c: CallId)
    requires Numbered(w) && Enabled(w, Store(c))
    ensures var w' := StoreStep(w, c);
            && (forall item, x :: IsThreat(w', item, x) == IsThreat(w, item, x))
            && (forall item :: Erring(w', item) == Erring(w, item))
            && (forall p :: Removing(w', p) == Removing(w, p))
  {
    var w' := StoreStep(w, c);
    forall i | 0 <= i < |w.up| ensures AtRisk(w'.open, w.up[i]) == AtRisk(w.open, w.up[i]) {
      assert IdOf(w.up[i]).Some? ==> Carries(w, InUp(i), IdOf(w.up[i]).value);
    }
    forall d | d in w.calls && d != c ensures CallRisk(w'.open, w'.calls[d]) == CallRisk(w.open, w.calls[d]) {
      assert w.calls[d].Ready? && IdOf(w.calls[d].message).Some? ==>
          Carries(w, InCall(d), IdOf(w.calls[d].message).value);
    }
    forall r | r in w.down ensures r.id < w.nextId {
      var i :| 0 <= i < |w.down| && w.down[i] == r;
      assert Carries(w, InDown(i), r.id);
    }
  }

  lemma SentKeeps(w: World, c: CallId, p: Path)
    requires PathInv(w, p) && Enabled(w, Send(c, true)) && w.linkUp
    ensures PathInv(SendStep(w, c, true), p)
  {
    var w', n, m := SendStep(w, c, true), |w.up|, w.calls[c].message;
    var back := (o: Source) => if o == Flying(n) then Calling(c) else o;
    assert w'.up[n] == m && forall i :: 0 <= i < n ==> w'.up[i] == w.up[i];
    forall d | d in w'.calls ensures w'.calls[d] == w.calls[d] { }
    forall q | q != m.path || m.Add? ensures Removing(w', q) == Removing(w, q) { }
    Carry(w, w', p, back);
  }

  /** What is left when fewer claims and threats remain and nothing new goes wrong. */
  lemma FewerKeeps(w: World, w': World, p: Path)
    requires PathInv(w, p)
    requires forall o :: IsSource(w', p, o) ==> IsSource(w, p, o)
    requires forall k, x :: IsThreat(w', Item(k, p), x) ==> IsThreat(w, Item(k, p), x)
    requires forall k :: Hurt(w', Item(k, p)) ==> Hurt(w, Item(k, p))
    ensures PathInv(w', p)
  {
    Carry(w, w', p, (o: Source) => o);
  }

  /** A message handed to a dead link is lost. */
  lemma LostKeeps(w: World, c: CallId, p: Path)
    requires PathInv(w, p) && Enabled(w, Send(c, true)) && !w.linkUp && w.up == [] && w.owned == {}
    ensures PathInv(SendStep(w, c, true), p)
  {
    FewerKeeps(w, SendStep(w, c, true), p);
  }

  /** An ADD that cannot be sent claims nothing any more; its error hits what it put at risk. */
  lemma FailedAddKeeps(w: World, c: CallId, p: Path)
    requires PathInv(w, p) && Enabled(w, Send(c, false)) && w.calls[c].message.Add?
    ensures PathInv(SendStep(w, c, false), p)
  {
    var w' := SendStep(w, c, false);
    var back := (o: Source) => o;
    forall d | d in w'.calls ensures w'.calls[d] == w.calls[d] { }
    forall q ensures Removing(w', q) == Removing(w, q) { }
    forall k | Hurt(w', Item(k, p)) ensures WasHurt(w, w', p, Item(k, p), back) {
      if !Hurt(w, Item(k, p)) { assert IsThreat(w, Item(k, p), Calling(c)); }
    }
    Carry(w, w', p, back);
  }

  /** Where a claim or threat was before the daemon took the next message. */
  function Before(o: Source, taken: bool): Source {
    match o
    case Held => if taken then Flying(0) else Held
    case Flying(i) => Flying(i + 1)
    case Calling(c) => Calling(c)
  }

  /** An accepted ADD turns into what the daemon holds, a refused one into an error. */
  lemma DaemonKeeps(w: World, accept: bool, p: Path)
    requires PathInv(w, p) && Enabled(w, Daemon(accept))
    ensures PathInv(DaemonStep(w, accept), p)
  {
    var w', taken := DaemonStep(w, accept), accept && w.up[0].path == p;
    var back := (o: Source) => Before(o, taken);
    forall i | 0 <= i < |w'.up| ensures w'.up[i] == w.up[i + 1] { }
    forall o | IsSource(w', p, o) ensures IsSource(w, p, back(o)) { DaemonSource(w, accept, p, o); }
    forall k | Hurt(w', Item(k, p)) ensures WasHurt(w, w', p, Item(k, p), back) {
      DaemonErrs(w, accept, Item(k, p));
      if !Hurt(w, Item(k, p)) { assert IsThreat(w, Item(k, p), Flying(0)); }
    }
    Carry(w, w', p, back);
  }

  lemma DaemonSource(w: World, accept: bool, p: Path, o: Source)
    requires Enabled(w, Daemon(accept)) && IsSource(DaemonStep(w, accept), p, o)
    ensures IsSource(w, p, Before(o, accept && w.up[0].path == p))
  {
    var w' := DaemonStep(w, accept);
    var i := if o.Flying? then o.i else 0;
    assert Removing(w', p) == Removing(w, p);
    if !o.Calling? {
      forall j | i + 1 <= j < |w.up| ensures w.up[j] != Remove(p) { assert w'.up[j - 1] == w.up[j]; }
    }
  }

  lemma DaemonErrs(w: World, accept: bool, item: Item)
    requires Enabled(w, Daemon(accept))
    ensures Erring(DaemonStep(w, accept), item) ==>
              Erring(w, item) || (!accept && AtRisk(w.open, w.up[0]) == Some(item))
  {
    var w' := DaemonStep(w, accept);
    if r :| r in w'.down && ErrorReply(w', r, item) && r !in w.down {
      assert IdOf(w.up[0]) == Some(r.id);
    }
    forall r | r in w'.down && ErrorReply(w', r, item) && r in w.down ensures ErrorReply(w, r, item) { }
  }

  lemma CompleteKeeps(w: World, id: Id, error: bool, p: Path)
    requires PathInv(w, p) && (error && id in w.open ==> Erring(w, w.open[id]))
    ensures PathInv(Complete(w, id, error), p)
  {
    var w' := Complete(w, id, error);
    forall m ensures AtRisk(w'.open, m).Some? ==> AtRisk(w'.open, m) == AtRisk(w.open, m) { }
    forall item ensures Erring(w', item) ==> Erring(w, item) { CompleteErrs(w, id, error, item); }
    FewerKeeps(w, w', p);
  }

  lemma CompleteErrs(w: World, id: Id, error: bool, item: Item)
    requires error && id in w.open ==> Erring(w, w.open[id])
    ensures Erring(Complete(w, id, error), item) ==> Erring(w, item)
  {
    var w' := Complete(w, id, error);
    forall r | r in w'.down && ErrorReply(w', r, item) ensures ErrorReply(w, r, item) { }
  }

  lemma DeliverKeeps(w: World, p: Path)
    requires PathInv(w, p) && w.down != []
    ensures PathInv(Apply(w, Deliver), p)
  {
    var r, w1 := w.down[0], w.(down := w.down[1..]);
    var w', w2 := Apply(w, Deliver), w.(undoing := Apply(w, Deliver).undoing);
    assert r.error && r.id in w.open ==> ErrorReply(w, r, w.open[r.id]);
    CompleteKeeps(w, r.id, r.error, p);
    var done := Complete(w, r.id, r.error);
    assert w' == done.(down := w.down[1..]);
    forall item ensures Erring(w', item) ==> Erring(done, item) { LessErring(done, w', item); }
    FewerKeeps(done, w', p);
  }

  lemma LessErring(w: World, w': World, item: Item)
    requires w'.open == w.open && w'.undoing == w.undoing && w'.failing <= w.failing
    requires forall r :: r in w'.down ==> r in w.down
    ensures Erring(w', item) ==> Erring(w, item)
  {
    forall r | r in w'.down && ErrorReply(w', r, item) ensures ErrorReply(w, r, item) { }
  }

  lemma NotifierKeeps(w: World, id: Id, p: Path)
    requires PathInv(w, p) && id in w.failing
    ensures PathInv(Apply(w, NotifierFires(id)), p)
  {
    var w', done := Apply(w, NotifierFires(id)), Complete(w, id, true);
    CompleteKeeps(w, id, true, p);
    forall item ensures Erring(w', item) ==> Erring(done, item) { LessErring(done, w', item); }
    FewerKeeps(done, w', p);
  }

  lemma UndoKeeps(w: World, id: Id, p: Path)
    requires PathInv(w, p) && id in w.undoing
    ensures PathInv(Apply(w, Undo(id)), p)
  {
    var w' := Apply(w, Undo(id));
    assert Erring(w, w.undoing[id]);
    forall item ensures Erring(w', item) ==> Erring(w, item) {
      forall r | r in w'.down && ErrorReply(w', r, item) ensures ErrorReply(w, r, item) { }
    }
    FewerKeeps(w, w', p);
  }

  /** Without a connection the daemon holds nothing and nothing is in flight. */
  lemma LinkKeeps(w: World, w': World, p: Path)
    requires PathInv(w, p) && w'.up == [] && w'.owned == {} && w'.registered == w.registered && w'.calls == w.calls
    requires w'.open == w.open && w'.undoing == w.undoing && w'.failing == w.failing
    requires forall r :: r in w'.down ==> r in w.down
    ensures PathInv(w', p)
  {
    forall item ensures Erring(w', item) ==> Erring(w, item) { LessErring(w, w', item); }
    FewerKeeps(w, w', p);
  }

  // ---- request ids ----

  /** Where the request id was before the step. */
  function CarrierBefore(w: World, step: Step, x: Carrier, id: Id): Carrier {
    match step
    case Send(c, _) => if x == InUp(|w.up|) || (x == InFailing && id !in w.failing) then InCall(c) else x
    case Daemon(_) => if x.InUp? then InUp(x.i + 1) else if x == InDown(|w.down|) then InUp(0) else x
    case Deliver => if x.InDown? then InDown(x.i + 1) else x
    case _ => x
  }

  lemma CarrierMoves(w: World, step: Step, x: Carrier, id: Id)
    requires Enabled(w, step) && Carries(Apply(w, step), x, id)
    ensures Carries(w, CarrierBefore(w, step, x, id), id) || (step.Store? && x == InCall(step.call) && id == w.nextId)
  {
    match step
    case Send(c, ok) => SendCarries(w, c, ok, x, id);
    case Daemon(accept) => DaemonCarries(w, accept, x, id);
    case Deliver => DeliverFrame(w);
    case _ =>
  }

  lemma SendCarries(w: World, c: CallId, ok: bool, x: Carrier, id: Id)
    requires Enabled(w, Send(c, ok)) && Carries(SendStep(w, c, ok), x, id)
    ensures Carries(w, CarrierBefore(w, Send(c, ok), x, id), id)
  {
  }

  lemma DaemonCarries(w: World, accept: bool, x: Carrier, id: Id)
    requires Enabled(w, Daemon(accept)) && Carries(DaemonStep(w, accept), x, id)
    ensures Carries(w, CarrierBefore(w, Daemon(accept), x, id), id)
  {
  }

  lemma DeliverFrame(w: World)
    requires w.down != []
    ensures var w' := Apply(w, Deliver);
            w'.calls == w.calls && w'.up == w.up && w'.failing == w.failing && w'.down == w.down[1..]
  {
  }

  lemma DistinctKept(w: World, step: Step)
    requires Numbered(w) && Distinct(w) && Enabled(w, step)
    ensures Distinct(Apply(w, step))
  {
    var w' := Apply(w, step);
    forall x, y, id: Id | Carries(w', x, id) && Carries(w', y, id) ensures x == y {
      CarrierMoves(w, step, x, id);
      CarrierMoves(w, step, y, id);
      CarriersApart(w, step, x, y, id);
    }
  }

  lemma CarriersApart(w: World, step: Step, x: Carrier, y: Carrier, id: Id)
    requires Enabled(w, step) && Carries(Apply(w, step), x, id) && Carries(Apply(w, step), y, id)
    requires CarrierBefore(w, step, x, id) == CarrierBefore(w, step, y, id)
    ensures x == y
  {
    if step.Send? { assert step.call !in Apply(w, step).calls; }
  }

  /** A request that is open was open before, or is being stored. */
  lemma OpenBefore(w: World, step: Step, id: Id)
    requires Enabled(w, step) && id in Apply(w, step).open
    ensures (id in w.open && Apply(w, step).open[id] == w.open[id]) || (step.Store? && id == w.nextId)
  {
  }

  lemma UndoingBefore(w: World, step: Step, id: Id)
    requires Numbered(w) && Enabled(w, step) && id in Apply(w, step).undoing
    ensures id < w.nextId && id !in Apply(w, step).open
  {
  }

  lemma NumbersKept(w: World, step: Step)
    requires Numbered(w) && Enabled(w, step)
    ensures Numbered(Apply(w, step))
  {
    var w' := Apply(w, step);
    forall id | id in w'.undoing ensures id < w'.nextId && id !in w'.open { UndoingBefore(w, step, id); }
    forall id | id in w'.open ensures id < w'.nextId { OpenBefore(w, step, id); }
    forall x, id: Id | Carries(w', x, id) ensures id < w'.nextId { CarrierMoves(w, step, x, id); }
    forall id | id in w'.failing ensures id < w'.nextId { assert Carries(w', InFailing, id); }
    MessagesKept(w, step);
  }

  lemma MessagesKept(w: World, step: Step)
    requires Numbered(w) && Enabled(w, step)
    ensures var w' := Apply(w, step);
            && (forall i :: 0 <= i < |w'.up| ==> MessageOk(w', w'.up[i]))
            && (forall c :: c in w'.calls && w'.calls[c].Ready? ==> MessageOk(w', w'.calls[c].message))
  {
    var w' := Apply(w, step);
    forall i | 0 <= i < |w'.up| ensures MessageOk(w', w'.up[i]) {
      if IdOf(w'.up[i]).Some? { MessageKept(w, step, InUp(i), IdOf(w'.up[i]).value); }
    }
    forall c | c in w'.calls && w'.calls[c].Ready? ensures MessageOk(w', w'.calls[c].message) {
      if IdOf(w'.calls[c].message).Some? { MessageKept(w, step, InCall(c), IdOf(w'.calls[c].message).value); }
    }
  }

  function MessageIn(w: World, x: Carrier): Up
    requires (x.InUp? && x.i < |w.up|) || (x.InCall? && x.c in w.calls && w.calls[x.c].Ready?)
  {
    if x.InUp? then w.up[x.i] else w.calls[x.c].message
  }

  lemma MessageKept(w: World, step: Step, x: Carrier, id: Id)
    requires Numbered(w) && Enabled(w, step) && (x.InUp? || x.InCall?) && Carries(Apply(w, step), x, id)
    ensures MessageOk(Apply(w, step), MessageIn(Apply(w, step), x))
  {
    CarrierMoves(w, step, x, id);
    if id in Apply(w, step).open { OpenBefore(w, step, id); }
    if Carries(w, CarrierBefore(w, step, x, id), id) {
      assert MessageOk(w, MessageIn(w, CarrierBefore(w, step, x, id)));
    }
  }

  // ---- what callers and the rest of the process have to respect ----

  function Other(item: Item): Item {
    item.(kind := if item.kind == StateKind then MethodKind else StateKind)
  }

  /** The registration cannot be undone by anything under way. `Held` is no threat. */
  ghost predicate Sheltered(w: World, item: Item) {
    SecuredBy(w, item, Held)
  }

  /**
   - An add begins only while nothing under way may undo its registration. If it may be
     undone itself, whatever else may claim the path leaves the registration under the
     other kind. Both are free if that registration is sheltered.
   - A removal begins only if every unsent add of the path leaves the registration under
     the other kind, and so for a table that is cleared and every claim.
   - A REMOVE fails to be sent only if every claim leaves some registration of the path.
   - Requests are cancelled only if every claim to their paths leaves a registration that
     is not among those cancelled.
   */
  ghost predicate Disciplined(w: World, step: Step) {
    match step
    case Register(_, item, result) =>
      || Sheltered(w, Other(item))
      || (&& !Threatened(w, item, Held)
          && (result ==> forall o :: IsSource(w, item.path, o) ==> SecuredBy(w, Other(item), o)))
    case Unregister(_, item) =>
      forall c :: IsSource(w, item.path, Calling(c)) ==> SecuredBy(w, Other(item), Calling(c))
    case Send(c, ok) =>
      ok || c !in w.calls || !w.calls[c].Ready? || w.calls[c].message.Add?
      || PathInv(w.(calls := w.calls - {c}), w.calls[c].message.path)
    case ClearTable(kind) =>
      forall item, o :: item in w.registered && item.kind == kind && IsSource(w, item.path, o) ==>
        SecuredBy(w, Other(item), o)
    case CancelAll =>
      forall id, o :: id in w.open && IsSource(w, w.open[id].path, o) ==> Survives(w, w.open[id].path, o)
    case _ => true
  }

  /** Some registration of `p` is left even if all open requests are cancelled. */
  ghost predicate Survives(w: World, p: Path, o: Source) {
    exists kind :: SecuredBy(w, Item(kind, p), o) && Item(kind, p) !in w.open.Values
  }

  /** Claims, threats and errors after a call has begun. */
  lemma CallBegun(w: World, step: Step)
    requires Enabled(w, step) && (step.Register? || step.Unregister?)
    ensures var w', p, c := Apply(w, step), step.item.path, step.call;
            && (forall q, o :: IsSource(w', q, o) <==>
                  if step.Unregister? && q == p then o.Calling? && IsSource(w, q, o)
                  else IsSource(w, q, o) || (step.Register? && q == p && o == Calling(c)))
            && (forall item, x :: IsThreat(w', item, x) <==>
                  IsThreat(w, item, x) || (step.Register? && step.result && item == step.item && x == Calling(c)))
            && (forall item :: Erring(w', item) <==> Erring(w, item))
  {
    var w' := Apply(w, step);
    forall d | d in w.calls ensures w'.calls[d] == w.calls[d] { }
    forall q ensures Removing(w', q) <==> Removing(w, q) || (step.Unregister? && q == step.item.path) {
      assert step.Unregister? ==> w'.calls[step.call] == Ready(Remove(step.item.path));
    }
    forall item ensures Erring(w', item) <==> Erring(w, item) { SameErring(w, w', item); }
  }

  lemma SameErring(w: World, w': World, item: Item)
    requires w'.open == w.open && w'.undoing == w.undoing && w'.failing == w.failing && w'.down == w.down
    ensures Erring(w', item) <==> Erring(w, item)
  {
    LessErring(w, w', item);
    LessErring(w', w, item);
  }

  lemma RegisterKeeps(w: World, step: Step, p: Path)
    requires PathInv(w, p) && step.Register? && Enabled(w, step) && Disciplined(w, step)
    ensures PathInv(Apply(w, step), p)
  {
    var w', item, c := Apply(w, step), step.item, step.call;
    CallBegun(w, step);
    forall o | IsSource(w', p, o) ensures Secure(w', p, o) {
      if p == item.path && Sheltered(w, Other(item)) {
        assert SecuredBy(w', Item(Other(item).kind, p), o);
      } else if p == item.path && o == Calling(c) {
        assert SecuredBy(w', Item(item.kind, p), o);
      } else if p == item.path && step.result {
        assert SecuredBy(w', Item(Other(item).kind, p), o);
      } else {
        var kind :| SecuredBy(w, Item(kind, p), o);
        assert SecuredBy(w', Item(kind, p), o);
      }
    }
  }

  lemma UnregisterKeeps(w: World, step: Step, p: Path)
    requires PathInv(w, p) && step.Unregister? && Enabled(w, step) && Disciplined(w, step)
    ensures PathInv(Apply(w, step), p)
  {
    var w', item := Apply(w, step), step.item;
    CallBegun(w, step);
    forall o | IsSource(w', p, o) ensures Secure(w', p, o) {
      if p == item.path {
        assert SecuredBy(w, Other(item), Calling(o.c));
        assert SecuredBy(w', Item(Other(item).kind, p), o);
      } else {
        var kind :| SecuredBy(w, Item(kind, p), o);
        assert SecuredBy(w', Item(kind, p), o);
      }
    }
  }

  lemma FailedRemoveKeeps(w: World, c: CallId, p: Path)
    requires PathInv(w, p) && Enabled(w, Send(c, false)) && w.calls[c].message.Remove? && Disciplined(w, Send(c, false))
    ensures PathInv(SendStep(w, c, false), p)
  {
    var w' := SendStep(w, c, false);
    if w.calls[c].message.path != p {
      forall d | d in w.calls && d != c ensures d in w'.calls && w'.calls[d] == w.calls[d] { }
      forall k ensures Erring(w', Item(k, p)) == Erring(w, Item(k, p)) { SameErring(w, w', Item(k, p)); }
      FewerKeeps(w, w', p);
    }
  }

  lemma ClearKeeps(w: World, kind: Kind, p: Path)
    requires PathInv(w, p) && Disciplined(w, ClearTable(kind))
    ensures PathInv(Apply(w, ClearTable(kind)), p)
  {
    var w' := Apply(w, ClearTable(kind));
    forall item ensures Erring(w', item) == Erring(w, item) { SameErring(w, w', item); }
    forall item, x ensures IsThreat(w', item, x) == IsThreat(w, item, x) { }
    forall o ensures IsSource(w', p, o) == IsSource(w, p, o) { }
    forall o | IsSource(w', p, o) ensures Secure(w', p, o) {
      var k :| SecuredBy(w, Item(k, p), o);
      var kept := if k == kind then Other(Item(k, p)) else Item(k, p);
      assert SecuredBy(w, kept, o);
      assert SecuredBy(w', Item(kept.kind, p), o);
    }
  }

  /** Cancelling hurts the registrations of the open requests and no others. */
  lemma CancelHurts(w: World, item: Item)
    ensures Erring(Apply(w, CancelAll), item) ==> Erring(w, item) || item in w.open.Values
    ensures item in w.open.Values ==> Erring(Apply(w, CancelAll), item)
  {
    var w' := Apply(w, CancelAll);
    if item in w.open.Values {
      var id :| id in w.open && w.open[id] == item;
      assert w'.undoing[id] == item;
    }
  }

  lemma CancelKeeps(w: World, p: Path)
    requires PathInv(w, p) && Disciplined(w, CancelAll)
    ensures PathInv(Apply(w, CancelAll), p)
  {
    var w' := Apply(w, CancelAll);
    forall o ensures IsSource(w', p, o) == IsSource(w, p, o) { }
    forall item, x ensures IsThreat(w', item, x) ==> IsThreat(w, item, x) { }
    forall o | IsSource(w', p, o) ensures Secure(w', p, o) {
      var k :| SecuredBy(w, Item(k, p), o);
      if Item(k, p) in w.open.Values {
        var id :| id in w.open && w.open[id] == Item(k, p);
        k :| SecuredBy(w, Item(k, p), o) && Item(k, p) !in w.open.Values;
      }
      CancelHurts(w, Item(k, p));
      assert SecuredBy(w', Item(k, p), o);
    }
  }

  lemma PathsKept(w: World, step: Step, p: Path)
    requires Inv(w) && Enabled(w, step) && Disciplined(w, step)
    ensures PathInv(Apply(w, step), p)
  {
    assert PathInv(w, p);
    match step
    case Register(_, _, _) => RegisterKeeps(w, step, p);
    case Store(c) => StoreKeeps(w, c, p);
    case Send(c, ok) =>
      if !ok { if w.calls[c].message.Add? { FailedAddKeeps(w, c, p); } else { FailedRemoveKeeps(w, c, p); } }
      else if w.linkUp { SentKeeps(w, c, p); } else { LostKeeps(w, c, p); }
    case Unregister(_, _) => UnregisterKeeps(w, step, p);
    case Daemon(accept) => DaemonKeeps(w, accept, p);
    case Deliver => DeliverKeeps(w, p);
    case NotifierFires(id) => NotifierKeeps(w, id, p);
    case Undo(id) => UndoKeeps(w, id, p);
    case LinkLost => LinkKeeps(w, Apply(w, step), p);
    case Disconnect => LinkKeeps(w, Apply(w, step), p);
    case ClearTable(kind) => ClearKeeps(w, kind, p);
    case CancelAll => CancelKeeps(w, p);
    case Start => LinkKeeps(w, Apply(w, step), p);
  }

  /** Rollbacks, send failures, disconnects and reconnects all keep the invariant. */
  lemma StepKeepsInv(w: World, step: Step)
    requires Inv(w) && Enabled(w, step) && Disciplined(w, step)
    ensures Inv(Apply(w, step))
  {
    forall p ensures PathInv(Apply(w, step), p) { PathsKept(w, step, p); }
    NumbersKept(w, step);
    DistinctKept(w, step);
  }

  ghost predicate IsRun(ws: seq<World>, steps: seq<Step>) {
    && |ws| == |steps| + 1
    && ws[0] == INIT
    && forall i :: 0 <= i < |steps| ==> Enabled(ws[i], steps[i]) && ws[i + 1] == Apply(ws[i], steps[i])
  }

  lemma {:induction false} RunInv(ws: seq<World>, steps: seq<Step>, i: nat)
    requires IsRun(ws, steps) && i < |ws|
    requires forall j :: 0 <= j < i ==> Disciplined(ws[j], steps[j])
    ensures Inv(ws[i])
  {
    if i > 0 {
      RunInv(ws, steps, i - 1);
      StepKeepsInv(ws[i - 1], steps[i - 1]);
    }
  }

  /**
   In every reachable state of a disciplined run, each path the daemon attributes to
   this peer is in its local registry or has a REMOVE in flight.
   */
  lemma PathsAccounted(ws: seq<World>, steps: seq<Step>, i: nat)
    requires IsRun(ws, steps) && i < |ws|
    requires forall j :: 0 <= j < i ==> Disciplined(ws[j], steps[j])
    ensures Accounted(ws[i])
  {
    RunInv(ws, steps, i);
    InvAccounted(ws[i]);
  }

  // ---- what a caller can check ----

  /** No call is between registering a path and sending its ADD. */
  predicate NoUnsentAdds(w: World) {
    forall c :: c in w.calls ==> w.calls[c].Ready? && w.calls[c].message.Remove?
  }

  predicate Unsent(w: World, p: Path) {
    exists c :: c in w.calls && IsAdd(w.calls[c], p)
  }

  /**
   A caller's rules: add a path only when no add of it is unsent or unanswered, and
   with a result only when it is not registered under that kind; do not remove it while
   its ADD is unsent; see that a REMOVE on a live connection is sent; stop a peer of the
   process only when no ADD is unsent or, on a live connection, unanswered.
   */
  predicate Cautious(w: World, step: Step) {
    match step
    case Register(_, item, result) =>
      && !Unsent(w, item.path)
      && (forall id :: id in w.open ==> w.open[id].path != item.path)
      && (forall id :: id in w.undoing ==> w.undoing[id].path != item.path)
      && (result ==> item !in w.registered)
    case Unregister(_, item) => !Unsent(w, item.path)
    case Send(c, ok) => ok || !w.linkUp || (c in w.calls && w.calls[c].Ready? && w.calls[c].message.Add?)
    case ClearTable(_) => !w.linkUp && NoUnsentAdds(w)
    case CancelAll => NoUnsentAdds(w) && (w.linkUp ==> w.open == map[])
    case _ => true
  }

  lemma CautiousIsDisciplined(w: World, step: Step)
    requires Inv(w) && Enabled(w, step) && Cautious(w, step)
    ensures Disciplined(w, step)
  {
    match step
    case Register(_, item, result) =>
      Unthreatened(w, item);
      Unthreatened(w, Other(item));
      assert PathInv(w, item.path);
      forall o | result && IsSource(w, item.path, o) ensures SecuredBy(w, Other(item), o) {
        var kind :| SecuredBy(w, Item(kind, item.path), o);
        assert Item(kind, item.path) != item;
      }
    case Unregister(_, item) => forall c ensures !IsSource(w, item.path, Calling(c)) { }
    case Send(c, ok) =>
      if !ok && w.calls[c].message.Remove? { LostRemove(w, c); }
    case ClearTable(_) => forall p, o ensures !IsSource(w, p, o) { }
    case CancelAll => if !w.linkUp { forall p, o ensures !IsSource(w, p, o) { } }
    case _ =>
  }

  /** Without unsent or unanswered adds of its path nothing threatens a registration. */
  lemma Unthreatened(w: World, item: Item)
    requires Numbered(w) && !Unsent(w, item.path)
    requires forall id :: id in w.open ==> w.open[id].path != item.path
    requires forall id :: id in w.undoing ==> w.undoing[id].path != item.path
    ensures forall o :: !Threatened(w, item, o)
  {
    forall x ensures !IsThreat(w, item, x) {
      if x.Calling? && x.c in w.calls { assert !IsAdd(w.calls[x.c], item.path); }
    }
    forall r ensures !ErrorReply(w, r, item) { }
  }

  lemma LostRemove(w: World, c: CallId)
    requires Inv(w) && Enabled(w, Send(c, false)) && !w.linkUp && w.calls[c].message.Remove?
    ensures PathInv(w.(calls := w.calls - {c}), w.calls[c].message.path)
  {
    var p, w' := w.calls[c].message.path, w.(calls := w.calls - {c});
    assert PathInv(w, p);
    forall k ensures Erring(w', Item(k, p)) == Erring(w, Item(k, p)) { SameErring(w, w', Item(k, p)); }
    FewerKeeps(w, w', p);
  }

  lemma {:induction false} CautiousInv(ws: seq<World>, steps: seq<Step>, i: nat)
    requires IsRun(ws, steps) && i < |ws|
    requires forall j :: 0 <= j < i ==> Cautious(ws[j], steps[j])
    ensures Inv(ws[i])
  {
    if i > 0 {
      CautiousInv(ws, steps, i - 1);
      CautiousIsDisciplined(ws[i - 1], steps[i - 1]);
      StepKeepsInv(ws[i - 1], steps[i - 1]);
    }
  }

  /** A peer used by these rules always knows the paths the daemon attributes to it. */
  lemma CautiousPathsAccounted(ws: seq<World>, steps: seq<Step>, i: nat)
    requires IsRun(ws, steps) && i < |ws|
    requires forall j :: 0 <= j < i ==> Cautious(ws[j], steps[j])
    ensures Accounted(ws[i])
  {
    CautiousInv(ws, steps, i);
    InvAccounted(ws[i]);
  }

  // ---- completed requests, over all runs ----

  lemma {:induction false} RunNumbered(ws: seq<World>, steps: seq<Step>, i: nat)
    requires IsRun(ws, steps) && i < |ws|
    ensures Numbered(ws[i]) && Distinct(ws[i])
  {
    if i > 0 {
      RunNumbered(ws, steps, i - 1);
      NumbersKept(ws[i - 1], steps[i - 1]);
      DistinctKept(ws[i - 1], steps[i - 1]);
    }
  }

  /** The reply to request `id`, or the deferred error, is delivered. */
  predicate Answers(w: World, step: Step, id: Id) {
    (step == Deliver && w.down != [] && w.down[0].id == id) || step == NotifierFires(id)
  }

  predicate AnswersWell(w: World, step: Step, id: Id) {
    step == Deliver && w.down != [] && w.down[0] == Reply(id, false)
  }

  /** What is undone was being undone or open before. */
  lemma UndoneBefore(w: World, step: Step, id: Id)
    requires Enabled(w, step) && id in Apply(w, step).undoing
    ensures (id in w.undoing && Apply(w, step).undoing[id] == w.undoing[id])
            || (id in w.open && Apply(w, step).undoing[id] == w.open[id])
    ensures id !in w.undoing ==> !AnswersWell(w, step, id)
  {
  }

  lemma AnsweredCloses(w: World, step: Step, id: Id)
    requires Numbered(w) && Enabled(w, step) && Answers(w, step, id)
    ensures id < Apply(w, step).nextId && id !in Apply(w, step).open
  {
    assert step == Deliver ==> Carries(w, InDown(0), id);
  }

  /** An answered request is never open again, and a request answered without an error is never undone. */
  lemma {:induction false} AnsweredStaysClosed(ws: seq<World>, steps: seq<Step>, i: nat, j: nat, id: Id)
    requires IsRun(ws, steps) && i < j < |ws| && Answers(ws[i], steps[i], id)
    ensures id < ws[j].nextId && id !in ws[j].open
    ensures id in ws[i].open && AnswersWell(ws[i], steps[i], id) ==> id !in ws[j].undoing
  {
    RunNumbered(ws, steps, i);
    if i < j - 1 {
      AnsweredStaysClosed(ws, steps, i, j - 1, id);
      ClosedStays(ws[j - 1], steps[j - 1], id);
    } else {
      AnsweredCloses(ws[i], steps[i], id);
      if id in ws[j].undoing { UndoneBefore(ws[i], steps[i], id); }
    }
  }

  /** Request ids are not used again. */
  lemma ClosedStays(w: World, step: Step, id: Id)
    requires Enabled(w, step) && id < w.nextId && id !in w.open
    ensures id < Apply(w, step).nextId && id !in Apply(w, step).open
    ensures id !in w.undoing ==> id !in Apply(w, step).undoing
  {
    if id in Apply(w, step).open { OpenBefore(w, step, id); }
    if id in Apply(w, step).undoing { UndoneBefore(w, step, id); }
  }

  /** `item` is registered and no request that is open, being undone or yet to be stored concerns it. */
  ghost predicate Established(w: World, item: Item) {
    && item in w.registered
    && (forall id :: id in w.open ==> w.open[id] != item)
    && (forall id :: id in w.undoing ==> w.undoing[id] != item)
    && (forall c :: c in w.calls ==> w.calls[c] != Begun(item))
  }

  /** The user adds or removes `item`, or the peer stops. */
  predicate Touches(step: Step, item: Item) {
    match step
    case Register(_, i, _) => i == item
    case Unregister(_, i) => i == item
    case ClearTable(kind) => kind == item.kind
    case _ => false
  }

  lemma EstablishedStays(w: World, step: Step, item: Item)
    requires Enabled(w, step) && Established(w, item) && !Touches(step, item)
    ensures Established(Apply(w, step), item)
  {
    var w' := Apply(w, step);
    forall id | id in w'.open ensures w'.open[id] != item { OpenBefore(w, step, id); }
    forall id | id in w'.undoing ensures w'.undoing[id] != item { UndoneBefore(w, step, id); }
  }

  lemma AcceptedEstablishes(w: World, id: Id)
    requires w.down != [] && w.down[0] == Reply(id, false) && id in w.open && w.open[id] in w.registered
    requires Established(w.(open := w.open - {id}), w.open[id])
    ensures Established(Apply(w, Deliver), w.open[id])
  {
  }

  /**
   Once an add is answered well and no other one of the same registration is unanswered,
   nothing but its user and the peer's own stop takes it out: not another peer's stop,
   no late error, no rollback of other requests, no reconnect.
   */
  lemma {:induction false} AcceptedAddStays(ws: seq<World>, steps: seq<Step>, i: nat, j: nat, id: Id)
    requires IsRun(ws, steps) && i < j < |ws| && AnswersWell(ws[i], steps[i], id) && id in ws[i].open
    requires Established(ws[i].(open := ws[i].open - {id}), ws[i].open[id])
    requires forall k :: i < k < j ==> !Touches(steps[k], ws[i].open[id])
    ensures Established(ws[j], ws[i].open[id])
  {
    if i < j - 1 {
      AcceptedAddStays(ws, steps, i, j - 1, id);
      EstablishedStays(ws[j - 1], steps[j - 1], ws[i].open[id]);
    } else {
      AcceptedEstablishes(ws[i], id);
    }
  }

  /** The daemon took the request of `r` in step `j` and answered it so, on the connection of step `i`. */
  ghost predicate AnsweredAt(ws: seq<World>, steps: seq<Step>, j: nat, i: nat, r: Reply)
    requires |ws| == |steps| + 1
  {
    && j < i <= |steps| && steps[j] == Daemon(!r.error) && ws[j].up != [] && IdOf(ws[j].up[0]) == Some(r.id)
    && forall k :: j < k < i ==> steps[k] != Start && steps[k] != Disconnect
  }

  /** A reply is what the daemon decided on this connection; nothing of an old connection is delivered. */
  lemma {:induction false} ReplyOrigin(ws: seq<World>, steps: seq<Step>, i: nat, r: Reply) returns (j: nat)
    requires IsRun(ws, steps) && i < |ws| && r in ws[i].down
    ensures AnsweredAt(ws, steps, j, i, r)
  {
    ReplyBefore(ws[i - 1], steps[i - 1], r);
    if r in ws[i - 1].down && steps[i - 1] != Start && steps[i - 1] != Disconnect {
      j := ReplyOrigin(ws, steps, i - 1, r);
    } else {
      j := i - 1;
    }
  }

  lemma ReplyBefore(w: World, step: Step, r: Reply)
    requires Enabled(w, step) && r in Apply(w, step).down
    ensures || (r in w.down && step != Start && step != Disconnect)
            || (step == Daemon(!r.error) && IdOf(w.up[0]) == Some(r.id))
  {
    if step == Deliver { DeliverFrame(w); }
  }

  /** In step `j` a send of request `id` fails, and no cancellation follows before state `i`. */
  ghost predicate FailedAt(ws: seq<World>, steps: seq<Step>, j: nat, i: nat, id: Id)
    requires |ws| == |steps| + 1
  {
    && j < i <= |steps| && steps[j].Send? && !steps[j].ok && steps[j].call in ws[j].calls
    && ws[j].calls[steps[j].call].Ready? && IdOf(ws[j].calls[steps[j].call].message) == Some(id)
    && forall k :: j < k < i ==> steps[k] != CancelAll
  }

  /** A deferred error belongs to a send that failed, and a cancellation takes it away. */
  lemma {:induction false} FailureOrigin(ws: seq<World>, steps: seq<Step>, i: nat, id: Id) returns (j: nat)
    requires IsRun(ws, steps) && i < |ws| && id in ws[i].failing
    ensures FailedAt(ws, steps, j, i, id)
  {
    FailingBefore(ws[i - 1], steps[i - 1], id);
    if id in ws[i - 1].failing && steps[i - 1] != CancelAll {
      j := FailureOrigin(ws, steps, i - 1, id);
    } else {
      j := i - 1;
    }
  }

  lemma FailingBefore(w: World, step: Step, id: Id)
    requires Enabled(w, step) && id in Apply(w, step).failing
    ensures || (id in w.failing && step != CancelAll)
            || (step.Send? && !step.ok && IdOf(w.calls[step.call].message) == Some(id))
  {
  }
}
