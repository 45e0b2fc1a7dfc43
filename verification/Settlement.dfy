/**
 A routed set is carried by one message at a time, from the caller through the
 daemon to the owner and back as a change. So the daemon accepts or refuses what a
 set causes, never both, and refusal is exactly what the caller's fetches miss.
 */
module Settlement {
  import opened Common
  import Matching
  import opened Causality

  /** A place in the channel of a peer to (`up`) or from the daemon. */
  datatype Slot = Slot(peer: PeerId, up: bool, index: nat)

  function UpTag(p: PeerId, m: Up): Option<Tag> {
    match m
    case Set(req, _, _) => Some(Tag(p, req))
    case Change(_, cause) => cause
    case _ => None
  }

  function DownTag(d: Down): Option<Tag> {
    if d.Routed? then Some(d.tag) else None
  }

  /** The set that the message in a slot carries on, if any. */
  function TagAt(w: World, a: Slot): Option<Tag> {
    var x := w.peers(a.peer);
    if a.up then if a.index < |x.up| then UpTag(a.peer, x.up[a.index]) else None
    else if a.index < |x.down| then DownTag(x.down[a.index]) else None
  }

  predicate Issued(w: World, t: Tag) {
    t.req < w.peers(t.caller).nextReq
  }

  ghost predicate Unsettled(w: World, t: Tag) {
    forall change :: (t, change) !in w.accepted && (t, change) !in w.refused
  }

  /** No set is carried by two messages. */
  ghost predicate Single(w: World) {
    forall a, b :: TagAt(w, a).Some? && TagAt(w, a) == TagAt(w, b) ==> a == b
  }

  /** A set still under way is issued and not yet settled; settled ones are so in one way. */
  ghost predicate Settled(w: World) {
    && (forall a :: TagAt(w, a).Some? ==> Issued(w, TagAt(w, a).value) && Unsettled(w, TagAt(w, a).value))
    && (forall t, change :: (t, change) in w.accepted ==> Issued(w, t))
    && (forall t, change :: (t, change) in w.refused ==> Issued(w, t))
    && (forall t, c1, c2 :: (t, c1) in w.accepted ==> (t, c2) !in w.refused)
  }

  /** Every note of a change caused by a set is about an accepted change. */
  ghost predicate NotesAccepted(w: World) {
    forall q: PeerId, n :: (n in w.peers(q).down || n in w.peers(q).log) && n.Note? && n.cause.Some? ==>
      (n.cause.value, n.change) in w.accepted
  }

  ghost predicate Exact(w: World) {
    Single(w) && Settled(w) && NotesAccepted(w)
  }

  /** Every carrying message of `w'` continues a different one of `w`. */
  ghost predicate Continues(w: World, w': World, back: Slot -> Slot) {
    && (forall a :: TagAt(w', a).Some? ==> TagAt(w, back(a)) == TagAt(w', a))
    && (forall a, b :: TagAt(w', a).Some? && TagAt(w', b).Some? && back(a) == back(b) ==> a == b)
  }

  /** The set `t` was carried by a message that nothing continues. */
  ghost predicate Ends(w: World, w': World, back: Slot -> Slot, t: Tag) {
    exists s :: TagAt(w, s) == Some(t) && forall a :: TagAt(w', a).Some? ==> back(a) != s
  }

  lemma ContinuesSingle(w: World, w': World, back: Slot -> Slot)
    requires Single(w) && Continues(w, w', back)
    ensures Single(w')
  {
    forall a, b | TagAt(w', a).Some? && TagAt(w', a) == TagAt(w', b) ensures a == b {
      assert TagAt(w, back(a)) == TagAt(w, back(b));
    }
  }

  /** A step settles at most the sets whose last message it takes. */
  ghost predicate Settles(w: World, w': World, back: Slot -> Slot) {
    && w'.accepted >= w.accepted && w'.refused >= w.refused
    && (w'.accepted == w.accepted || w'.refused == w.refused)
    && (forall t, change :: (t, change) in w'.accepted - w.accepted ==> Ends(w, w', back, t))
    && (forall t, change :: (t, change) in w'.refused - w.refused ==> Ends(w, w', back, t))
  }

  lemma EndedUnsettled(w: World, w': World, back: Slot -> Slot, t: Tag)
    requires Single(w) && Settled(w) && Continues(w, w', back) && Ends(w, w', back, t)
    ensures Unsettled(w, t) && Issued(w, t)
    ensures forall a :: TagAt(w', a) != Some(t)
  {
    var s :| TagAt(w, s) == Some(t) && forall a :: TagAt(w', a).Some? ==> back(a) != s;
    forall a | TagAt(w', a).Some? ensures TagAt(w', a) != Some(t) {
      assert TagAt(w, back(a)) == TagAt(w', a);
    }
  }

  lemma MoveSettled(w: World, w': World, back: Slot -> Slot)
    requires Single(w) && Settled(w) && Continues(w, w', back) && Settles(w, w', back)
    requires forall q: PeerId :: w'.peers(q).nextReq >= w.peers(q).nextReq
    ensures Settled(w')
  {
    forall t | Ends(w, w', back, t) ensures Unsettled(w, t) && Issued(w, t) && forall a :: TagAt(w', a) != Some(t) {
      EndedUnsettled(w, w', back, t);
    }
    forall a | TagAt(w', a).Some? ensures Issued(w', TagAt(w', a).value) && Unsettled(w', TagAt(w', a).value) {
      assert TagAt(w, back(a)) == TagAt(w', a);
    }
  }

  /** A step that carries sets on, settles those it ends and sends only notes of accepted changes. */
  lemma MoveKeeps(w: World, w': World, back: Slot -> Slot)
    requires Exact(w) && Continues(w, w', back) && Settles(w, w', back)
    requires forall q: PeerId :: w'.peers(q).nextReq >= w.peers(q).nextReq
    requires forall q: PeerId, n :: (n in w'.peers(q).down || n in w'.peers(q).log) && n.Note? && n.cause.Some? ==>
               n in w.peers(q).down || n in w.peers(q).log || (n.cause.value, n.change) in w'.accepted
    ensures Exact(w')
  {
    ContinuesSingle(w, w', back);
    MoveSettled(w, w', back);
  }

  // ---- steps ----

  /** One peer appends at most a message that carries no set. */
  lemma LocalKeeps(w: World, p: PeerId, y: Peer)
    requires Exact(w)
    requires var x := w.peers(p); y.down == x.down && y.log == x.log && y.nextReq >= x.nextReq
    requires y.up == w.peers(p).up || exists m :: UpTag(p, m) == None && y.up == w.peers(p).up + [m]
    ensures Exact(With(w, p, y))
  {
    MoveKeeps(w, With(w, p, y), (a: Slot) => a);
  }

  lemma SameExact(w: World, w': World)
    requires Exact(w) && w'.peers == w.peers && w'.accepted == w.accepted && w'.refused == w.refused
    ensures Exact(w')
  {
    forall a ensures TagAt(w', a) == TagAt(w, a) { }
  }

  /** A new set has a number that no message and no settled change knows. */
  lemma SetKeeps(w: World, step: Step)
    requires Exact(w) && step.SetState?
    ensures Exact(Apply(w, step))
  {
    var w', x := Apply(w, step), w.peers(step.p);
    var t := Tag(step.p, x.nextReq);
    forall a ensures TagAt(w', a) == if a == Slot(step.p, true, |x.up|) then Some(t) else TagAt(w, a) { }
    assert Unsettled(w', t);
  }

  /** Where the message in slot `a` was before `p` took its next message and sent what is in `y`. */
  function Earlier(x: Peer, y: Peer, p: PeerId, a: Slot): Slot {
    if |y.up| > |x.up| && a == Slot(p, true, |y.up| - 1) then Slot(p, false, 0)
    else if a.peer == p && !a.up then a.(index := a.index + 1)
    else a
  }

  /** `up'` continues `up` by at most one message that carries a set, namely `t`, and it comes last. */
  ghost predicate Answers(up: seq<Up>, up': seq<Up>, t: Option<Tag>) {
    up' == up || exists more, m ::
      up' == up + more + [m] && m.Change? && m.cause == t && more <= [Withdraw(m.change.path)]
  }

  /** A peer answers a routed set with at most one change, caused by that set. */
  lemma HandledShape(x: Peer, d: Down, outcome: Outcome)
    ensures var y := Handled(x, d, outcome);
            && y.down == x.down && y.nextReq == x.nextReq && y.log <= x.log + {d}
            && Answers(x.up, y.up, DownTag(d))
  {
    var y := Handled(x, d, outcome);
    if d.Routed? && outcome.Done? && outcome.change.Some? {
      assert y.up == x.up + [] + [Change(Carried(d.path, outcome.change.value), Some(d.tag))];
    }
    if d.Routed? && outcome.GaveUp? {
      assert y.up == x.up + [Withdraw(d.path)] + [Change(Carried(d.path, outcome.value), Some(d.tag))];
    }
  }

  lemma DeliverContinues(w: World, p: PeerId, y: Peer, a: Slot)
    requires w.peers(p).down != [] && y.down == w.peers(p).down[1..]
    requires Answers(w.peers(p).up, y.up, DownTag(w.peers(p).down[0]))
    ensures TagAt(With(w, p, y), a).Some? ==> TagAt(w, Earlier(w.peers(p), y, p, a)) == TagAt(With(w, p, y), a)
  {
    var x := w.peers(p);
    if a.peer == p && a.up && y.up != x.up {
      var more, m :| y.up == x.up + more + [m] && m.Change? && m.cause == DownTag(x.down[0])
                     && more <= [Withdraw(m.change.path)];
      assert |x.up| <= a.index < |y.up| - 1 ==> y.up[a.index] == more[a.index - |x.up|];
    }
  }

  /** A delivered message is gone; a change takes the place of the routed set that made it. */
  lemma DeliverKeeps(w: World, step: Step)
    requires Exact(w) && step.Deliver? && Enabled(w, step)
    ensures Exact(Apply(w, step))
  {
    var p, x, w' := step.p, w.peers(step.p), Apply(w, step);
    HandledShape(x.(down := x.down[1..]), x.down[0], step.outcome);
    var back := (a: Slot) => Earlier(x, w'.peers(p), p, a);
    forall a | TagAt(w', a).Some? ensures TagAt(w, back(a)) == TagAt(w', a) {
      DeliverContinues(w, p, w'.peers(p), a);
    }
    MoveKeeps(w, w', back);
  }

  lemma DisconnectKeeps(w: World, step: Step)
    requires Exact(w) && step.Disconnect? && Enabled(w, step)
    ensures Exact(Apply(w, step))
  {
    var w' := Apply(w, step);
    forall a | TagAt(w', a).Some? ensures TagAt(w, a) == TagAt(w', a) { BatchUntagged(w, step.batch, a); }
    MoveKeeps(w, w', (a: Slot) => a);
  }

  /** Notes carry no set. */
  lemma BatchUntagged(w: World, batch: Batch, a: Slot)
    requires OnlyNotes(batch)
    ensures TagAt(Broadcast(w, batch), a) == TagAt(w, a)
  {
    var down, more := w.peers(a.peer).down, batch(a.peer);
    assert Broadcast(w, batch).peers(a.peer).down == down + more;
    if !a.up && |down| <= a.index < |down + more| {
      var n := more[a.index - |down|];
      assert n in batch(a.peer) && n.Note?;
      assert (down + more)[a.index] == n;
    }
  }

  /** Where the message in slot `a` was before the daemon took the next message of `p`. */
  function Before(w: World, p: PeerId, batch: Batch, a: Slot): Slot
    requires w.peers(p).up != []
  {
    var m := w.peers(p).up[0];
    if m.Set? && m.path in w.states && a == End(w, batch, w.states[m.path].owner) then Slot(p, true, 0)
    else if a.peer == p && a.up then a.(index := a.index + 1)
    else a
  }

  function End(w: World, batch: Batch, q: PeerId): Slot {
    Slot(q, false, |w.peers(q).down + batch(q)|)
  }

  /** The channels after the daemon took the next message of `p`. */
  lemma TakeShape(w: World, step: Step, q: PeerId)
    requires step.Daemon? && Enabled(w, step)
    ensures var w', m, p := Apply(w, step), w.peers(step.p).up[0], step.p;
            var to := Forward(w, p, m, step.refuse);
            && w'.peers(q) == w.peers(q).(up := w'.peers(q).up, down := w'.peers(q).down)
            && w'.peers(q).up == (if q == p then w.peers(p).up[1..] else w.peers(q).up)
            && w'.peers(q).down == w.peers(q).down + step.batch(q)
                                   + (if to.Some? && to.value.0 == q then [to.value.1] else [])
  {
    var p, m, w1 := step.p, w.peers(step.p).up[0], Broadcast(w, step.batch);
    assert Forward(w1, p, m, step.refuse) == Forward(w, p, m, step.refuse);
    var w2 := With(w1, p, w1.peers(p).(up := w.peers(p).up[1..]));
    RecordShape(w2, p, m, step.refuse);
    assert Apply(w, step).peers(q) == Forwarded(Record(w2, p, m, step.refuse), Forward(w, p, m, step.refuse)).peers(q);
  }

  lemma RecordShape(w: World, p: PeerId, m: Up, refuse: bool)
    ensures Record(w, p, m, refuse).peers == w.peers
  {
  }

  /** The daemon passes a set on and ends a change. */
  lemma TakeContinues(w: World, step: Step, a: Slot)
    requires step.Daemon? && Enabled(w, step) && OnlyNotes(step.batch)
    ensures var w' := Apply(w, step);
            && (TagAt(w', a).Some? ==> TagAt(w, Before(w, step.p, step.batch, a)) == TagAt(w', a))
            && (w.peers(step.p).up[0].Change? && TagAt(w', a).Some? ==>
                  Before(w, step.p, step.batch, a) != Slot(step.p, true, 0))
  {
    TakeShape(w, step, a.peer);
    BatchUntagged(w, step.batch, a);
    assert Broadcast(w, step.batch).peers(a.peer).up == w.peers(a.peer).up;
  }

  lemma DaemonContinues(w: World, step: Step, back: Slot -> Slot)
    requires step.Daemon? && Enabled(w, step) && OnlyNotes(step.batch)
    requires forall a :: back(a) == Before(w, step.p, step.batch, a)
    ensures Continues(w, Apply(w, step), back)
  {
    var w' := Apply(w, step);
    forall a | TagAt(w', a).Some? ensures TagAt(w, back(a)) == TagAt(w', a) { TakeContinues(w, step, a); }
    forall a, b | back(a) == back(b) ensures a == b { }
  }

  lemma DaemonSettles(w: World, step: Step, back: Slot -> Slot)
    requires step.Daemon? && Enabled(w, step) && OnlyNotes(step.batch)
    requires forall a :: back(a) == Before(w, step.p, step.batch, a)
    ensures Settles(w, Apply(w, step), back)
  {
    var w', s := Apply(w, step), Slot(step.p, true, 0);
    var m := w.peers(step.p).up[0];
    if m.Change? && m.cause.Some? {
      forall a | TagAt(w', a).Some? ensures back(a) != s { TakeContinues(w, step, a); }
      assert TagAt(w, s) == m.cause && Ends(w, w', back, m.cause.value);
    }
  }

  lemma DaemonNotes(w: World, step: Step, q: PeerId, n: Down)
    requires step.Daemon? && Enabled(w, step) && n.Note? && n.cause.Some?
    requires n in Apply(w, step).peers(q).down
    ensures n in w.peers(q).down || (n.cause.value, n.change) in Apply(w, step).accepted
  {
    var m := w.peers(step.p).up[0];
    TakeShape(w, step, q);
  }

  lemma DaemonKeeps(w: World, step: Step)
    requires Exact(w) && step.Daemon? && Enabled(w, step)
    ensures Exact(Apply(w, step))
  {
    var w' := Apply(w, step);
    MayNote(w, step.p, w.peers(step.p).up[0], step.refuse, step.batch);
    var back := (a: Slot) => if w.peers(step.p).up != [] then Before(w, step.p, step.batch, a) else a;
    DaemonContinues(w, step, back);
    DaemonSettles(w, step, back);
    forall q: PeerId ensures w'.peers(q).nextReq == w.peers(q).nextReq && w'.peers(q).log == w.peers(q).log {
      TakeShape(w, step, q);
    }
    forall q: PeerId, n | n in w'.peers(q).down && n.Note? && n.cause.Some?
      ensures n in w.peers(q).down || (n.cause.value, n.change) in w'.accepted
    {
      DaemonNotes(w, step, q, n);
    }
    MoveKeeps(w, w', back);
  }

  lemma StepKeepsExact(w: World, step: Step)
    requires Exact(w) && Enabled(w, step)
    ensures Exact(Apply(w, step))
  {
    match step
    case SetState(_, _, _) => SetKeeps(w, step);
    case Deliver(_, _) => DeliverKeeps(w, step);
    case Daemon(_, _, _) => DaemonKeeps(w, step);
    case Disconnect(_, _, _, _) => DisconnectKeeps(w, step);
    case _ =>
      LocalKeeps(w, step.p, PeerStep(w.peers(step.p), step));
      SameExact(Moved(w, step), Apply(w, step));
  }

  lemma {:induction false} RunExact(ws: seq<World>, steps: seq<Step>, i: nat)
    requires IsRun(ws, steps) && i < |ws|
    ensures Exact(ws[i])
  {
    if i > 0 {
      RunExact(ws, steps, i - 1);
      StepKeepsExact(ws[i - 1], steps[i - 1]);
    }
  }

  /** In every run the daemon settles what a set causes in one way. */
  lemma AcceptedXorRefused(ws: seq<World>, steps: seq<Step>, i: nat, t: Tag, c1: Carried, c2: Carried)
    requires IsRun(ws, steps) && i < |ws| && (t, c1) in ws[i].accepted
    ensures (t, c2) !in ws[i].refused
  {
    RunExact(ws, steps, i);
  }

  // ---- fetches that the daemon refused ----

  /** A fetch that the daemon refused hears nothing of what the peer's open sets cause. */
  ghost predicate Heard(w: World, c: PeerId) {
    var x := w.peers(c);
    && (forall f: FetchId :: (c, f) in w.barred ==> (c, f) !in w.fetches)
    && (forall n :: (n in x.down || n in x.log) && n.Note? && n.cause.Some? ==> HeardNote(w, c, n))
  }

  predicate HeardNote(w: World, c: PeerId, n: Down)
    requires n.Note? && n.cause.Some?
  {
    var x, t := w.peers(c), n.cause.value;
    n.fetch < x.nextFetch && (t.caller == c && t.req in x.open && n.fetch in x.table ==> (c, n.fetch) in w.fetches)
  }

  lemma LocalHeard(w: World, step: Step, c: PeerId)
    requires Exact(w) && Heard(w, c) && Enabled(w, step) && !step.Daemon? && !step.Disconnect? && !step.Deliver?
    ensures Heard(Apply(w, step), c)
  {
    var x, w' := w.peers(c), Apply(w, step);
    var y := w'.peers(c);
    assert y.down == x.down && y.log == x.log;
    forall n | (n in x.down || n in x.log) && n.Note? && n.cause.Some? ensures HeardNote(w', c, n) {
      assert HeardNote(w, c, n);
      assert (n.cause.value, n.change) in w.accepted;
    }
  }

  lemma DeliverHeard(w: World, step: Step, c: PeerId)
    requires Heard(w, c) && Enabled(w, step) && step.Deliver?
    ensures Heard(Apply(w, step), c)
  {
    var x, w' := w.peers(c), Apply(w, step);
    var y := w'.peers(c);
    if c == step.p { DeliverShrinks(x, step.outcome); }
    forall n | (n in y.down || n in y.log) && n.Note? && n.cause.Some? ensures HeardNote(w', c, n) {
      assert HeardNote(w, c, n);
    }
  }

  lemma DeliverShrinks(x: Peer, outcome: Outcome)
    requires x.down != []
    ensures var y := Handled(x.(down := x.down[1..]), x.down[0], outcome);
            && (forall n :: n in y.down || n in y.log ==> n in x.down || n in x.log)
            && y.nextFetch == x.nextFetch && y.table.Keys <= x.table.Keys && y.open.Keys <= x.open.Keys
  {
  }

  lemma DaemonHeard(w: World, step: Step, c: PeerId)
    requires Inv(w) && Heard(w, c) && step.Daemon? && Enabled(w, step)
    ensures Heard(Apply(w, step), c)
  {
    var w', y := Apply(w, step), Apply(w, step).peers(c);
    assert PeerInv(w, c);
    TakeShape(w, step, c);
    FetchesAfter(w, step, c);
    forall n | (n in y.down || n in y.log) && n.Note? && n.cause.Some? ensures HeardNote(w', c, n) {
      if n !in w.peers(c).down && n !in w.peers(c).log {
        assert n in step.batch(c);
        NewNote(w, step, c, n);
      }
    }
  }

  /** The daemon drops only fetches that are not registered any more, and establishes none that it refused. */
  lemma FetchesAfter(w: World, step: Step, c: PeerId)
    requires PeerInv(w, c) && step.Daemon? && Enabled(w, step)
    requires forall f: FetchId :: (c, f) in w.barred ==> (c, f) !in w.fetches
    ensures var w' := Apply(w, step);
            && (forall f: FetchId :: (c, f) in w'.barred ==> (c, f) !in w'.fetches)
            && (forall f: FetchId :: (c, f) in w.fetches && f in w.peers(c).table ==> (c, f) in w'.fetches)
  {
    var m := w.peers(step.p).up[0];
    assert m in w.peers(step.p).up;
    TakeRecords(w, step);
  }

  lemma TakeRecords(w: World, step: Step)
    requires step.Daemon? && Enabled(w, step)
    ensures var w', next := Apply(w, step), Record(w, step.p, w.peers(step.p).up[0], step.refuse);
            w'.fetches == next.fetches && w'.barred == next.barred
  {
    var p, m, w1 := step.p, w.peers(step.p).up[0], Broadcast(w, step.batch);
    var w2 := With(w1, p, w1.peers(p).(up := w1.peers(p).up[1..]));
    RecordsAlike(w, w2, p, m, step.refuse);
    assert Apply(w, step).fetches == Record(w2, p, m, step.refuse).fetches;
    assert Apply(w, step).barred == Record(w2, p, m, step.refuse).barred;
  }

  lemma RecordsAlike(w: World, w': World, p: PeerId, m: Up, refuse: bool)
    requires w'.fetches == w.fetches && w'.barred == w.barred
    ensures var next, next' := Record(w, p, m, refuse), Record(w', p, m, refuse);
            next'.fetches == next.fetches && next'.barred == next.barred
  {
  }

  /** A caused note goes to an established fetch. */
  lemma NewNote(w: World, step: Step, c: PeerId, n: Down)
    requires PeerInv(w, c) && step.Daemon? && Enabled(w, step)
    requires n in step.batch(c) && n.Note? && n.cause.Some?
    ensures (c, n.fetch) in w.fetches && n.fetch < w.peers(c).nextFetch && w.peers(step.p).up[0].Change?
    ensures (c, n.fetch) in Apply(w, step).fetches
  {
    TakeRecords(w, step);
  }

  lemma DisconnectHeard(w: World, step: Step, c: PeerId)
    requires Heard(w, c) && step.Disconnect? && Enabled(w, step)
    ensures Heard(Apply(w, step), c)
  {
    var x, w' := w.peers(c), Apply(w, step);
    var y := w'.peers(c);
    forall n | (n in y.down || n in y.log) && n.Note? && n.cause.Some? ensures HeardNote(w', c, n) {
      assert n !in step.batch(c);
    }
  }

  lemma {:induction false} RunHeard(ws: seq<World>, steps: seq<Step>, i: nat, c: PeerId)
    requires IsRun(ws, steps) && i < |ws|
    ensures Heard(ws[i], c)
  {
    if i > 0 {
      var w, step := ws[i - 1], steps[i - 1];
      RunHeard(ws, steps, i - 1, c);
      RunInv(ws, steps, i - 1);
      RunExact(ws, steps, i - 1);
      if step.Daemon? { DaemonHeard(w, step, c); }
      else if step.Disconnect? { DisconnectHeard(w, step, c); }
      else if step.Deliver? { DeliverHeard(w, step, c); }
      else { LocalHeard(w, step, c); }
    }
  }

  /**
   When the result of a set that carried a change reaches the caller's callback, a
   still registered matching fetch that was sent earlier on the same connection has
   run with that change exactly if the daemon refused neither the change nor the fetch.
   */
  lemma SetSeenUnlessRefused(ws: seq<World>, steps: seq<Step>, i: nat, s: ReqId, change: Carried, f: FetchId)
    requires IsRun(ws, steps) && i < |steps| && steps[i].Deliver?
    requires var x := ws[i].peers(steps[i].p);
             && x.down[0] == Result(s, true, Some(change))
             && Live(x, s, f) && Matching.Matches(x.table[f], change.path)
    ensures var p, t := steps[i].p, Tag(steps[i].p, s);
            Note(f, Changed, change, Some(t)) in ws[i].peers(p).log
            <==> (t, change) !in ws[i].refused && (p, f) !in ws[i].barred
  {
    var p, t := steps[i].p, Tag(steps[i].p, s);
    RunExact(ws, steps, i);
    RunHeard(ws, steps, i, p);
    if (t, change) !in ws[i].refused {
      SetSeenBeforeResult(ws, steps, i, s, change, f);
    }
    if Note(f, Changed, change, Some(t)) in ws[i].peers(p).log {
      assert HeardNote(ws[i], p, Note(f, Changed, change, Some(t)));
    }
  }

  // ---- owners that keep their paths ----

  /** No path is added again after its removal on this connection, and no set callback removes its own state. */
  predicate Careful(w: World, step: Step) {
    match step
    case AddState(p, path) => (p, path) !in w.removed
    case Deliver(p, outcome) => GivenUpBy(w.peers(p), step) == {}
    case _ => true
  }

  /** Peer `p` still has the paths it is asked to set and those it reports changes of. */
  ghost predicate Holds(w: World, p: PeerId) {
    var x := w.peers(p);
    && (forall path :: (p, path) in w.registered ==> (p, path) !in w.removed)
    && (forall path :: Withdraw(path) in x.up ==> (p, path) in w.removed)
    && (forall d :: d in x.down && d.Routed? ==> (p, d.path) in w.removed || Owns(w, p, d.path))
    && (forall i :: 0 <= i < |x.up| && x.up[i].Change? && x.up[i].cause.Some? ==>
          Owns(w, p, x.up[i].change.path) && Withdraw(x.up[i].change.path) !in x.up[..i])
  }

  ghost predicate Attributed(w: World) {
    w.refused == {} && forall p: PeerId :: Holds(w, p)
  }

  /** A peer that takes nothing and sends no caused change. */
  lemma SendHolds(w: World, step: Step)
    requires Holds(w, step.p) && Enabled(w, step) && Careful(w, step)
    requires !step.Daemon? && !step.Deliver? && !step.Disconnect?
    ensures Holds(Apply(w, step), step.p)
  {
    var x, w' := w.peers(step.p), Apply(w, step);
    var y := w'.peers(step.p);
    assert y.down == x.down;
    forall i | 0 <= i < |x.up| ensures y.up[i] == x.up[i] && y.up[..i] == x.up[..i] { }
  }

  /** A routed set is handled only while its path is registered, so a change it makes is of an owned path. */
  lemma DeliverHolds(w: World, step: Step)
    requires Holds(w, step.p) && step.Deliver? && Enabled(w, step) && Careful(w, step)
    ensures Holds(Apply(w, step), step.p)
  {
    var x, w' := w.peers(step.p), Apply(w, step);
    var y := w'.peers(step.p);
    assert y.down == x.down[1..];
    forall i | 0 <= i < |x.up| ensures y.up[i] == x.up[i] && y.up[..i] == x.up[..i] { }
    assert x.down[0] in x.down;
    assert y.up[..|x.up|] == x.up;
  }

  lemma OthersHold(w: World, step: Step, q: PeerId)
    requires Holds(w, q) && q != step.p && Enabled(w, step) && !step.Daemon? && !step.Disconnect?
    ensures Holds(Apply(w, step), q)
  {
    assert Apply(w, step).peers(q) == w.peers(q);
  }

  /** The daemon takes a path from a peer only on its own removal. */
  lemma OwnershipStays(w: World, step: Step, q: PeerId, path: Path)
    requires step.Daemon? && Enabled(w, step) && Owns(w, q, path)
    requires q == step.p ==> w.peers(q).up[0] != Withdraw(path)
    ensures Owns(Apply(w, step), q, path)
  {
  }

  lemma DaemonHolds(w: World, step: Step, q: PeerId)
    requires step.Daemon? && Enabled(w, step) && Holds(w, q) && Holds(w, step.p)
    ensures Holds(Apply(w, step), q)
  {
    var x, w' := w.peers(q), Apply(w, step);
    var y := w'.peers(q);
    TakeShape(w, step, q);
    MayNote(w, step.p, w.peers(step.p).up[0], step.refuse, step.batch);
    forall d | d in y.down && d.Routed? ensures (q, d.path) in w'.removed || Owns(w', q, d.path) {
      RoutedHolds(w, step, q, d);
    }
    forall i | 0 <= i < |y.up| && y.up[i].Change? && y.up[i].cause.Some?
      ensures Owns(w', q, y.up[i].change.path) && Withdraw(y.up[i].change.path) !in y.up[..i]
    {
      ChangeHolds(w, step, q, i);
    }
  }

  lemma RoutedHolds(w: World, step: Step, q: PeerId, d: Down)
    requires step.Daemon? && Enabled(w, step) && Holds(w, q) && OnlyNotes(step.batch)
    requires d in Apply(w, step).peers(q).down && d.Routed?
    ensures (q, d.path) in w.removed || Owns(Apply(w, step), q, d.path)
  {
    TakeShape(w, step, q);
    var m := w.peers(step.p).up[0];
    assert m in w.peers(step.p).up;
    if (q, d.path) !in w.removed {
      assert d in step.batch(q) ==> d.Note?;
      assert Owns(w, q, d.path);
      OwnershipStays(w, step, q, d.path);
    }
  }

  lemma ChangeHolds(w: World, step: Step, q: PeerId, i: nat)
    requires step.Daemon? && Enabled(w, step) && Holds(w, q)
    requires var up := Apply(w, step).peers(q).up; i < |up| && up[i].Change? && up[i].cause.Some?
    ensures var w' := Apply(w, step);
            var up := w'.peers(q).up;
            Owns(w', q, up[i].change.path) && Withdraw(up[i].change.path) !in up[..i]
  {
    TakeShape(w, step, q);
    var x, y := w.peers(q).up, Apply(w, step).peers(q).up;
    var k := if q == step.p then i + 1 else i;
    assert x[k] == y[i];
    if q == step.p {
      assert x[..k] == [x[0]] + y[..i];
    }
    OwnershipStays(w, step, q, y[i].change.path);
  }

  lemma DisconnectHolds(w: World, step: Step, q: PeerId)
    requires step.Disconnect? && Enabled(w, step) && Holds(w, q)
    ensures Holds(Apply(w, step), q)
  {
    var w' := Apply(w, step);
    if q != step.p {
      forall path ensures Owns(w', q, path) == Owns(w, q, path) { }
      assert w'.peers(q).up == w.peers(q).up;
      assert forall d :: d in step.batch(q) ==> d.Note?;
    }
  }

  lemma StepKeepsAttributed(w: World, step: Step)
    requires Attributed(w) && Enabled(w, step) && Careful(w, step)
    ensures Attributed(Apply(w, step))
  {
    assert Holds(w, step.p);
    forall q: PeerId ensures Holds(Apply(w, step), q) {
      assert Holds(w, q);
      if step.Daemon? { DaemonHolds(w, step, q); }
      else if step.Disconnect? { DisconnectHolds(w, step, q); }
      else if q != step.p { OthersHold(w, step, q); }
      else if step.Deliver? { DeliverHolds(w, step); }
      else { SendHolds(w, step); }
    }
    NothingNewRefused(w, step);
  }

  lemma NothingNewRefused(w: World, step: Step)
    requires Holds(w, step.p) && Enabled(w, step)
    ensures Apply(w, step).refused == w.refused
  {
    if step.Daemon? {
      var m := w.peers(step.p).up[0];
      assert m.Change? ==> Owns(Broadcast(w, step.batch), step.p, m.change.path) == Owns(w, step.p, m.change.path);
    }
  }

  lemma {:induction false} RunAttributed(ws: seq<World>, steps: seq<Step>, i: nat)
    requires IsRun(ws, steps) && i < |ws| && forall j :: 0 <= j < i ==> Careful(ws[j], steps[j])
    ensures Attributed(ws[i])
  {
    if i == 0 {
      forall p: PeerId ensures Holds(ws[0], p) { }
    } else {
      RunAttributed(ws, steps, i - 1);
      StepKeepsAttributed(ws[i - 1], steps[i - 1]);
    }
  }

  /**
   Read your writes: while no peer adds a path again that it removed on the same
   connection and no set callback removes its own state, every successful set has been
   seen, when it returns, by the caller's earlier fetches, except those whose
   synchronous call has not returned yet.
   */
  lemma CarefulSetsAreSeen(ws: seq<World>, steps: seq<Step>, i: nat, s: ReqId, change: Carried, f: FetchId)
    requires IsRun(ws, steps) && i < |steps| && steps[i].Deliver?
    requires forall j :: 0 <= j < i ==> Careful(ws[j], steps[j])
    requires var x := ws[i].peers(steps[i].p);
             && x.down[0] == Result(s, true, Some(change))
             && Live(x, s, f) && Matching.Matches(x.table[f], change.path) && f !in x.calling
    ensures Note(f, Changed, change, Some(Tag(steps[i].p, s))) in ws[i].peers(steps[i].p).log
  {
    RunAttributed(ws, steps, i);
    SetSeenBeforeResult(ws, steps, i, s, change, f);
  }

  // ---- the exception is real ----

  ghost predicate Reachable(w: World) {
    exists ws, steps :: IsRun(ws, steps) && ws[|steps|] == w
  }

  lemma Extend(w: World, step: Step)
    requires Reachable(w) && Enabled(w, step)
    ensures Reachable(Apply(w, step))
  {
    var ws, steps :| IsRun(ws, steps) && ws[|steps|] == w;
    var ws', steps' := ws + [Apply(w, step)], steps + [step];
    forall i | 0 <= i < |steps'| ensures Enabled(ws'[i], steps'[i]) && ws'[i + 1] == Apply(ws'[i], steps'[i]) {
      assert ws'[i] == ws[i];
      if i < |steps| { assert steps'[i] == steps[i] && ws'[i + 1] == ws[i + 1]; }
    }
    assert ws'[0] == ws[0];
    assert IsRun(ws', steps') && ws'[|steps'|] == Apply(w, step);
  }

  /** What a run with a single peer has come to. */
  predicate Looks(w: World, x: Peer, states: map<Path, Owned>,
                  fetches: map<(PeerId, FetchId), Matching.Matcher>, waiting: set<Tag>) {
    w.peers(0) == x && w.states == states && w.fetches == fetches && w.waiting == waiting
  }

  function Alone(notes: seq<Down>): Batch {
    (q: PeerId) => if q == 0 then notes else []
  }

  /** The peer does something on its own. */
  lemma Local(w: World, step: Step) returns (w': World)
    requires Reachable(w) && Enabled(w, step) && step.p == 0 && !step.Daemon? && !step.Disconnect?
    ensures Reachable(w') && w'.registered == RegisteredPaths(w, step) && w'.removed == RemovedPaths(w, step)
    ensures Looks(w', PeerStep(w.peers(0), step), w.states, w.fetches, w.waiting)
    ensures w'.barred == w.barred && w'.refused == w.refused
  {
    Extend(w, step);
    w' := Apply(w, step);
  }

  /** The daemon takes a message on which it sends no notes. */
  lemma Quiet(w: World) returns (w': World)
    requires Reachable(w) && w.peers(0).up != [] && !w.peers(0).up[0].Fetch?
    requires DaemonMay(w, 0, w.peers(0).up[0], false, Alone([]))
    ensures Reachable(w') && w'.registered == w.registered && w'.barred == w.barred
    ensures w'.refused == Record(w, 0, w.peers(0).up[0], false).refused
    ensures var x, m := w.peers(0), w.peers(0).up[0];
            var to, next := Forward(w, 0, m, false), Record(w, 0, m, false);
            Looks(w', x.(up := x.up[1..], down := x.down + if to.Some? && to.value.0 == 0 then [to.value.1] else []),
                  next.states, next.fetches, next.waiting)
  {
    var step := Daemon(0, false, Alone([]));
    Extend(w, step);
    w' := Apply(w, step);
    TakeShape(w, step, 0);
    var x := w.peers(0);
    assert w'.peers(0) == x.(up := w'.peers(0).up, down := w'.peers(0).down);
  }

  /** The world before anything happened. */
  lemma Beginning() returns (w: World)
    ensures Reachable(w) && Looks(w, IDLE, map[], map[], {}) && w.barred == {} && w.refused == {}
  {
    w := World((q: PeerId) => IDLE, map[], map[], {}, {}, {}, {}, {}, {});
    var none: seq<Step> := [];
    assert IsRun([w], none) && [w][|none|] == w;
  }

  lemma SilentAlone()
    ensures Silent(Alone([]))
  {
  }

  lemma NobodyFetches(w: World, event: Event, change: Carried, cause: Option<Tag>)
    requires w.fetches == map[]
    ensures NotesFor(w, Alone([]), event, change, cause)
  {
    SilentAlone();
  }

  /** A peer has declared a state. */
  lemma Declared(path: Path, value: Value) returns (w: World)
    ensures Reachable(w) && (0, path) in w.registered && w.barred == {} && w.refused == {}
    ensures Looks(w, IDLE, map[path := Owned(0, value)], map[], {})
  {
    w := Beginning();
    w := Local(w, AddState(0, path));
    w := Local(w, SendAdd(0, path, value));
    assert w.peers(0).up == [Declare(path, value)];
    NobodyFetches(w, Added, Carried(path, value), None);
    w := Quiet(w);
  }

  /** It asks for the state. */
  lemma Asked(path: Path, value: Value, m: Matching.Matcher) returns (w: World)
    ensures Reachable(w) && (0, path) in w.registered && w.barred == {}
    ensures Looks(w, Peer(map[0 := m], {0}, 1, 0, map[], None, [Fetch(0, m, NoResult)], [], {}, {}, {}),
                  map[path := Owned(0, value)], map[], {})
  {
    w := Declared(path, value);
    w := Local(w, AddFetch(0, m, false));
    w := Local(w, SendFetch(0, 0, m, NoResult));
  }

  /** It fetches the state. */
  lemma Fetched(path: Path, value: Value, m: Matching.Matcher) returns (w: World)
    requires Matching.Matches(m, path)
    ensures Reachable(w) && (0, path) in w.registered
    ensures Looks(w, Peer(map[0 := m], {0}, 1, 0, map[], None, [],
                          [Note(0, Added, Carried(path, value), None)], {}, {}, {}),
                  map[path := Owned(0, value)], map[(0, 0) := m], {})
  {
    w := Asked(path, value, m);
    var step := Daemon(0, false, Alone([Note(0, Added, Carried(path, value), None)]));
    assert Enabled(w, step);
    Extend(w, step);
    w := Apply(w, step);
  }

  /** It sets the state, and the daemon routes the set back to it. */
  lemma FetchedAndSet(path: Path, value: Value, m: Matching.Matcher, v: Value) returns (w: World)
    requires Matching.Matches(m, path)
    ensures Reachable(w) && (0, path) in w.registered
    ensures Looks(w, Peer(map[0 := m], {0}, 1, 1, map[0 := {0}], None, [],
                          [Note(0, Added, Carried(path, value), None), Routed(Tag(0, 0), path, v)], {}, {}, {}),
                  map[path := Owned(0, value)], map[(0, 0) := m], {Tag(0, 0)})
  {
    w := Fetched(path, value, m);
    assert w.peers(0).sent * w.peers(0).table.Keys == {0};
    w := Local(w, SetState(0, path, v));
    assert w.peers(0).open == map[0 := {0}] && w.peers(0).up == [Set(0, path, v)];
    SilentAlone();
    w := Quiet(w);
  }

  /** It sees the current value. */
  lemma CurrentSeen(path: Path, value: Value, m: Matching.Matcher, v: Value) returns (w: World)
    requires Matching.Matches(m, path)
    ensures Reachable(w) && (0, path) in w.registered
    ensures Looks(w, Peer(map[0 := m], {0}, 1, 1, map[0 := {0}], None, [], [Routed(Tag(0, 0), path, v)],
                          {Note(0, Added, Carried(path, value), None)}, {}, {}),
                  map[path := Owned(0, value)], map[(0, 0) := m], {Tag(0, 0)})
  {
    w := FetchedAndSet(path, value, m, v);
    w := Local(w, Deliver(0, Ignored));
  }

  /** The owner's removal is on its way before the change that a set caused. */
  predicate Overtaken(w: World, path: Path, value: Value, m: Matching.Matcher, v: Value) {
    var a := Answer(Tag(0, 0), true, Some(Carried(path, v)));
    Looks(w, Peer(map[0 := m], {0}, 1, 1, map[0 := {0}], None,
                  [Withdraw(path), Change(Carried(path, v), Some(Tag(0, 0))), Respond(a)], [],
                  {Note(0, Added, Carried(path, value), None)}, {}, {}),
          map[path := Owned(0, value)], map[(0, 0) := m], {Tag(0, 0)})
  }

  /** The set callback removes its own state. */
  lemma RemovedByCallback(path: Path, value: Value, m: Matching.Matcher, v: Value) returns (w: World)
    requires Matching.Matches(m, path)
    ensures Reachable(w) && Overtaken(w, path, value, m, v)
  {
    w := CurrentSeen(path, value, m, v);
    w := Local(w, Deliver(0, GaveUp(v)));
    assert w.peers(0).up == [Withdraw(path), Change(Carried(path, v), Some(Tag(0, 0)))];
    w := Local(w, SendResponse(0, true));
  }

  /** The state is removed and added again before anything is sent. */
  lemma ReRegistered(path: Path, value: Value, m: Matching.Matcher, v: Value) returns (w: World)
    requires Matching.Matches(m, path)
    ensures Reachable(w) && (0, path) in w.registered && (0, path) in w.removed
    ensures Looks(w, Peer(map[0 := m], {0}, 1, 1, map[0 := {0}], None, [], [Routed(Tag(0, 0), path, v)],
                          {Note(0, Added, Carried(path, value), None)}, {}, {}),
                  map[path := Owned(0, value)], map[(0, 0) := m], {Tag(0, 0)})
  {
    w := CurrentSeen(path, value, m, v);
    w := Local(w, RemoveState(0, path));
    w := Local(w, AddState(0, path));
  }

  /** The REMOVE is sent after the ADD. */
  lemma ReAdded(path: Path, value: Value, m: Matching.Matcher, v: Value) returns (w: World)
    requires Matching.Matches(m, path)
    ensures Reachable(w) && (0, path) in w.registered
    ensures Looks(w, Peer(map[0 := m], {0}, 1, 1, map[0 := {0}], None,
                          [Declare(path, value), Withdraw(path)], [Routed(Tag(0, 0), path, v)],
                          {Note(0, Added, Carried(path, value), None)}, {}, {}),
                  map[path := Owned(0, value)], map[(0, 0) := m], {Tag(0, 0)})
  {
    w := ReRegistered(path, value, m, v);
    w := Local(w, SendAdd(0, path, value));
    w := Local(w, SendRemove(0, path));
  }

  /** The set is handled while both are on their way. */
  lemma HandledMeanwhile(path: Path, value: Value, m: Matching.Matcher, v: Value) returns (w: World)
    requires Matching.Matches(m, path)
    ensures Reachable(w)
    ensures var a := Answer(Tag(0, 0), true, Some(Carried(path, v)));
            Looks(w, Peer(map[0 := m], {0}, 1, 1, map[0 := {0}], None,
                          [Declare(path, value), Withdraw(path), Change(Carried(path, v), Some(Tag(0, 0))),
                           Respond(a)], [],
                          {Note(0, Added, Carried(path, value), None)}, {}, {}),
                  map[path := Owned(0, value)], map[(0, 0) := m], {Tag(0, 0)})
  {
    w := ReAdded(path, value, m, v);
    w := Local(w, Deliver(0, Done(Some(v))));
    w := Local(w, SendResponse(0, true));
  }

  lemma RemovedByRace(path: Path, value: Value, m: Matching.Matcher, v: Value) returns (w: World)
    requires Matching.Matches(m, path)
    ensures Reachable(w) && Overtaken(w, path, value, m, v)
  {
    w := HandledMeanwhile(path, value, m, v);
    SilentAlone();
    w := Quiet(w);
  }

  /** The daemon takes the removal before the change. */
  lemma Withdrawn(w0: World, path: Path, value: Value, m: Matching.Matcher, v: Value) returns (w: World)
    requires Matching.Matches(m, path) && Reachable(w0) && Overtaken(w0, path, value, m, v)
    ensures Reachable(w)
    ensures var a := Answer(Tag(0, 0), true, Some(Carried(path, v)));
            Looks(w, Peer(map[0 := m], {0}, 1, 1, map[0 := {0}], None,
                          [Change(Carried(path, v), Some(Tag(0, 0))), Respond(a)],
                          [Note(0, Removed, Carried(path, value), None)],
                          {Note(0, Added, Carried(path, value), None)}, {}, {}),
                  map[], map[(0, 0) := m], {Tag(0, 0)})
  {
    var step := Daemon(0, false, Alone([Note(0, Removed, Carried(path, value), None)]));
    assert Enabled(w0, step);
    Extend(w0, step);
    w := Apply(w0, step);
  }

  /** The change is refused and the set is answered. */
  lemma Answered(w0: World, path: Path, value: Value, m: Matching.Matcher, v: Value) returns (w: World)
    requires Matching.Matches(m, path) && Reachable(w0) && Overtaken(w0, path, value, m, v)
    ensures Reachable(w)
    ensures w.peers(0) == Peer(map[0 := m], {0}, 1, 1, map[0 := {0}], None, [],
                               [Note(0, Removed, Carried(path, value), None), Result(0, true, Some(Carried(path, v)))],
                               {Note(0, Added, Carried(path, value), None)}, {}, {})
  {
    w := Withdrawn(w0, path, value, m, v);
    w := Quiet(w);
    assert w.peers(0).down == [Note(0, Removed, Carried(path, value), None)];
    w := Quiet(w);
  }

  /**
   Both conditions of `Careful` are needed: whichever is broken, there is a run in
   which the set succeeds with a change that the registered fetch has not seen.
   */
  lemma GivenUpChangeIsMissed(path: Path, value: Value, m: Matching.Matcher, v: Value, race: bool) returns (w: World)
    requires Matching.Matches(m, path)
    ensures Reachable(w) && w.peers(0).answering == None
    ensures var x, change := w.peers(0), Carried(path, v);
            x.down == [Result(0, true, Some(change))] && Live(x, 0, 0) && x.table[0] == m
            && Note(0, Changed, change, Some(Tag(0, 0))) !in x.log
  {
    if race { w := RemovedByRace(path, value, m, v); } else { w := RemovedByCallback(path, value, m, v); }
    w := Answered(w, path, value, m, v);
    w := Local(w, Deliver(0, Ignored));
  }

  // ---- a fetch whose synchronous call has not returned ----

  /** One thread calls `addFetch`. */
  lemma FetchCalled(path: Path, value: Value, m: Matching.Matcher) returns (w: World)
    ensures Reachable(w) && (0, path) in w.registered && w.barred == {} && w.refused == {}
    ensures Looks(w, Peer(map[0 := m], {0}, 1, 0, map[], None, [Fetch(0, m, Sync)], [], {}, {0}, {}),
                  map[path := Owned(0, value)], map[], {})
  {
    w := Declared(path, value);
    w := Local(w, AddFetch(0, m, true));
    w := Local(w, SendFetch(0, 0, m, Sync));
  }

  /** Another one sets the state. */
  lemma FetchCalledAndSet(path: Path, value: Value, m: Matching.Matcher, v: Value) returns (w: World)
    ensures Reachable(w) && (0, path) in w.registered && w.barred == {} && w.refused == {}
    ensures Looks(w, Peer(map[0 := m], {0}, 1, 1, map[0 := {0}], None,
                          [Fetch(0, m, Sync), Set(0, path, v)], [], {}, {0}, {}),
                  map[path := Owned(0, value)], map[], {})
  {
    w := FetchCalled(path, value, m);
    assert w.peers(0).sent * w.peers(0).table.Keys == {0};
    w := Local(w, SetState(0, path, v));
  }

  /** The daemon refuses the fetch and routes the set. */
  lemma FetchRefused(path: Path, value: Value, m: Matching.Matcher, v: Value) returns (w: World)
    ensures Reachable(w) && (0, path) in w.registered && w.barred == {(0, 0)} && w.refused == {}
    ensures Looks(w, Peer(map[0 := m], {0}, 1, 1, map[0 := {0}], None, [],
                          [Refusal(0, true), Routed(Tag(0, 0), path, v)], {}, {0}, {}),
                  map[path := Owned(0, value)], map[], {Tag(0, 0)})
  {
    w := FetchCalledAndSet(path, value, m, v);
    SilentAlone();
    var step := Daemon(0, true, Alone([]));
    Extend(w, step);
    TakeShape(w, step, 0);
    var x := w.peers(0);
    w := Apply(w, step);
    assert w.peers(0) == x.(up := [Set(0, path, v)], down := [Refusal(0, true)]);
    w := Quiet(w);
  }

  /** The refusal reaches the waiting call. */
  lemma RefusalArrived(path: Path, value: Value, m: Matching.Matcher, v: Value) returns (w: World)
    ensures Reachable(w) && (0, path) in w.registered && w.barred == {(0, 0)} && w.refused == {}
    ensures Looks(w, Peer(map[0 := m], {0}, 1, 1, map[0 := {0}], None, [], [Routed(Tag(0, 0), path, v)], {}, {0}, {0}),
                  map[path := Owned(0, value)], map[], {Tag(0, 0)})
  {
    w := FetchRefused(path, value, m, v);
    w := Local(w, Deliver(0, Ignored));
  }

  /** The set is handled before the calling thread goes on. */
  lemma SetHandled(path: Path, value: Value, m: Matching.Matcher, v: Value) returns (w: World)
    ensures Reachable(w) && w.barred == {(0, 0)} && w.refused == {}
    ensures var a := Answer(Tag(0, 0), true, Some(Carried(path, v)));
            Looks(w, Peer(map[0 := m], {0}, 1, 1, map[0 := {0}], None,
                          [Change(Carried(path, v), Some(Tag(0, 0))), Respond(a)], [], {}, {0}, {0}),
                  map[path := Owned(0, value)], map[], {Tag(0, 0)})
  {
    w := RefusalArrived(path, value, m, v);
    w := Local(w, Deliver(0, Done(Some(v))));
    w := Local(w, SendResponse(0, true));
  }

  /**
   A run in which nothing is wrong with the change, and the set succeeds before the
   thread that called `addFetch` has taken the refused fetch out of the table.
   */
  lemma RefusedFetchMisses(path: Path, value: Value, m: Matching.Matcher, v: Value) returns (w: World)
    requires Matching.Matches(m, path)
    ensures Reachable(w) && w.peers(0).answering == None && w.refused == {}
    ensures var x, change := w.peers(0), Carried(path, v);
            x.down == [Result(0, true, Some(change))] && Live(x, 0, 0) && x.table[0] == m
            && 0 in x.calling && Note(0, Changed, change, Some(Tag(0, 0))) !in x.log
  {
    w := SetHandled(path, value, m, v);
    NobodyFetches(w, Changed, Carried(path, v), Some(Tag(0, 0)));
    w := Quiet(w);
    SilentAlone();
    w := Quiet(w);
  }
}
