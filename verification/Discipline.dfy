/**
 The rules of Ownership are exact: a state from which no path gets lost is one that
 satisfies the invariant, and whoever breaks a rule leaves those states.
 */
module Discipline {
  import opened Common
  import opened Ownership

  /**
   Calls under way go on, the daemon and the event loop do their work, and the
   connection may be set up again; nobody calls the peer, and every REMOVE is sent.
   */
  predicate Quiet(w: World, step: Step) {
    match step
    case Send(c, ok) => ok || (c in w.calls && w.calls[c].Ready? && w.calls[c].message.Add?)
    case Store(_) => true
    case Daemon(_) => true
    case Deliver => true
    case NotifierFires(_) => true
    case Undo(_) => true
    case Start => true
    case _ => false
  }

  ghost predicate Continues(ws: seq<World>, steps: seq<Step>) {
    && |ws| == |steps| + 1
    && forall i :: 0 <= i < |steps| ==>
         Quiet(ws[i], steps[i]) && Enabled(ws[i], steps[i]) && ws[i + 1] == Apply(ws[i], steps[i])
  }

  /** Without any further mistake the daemon can come to attribute an unregistered path with no REMOVE in flight. */
  ghost predicate Doomed(w: World) {
    exists ws, steps :: Continues(ws, steps) && ws[0] == w && !Accounted(ws[|steps|])
  }

  lemma QuietIsDisciplined(w: World, step: Step)
    requires Enabled(w, step) && Quiet(w, step)
    ensures Disciplined(w, step)
  {
  }

  lemma LostNow(w: World)
    requires !Accounted(w)
    ensures Doomed(w)
  {
    var none: seq<Step> := [];
    assert Continues([w], none) && [w][|none|] == w;
  }

  lemma Back(w: World, step: Step)
    requires Quiet(w, step) && Enabled(w, step) && Doomed(Apply(w, step))
    ensures Doomed(w)
  {
    var ws, steps :| Continues(ws, steps) && ws[0] == Apply(w, step) && !Accounted(ws[|steps|]);
    var ws', steps' := [w] + ws, [step] + steps;
    forall i | 0 <= i < |steps'|
      ensures Quiet(ws'[i], steps'[i]) && Enabled(ws'[i], steps'[i]) && ws'[i + 1] == Apply(ws'[i], steps'[i])
    {
      if i > 0 { assert ws'[i] == ws[i - 1] && steps'[i] == steps[i - 1] && ws'[i + 1] == ws[i]; }
    }
    assert ws'[|steps'|] == ws[|steps|];
    assert Continues(ws', steps') && ws'[0] == w;
  }

  // ---- a claim to an unregistered path surfaces ----

  /** The daemon reads what is in flight and takes the path, unless it has it. */
  lemma {:induction false} FlightDoomed(w: World, p: Path, o: Source)
    requires IsSource(w, p, o) && !o.Calling? && !Registered(w, p)
    ensures Doomed(w)
    decreases |w.up|
  {
    if o == Held {
      assert Remove(p) !in w.up;
      LostNow(w);
    } else {
      var step := Daemon(o.i == 0 && p !in w.owned);
      var w' := Apply(w, step);
      var next := if o.i == 0 then Held else Flying(o.i - 1);
      FlightMoves(w, p, o.i);
      FlightDoomed(w', p, next);
      Back(w, step);
    }
  }

  lemma FlightMoves(w: World, p: Path, i: nat)
    requires IsSource(w, p, Flying(i))
    ensures var accept := i == 0 && p !in w.owned;
            Enabled(w, Daemon(accept)) && IsSource(DaemonStep(w, accept), p, if i == 0 then Held else Flying(i - 1))
  {
    var w' := DaemonStep(w, i == 0 && p !in w.owned);
    forall j | 0 <= j < |w'.up| ensures w'.up[j] == w.up[j + 1] { }
    assert Removing(w', p) == Removing(w, p);
  }

  /** Removals of the path that are under way go first, then the ADD is sent. */
  lemma {:induction false} CallDoomed(w: World, p: Path, c: CallId)
    requires w.linkUp && IsSource(w, p, Calling(c)) && !Registered(w, p)
    ensures Doomed(w)
    decreases |w.calls|, w.calls[c].Begun?
  {
    var step := Send(c, true);
    if Removing(w, p) {
      var d :| d in w.calls && w.calls[d] == Ready(Remove(p));
      step := Send(d, true);
      FewerCalls(w.calls, d);
      CallDoomed(Apply(w, step), p, c);
    } else if w.calls[c].Begun? {
      step := Store(c);
      SameCount(w.calls, c, Apply(w, step).calls[c]);
      CallDoomed(Apply(w, step), p, c);
    } else {
      var w' := Apply(w, step);
      assert w'.up[|w.up|] == w.calls[c].message;
      assert !Removing(w', p);
      FlightDoomed(w', p, Flying(|w.up|));
    }
    Back(w, step);
  }

  lemma FewerCalls(calls: map<CallId, Call>, d: CallId)
    requires d in calls
    ensures |calls - {d}| < |calls|
  {
    assert (calls - {d}).Keys == calls.Keys - {d};
    assert |(calls - {d}).Keys| < |calls.Keys|;
  }

  lemma SameCount(calls: map<CallId, Call>, c: CallId, call: Call)
    requires c in calls
    ensures |calls[c := call]| == |calls|
  {
    assert calls[c := call].Keys == calls.Keys;
    assert |calls[c := call].Keys| == |calls.Keys|;
  }

  lemma ClaimDoomed(w: World, p: Path, o: Source)
    requires IsSource(w, p, o) && !Registered(w, p)
    ensures Doomed(w)
  {
    if !o.Calling? {
      FlightDoomed(w, p, o);
    } else if w.linkUp {
      CallDoomed(w, p, o.c);
    } else {
      CallDoomed(Apply(w, Start), p, o.c);
      Back(w, Start);
    }
  }

  // ---- an insecure claim surfaces ----

  /** If the claim comes from `o`, every registration of `p` may be undone by something else. */
  ghost predicate Insecure(w: World, p: Path, o: Source) {
    IsSource(w, p, o) && forall k :: Item(k, p) in w.registered ==> Threatened(w, Item(k, p), o)
  }

  /** The claim after the daemon took a message, which it refuses unless the claim comes from it. */
  function After(o: Source): Source {
    match o
    case Held => Held
    case Flying(i) => if i == 0 then Held else Flying(i - 1)
    case Calling(c) => Calling(c)
  }

  lemma DaemonInsecure(w: World, p: Path, o: Source)
    requires Insecure(w, p, o) && w.up != [] && (o == Flying(0) ==> p !in w.owned)
    ensures Enabled(w, Daemon(o == Flying(0))) && Insecure(DaemonStep(w, o == Flying(0)), p, After(o))
  {
    var w' := DaemonStep(w, o == Flying(0));
    forall j | 0 <= j < |w'.up| ensures w'.up[j] == w.up[j + 1] { }
    assert Removing(w', p) == Removing(w, p);
    forall k | Item(k, p) in w'.registered ensures Threatened(w', Item(k, p), After(o)) {
      DaemonThreat(w, Item(k, p), o);
    }
  }

  /** Whatever else threatens a registration still does, or has turned into an error. */
  lemma DaemonThreat(w: World, item: Item, o: Source)
    requires Enabled(w, Daemon(o == Flying(0))) && Threatened(w, item, o)
    ensures Threatened(DaemonStep(w, o == Flying(0)), item, After(o))
  {
    var w', m := DaemonStep(w, o == Flying(0)), w.up[0];
    if Erring(w, item) {
      if r :| r in w.down && ErrorReply(w, r, item) { assert r in w'.down && ErrorReply(w', r, item); }
    } else {
      var x :| x != o && IsThreat(w, item, x);
      if x == Flying(0) {
        assert Reply(m.id.value, true) in w'.down && ErrorReply(w', Reply(m.id.value, true), item);
      } else {
        assert IsThreat(w', item, After(x)) && After(x) != After(o);
      }
    }
  }

  /** Another call that may undo a registration stores its callback and fails to send. */
  lemma FailInsecure(w: World, p: Path, o: Source, d: CallId)
    requires Insecure(w, p, o) && d in w.calls && w.calls[d].Ready? && w.calls[d].message.Add? && o != Calling(d)
    ensures Insecure(SendStep(w, d, false), p, o)
  {
    var w' := SendStep(w, d, false);
    forall e | e in w.calls && e != d ensures e in w'.calls && w'.calls[e] == w.calls[e] { }
    forall k | Item(k, p) in w'.registered ensures Threatened(w', Item(k, p), o) {
      if Erring(w, Item(k, p)) {
        if r :| r in w.down && ErrorReply(w, r, Item(k, p)) { assert ErrorReply(w', r, Item(k, p)); }
      } else {
        var x :| x != o && IsThreat(w, Item(k, p), x);
        assert x != Calling(d) ==> IsThreat(w', Item(k, p), x);
      }
    }
  }

  lemma StoreInsecure(w: World, p: Path, o: Source, d: CallId)
    requires Insecure(w, p, o) && Numbered(w) && Enabled(w, Store(d))
    ensures Insecure(StoreStep(w, d), p, o)
  {
    StoreRisks(w, d);
    assert IsSource(StoreStep(w, d), p, o);
    forall k | Item(k, p) in w.registered ensures Threatened(StoreStep(w, d), Item(k, p), o) {
      if !Erring(w, Item(k, p)) {
        var x :| x != o && IsThreat(w, Item(k, p), x);
        assert IsThreat(StoreStep(w, d), Item(k, p), x);
      }
    }
  }

  lemma UndoInsecure(w: World, p: Path, o: Source, id: Id)
    requires Insecure(w, p, o) && id in w.undoing
    ensures Insecure(Apply(w, Undo(id)), p, o)
  {
    var w' := Apply(w, Undo(id));
    assert Removing(w', p) == Removing(w, p);
    forall k | Item(k, p) in w'.registered ensures Threatened(w', Item(k, p), o) {
      if r :| r in w.down && ErrorReply(w, r, Item(k, p)) {
        assert ErrorReply(w', r, Item(k, p));
      } else if x :| x != o && IsThreat(w, Item(k, p), x) {
        assert IsThreat(w', Item(k, p), x);
      } else if u :| u in w.undoing && w.undoing[u] == Item(k, p) {
        assert u in w'.undoing;
      }
    }
  }

  /** Completing a request turns its error into the undoing and leaves the others alone. */
  lemma CompleteInsecure(w: World, w': World, p: Path, o: Source, id: Id, error: bool)
    requires Insecure(w, p, o) && w.up == [] && w.undoing == map[]
    requires w' == Complete(w, id, error).(down := w'.down, failing := w'.failing)
    requires forall r :: r in w.down && r.error ==> r in w'.down || (error && r.id == id)
    requires forall i :: i in w.failing ==> i in w'.failing || (error && i == id)
    requires !error ==> forall r :: r in w.down && r.error ==> r.id != id
    requires !error ==> id !in w.failing
    requires forall c :: c in w.calls && w.calls[c].Ready? ==> IdOf(w.calls[c].message) != Some(id)
    ensures Insecure(w', p, o)
  {
    assert w'.calls == w.calls && w'.up == w.up && w'.owned == w.owned && w'.registered == w.registered;
    assert Removing(w', p) == Removing(w, p);
    forall k | Item(k, p) in w'.registered ensures Threatened(w', Item(k, p), o) {
      if r :| r in w.down && ErrorReply(w, r, Item(k, p)) {
        if r.id == id { assert w'.undoing[id] == Item(k, p); } else { assert ErrorReply(w', r, Item(k, p)); }
      } else if x :| x != o && IsThreat(w, Item(k, p), x) {
        assert IsThreat(w', Item(k, p), x);
      } else {
        var f :| f in w.failing && f in w.open && w.open[f] == Item(k, p);
        if f == id { assert w'.undoing[id] == Item(k, p); } else { assert f in w'.failing && f in w'.open; }
      }
    }
  }

  lemma DeliverInsecure(w: World, p: Path, o: Source)
    requires Insecure(w, p, o) && Distinct(w) && w.up == [] && w.undoing == map[] && w.down != []
    ensures Insecure(Apply(w, Deliver), p, o)
  {
    var r, w' := w.down[0], Apply(w, Deliver);
    DeliverFrame(w);
    assert Carries(w, InDown(0), r.id);
    forall s | s in w.down && s != r ensures s in w'.down && s.id != r.id {
      var i :| 0 <= i < |w.down| && w.down[i] == s;
      assert Carries(w, InDown(i), s.id);
      assert w'.down[i - 1] == s;
    }
    assert r.id in w.failing ==> Carries(w, InFailing, r.id);
    forall c | c in w.calls && w.calls[c].Ready? ensures IdOf(w.calls[c].message) != Some(r.id) {
      assert IdOf(w.calls[c].message) == Some(r.id) ==> Carries(w, InCall(c), r.id);
    }
    CompleteInsecure(w, w', p, o, r.id, r.error);
  }

  lemma NotifierInsecure(w: World, p: Path, o: Source, id: Id)
    requires Insecure(w, p, o) && Distinct(w) && w.up == [] && w.undoing == map[] && w.down == [] && id in w.failing
    ensures Insecure(Apply(w, NotifierFires(id)), p, o)
  {
    assert Carries(w, InFailing, id);
    forall c | c in w.calls && w.calls[c].Ready? ensures IdOf(w.calls[c].message) != Some(id) {
      assert IdOf(w.calls[c].message) == Some(id) ==> Carries(w, InCall(c), id);
    }
    CompleteInsecure(w, Apply(w, NotifierFires(id)), p, o, id, true);
  }

  lemma IdleUnregistered(w: World, p: Path, o: Source)
    requires Insecure(w, p, o) && w.up == [] && w.undoing == map[] && w.down == [] && w.failing == {}
    requires forall d, k :: o != Calling(d) ==> !IsThreat(w, Item(k, p), Calling(d))
    ensures !Registered(w, p)
  {
    forall k ensures Item(k, p) !in w.registered {
      forall x | x != o ensures !IsThreat(w, Item(k, p), x) { }
    }
  }

  /** If the daemon has the path already, that is a claim with no fewer threats. */
  lemma HeldToo(w: World, p: Path)
    requires Insecure(w, p, Flying(0)) && p in w.owned
    ensures Insecure(w, p, Held)
  {
    forall k | Item(k, p) in w.registered ensures Threatened(w, Item(k, p), Held) {
      if !Erring(w, Item(k, p)) { var x :| x != Flying(0) && IsThreat(w, Item(k, p), x); }
    }
  }

  /** The daemon reads everything, other calls fail, errors run their course, and the claim finds nothing registered. */
  lemma {:induction false} InsecureDoomed(w: World, p: Path, o: Source)
    requires Insecure(w, p, o) && Numbered(w) && Distinct(w)
    ensures Doomed(w)
    decreases |w.up|, |w.calls|, |w.down|, |w.failing|, |w.undoing|, 2, 0
  {
    if w.up != [] {
      FlightGoesOn(w, p, o);
    } else if d, k :| o != Calling(d) && IsThreat(w, Item(k, p), Calling(d)) {
      OtherCallFails(w, p, o, d, k);
    } else {
      ErrorsGoOn(w, p, o);
    }
  }

  lemma ErrorsGoOn(w: World, p: Path, o: Source)
    requires Insecure(w, p, o) && Numbered(w) && Distinct(w) && w.up == []
    requires forall d, k :: o != Calling(d) ==> !IsThreat(w, Item(k, p), Calling(d))
    ensures Doomed(w)
    decreases |w.up|, |w.calls|, |w.down|, |w.failing|, |w.undoing|, 1, 0
  {
    if id :| id in w.undoing {
      UndoGoesOn(w, p, o, id);
    } else if w.down != [] {
      DeliverInsecure(w, p, o);
      DeliverFrame(w);
      NextDoomed(w, Deliver, p, o);
    } else if id :| id in w.failing {
      NotifierGoesOn(w, p, o, id);
    } else {
      IdleUnregistered(w, p, o);
      ClaimDoomed(w, p, o);
    }
  }

  lemma UndoGoesOn(w: World, p: Path, o: Source, id: Id)
    requires Insecure(w, p, o) && Numbered(w) && Distinct(w) && id in w.undoing
    ensures Doomed(w)
    decreases |w.up|, |w.calls|, |w.down|, |w.failing|, |w.undoing|, 0, 1
  {
    UndoInsecure(w, p, o, id);
    FewerUndoing(w.undoing, id);
    NextDoomed(w, Undo(id), p, o);
  }

  lemma NotifierGoesOn(w: World, p: Path, o: Source, id: Id)
    requires Insecure(w, p, o) && Numbered(w) && Distinct(w)
    requires w.up == [] && w.undoing == map[] && w.down == [] && id in w.failing
    ensures Doomed(w)
    decreases |w.up|, |w.calls|, |w.down|, |w.failing|, |w.undoing|, 0, 1
  {
    NotifierInsecure(w, p, o, id);
    assert |w.failing - {id}| < |w.failing|;
    NextDoomed(w, NotifierFires(id), p, o);
  }

  lemma FlightGoesOn(w: World, p: Path, o: Source)
    requires Insecure(w, p, o) && Numbered(w) && Distinct(w) && w.up != []
    ensures Doomed(w)
    decreases |w.up|, |w.calls|, |w.down|, |w.failing|, |w.undoing|, 1, 0
  {
    var o' := o;
    if o == Flying(0) && p in w.owned {
      HeldToo(w, p);
      o' := Held;
    }
    DaemonInsecure(w, p, o');
    NextDoomed(w, Daemon(o' == Flying(0)), p, After(o'));
  }

  lemma OtherCallFails(w: World, p: Path, o: Source, d: CallId, k: Kind)
    requires Insecure(w, p, o) && Numbered(w) && Distinct(w)
    requires o != Calling(d) && IsThreat(w, Item(k, p), Calling(d))
    ensures Doomed(w)
    decreases |w.up|, |w.calls|, |w.down|, |w.failing|, |w.undoing|, 1, 0
  {
    if w.calls[d].Begun? {
      var w1 := Apply(w, Store(d));
      StoreInsecure(w, p, o, d);
      NumbersKept(w, Store(d));
      DistinctKept(w, Store(d));
      SameCount(w.calls, d, w1.calls[d]);
      FewerCalls(w1.calls, d);
      FailInsecure(w1, p, o, d);
      NextDoomed(w1, Send(d, false), p, o);
      Back(w, Store(d));
    } else {
      FewerCalls(w.calls, d);
      FailInsecure(w, p, o, d);
      NextDoomed(w, Send(d, false), p, o);
    }
  }

  lemma NextDoomed(w: World, step: Step, p: Path, o: Source)
    requires Enabled(w, step) && Quiet(w, step) && Numbered(w) && Distinct(w) && Insecure(Apply(w, step), p, o)
    requires var w' := Apply(w, step);
             || |w'.up| < |w.up|
             || (w'.up == w.up && |w'.calls| < |w.calls|)
             || (w'.up == w.up && w'.calls == w.calls && |w'.down| < |w.down|)
             || (w'.up == w.up && w'.calls == w.calls && w'.down == w.down && |w'.failing| < |w.failing|)
             || (w'.up == w.up && w'.calls == w.calls && w'.down == w.down && w'.failing == w.failing
                 && |w'.undoing| < |w.undoing|)
    ensures Doomed(w)
    decreases |w.up|, |w.calls|, |w.down|, |w.failing|, |w.undoing|, 0, 0
  {
    NumbersKept(w, step);
    DistinctKept(w, step);
    InsecureDoomed(Apply(w, step), p, o);
    Back(w, step);
  }

  lemma FewerUndoing(undoing: map<Id, Item>, id: Id)
    requires id in undoing
    ensures |undoing - {id}| < |undoing|
  {
    assert (undoing - {id}).Keys == undoing.Keys - {id};
    assert |(undoing - {id}).Keys| < |undoing.Keys|;
  }

  // ---- the discipline is exact ----

  /** The safe states are exactly those in which every path satisfies the invariant. */
  lemma SafeIffInv(w: World)
    requires Numbered(w) && Distinct(w) && (!w.linkUp ==> w.up == [] && w.owned == {})
    ensures Inv(w) <==> !Doomed(w)
  {
    if Inv(w) {
      InvSafe(w);
    } else {
      var p :| !PathInv(w, p);
      var o :| IsSource(w, p, o) && !Secure(w, p, o);
      forall k | Item(k, p) in w.registered ensures Threatened(w, Item(k, p), o) {
        assert !SecuredBy(w, Item(k, p), o);
      }
      InsecureDoomed(w, p, o);
    }
  }

  lemma InvSafe(w: World)
    requires Inv(w)
    ensures !Doomed(w)
  {
    forall ws, steps | Continues(ws, steps) && ws[0] == w ensures Accounted(ws[|steps|]) {
      ContinuesInv(ws, steps, |steps|);
      InvAccounted(ws[|steps|]);
    }
  }

  lemma {:induction false} ContinuesInv(ws: seq<World>, steps: seq<Step>, i: nat)
    requires Continues(ws, steps) && Inv(ws[0]) && i < |ws|
    ensures Inv(ws[i])
  {
    if i > 0 {
      ContinuesInv(ws, steps, i - 1);
      QuietIsDisciplined(ws[i - 1], steps[i - 1]);
      StepKeepsInv(ws[i - 1], steps[i - 1]);
    }
  }

  /** Breaking a rule leaves some claim insecure. */
  lemma IndisciplineHurts(w: World, step: Step)
    requires Inv(w) && Enabled(w, step) && (forall p :: PathInv(Apply(w, step), p))
    ensures Disciplined(w, step)
  {
    match step
    case Register(_, _, _) => RegisterAllowed(w, step);
    case Unregister(_, _) => UnregisterAllowed(w, step);
    case Send(c, ok) =>
      if !ok && w.calls[c].message.Remove? { assert Apply(w, step) == w.(calls := w.calls - {c}); }
    case ClearTable(kind) => ClearAllowed(w, kind);
    case CancelAll => CancelAllowed(w);
    case _ =>
  }

  lemma RegisterAllowed(w: World, step: Step)
    requires step.Register? && Enabled(w, step) && PathInv(Apply(w, step), step.item.path)
    ensures Disciplined(w, step)
  {
    var w', item, p, c := Apply(w, step), step.item, step.item.path, step.call;
    CallBegun(w, step);
    assert IsSource(w', p, Calling(c));
    var k :| SecuredBy(w', Item(k, p), Calling(c));
    if Item(k, p) == item {
      assert !Threatened(w, item, Held);
      forall o | step.result && IsSource(w, p, o) ensures SecuredBy(w, Other(item), o) {
        assert IsThreat(w', item, Calling(c)) && o != Calling(c);
        var l :| SecuredBy(w', Item(l, p), o);
        assert Threatened(w', item, o);
        OtherItem(Item(l, p), item);
        forall x | IsThreat(w, Other(item), x) ensures x == o { assert IsThreat(w', Other(item), x); }
      }
    } else {
      assert Item(k, p) == Other(item);
      forall x ensures !IsThreat(w, Other(item), x) {
        assert x == Calling(c) || !IsThreat(w', Other(item), x);
      }
      assert Sheltered(w, Other(item));
    }
  }

  lemma OtherItem(a: Item, b: Item)
    requires a.path == b.path && a != b
    ensures a == Other(b)
  {
    match a.kind case StateKind => case MethodKind =>
  }

  lemma UnregisterAllowed(w: World, step: Step)
    requires step.Unregister? && Enabled(w, step) && PathInv(Apply(w, step), step.item.path)
    ensures Disciplined(w, step)
  {
    var w', item, p := Apply(w, step), step.item, step.item.path;
    CallBegun(w, step);
    forall c | IsSource(w, p, Calling(c)) ensures SecuredBy(w, Other(item), Calling(c)) {
      var k :| SecuredBy(w', Item(k, p), Calling(c));
      OtherItem(Item(k, p), item);
      forall x | IsThreat(w, Other(item), x) ensures x == Calling(c) { assert IsThreat(w', Other(item), x); }
    }
  }

  lemma ClearAllowed(w: World, kind: Kind)
    requires forall p :: PathInv(Apply(w, ClearTable(kind)), p)
    ensures Disciplined(w, ClearTable(kind))
  {
    var w' := Apply(w, ClearTable(kind));
    forall item, o | item in w.registered && item.kind == kind && IsSource(w, item.path, o)
      ensures SecuredBy(w, Other(item), o)
    {
      assert PathInv(w', item.path) && IsSource(w', item.path, o);
      var k :| SecuredBy(w', Item(k, item.path), o);
      assert Item(k, item.path) == Other(item);
      SameErring(w, w', Other(item));
      forall x | IsThreat(w, Other(item), x) ensures x == o { assert IsThreat(w', Other(item), x); }
    }
  }

  lemma CancelAllowed(w: World)
    requires Numbered(w) && forall p :: PathInv(Apply(w, CancelAll), p)
    ensures Disciplined(w, CancelAll)
  {
    var w' := Apply(w, CancelAll);
    forall id, o | id in w.open && IsSource(w, w.open[id].path, o) ensures Survives(w, w.open[id].path, o) {
      var p := w.open[id].path;
      assert PathInv(w', p) && IsSource(w', p, o);
      var k :| SecuredBy(w', Item(k, p), o);
      CancelHurts(w, Item(k, p));
      NotCancelled(w, Item(k, p), o);
    }
  }

  lemma NotCancelled(w: World, item: Item, o: Source)
    requires SecuredBy(Apply(w, CancelAll), item, o) && item !in w.open.Values && Numbered(w)
    ensures SecuredBy(w, item, o)
  {
    var w' := Apply(w, CancelAll);
    forall r ensures !ErrorReply(w, r, item) { assert r.id in w.open ==> w.open[r.id] in w.open.Values; }
    forall id | id in w.open ensures w.open[id] != item { assert w.open[id] in w.open.Values; }
    forall id | id in w.undoing ensures w.undoing[id] != item { assert w'.undoing[id] == w.undoing[id]; }
    forall x | IsThreat(w, item, x) ensures x == o { assert IsThreat(w', item, x); }
  }

  /**
   The discipline is exact: a step respects it if and only if every path stays
   accounted for, whatever happens until somebody calls the peer, a REMOVE fails to be
   sent, or a peer is stopped.
   */
  lemma DisciplineExact(w: World, step: Step)
    requires Inv(w) && Enabled(w, step)
    ensures Disciplined(w, step) <==> !Doomed(Apply(w, step))
  {
    var w' := Apply(w, step);
    if Disciplined(w, step) {
      StepKeepsInv(w, step);
      InvSafe(w');
    } else {
      NumbersKept(w, step);
      DistinctKept(w, step);
      if Inv(w') { IndisciplineHurts(w, step); }
      SafeIffInv(w');
    }
  }

  // ---- how registrations get lost ----

  /** The registration was the only one of its path, and the daemon has the path or will get it. */
  lemma ReAddInsecure(w: World, c: CallId, item: Item, o: Source)
    requires c !in w.calls && Numbered(w) && Other(item) !in w.registered
    requires IsSource(w, item.path, o) && !o.Calling?
    ensures var w2 := StoreStep(Apply(w, Register(c, item, true)), c);
            Insecure(w2, item.path, o) && IsThreat(w2, item, Calling(c))
  {
    var w1, p := Apply(w, Register(c, item, true)), item.path;
    CallBegun(w, Register(c, item, true));
    forall k | Item(k, p) in w1.registered ensures Threatened(w1, Item(k, p), o) {
      if Item(k, p) != item { OtherItem(Item(k, p), item); }
      assert IsThreat(w1, item, Calling(c));
    }
    NumbersKept(w, Register(c, item, true));
    StoreRisks(w1, c);
    StoreInsecure(w1, p, o, c);
  }

  lemma SentInsecure(w: World, p: Path, o: Source, item: Item, c: CallId)
    requires Insecure(w, p, o) && !o.Calling? && w.linkUp && Enabled(w, Send(c, true)) && w.calls[c].message.Add?
    requires item.path == p && IsThreat(w, item, Calling(c))
    requires forall k :: Item(k, p) in w.registered ==> Item(k, p) == item
    ensures Insecure(SendStep(w, c, true), p, o)
  {
    var w', n := SendStep(w, c, true), |w.up|;
    assert w'.up[n] == w.calls[c].message && forall i :: 0 <= i < n ==> w'.up[i] == w.up[i];
    forall d | d in w.calls && d != c ensures d in w'.calls && w'.calls[d] == w.calls[d] { }
    assert IsThreat(w', item, Flying(n));
  }

  /**
   Adding a path again that the daemon has or will get, under the only kind it is
   registered for and with a result, can lose the registration, whether the request is
   sent or not.
   */
  lemma ReAddSurfaces(w: World, c: CallId, item: Item, o: Source, ok: bool)
    requires Inv(w) && c !in w.calls && Other(item) !in w.registered
    requires IsSource(w, item.path, o) && !o.Calling?
    ensures Doomed(SendStep(StoreStep(Apply(w, Register(c, item, true)), c), c, ok))
  {
    var w1 := Apply(w, Register(c, item, true));
    var w2 := Apply(w1, Store(c));
    ReAddInsecure(w, c, item, o);
    NumbersKept(w, Register(c, item, true));
    NumbersKept(w1, Store(c));
    NumbersKept(w2, Send(c, ok));
    DistinctKept(w, Register(c, item, true));
    DistinctKept(w1, Store(c));
    DistinctKept(w2, Send(c, ok));
    if ok {
      forall k | Item(k, item.path) in w2.registered ensures Item(k, item.path) == item {
        if Item(k, item.path) != item { OtherItem(Item(k, item.path), item); }
      }
      SentInsecure(w2, item.path, o, item, c);
    } else {
      FailInsecure(w2, item.path, o, c);
    }
    InsecureDoomed(Apply(w2, Send(c, ok)), item.path, o);
  }

  ghost predicate Reachable(w: World) {
    exists ws, steps :: IsRun(ws, steps) && ws[|steps|] == w
  }

  lemma ReachInit()
    ensures Reachable(INIT)
  {
    var none: seq<Step> := [];
    assert IsRun([INIT], none) && [INIT][|none|] == INIT;
  }

  lemma Extend(w: World, step: Step)
    requires Reachable(w) && Enabled(w, step)
    ensures Reachable(Apply(w, step))
  {
    var ws, steps :| IsRun(ws, steps) && ws[|steps|] == w;
    var ws', steps' := ws + [Apply(w, step)], steps + [step];
    forall i | 0 <= i < |steps'| ensures Enabled(ws'[i], steps'[i]) && ws'[i + 1] == Apply(ws'[i], steps'[i]) {
      assert ws'[i] == ws[i];
      if i < |steps| { assert steps'[i] == steps[i] && ws'[i + 1] == ws[i + 1]; }
    }
    assert IsRun(ws', steps') && ws'[|steps'|] == Apply(w, step);
  }

  /** A call registers `item` and stores its callback under `id`. */
  lemma BeginAdd(w: World, item: Item) returns (w': World)
    requires Reachable(w) && w.calls == map[]
    ensures Reachable(w')
    ensures w' == w.(registered := w.registered + {item}, nextId := w.nextId + 1, open := w.open[w.nextId := item],
                     calls := map[0 := Ready(Add(item.path, Some(w.nextId)))])
  {
    Extend(w, Register(0, item, true));
    w' := Apply(w, Register(0, item, true));
    Extend(w', Store(0));
    w' := Apply(w', Store(0));
    assert w'.calls == map[0 := Ready(Add(item.path, Some(w.nextId)))];
  }

  lemma SendAndAnswer(w: World, p: Path, id: Id, accept: bool) returns (w': World)
    requires Reachable(w) && w.linkUp && w.calls == map[0 := Ready(Add(p, Some(id)))]
    requires w.up == [] && w.down == [] && (accept ==> p !in w.owned)
    ensures Reachable(w') && w' == w.(calls := map[], down := [Reply(id, !accept)],
                                      owned := if accept then w.owned + {p} else w.owned)
  {
    Extend(w, Send(0, true));
    w' := Apply(w, Send(0, true));
    assert w'.up == [Add(p, Some(id))];
    Extend(w', Daemon(accept));
    w' := Apply(w', Daemon(accept));
  }

  /** Adding a registered path again lets the refusal of the duplicate drop the first registration. */
  lemma DuplicateAddOrphans(item: Item) returns (w: World)
    ensures Reachable(w) && !Accounted(w)
  {
    ReachInit();
    w := BeginAdd(INIT, item);
    w := SendAndAnswer(w, item.path, 0, true);
    Extend(w, Deliver);
    w := Apply(w, Deliver);
    w := BeginAdd(w, item);
    w := SendAndAnswer(w, item.path, 1, false);
    Extend(w, Deliver);
    w := Apply(w, Deliver);
    Extend(w, Undo(1));
    w := Apply(w, Undo(1));
    assert item.path in w.owned && !Registered(w, item.path) && !Removing(w, item.path);
  }

  /** Another peer of the process stops after the callback was stored and before the request is sent. */
  lemma ForeignStopOrphans(item: Item) returns (w: World)
    ensures Reachable(w) && !Accounted(w)
  {
    ReachInit();
    w := BeginAdd(INIT, item);
    Extend(w, CancelAll);
    w := Apply(w, CancelAll);
    Extend(w, Undo(0));
    w := Apply(w, Undo(0));
    w := SendAndAnswer(w, item.path, 0, true);
    assert item.path in w.owned && !Registered(w, item.path) && !Removing(w, item.path);
  }

  /** `stop()` and `start()`. */
  lemma Restarted(w: World) returns (w': World)
    requires Reachable(w)
    ensures Reachable(w') && w'.calls == w.calls && w'.linkUp && w'.registered == {}
    ensures w'.up == [] && w'.down == [] && w'.owned == {}
  {
    Extend(w, Disconnect);
    w' := Apply(w, Disconnect);
    Extend(w', ClearTable(StateKind));
    w' := Apply(w', ClearTable(StateKind));
    Extend(w', ClearTable(MethodKind));
    w' := Apply(w', ClearTable(MethodKind));
    Extend(w', CancelAll);
    w' := Apply(w', CancelAll);
    Extend(w', Start);
    w' := Apply(w', Start);
  }

  /** The peer stops and starts between registering a path and sending its request. */
  lemma OwnStopOrphans(item: Item) returns (w: World)
    ensures Reachable(w) && !Accounted(w)
  {
    ReachInit();
    w := BeginAdd(INIT, item);
    w := Restarted(w);
    w := SendAndAnswer(w, item.path, 0, true);
    assert item.path in w.owned && !Registered(w, item.path) && !Removing(w, item.path);
  }
}
