/**
 The system of Causality.dfy seen from its steps alone: where results, notes and
 replies come from, and read your writes as a statement about calls and deliveries.
 */
module Provenance {
  import opened Common
  import Matching
  import opened Causality
  import opened Settlement

  // ---- events of a run ----

  datatype Happening =
    | Asked(t: Tag, path: Path, value: Value)   // the caller issues set t
    | Taken(t: Tag, path: Path, value: Value, owner: Option<PeerId>)  // the daemon takes it and knows who owns the path
    | Handled(q: PeerId, t: Tag, path: Path, value: Value, outcome: Outcome)  // the owner's callback ends
    | Ran(p: PeerId, note: Down)                // a fetch callback runs

  ghost predicate Occurs(w: World, step: Step, e: Happening) {
    match e
    case Asked(t, path, value) => step == SetState(t.caller, path, value) && w.peers(t.caller).nextReq == t.req
    case Taken(t, path, value, owner) =>
      && step.Daemon? && step.p == t.caller && w.peers(t.caller).up != []
      && w.peers(t.caller).up[0] == Set(t.req, path, value)
      && owner == if path in w.states then Some(w.states[path].owner) else None
    case Handled(q, t, path, value, outcome) =>
      step == Deliver(q, outcome) && w.peers(q).down != [] && w.peers(q).down[0] == Routed(t, path, value)
    case Ran(p, n) =>
      && step.Deliver? && step.p == p && w.peers(p).down != [] && w.peers(p).down[0] == n
      && n.Note? && n.fetch in w.peers(p).table
  }

  /** `e` happens in a step before state `i`. */
  ghost predicate Happened(ws: seq<World>, steps: seq<Step>, i: nat, e: Happening)
    requires i < |ws| == |steps| + 1
  {
    exists j: nat :: j < i && Occurs(ws[j], steps[j], e)
  }

  lemma StillHappened(ws: seq<World>, steps: seq<Step>, i: nat, e: Happening)
    requires i + 1 < |ws| == |steps| + 1
    ensures Happened(ws, steps, i, e) || Occurs(ws[i], steps[i], e) ==> Happened(ws, steps, i + 1, e)
  {
    if Happened(ws, steps, i, e) {
      var j: nat :| j < i && Occurs(ws[j], steps[j], e);
      assert j < i + 1;
    }
  }

  // ---- from the result back to the callback and the call ----

  lemma NotNoted(batch: Batch, q: PeerId, d: Down)
    requires OnlyNotes(batch) && !d.Note?
    ensures d !in batch(q)
  {
  }

  lemma SetBefore(w: World, step: Step, t: Tag, path: Path, value: Value)
    requires Enabled(w, step) && Set(t.req, path, value) in Apply(w, step).peers(t.caller).up
    ensures Set(t.req, path, value) in w.peers(t.caller).up || Occurs(w, step, Asked(t, path, value))
  {
    if step.Daemon? { TakeShape(w, step, t.caller); }
  }

  /** A set on its way to the daemon was issued by its caller. */
  lemma {:induction false} SetOrigin(ws: seq<World>, steps: seq<Step>, i: nat, t: Tag, path: Path, value: Value)
    requires IsRun(ws, steps) && i < |ws| && Set(t.req, path, value) in ws[i].peers(t.caller).up
    ensures Happened(ws, steps, i, Asked(t, path, value))
  {
    SetBefore(ws[i - 1], steps[i - 1], t, path, value);
    if Set(t.req, path, value) in ws[i - 1].peers(t.caller).up { SetOrigin(ws, steps, i - 1, t, path, value); }
    StillHappened(ws, steps, i - 1, Asked(t, path, value));
  }

  lemma RoutedBefore(w: World, step: Step, q: PeerId, t: Tag, path: Path, value: Value)
    requires Enabled(w, step) && Routed(t, path, value) in Apply(w, step).peers(q).down
    ensures Routed(t, path, value) in w.peers(q).down || Occurs(w, step, Taken(t, path, value, Some(q)))
  {
    if step.Daemon? {
      TakeShape(w, step, q);
      MayNote(w, step.p, w.peers(step.p).up[0], step.refuse, step.batch);
      NotNoted(step.batch, q, Routed(t, path, value));
    } else if step.Disconnect? {
      NotNoted(step.batch, q, Routed(t, path, value));
    }
  }

  /** A routed set was taken by the daemon while the peer owned the path. */
  lemma {:induction false} RoutedOrigin(ws: seq<World>, steps: seq<Step>, i: nat, q: PeerId, t: Tag, path: Path,
                                        value: Value)
    requires IsRun(ws, steps) && i < |ws| && Routed(t, path, value) in ws[i].peers(q).down
    ensures Happened(ws, steps, i, Taken(t, path, value, Some(q)))
  {
    RoutedBefore(ws[i - 1], steps[i - 1], q, t, path, value);
    if Routed(t, path, value) in ws[i - 1].peers(q).down { RoutedOrigin(ws, steps, i - 1, q, t, path, value); }
    StillHappened(ws, steps, i - 1, Taken(t, path, value, Some(q)));
  }

  /** What an outcome is answered with: an error, or success with the change the callback returned. */
  predicate Fits(outcome: Outcome, path: Path, ok: bool, carried: Option<Carried>) {
    match outcome
    case Ignored => false
    case Failed => !ok && carried == None
    case Done(None) => ok && carried == None
    case Done(Some(v)) => ok && carried == Some(Carried(path, v))
    case GaveUp(v) => ok && carried == Some(Carried(path, v))
  }

  /** Some callback ended with an outcome that `a` answers. */
  ghost predicate HasOutcome(ws: seq<World>, steps: seq<Step>, i: nat, a: Answer)
    requires i < |ws| == |steps| + 1
  {
    exists q: PeerId, path, value, outcome ::
      Happened(ws, steps, i, Handled(q, a.tag, path, value, outcome)) && Fits(outcome, path, a.ok, a.carried)
  }

  lemma StillOutcome(ws: seq<World>, steps: seq<Step>, i: nat, a: Answer)
    requires i + 1 < |ws| == |steps| + 1 && HasOutcome(ws, steps, i, a)
    ensures HasOutcome(ws, steps, i + 1, a)
  {
    var q: PeerId, path, value, outcome :|
      Happened(ws, steps, i, Handled(q, a.tag, path, value, outcome)) && Fits(outcome, path, a.ok, a.carried);
    StillHappened(ws, steps, i, Handled(q, a.tag, path, value, outcome));
  }

  lemma AnsweringBefore(w: World, step: Step, q: PeerId, a: Answer)
    requires Enabled(w, step) && Apply(w, step).peers(q).answering == Some(a)
    ensures || w.peers(q).answering == Some(a)
            || (step.Deliver? && step.p == q && w.peers(q).down[0].Routed? && w.peers(q).down[0].tag == a.tag
                && Fits(step.outcome, w.peers(q).down[0].path, a.ok, a.carried))
  {
    if step.Daemon? { TakeShape(w, step, q); }
  }

  lemma RespondBefore(w: World, step: Step, q: PeerId, a: Answer)
    requires Enabled(w, step) && Respond(a) in Apply(w, step).peers(q).up
    ensures Respond(a) in w.peers(q).up || w.peers(q).answering == Some(a)
  {
    if step.Daemon? { TakeShape(w, step, q); }
  }

  lemma {:induction false} AnsweringOrigin(ws: seq<World>, steps: seq<Step>, i: nat, q: PeerId, a: Answer)
    requires IsRun(ws, steps) && i < |ws| && ws[i].peers(q).answering == Some(a)
    ensures HasOutcome(ws, steps, i, a)
    decreases i
  {
    var w, step := ws[i - 1], steps[i - 1];
    AnsweringBefore(w, step, q, a);
    if w.peers(q).answering == Some(a) {
      AnsweringOrigin(ws, steps, i - 1, q, a);
      StillOutcome(ws, steps, i - 1, a);
    } else {
      var d := w.peers(q).down[0];
      StillHappened(ws, steps, i - 1, Handled(q, a.tag, d.path, d.value, step.outcome));
    }
  }

  lemma {:induction false} RespondOrigin(ws: seq<World>, steps: seq<Step>, i: nat, q: PeerId, a: Answer)
    requires IsRun(ws, steps) && i < |ws| && Respond(a) in ws[i].peers(q).up
    ensures HasOutcome(ws, steps, i, a)
    decreases i
  {
    RespondBefore(ws[i - 1], steps[i - 1], q, a);
    if Respond(a) in ws[i - 1].peers(q).up {
      RespondOrigin(ws, steps, i - 1, q, a);
    } else {
      AnsweringOrigin(ws, steps, i - 1, q, a);
    }
    StillOutcome(ws, steps, i - 1, a);
  }

  /** The daemon took the set and did not know its path. */
  ghost predicate Unknown(ws: seq<World>, steps: seq<Step>, i: nat, t: Tag)
    requires i < |ws| == |steps| + 1
  {
    exists path, value :: Happened(ws, steps, i, Taken(t, path, value, None))
  }

  lemma StillUnknown(ws: seq<World>, steps: seq<Step>, i: nat, t: Tag)
    requires i + 1 < |ws| == |steps| + 1 && Unknown(ws, steps, i, t)
    ensures Unknown(ws, steps, i + 1, t)
  {
    var path, value :| Happened(ws, steps, i, Taken(t, path, value, None));
    StillHappened(ws, steps, i, Taken(t, path, value, None));
  }

  lemma ResultBefore(w: World, step: Step, c: PeerId, s: ReqId, ok: bool, carried: Option<Carried>)
    requires Enabled(w, step) && Result(s, ok, carried) in Apply(w, step).peers(c).down
    ensures || Result(s, ok, carried) in w.peers(c).down
            || (step.Daemon? && w.peers(step.p).up[0] == Respond(Answer(Tag(c, s), ok, carried)))
            || (!ok && carried == None && exists path, value :: Occurs(w, step, Taken(Tag(c, s), path, value, None)))
  {
    if step.Daemon? {
      var m := w.peers(step.p).up[0];
      TakeShape(w, step, c);
      MayNote(w, step.p, m, step.refuse, step.batch);
      NotNoted(step.batch, c, Result(s, ok, carried));
      if m.Set? && m.path !in w.states && step.p == c && m.req == s {
        assert Occurs(w, step, Taken(Tag(c, s), m.path, m.value, None));
      }
    } else if step.Disconnect? {
      NotNoted(step.batch, c, Result(s, ok, carried));
    }
  }

  /**
   A result goes back to the owner's callback: success to one that returned, with the
   change it returned, failure to one that threw or to a path the daemon did not know.
   */
  lemma {:induction false} ResultOrigin(ws: seq<World>, steps: seq<Step>, i: nat, c: PeerId, s: ReqId, ok: bool,
                                        carried: Option<Carried>)
    requires IsRun(ws, steps) && i < |ws| && Result(s, ok, carried) in ws[i].peers(c).down
    ensures || HasOutcome(ws, steps, i, Answer(Tag(c, s), ok, carried))
            || (!ok && carried == None && Unknown(ws, steps, i, Tag(c, s)))
    decreases i
  {
    var w, step, a := ws[i - 1], steps[i - 1], Answer(Tag(c, s), ok, carried);
    ResultBefore(w, step, c, s, ok, carried);
    if Result(s, ok, carried) in w.peers(c).down {
      ResultOrigin(ws, steps, i - 1, c, s, ok, carried);
      if HasOutcome(ws, steps, i - 1, a) {
        StillOutcome(ws, steps, i - 1, a);
      } else {
        StillUnknown(ws, steps, i - 1, a.tag);
      }
    } else if step.Daemon? && w.peers(step.p).up[0] == Respond(a) {
      RespondOrigin(ws, steps, i - 1, step.p, a);
      StillOutcome(ws, steps, i - 1, a);
    } else {
      var path, value :| Occurs(w, step, Taken(Tag(c, s), path, value, None));
      StillHappened(ws, steps, i - 1, Taken(Tag(c, s), path, value, None));
    }
  }

  /** The callback that ended with an outcome got the path and value that the caller of the set passed. */
  lemma OutcomeOfCall(ws: seq<World>, steps: seq<Step>, i: nat, q: PeerId, t: Tag, path: Path, value: Value,
                      outcome: Outcome)
    requires IsRun(ws, steps) && i < |ws| && Happened(ws, steps, i, Handled(q, t, path, value, outcome))
    ensures Happened(ws, steps, i, Taken(t, path, value, Some(q))) && Happened(ws, steps, i, Asked(t, path, value))
  {
    var j: nat :| j < i && Occurs(ws[j], steps[j], Handled(q, t, path, value, outcome));
    RoutedOrigin(ws, steps, j, q, t, path, value);
    var k: nat :| k < j && Occurs(ws[k], steps[k], Taken(t, path, value, Some(q)));
    SetOrigin(ws, steps, k, t, path, value);
    var l: nat :| l < k && Occurs(ws[l], steps[l], Asked(t, path, value));
    assert k < i && l < i;
  }

  /**
   What a delivered result means: the caller issued this set, and if it succeeded, the
   callback of the peer that owned the path got the value, returned, and changed the
   state to exactly what the result carries; if it failed, the callback threw or the
   daemon did not know the path.
   */
  lemma ResultTellsOutcome(ws: seq<World>, steps: seq<Step>, i: nat, c: PeerId, s: ReqId, ok: bool,
                           carried: Option<Carried>)
    requires IsRun(ws, steps) && i < |ws| && Result(s, ok, carried) in ws[i].peers(c).down
    ensures || (exists q: PeerId, path, value, outcome ::
                  && Happened(ws, steps, i, Handled(q, Tag(c, s), path, value, outcome))
                  && Fits(outcome, path, ok, carried)
                  && Happened(ws, steps, i, Taken(Tag(c, s), path, value, Some(q)))
                  && Happened(ws, steps, i, Asked(Tag(c, s), path, value)))
            || (!ok && carried == None && Unknown(ws, steps, i, Tag(c, s)))
  {
    ResultOrigin(ws, steps, i, c, s, ok, carried);
    var a := Answer(Tag(c, s), ok, carried);
    if HasOutcome(ws, steps, i, a) {
      var q: PeerId, path, value, outcome :|
        Happened(ws, steps, i, Handled(q, a.tag, path, value, outcome)) && Fits(outcome, path, a.ok, a.carried);
      OutcomeOfCall(ws, steps, i, q, a.tag, path, value, outcome);
    }
  }

  // ---- read your writes, from the steps ----

  /** What a step does to the records of a peer, apart from its channels. */
  lemma PeerFrame(w: World, step: Step, p: PeerId)
    requires Enabled(w, step)
    ensures var x, y := w.peers(p), Apply(w, step).peers(p);
            if step.p == p && !step.Daemon? then y == PeerStep(x, step) else y == x.(up := y.up, down := y.down)
  {
    if step.Daemon? { TakeShape(w, step, p); }
  }

  /** Fetch ids are given out once: an entry was there before or is being made. */
  lemma TableBefore(w: World, step: Step, p: PeerId, f: FetchId)
    requires Enabled(w, step)
    ensures var x, y := w.peers(p), Apply(w, step).peers(p);
            && x.nextFetch <= y.nextFetch
            && (f in y.table && f < x.nextFetch ==> f in x.table && y.table[f] == x.table[f])
            && (step.AddFetch? && step.p == p ==>
                  y.table == x.table[x.nextFetch := step.matcher] && x.nextFetch < y.nextFetch)
  {
    PeerFrame(w, step, p);
  }

  lemma {:induction false} TableBack(ws: seq<World>, steps: seq<Step>, k: nat, i: nat, p: PeerId, f: FetchId)
    requires IsRun(ws, steps) && k <= i < |ws| && f < ws[k].peers(p).nextFetch
    ensures var x, y := ws[k].peers(p), ws[i].peers(p);
            f < y.nextFetch && (f in y.table ==> f in x.table && y.table[f] == x.table[f])
    decreases i
  {
    if k < i {
      TableBack(ws, steps, k, i - 1, p, f);
      TableBefore(ws[i - 1], steps[i - 1], p, f);
    }
  }

  /** A removed fetch is never registered again. */
  lemma RemovedStaysRemoved(ws: seq<World>, steps: seq<Step>, j: nat, i: nat, p: PeerId, f: FetchId)
    requires IsRun(ws, steps) && j < i < |ws| && steps[j] == RemoveFetch(p, f) && f < ws[j].peers(p).nextFetch
    ensures f !in ws[i].peers(p).table
  {
    PeerFrame(ws[j], steps[j], p);
    TableBack(ws, steps, j + 1, i, p, f);
  }

  lemma SentAfter(w: World, step: Step, p: PeerId, f: FetchId)
    requires Enabled(w, step) && !(step.Disconnect? && step.p == p)
    ensures f in w.peers(p).sent || (step.SendFetch? && step.p == p && step.fetch == f) ==>
              f in Apply(w, step).peers(p).sent
  {
    PeerFrame(w, step, p);
  }

  lemma {:induction false} SentSince(ws: seq<World>, steps: seq<Step>, j: nat, i: nat, p: PeerId, f: FetchId)
    requires IsRun(ws, steps) && j < i < |ws| && steps[j].SendFetch? && steps[j].p == p && steps[j].fetch == f
    requires forall h :: j < h < i ==> !(steps[h].Disconnect? && steps[h].p == p)
    ensures f in ws[i].peers(p).sent
    decreases i
  {
    if j < i - 1 { SentSince(ws, steps, j, i - 1, p, f); }
    SentAfter(ws[i - 1], steps[i - 1], p, f);
  }

  lemma OpenBefore(w: World, step: Step, p: PeerId, s: ReqId)
    requires Enabled(w, step)
    ensures var x, y := w.peers(p), Apply(w, step).peers(p);
            && x.nextReq <= y.nextReq
            && (s in y.open && s < x.nextReq ==> s in x.open && y.open[s] == x.open[s])
            && (step.SetState? && step.p == p ==>
                  x.nextReq < y.nextReq && y.open == x.open[x.nextReq := x.sent * x.table.Keys])
            && (step.Deliver? && step.p == p && x.down[0].Result? && x.down[0].req == s ==> s !in y.open)
  {
    PeerFrame(w, step, p);
  }

  lemma {:induction false} OpenBack(ws: seq<World>, steps: seq<Step>, k: nat, i: nat, p: PeerId, s: ReqId)
    requires IsRun(ws, steps) && k <= i < |ws| && s < ws[k].peers(p).nextReq
    ensures var x, y := ws[k].peers(p), ws[i].peers(p);
            s < y.nextReq && (s in y.open ==> s in x.open && y.open[s] == x.open[s])
    decreases i
  {
    if k < i {
      OpenBack(ws, steps, k, i - 1, p, s);
      OpenBefore(ws[i - 1], steps[i - 1], p, s);
    }
  }

  /** A result ends its request for good. */
  lemma ResultEndsRequest(ws: seq<World>, steps: seq<Step>, j: nat, i: nat, s: ReqId)
    requires IsRun(ws, steps) && j < i < |ws| && steps[j].Deliver?
    requires var x := ws[j].peers(steps[j].p); x.down[0].Result? && x.down[0].req == s && s < x.nextReq
    ensures s !in ws[i].peers(steps[j].p).open
  {
    OpenBefore(ws[j], steps[j], steps[j].p, s);
    OpenBack(ws, steps, j + 1, i, steps[j].p, s);
  }

  lemma CallingBefore(w: World, step: Step, p: PeerId, f: FetchId)
    requires Enabled(w, step)
    ensures var x, y := w.peers(p), Apply(w, step).peers(p);
            && x.nextFetch <= y.nextFetch
            && (f in y.calling ==> f in x.calling || (step.AddFetch? && step.p == p && step.sync && f == x.nextFetch))
            && (step == Return(p, f) ==> f !in y.calling)
  {
    PeerFrame(w, step, p);
  }

  lemma {:induction false} CallingBack(ws: seq<World>, steps: seq<Step>, k: nat, i: nat, p: PeerId, f: FetchId)
    requires IsRun(ws, steps) && k <= i < |ws| && f < ws[k].peers(p).nextFetch && f !in ws[k].peers(p).calling
    ensures f !in ws[i].peers(p).calling && f < ws[i].peers(p).nextFetch
    decreases i
  {
    if k < i {
      CallingBack(ws, steps, k, i - 1, p, f);
      CallingBefore(ws[i - 1], steps[i - 1], p, f);
    }
  }

  lemma LogBefore(w: World, step: Step, p: PeerId, n: Down)
    requires Enabled(w, step) && n in Apply(w, step).peers(p).log
    ensures n in w.peers(p).log || Occurs(w, step, Ran(p, n))
  {
    PeerFrame(w, step, p);
  }

  lemma {:induction false} LogOrigin(ws: seq<World>, steps: seq<Step>, i: nat, p: PeerId, n: Down)
    requires IsRun(ws, steps) && i < |ws| && n in ws[i].peers(p).log
    ensures Happened(ws, steps, i, Ran(p, n))
    decreases i
  {
    LogBefore(ws[i - 1], steps[i - 1], p, n);
    if n in ws[i - 1].peers(p).log { LogOrigin(ws, steps, i - 1, p, n); }
    StillHappened(ws, steps, i - 1, Ran(p, n));
  }

  /** The caller sent a fetch in step `j` and a set in step `k` on one connection; neither has ended at `i`. */
  ghost predicate Precedes(ws: seq<World>, steps: seq<Step>, a: nat, j: nat, k: nat, i: nat, p: PeerId)
    requires |ws| == |steps| + 1 && a < j < k < i < |ws|
  {
    && steps[a].AddFetch? && steps[a].p == p
    && steps[j].SendFetch? && steps[j].p == p && steps[j].fetch == ws[a].peers(p).nextFetch
    && steps[k].SetState? && steps[k].p == p
    && (forall h :: j < h < i ==> !(steps[h].Disconnect? && steps[h].p == p))
    && ws[a].peers(p).nextFetch in ws[i].peers(p).table && ws[k].peers(p).nextReq in ws[i].peers(p).open
  }

  lemma PrecedesLive(ws: seq<World>, steps: seq<Step>, a: nat, j: nat, k: nat, i: nat, p: PeerId)
    requires IsRun(ws, steps) && a < j < k < i < |ws| && Precedes(ws, steps, a, j, k, i, p)
    ensures var f, s, x := ws[a].peers(p).nextFetch, ws[k].peers(p).nextReq, ws[i].peers(p);
            Live(x, s, f) && x.table[f] == steps[a].matcher
  {
    var f, s := ws[a].peers(p).nextFetch, ws[k].peers(p).nextReq;
    EntrySince(ws, steps, a, k, p);
    EntrySince(ws, steps, a, i, p);
    TableBack(ws, steps, k, i, p, f);
    SentSince(ws, steps, j, k, p, f);
    OpenSince(ws, steps, k, i, p);
  }

  lemma EntrySince(ws: seq<World>, steps: seq<Step>, a: nat, i: nat, p: PeerId)
    requires IsRun(ws, steps) && a < i < |ws| && steps[a].AddFetch? && steps[a].p == p
    ensures var f, x := ws[a].peers(p).nextFetch, ws[i].peers(p);
            f < x.nextFetch && (f in x.table ==> x.table[f] == steps[a].matcher)
  {
    TableBefore(ws[a], steps[a], p, ws[a].peers(p).nextFetch);
    TableBack(ws, steps, a + 1, i, p, ws[a].peers(p).nextFetch);
  }

  lemma OpenSince(ws: seq<World>, steps: seq<Step>, k: nat, i: nat, p: PeerId)
    requires IsRun(ws, steps) && k < i < |ws| && steps[k].SetState? && steps[k].p == p
    ensures var s, x := ws[k].peers(p).nextReq, ws[k].peers(p);
            s in ws[i].peers(p).open ==> ws[i].peers(p).open[s] == x.sent * x.table.Keys
  {
    OpenBefore(ws[k], steps[k], p, ws[k].peers(p).nextReq);
    OpenBack(ws, steps, k + 1, i, p, ws[k].peers(p).nextReq);
  }

  /** The fetch was added asynchronously, or its synchronous call has returned. */
  ghost predicate Returned(ws: seq<World>, steps: seq<Step>, a: nat, i: nat)
    requires |ws| == |steps| + 1 && a < i < |ws| && steps[a].AddFetch?
  {
    !steps[a].sync || exists r :: a < r < i && steps[r] == Return(steps[a].p, ws[a].peers(steps[a].p).nextFetch)
  }

  lemma ReturnedNotCalling(ws: seq<World>, steps: seq<Step>, a: nat, i: nat)
    requires IsRun(ws, steps) && a < i < |ws| && steps[a].AddFetch? && Returned(ws, steps, a, i)
    ensures ws[a].peers(steps[a].p).nextFetch !in ws[i].peers(steps[a].p).calling
  {
    var p, f := steps[a].p, ws[a].peers(steps[a].p).nextFetch;
    TableBefore(ws[a], steps[a], p, f);
    if !steps[a].sync {
      RunInv(ws, steps, a);
      assert PeerInv(ws[a], p);
      CallingBefore(ws[a], steps[a], p, f);
      CallingBack(ws, steps, a + 1, i, p, f);
    } else {
      var r :| a < r < i && steps[r] == Return(p, f);
      TableBack(ws, steps, a + 1, r + 1, p, f);
      CallingBefore(ws[r], steps[r], p, f);
      CallingBack(ws, steps, r + 1, i, p, f);
    }
  }

  /**
   Read your writes. A peer adds a fetch (step `a`), sends it (`j`) and then sets a state
   on the same connection (`k`). When the successful result that carries a change arrives
   (`i`), the fetch is still registered and matches, and its call has returned if it was
   synchronous, then the fetch callback has already run with that change, provided no
   peer adds a path again that it removed on the same connection and no set callback
   removes its own state.
   */
  lemma ReadYourWrites(ws: seq<World>, steps: seq<Step>, a: nat, j: nat, k: nat, i: nat, p: PeerId, change: Carried)
    requires IsRun(ws, steps) && a < j < k < i < |steps| && Precedes(ws, steps, a, j, k, i, p)
    requires steps[i].Deliver? && steps[i].p == p
    requires ws[i].peers(p).down[0] == Result(ws[k].peers(p).nextReq, true, Some(change))
    requires Matching.Matches(steps[a].matcher, change.path) && Returned(ws, steps, a, i)
    requires forall h :: 0 <= h < i ==> Careful(ws[h], steps[h])
    ensures var f, t := ws[a].peers(p).nextFetch, Tag(p, ws[k].peers(p).nextReq);
            Happened(ws, steps, i, Ran(p, Note(f, Changed, change, Some(t))))
  {
    var f, s := ws[a].peers(p).nextFetch, ws[k].peers(p).nextReq;
    PrecedesLive(ws, steps, a, j, k, i, p);
    ReturnedNotCalling(ws, steps, a, i);
    CarefulSetsAreSeen(ws, steps, i, s, change, f);
    LogOrigin(ws, steps, i, p, Note(f, Changed, change, Some(Tag(p, s))));
  }

  // ---- what the other messages do ----

  /** The message that a call of the peer hands to the connection. */
  function Message(x: Peer, step: Step): Option<Up> {
    match step
    case SendFetch(_, f, m, mode) => Some(Fetch(f, m, mode))
    case SendUnfetch(_, f) => Some(Unfetch(f))
    case SetState(_, path, v) => Some(Set(x.nextReq, path, v))
    case Notify(_, path, v) => Some(Change(Carried(path, v), None))
    case SendAdd(_, path, v) => Some(Declare(path, v))
    case SendRemove(_, path) => Some(Withdraw(path))
    case SendResponse(_, ok) => if ok && x.answering.Some? then Some(Respond(x.answering.value)) else None
    case _ => None
  }

  lemma MessageSent(w: World, step: Step)
    requires Enabled(w, step) && Message(w.peers(step.p), step).Some?
    ensures Message(w.peers(step.p), step).value in Apply(w, step).peers(step.p).up
  {
    PeerFrame(w, step, step.p);
    var up := Apply(w, step).peers(step.p).up;
    assert up[|up| - 1] == Message(w.peers(step.p), step).value;
  }

  lemma MessageStays(w: World, step: Step, p: PeerId, m: Up)
    requires Enabled(w, step) && !(step.Disconnect? && step.p == p) && m in w.peers(p).up
    ensures m in Apply(w, step).peers(p).up || (step.Daemon? && step.p == p && w.peers(p).up[0] == m)
  {
    var k :| 0 <= k < |w.peers(p).up| && w.peers(p).up[k] == m;
    if step.Daemon? {
      TakeShape(w, step, p);
      if step.p == p && k > 0 { assert Apply(w, step).peers(p).up[k - 1] == m; }
    } else {
      UpGrows(w, step, p);
      assert Apply(w, step).peers(p).up[k] == m;
    }
  }

  ghost predicate Takes(w: World, step: Step, p: PeerId, m: Up) {
    step.Daemon? && step.p == p && w.peers(p).up != [] && w.peers(p).up[0] == m
  }

  /** The daemon takes message `m` of `p` in a step from `j` on and before state `i`. */
  ghost predicate TakenBetween(ws: seq<World>, steps: seq<Step>, j: nat, i: nat, p: PeerId, m: Up)
    requires i < |ws| == |steps| + 1
  {
    exists k {:trigger steps[k]} :: j <= k < i && Takes(ws[k], steps[k], p, m)
  }

  lemma StillTaken(ws: seq<World>, steps: seq<Step>, j: nat, i: nat, p: PeerId, m: Up)
    requires j <= i && i + 1 < |ws| == |steps| + 1
    requires TakenBetween(ws, steps, j, i, p, m) || Takes(ws[i], steps[i], p, m)
    ensures TakenBetween(ws, steps, j, i + 1, p, m)
  {
    if TakenBetween(ws, steps, j, i, p, m) {
      var k :| j <= k < i && Takes(ws[k], steps[k], p, m);
      assert k < i + 1;
    }
  }

  lemma {:induction false} OnItsWay(ws: seq<World>, steps: seq<Step>, j: nat, i: nat, p: PeerId, m: Up)
    requires IsRun(ws, steps) && j <= i < |ws| && m in ws[j].peers(p).up
    requires forall h {:trigger steps[h]} :: j <= h < i ==> !(steps[h].Disconnect? && steps[h].p == p)
    ensures m in ws[i].peers(p).up || TakenBetween(ws, steps, j, i, p, m)
    decreases i
  {
    if j < i {
      OnItsWay(ws, steps, j, i - 1, p, m);
      if m in ws[i - 1].peers(p).up { MessageStays(ws[i - 1], steps[i - 1], p, m); }
      if m !in ws[i].peers(p).up { StillTaken(ws, steps, j, i - 1, p, m); }
    }
  }

  /** Whatever a peer sends is on its way or has been taken by the daemon, unless the connection is lost. */
  lemma SentMessagesArrive(ws: seq<World>, steps: seq<Step>, j: nat, i: nat, m: Up)
    requires IsRun(ws, steps) && j < i < |ws| && Message(ws[j].peers(steps[j].p), steps[j]) == Some(m)
    requires forall h {:trigger steps[h]} :: j < h < i ==> !(steps[h].Disconnect? && steps[h].p == steps[j].p)
    ensures m in ws[i].peers(steps[j].p).up || TakenBetween(ws, steps, j + 1, i, steps[j].p, m)
  {
    MessageSent(ws[j], steps[j]);
    OnItsWay(ws, steps, j + 1, i, steps[j].p, m);
  }

  predicate IsFetch(m: Up, f: FetchId) {
    m.Fetch? && m.fetch == f
  }

  /** The UNFETCH of `f` is on its way with no FETCH of it behind. */
  ghost predicate Leaving(up: seq<Up>, f: FetchId) {
    exists n :: 0 <= n < |up| && up[n] == Unfetch(f) && forall k :: n < k < |up| ==> !IsFetch(up[k], f)
  }

  ghost predicate Left(w: World, p: PeerId, f: FetchId) {
    (p, f) !in w.fetches && forall k :: 0 <= k < |w.peers(p).up| ==> !IsFetch(w.peers(p).up[k], f)
  }

  lemma LeavingStep(w: World, step: Step, p: PeerId, f: FetchId)
    requires Enabled(w, step) && !(step.SendFetch? && step.p == p && step.fetch == f)
    requires Leaving(w.peers(p).up, f) || Left(w, p, f)
    ensures Leaving(Apply(w, step).peers(p).up, f) || Left(Apply(w, step), p, f)
  {
    var x, w' := w.peers(p).up, Apply(w, step);
    var y := w'.peers(p).up;
    if step.Daemon? {
      TakeShape(w, step, p);
      TakeRecords(w, step);
      if step.p == p { LeavingPop(w, step, p, f); }
    } else if !(step.Disconnect? && step.p == p) {
      UpGrows(w, step, p);
      if Leaving(x, f) {
        var n :| 0 <= n < |x| && x[n] == Unfetch(f) && forall k :: n < k < |x| ==> !IsFetch(x[k], f);
        assert y[n] == Unfetch(f);
      }
    }
  }

  /** A peer only appends to its channel, and a FETCH only by sending that fetch. */
  lemma UpGrows(w: World, step: Step, p: PeerId)
    requires Enabled(w, step) && !step.Daemon? && !(step.Disconnect? && step.p == p)
    ensures var x, y := w.peers(p).up, Apply(w, step).peers(p).up;
            && |x| <= |y| && (forall k :: 0 <= k < |x| ==> y[k] == x[k])
            && (forall k :: |x| <= k < |y| && y[k].Fetch? ==>
                  step.SendFetch? && step.p == p && step.fetch == y[k].fetch)
  {
    PeerFrame(w, step, p);
  }

  lemma LeavingPop(w: World, step: Step, p: PeerId, f: FetchId)
    requires Enabled(w, step) && step.Daemon? && step.p == p && (Leaving(w.peers(p).up, f) || Left(w, p, f))
    ensures Leaving(Apply(w, step).peers(p).up, f) || Left(Apply(w, step), p, f)
  {
    var x, w' := w.peers(p).up, Apply(w, step);
    TakeShape(w, step, p);
    TakeRecords(w, step);
    forall k | 0 <= k < |x| - 1 ensures w'.peers(p).up[k] == x[k + 1] { }
    if Leaving(x, f) {
      var n :| 0 <= n < |x| && x[n] == Unfetch(f) && forall k :: n < k < |x| ==> !IsFetch(x[k], f);
      if n > 0 { assert w'.peers(p).up[n - 1] == Unfetch(f); }
    }
  }

  /** After an UNFETCH the daemon drops the fetch once it has read that far, and keeps it so until it is sent again. */
  lemma {:induction false} UnfetchTakesEffect(ws: seq<World>, steps: seq<Step>, j: nat, i: nat, p: PeerId, f: FetchId)
    requires IsRun(ws, steps) && j < i < |ws| && steps[j] == SendUnfetch(p, f)
    requires forall h :: j < h < i ==> !(steps[h].SendFetch? && steps[h].p == p && steps[h].fetch == f)
    ensures Leaving(ws[i].peers(p).up, f) || Left(ws[i], p, f)
    decreases i
  {
    if j < i - 1 {
      UnfetchTakesEffect(ws, steps, j, i - 1, p, f);
      LeavingStep(ws[i - 1], steps[i - 1], p, f);
    } else {
      var up := ws[i].peers(p).up;
      assert up[|up| - 1] == Unfetch(f);
    }
  }

  /** The daemon takes a message of `p` that gives or takes the path, or forgets its owner. */
  ghost predicate Affects(w: World, step: Step, path: Path) {
    || (step.Daemon? && w.peers(step.p).up != [] && match w.peers(step.p).up[0]
          case Change(c, _) => c.path == path
          case Declare(q, _) => q == path
          case Withdraw(q) => q == path
          case _ => false)
    || (step.Disconnect? && Owns(w, step.p, path))
  }

  lemma StateKept(w: World, step: Step, path: Path)
    requires Enabled(w, step) && !Affects(w, step, path) && path in w.states
    ensures path in Apply(w, step).states && Apply(w, step).states[path] == w.states[path]
  {
  }

  lemma ChangeTaken(w: World, step: Step, change: Carried, cause: Option<Tag>)
    requires Enabled(w, step) && step.Daemon? && Owns(w, step.p, change.path)
    requires w.peers(step.p).up[0] == Change(change, cause)
    ensures var w' := Apply(w, step);
            change.path in w'.states && w'.states[change.path] == Owned(step.p, change.value)
  {
  }

  lemma {:induction false} StateSince(ws: seq<World>, steps: seq<Step>, k: nat, i: nat, path: Path)
    requires IsRun(ws, steps) && k <= i < |ws| && path in ws[k].states
    requires forall h {:trigger steps[h]} :: k <= h < i ==> !Affects(ws[h], steps[h], path)
    ensures path in ws[i].states && ws[i].states[path] == ws[k].states[path]
    decreases i
  {
    if k < i {
      StateSince(ws, steps, k, i - 1, path);
      StateKept(ws[i - 1], steps[i - 1], path);
    }
  }

  /** A change that its owner notified is the daemon's value until the next message about the path. */
  lemma ChangeHolds(ws: seq<World>, steps: seq<Step>, j: nat, i: nat, change: Carried, cause: Option<Tag>)
    requires IsRun(ws, steps) && j < i < |ws| && steps[j].Daemon? && Owns(ws[j], steps[j].p, change.path)
    requires ws[j].peers(steps[j].p).up != [] && ws[j].peers(steps[j].p).up[0] == Change(change, cause)
    requires forall h {:trigger steps[h]} :: j < h < i ==> !Affects(ws[h], steps[h], change.path)
    ensures change.path in ws[i].states && ws[i].states[change.path] == Owned(steps[j].p, change.value)
  {
    ChangeTaken(ws[j], steps[j], change, cause);
    StateSince(ws, steps, j + 1, i, change.path);
  }

  /** The step takes the path out of the peer's state registry. */
  predicate Unregisters(w: World, step: Step, p: PeerId, path: Path) {
    || step == RemoveState(p, path) || step == Unregister(p, path) || (step.Disconnect? && step.p == p)
    || (step.p == p && (p, path) in GivenUpBy(w.peers(p), step))
  }

  /** `p` added the path in step `j` and has not taken it out since. */
  ghost predicate AddedAt(ws: seq<World>, steps: seq<Step>, j: nat, i: nat, p: PeerId, path: Path)
    requires |ws| == |steps| + 1
  {
    && j < i <= |steps| && steps[j] == AddState(p, path)
    && forall h :: j < h < i ==> !Unregisters(ws[h], steps[h], p, path)
  }

  lemma RegisteredBefore(w: World, step: Step, p: PeerId, path: Path)
    requires Enabled(w, step) && (p, path) in Apply(w, step).registered
    ensures step == AddState(p, path) || ((p, path) in w.registered && !Unregisters(w, step, p, path))
  {
  }

  /** A routed set is handled only by a peer that has added the path and not given it up since. */
  lemma {:induction false} RegisteredOrigin(ws: seq<World>, steps: seq<Step>, i: nat, p: PeerId, path: Path)
    returns (j: nat)
    requires IsRun(ws, steps) && i < |ws| && (p, path) in ws[i].registered
    ensures AddedAt(ws, steps, j, i, p, path)
    decreases i
  {
    RegisteredBefore(ws[i - 1], steps[i - 1], p, path);
    if steps[i - 1] == AddState(p, path) {
      j := i - 1;
    } else {
      j := RegisteredOrigin(ws, steps, i - 1, p, path);
    }
  }
}
