/**
 The cache of matching states kept by tool/cache.cpp, fed by the notifications of
 one fetch over any number of connections. The daemon and its other clients are the
 environment; `sel` says which paths the fetch's matcher selects.
 */
module Replica {
  import opened Common
  import opened Json

  type Store = map<Path, Json>

  datatype Event = Added | Changed | Removed

  datatype Note = Note(event: Event, path: Path, value: Json)

  function ApplyNote(c: Store, n: Note): Store {
    if n.event == Removed then c - {n.path} else c[n.path := n.value]
  }

  /** The store after a sequence of notifications. */
  function Replay(c: Store, notes: seq<Note>): Store
    decreases |notes|
  {
    if notes == [] then c else Replay(ApplyNote(c, notes[0]), notes[1..])
  }

  lemma {:induction false} ReplayAppend(c: Store, notes: seq<Note>, n: Note)
    ensures Replay(c, notes + [n]) == ApplyNote(Replay(c, notes), n)
    decreases |notes|
  {
    if notes == [] {
      assert Replay(c, [n]) == Replay(ApplyNote(c, n), [n][1..]);
    } else {
      assert (notes + [n])[1..] == notes[1..] + [n];
      ReplayAppend(ApplyNote(c, notes[0]), notes[1..], n);
    }
  }

  // ---- the code ----

  const EVENT := "event"

  function EventText(e: Event): string {
    match e case Added => "add" case Changed => "change" case Removed => "remove"
  }

  /** The notification as the daemon sends it. */
  function Params(n: Note): Json {
    Obj(map[EVENT := Str(EventText(n.event)), PATH := Str(n.path), VALUE := n.value])
  }

  class Cache {
    var entries: Store

    constructor ()
      ensures entries == map[]
    {
      entries := map[];
    }

    /** `fetchCb`. */
    method FetchCb(params: Json, status: int)
      modifies this
      ensures entries == Noted(old(entries), params, status)
    {
      if status < 0 {
        return;
      }
      if params.Obj? {
        var event := AsString(Get(params, EVENT));
        var path := AsString(Get(params, PATH));
        var value := Get(params, VALUE);
        if event == "change" {
          entries := entries[path := value];
        } else if event == "add" {
          entries := entries[path := value];
        } else if event == "remove" {
          entries := entries - {path};
        }
      }
    }

    /** `getEntry`: the cached value, or an empty value for an unknown path. */
    method GetEntry(path: Path) returns (value: Json)
      ensures value == if path in entries then entries[path] else Null
    {
      if path in entries {
        return entries[path];
      }
      value := Null;
    }
  }

  /** A lost connection, anything but an object and unknown events leave the store alone. */
  function Noted(c: Store, params: Json, status: int): Store {
    var event := AsString(Get(params, EVENT));
    var path := AsString(Get(params, PATH));
    if status < 0 || !params.Obj? then c
    else if event == "add" || event == "change" then c[path := Get(params, VALUE)]
    else if event == "remove" then c - {path}
    else c
  }

  /** A notification delivered on a live connection does to the cache what it did to the daemon. */
  lemma NotedApplies(c: Store, n: Note, status: int)
    requires status >= 0
    ensures Noted(c, Params(n), status) == ApplyNote(c, n)
  {
    assert |EVENT| == 5 && |PATH| == 4 && |VALUE| == 5 && EVENT[0] != VALUE[0];
    assert EventText(Removed)[0] == 'r' && EventText(Changed)[0] == 'c' && EventText(Added)[0] == 'a';
  }

  /** Nothing else changes the cache: no lost connection, no other type of parameters, no unknown event. */
  lemma NotedIgnores(c: Store, params: Json, status: int)
    requires status < 0 || !params.Obj?
             || Get(params, "event") !in {Str("add"), Str("change"), Str("remove")}
    ensures Noted(c, params, status) == c
  {
    assert |"add"| == 3 && |"change"| == 6 && |"remove"| == 6;
  }

  // ---- the protocol ----

  /**
   `channel` holds the notifications the daemon has sent on this connection and the
   cache has not seen; `delivered` all those it has seen on any connection. `base` is
   the cache when the fetch was established on this connection, `touched` the paths
   notified on it.
   */
  datatype World = World(
    states: Store,
    connected: bool,
    established: bool,
    channel: seq<Note>,
    cache: Store,
    delivered: seq<Note>,
    base: Store,
    touched: set<Path>)

  datatype Step =
    | Add(path: Path, value: Json)
    | Change(path: Path, value: Json)
    | Remove(path: Path)
    | Establish(order: seq<Path>)  // the daemon processes the (re-issued) fetch
    | Deliver
    | Disconnect                   // undelivered notifications are lost
    | Connect

  function Selected(sel: Path -> bool, states: Store): Store {
    map p | p in states && sel(p) :: states[p]
  }

  ghost predicate Enabled(sel: Path -> bool, w: World, step: Step) {
    match step
    case Add(p, _) => p !in w.states
    case Change(p, _) => p in w.states
    case Remove(p) => p in w.states
    case Establish(order) =>
      && w.connected && !w.established
      && (forall p :: p in order <==> p in Selected(sel, w.states))
      && forall i, j :: 0 <= i < j < |order| ==> order[i] != order[j]
    case Deliver => w.channel != []
    case Disconnect => w.connected
    case Connect => !w.connected
  }

  /** The daemon notifies an established fetch of a matching event. */
  function Notify(sel: Path -> bool, w: World, n: Note): World {
    if w.established && sel(n.path)
    then w.(channel := w.channel + [n], touched := w.touched + {n.path}) else w
  }

  function CurrentValues(states: Store, order: seq<Path>): seq<Note>
    requires forall p :: p in order ==> p in states
  {
    if order == [] then [] else [Note(Added, order[0], states[order[0]])] + CurrentValues(states, order[1..])
  }

  function Apply(sel: Path -> bool, w: World, step: Step): World
    requires Enabled(sel, w, step)
  {
    match step
    case Add(p, v) => Notify(sel, w.(states := w.states[p := v]), Note(Added, p, v))
    case Change(p, v) => Notify(sel, w.(states := w.states[p := v]), Note(Changed, p, v))
    case Remove(p) => Notify(sel, w.(states := w.states - {p}), Note(Removed, p, w.states[p]))
    case Establish(order) =>
      assert forall p :: p in order ==> p in w.states;
      w.(established := true, channel := CurrentValues(w.states, order),
         base := w.cache, touched := Selected(sel, w.states).Keys)
    case Deliver =>
      w.(channel := w.channel[1..], cache := ApplyNote(w.cache, w.channel[0]),
         delivered := w.delivered + [w.channel[0]])
    case Disconnect =>
      // stop() tells the fetch with a negative status and nothing else
      w.(connected := false, established := false, channel := [], cache := Noted(w.cache, Null, -1))
    case Connect => w.(connected := true)
  }

  const INIT := World(map[], false, false, [], map[], [], map[], {})

  ghost predicate Inv(sel: Path -> bool, w: World) {
    && (w.established ==>
          && Replay(w.cache, w.channel) == (w.base - w.touched) + Selected(sel, w.states)
          && Selected(sel, w.states).Keys <= w.touched)
    && (!w.established ==> w.channel == [])
    && (w.established ==> w.connected)
    && w.cache == Replay(map[], w.delivered)
  }

  function Listed(states: Store, order: seq<Path>): Store
    requires forall p :: p in order ==> p in states
  {
    map p | p in order :: states[p]
  }

  lemma ListedFirst(c: Store, states: Store, order: seq<Path>)
    requires order != [] && forall p :: p in order ==> p in states
    ensures c[order[0] := states[order[0]]] + Listed(states, order[1..]) == c + Listed(states, order)
  {
    var p0, rest := order[0], order[1..];
    assert order == [p0] + rest;
    assert forall p :: p in order <==> p == p0 || p in rest;
  }

  lemma {:induction false} ReplayCurrent(c: Store, states: Store, order: seq<Path>)
    requires forall p :: p in order ==> p in states
    ensures Replay(c, CurrentValues(states, order)) == c + Listed(states, order)
    decreases |order|
  {
    if order == [] {
      assert c + Listed(states, order) == c;
    } else {
      ReplayCurrent(c[order[0] := states[order[0]]], states, order[1..]);
      assert CurrentValues(states, order)[1..] == CurrentValues(states, order[1..]);
      ListedFirst(c, states, order);
    }
  }

  lemma EstablishKeeps(sel: Path -> bool, w: World, order: seq<Path>)
    requires Inv(sel, w) && Enabled(sel, w, Establish(order))
    ensures Inv(sel, Apply(sel, w, Establish(order)))
  {
    assert forall p :: p in order ==> p in w.states;
    ReplayCurrent(w.cache, w.states, order);
    var r := Selected(sel, w.states);
    assert Listed(w.states, order) == r;
    assert w.cache + r == (w.cache - r.Keys) + r;
  }

  lemma SelectedNote(sel: Path -> bool, states: Store, n: Note)
    ensures Selected(sel, ApplyNote(states, n)) ==
            if sel(n.path) then ApplyNote(Selected(sel, states), n) else Selected(sel, states)
  {
    var r, r' := Selected(sel, states), Selected(sel, ApplyNote(states, n));
    forall p | p != n.path ensures p in r' <==> p in r { }
  }

  /** A notified path leaves the stale ones and follows the daemon. */
  lemma StaleNote(base: Store, touched: set<Path>, r: Store, n: Note)
    ensures ApplyNote((base - touched) + r, n) == (base - (touched + {n.path})) + ApplyNote(r, n)
  {
  }

  lemma NotifyKeeps(sel: Path -> bool, w: World, n: Note)
    requires Inv(sel, w)
    ensures Inv(sel, Notify(sel, w.(states := ApplyNote(w.states, n)), n))
  {
    SelectedNote(sel, w.states, n);
    if sel(n.path) && w.established {
      ReplayAppend(w.cache, w.channel, n);
      StaleNote(w.base, w.touched, Selected(sel, w.states), n);
    }
  }

  lemma StepKeepsInv(sel: Path -> bool, w: World, step: Step)
    requires Inv(sel, w) && Enabled(sel, w, step)
    ensures Inv(sel, Apply(sel, w, step))
  {
    match step
    case Add(p, v) => NotifyKeeps(sel, w, Note(Added, p, v));
    case Change(p, v) => NotifyKeeps(sel, w, Note(Changed, p, v));
    case Remove(p) => NotifyKeeps(sel, w, Note(Removed, p, w.states[p]));
    case Establish(order) => EstablishKeeps(sel, w, order);
    case Deliver => ReplayAppend(map[], w.delivered, w.channel[0]);
    case Disconnect =>
    case Connect =>
  }

  ghost predicate IsRun(sel: Path -> bool, ws: seq<World>, steps: seq<Step>) {
    && |ws| == |steps| + 1
    && ws[0] == INIT
    && forall i :: 0 <= i < |steps| ==> Enabled(sel, ws[i], steps[i]) && ws[i + 1] == Apply(sel, ws[i], steps[i])
  }

  lemma {:induction false} RunInv(sel: Path -> bool, ws: seq<World>, steps: seq<Step>, i: nat)
    requires IsRun(sel, ws, steps) && i < |ws|
    ensures Inv(sel, ws[i])
  {
    if i > 0 {
      RunInv(sel, ws, steps, i - 1);
      StepKeepsInv(sel, ws[i - 1], steps[i - 1]);
    }
  }

  /**
   At every step of every run, replaying the undelivered notifications onto the cache
   gives the daemon's matching states plus exactly the paths cached before this
   connection that it has not been notified of.
   */
  lemma ReplicaTracksDaemon(sel: Path -> bool, ws: seq<World>, steps: seq<Step>, i: nat)
    requires IsRun(sel, ws, steps) && i < |ws| && ws[i].established
    ensures Replay(ws[i].cache, ws[i].channel) ==
            (ws[i].base - ws[i].touched) + Selected(sel, ws[i].states)
  {
    RunInv(sel, ws, steps, i);
  }

  /** As long as nothing was cached when the fetch was established, the replay is the daemon's matching states. */
  lemma FirstConnectionExact(sel: Path -> bool, ws: seq<World>, steps: seq<Step>, i: nat)
    requires IsRun(sel, ws, steps) && i < |ws| && ws[i].established && ws[i].base == map[]
    ensures Replay(ws[i].cache, ws[i].channel) == Selected(sel, ws[i].states)
  {
    RunInv(sel, ws, steps, i);
    assert (ws[i].base - ws[i].touched) + Selected(sel, ws[i].states) == Selected(sel, ws[i].states);
  }

  /**
   Reconnected and drained, the cache agrees with the daemon on every matching state,
   and is equal to them if and only if every path cached before has been notified on
   the new connection.
   */
  lemma DrainedReplica(sel: Path -> bool, ws: seq<World>, steps: seq<Step>, i: nat)
    requires IsRun(sel, ws, steps) && i < |ws| && ws[i].established && ws[i].channel == []
    ensures forall p :: p in ws[i].states && sel(p) ==> p in ws[i].cache && ws[i].cache[p] == ws[i].states[p]
    ensures ws[i].cache == Selected(sel, ws[i].states) <==> ws[i].base.Keys <= ws[i].touched
  {
    var w := ws[i];
    RunInv(sel, ws, steps, i);
    var stale, r := w.base - w.touched, Selected(sel, w.states);
    assert w.cache == stale + r;
    if stale + r == r {
      assert stale.Keys <= (stale + r).Keys && stale.Keys !! w.touched;
      assert stale.Keys == w.base.Keys - w.touched;
    }
    if w.base.Keys <= w.touched {
      assert stale == map[];
    }
  }

  /** The last notification about `p`, if any, says that it exists. */
  ghost predicate LastSaysPresent(notes: seq<Note>, p: Path) {
    exists i :: 0 <= i < |notes| && notes[i].path == p && notes[i].event != Removed
                && forall j :: i < j < |notes| ==> notes[j].path != p
  }

  lemma {:induction false} PresentByLast(notes: seq<Note>, p: Path)
    ensures p in Replay(map[], notes) <==> LastSaysPresent(notes, p)
    decreases |notes|
  {
    if notes != [] {
      var k := |notes| - 1;
      PresentByLast(notes[..k], p);
      ReplayAppend(map[], notes[..k], notes[k]);
      assert notes == notes[..k] + [notes[k]];
      if notes[k].path != p {
        if LastSaysPresent(notes[..k], p) {
          var i :| 0 <= i < k && notes[..k][i].path == p && notes[..k][i].event != Removed
                   && forall j :: i < j < k ==> notes[..k][j].path != p;
          assert forall j :: i < j < |notes| ==> notes[j].path != p;
        }
        if LastSaysPresent(notes, p) {
          var i :| 0 <= i < |notes| && notes[i].path == p && notes[i].event != Removed
                   && forall j :: i < j < |notes| ==> notes[j].path != p;
          assert notes[..k][i] == notes[i];
          assert forall j :: i < j < k ==> notes[..k][j] == notes[j];
        }
      } else if LastSaysPresent(notes, p) {
        var i :| 0 <= i < |notes| && notes[i].path == p && notes[i].event != Removed
                 && forall j :: i < j < |notes| ==> notes[j].path != p;
        assert i == k;
      }
    }
  }

  /**
   A path the drained cache has and the daemon's matching states lack was cached
   before this connection, and its removal was never delivered: the last notification
   the cache saw about it says that it exists.
   */
  lemma StalePathsMissedRemoval(sel: Path -> bool, ws: seq<World>, steps: seq<Step>, i: nat, p: Path)
    requires IsRun(sel, ws, steps) && i < |ws| && ws[i].established && ws[i].channel == []
    requires p in ws[i].cache && p !in Selected(sel, ws[i].states)
    ensures p in ws[i].base && p !in ws[i].touched && LastSaysPresent(ws[i].delivered, p)
  {
    RunInv(sel, ws, steps, i);
    PresentByLast(ws[i].delivered, p);
  }

  ghost predicate Reachable(sel: Path -> bool, w: World) {
    exists ws, steps :: IsRun(sel, ws, steps) && ws[|steps|] == w
  }

  lemma Extend(sel: Path -> bool, w: World, step: Step)
    requires Reachable(sel, w) && Enabled(sel, w, step)
    ensures Reachable(sel, Apply(sel, w, step))
  {
    var ws, steps :| IsRun(sel, ws, steps) && ws[|steps|] == w;
    var ws', steps' := ws + [Apply(sel, w, step)], steps + [step];
    forall i | 0 <= i < |steps'|
      ensures Enabled(sel, ws'[i], steps'[i]) && ws'[i + 1] == Apply(sel, ws'[i], steps'[i])
    {
      assert ws'[i] == ws[i];
      if i < |steps| { assert steps'[i] == steps[i] && ws'[i + 1] == ws[i + 1]; }
    }
    assert IsRun(sel, ws', steps') && ws'[|steps'|] == Apply(sel, w, step);
  }

  /** A path is added, and the cache sees it. */
  lemma CachedOnce(sel: Path -> bool, p: Path, v: Json) returns (w: World)
    requires sel(p)
    ensures Reachable(sel, w) && w.connected
    ensures w.states == map[p := v] && w.cache == map[p := v]
  {
    var none: seq<Step> := [];
    assert IsRun(sel, [INIT], none) && [INIT][|none|] == INIT;
    Extend(sel, INIT, Connect);
    w := Apply(sel, INIT, Connect);
    Extend(sel, w, Establish([]));
    w := Apply(sel, w, Establish([]));
    Extend(sel, w, Add(p, v));
    w := Apply(sel, w, Add(p, v));
    Extend(sel, w, Deliver);
    w := Apply(sel, w, Deliver);
  }

  /** A run in which the cache keeps a path that was removed between two connections. */
  lemma RemovedMeanwhileStays(sel: Path -> bool, p: Path, v: Json) returns (w: World)
    requires sel(p)
    ensures Reachable(sel, w) && w.established && w.channel == []
    ensures p in w.cache && p !in w.states
  {
    w := CachedOnce(sel, p, v);
    Extend(sel, w, Disconnect);
    w := Apply(sel, w, Disconnect);
    Extend(sel, w, Remove(p));
    w := Apply(sel, w, Remove(p));
    Extend(sel, w, Connect);
    w := Apply(sel, w, Connect);
    assert Selected(sel, w.states) == map[];
    Extend(sel, w, Establish([]));
    w := Apply(sel, w, Establish([]));
  }
}
