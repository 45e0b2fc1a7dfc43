/**
 Fetches over the life of a process: created, removed, rolled back by the result
 callbacks kept in the request registry, told about lost connections by `stop()` and
 re-issued by `start()`. The request registry and the fetch counter are shared by all
 peers of the process.
 */
module Lifecycle {
  import opened Common
  import opened Matching
  import opened Requests

  type PeerId = nat
  type FetchId = int

  const FETCH_IDS: nat := 0x1_0000_0000

  /** The fetch counter is a 32-bit int that is incremented first. */
  function FetchIdOf(serial: nat): FetchId {
    (serial + 1 + 0x8000_0000) % FETCH_IDS - 0x8000_0000
  }

  /** A registered fetch; the serial number names its callback. */
  datatype Fetcher = Fetcher(serial: nat, matcher: Matcher)

  /** A run of a fetch callback; a negative status reports a lost connection. */
  datatype Call = Call(serial: nat, status: int)

  datatype Message = Config | Fetch(fetch: FetchId, matcher: Matcher) | Unfetch(fetch: FetchId)
  datatype Sent = Sent(peer: PeerId, message: Message)

  /** What a stored result callback undoes when it is called with an error. */
  datatype Action =
    | FetchResult(peer: PeerId, fetch: FetchId)
    | StateResult(peer: PeerId, path: Path)
    | MethodResult(peer: PeerId, path: Path)
    | Plain  // a callback of the user only

  function FetchesIn(acts: set<Action>, q: PeerId): set<FetchId> {
    set a | a in acts && a.FetchResult? && a.peer == q :: a.fetch
  }

  // ---- fetch tables over all runs ----

  datatype Fetches = Fetches(
    created: nat,
    tables: map<PeerId, map<FetchId, Fetcher>>,
    calls: seq<Call>,
    sent: seq<Sent>)

  /** `ok`, `configured` and `lost` say which sends succeed. */
  datatype Step =
    | Add(p: PeerId, matcher: Matcher, ok: bool)
    | Drop(p: PeerId, fetch: FetchId, ok: bool)  // removal by the user
    | Cancel(acts: set<Action>)               // result callbacks called with an error
    | Notify(p: PeerId, fetch: FetchId)       // a notification arrives
    | ReportLoss(p: PeerId, order: seq<FetchId>)  // stop(), in the order of iteration
    | Restore(p: PeerId, configured: bool, lost: set<FetchId>, order: seq<FetchId>)  // start() after a loss

  function Table(s: Fetches, p: PeerId): map<FetchId, Fetcher> {
    if p in s.tables then s.tables[p] else map[]
  }

  function Posted(sent: seq<Sent>, p: PeerId, m: Message, ok: bool): seq<Sent> {
    if ok then sent + [Sent(p, m)] else sent
  }

  function AddStep(s: Fetches, p: PeerId, m: Matcher, ok: bool): Fetches {
    s.(created := s.created + 1,
       tables := s.tables[p := Table(s, p)[FetchIdOf(s.created) := Fetcher(s.created, m)]],
       sent := Posted(s.sent, p, Fetch(FetchIdOf(s.created), m), ok))
  }

  function DropStep(s: Fetches, p: PeerId, f: FetchId, ok: bool): Fetches {
    s.(tables := s.tables[p := Table(s, p) - {f}], sent := Posted(s.sent, p, Unfetch(f), ok))
  }

  function CancelStep(s: Fetches, acts: set<Action>): Fetches {
    s.(tables := map p | p in s.tables :: s.tables[p] - FetchesIn(acts, p))
  }

  function NotifyStep(s: Fetches, p: PeerId, f: FetchId): Fetches {
    if f in Table(s, p) then s.(calls := s.calls + [Call(Table(s, p)[f].serial, 0)]) else s
  }

  /** The calls of `stop()`, one for each registered fetch. */
  function Losses(table: map<FetchId, Fetcher>, order: seq<FetchId>): seq<Call>
    requires forall i :: 0 <= i < |order| ==> order[i] in table
  {
    seq(|order|, i requires 0 <= i < |order| => Call(table[order[i]].serial, -1))
  }

  /** The FETCH requests re-issued for a table, in the given order. */
  function Reissued(p: PeerId, table: map<FetchId, Fetcher>, order: seq<FetchId>): seq<Sent>
    requires forall i :: 0 <= i < |order| ==> order[i] in table
  {
    seq(|order|, i requires 0 <= i < |order| => Sent(p, Fetch(order[i], table[order[i]].matcher)))
  }

  function Configuration(p: PeerId, configured: bool): seq<Sent> {
    if configured then [Sent(p, Config)] else []
  }

  /** A list of all keys, each once. */
  ghost predicate Enumerates(order: seq<FetchId>, keys: set<FetchId>) {
    && (forall i :: 0 <= i < |order| ==> order[i] in keys)
    && (forall f :: f in keys ==> f in order)
    && forall i, j :: 0 <= i < j < |order| ==> order[i] != order[j]
  }

  ghost predicate Next(s: Fetches, step: Step, s': Fetches) {
    match step
    case Add(p, m, ok) => s' == AddStep(s, p, m, ok)
    case Drop(p, f, ok) => s' == DropStep(s, p, f, ok)
    case Cancel(acts) => s' == CancelStep(s, acts)
    case Notify(p, f) => s' == NotifyStep(s, p, f)
    case ReportLoss(p, order) =>
      Enumerates(order, Table(s, p).Keys) && s' == s.(calls := s.calls + Losses(Table(s, p), order))
    case Restore(p, configured, lost, order) =>
      && Enumerates(order, Table(s, p).Keys - lost)
      && s' == s.(sent := s.sent + Configuration(p, configured) + Reissued(p, Table(s, p), order))
  }

  ghost predicate IsRun(ss: seq<Fetches>, steps: seq<Step>) {
    && |ss| == |steps| + 1
    && ss[0] == Fetches(0, map[], [], [])
    && forall i {:trigger steps[i]} :: 0 <= i < |steps| ==> Next(ss[i], steps[i], ss[i + 1])
  }

  /** Every registered fetch sits under the id of its serial number, and no two share one. */
  ghost predicate Inv(s: Fetches) {
    && (forall p, f :: f in Table(s, p) ==>
          Table(s, p)[f].serial < s.created && FetchIdOf(Table(s, p)[f].serial) == f)
    && forall p, f, q, g :: f in Table(s, p) && g in Table(s, q) && Table(s, p)[f].serial == Table(s, q)[g].serial ==>
         p == q
  }

  /** Apart from a newly created fetch, tables only lose entries. */
  lemma TablesShrink(s: Fetches, step: Step, s': Fetches, p: PeerId, f: FetchId)
    requires Next(s, step, s') && f in Table(s', p)
    ensures (f in Table(s, p) && Table(s', p)[f] == Table(s, p)[f])
            || (step.Add? && step.p == p && f == FetchIdOf(s.created) && Table(s', p)[f].serial == s.created)
  {
  }

  lemma StepKeepsInv(s: Fetches, step: Step, s': Fetches)
    requires Inv(s) && Next(s, step, s')
    ensures Inv(s')
  {
    forall p, f | f in Table(s', p)
      ensures Table(s', p)[f].serial < s'.created && FetchIdOf(Table(s', p)[f].serial) == f
    {
      TablesShrink(s, step, s', p, f);
    }
    forall p, f, q, g | f in Table(s', p) && g in Table(s', q) && Table(s', p)[f].serial == Table(s', q)[g].serial
      ensures p == q
    {
      TablesShrink(s, step, s', p, f);
      TablesShrink(s, step, s', q, g);
    }
  }

  lemma {:induction false} RunInv(ss: seq<Fetches>, steps: seq<Step>, i: nat)
    requires IsRun(ss, steps) && i < |ss|
    ensures Inv(ss[i])
  {
    if i > 0 {
      RunInv(ss, steps, i - 1);
      StepKeepsInv(ss[i - 1], steps[i - 1], ss[i]);
    }
  }

  /** Some table holds the fetch with this serial number. */
  ghost predicate Present(s: Fetches, serial: nat) {
    exists p, f :: f in Table(s, p) && Table(s, p)[f].serial == serial
  }

  ghost predicate Called(calls: seq<Call>, serial: nat) {
    exists i :: 0 <= i < |calls| && calls[i].serial == serial
  }

  /** A fetch that is gone stays gone and is not called by a step. */
  lemma GoneStaysGone(s: Fetches, step: Step, s': Fetches, serial: nat)
    requires Inv(s) && Next(s, step, s') && serial < s.created && !Present(s, serial)
    ensures !Present(s', serial) && serial < s'.created
    ensures s.calls <= s'.calls && !Called(s'.calls[|s.calls|..], serial)
  {
    forall p, f | f in Table(s', p) ensures Table(s', p)[f].serial != serial {
      TablesShrink(s, step, s', p, f);
    }
    match step
    case Notify(p, f) =>
      if f in Table(s, p) { assert s'.calls[|s.calls|..] == [Call(Table(s, p)[f].serial, 0)]; }
    case ReportLoss(p, order) =>
      var told := s'.calls[|s.calls|..];
      assert told == Losses(Table(s, p), order);
      forall i | 0 <= i < |told| ensures told[i].serial != serial {
        var f := order[i];
        assert f in Table(s, p) && told[i].serial == Table(s, p)[f].serial;
      }
    case _ =>
      assert s'.calls[|s.calls|..] == [];
  }

  lemma {:induction false} GoneForever(ss: seq<Fetches>, steps: seq<Step>, i: nat, j: nat, serial: nat)
    requires IsRun(ss, steps) && i <= j < |ss| && serial < ss[i].created && !Present(ss[i], serial)
    ensures !Present(ss[j], serial) && serial < ss[j].created
    ensures ss[i].calls <= ss[j].calls && !Called(ss[j].calls[|ss[i].calls|..], serial)
    decreases j - i
  {
    if i == j {
      assert ss[j].calls[|ss[i].calls|..] == [];
    } else {
      GoneForever(ss, steps, i, j - 1, serial);
      RunInv(ss, steps, j - 1);
      GoneStaysGone(ss[j - 1], steps[j - 1], ss[j], serial);
      NotCalledSince(ss[i].calls, ss[j - 1].calls, ss[j].calls, serial);
    }
  }

  lemma NotCalledSince(a: seq<Call>, b: seq<Call>, c: seq<Call>, serial: nat)
    requires a <= b && b <= c && !Called(b[|a|..], serial) && !Called(c[|b|..], serial)
    ensures a <= c && !Called(c[|a|..], serial)
  {
    assert c[|a|..] == b[|a|..] + c[|b|..];
    forall i | 0 <= i < |c[|a|..]| ensures c[|a|..][i].serial != serial {
      var n := |b| - |a|;
      if i < n { assert c[|a|..][i] == b[|a|..][i]; } else { assert c[|a|..][i] == c[|b|..][i - n]; }
    }
  }

  /**
   Once a fetch has been removed, no later step of any run invokes its callback: not a
   late notification, not a stop, not a resume.
   */
  lemma RemovedFetchIsSilent(ss: seq<Fetches>, steps: seq<Step>, i: nat, j: nat, p: PeerId, f: FetchId)
    requires IsRun(ss, steps) && i < j < |ss| && steps[i].Drop? && steps[i].p == p && steps[i].fetch == f
    requires f in Table(ss[i], p)
    ensures steps[i].ok ==> ss[i + 1].sent == ss[i].sent + [Sent(p, Unfetch(f))]
    ensures ss[i].calls <= ss[j].calls
    ensures !Called(ss[j].calls[|ss[i].calls|..], Table(ss[i], p)[f].serial)
  {
    var serial := Table(ss[i], p)[f].serial;
    RunInv(ss, steps, i);
    assert Next(ss[i], steps[i], ss[i + 1]);
    var next := ss[i + 1];
    forall q, g | g in Table(next, q) ensures Table(next, q)[g].serial != serial {
      TablesShrink(ss[i], steps[i], next, q, g);
    }
    GoneForever(ss, steps, i + 1, j, serial);
  }

  lemma FetchIdsDiffer(a: nat, b: nat)
    requires FetchIdOf(a) == FetchIdOf(b) && a <= b < a + FETCH_IDS
    ensures a == b
  {
  }

  /** The step removes fetch `f` of peer `p`, or undoes it because its result was an error. */
  predicate Ends(step: Step, p: PeerId, f: FetchId) {
    || (step.Drop? && step.p == p && step.fetch == f)
    || (step.Cancel? && FetchResult(p, f) in step.acts)
  }

  ghost predicate Undisturbed(steps: seq<Step>, j: nat, i: nat, p: PeerId, f: FetchId)
    requires j <= i <= |steps|
  {
    forall k :: j < k < i ==> !Ends(steps[k], p, f)
  }

  /** What one step does to the entry of a fetch whose id is not given out again. */
  lemma EntryStep(s: Fetches, step: Step, s': Fetches, p: PeerId, f: FetchId)
    requires Next(s, step, s') && (step.Add? ==> FetchIdOf(s.created) != f)
    ensures f in Table(s', p) <==> f in Table(s, p) && !Ends(step, p, f)
    ensures f in Table(s', p) ==> Table(s', p)[f] == Table(s, p)[f]
    ensures s.created <= s'.created
  {
    if step.Cancel? { assert f in FetchesIn(step.acts, p) <==> FetchResult(p, f) in step.acts; }
  }

  /**
   A fetch that a peer has added stays registered, with its matcher, exactly until it is
   removed or its request fails, as long as its id has not come round again.
   */
  lemma {:induction false} FetchStays(ss: seq<Fetches>, steps: seq<Step>, j: nat, i: nat)
    requires IsRun(ss, steps) && j < i < |ss| && steps[j].Add? && ss[i].created <= ss[j].created + FETCH_IDS
    ensures var p, f := steps[j].p, FetchIdOf(ss[j].created);
            && ss[j].created < ss[i].created
            && (f in Table(ss[i], p) <==> Undisturbed(steps, j, i, p, f))
            && (f in Table(ss[i], p) ==> Table(ss[i], p)[f] == Fetcher(ss[j].created, steps[j].matcher))
  {
    var p, f, s, next := steps[j].p, FetchIdOf(ss[j].created), ss[i - 1], ss[i];
    assert Next(s, steps[i - 1], next);
    if j < i - 1 {
      assert s.created <= next.created;
      FetchStays(ss, steps, j, i - 1);
      if steps[i - 1].Add? && FetchIdOf(s.created) == f { FetchIdsDiffer(ss[j].created, s.created); }
      EntryStep(s, steps[i - 1], next, p, f);
    }
  }

  /**
   A notification for a fetch runs the callback of that fetch, once, if the fetch has
   been neither removed nor undone, and no callback otherwise, as long as its id has not
   come round again.
   */
  lemma NotificationReachesItsFetch(ss: seq<Fetches>, steps: seq<Step>, j: nat, i: nat)
    requires IsRun(ss, steps) && j < i < |steps| && steps[j].Add?
    requires steps[i] == Notify(steps[j].p, FetchIdOf(ss[j].created)) && ss[i].created <= ss[j].created + FETCH_IDS
    ensures ss[i + 1].calls == ss[i].calls +
              if Undisturbed(steps, j, i, steps[j].p, FetchIdOf(ss[j].created)) then [Call(ss[j].created, 0)] else []
  {
    FetchStays(ss, steps, j, i);
    assert Next(ss[i], steps[i], ss[i + 1]);
  }

  /** `first` is among the messages, once, exactly if `present`, and nothing else asks for fetch `f`. */
  ghost predicate AsksFor(again: seq<Sent>, first: Sent, f: FetchId, present: bool) {
    && (first in again <==> present)
    && (forall k :: 0 <= k < |again| && again[k].message.Fetch? && again[k].message.fetch == f ==> again[k] == first)
    && (forall k, l :: 0 <= k < l < |again| && again[k] == first ==> again[l] != first)
  }

  /** The fetches re-issued: one FETCH for each entry of the table that can be sent. */
  lemma ReissuedOnce(p: PeerId, table: map<FetchId, Fetcher>, lost: set<FetchId>, order: seq<FetchId>,
                     f: FetchId, m: Matcher)
    requires Enumerates(order, table.Keys - lost) && (f in table ==> table[f].matcher == m)
    ensures AsksFor(Reissued(p, table, order), Sent(p, Fetch(f, m)), f, f in table && f !in lost)
  {
    var again, first := Reissued(p, table, order), Sent(p, Fetch(f, m));
    forall k | 0 <= k < |again| ensures again[k] == Sent(p, Fetch(order[k], table[order[k]].matcher)) { }
    if f in table && f !in lost {
      assert f in order;
      var k :| 0 <= k < |order| && order[k] == f;
      assert again[k] == first;
    }
  }

  lemma ConfiguredOnce(config: seq<Sent>, again: seq<Sent>, first: Sent, f: FetchId, present: bool)
    requires AsksFor(again, first, f, present) && first.message.Fetch?
    requires |config| <= 1 && (config != [] ==> config[0].message == Config)
    ensures AsksFor(config + again, first, f, present)
  {
    var all := config + again;
    forall k | |config| <= k < |all| ensures all[k] == again[k - |config|] { }
    if present {
      var k :| 0 <= k < |again| && again[k] == first;
      assert all[|config| + k] == first;
    }
  }

  lemma RestoreSends(s: Fetches, step: Step, s': Fetches, f: FetchId, m: Matcher)
    requires Next(s, step, s') && step.Restore? && (f in Table(s, step.p) ==> Table(s, step.p)[f].matcher == m)
    ensures AsksFor(s'.sent[|s.sent|..], Sent(step.p, Fetch(f, m)), f, f in Table(s, step.p) && f !in step.lost)
    ensures step.configured ==> s.sent + [Sent(step.p, Config)] <= s'.sent
  {
    var table := Table(s, step.p);
    var config, again := Configuration(step.p, step.configured), Reissued(step.p, table, step.order);
    ReissuedOnce(step.p, table, step.lost, step.order, f, m);
    ConfiguredOnce(config, again, Sent(step.p, Fetch(f, m)), f, f in table && f !in step.lost);
    ConcatAssociative(s.sent, config, again);
    Appended(s.sent, config + again);
  }

  lemma Appended(sent: seq<Sent>, more: seq<Sent>)
    ensures (sent + more)[|sent|..] == more
    ensures more != [] ==> sent + [more[0]] <= sent + more
  {
  }

  /**
   `start()` sends its configuration and then re-issues exactly the fetches that are left
   and can be sent, each once and as it was first sent.
   */
  lemma RestoredAsFirstSent(ss: seq<Fetches>, steps: seq<Step>, j: nat, i: nat)
    requires IsRun(ss, steps) && j < i < |steps| && steps[j].Add? && steps[i].Restore? && steps[i].p == steps[j].p
    requires ss[i].created <= ss[j].created + FETCH_IDS
    ensures var p, f := steps[j].p, FetchIdOf(ss[j].created);
            var first := Sent(p, Fetch(f, steps[j].matcher));
            && (steps[j].ok ==> ss[j + 1].sent == ss[j].sent + [first])
            && (steps[i].configured ==> ss[i].sent + [Sent(p, Config)] <= ss[i + 1].sent)
            && AsksFor(ss[i + 1].sent[|ss[i].sent|..], first, f, Undisturbed(steps, j, i, p, f) && f !in steps[i].lost)
  {
    FetchStays(ss, steps, j, i);
    assert Next(ss[j], steps[j], ss[j + 1]) && Next(ss[i], steps[i], ss[i + 1]);
    RestoreSends(ss[i], steps[i], ss[i + 1], FetchIdOf(ss[j].created), steps[j].matcher);
  }

  /** `stop()` calls every registered fetch exactly once. */
  lemma EachToldOnce(ss: seq<Fetches>, steps: seq<Step>, i: nat, f: FetchId)
    requires IsRun(ss, steps) && i < |steps| && steps[i].ReportLoss? && f in Table(ss[i], steps[i].p)
    ensures var told := ss[i + 1].calls[|ss[i].calls|..];
            var call := Call(Table(ss[i], steps[i].p)[f].serial, -1);
            exists k :: 0 <= k < |told| && told[k] == call && forall l :: 0 <= l < |told| && l != k ==> told[l] != call
  {
    RunInv(ss, steps, i);
    assert Next(ss[i], steps[i], ss[i + 1]);
    var table, order := Table(ss[i], steps[i].p), steps[i].order;
    var told := ss[i + 1].calls[|ss[i].calls|..];
    assert told == Losses(table, order);
    assert f in order;
    var k :| 0 <= k < |order| && order[k] == f;
    forall l | 0 <= l < |told| && l != k ensures told[l] != Call(table[f].serial, -1) {
      assert order[l] in table;
      assert FetchIdOf(table[order[l]].serial) == order[l];
    }
    assert told[k] == Call(table[f].serial, -1);
  }

  // ---- the code ----

  datatype Tables = Tables(fetchers: map<FetchId, Fetcher>, states: set<Path>, methods: set<Path>)

  function Undo(t: Tables, q: PeerId, a: Action): Tables {
    match a
    case FetchResult(p, f) => if p == q then t.(fetchers := t.fetchers - {f}) else t
    case StateResult(p, path) => if p == q then t.(states := t.states - {path}) else t
    case MethodResult(p, path) => if p == q then t.(methods := t.methods - {path}) else t
    case Plain => t
  }

  function StatesIn(acts: set<Action>, q: PeerId): set<Path> {
    set a | a in acts && a.StateResult? && a.peer == q :: a.path
  }

  function MethodsIn(acts: set<Action>, q: PeerId): set<Path> {
    set a | a in acts && a.MethodResult? && a.peer == q :: a.path
  }

  /** The tables of peer `q` without what the given actions undo. */
  function Without(t: Tables, q: PeerId, acts: set<Action>): Tables {
    Tables(t.fetchers - FetchesIn(acts, q), t.states - StatesIn(acts, q), t.methods - MethodsIn(acts, q))
  }

  lemma UndoOne(t: Tables, q: PeerId, acts: set<Action>, a: Action)
    ensures Undo(Without(t, q, acts), q, a) == Without(t, q, acts + {a})
  {
    assert FetchesIn(acts + {a}, q) == FetchesIn(acts, q) + (if a.FetchResult? && a.peer == q then {a.fetch} else {});
    assert StatesIn(acts + {a}, q) == StatesIn(acts, q) + (if a.StateResult? && a.peer == q then {a.path} else {});
    assert MethodsIn(acts + {a}, q) == MethodsIn(acts, q) + (if a.MethodResult? && a.peer == q then {a.path} else {});
  }

  function ActionOf(actions: map<Token, Action>, t: Token): Action {
    if t in actions then actions[t] else Plain
  }

  /** What is undone when every open request is cancelled. */
  function AwaitedActions(open: map<Id, Entry>, actions: map<Token, Action>): set<Action> {
    set t | t in Callbacks(open) :: ActionOf(actions, t)
  }

  /** The peers of a process with their shared request registry. */
  class Process {
    const requests: Registry
    var peers: map<PeerId, Tables>
    var created: nat
    var actions: map<Token, Action>
    var sent: seq<Sent>
    var calls: seq<Call>

    ghost predicate Valid()
      reads this, requests
    {
      requests.Valid()
    }

    ghost function View(): Fetches
      reads this
    {
      Fetches(created, FetchersOf(peers), calls, sent)
    }

    constructor ()
      ensures Valid() && fresh(requests) && View() == Fetches(0, map[], [], [])
    {
      requests := new Registry();
      peers, created, actions, sent, calls := map[], 0, map[], [], [];
    }

    /** `execute` with a result callback; the callback is entered before the request is sent. */
    method Execute(p: PeerId, m: Message, action: Action, ok: bool) returns (id: Id)
      requires Valid()
      modifies this`actions, this`sent, requests
      ensures Valid() && id == IdOf(old(requests.issued))
      ensures actions == old(actions)[old(requests.issued) := action]
      ensures sent == if ok then old(sent) + [Sent(p, m)] else old(sent)
      ensures requests.View() == Requested(old(requests.View()), ok)
    {
      var token;
      id, token := requests.Issue();
      actions := actions[token := action];
      if ok {
        sent := sent + [Sent(p, m)];
      } else {
        requests.SendFailed(id);
      }
    }

    /** `addFetchAsync`: registered first, then requested; only with a result callback can it be rolled back. */
    method AddFetchAsync(p: PeerId, m: Matcher, withResult: bool, ok: bool) returns (f: FetchId)
      requires Valid() && p in peers
      modifies this, requests
      ensures Valid() && View() == AddStep(old(View()), p, m, ok) && f == FetchIdOf(old(created))
      ensures !withResult ==> actions == old(actions) && requests.View() == old(requests.View())
      ensures withResult ==> actions == old(actions)[old(requests.issued) := FetchResult(p, f)]
      ensures withResult ==>
                && requests.View() == Requested(old(requests.View()), ok)
                && FetchResult(p, f) in AwaitedActions(requests.open, actions)
    {
      f := FetchIdOf(created);
      FetchersUpdated(peers, p, peers[p].fetchers[f := Fetcher(created, m)]);
      peers := peers[p := peers[p].(fetchers := peers[p].fetchers[f := Fetcher(created, m)])];
      created := created + 1;
      if withResult {
        var _ := Execute(p, Fetch(f, m), FetchResult(p, f), ok);
        JustIssued(old(requests.View()), ok);
      } else if ok {
        sent := sent + [Sent(p, Fetch(f, m))];
      }
    }

    /** `removeFetchAsync`: a result callback is the user's own and undoes nothing. */
    method RemoveFetchAsync(p: PeerId, f: FetchId, withResult: bool, ok: bool)
      requires Valid() && p in peers
      modifies this, requests
      ensures Valid() && View() == DropStep(old(View()), p, f, ok)
      ensures requests.View() == if withResult then Requested(old(requests.View()), ok) else old(requests.View())
      ensures actions == if withResult then old(actions)[old(requests.issued) := Plain] else old(actions)
    {
      FetchersUpdated(peers, p, peers[p].fetchers - {f});
      peers := peers[p := peers[p].(fetchers := peers[p].fetchers - {f})];
      if withResult {
        var _ := Execute(p, Unfetch(f), Plain, ok);
      } else if ok {
        sent := sent + [Sent(p, Unfetch(f))];
      }
    }

    /** A fetch notification in `handleMessage`. */
    method HandleNotification(p: PeerId, f: FetchId)
      requires p in peers
      modifies this
      ensures View() == NotifyStep(old(View()), p, f) && peers == old(peers)
    {
      if f in peers[p].fetchers {
        calls := calls + [Call(peers[p].fetchers[f].serial, 0)];
      }
    }

    /** A reply, or the deferred error of a failed send. */
    method Complete(id: Id, error: bool)
      requires Valid()
      modifies this`peers, requests
      ensures Valid() && requests.open == old(requests.open) - {id}
      ensures View() == CancelStep(old(View()), if error && HasCallback(old(requests.open), id)
                                                then {ActionOf(actions, old(requests.open)[id].cb.value)} else {})
      ensures if error && HasCallback(old(requests.open), id)
              then peers == Undone(old(peers), {ActionOf(actions, old(requests.open)[id].cb.value)})
              else peers == old(peers)
    {
      var called := requests.HandleResult(id);
      if called.Some? && error {
        FetchersUndone(peers, {ActionOf(actions, called.value)});
        ApplyUndo(ActionOf(actions, called.value));
      } else {
        NothingCancelled(View());
      }
    }

    /** One result callback called with an error. */
    method ApplyUndo(a: Action)
      modifies this`peers
      ensures peers == Undone(old(peers), {a})
    {
      ghost var before := peers;
      if !a.Plain? && a.peer in peers {
        peers := peers[a.peer := Undo(peers[a.peer], a.peer, a)];
      }
      forall q | q in before ensures peers[q] == Without(before[q], q, {a}) {
        UndoOne(before[q], q, {}, a);
        NothingUndone(before[q], q);
        assert {} + {a} == {a};
      }
    }

    /** The loop over the fetches in `stop()`. */
    method ReportLosses(p: PeerId) returns (order: seq<FetchId>)
      requires p in peers
      modifies this`calls
      ensures Enumerates(order, peers[p].fetchers.Keys)
      ensures calls == old(calls) + Losses(peers[p].fetchers, order)
    {
      order := EnumerateKeys(peers[p].fetchers.Keys);
      var table := peers[p].fetchers;
      for i := 0 to |order|
        invariant calls == old(calls) + Losses(table, order)[..i]
      {
        calls := calls + [Call(table[order[i]].serial, -1)];
      }
    }

    /**
     `stop()`: every fetch of the peer is told once, its states and methods are gone,
     no request is open any more, and exactly the fetches of any peer whose result was
     still awaited have left the tables.
     */
    method Stop(p: PeerId) returns (count: nat, order: seq<FetchId>)
      requires Valid() && p in peers
      modifies this`peers, this`calls, requests
      ensures Valid() && requests.View() == ClearStep(old(requests.View())) && count == old(|requests.open|)
      ensures Enumerates(order, old(peers)[p].fetchers.Keys)
      ensures calls == old(calls) + Losses(old(peers)[p].fetchers, order)
      ensures peers == Undone(old(peers)[p := Tables(old(peers)[p].fetchers, {}, {})],
                              AwaitedActions(old(requests.open), actions))
      ensures View() == CancelStep(old(View()).(calls := calls), AwaitedActions(old(requests.open), actions))
    {
      order := ReportLosses(p);
      peers := peers[p := Tables(peers[p].fetchers, {}, {})];
      count := CancelAll();
      StopFetchers(old(peers), p, AwaitedActions(old(requests.open), actions));
    }

    /** `AsyncRequest::clear()` with what its callbacks do to the tables. */
    method CancelAll() returns (count: nat)
      requires Valid()
      modifies this`peers, requests
      ensures Valid() && requests.View() == ClearStep(old(requests.View())) && count == old(|requests.open|)
      ensures peers == Undone(old(peers), AwaitedActions(old(requests.open), actions))
    {
      var ran;
      count, ran := requests.Clear();
      UndoAll(ran);
      RanActions(old(requests.open), actions, ran);
    }

    /** The effect of the callbacks run by `clear()`. */
    method UndoAll(ran: seq<Token>)
      modifies this`peers
      ensures peers == Undone(old(peers), set i | 0 <= i < |ran| :: ActionOf(actions, ran[i]))
    {
      ghost var done: set<Action> := {};
      forall q | q in peers ensures Without(peers[q], q, {}) == peers[q] { NothingUndone(peers[q], q); }
      for i := 0 to |ran|
        invariant done == set j | 0 <= j < i :: ActionOf(actions, ran[j])
        invariant peers == Undone(old(peers), done)
      {
        var a := ActionOf(actions, ran[i]);
        UndoMore(old(peers), done, a);
        ApplyUndo(a);
        done := done + {a};
      }
    }

    /**
     `start()` on a new connection: configuration, then the known fetches. A message
     that cannot be sent is skipped: the configuration unless `configured`, and the
     fetches in `lost`.
     */
    method Start(p: PeerId, configured: bool, lost: set<FetchId>) returns (order: seq<FetchId>)
      requires p in peers
      modifies this`sent
      ensures View() == old(View()).(sent := sent)
      ensures Enumerates(order, peers[p].fetchers.Keys - lost)
      ensures sent == old(sent) + Configuration(p, configured) + Reissued(p, peers[p].fetchers, order)
    {
      if configured {
        sent := sent + [Sent(p, Config)];
      }
      var table := peers[p].fetchers;
      var known := EnumerateKeys(table.Keys);
      order := [];
      for i := 0 to |known|
        invariant Enumerates(order, (set k | 0 <= k < i :: known[k]) - lost)
        invariant forall k :: 0 <= k < |order| ==> order[k] in table
        invariant sent == old(sent) + Configuration(p, configured) + Reissued(p, table, order)
      {
        ghost var before := set k | 0 <= k < i :: known[k];
        assert (set k | 0 <= k < i + 1 :: known[k]) == before + {known[i]};
        if known[i] !in lost {
          order := order + [known[i]];
          sent := sent + [Sent(p, Fetch(known[i], table[known[i]].matcher))];
        }
      }
      forall f | f in table ensures exists k :: 0 <= k < |known| && known[k] == f { assert f in known; }
      assert (set k | 0 <= k < |known| :: known[k]) == table.Keys;
    }

    /** A lost connection and a successful `resume()`: the fetches that were not awaited come back as they were. */
    method Reconnect(p: PeerId, configured: bool, lost: set<FetchId>) returns (order: seq<FetchId>)
      requires Valid() && p in peers
      modifies this`peers, this`calls, this`sent, requests
      ensures Valid() && p in peers
      ensures peers[p].fetchers ==
              old(peers)[p].fetchers - FetchesIn(AwaitedActions(old(requests.open), actions), p)
      ensures Enumerates(order, peers[p].fetchers.Keys - lost)
      ensures sent == old(sent) + Configuration(p, configured) + Reissued(p, peers[p].fetchers, order)
    {
      var _, _ := Stop(p);
      order := Start(p, configured, lost);
    }
  }

  /** A request with a result callback: stored, and marked if it could not be sent. */
  function Requested(s: State, ok: bool): State {
    if ok then IssueStep(s) else FailStep(IssueStep(s), IdOf(s.issued))
  }

  lemma JustIssued(s: State, ok: bool)
    ensures s.issued in Callbacks(Requested(s, ok).open)
  {
    assert Requested(s, ok).open[IdOf(s.issued)].cb == Some(s.issued);
  }

  function FetchersOf(peers: map<PeerId, Tables>): map<PeerId, map<FetchId, Fetcher>> {
    map p | p in peers :: peers[p].fetchers
  }

  lemma FetchersUpdated(peers: map<PeerId, Tables>, p: PeerId, table: map<FetchId, Fetcher>)
    requires p in peers
    ensures FetchersOf(peers[p := peers[p].(fetchers := table)]) == FetchersOf(peers)[p := table]
  {
  }

  lemma FetchersUndone(peers: map<PeerId, Tables>, acts: set<Action>)
    ensures FetchersOf(Undone(peers, acts)) == map p | p in peers :: peers[p].fetchers - FetchesIn(acts, p)
  {
  }

  /** Losing states and methods does not touch the fetches. */
  lemma StopFetchers(peers: map<PeerId, Tables>, p: PeerId, acts: set<Action>)
    requires p in peers
    ensures FetchersOf(Undone(peers[p := Tables(peers[p].fetchers, {}, {})], acts))
            == map q | q in FetchersOf(peers) :: FetchersOf(peers)[q] - FetchesIn(acts, q)
  {
    var kept := peers[p := Tables(peers[p].fetchers, {}, {})];
    FetchersUndone(kept, acts);
    assert FetchersOf(kept) == FetchersOf(peers);
  }

  function Undone(peers: map<PeerId, Tables>, acts: set<Action>): map<PeerId, Tables> {
    map q | q in peers :: Without(peers[q], q, acts)
  }

  /**
   Exactly what the actions name is undone: fetches, states and methods of the peers
   they belong to, and everything else is as before.
   */
  lemma UndoneExactly(peers: map<PeerId, Tables>, acts: set<Action>, q: PeerId)
    requires q in peers
    ensures var before, after := peers[q], Undone(peers, acts)[q];
            && (forall f :: f in after.fetchers <==> f in before.fetchers && FetchResult(q, f) !in acts)
            && (forall f :: f in after.fetchers ==> after.fetchers[f] == before.fetchers[f])
            && (forall path :: path in after.states <==> path in before.states && StateResult(q, path) !in acts)
            && (forall path :: path in after.methods <==> path in before.methods && MethodResult(q, path) !in acts)
  {
    forall f ensures f in FetchesIn(acts, q) <==> FetchResult(q, f) in acts { }
    forall path ensures path in StatesIn(acts, q) <==> StateResult(q, path) in acts { }
    forall path ensures path in MethodsIn(acts, q) <==> MethodResult(q, path) in acts { }
  }

  lemma NothingCancelled(s: Fetches)
    ensures CancelStep(s, {}) == s
  {
    forall p | p in s.tables ensures s.tables[p] - FetchesIn({}, p) == s.tables[p] { assert FetchesIn({}, p) == {}; }
  }

  lemma NothingUndone(t: Tables, q: PeerId)
    ensures Without(t, q, {}) == t
  {
    assert FetchesIn({}, q) == {} && StatesIn({}, q) == {} && MethodsIn({}, q) == {};
  }

  lemma UndoMore(peers: map<PeerId, Tables>, done: set<Action>, a: Action)
    ensures Undone(Undone(peers, done), {a}) == Undone(peers, done + {a})
  {
    forall q | q in peers
      ensures Without(Without(peers[q], q, done), q, {a}) == Without(peers[q], q, done + {a})
    {
      UndoOne(peers[q], q, done, a);
      UndoOne(Without(peers[q], q, done), q, {}, a);
      NothingUndone(Without(peers[q], q, done), q);
      assert {} + {a} == {a};
    }
  }

  lemma RanActions(open: map<Id, Entry>, actions: map<Token, Action>, ran: seq<Token>)
    requires multiset(ran) == multiset(Callbacks(open))
    ensures (set i | 0 <= i < |ran| :: ActionOf(actions, ran[i])) == AwaitedActions(open, actions)
  {
    forall t ensures t in ran <==> t in Callbacks(open) {
      assert t in ran <==> t in multiset(ran);
    }
    forall t | t in Callbacks(open) ensures exists i :: 0 <= i < |ran| && ran[i] == t { assert t in ran; }
    forall i | 0 <= i < |ran| ensures ran[i] in Callbacks(open) { assert ran[i] in ran; }
  }

  /** Iteration over an unordered map: some order of its keys. */
  method EnumerateKeys(keys: set<FetchId>) returns (order: seq<FetchId>)
    ensures Enumerates(order, keys)
  {
    order := [];
    var todo := keys;
    while todo != {}
      invariant todo <= keys
      invariant Enumerates(order, keys - todo)
      decreases |todo|
    {
      assert (forall f :: f !in todo) ==> todo == {};
      var f :| f in todo;
      order := order + [f];
      todo := todo - {f};
    }
    assert keys - todo == keys;
  }
}
