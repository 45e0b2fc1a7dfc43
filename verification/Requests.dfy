/**
 The process-wide registry of open requests. Every issued result callback is named
 by a token, its serial number; its request id is the wrapping 32-bit counter
 value. `State` also tracks the threads between taking a callback out of the map
 and running it, so that runs of `Next` are the interleavings of all peers and
 threads of a process.
 */
module Requests {
  import opened Common

  const ID_SPACE: nat := 0x1_0000_0000

  type Id = n: nat | n < ID_SPACE
  type Token = nat

  /** The counter is incremented first, so the first request has id 1. */
  function IdOf(t: Token): Id {
    (t + 1) % ID_SPACE
  }

  /** An open request; the callback is empty in an entry re-created by the error path. */
  datatype Entry = Entry(cb: Option<Token>, notifier: bool)

  datatype State = State(issued: nat, open: map<Id, Entry>, taken: multiset<Token>, ran: multiset<Token>)

  const INIT := State(0, map[], multiset{}, multiset{})

  predicate HasCallback(open: map<Id, Entry>, id: Id) {
    id in open && open[id].cb.Some?
  }

  predicate Stored(s: State, t: Token) {
    IdOf(t) in s.open && s.open[IdOf(t)].cb == Some(t)
  }

  /** The callbacks held by the map. */
  function Callbacks(open: map<Id, Entry>): set<Token> {
    set id | id in open && open[id].cb.Some? :: open[id].cb.value
  }

  // ---- the atomic steps ----

  /** Lines 62 to 64 of lib/asyncrequest.cpp: the entry may already exist. */
  function IssueStep(s: State): State {
    var id := IdOf(s.issued);
    var notifier := id in s.open && s.open[id].notifier;
    s.(issued := s.issued + 1, open := s.open[id := Entry(Some(s.issued), notifier)])
  }

  /** Lines 86 to 88: outside the lock, so the entry may be gone and is then re-created. */
  function FailStep(s: State, id: Id): State {
    s.(open := s.open[id := Entry(if id in s.open then s.open[id].cb else None, true)])
  }

  /** Lines 107 to 114: the reply or the error notifier takes the entry out. */
  function TakeStep(s: State, id: Id): State {
    if id !in s.open then s
    else s.(open := s.open - {id},
            taken := s.taken + (if s.open[id].cb.Some? then multiset{s.open[id].cb.value} else multiset{}))
  }

  /** Line 117: the callback runs, outside the lock. */
  function RunStep(s: State, t: Token): State {
    s.(taken := s.taken - multiset{t}, ran := s.ran + multiset{t})
  }

  /** Lines 126 to 143: every stored callback runs under the lock, the map is emptied. */
  function ClearStep(s: State): State {
    s.(open := map[], ran := s.ran + multiset(Callbacks(s.open)))
  }

  /** Lines 42 and 43 of lib/syncrequest.cpp. */
  function EraseStep(s: State, id: Id): State {
    s.(open := s.open - {id})
  }

  datatype Step =
    | Issue
    | SendFails(t: Token)   // the send of t's request raised an error
    | Reply(id: Id)         // a reply arrived; an absent id reads as 0
    | NotifierFires(id: Id) // the deferred error completion
    | Run(t: Token)
    | ClearAll              // some peer stopped
    | Destroy(t: Token)     // destructor of a synchronous request, after its future was ready

  predicate Next(s: State, step: Step, s': State) {
    match step
    case Issue => s' == IssueStep(s)
    case SendFails(t) => t < s.issued && s' == FailStep(s, IdOf(t))
    case Reply(id) => s' == TakeStep(s, id)
    case NotifierFires(id) => id in s.open && s.open[id].notifier && s' == TakeStep(s, id)
    case Run(t) => t in s.taken && s' == RunStep(s, t)
    case ClearAll => s' == ClearStep(s)
    case Destroy(t) => t in s.ran && s' == EraseStep(s, IdOf(t))
  }

  // ---- exactly once ----

  ghost predicate Keyed(open: map<Id, Entry>, issued: nat) {
    forall id :: HasCallback(open, id) ==> open[id].cb.value < issued && IdOf(open[id].cb.value) == id
  }

  /** How many places hold callback `t`: the map, a thread about to run it, the past. */
  ghost function Places(s: State, t: Token): nat {
    (if Stored(s, t) then 1 else 0) + s.taken[t] + s.ran[t]
  }

  /** Every issued callback is in exactly one place, and there are no others. */
  ghost predicate Once(s: State) {
    && Keyed(s.open, s.issued)
    && forall t: Token :: Places(s, t) == if t < s.issued then 1 else 0
  }

  /** The step overwrites or erases a callback that has not run. */
  predicate Drops(s: State, step: Step) {
    match step
    case Issue => HasCallback(s.open, IdOf(s.issued))
    case Destroy(t) => HasCallback(s.open, IdOf(t))
    case _ => false
  }

  lemma CallbacksAre(s: State, t: Token)
    requires Keyed(s.open, s.issued)
    ensures t in Callbacks(s.open) <==> Stored(s, t)
  {
    if t in Callbacks(s.open) {
      var id :| id in s.open && s.open[id].cb.Some? && s.open[id].cb.value == t;
      assert HasCallback(s.open, id);
    }
  }

  lemma TakeKeeps(s: State, id: Id)
    requires Once(s)
    ensures Once(TakeStep(s, id))
  {
    var s' := TakeStep(s, id);
    forall t: Token ensures Places(s', t) == Places(s, t) {
      if id in s.open && s.open[id].cb.Some? {
        assert HasCallback(s.open, id);
      }
    }
    assert forall i :: HasCallback(s'.open, i) ==> HasCallback(s.open, i);
  }

  lemma ClearKeeps(s: State)
    requires Once(s)
    ensures Once(ClearStep(s))
  {
    forall t: Token ensures Places(ClearStep(s), t) == Places(s, t) {
      CallbacksAre(s, t);
    }
  }

  lemma IssueKeeps(s: State)
    requires Once(s) && !HasCallback(s.open, IdOf(s.issued))
    ensures Once(IssueStep(s))
  {
    var s' := IssueStep(s);
    forall t: Token ensures Places(s', t) == if t < s'.issued then 1 else 0 {
      assert Places(s, t) == if t < s.issued then 1 else 0;
    }
    assert forall i :: HasCallback(s'.open, i) && i != IdOf(s.issued) ==> HasCallback(s.open, i);
  }

  lemma FailKeeps(s: State, t: Token)
    requires Once(s)
    ensures Once(FailStep(s, IdOf(t)))
  {
    var s' := FailStep(s, IdOf(t));
    forall u: Token ensures Places(s', u) == Places(s, u) { }
    assert forall i :: HasCallback(s'.open, i) ==> HasCallback(s.open, i);
  }

  lemma EraseKeeps(s: State, id: Id)
    requires Once(s) && !HasCallback(s.open, id)
    ensures Once(EraseStep(s, id))
  {
    var s' := EraseStep(s, id);
    forall u: Token ensures Places(s', u) == Places(s, u) { }
    assert forall i :: HasCallback(s'.open, i) ==> HasCallback(s.open, i);
  }

  lemma RunKeeps(s: State, t: Token)
    requires Once(s) && t in s.taken
    ensures Once(RunStep(s, t))
  {
    forall u: Token ensures Places(RunStep(s, t), u) == Places(s, u) { }
  }

  /**
   Issue, send failure, reply, deferred error, cancel-all and destruction keep every
   callback in exactly one place, if and only if the step does not reuse or erase an
   id that still holds a callback. Re-creating a cleared entry never matters.
   */
  lemma StepKeepsOnce(s: State, step: Step, s': State)
    requires Once(s) && Next(s, step, s')
    ensures Once(s') <==> !Drops(s, step)
  {
    if Drops(s, step) {
      var id := if step.Issue? then IdOf(s.issued) else IdOf(step.t);
      var lost := s.open[id].cb.value;
      assert HasCallback(s.open, id) && Stored(s, lost);
      assert Places(s, lost) == 1 && Places(s', lost) == 0;
    } else {
      match step
      case Issue => IssueKeeps(s);
      case SendFails(t) => FailKeeps(s, t);
      case Reply(id) => TakeKeeps(s, id);
      case NotifierFires(id) => TakeKeeps(s, id);
      case Run(t) => RunKeeps(s, t);
      case ClearAll => ClearKeeps(s);
      case Destroy(t) => EraseKeeps(s, IdOf(t));
    }
  }

  // ---- wrapping ids ----

  /** No stored request has seen a whole id space of later requests. */
  ghost predicate Recent(s: State) {
    forall t: Token :: Stored(s, t) ==> s.issued <= t + ID_SPACE
  }

  /**
   What a run has to respect: no request stays open while `ID_SPACE - 1` others are
   issued, and no synchronous object outlives as many.
   */
  ghost predicate InTime(s: State, step: Step) {
    match step
    case Issue => forall t: Token :: Stored(s, t) ==> s.issued < t + ID_SPACE
    case Destroy(t) => s.issued <= t + ID_SPACE
    case _ => true
  }

  lemma SameId(t: Token, u: Token)
    requires IdOf(t) == IdOf(u) && t < u
    ensures t + ID_SPACE <= u
  {
  }

  lemma InTimeNeverDrops(s: State, step: Step, s': State)
    requires Once(s) && Recent(s) && Next(s, step, s') && InTime(s, step)
    ensures !Drops(s, step)
  {
    if Drops(s, step) {
      var t := if step.Issue? then s.issued else step.t;
      var u := s.open[IdOf(t)].cb.value;
      assert HasCallback(s.open, IdOf(t)) && Stored(s, u);
      assert Places(s, u) == 1 && (step.Destroy? ==> Places(s, t) == 1);
      if u < t { SameId(u, t); } else if t < u { SameId(t, u); }
      assert false;
    }
  }

  lemma StaysRecent(s: State, step: Step, s': State)
    requires Once(s) && Recent(s) && Next(s, step, s') && InTime(s, step)
    ensures Recent(s')
  {
    forall t: Token | Stored(s', t) ensures s'.issued <= t + ID_SPACE {
      if !Stored(s, t) {
        assert step.Issue? && t == s.issued;
      }
    }
  }

  ghost predicate IsRun(ss: seq<State>, steps: seq<Step>) {
    && |ss| == |steps| + 1
    && ss[0] == INIT
    && (forall i :: 0 <= i < |steps| ==> Next(ss[i], steps[i], ss[i + 1]))
    && (forall i :: 0 <= i < |steps| ==> InTime(ss[i], steps[i]))
  }

  /** In every reachable state of every interleaving each issued callback is in exactly one place. */
  lemma {:induction false} ExactlyOnce(ss: seq<State>, steps: seq<Step>, i: nat)
    requires IsRun(ss, steps) && i < |ss|
    ensures Once(ss[i]) && Recent(ss[i])
  {
    if i > 0 {
      ExactlyOnce(ss, steps, i - 1);
      InTimeNeverDrops(ss[i - 1], steps[i - 1], ss[i]);
      StepKeepsOnce(ss[i - 1], steps[i - 1], ss[i]);
      StaysRecent(ss[i - 1], steps[i - 1], ss[i]);
    }
  }

  /** The request was issued and its callback has neither run nor been taken out to run. */
  predicate IsOpen(s: State, t: Token) {
    t < s.issued && t !in s.taken && t !in s.ran
  }

  /**
   Open requests have pairwise distinct ids, and a reply to request `t` that arrives
   before its id is reused takes `t`'s callback or, if it is no longer open, none.
   */
  lemma ReplyReachesItsRequest(ss: seq<State>, steps: seq<Step>, i: nat, t: Token)
    requires IsRun(ss, steps) && i < |ss|
    requires t < ss[i].issued <= t + ID_SPACE
    ensures forall u: Token, v: Token :: IsOpen(ss[i], u) && IsOpen(ss[i], v) && IdOf(u) == IdOf(v) ==> u == v
    ensures TakeStep(ss[i], IdOf(t)).taken ==
            ss[i].taken + (if IsOpen(ss[i], t) then multiset{t} else multiset{})
  {
    var s := ss[i];
    ExactlyOnce(ss, steps, i);
    forall u: Token ensures IsOpen(s, u) <==> Stored(s, u) { assert Places(s, u) == if u < s.issued then 1 else 0; }
    if HasCallback(s.open, IdOf(t)) {
      var u := s.open[IdOf(t)].cb.value;
      assert Stored(s, u);
      if u < t { SameId(u, t); } else if t < u { SameId(t, u); }
    }
  }

  /** A callback that has run never runs, is stored or is taken again: late replies invoke nothing. */
  lemma {:induction false} RanIsFinal(ss: seq<State>, steps: seq<Step>, i: nat, j: nat, t: Token)
    requires IsRun(ss, steps) && i <= j < |ss| && t in ss[i].ran
    ensures ss[j].ran[t] == 1 && t !in ss[j].taken && !Stored(ss[j], t)
  {
    if i < j {
      RanIsFinal(ss, steps, i, j - 1, t);
      assert Next(ss[j - 1], steps[j - 1], ss[j]);
    }
    ExactlyOnce(ss, steps, j);
    assert Places(ss[j], t) <= 1;
  }

  /** Cancelling everything runs each stored callback once and leaves nothing open. */
  lemma ClearRunsAllOpen(ss: seq<State>, steps: seq<Step>, i: nat, t: Token)
    requires IsRun(ss, steps) && i < |steps| && steps[i] == ClearAll && Stored(ss[i], t)
    ensures ss[i + 1].open == map[] && t !in ss[i].ran && ss[i + 1].ran[t] == 1
  {
    ExactlyOnce(ss, steps, i);
    ExactlyOnce(ss, steps, i + 1);
    assert Places(ss[i], t) == 1;
    CallbacksAre(ss[i], t);
  }

  // ---- the deferred error ----

  /** The entry under `id` has its error notifier set, so that the deferred error may fire. */
  predicate MayFire(s: State, id: Id) {
    Next(s, NotifierFires(id), TakeStep(s, id))
  }

  /** The step completes or removes whatever is stored under `id`. */
  predicate Settles(step: Step, id: Id) {
    match step
    case Reply(i) => i == id
    case NotifierFires(i) => i == id
    case Destroy(t) => IdOf(t) == id
    case ClearAll => true
    case _ => false
  }

  /**
   A send that failed is reported: from then on, until something settles its id, the
   deferred error may fire, also if the entry was gone or its id is in use again.
   */
  lemma {:induction false} FailureStaysPending(ss: seq<State>, steps: seq<Step>, i: nat, j: nat, t: Token)
    requires IsRun(ss, steps) && i < j < |ss| && steps[i] == SendFails(t)
    requires forall k :: i < k < j ==> !Settles(steps[k], IdOf(t))
    ensures MayFire(ss[j], IdOf(t))
  {
    assert Next(ss[j - 1], steps[j - 1], ss[j]);
    if i < j - 1 { FailureStaysPending(ss, steps, i, j - 1, t); }
  }

  /** The deferred error of a request that is still stored takes exactly its callback. */
  lemma FailureReachesItsCaller(ss: seq<State>, steps: seq<Step>, i: nat, j: nat, t: Token)
    requires IsRun(ss, steps) && i < j < |ss| && steps[i] == SendFails(t)
    requires forall k :: i <= k <= j ==> Stored(ss[k], t)
    ensures MayFire(ss[j], IdOf(t)) && TakeStep(ss[j], IdOf(t)).taken == ss[j].taken + multiset{t}
  {
    forall k | i < k < j ensures !Settles(steps[k], IdOf(t)) {
      assert Next(ss[k], steps[k], ss[k + 1]);
      assert Stored(ss[k], t) && Stored(ss[k + 1], t);
    }
    FailureStaysPending(ss, steps, i, j, t);
  }

  /** A request that was entered under a free id and whose send did not fail is never reported as failed. */
  lemma {:induction false} NoFailureNoError(ss: seq<State>, steps: seq<Step>, i: nat, j: nat)
    requires IsRun(ss, steps) && i < j < |ss| && steps[i] == Issue && IdOf(ss[i].issued) !in ss[i].open
    requires forall k :: i < k < j ==> !(steps[k].SendFails? && IdOf(steps[k].t) == IdOf(ss[i].issued))
    requires forall k :: i < k <= j ==> Stored(ss[k], ss[i].issued)
    ensures !MayFire(ss[j], IdOf(ss[i].issued))
  {
    assert Next(ss[j - 1], steps[j - 1], ss[j]);
    if i < j - 1 { NoFailureNoError(ss, steps, i, j - 1); }
  }

  ghost predicate Reachable(s: State) {
    exists ss, steps :: IsRun(ss, steps) && ss[|steps|] == s
  }

  lemma Extend(s: State, step: Step, s': State)
    requires Reachable(s) && Next(s, step, s') && InTime(s, step)
    ensures Reachable(s')
  {
    var ss, steps :| IsRun(ss, steps) && ss[|steps|] == s;
    var ss', steps' := ss + [s'], steps + [step];
    forall i | 0 <= i < |steps'| ensures Next(ss'[i], steps'[i], ss'[i + 1]) && InTime(ss'[i], steps'[i]) {
      assert ss'[i] == ss[i];
      if i < |steps| { assert steps'[i] == steps[i] && ss'[i + 1] == ss[i + 1]; }
    }
    assert IsRun(ss', steps') && ss'[|steps'|] == s';
  }

  /** One more request is issued, answered and completed. */
  lemma OneRound(s: State) returns (s': State)
    requires Reachable(s) && 1 <= s.issued < ID_SPACE
    requires s.open == map[1 := Entry(Some(0), false)] && s.taken == multiset{}
    ensures Reachable(s') && s'.issued == s.issued + 1 && s'.open == s.open && s'.taken == s.taken
  {
    var t, s1 := s.issued, IssueStep(s);
    assert IdOf(t) != 1;
    Extend(s, Issue, s1);
    var s2 := TakeStep(s1, IdOf(t));
    Extend(s1, Reply(IdOf(t)), s2);
    s' := RunStep(s2, t);
    Extend(s2, Run(t), s');
  }

  /** Request 0 stays open while the others come and go. */
  lemma {:induction false} StaysOpen(n: nat) returns (s: State)
    requires 1 <= n <= ID_SPACE
    ensures Reachable(s) && s.issued == n && s.open == map[1 := Entry(Some(0), false)] && s.taken == multiset{}
    decreases n
  {
    if n == 1 {
      var none: seq<Step> := [];
      assert IsRun([INIT], none) && [INIT][|none|] == INIT;
      s := IssueStep(INIT);
      Extend(INIT, Issue, s);
    } else {
      s := StaysOpen(n - 1);
      s := OneRound(s);
    }
  }

  /**
   The time limit is needed: there is a run in which request 0 is still open when all
   other ids are used up, and the next request loses its callback for good.
   */
  lemma WrapAroundLosesCallback() returns (s: State)
    ensures Reachable(s) && IsOpen(s, 0) && Drops(s, Issue)
    ensures Places(IssueStep(s), 0) == 0
  {
    s := StaysOpen(ID_SPACE);
    var ss, steps :| IsRun(ss, steps) && ss[|steps|] == s;
    ExactlyOnce(ss, steps, |steps|);
    assert Stored(s, 0) && Places(s, 0) == 1;
  }

  // ---- the code ----

  /** `AsyncRequest`'s static members. `calls` logs the callbacks run, oldest first. */
  class Registry {
    var sid: Id
    var open: map<Id, Entry>
    var issued: nat
    var calls: seq<Token>

    ghost predicate Valid()
      reads this
    {
      sid == issued % ID_SPACE && Keyed(open, issued)
    }

    ghost function View(): State
      reads this
    {
      State(issued, open, multiset{}, multiset(calls))
    }

    constructor ()
      ensures Valid() && View() == INIT
    {
      sid, open, issued, calls := 0, map[], 0, [];
    }

    /** The locked part of `execute`: a fresh id and the callback under it. */
    method Issue() returns (id: Id, token: Token)
      requires Valid()
      modifies this
      ensures Valid() && View() == IssueStep(old(View()))
      ensures token == old(issued) && id == IdOf(token) && calls == old(calls)
    {
      NextId(issued);
      sid := (sid + 1) % ID_SPACE;
      id, token := sid, issued;
      var notifier := id in open && open[id].notifier;
      open := open[id := Entry(Some(token), notifier)];
      issued := issued + 1;
      assert forall i :: HasCallback(open, i) && i != id ==> HasCallback(old(open), i);
    }

    /** The error path of `execute`. */
    method SendFailed(id: Id)
      requires Valid()
      modifies this
      ensures Valid() && View() == FailStep(old(View()), id) && calls == old(calls)
    {
      if id !in open {
        open := open[id := Entry(None, false)];
      }
      open := open[id := open[id].(notifier := true)];
      assert forall i :: HasCallback(open, i) ==> HasCallback(old(open), i);
    }

    /** `handleResult` without interference: take the entry, run its callback. */
    method HandleResult(id: Id) returns (called: Option<Token>)
      requires Valid()
      modifies this
      ensures Valid()
      ensures called == (if HasCallback(old(open), id) then old(open)[id].cb else None)
      ensures called == None ==> View() == EraseStep(old(View()), id) && calls == old(calls)
      ensures called.Some? ==> View() == RunStep(TakeStep(old(View()), id), called.value)
      ensures called.Some? ==> calls == old(calls) + [called.value]
    {
      if id !in open {
        assert open - {id} == open;
        return None;
      }
      called := open[id].cb;
      open := open - {id};
      assert forall i :: HasCallback(open, i) ==> HasCallback(old(open), i);
      if called.Some? {
        calls := calls + [called.value];
      }
    }

    /** The loop of `clear()`, in some order. */
    method RunAll() returns (ran: seq<Token>)
      requires Valid()
      modifies this`calls
      ensures calls == old(calls) + ran
      ensures multiset(ran) == multiset(Callbacks(open))
    {
      ran := [];
      var todo := open.Keys;
      ghost var done: set<Id> := {};
      while todo != {}
        invariant todo + done == open.Keys && todo !! done
        invariant calls == old(calls) + ran
        invariant multiset(ran) == multiset(CallbacksOf(open, done))
        decreases |todo|
      {
        var id :| id in todo;
        AnotherCallback(open, issued, done, id);
        done := done + {id};
        if open[id].cb.Some? {
          ran := ran + [open[id].cb.value];
          calls := calls + [open[id].cb.value];
        }
        todo := todo - {id};
      }
      assert CallbacksOf(open, done) == Callbacks(open);
    }

    /** `clear()`: runs every stored callback once and counts the entries. */
    method Clear() returns (count: nat, ran: seq<Token>)
      requires Valid()
      modifies this
      ensures Valid() && View() == ClearStep(old(View()))
      ensures count == |old(open)| && calls == old(calls) + ran
      ensures multiset(ran) == multiset(Callbacks(old(open)))
    {
      count := |open|;
      ran := RunAll();
      open := map[];
    }

    /** The destructor of a synchronous request. */
    method Erase(id: Id)
      requires Valid()
      modifies this
      ensures Valid() && View() == EraseStep(old(View()), id) && calls == old(calls)
    {
      open := open - {id};
      assert forall i :: HasCallback(open, i) ==> HasCallback(old(open), i);
    }
  }

  lemma NextId(n: nat)
    ensures (n % ID_SPACE + 1) % ID_SPACE == IdOf(n)
  {
  }

  function CallbacksOf(open: map<Id, Entry>, ids: set<Id>): set<Token> {
    set id | id in ids && id in open && open[id].cb.Some? :: open[id].cb.value
  }

  lemma AnotherCallback(open: map<Id, Entry>, issued: nat, ids: set<Id>, id: Id)
    requires Keyed(open, issued) && id in open && id !in ids
    ensures multiset(CallbacksOf(open, ids + {id})) ==
            multiset(CallbacksOf(open, ids))
            + (if open[id].cb.Some? then multiset{open[id].cb.value} else multiset{})
  {
    var added := if open[id].cb.Some? then {open[id].cb.value} else {};
    assert HasCallback(open, id) <==> open[id].cb.Some?;
    assert forall i :: i in open && open[i].cb.Some? ==> HasCallback(open, i);
    assert CallbacksOf(open, ids + {id}) == CallbacksOf(open, ids) + added;
    assert CallbacksOf(open, ids) !! added;
  }
}
