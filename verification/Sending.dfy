/**
 Concurrent senders sharing one socket under the send mutex. Each writes its
 frame piece by piece while it holds the mutex; a message that is too long is
 refused before the mutex is taken.
 */
module Sending {
  import opened Common
  import opened Framing

  type Thread = nat

  /** The thread inside the critical section and how much of its frame it has written. */
  datatype Holder = Holder(thread: Thread, msg: Payload, written: nat)

  /**
   `log` lists the messages sent completely, in the order in which the mutex was
   taken. `torn` counts the bytes left on the wire by sends that failed half way.
   */
  datatype Wire = Wire(bytes: seq<Byte>, holder: Option<Holder>, log: seq<Payload>, torn: nat)

  datatype Action =
    | Send(thread: Thread, msg: seq<Byte>)  // length check, then take the mutex
    | Write(thread: Thread, count: nat)     // one piece reaches the wire
    | Unlock(thread: Thread)                // everything written
    | Abort(thread: Thread)                 // the socket reports an error

  const INIT := Wire([], None, [], 0)

  predicate Holds(w: Wire, thread: Thread) {
    w.holder.Some? && w.holder.value.thread == thread
  }

  predicate Next(w: Wire, a: Action, w': Wire) {
    match a
    case Send(thread, msg) =>
      if |msg| > MAX_MESSAGE_SIZE then w' == w
      else w.holder == None && w' == w.(holder := Some(Holder(thread, msg, 0)))
    case Write(thread, count) =>
      && Holds(w, thread)
      && var h := w.holder.value;
         && h.written + count <= |Frame(h.msg)|
         && w' == w.(bytes := w.bytes + Frame(h.msg)[h.written..h.written + count],
                     holder := Some(h.(written := h.written + count)))
    case Unlock(thread) =>
      && Holds(w, thread)
      && w.holder.value.written == |Frame(w.holder.value.msg)|
      && w' == w.(holder := None, log := w.log + [w.holder.value.msg])
    case Abort(thread) =>
      && Holds(w, thread)
      && w' == w.(holder := None, torn := w.torn + w.holder.value.written)
  }

  ghost predicate IsRun(ws: seq<Wire>, actions: seq<Action>) {
    && |ws| == |actions| + 1
    && ws[0] == INIT
    && forall i :: 0 <= i < |actions| ==> Next(ws[i], actions[i], ws[i + 1])
  }

  /** The part of the holder's frame that is already on the wire. */
  function Partial(w: Wire): seq<Byte> {
    if w.holder.Some? && w.holder.value.written <= |Frame(w.holder.value.msg)|
    then Frame(w.holder.value.msg)[..w.holder.value.written] else []
  }

  ghost predicate Framed(w: Wire) {
    && (w.holder.Some? ==> w.holder.value.written <= |Frame(w.holder.value.msg)|)
    && |w.bytes| == |Frames(w.log)| + |Partial(w)| + w.torn
    && (w.torn == 0 ==> w.bytes == Frames(w.log) + Partial(w))
  }

  lemma LogOne(log: seq<Payload>, msg: Payload)
    ensures Frames(log + [msg]) == Frames(log) + Frame(msg)
  {
    FramesAppend(log, [msg]);
    assert Frames([msg]) == Frame(msg) + Frames([]);
  }

  lemma NextKeepsFramed(w: Wire, a: Action, w': Wire)
    requires Framed(w) && Next(w, a, w')
    ensures Framed(w')
  {
    match a
    case Send(_, _) =>
    case Write(_, count) =>
      var h := w.holder.value;
      var f := Frame(h.msg);
      assert f[..h.written + count] == f[..h.written] + f[h.written..h.written + count];
      ConcatAssociative(Frames(w.log), Partial(w), f[h.written..h.written + count]);
    case Unlock(_) => LogOne(w.log, w.holder.value.msg);
    case Abort(_) =>
  }

  lemma {:induction false} RunFramed(ws: seq<Wire>, actions: seq<Action>, i: nat)
    requires IsRun(ws, actions) && i < |ws|
    ensures Framed(ws[i])
  {
    if i > 0 {
      RunFramed(ws, actions, i - 1);
      NextKeepsFramed(ws[i - 1], actions[i - 1], ws[i]);
    }
  }

  /** While a sender holds the mutex, nobody else gets in and its message stays the same. */
  lemma {:induction false} HolderStays(ws: seq<Wire>, actions: seq<Action>, i: nat, j: nat, thread: Thread,
                                       msg: Payload)
    requires IsRun(ws, actions) && i < j < |ws| && actions[i] == Send(thread, msg)
    requires forall k :: i < k < j ==> actions[k] != Unlock(thread) && actions[k] != Abort(thread)
    ensures Holds(ws[j], thread) && ws[j].holder.value.msg == msg && ws[j].log == ws[i].log
  {
    assert Next(ws[j - 1], actions[j - 1], ws[j]);
    if i < j - 1 { HolderStays(ws, actions, i, j - 1, thread, msg); }
  }

  /** A send that is not aborted adds its message, and only its message, to the completed ones. */
  lemma CompletedSendIsLogged(ws: seq<Wire>, actions: seq<Action>, i: nat, j: nat, thread: Thread, msg: Payload)
    requires IsRun(ws, actions) && i < j < |actions| && actions[i] == Send(thread, msg) && actions[j] == Unlock(thread)
    requires forall k :: i < k < j ==> actions[k] != Unlock(thread) && actions[k] != Abort(thread)
    ensures ws[j + 1].log == ws[i].log + [msg]
  {
    HolderStays(ws, actions, i, j, thread, msg);
    assert Next(ws[j], actions[j], ws[j + 1]);
  }

  /**
   In every interleaving the wire is the completed messages in lock order followed
   by at most a prefix of the lock holder's frame, exactly when no send has failed
   after writing part of its frame.
   */
  lemma WireIsWholeFrames(ws: seq<Wire>, actions: seq<Action>, i: nat)
    requires IsRun(ws, actions) && i < |ws|
    ensures ws[i].bytes == Frames(ws[i].log) + Partial(ws[i]) <==> ws[i].torn == 0
  {
    RunFramed(ws, actions, i);
  }

  /** A proper prefix of a frame is a tail the decoder waits on. */
  lemma PrefixIncomplete(msg: Payload, n: nat)
    requires n < |Frame(msg)|
    ensures Incomplete(Frame(msg)[..n])
  {
    if n >= HEADER_SIZE {
      assert Frame(msg)[..n][..HEADER_SIZE] == Htonl(|msg|);
    }
  }

  /**
   What a receiver sees: whenever the lock is free or the holder is still writing,
   decoding the wire yields the messages in lock order and leaves exactly the
   holder's prefix pending, if and only if nothing was torn. Every length a sender
   accepts, the decoder accepts.
   */
  lemma ReceiverRecoversLog(ws: seq<Wire>, actions: seq<Action>, i: nat)
    requires IsRun(ws, actions) && i < |ws|
    requires ws[i].holder.Some? ==> ws[i].holder.value.written < |Frame(ws[i].holder.value.msg)|
    ensures Decode(ws[i].bytes) == Decoding(ws[i].log, Partial(ws[i]), false) <==> ws[i].torn == 0
  {
    var w := ws[i];
    RunFramed(ws, actions, i);
    if w.torn == 0 {
      if w.holder.Some? {
        PrefixIncomplete(w.holder.value.msg, w.holder.value.written);
      }
      DecodeUnique(w.log, Partial(w));
    }
    DecodeConserves(w.bytes);
  }

  /**
   The condition is needed: a send that fails after three bytes makes the receiver
   read an empty message where the next sender sent `[7]`.
   */
  lemma TornSendMisleadsReceiver() returns (ws: seq<Wire>, actions: seq<Action>)
    ensures IsRun(ws, actions)
    ensures ws[|actions|].log == [[7]] && Decode(ws[|actions|].bytes).frames == [[]]
  {
    var f, g := Frame([7, 7]), Frame([7]);
    SmallLength(2);
    SmallLength(1);
    var w1 := INIT.(holder := Some(Holder(0, [7, 7], 0)));
    var w2 := w1.(bytes := f[0..3], holder := Some(Holder(0, [7, 7], 3)));
    var w3 := w2.(holder := None, torn := 3);
    var w4 := w3.(holder := Some(Holder(1, [7], 0)));
    var w5 := w4.(bytes := f[0..3] + g[0..5], holder := Some(Holder(1, [7], 5)));
    var w6 := w5.(holder := None, log := [[7]]);
    ws := [INIT, w1, w2, w3, w4, w5, w6];
    actions := [Send(0, [7, 7]), Write(0, 3), Abort(0), Send(1, [7]), Write(1, 5), Unlock(1)];
    assert w6.bytes == [0, 0, 0, 0, 0, 0, 1, 7];
    MisreadBytes();
  }

  lemma SmallLength(n: nat)
    requires n < 256
    ensures Htonl(n) == [0, 0, 0, n]
  {
    assert ToBigEndian(0, 1) == [0];
    assert ToBigEndian(0, 2) == [0, 0];
    assert ToBigEndian(n / 256, 3) == [0, 0, 0];
    assert ToBigEndian(n, 4) == [0, 0, 0, n];
  }

  lemma MisreadBytes()
    ensures Decode([0, 0, 0, 0, 0, 0, 1, 7]).frames == [[]]
  {
    var s: seq<Byte> := [0, 0, 0, 0, 0, 0, 1, 7];
    assert s[..4] == [0, 0, 0, 0] && s[4..] == [0, 0, 1, 7] && s[4..][..4] == s[4..];
    SmallLength(0);
    assert BigEndian([0, 0, 0, 0]) == 0;
    assert [0, 0, 1, 7][..3] == [0, 0, 1] && [0, 0, 1][..2] == [0, 0];
    assert BigEndian([0, 0]) == 0 && BigEndian([0, 0, 1]) == 1 && BigEndian(s[4..]) == 263;
    assert Incomplete(s[4..]);
  }
}
