/** What a broadcast and a handshake bring to the clients, over every run of the publisher. */
module SnapshotDelivery {
  import opened Wrappers
  import opened SnapshotState
  import opened SnapshotConvergence

  // ---- Broadcasts ----

  ghost predicate SomeReady(st: State) {
    exists p :: p in st.peers && st.peers[p].handshake == Ready
  }

  /** A message of this revision was written to the peer after its first `n`. */
  ghost predicate ToldAfter(peer: Peer, n: nat, revision: Revision) {
    exists m :: n <= m < |peer.sent| && peer.sent[m] == Event(revision)
  }

  /** The broadcast in progress is of this revision, and the peer is still to be served, has left, or has
      been told. */
  ghost predicate IsServing(st: State, p: PeerId, n: nat, revision: Revision) {
    && st.current.Some? && st.current.value.revision == st.revision == revision
    && p in st.peers && n <= |st.peers[p].sent|
    && (p in st.current.value.targets || st.peers[p].handshake.Gone? || ToldAfter(st.peers[p], n, revision))
  }

  lemma WriteKeepsTold(peer: Peer, message: Message, n: nat, revision: Revision)
    requires ToldAfter(peer, n, revision)
    ensures ToldAfter(Write(peer, message), n, revision)
  {
    var m :| n <= m < |peer.sent| && peer.sent[m] == Event(revision);
    assert Write(peer, message).sent[m] == Event(revision);
  }

  lemma PeerStepServes(st: State, step: Step, p: PeerId, n: nat, revision: Revision)
    requires Enabled(st, step) && IsServing(st, p, n, revision)
    requires step.SendHello? || step.SendCatchUp?
    ensures IsServing(Apply(st, step), p, n, revision)
  {
    if step.p == p && ToldAfter(st.peers[p], n, revision) {
      match step
      case SendHello(_) => WriteKeepsTold(st.peers[p], Hello(st.peers[p].handshake.revision), n, revision);
      case SendCatchUp(_, _) => WriteKeepsTold(st.peers[p], Event(st.peers[p].catchUp.value), n, revision);
    }
  }

  lemma SendNextServes(st: State, open: bool, p: PeerId, n: nat, revision: Revision)
    requires Enabled(st, SendNext(open)) && IsServing(st, p, n, revision)
    ensures IsServing(Apply(st, SendNext(open)), p, n, revision)
  {
    var targets := st.current.value.targets;
    var after := Apply(st, SendNext(open)).peers[p];
    if targets[0] == p && open {
      assert after.sent[|st.peers[p].sent|] == Event(revision);
    } else if p in targets && targets[0] != p {
      assert targets == [targets[0]] + targets[1..];
    } else if targets[0] != p {
      assert after == st.peers[p];
    }
  }

  lemma StepServes(st: State, step: Step, p: PeerId, n: nat, revision: Revision)
    requires Enabled(st, step) && IsServing(st, p, n, revision) && step != FinishBroadcast
    ensures IsServing(Apply(st, step), p, n, revision)
  {
    match step
    case SendHello(_) => PeerStepServes(st, step, p, n, revision);
    case SendCatchUp(_, _) => PeerStepServes(st, step, p, n, revision);
    case SendNext(open) => SendNextServes(st, open, p, n, revision);
    case _ =>
  }

  lemma {:induction false} RunServes(states: seq<State>, steps: seq<Step>, i: nat, j: nat, p: PeerId, n: nat, revision: Revision)
    requires IsRun(states, steps) && i <= j < |states| && IsServing(states[i], p, n, revision)
    requires forall k :: i <= k < j ==> steps[k] != FinishBroadcast
    ensures IsServing(states[j], p, n, revision)
    decreases j
  {
    if i < j {
      RunServes(states, steps, i, j - 1, p, n, revision);
      assert StepAt(states, steps, j - 1);
      StepServes(states[j - 1], steps[j - 1], p, n, revision);
    }
  }

  /** A queued broadcast takes the next revision exactly if the server is not closing and some peer is
      ready, and then it is for the peers ready at that moment; otherwise only the queue gets shorter. */
  lemma BroadcastStarts(states: seq<State>, steps: seq<Step>, i: nat)
    requires IsRun(states, steps) && i < |steps| && steps[i].StartBroadcast?
    ensures var st, next := states[i], states[i + 1];
            if !st.closing && SomeReady(st) then
              && next.revision == st.revision + 1
              && next.current.Some? && next.current.value.revision == next.revision
              && (forall p :: p in next.current.value.targets <==> p in st.peers && st.peers[p].handshake == Ready)
              && next.peers == st.peers && next.queued == st.queued - 1 && !next.closing
            else st.queued > 0 && next == st.(queued := st.queued - 1)
  {
    assert StepAt(states, steps, i);
    var targets := steps[i].targets;
    if targets != [] {
      assert targets[0] in targets;
    }
  }

  /** Once a broadcast has finished, every peer that was ready when it started has left or has been sent
      its revision since. */
  lemma BroadcastReachesAll(states: seq<State>, steps: seq<Step>, i: nat, j: nat, p: PeerId)
    requires IsRun(states, steps) && i < j < |steps| && steps[i].StartBroadcast? && steps[j] == FinishBroadcast
    requires forall k :: i < k < j ==> steps[k] != FinishBroadcast
    requires !states[i].closing && p in states[i].peers && states[i].peers[p].handshake == Ready
    ensures states[j].revision == states[i].revision + 1 && p in states[j].peers
    ensures states[j].peers[p].handshake.Gone? ||
            ToldAfter(states[j].peers[p], |states[i].peers[p].sent|, states[i].revision + 1)
  {
    BroadcastStarts(states, steps, i);
    assert SomeReady(states[i]);
    assert IsServing(states[i + 1], p, |states[i].peers[p].sent|, states[i].revision + 1);
    RunServes(states, steps, i + 1, j, p, |states[i].peers[p].sent|, states[i].revision + 1);
    assert StepAt(states, steps, j);
  }

  /** What is left of a broadcast: to fetch its snapshot, to send it to the remaining peers, to finish. */
  function Remaining(b: Broadcast): nat {
    |b.targets| + if b.fetched then 1 else 2
  }

  /** The next stretch of a broadcast, when no connection closes. */
  function NextOf(b: Broadcast): Step {
    if !b.fetched then SnapshotFetched else if b.targets != [] then SendNext(true) else FinishBroadcast
  }

  lemma BroadcastMoves(st: State)
    requires Inv(st) && st.current.Some?
    ensures Enabled(st, NextOf(st.current.value)) && Inv(Apply(st, NextOf(st.current.value)))
    ensures var next := Apply(st, NextOf(st.current.value));
            if Remaining(st.current.value) == 1 then next.current.None?
            else next.current.Some? && Remaining(next.current.value) == Remaining(st.current.value) - 1
  {
    var b := st.current.value;
    if b.fetched && b.targets != [] {
      assert b.targets[0] in b.targets;
    }
    StepKeepsInv(st, NextOf(b));
  }

  /** Left to itself a broadcast that has started comes to its end, and the next one may start. */
  lemma {:induction false} BroadcastCanFinish(st: State) returns (states: seq<State>, steps: seq<Step>)
    requires Inv(st) && st.current.Some?
    ensures |states| == |steps| + 1 && |steps| == Remaining(st.current.value)
    ensures states[0] == st && forall i :: 0 <= i < |steps| ==> StepAt(states, steps, i)
    ensures states[|steps|].current.None?
    decreases Remaining(st.current.value)
  {
    BroadcastMoves(st);
    var step := NextOf(st.current.value);
    var next := Apply(st, step);
    if next.current.None? {
      states, steps := [st, next], [step];
    } else {
      var later, rest := BroadcastCanFinish(next);
      states, steps := [st] + later, [step] + rest;
      forall i | 0 <= i < |steps|
        ensures StepAt(states, steps, i)
      {
        assert i > 0 ==> StepAt(later, rest, i - 1);
      }
    }
  }

  lemma StepKeepsGone(st: State, step: Step, p: PeerId)
    requires Enabled(st, step) && p in st.peers
    ensures p in Apply(st, step).peers
    ensures st.peers[p].handshake.Gone? || step == Leave(p) ==> Apply(st, step).peers[p].handshake.Gone?
  {
  }

  /** A peer that has left is never ready again, so that no later broadcast is for it. */
  lemma {:induction false} GoneStays(states: seq<State>, steps: seq<Step>, i: nat, j: nat, p: PeerId)
    requires IsRun(states, steps) && i < j < |states| && steps[i] == Leave(p)
    ensures p in states[j].peers && states[j].peers[p].handshake.Gone?
    ensures j < |steps| && steps[j].StartBroadcast? ==> p !in steps[j].targets
    decreases j
  {
    assert StepAt(states, steps, j - 1);
    if i < j - 1 {
      GoneStays(states, steps, i, j - 1, p);
    }
    StepKeepsGone(states[j - 1], steps[j - 1], p);
    if j < |steps| {
      assert StepAt(states, steps, j);
    }
  }

  /** The server is closing exactly from when its close began. */
  lemma {:induction false} ClosingIff(states: seq<State>, steps: seq<Step>, i: nat)
    requires IsRun(states, steps) && i < |states|
    ensures states[i].closing <==> exists j :: 0 <= j < i && steps[j] == BeginClose
  {
    if i > 0 {
      ClosingIff(states, steps, i - 1);
      assert StepAt(states, steps, i - 1);
      StepCloses(states[i - 1], steps[i - 1]);
    }
  }

  lemma StepCloses(st: State, step: Step)
    requires Enabled(st, step)
    ensures Apply(st, step).closing <==> st.closing || step == BeginClose
  {
  }

  // ---- Handshakes ----

  /** The snapshot for hello was requested at `i`, and hello has not been sent since. */
  ghost predicate FetchingSince(states: seq<State>, steps: seq<Step>, j: nat, p: PeerId, i: nat)
    requires |states| == |steps| + 1
  {
    i < j < |states| && steps[i] == ReceiveHello(p) && p in states[j].peers &&
    states[j].peers[p].handshake == Fetching(states[i].revision)
  }

  lemma {:induction false} FetchingWasRequested(states: seq<State>, steps: seq<Step>, j: nat, p: PeerId)
    requires IsRun(states, steps) && j < |states| && p in states[j].peers && states[j].peers[p].handshake.Fetching?
    ensures exists i :: FetchingSince(states, steps, j, p, i)
  {
    var n := j - 1;
    assert StepAt(states, steps, n);
    if steps[n] == ReceiveHello(p) {
      assert FetchingSince(states, steps, j, p, n);
    } else {
      StaysFetching(states[n], steps[n], p);
      FetchingWasRequested(states, steps, n, p);
      var i :| FetchingSince(states, steps, n, p, i);
      assert FetchingSince(states, steps, j, p, i);
    }
  }

  lemma StaysFetching(st: State, step: Step, p: PeerId)
    requires Enabled(st, step) && step != ReceiveHello(p)
    requires p in Apply(st, step).peers && Apply(st, step).peers[p].handshake.Fetching?
    ensures p in st.peers && st.peers[p].handshake == Apply(st, step).peers[p].handshake
  {
  }

  /** Unless the server is closing, hello is sent and carries the revision at which the client's own hello
      was received; a server that is closing greets nobody. */
  lemma HelloCarries(states: seq<State>, steps: seq<Step>, j: nat, p: PeerId)
    requires IsRun(states, steps) && j < |steps| && steps[j] == SendHello(p)
    ensures states[j].closing ==> states[j + 1] == states[j]
    ensures !states[j].closing ==>
              && p in states[j + 1].peers && states[j + 1].peers[p].handshake.Greeting?
              && exists i: nat ::
                   i < j && steps[i] == ReceiveHello(p) && states[j + 1].peers[p].sent == [Hello(states[i].revision)]
  {
    assert StepAt(states, steps, j);
    FetchingWasRequested(states, steps, j, p);
    RunKeepsInv(states, steps, j);
  }

  /** A client that becomes ready is to get a second snapshot exactly if the revision has moved since its
      hello. */
  lemma SecondSnapshotIff(states: seq<State>, steps: seq<Step>, j: nat, p: PeerId)
    requires IsRun(states, steps) && j < |steps| && steps[j] == HelloSent(p)
    ensures p in states[j + 1].peers && p in states[j].peers && states[j].peers[p].sent != []
    ensures var peer, last := states[j + 1].peers[p], states[j].peers[p].sent[|states[j].peers[p].sent| - 1];
            && peer.handshake == Ready
            && peer.catchUp == if last.revision != states[j].revision then Some(states[j].revision) else None
  {
    assert StepAt(states, steps, j);
    RunKeepsInv(states, steps, j);
  }

  /** The second snapshot is written unless the connection has closed, and then nothing more is due. */
  lemma SecondSnapshotIsSent(states: seq<State>, steps: seq<Step>, j: nat, p: PeerId, open: bool)
    requires IsRun(states, steps) && j < |steps| && steps[j] == SendCatchUp(p, open)
    ensures p in states[j].peers && p in states[j + 1].peers && states[j].peers[p].catchUp.Some?
    ensures states[j + 1].peers[p].catchUp.None?
    ensures states[j + 1].peers[p].sent ==
            states[j].peers[p].sent + if open then [Event(states[j].peers[p].catchUp.value)] else []
    ensures !open ==> states[j].peers[p].handshake.Gone?
  {
    assert StepAt(states, steps, j);
  }

  // ---- Deliveries and requests ----

  function Deliveries(steps: seq<Step>, p: PeerId): nat {
    if steps == [] then 0
    else Deliveries(steps[..|steps| - 1], p) + if steps[|steps| - 1] == Deliver(p) then 1 else 0
  }

  lemma ReceivedNext(st: State, step: Step, p: PeerId)
    requires Enabled(st, step) && p in Apply(st, step).peers
    ensures p !in st.peers ==> Apply(st, step).peers[p].received == 0
    ensures p in st.peers ==>
              Apply(st, step).peers[p].received == st.peers[p].received + if step == Deliver(p) then 1 else 0
  {
  }

  /** A client has taken exactly as many messages as were delivered to it. */
  lemma {:induction false} ReceivedIsDelivered(states: seq<State>, steps: seq<Step>, i: nat, p: PeerId)
    requires IsRun(states, steps) && i < |states|
    ensures (if p in states[i].peers then states[i].peers[p].received else 0) == Deliveries(steps[..i], p)
  {
    if i > 0 {
      ReceivedIsDelivered(states, steps, i - 1, p);
      assert StepAt(states, steps, i - 1);
      assert steps[..i][..i - 1] == steps[..i - 1];
      if p in states[i].peers {
        ReceivedNext(states[i - 1], steps[i - 1], p);
      } else {
        PeersStay(states[i - 1], steps[i - 1], p);
      }
    }
  }

  lemma PeersStay(st: State, step: Step, p: PeerId)
    requires Enabled(st, step)
    ensures p in st.peers || step == Connect(p) <==> p in Apply(st, step).peers
  {
  }

  function Requested(steps: seq<Step>): nat {
    if steps == [] then 0
    else Requested(steps[..|steps| - 1]) + if steps[|steps| - 1].RequestBroadcast? then 1 else 0
  }

  function Performed(steps: seq<Step>): nat {
    if steps == [] then 0
    else Performed(steps[..|steps| - 1]) + if steps[|steps| - 1].StartBroadcast? then 1 else 0
  }

  /** Every broadcast that was asked for is performed or still queued. */
  lemma {:induction false} QueuedIsRequested(states: seq<State>, steps: seq<Step>, i: nat)
    requires IsRun(states, steps) && i < |states|
    ensures Requested(steps[..i]) == Performed(steps[..i]) + states[i].queued
  {
    if i > 0 {
      QueuedIsRequested(states, steps, i - 1);
      assert StepAt(states, steps, i - 1);
      assert steps[..i][..i - 1] == steps[..i - 1];
      QueuedNext(states[i - 1], steps[i - 1]);
    }
  }

  lemma QueuedNext(st: State, step: Step)
    requires Enabled(st, step)
    ensures Apply(st, step).queued ==
            st.queued + (if step.RequestBroadcast? then 1 else 0) - (if step.StartBroadcast? then 1 else 0)
  {
  }
}
