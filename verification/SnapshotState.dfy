/** Server snapshots and their revisions, from the publisher's counter to the client's stored
    snapshot, as a transition system. Service calls and sends succeed; a peer may disconnect at
    any time. */
module SnapshotState {
  import opened Wrappers

  type PeerId = nat
  type Revision = nat

  /** What the server sends that carries a server snapshot. */
  datatype Message = Hello(revision: Revision) | Event(revision: Revision)

  /** The connection's handshake. `Fetching` awaits the first snapshot; `Greeting` awaits the send
      of hello. The revision is the one read when the snapshot was requested. */
  datatype Handshake =
    | AwaitingHello
    | Fetching(revision: Revision)
    | Greeting(revision: Revision)
    | Ready
    | Gone

  /** `sent` is everything written to the connection, of which the client has taken `received`.
      `catchUp` is the snapshot being fetched again because the revision moved during the handshake. */
  datatype Peer = Peer(handshake: Handshake, catchUp: Option<Revision>, sent: seq<Message>, received: nat)

  /** A broadcast in progress: its snapshot is being fetched, or being sent to the remaining targets. */
  datatype Broadcast = Broadcast(revision: Revision, fetched: bool, targets: seq<PeerId>)

  datatype State = State(
    revision: Revision, queued: nat, current: Option<Broadcast>, closing: bool, peers: map<PeerId, Peer>)

  const Initial := State(0, 0, None, false, map[])

  datatype Step =
    | Connect(p: PeerId)
    | ReceiveHello(p: PeerId)
    | SendHello(p: PeerId)
    | HelloSent(p: PeerId)
    | SendCatchUp(p: PeerId, open: bool)
    | Leave(p: PeerId)
    | RequestBroadcast
    | StartBroadcast(targets: seq<PeerId>)
    | SnapshotFetched
    | SendNext(open: bool)
    | FinishBroadcast
    | Deliver(p: PeerId)
    | BeginClose

  /** The peers a broadcast goes to: each ready one once, in some order. */
  ghost predicate IsReadyList(st: State, targets: seq<PeerId>) {
    && (forall p :: p in targets <==> p in st.peers && st.peers[p].handshake == Ready)
    && (forall i, j :: 0 <= i < j < |targets| ==> targets[i] != targets[j])
  }

  function SetPeer(st: State, p: PeerId, peer: Peer): State {
    st.(peers := st.peers[p := peer])
  }

  function Write(peer: Peer, message: Message): Peer {
    peer.(sent := peer.sent + [message])
  }

  /** A send is skipped only for a peer that is leaving, once its transport has closed. */
  predicate MaySend(peer: Peer, open: bool) {
    open || peer.handshake.Gone?
  }

  ghost predicate Enabled(st: State, step: Step) {
    match step
    case Connect(p) => p !in st.peers
    case ReceiveHello(p) => p in st.peers && st.peers[p].handshake == AwaitingHello
    case SendHello(p) => p in st.peers && st.peers[p].handshake.Fetching?
    case HelloSent(p) => p in st.peers && st.peers[p].handshake.Greeting?
    case SendCatchUp(p, open) => p in st.peers && st.peers[p].catchUp.Some? && MaySend(st.peers[p], open)
    case Leave(p) => p in st.peers
    case RequestBroadcast => true
    case StartBroadcast(targets) => st.queued > 0 && st.current.None? && IsReadyList(st, targets)
    case SnapshotFetched => st.current.Some?
    case SendNext(open) =>
      && st.current.Some? && st.current.value.fetched && st.current.value.targets != []
      && st.current.value.targets[0] in st.peers && MaySend(st.peers[st.current.value.targets[0]], open)
    case FinishBroadcast => st.current.Some? && st.current.value.fetched && st.current.value.targets == []
    case Deliver(p) => p in st.peers && st.peers[p].received < |st.peers[p].sent|
    case BeginClose => true
  }

  ghost function Apply(st: State, step: Step): State
    requires Enabled(st, step)
  {
    match step
    case Connect(p) => SetPeer(st, p, Peer(AwaitingHello, None, [], 0))
    case ReceiveHello(p) => SetPeer(st, p, st.peers[p].(handshake := Fetching(st.revision)))
    case SendHello(p) =>
      var r := st.peers[p].handshake.revision;
      if st.closing then st
      else SetPeer(st, p, Write(st.peers[p], Hello(r)).(handshake := Greeting(r)))
    case HelloSent(p) =>
      var sentRevision := st.peers[p].handshake.revision;
      SetPeer(st, p, st.peers[p].(
        handshake := Ready,
        catchUp := if sentRevision != st.revision then Some(st.revision) else None))
    case SendCatchUp(p, open) =>
      var peer := st.peers[p].(catchUp := None);
      SetPeer(st, p, if open then Write(peer, Event(st.peers[p].catchUp.value)) else peer)
    case Leave(p) => SetPeer(st, p, st.peers[p].(handshake := Gone))
    case RequestBroadcast => st.(queued := st.queued + 1)
    case StartBroadcast(targets) =>
      if targets == [] || st.closing then st.(queued := st.queued - 1)
      else st.(queued := st.queued - 1, revision := st.revision + 1,
               current := Some(Broadcast(st.revision + 1, false, targets)))
    case SnapshotFetched => st.(current := Some(st.current.value.(fetched := true)))
    case SendNext(open) =>
      var b := st.current.value;
      var p := b.targets[0];
      var next := st.(current := Some(b.(targets := b.targets[1..])));
      if open then SetPeer(next, p, Write(st.peers[p], Event(b.revision))) else next
    case FinishBroadcast => st.(current := None)
    case Deliver(p) => SetPeer(st, p, st.peers[p].(received := st.peers[p].received + 1))
    case BeginClose => st.(closing := true)
  }

  /** The client keeps a snapshot unless its revision is lower than the stored one. */
  function Accept(stored: Option<Revision>, message: Message): Option<Revision> {
    if stored.Some? && message.revision < stored.value then stored else Some(message.revision)
  }

  /** The client's stored revision after these messages. */
  function Stored(messages: seq<Message>): Option<Revision> {
    if messages == [] then None
    else Accept(Stored(messages[..|messages| - 1]), messages[|messages| - 1])
  }

  function ClientRevision(peer: Peer): Option<Revision>
    requires peer.received <= |peer.sent|
  {
    Stored(peer.sent[..peer.received])
  }

  ghost predicate StepAt(states: seq<State>, steps: seq<Step>, i: nat) {
    i < |steps| && |states| == |steps| + 1 && Follows(states[i], steps[i], states[i + 1])
  }

  ghost predicate IsRun(states: seq<State>, steps: seq<Step>) {
    && |states| == |steps| + 1
    && states[0] == Initial
    && forall i :: 0 <= i < |steps| ==> StepAt(states, steps, i)
  }

  ghost predicate Follows(st: State, step: Step, next: State) {
    Enabled(st, step) && next == Apply(st, step)
  }
}

/** The revisions converge. */
module SnapshotConvergence {
  import opened Wrappers
  import opened SnapshotState

  /** The stored revision is the highest delivered one. */
  lemma {:induction false} StoredIsHighest(messages: seq<Message>)
    ensures messages != [] ==> Stored(messages).Some?
    ensures Stored(messages).Some? ==>
              && (exists i :: 0 <= i < |messages| && messages[i].revision == Stored(messages).value)
              && (forall i :: 0 <= i < |messages| ==> messages[i].revision <= Stored(messages).value)
  {
    if messages != [] {
      var front := messages[..|messages| - 1];
      StoredIsHighest(front);
      if Stored(front).Some? {
        var i :| 0 <= i < |front| && front[i].revision == Stored(front).value;
        assert messages[i] == front[i];
      }
      assert messages[|messages| - 1].revision == Stored(messages).value || Stored(messages) == Stored(front);
    }
  }

  lemma StoredAfterOneMore(messages: seq<Message>, message: Message)
    ensures Stored(messages + [message]) == Accept(Stored(messages), message)
  {
    assert (messages + [message])[..|messages|] == messages;
  }

  /** Something that will bring the current revision to the peer: it is already written, or being
      fetched again after the handshake, or being broadcast to it. */
  predicate Informed(st: State, p: PeerId)
    requires p in st.peers
  {
    var peer := st.peers[p];
    || (exists i :: 0 <= i < |peer.sent| && peer.sent[i].revision == st.revision)
    || peer.catchUp == Some(st.revision)
    || (st.current.Some? && st.current.value.revision == st.revision && p in st.current.value.targets)
  }

  /** Hello is the first message and the only hello; it is written before the connection is ready. */
  predicate Greeted(peer: Peer) {
    && (forall i :: 0 <= i < |peer.sent| ==> (peer.sent[i].Hello? <==> i == 0))
    && (peer.handshake.AwaitingHello? || peer.handshake.Fetching? ==> peer.sent == [])
    && (peer.handshake.Greeting? || peer.handshake.Ready? ==> peer.sent != [])
    && (peer.handshake.Greeting? ==> peer.sent[|peer.sent| - 1].revision == peer.handshake.revision)
    && (peer.catchUp.Some? ==> peer.handshake.Ready? || peer.handshake.Gone?)
    && (peer.catchUp.Some? ==> peer.sent != [])
  }

  /** No revision is ahead of the publisher's. */
  predicate NotAhead(peer: Peer, revision: Revision) {
    && (forall i :: 0 <= i < |peer.sent| ==> peer.sent[i].revision <= revision)
    && (peer.catchUp.Some? ==> peer.catchUp.value <= revision)
    && (peer.handshake.Fetching? || peer.handshake.Greeting? ==> peer.handshake.revision <= revision)
  }

  ghost predicate Inv(st: State) {
    && (forall p :: p in st.peers ==>
          && st.peers[p].received <= |st.peers[p].sent|
          && Greeted(st.peers[p])
          && NotAhead(st.peers[p], st.revision)
          && (st.peers[p].handshake.Ready? ==> Informed(st, p)))
    && (st.current.Some? ==>
          && st.current.value.revision == st.revision
          && forall p :: p in st.current.value.targets ==>
               && p in st.peers && (st.peers[p].handshake.Ready? || st.peers[p].handshake.Gone?)
               && st.peers[p].sent != [])
  }

  /** A change of one peer only. */
  lemma PeerKeepsInv(st: State, p: PeerId, peer: Peer)
    requires Inv(st)
    requires peer.received <= |peer.sent| && Greeted(peer) && NotAhead(peer, st.revision)
    requires peer.handshake.Ready? ==> Informed(SetPeer(st, p, peer), p)
    requires p in st.peers && st.peers[p].sent != [] ==> peer.sent != []
    requires p in st.peers && (st.peers[p].handshake.Ready? || st.peers[p].handshake.Gone?) ==>
               peer.handshake.Ready? || peer.handshake.Gone?
    ensures Inv(SetPeer(st, p, peer))
  {
    var next := SetPeer(st, p, peer);
    forall q | q in next.peers && next.peers[q].handshake.Ready?
      ensures Informed(next, q)
    {
      if q != p {
        assert Informed(st, q);
      }
    }
  }

  /** Writing a revision that is not ahead keeps what a peer already has. */
  lemma WriteKeepsInv(st: State, p: PeerId, revision: Revision)
    requires Inv(st) && p in st.peers && revision <= st.revision && st.peers[p].sent != []
    requires !st.peers[p].handshake.Greeting?
    ensures Inv(SetPeer(st, p, Write(st.peers[p], Event(revision))))
  {
    var peer := Write(st.peers[p], Event(revision));
    if peer.handshake.Ready? {
      assert Informed(st, p);
      if i :| 0 <= i < |st.peers[p].sent| && st.peers[p].sent[i].revision == st.revision {
        assert peer.sent[i].revision == st.revision;
      }
    }
    PeerKeepsInv(st, p, peer);
  }

  lemma HelloSentKeepsInv(st: State, p: PeerId)
    requires Inv(st) && Enabled(st, HelloSent(p))
    ensures Inv(Apply(st, HelloSent(p)))
  {
    var last := |st.peers[p].sent| - 1;
    assert st.peers[p].sent[last].revision == st.peers[p].handshake.revision;
    PeerKeepsInv(st, p, Apply(st, HelloSent(p)).peers[p]);
  }

  lemma CatchUpKeepsInv(st: State, p: PeerId, open: bool)
    requires Inv(st) && Enabled(st, SendCatchUp(p, open))
    ensures Inv(Apply(st, SendCatchUp(p, open)))
  {
    var before := st.peers[p];
    var after := Apply(st, SendCatchUp(p, open)).peers[p];
    if after.handshake.Ready? {
      assert Informed(st, p);
      assert after.sent[|before.sent|].revision == before.catchUp.value;
      if i :| 0 <= i < |before.sent| && before.sent[i].revision == st.revision {
        assert after.sent[i].revision == st.revision;
      }
    }
    PeerKeepsInv(st, p, after);
  }

  /** A new revision is carried to every ready peer by the broadcast that made it. */
  lemma StartKeepsInv(st: State, targets: seq<PeerId>)
    requires Inv(st) && Enabled(st, StartBroadcast(targets))
    ensures Inv(Apply(st, StartBroadcast(targets)))
  {
    var next := Apply(st, StartBroadcast(targets));
    if next.revision == st.revision {
      forall q | q in next.peers && next.peers[q].handshake.Ready?
        ensures Informed(next, q)
      {
        assert Informed(st, q);
      }
    }
  }

  lemma SendNextKeepsInv(st: State, open: bool)
    requires Inv(st) && Enabled(st, SendNext(open))
    ensures Inv(Apply(st, SendNext(open)))
  {
    var b := st.current.value;
    var p := b.targets[0];
    var written := if open then SetPeer(st, p, Write(st.peers[p], Event(b.revision))) else st;
    if open {
      WriteKeepsInv(st, p, b.revision);
      assert written.peers[p].sent[|st.peers[p].sent|].revision == st.revision;
    }
    var next := Apply(st, SendNext(open));
    assert next == written.(current := Some(b.(targets := b.targets[1..])));
    forall q | q in next.peers && next.peers[q].handshake.Ready?
      ensures Informed(next, q)
    {
      assert Informed(written, q);
      assert b.targets == [p] + b.targets[1..];
    }
  }

  /** Steps that leave the peers alone. */
  lemma BroadcastKeepsInv(st: State, step: Step)
    requires Inv(st) && Enabled(st, step)
    requires step.RequestBroadcast? || step.SnapshotFetched? || step.FinishBroadcast? || step.BeginClose?
    ensures Inv(Apply(st, step))
  {
    var next := Apply(st, step);
    forall q | q in next.peers && next.peers[q].handshake.Ready?
      ensures Informed(next, q)
    {
      assert Informed(st, q);
    }
  }

  lemma StepKeepsInv(st: State, step: Step)
    requires Inv(st) && Enabled(st, step)
    ensures Inv(Apply(st, step))
  {
    match step
    case Connect(p) => PeerKeepsInv(st, p, Peer(AwaitingHello, None, [], 0));
    case ReceiveHello(p) => PeerKeepsInv(st, p, st.peers[p].(handshake := Fetching(st.revision)));
    case SendHello(p) =>
      if !st.closing {
        PeerKeepsInv(st, p, Apply(st, step).peers[p]);
      }
    case HelloSent(p) => HelloSentKeepsInv(st, p);
    case SendCatchUp(p, open) => CatchUpKeepsInv(st, p, open);
    case Leave(p) => PeerKeepsInv(st, p, st.peers[p].(handshake := Gone));
    case StartBroadcast(targets) => StartKeepsInv(st, targets);
    case SendNext(open) => SendNextKeepsInv(st, open);
    case Deliver(p) =>
      assert st.peers[p].handshake.Ready? ==> Informed(st, p);
      PeerKeepsInv(st, p, Apply(st, step).peers[p]);
    case _ => BroadcastKeepsInv(st, step);
  }

  lemma {:induction false} RunKeepsInv(states: seq<State>, steps: seq<Step>, i: nat)
    requires IsRun(states, steps) && i < |states|
    ensures Inv(states[i])
  {
    if i > 0 {
      RunKeepsInv(states, steps, i - 1);
      assert StepAt(states, steps, i - 1);
      StepKeepsInv(states[i - 1], steps[i - 1]);
    }
  }

  /** Nothing is on its way to the peer: no second snapshot is being fetched for it, the broadcast in
      progress, if any, does not await it, and everything written has been delivered. */
  predicate Settled(st: State, p: PeerId)
    requires p in st.peers
  {
    && st.peers[p].catchUp.None? && st.peers[p].received == |st.peers[p].sent|
    && (st.current.Some? ==> p !in st.current.value.targets)
  }

  /** A ready client to which nothing is on its way holds exactly the publisher's revision, for any
      interleaving of handshakes with broadcasts. */
  lemma Converges(states: seq<State>, steps: seq<Step>, i: nat, p: PeerId)
    requires IsRun(states, steps) && i < |states| && p in states[i].peers
    requires states[i].peers[p].handshake.Ready? && Settled(states[i], p)
    ensures ClientRevision(states[i].peers[p]) == Some(states[i].revision)
  {
    RunKeepsInv(states, steps, i);
    var st := states[i];
    var peer := st.peers[p];
    assert Informed(st, p);
    var k :| 0 <= k < |peer.sent| && peer.sent[k].revision == st.revision;
    assert peer.sent[..peer.received] == peer.sent;
    StoredIsHighest(peer.sent);
  }

  /** A client never sees anything before hello, nor a second hello. */
  lemma HelloFirst(states: seq<State>, steps: seq<Step>, i: nat, p: PeerId, k: nat)
    requires IsRun(states, steps) && i < |states| && p in states[i].peers && k < |states[i].peers[p].sent|
    ensures states[i].peers[p].sent[k].Hello? <==> k == 0
  {
    RunKeepsInv(states, steps, i);
  }

  predicate NotLower(a: Option<Revision>, b: Option<Revision>) {
    a.Some? ==> b.Some? && a.value <= b.value
  }

  /** What was sent is only extended, and at most one more message is received. */
  predicate Extends(before: Peer, after: Peer) {
    before.sent <= after.sent &&
    (after.received == before.received || after.received == before.received + 1)
  }

  lemma StepExtends(st: State, step: Step, p: PeerId)
    requires Enabled(st, step) && p in st.peers
    ensures p in Apply(st, step).peers && Extends(st.peers[p], Apply(st, step).peers[p])
  {
    match step
    case SendHello(_) =>
    case HelloSent(_) =>
    case SendCatchUp(_, _) =>
    case SendNext(_) =>
    case Deliver(_) =>
    case _ =>
  }

  lemma ExtendsNotLower(before: Peer, after: Peer)
    requires Extends(before, after) && before.received <= |before.sent| && after.received <= |after.sent|
    ensures NotLower(ClientRevision(before), ClientRevision(after))
  {
    if after.received == before.received {
      assert after.sent[..after.received] == before.sent[..before.received];
    } else {
      var next := after.sent[before.received];
      assert after.sent[..after.received] == before.sent[..before.received] + [next];
      StoredAfterOneMore(before.sent[..before.received], next);
    }
  }

  lemma NextExtends(states: seq<State>, steps: seq<Step>, i: nat, p: PeerId)
    requires IsRun(states, steps) && i < |steps| && p in states[i].peers
    ensures p in states[i + 1].peers
    ensures states[i].peers[p].received <= |states[i].peers[p].sent|
    ensures states[i + 1].peers[p].received <= |states[i + 1].peers[p].sent|
    ensures NotLower(ClientRevision(states[i].peers[p]), ClientRevision(states[i + 1].peers[p]))
  {
    RunKeepsInv(states, steps, i);
    RunKeepsInv(states, steps, i + 1);
    assert StepAt(states, steps, i);
    StepExtends(states[i], steps[i], p);
    ExtendsNotLower(states[i].peers[p], states[i + 1].peers[p]);
  }

  /** A client's stored revision never decreases. */
  lemma {:induction false} StoredNeverDecreases(states: seq<State>, steps: seq<Step>, i: nat, j: nat, p: PeerId)
    requires IsRun(states, steps) && i <= j < |states| && p in states[i].peers
    ensures p in states[j].peers
    ensures states[i].peers[p].received <= |states[i].peers[p].sent|
    ensures states[j].peers[p].received <= |states[j].peers[p].sent|
    ensures NotLower(ClientRevision(states[i].peers[p]), ClientRevision(states[j].peers[p]))
    decreases j
  {
    if i == j {
      RunKeepsInv(states, steps, i);
    } else {
      StoredNeverDecreases(states, steps, i, j - 1, p);
      NextExtends(states, steps, j - 1, p);
    }
  }
}
