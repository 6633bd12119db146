/** The publisher's counter, its broadcasts and the handshakes as the server changes them, and the
    snapshot a client keeps. */
module SnapshotPublisher {
  import opened Wrappers
  import opened SnapshotState

  class Publisher {
    var revision: Revision
    var queued: nat
    var current: Option<Broadcast>
    var closing: bool
    var peers: map<PeerId, Peer>

    ghost function View(): State
      reads this
    {
      State(revision, queued, current, closing, peers)
    }

    constructor ()
      ensures View() == Initial
    {
      revision, queued, current, closing, peers := 0, 0, None, false, map[];
    }

    /** A client's hello: the first snapshot is requested at the current revision. */
    method ReceiveHello(p: PeerId)
      requires Enabled(View(), SnapshotState.ReceiveHello(p))
      modifies this`peers
      ensures View() == Apply(old(View()), SnapshotState.ReceiveHello(p))
      ensures p in peers && peers[p].handshake == Fetching(revision)
    {
      peers := peers[p := peers[p].(handshake := Fetching(revision))];
    }

    /** The first snapshot is there: hello is sent with it, unless the server is closing. */
    method SendHello(p: PeerId)
      requires Enabled(View(), SnapshotState.SendHello(p))
      modifies this`peers
      ensures View() == Apply(old(View()), SnapshotState.SendHello(p))
      ensures !closing ==> p in peers && peers[p].sent == old(peers[p].sent) + [Hello(old(peers[p].handshake.revision))]
    {
      if closing {
        return;
      }
      var r := peers[p].handshake.revision;
      peers := peers[p := Write(peers[p], Hello(r)).(handshake := Greeting(r))];
    }

    /** Hello was sent: the peer is ready, and gets a second snapshot if the revision has moved. */
    method FinishHandshake(p: PeerId) returns (outdated: bool)
      requires Enabled(View(), HelloSent(p))
      modifies this`peers
      ensures View() == Apply(old(View()), HelloSent(p))
      ensures outdated <==> old(peers[p].handshake.revision) != revision
      ensures p in peers && peers[p].handshake == Ready
      ensures peers[p].catchUp == if outdated then Some(revision) else None
    {
      outdated := peers[p].handshake.revision != revision;
      var peer := peers[p].(handshake := Ready, catchUp := None);
      if outdated {
        peer := peer.(catchUp := Some(revision));
      }
      peers := peers[p := peer];
    }

    /** Broadcasts are queued and performed one after the other. */
    method RequestBroadcast()
      modifies this`queued
      ensures View() == Apply(old(View()), SnapshotState.RequestBroadcast)
    {
      queued := queued + 1;
    }

    /** The connections that are ready, each once. */
    method ReadyPeers() returns (targets: seq<PeerId>)
      ensures IsReadyList(View(), targets)
    {
      targets := [];
      var rest := peers.Keys;
      ghost var seen: set<PeerId> := {};
      while rest != {}
        invariant seen + rest == peers.Keys && seen !! rest
        invariant forall p :: p in targets <==> p in seen && peers[p].handshake == Ready
        invariant forall i, j :: 0 <= i < j < |targets| ==> targets[i] != targets[j]
      {
        var p :| p in rest;
        if peers[p].handshake == Ready {
          targets := targets + [p];
        }
        seen, rest := seen + {p}, rest - {p};
      }
    }

    /** A queued broadcast whose turn has come: the next revision, for the peers ready now. */
    method PerformBroadcast() returns (targets: seq<PeerId>)
      requires queued > 0 && current.None?
      modifies this`queued, this`revision, this`current
      ensures IsReadyList(old(View()), targets) && View() == Apply(old(View()), StartBroadcast(targets))
      ensures queued == old(queued) - 1
      ensures if !closing && exists p :: p in peers && peers[p].handshake == Ready then
                revision == old(revision) + 1 && current == Some(Broadcast(revision, false, targets))
              else revision == old(revision) && current == None
    {
      targets := ReadyPeers();
      assert targets != [] ==> targets[0] in targets;
      queued := queued - 1;
      if targets == [] || closing {
        return;
      }
      revision := revision + 1;
      current := Some(Broadcast(revision, false, targets));
    }

    /** The snapshot goes to the next target, unless that one's transport has closed. */
    method SendNext(open: bool)
      requires Enabled(View(), SnapshotState.SendNext(open))
      modifies this`current, this`peers
      ensures View() == Apply(old(View()), SnapshotState.SendNext(open))
      ensures current.Some? && old(current.value.targets) == [old(current.value.targets[0])] + current.value.targets
      ensures open ==>
                var p := old(current.value.targets[0]);
                p in peers && peers[p].sent == old(peers)[p].sent + [Event(old(current.value.revision))]
    {
      var b := current.value;
      var p := b.targets[0];
      current := Some(b.(targets := b.targets[1..]));
      if open {
        peers := peers[p := Write(peers[p], Event(b.revision))];
      }
    }
  }

  /** The client's side: the revision of the snapshot it keeps. */
  class ClientState {
    var snapshot: Option<Revision>
    ghost var messages: seq<Message>

    ghost predicate Valid()
      reads this
    {
      snapshot == Stored(messages)
    }

    constructor ()
      ensures Valid() && messages == []
    {
      snapshot, messages := None, [];
    }

    method ApplyServerSnapshot(message: Message)
      requires Valid()
      modifies this
      ensures Valid() && messages == old(messages) + [message]
    {
      assert (messages + [message])[..|messages|] == messages;
      messages := messages + [message];
      if snapshot.Some? && message.revision < snapshot.value {
        return;
      }
      snapshot := Some(message.revision);
    }
  }
}
