/** The client's fields as its methods change them. Each method is one stretch of the program and
    takes exactly the step of the transition system that goes with it. */
module Client {
  import opened Wrappers
  import opened ClientConnection

  class PiClient {
    var lifecycle: Lifecycle
    var sequence: nat
    var connects: map<ConnectId, nat>
    var factories: map<ConnectId, FactoryPhase>
    var transports: map<TransportId, TransportStatus>
    var handshakes: set<ConnectId>
    var announcements: set<ConnectId>
    var requestSequence: nat
    var pending: set<RequestId>
    var resolving: set<RequestId>
    var requests: map<RequestId, nat>
    var disposed: bool

    ghost function View(): State
      reads this
    {
      State(lifecycle, sequence, connects, factories, transports, handshakes, announcements,
            requestSequence, pending, resolving, requests, disposed)
    }

    constructor ()
      ensures View() == Initial
    {
      lifecycle, sequence, connects, factories, transports := ClientConnection.Disconnected, 0, map[], map[], map[];
      handshakes, announcements, requestSequence := {}, {}, 0;
      pending, resolving, requests, disposed := {}, {}, map[], false;
    }

    /** `connect`, up to the announcement that it is connecting. */
    method Connect() returns (accepted: bool)
      modifies this
      ensures View() == Apply(old(View()), Step.Connect)
      ensures accepted <==> old(!disposed && lifecycle.Disconnected?)
      ensures accepted ==> lifecycle == Connecting(sequence, None) && connects == old(connects)[sequence := 0]
    {
      if disposed || !lifecycle.Disconnected? {
        return false;
      }
      sequence := sequence + 1;
      lifecycle := Connecting(sequence, None);
      connects := connects[sequence := 0];
      factories := factories[sequence := Waiting];
      accepted := true;
    }

    /** Reject or resolve one request. */
    method SettleRequest(r: RequestId)
      requires r in requests
      modifies this`requests
      ensures requests == Settle(old(requests), {r})
    {
      requests := requests[r := requests[r] + 1];
    }

    /** Reject every pending request. */
    method RejectPendingRequests()
      requires pending <= requests.Keys
      modifies this`requests, this`pending
      ensures View() == RejectPending(old(View()))
    {
      var taken := pending;
      pending := {};
      ghost var done: set<RequestId> := {};
      assert Settle(requests, {}) == requests;
      var rest := taken;
      while rest != {}
        invariant done + rest == taken && done !! rest && pending == {}
        invariant requests == Settle(old(requests), done)
      {
        var r :| r in rest;
        requests := requests[r := requests[r] + 1];
        done, rest := done + {r}, rest - {r};
      }
      assert done == taken;
    }

    /** The connection is lost. */
    method Fail()
      requires Inv(View())
      modifies this`lifecycle, this`connects, this`requests, this`pending
      ensures View() == ClientConnection.Fail(old(View()))
    {
      if lifecycle.Disconnected? {
        return;
      }
      var id, outstanding := lifecycle.id, lifecycle.Connecting? || lifecycle.handshaking;
      lifecycle := ClientConnection.Disconnected;
      if outstanding {
        connects := connects[id := connects[id] + 1];
      } else {
        assert Settle(connects, {}) == connects;
      }
      RejectPendingRequests();
    }

    method FailAndClose()
      requires Inv(View())
      modifies this`lifecycle, this`connects, this`requests, this`pending, this`transports
      ensures View() == ClientConnection.FailAndClose(old(View()))
    {
      var transport := TransportOf(lifecycle);
      Fail();
      if transport.Some? {
        transports := transports[transport.value := CloseDue];
      }
    }

    /** The factory has handed over a transport. */
    method FactoryResolves(id: ConnectId, t: TransportId)
      requires Enabled(View(), Step.FactoryResolves(id, t))
      modifies this`factories, this`lifecycle, this`transports
      ensures View() == Apply(old(View()), Step.FactoryResolves(id, t))
    {
      factories := factories[id := Finished];
      if !lifecycle.Connecting? || lifecycle.id != id {
        transports := transports[t := ClosedLocally];
        return;
      }
      lifecycle := lifecycle.(pendingTransport := Some(t));
      transports := transports[t := InUse];
    }

    method Receive(message: Message)
      requires Inv(View())
      modifies this`lifecycle, this`connects, this`requests, this`pending, this`transports, this`handshakes, this`resolving
      ensures View() == Apply(old(View()), Step.Receive(message))
    {
      match lifecycle {
        case Disconnected =>
        case Connecting(id, transport) =>
          if message.Hello? && transport.Some? {
            lifecycle := Connected(id, transport.value, true);
            handshakes := handshakes + {id};
          } else {
            FailAndClose();
          }
        case Connected(_, _, _) =>
          match message {
            case Hello => FailAndClose();
            case HelloError => FailAndClose();
            case Response(r, outcome) => ReceiveResponse(r, outcome);
            case Notice =>
          }
      }
    }

    method ReceiveResponse(r: RequestId, outcome: ResponseOutcome)
      requires Inv(View()) && lifecycle.Connected?
      modifies this`lifecycle, this`connects, this`requests, this`pending, this`transports, this`resolving
      ensures View() == HandleResponse(old(View()), r, outcome)
    {
      if r !in pending {
        FailAndClose();
        return;
      }
      pending := pending - {r};
      if outcome == Fits {
        resolving := resolving + {r};
        return;
      }
      SettleRequest(r);
      if outcome == WrongCommand {
        FailAndClose();
      }
    }

    /** After the handshake's snapshot was applied. */
    method HandshakeApplied(id: ConnectId, threw: bool)
      requires Inv(View()) && id in handshakes
      modifies this`lifecycle, this`connects, this`requests, this`pending, this`transports, this`handshakes, this`announcements
      ensures View() == Apply(old(View()), Step.HandshakeApplied(id, threw))
    {
      var same := lifecycle.Connected? && lifecycle.id == id && lifecycle.handshaking;
      if same && threw {
        FailAndClose();
      } else if same {
        announcements := announcements + {id};
      }
      handshakes := handshakes - {id};
    }

    /** After the listeners were told of the connection: its promise is resolved. */
    method Announced(id: ConnectId)
      requires Inv(View()) && id in announcements
      modifies this`lifecycle, this`connects, this`announcements
      ensures View() == Apply(old(View()), Step.Announced(id))
    {
      announcements := announcements - {id};
      if lifecycle.Connected? && lifecycle.id == id && lifecycle.handshaking {
        lifecycle := lifecycle.(handshaking := false);
        connects := connects[id := connects[id] + 1];
        assert connects == Settle(old(connects), {id});
      }
    }

    /** The transport reports that it has closed. */
    method TransportCloses(id: ConnectId)
      requires Inv(View())
      modifies this`lifecycle, this`connects, this`requests, this`pending, this`transports
      ensures View() == Apply(old(View()), Step.TransportCloses(id))
    {
      if lifecycle.Disconnected? || lifecycle.id != id {
        return;
      }
      var transport := TransportOf(lifecycle);
      Fail();
      if transport.Some? {
        transports := transports[transport.value := ClosedItself];
      }
    }

    /** Send a request: its number, or none when it is rejected at once. */
    method Request(encodes: bool, sends: bool) returns (id: Option<RequestId>)
      requires Inv(View())
      modifies this`lifecycle, this`connects, this`requests, this`pending, this`transports, this`requestSequence
      ensures View() == Apply(old(View()), Step.Request(encodes, sends))
      ensures id.Some? <==> old(!disposed && lifecycle.Connected?)
      ensures id.Some? ==> id.value !in old(requests) && id.value in requests
    {
      if disposed || !lifecycle.Connected? {
        return None;
      }
      if encodes {
        var r := RegisterRequest();
        if !sends {
          SendFails();
        }
        id := Some(r);
      } else {
        var r := RejectRequest();
        id := Some(r);
      }
    }

    /** A request that cannot be encoded: registered, taken back and rejected. */
    method RejectRequest() returns (r: RequestId)
      requires Inv(View()) && !disposed && lifecycle.Connected?
      modifies this`requests, this`pending, this`requestSequence
      ensures r == requestSequence == old(requestSequence) + 1 && r !in old(requests)
      ensures requests == old(requests)[r := 1] && pending == old(pending)
    {
      r := RegisterRequest();
      WithdrawRequest(r);
    }

    /** The transport refuses the request just registered. */
    method SendFails()
      requires requestSequence > 0 && requestSequence in pending && Inv(View())
      modifies this`lifecycle, this`connects, this`requests, this`pending, this`transports
      ensures View() == ClientConnection.FailAndClose(old(View()))
    {
      FailAndClose();
    }

    /** A request that cannot be encoded is taken back and rejected. */
    method WithdrawRequest(r: RequestId)
      requires r in requests && r in pending
      modifies this`requests, this`pending
      ensures requests == old(requests)[r := old(requests)[r] + 1] && pending == old(pending) - {r}
    {
      pending := pending - {r};
      SettleRequest(r);
    }

    /** Take the next number; it is a new one. */
    method RegisterRequest() returns (r: RequestId)
      requires Inv(View())
      modifies this`requests, this`pending, this`requestSequence
      ensures r == requestSequence == old(requestSequence) + 1 && r !in old(requests) && r !in old(pending)
      ensures requests == old(requests)[r := 0] && pending == old(pending) + {r}
      ensures old(!disposed && lifecycle.Connected?) ==> Inv(View())
    {
      RequestKeepsInv(View(), true, true);
      requestSequence := requestSequence + 1;
      r := requestSequence;
      pending := pending + {r};
      requests := requests[r := 0];
    }

    method Dispose()
      requires Inv(View())
      modifies this`lifecycle, this`connects, this`requests, this`pending, this`transports, this`disposed
      ensures View() == Apply(old(View()), Step.Dispose)
    {
      if disposed {
        return;
      }
      disposed := true;
      RejectPendingRequests();
      RejectedKeepsInv(old(View()));
      FailAndClose();
    }
  }

  lemma RejectedKeepsInv(st: State)
    requires Inv(st)
    ensures Inv(RejectPending(st.(disposed := true)))
  {
  }
}
