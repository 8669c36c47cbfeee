/** The in-memory network: per-node queues, silent loss while a node is partitioned off. */
module RaftTransport {
  import opened Wrappers
  import opened RaftTypes

  class InMemoryTransport {
    var inboxes: map<NodeId, seq<Envelope>>
    var partitioned: set<NodeId>
    ghost var sent: set<Envelope>  // every envelope ever handed to Send

    /** Whatever waits in an inbox was sent, and to that node: the network of the cluster
        model, which delivers any envelope ever sent, allows everything this one does. */
    ghost predicate Valid()
      reads this
    {
      forall n :: n in inboxes ==> forall i :: 0 <= i < |inboxes[n]| ==>
        inboxes[n][i] in sent && inboxes[n][i].recipient == n
    }

    constructor ()
      ensures Valid() && inboxes == map[] && partitioned == {} && sent == {}
    {
      inboxes, partitioned, sent := map[], {}, {};
    }

    function Inbox(n: NodeId): seq<Envelope>
      reads this
    {
      Get(inboxes, n, [])
    }

    method Register(n: NodeId)
      requires Valid()
      modifies this`inboxes
      ensures Valid() && n in inboxes && forall m :: Inbox(m) == old(Inbox(m))
    {
      if n !in inboxes {
        inboxes := inboxes[n := []];
      }
    }

    method Send(sender: NodeId, recipient: NodeId, message: Message)
      requires Valid()
      modifies this`inboxes, this`sent
      ensures Valid() && sent == old(sent) + {Envelope(sender, recipient, message)}
      ensures Inbox(recipient) == if sender in partitioned || recipient in partitioned then old(Inbox(recipient))
                                  else old(Inbox(recipient)) + [Envelope(sender, recipient, message)]
      ensures forall m :: m != recipient ==> Inbox(m) == old(Inbox(m))
    {
      sent := sent + {Envelope(sender, recipient, message)};
      if sender in partitioned || recipient in partitioned {
        return;
      }
      inboxes := inboxes[recipient := Inbox(recipient) + [Envelope(sender, recipient, message)]];
    }

    method Partition(nodes: set<NodeId>)
      modifies this`partitioned
      ensures partitioned == old(partitioned) + nodes
    {
      partitioned := partitioned + nodes;
    }

    method Heal()
      modifies this`partitioned
      ensures partitioned == {}
    {
      partitioned := {};
    }

    method Rejoin(nodes: set<NodeId>)
      modifies this`partitioned
      ensures partitioned == old(partitioned) - nodes
    {
      partitioned := partitioned - nodes;
    }

    /** Drains one inbox, oldest first.  The handler is represented by what it is called with. */
    method DeliverTo(n: NodeId) returns (delivered: seq<Envelope>)
      requires Valid()
      modifies this`inboxes
      ensures Valid() && Inbox(n) == [] && delivered == old(Inbox(n))
      ensures forall i :: 0 <= i < |delivered| ==> delivered[i] in sent && delivered[i].recipient == n
      ensures forall m :: m != n ==> Inbox(m) == old(Inbox(m))
    {
      delivered := [];
      while Inbox(n) != []
        invariant Valid() && delivered + Inbox(n) == old(Inbox(n))
        invariant forall i :: 0 <= i < |delivered| ==> delivered[i] in sent && delivered[i].recipient == n
        invariant forall m :: m != n ==> Inbox(m) == old(Inbox(m))
        decreases |Inbox(n)|
      {
        var inbox := Inbox(n);
        delivered := delivered + [inbox[0]];
        inboxes := inboxes[n := inbox[1..]];
      }
    }
  }
}
