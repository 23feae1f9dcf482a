/** The common base of the three Paxos roles (paxosAlg/node.py). */
module PaxosNode {
  import opened PaxosMessage
  import opened PaxosNetwork

  /** Python exceptions a handler can raise. */
  datatype Exception = TypeError | NotImplementedError

  /** How a handler or a drain ends: normally, or with an exception that propagates to the caller. */
  datatype Outcome = Ok | Raised(error: Exception)

  /**
   * A bare node: it has an identity and the shared network, and its handler is abstract.
   * Each role (acceptor, learner, proposer) has its own class with the same drain-then-dispatch loop.
   */
  class Node {
    const id: NodeId
    const network: Network

    constructor (id: NodeId, network: Network)
      ensures this.id == id && this.network == network
    {
      this.id := id;
      this.network := network;
    }

    /** The abstract handler always raises NotImplementedError. */
    method HandleMessage(m: Message) returns (o: Outcome)
      ensures o == Raised(NotImplementedError)
    {
      o := Raised(NotImplementedError);
    }

    /**
     * Drains this node's pending messages and hands the first one to the abstract handler,
     * whose exception ends the loop; with no pending message no handler runs.
     */
    method ProcessMessages() returns (o: Outcome)
      modifies network
      ensures network.queue == Others(old(network.queue), id)
      ensures o == if Addressed(old(network.queue), id) == [] then Ok else Raised(NotImplementedError)
    {
      var received := network.GetMessagesForNode(id);
      o := Ok;
      if |received| > 0 {
        // the loop over the drained messages ends with the first handler's exception
        o := HandleMessage(received[0]);
      }
    }
  }
}
