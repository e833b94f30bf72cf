// A running client as one node of the network: what its methods do is a step of the network.
module Deployment {
  import opened Entity
  import opened Protocol
  import opened Network
  import opened Runs
  import Clients = Client

  // A client that has done what the specification says, drawing ids that nobody had used, has taken
  // a step of the network: its state and what it put on the wire are the step's whole effect.
  lemma DidIsStep(
    client: Clients.Client, v: World, action: Action, sent: seq<Datagram>, c: Choice, oks: seq<bool>)
    requires Placed(v, action) && ByNode(action) && Actor(v, action) == client.address
    requires client.Did(sent, OutcomeOf(v, Step(action, c, oks)), c, oks) && FreshIds(v, c.ids)
    ensures Enabled(v, Step(action, c, oks))
    ensures var v' := Do(v, Step(action, c, oks));
            && v'.nodes == v.nodes[client.address := client.State()]
            && sent <= client.wire
            && v'.air == (if action.Deliver? then Without(v.air, action.index) else v.air) + client.wire[|sent|..]
  {
    assert client.wire[|sent|..] == Datagrams(client.address, OutcomeOf(v, Step(action, c, oks)).letters, oks);
  }

  // Handing a datagram of a reachable world to the client it is addressed to delivers it. No
  // further precondition is needed: whatever is in flight can be read.
  method Serve(client: Clients.Client, from: Address, bytes: Bytes,
               ghost w: World, ghost steps: seq<Step>, ghost i: nat)
    returns (ghost c: Choice, ghost oks: seq<bool>)
    requires client.Valid() && FromScratch(w, steps)
    requires var v := End(w, steps);
             && i < |v.air| && v.air[i] == Datagram(from, client.address, bytes)
             && client.address in v.nodes && v.nodes[client.address] == client.State()
    modifies client`wire, client.devices, client.devices.db, client.peers, client.cache
    ensures client.Valid()
    ensures var v, step := End(w, steps), Step(Deliver(i), c, oks);
            FreshIds(v, c.ids) ==>
              && Enabled(v, step)
              && Do(v, step).nodes == v.nodes[client.address := client.State()]
              && old(client.wire) <= client.wire
              && Do(v, step).air == Without(v.air, i) + client.wire[|old(client.wire)|..]
  {
    EveryDatagramReads(w, steps, End(w, steps).air[i]);
    ghost var sent := client.wire;
    c, oks := client.ReceiveMessage(from, bytes);
    if FreshIds(End(w, steps), c.ids) {
      DidIsStep(client, End(w, steps), Deliver(i), sent, c, oks);
    }
  }
}
