// The table of known peers, keyed by the peer's own id (main/data/peercache.go).
module PeerCache {
  import opened Entity

  type Peers = map<Id, Peer>

  predicate OwnKeys(peers: Peers) {
    forall k :: k in peers ==> peers[k].id == k
  }

  predicate Listed(peers: Peers, p: Peer) {
    p.id in peers && peers[p.id] == p
  }

  predicate DistinctIds(ps: seq<Peer>) {
    forall i, j :: 0 <= i < j < |ps| ==> ps[i].id != ps[j].id
  }

  class PeerCache {
    var peers: Peers

    ghost predicate Valid() reads this {
      OwnKeys(peers)
    }

    constructor ()
      ensures Valid() && peers == map[]
    {
      peers := map[];
    }

    method AddPeer(peer: Peer)
      requires Valid()
      modifies this
      ensures Valid() && peers == old(peers)[peer.id := peer]
    {
      peers := peers[peer.id := peer];
    }

    method GetPeer(id: Id) returns (r: Result<Peer>)
      requires Valid()
      ensures r.Ok? <==> id in peers
      ensures r.Ok? ==> r.value.id == id && Listed(peers, r.value)
    {
      if id !in peers {
        return Error;
      }
      r := Ok(peers[id]);
    }

    method RemovePeer(id: Id)
      requires Valid()
      modifies this
      ensures Valid() && peers == old(peers) - {id}
    {
      peers := peers - {id};
    }

    method GetAllPeers() returns (all: seq<Peer>)
      requires Valid()
      ensures forall p :: p in all <==> Listed(peers, p)
      ensures DistinctIds(all)
    {
      var keys := peers.Keys;
      all := [];
      while keys != {}
        invariant keys <= peers.Keys
        invariant forall p :: p in all <==> Listed(peers, p) && p.id !in keys
        invariant DistinctIds(all)
      {
        var k :| k in keys;
        assert peers[k] !in all;
        keys := keys - {k};
        all := all + [peers[k]];
      }
    }

    method Reset()
      modifies this
      ensures Valid() && peers == map[]
    {
      peers := map[];
    }
  }
}
