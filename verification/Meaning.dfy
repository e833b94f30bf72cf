// What requests and messages are for: how they change a client's store and its peer table, with
// every device and every table written out.
module Meaning {
  import opened Entity
  import opened Wire
  import opened DeviceStore
  import opened PeerCache
  import opened Protocol
  import opened Letters

  predicate Mine(n: Node, device: Id) {
    device in n.store && n.store[device].owner == n.host
  }

  // Devices whose type the program can make sense of.
  function Readables(store: Devices): set<Id> {
    set id | id in store && store[id].kind != 15
  }

  predicate HasNewer(n: Node, d: Device) {
    d.id in n.store && d.version <= n.store[d.id].version
  }

  function WithSender(peers: Peers, from: Address, m: Message): Peers {
    peers[m.sender := Peer(m.sender, from)]
  }

  // A peer message brings its sender and, if it can be read, the peer that it describes.
  function Introduced(peers: Peers, from: Address, m: Message): Peers {
    var known := WithSender(peers, from, m);
    if DecodePeer(m.data).Ok? then known[DecodePeer(m.data).value.id := DecodePeer(m.data).value] else known
  }

  // A hail brings its sender, a farewell takes its sender away. No other message but the peer
  // message touches the peer table.
  function PeersGiven(peers: Peers, from: Address, m: Message): Peers {
    if m.kind == 1 then WithSender(peers, from, m)
    else if m.kind == 4 then Introduced(peers, from, m)
    else if m.kind == 5 then peers - {m.sender}
    else peers
  }

  // Only one's own readable device changes at somebody's request, and to exactly the state asked for.
  function Changed(n: Node, device: Id, state: Byte): Devices {
    if Mine(n, device) && device in Readables(n.store) then
      var was := n.store[device];
      var version := if was.version == 0x7fff_ffff_ffff_ffff then -0x8000_0000_0000_0000 else was.version + 1;
      n.store[device := Device(device, n.host, was.kind, state, version)]
    else n.store
  }

  function PatchGiven(n: Node, m: Message): Devices {
    if DecodePatch(m.data).Ok? then Changed(n, DecodePatch(m.data).value.0, DecodePatch(m.data).value.1) else n.store
  }

  // A sync replaces a device that is not one's own, unless one's copy is as new.
  function SyncGiven(n: Node, m: Message): Devices {
    if DecodeSync(m.data).Ok? then
      var d := DecodeSync(m.data).value;
      if Mine(n, d.id) || HasNewer(n, d) then n.store else n.store[d.id := d]
    else n.store
  }

  // No other message touches the store.
  function StoreGiven(n: Node, m: Message): Devices {
    if m.kind == 2 then PatchGiven(n, m) else if m.kind == 3 then SyncGiven(n, m) else n.store
  }

  lemma SameGiven(n: Node, n': Node, m: Message)
    requires n'.host == n.host && n'.store == n.store
    ensures StoreGiven(n', m) == StoreGiven(n, m)
  {
  }

  // ---- The handlers do just that ----

  lemma RequestStores(n: Node, device: Id, state: Byte, c: Choice)
    requires KeyedStore(n.store)
    ensures Settled(PatchState(n, device, state, c)).store == Changed(n, device, state)
  {
  }

  lemma PatchStores(n: Node, m: Message, c: Choice)
    requires KeyedStore(n.store)
    ensures Settled(SaveState(n, m, c)).store == PatchGiven(n, m)
  {
  }

  lemma SyncStores(n: Node, m: Message, c: Choice)
    ensures Settled(SaveDevice(n, m, c)).store == SyncGiven(n, m)
  {
  }

  lemma HandlingStores(n: Node, from: Address, m: Message, c: Choice)
    requires KeyedStore(n.store)
    ensures Settled(Dispatch(n, from, m, c)).store == StoreGiven(n, m)
  {
    if m.kind == 2 {
      PatchStores(n, m, c);
    } else if m.kind == 3 {
      SyncStores(n, m, c);
    }
  }

  lemma PatchPeers(n: Node, m: Message, c: Choice)
    ensures SaveState(n, m, c).node == n.(cache := SaveState(n, m, c).node.cache)
  {
  }

  lemma SyncPeers(n: Node, m: Message, c: Choice)
    ensures SaveDevice(n, m, c).node == n.(cache := SaveDevice(n, m, c).node.cache)
  {
  }

  lemma HandlingPeers(n: Node, from: Address, m: Message, c: Choice)
    ensures var o := Dispatch(n, from, m, c);
            o.node.peers == PeersGiven(n.peers, from, m) && o.node.host == n.host && o.node.now == n.now
  {
    if m.kind == 2 {
      PatchPeers(n, m, c);
    } else if m.kind == 3 {
      SyncPeers(n, m, c);
    }
  }
}
