// The client itself: the use cases and handlers as they run, over the database, the peer table
// and the message cache (main/message/usecases.go, main/data/usecases.go, main/message/adapters.go,
// wired in main/lib.go). Each does what its counterpart in Protocol says, for some legitimate
// choice of peers, listing order and random ids.
module Client {
  import opened Entity
  import opened Wire
  import DS = DeviceStore
  import opened PeerCache
  import opened MessageCache
  import opened Protocol
  import opened Meaning

  lemma ToEachStep(peers: seq<Peer>, m: Message, i: nat)
    requires i < |peers|
    ensures ToEach(peers[..i + 1], m) == ToEach(peers[..i], m) + [Letter(peers[i], m)]
  {
  }

  lemma ToOneStep(peer: Peer, batch: seq<Message>, m: Message)
    ensures ToOne(peer, batch + [m]) == ToOne(peer, batch) + [Letter(peer, m)]
  {
  }

  lemma PostedStep(n: Node, from: Address, letters: seq<Letter>, oks: seq<bool>, l: Letter, ok: bool)
    requires |letters| == |oks|
    ensures Posted(n, letters + [l], oks + [ok]) ==
            if ok then Quarantined(Posted(n, letters, oks), l.message.id, l.peer.id) else Posted(n, letters, oks)
    ensures Datagrams(from, letters + [l], oks + [ok]) ==
            if ok then Datagrams(from, letters, oks) + [Datagram(from, l.peer.address, EncodeEnvelope(l.message))]
            else Datagrams(from, letters, oks)
  {
  }

  // More drawn ids change nothing about the messages already made.
  lemma {:induction false} BatchIgnoresRest(n: Node, order: seq<Id>, ids: seq<Id>, more: seq<Id>)
    requires |Batch(n, order, ids)| <= |ids|
    ensures Batch(n, order, ids + more) == Batch(n, order, ids)
  {
    if order != [] {
      BatchIgnoresRest(n, order[..|order| - 1], ids, more);
    }
  }

  lemma BatchStep(n: Node, order: seq<Id>, i: nat, ids: seq<Id>)
    requires i < |order|
    ensures Batch(n, order[..i + 1], ids) ==
            if CanRead(n, order[i])
            then Batch(n, order[..i], ids) +
                 [SyncMessage(IdAt(ids, |Batch(n, order[..i], ids)|), n.host, n.store[order[i]])]
            else Batch(n, order[..i], ids)
  {
    assert order[..i + 1][..i] == order[..i];
  }

  // The next device that can be read adds its sync to the batch.
  lemma BatchGrows(n: Node, order: seq<Id>, i: nat, ids: seq<Id>, sync: Message)
    requires i < |order| && CanRead(n, order[i]) && |Batch(n, order[..i], ids)| == |ids|
    requires sync == SyncMessage(sync.id, n.host, n.store[order[i]])
    ensures Batch(n, order[..i + 1], ids + [sync.id]) == Batch(n, order[..i], ids) + [sync]
  {
    BatchIgnoresRest(n, order[..i], ids, [sync.id]);
    BatchStep(n, order, i, ids + [sync.id]);
  }

  lemma {:induction false} BatchSameStore(n: Node, n': Node, order: seq<Id>, ids: seq<Id>)
    requires n.store == n'.store && n.host == n'.host
    ensures Batch(n, order, ids) == Batch(n', order, ids)
  {
    if order != [] {
      BatchSameStore(n, n', order[..|order| - 1], ids);
    }
  }

  lemma BurstStep(peers: seq<Peer>, batch: seq<Message>, i: nat)
    requires i < |peers|
    ensures Burst(peers[..i + 1], batch) == Burst(peers[..i], batch) + ToOne(peers[i], batch)
  {
    assert peers[..i + 1][..i] == peers[..i];
  }

  // Whatever was saved before the peers were picked, the pick is as good.
  lemma PropagatedMeans(n: Node, o: Outcome, c: Choice, id: Id, count: Int64, saved: Node)
    requires o.node == Selecting(n) && o.pick == Some(Pick(id, count)) && !o.lists
    requires c.order == [] && |c.ids| == o.drawn && saved == n.(store := Saved(n.store, o.saved))
    requires ValidPick(Selecting(saved), id, count, c.picked)
    ensures Allowed(o, c) && Settled(o) == Selecting(saved)
  {
  }

  // Sending changes nothing but the cache.
  lemma SentLeaves(o: Outcome, oks: seq<bool>)
    requires |o.letters| == |oks|
    ensures var s := Posted(Settled(o), o.letters, oks); s.store == Settled(o).store && s.peers == Settled(o).peers
  {
    PostedKeeps(Settled(o), o.letters, oks);
  }

  lemma HailMeans(n: Node, picked: seq<Peer>, order: seq<Id>, id: Id, ids: seq<Id>, messages: seq<Message>)
    requires ValidPick(Selecting(n), id, MIN_INT, picked) && ListsStore(Selecting(n), order)
    requires |messages| == |ids| && messages == Batch(Selecting(n), order, ids)
    ensures var c := Choice(picked, order, [id] + ids);
            var o := Protocol.SendHail(n, c);
            && Allowed(o, c) && Settled(o) == Selecting(n)
            && o.letters == Burst(picked, [Message(id, n.host, HAIL, [])] + messages)
  {
    assert ([id] + ids)[1..] == ids;
    BatchSameStore(n, Selecting(n), order, ids);
  }

  class Client {
    const host: Id
    const address: Address
    const devices: DS.DeviceStore
    const peers: PeerCache
    const cache: MessageCache
    // The clock as read during the current step, and every datagram the socket has accepted.
    var now: int
    var wire: seq<Datagram>

    ghost function State(): Node
      reads this, devices, peers, cache
    {
      Node(host, devices.devices, peers.peers, cache.entries, now)
    }

    ghost predicate Valid()
      reads this, devices, devices.db, peers, cache
    {
      devices.Valid() && peers.Valid() && cache.Valid()
    }

    // The state and the wire after some letters have been tried, starting from a given point.
    ghost predicate Tried(start: Node, sent: seq<Datagram>, letters: seq<Letter>, oks: seq<bool>)
      reads this, devices, peers, cache
    {
      && |letters| == |oks|
      && State() == Posted(start, letters, oks)
      && wire == sent + Datagrams(address, letters, oks)
    }

    constructor (host: Id, address: Address, now: int)
      ensures Valid() && State() == Node(host, map[], map[], map[], now) && wire == []
      ensures this.address == address
      ensures fresh(devices) && fresh(devices.db) && fresh(peers) && fresh(cache)
    {
      this.host, this.address, this.now, wire := host, address, now, [];
      devices := new DS.DeviceStore();
      peers := new PeerCache();
      cache := new MessageCache();
    }

    // ---- Random ids and the clock ----

    // A version-4 UUID: random but for the version and variant bits, which keep it from being zero.
    method NewRandomId() returns (id: Id)
      ensures id != ZERO_ID
    {
      assert |ZERO_ID.raw| == 16;
      var raw: Raw :| |raw| == 16;
      id := Id(raw[6 := 64 + raw[6] % 16][8 := 128 + raw[8] % 64]);
      assert id.raw[6] != ZERO_ID.raw[6];
    }

    method Tick(time: int)
      requires Valid() && now <= time
      modifies this`now
      ensures Valid() && State() == old(State()).(now := time)
    {
      now := time;
    }

    // What is left when the program has shut down and started again.
    method Shutdown()
      requires Valid()
      modifies peers, cache
      ensures Valid() && State() == Restarted(old(State()))
      ensures State() == Node(host, old(State()).store, map[], map[], old(State()).now)
    {
      peers.Reset();
      cache.Reset();
    }

    // ---- Decisions ----

    method CheckIfOwner(device: Id) returns (r: Result<bool>)
      requires Valid()
      ensures r == if device in State().store then Ok(Owns(State(), device)) else Error
    {
      var owner := devices.GetOwner(device);
      if !owner.Ok? {
        return Error;
      }
      r := Ok(owner.value == host);
    }

    method CheckIfNewer(device: Id, version: Int64) returns (r: Result<bool>)
      requires Valid()
      ensures device in State().store ==> r == Ok(IsNewer(State(), device, version))
      ensures device !in State().store ==> r == if device == ZERO_ID then Ok(0 < version) else Error
    {
      var current := devices.GetVersion(device);
      if !current.Ok? {
        return Error;
      }
      r := Ok(current.value < version);
    }

    // ---- Peer selection ----

    method SafePeersFor(message: Id) returns (safe: Peers)
      requires Valid()
      modifies cache
      ensures Valid() && State() == Selecting(old(State()))
      ensures safe.Keys == SafePeers(State(), message)
      ensures forall p :: p in safe ==> safe[p] == State().peers[p]
    {
      var all := peers.GetAllPeers();
      safe := map[];
      for i := 0 to |all|
        invariant Valid() && peers.peers == old(peers.peers)
        invariant cache.entries == if i == 0 then old(cache.entries) else Sweep(old(cache.entries), now)
        invariant forall p :: p in safe <==>
                    exists j :: 0 <= j < i && all[j].id == p && !KnownFor(old(cache.entries), message, p, now)
        invariant forall p :: p in safe ==> p in peers.peers && safe[p] == peers.peers[p]
      {
        SweepTwice(old(cache.entries), now, now);
        SweepInvisible(old(cache.entries), message, all[i].id, now, now);
        assert all[i] in all;
        var known := cache.ContainsMessageForPeer(message, all[i].id, now, now);
        if !known {
          safe := safe[all[i].id := all[i]];
        }
      }
      forall p
        ensures p in safe <==> p in SafePeers(State(), message)
      {
        SweepInvisible(old(cache.entries), message, p, now, now);
        if p in peers.peers {
          assert peers.peers[p] in all;
        }
      }
      assert all != [] ==> all[0] in all;
      if peers.peers != map[] {
        var k :| k in peers.peers;
        assert peers.peers[k] in all;
      }
    }

    // Any `count` of the peers, in the order in which the map happens to be iterated.
    static method TakeAny(safe: Peers, count: nat) returns (picked: seq<Peer>)
      requires count <= |safe| && OwnKeys(safe)
      ensures |picked| == count && DistinctIds(picked)
      ensures forall i :: 0 <= i < count ==> picked[i].id in safe && safe[picked[i].id] == picked[i]
    {
      picked := [];
      var rest := safe;
      while rest != map[]
        invariant rest.Keys <= safe.Keys && forall p :: p in rest ==> rest[p] == safe[p]
        invariant |picked| <= count && |picked| + |rest| == |safe|
        invariant DistinctIds(picked)
        invariant forall i :: 0 <= i < |picked| ==>
                    picked[i].id in safe && safe[picked[i].id] == picked[i] && picked[i].id !in rest
        decreases |rest|
      {
        if |picked| == count {
          break;
        }
        var p :| p in rest;
        picked := picked + [rest[p]];
        rest := rest - {p};
      }
    }

    // getRandomPeers
    method GetRandomPeers(message: Id, count: Int64) returns (picked: seq<Peer>)
      requires Valid()
      modifies cache
      ensures Valid() && State() == Selecting(old(State()))
      ensures ValidPick(State(), message, count, picked)
      ensures var safe, wanted := |SafePeers(State(), message)|, if count <= 0 then 5 else count;
              |picked| == if safe < wanted then safe else wanted
    {
      var safe := SafePeersFor(message);
      var resultCount := if count <= 0 then DEFAULT_PEER_COUNT else count;
      if |safe| < resultCount {
        resultCount := |safe|;
      }
      assert |safe| == |safe.Keys|;
      picked := TakeAny(safe, resultCount);
    }

    // ---- Sending ----

    // The socket may fail; only a datagram that it took is put in quarantine for the peer.
    method SendMessage(peer: Peer, message: Message,
                       ghost start: Node, ghost sent: seq<Datagram>, ghost letters: seq<Letter>, ghost oks: seq<bool>)
      returns (ok: bool)
      requires Valid() && Tried(start, sent, letters, oks)
      modifies this`wire, cache
      ensures Valid() && Tried(start, sent, letters + [Letter(peer, message)], oks + [ok])
    {
      var datagram := WriteEnvelope(message);
      ok := *;
      if ok {
        wire := wire + [Datagram(address, peer.address, datagram)];
        cache.Hold(message.id, peer.id, now);
      }
      PostedStep(start, address, letters, oks, Letter(peer, message), ok);
    }

    method SendToEach(picked: seq<Peer>, message: Message) returns (ghost oks: seq<bool>)
      requires Valid()
      modifies this`wire, cache
      ensures Valid() && Tried(old(State()), old(wire), ToEach(picked, message), oks)
    {
      oks := [];
      for i := 0 to |picked|
        invariant Valid() && Tried(old(State()), old(wire), ToEach(picked[..i], message), oks)
      {
        var ok := SendMessage(picked[i], message, old(State()), old(wire), ToEach(picked[..i], message), oks);
        oks := oks + [ok];
        ToEachStep(picked, message, i);
      }
      assert picked[..|picked|] == picked;
    }

    // ---- Messages ----

    method CreateSyncMessage(d: Device) returns (m: Message)
      ensures m == SyncMessage(m.id, host, d) && m.id != ZERO_ID
    {
      var id := NewRandomId();
      var data := WriteSync(d);
      m := Message(id, host, SYNC, data);
    }

    method CreatePatchMessage(device: Id, state: Byte) returns (m: Message)
      ensures m == PatchMessage(m.id, host, device, state) && m.id != ZERO_ID
    {
      var id := NewRandomId();
      var data := WritePatch(device, state);
      m := Message(id, host, PATCH, data);
    }

    // ---- Use cases ----

    // Picks peers that have not had the message called `id` and sends `message` to each of them.
    method Propagate(id: Id, count: Int64, message: Message) returns (picked: seq<Peer>, ghost oks: seq<bool>)
      requires Valid()
      modifies this`wire, cache
      ensures Valid() && ValidPick(Selecting(old(State())), id, count, picked)
      ensures Tried(Selecting(old(State())), old(wire), ToEach(picked, message), oks)
    {
      picked := GetRandomPeers(id, count);
      oks := SendToEach(picked, message);
    }

    // Gives an owned device its new state and the next version, and makes the sync that tells it.
    method Update(device: Id, state: Byte) returns (r: Result<Message>)
      requires Valid() && Owns(State(), device)
      modifies devices, devices.db
      ensures Valid() && (r.Ok? <==> CanRead(old(State()), device))
      ensures !r.Ok? ==> State() == old(State())
      ensures r.Ok? ==> var d := Bumped(old(State()).store[device], state);
                        && State() == old(State()).(store := old(State()).store[device := d])
                        && r.value == SyncMessage(r.value.id, host, d)
    {
      var current := devices.GetDevice(device);
      if !current.Ok? {
        return Error;
      }
      devices.PatchState(device, state, Increment(current.value.version));
      var updated := devices.GetDevice(device);
      var message := CreateSyncMessage(updated.value);
      r := Ok(message);
    }

    // The client has done what the specification says for this choice.
    ghost predicate Did(sent: seq<Datagram>, o: Outcome, c: Choice, oks: seq<bool>)
      reads this, devices, peers, cache
    {
      Allowed(o, c) && Tried(Settled(o), sent, o.letters, oks)
    }

    method CreateDevice(kind: Byte, state: Byte) returns (id: Id, ghost c: Choice)
      requires Valid()
      modifies devices, devices.db
      ensures Valid() && id != ZERO_ID && c.ids == [id]
      ensures State().store == old(State()).store[id := Device(id, host, kind, state, 0)]
      ensures State().peers == old(State()).peers && wire == old(wire)
      ensures Did(old(wire), Protocol.CreateDevice(old(State()), kind, state, c), c, [])
    {
      id := NewRandomId();
      c := Choice([], [], [id]);
      devices.CreateDevice(Device(id, host, kind, state, 0));
    }

    method PatchState(device: Id, state: Byte) returns (ghost c: Choice, ghost oks: seq<bool>)
      requires Valid()
      modifies this`wire, devices, devices.db, cache
      ensures Valid() && Did(old(wire), Protocol.PatchState(old(State()), device, state, c), c, oks)
      ensures State().store == Changed(old(State()), device, state) && State().peers == old(State()).peers
    {
      var message: Message;
      var isOwner := CheckIfOwner(device);
      if !isOwner.Ok? || !isOwner.value {
        message := CreatePatchMessage(device, state);
      } else {
        var sync := Update(device, state);
        if !sync.Ok? {
          c, oks := Choice([], [], []), [];
          return;
        }
        message := sync.value;
      }
      ghost var saved, picked := State(), [];
      picked, oks := Propagate(ZERO_ID, MIN_INT, message);
      c := Choice(picked, [], [message.id]);
      PropagatedMeans(old(State()), Protocol.PatchState(old(State()), device, state, c), c, ZERO_ID, MIN_INT, saved);
      RequestStores(old(State()), device, state, c);
      SentLeaves(Protocol.PatchState(old(State()), device, state, c), oks);
    }

    method SaveState(m: Message) returns (ghost c: Choice, ghost oks: seq<bool>)
      requires Valid()
      modifies this`wire, devices, devices.db, cache
      ensures Valid() && Did(old(wire), Protocol.SaveState(old(State()), m, c), c, oks)
      ensures State().store == PatchGiven(old(State()), m) && State().peers == old(State()).peers
    {
      c, oks := Choice([], [], []), [];
      var messageToPropagate := m;
      var patch := ReadPatch(m);
      if !patch.Ok? {
        return;
      }
      var (device, state) := patch.value;
      var isOwner := CheckIfOwner(device);
      if isOwner.Ok? && isOwner.value {
        var sync := Update(device, state);
        if !sync.Ok? {
          return;
        }
        messageToPropagate := sync.value;
        c := c.(ids := [messageToPropagate.id]);
      }
      ghost var saved, picked := State(), [];
      picked, oks := Propagate(ZERO_ID, MIN_INT, messageToPropagate);
      c := c.(picked := picked);
      PropagatedMeans(old(State()), Protocol.SaveState(old(State()), m, c), c, ZERO_ID, MIN_INT, saved);
      PatchStores(old(State()), m, c);
      SentLeaves(Protocol.SaveState(old(State()), m, c), oks);
    }

    // The sync that tells what this client knows of a device.
    method Tell(device: Id) returns (r: Result<Message>)
      requires Valid() && device != ZERO_ID
      ensures r.Ok? <==> CanRead(State(), device)
      ensures r.Ok? ==> r.value == SyncMessage(r.value.id, host, State().store[device])
    {
      var current := devices.GetDevice(device);
      if !current.Ok? {
        return Error;
      }
      var message := CreateSyncMessage(current.value);
      r := Ok(message);
    }

    // A sync payload that does not panic the reader and names a device.
    static predicate Sound(m: Message) {
      !DecodeSync(m.data).Panic? && (DecodeSync(m.data).Ok? ==> DecodeSync(m.data).value.id != ZERO_ID)
    }

    method SaveDevice(m: Message) returns (ghost c: Choice, ghost oks: seq<bool>)
      requires Valid() && Sound(m)
      modifies this`wire, devices, devices.db, cache
      ensures Valid() && Did(old(wire), Protocol.SaveDevice(old(State()), m, c), c, oks)
      ensures State().store == SyncGiven(old(State()), m) && State().peers == old(State()).peers
    {
      var candidate := ReadSync(m);
      if !candidate.Ok? {
        c, oks := Choice([], [], []), [];
        return;
      }
      c, oks := Consider(m, candidate.value);
      SyncStores(old(State()), m, c);
      SentLeaves(Protocol.SaveDevice(old(State()), m, c), oks);
    }

    method Consider(m: Message, candidate: Device) returns (ghost c: Choice, ghost oks: seq<bool>)
      requires Valid() && candidate.id != ZERO_ID
      modifies this`wire, devices, devices.db, cache
      ensures Valid() && Did(old(wire), Protocol.Consider(old(State()), m, candidate, c), c, oks)
    {
      c, oks := Choice([], [], []), [];
      var isOwner := CheckIfOwner(candidate.id);
      if isOwner.Ok? && isOwner.value {
        return;
      }
      var messageToPropagate := m;
      var isNewer := CheckIfNewer(candidate.id, candidate.version);
      if isNewer.Ok? && !isNewer.value {
        var ours := Tell(candidate.id);
        if !ours.Ok? {
          return;
        }
        messageToPropagate := ours.value;
        c := c.(ids := [messageToPropagate.id]);
      } else {
        devices.CreateDevice(candidate);
      }
      ghost var saved, picked := State(), [];
      picked, oks := Propagate(messageToPropagate.id, MIN_INT, messageToPropagate);
      c := c.(picked := picked);
      PropagatedMeans(old(State()), Protocol.Consider(old(State()), m, candidate, c), c,
                      messageToPropagate.id, MIN_INT, saved);
    }

    method SavePeer(from: Address, m: Message)
      requires Valid()
      modifies peers
      ensures Valid() && Did(old(wire), Protocol.SavePeer(old(State()), from, m), Choice([], [], []), [])
      ensures State() == old(State()).(peers := Introduced(old(State()).peers, from, m))
    {
      peers.AddPeer(Peer(m.sender, from));
      var peer := ReadPeer(m);
      if peer.Ok? {
        peers.AddPeer(peer.value);
      }
    }

    method DeletePeer(m: Message)
      requires Valid()
      modifies peers
      ensures Valid() && Did(old(wire), Protocol.DeletePeer(old(State()), m), Choice([], [], []), [])
      ensures State() == old(State()).(peers := old(State()).peers - {m.sender})
    {
      peers.RemovePeer(m.sender);
    }

    method SendFarewell() returns (ghost c: Choice, ghost oks: seq<bool>)
      requires Valid()
      modifies this`wire, cache
      ensures Valid() && Did(old(wire), Protocol.SendFarewell(old(State()), c), c, oks)
      ensures State().store == old(State()).store && State().peers == old(State()).peers
    {
      var id := NewRandomId();
      var message := Message(id, host, FAREWELL, []);
      ghost var picked;
      picked, oks := Propagate(id, MAX_INT, message);
      c := Choice(picked, [], [id]);
    }

    // Sends one sync per device that can be read to this peer.
    method SendDevices(peer: Peer) returns (ghost order: seq<Id>, ghost ids: seq<Id>, ghost oks: seq<bool>)
      requires Valid()
      modifies this`wire, cache
      ensures Valid() && ListsStore(old(State()), order) && |ids| == |Batch(old(State()), order, ids)|
      ensures Tried(old(State()), old(wire), ToOne(peer, Batch(old(State()), order, ids)), oks)
    {
      var listed := devices.GetDeviceIds();
      ghost var start := State();
      order, ids, oks := listed, [], [];
      for i := 0 to |listed|
        invariant Valid() && devices.devices == start.store
        invariant |Batch(start, listed[..i], ids)| == |ids|
        invariant Tried(start, old(wire), ToOne(peer, Batch(start, listed[..i], ids)), oks)
      {
        BatchStep(start, listed, i, ids);
        var device := devices.GetDevice(listed[i]);
        if device.Ok? {
          var sync := CreateSyncMessage(device.value);
          ghost var batch := Batch(start, listed[..i], ids);
          BatchGrows(start, listed, i, ids, sync);
          ToOneStep(peer, batch, sync);
          var ok := SendMessage(peer, sync, start, old(wire), ToOne(peer, batch), oks);
          oks, ids := oks + [ok], ids + [sync.id];
        }
      }
      assert listed[..|listed|] == listed;
    }

    method SaluteOnHail(from: Address, m: Message) returns (ghost c: Choice, ghost oks: seq<bool>)
      requires Valid()
      modifies this`wire, peers, cache
      ensures Valid() && Did(old(wire), Protocol.SaluteOnHail(old(State()), from, m, c), c, oks)
      ensures State().store == old(State()).store && State().peers == WithSender(old(State()).peers, from, m)
    {
      var peer := Peer(m.sender, from);
      peers.AddPeer(peer);
      ghost var start, order, ids := State(), [], [];
      order, ids, oks := SendDevices(peer);
      BatchSameStore(old(State()), start, order, ids);
      c := Choice([], order, ids);
      SentLeaves(Protocol.SaluteOnHail(old(State()), from, m, c), oks);
    }

    // Collects one sync per device that can be read.
    method CreateSyncMessages(order: seq<Id>) returns (messages: seq<Message>, ghost ids: seq<Id>)
      requires Valid() && ZERO_ID !in order
      ensures |messages| == |ids| && messages == Batch(State(), order, ids)
    {
      messages, ids := [], [];
      for i := 0 to |order|
        invariant |messages| == |ids| && messages == Batch(State(), order[..i], ids)
      {
        BatchStep(State(), order, i, ids);
        var device := devices.GetDevice(order[i]);
        if device.Ok? {
          var sync := CreateSyncMessage(device.value);
          BatchGrows(State(), order, i, ids, sync);
          messages, ids := messages + [sync], ids + [sync.id];
        }
      }
      assert order[..|order|] == order;
    }

    // Sends the whole batch to one peer.
    method SendAll(peer: Peer, batch: seq<Message>,
                   ghost start: Node, ghost sent: seq<Datagram>, ghost letters: seq<Letter>, ghost oks: seq<bool>)
      returns (ghost more: seq<bool>)
      requires Valid() && Tried(start, sent, letters, oks)
      modifies this`wire, cache
      ensures Valid() && Tried(start, sent, letters + ToOne(peer, batch), more)
    {
      more := oks;
      assert letters + ToOne(peer, []) == letters;
      for j := 0 to |batch|
        invariant Valid() && Tried(start, sent, letters + ToOne(peer, batch[..j]), more)
      {
        ToOneStep(peer, batch[..j], batch[j]);
        assert batch[..j + 1] == batch[..j] + [batch[j]];
        ghost var soFar := letters + ToOne(peer, batch[..j]);
        assert soFar + [Letter(peer, batch[j])] == letters + ToOne(peer, batch[..j + 1]);
        var ok := SendMessage(peer, batch[j], start, sent, soFar, more);
        more := more + [ok];
      }
      assert batch[..|batch|] == batch;
    }

    method SendBurst(picked: seq<Peer>, batch: seq<Message>) returns (ghost oks: seq<bool>)
      requires Valid()
      modifies this`wire, cache
      ensures Valid() && Tried(old(State()), old(wire), Burst(picked, batch), oks)
    {
      oks := [];
      for i := 0 to |picked|
        invariant Valid() && Tried(old(State()), old(wire), Burst(picked[..i], batch), oks)
      {
        BurstStep(picked, batch, i);
        oks := SendAll(picked[i], batch, old(State()), old(wire), Burst(picked[..i], batch), oks);
      }
      assert picked[..|picked|] == picked;
    }

    // What a hail is followed by: the devices in some order, and a sync for each that can be read.
    method CollectSyncs() returns (messages: seq<Message>, ghost order: seq<Id>, ghost ids: seq<Id>)
      requires Valid()
      ensures |messages| == |ids| && messages == Batch(State(), order, ids) && ListsStore(State(), order)
    {
      var listed := devices.GetDeviceIds();
      order := listed;
      messages, ids := CreateSyncMessages(listed);
    }

    method SendHail() returns (ghost c: Choice, ghost oks: seq<bool>)
      requires Valid()
      modifies this`wire, cache
      ensures Valid() && Did(old(wire), Protocol.SendHail(old(State()), c), c, oks)
      ensures State().store == old(State()).store && State().peers == old(State()).peers
    {
      var id := NewRandomId();
      var hail := Message(id, host, HAIL, []);
      var picked := GetRandomPeers(id, MIN_INT);
      var messages;
      ghost var order, ids;
      messages, order, ids := CollectSyncs();
      c := Choice(picked, order, [id] + ids);
      HailMeans(old(State()), picked, order, id, ids, messages);
      oks := SendBurst(picked, [hail] + messages);
    }

    // ---- Receiving ----

    // Datagrams of clients running this program meet the precondition: Runs.EveryDatagramReads.
    method ReceiveMessage(from: Address, data: Bytes) returns (ghost c: Choice, ghost oks: seq<bool>)
      requires Valid()
      requires DecodeEnvelope(data).Ok? && DecodeEnvelope(data).value.kind == SYNC ==> Sound(DecodeEnvelope(data).value)
      modifies this`wire, devices, devices.db, peers, cache
      ensures Valid() && Did(old(wire), Protocol.Receive(old(State()), from, data, c), c, oks)
    {
      c, oks := Choice([], [], []), [];
      var reader := new Buffer(data);
      var idBytes := reader.Next(16);
      var messageId := NewBytesId(idBytes);
      if !messageId.Ok? {
        return;
      }
      assert idBytes == data[..16] && reader.unread == data[16..];
      var messageType := reader.ReadByte();
      if !messageType.Ok? {
        return;
      }
      var known := cache.ContainsMessage(messageId.value, now);
      if known {
        return;
      }
      assert reader.unread == data[17..];
      var senderBytes := reader.Next(16);
      var senderId := NewBytesId(senderBytes);
      if !senderId.Ok? {
        return;
      }
      assert data[17..] == senderBytes + reader.unread;
      assert senderBytes == data[17..33] && reader.unread == data[33..];
      var rest := reader.Rest();
      var message := Message(messageId.value, senderId.value, messageType.value, rest);
      cache.Hold(message.id, message.sender, now);
      c, oks := DispatchMessage(from, message);
    }

    method DispatchMessage(from: Address, m: Message) returns (ghost c: Choice, ghost oks: seq<bool>)
      requires Valid() && (m.kind == SYNC ==> Sound(m))
      modifies this`wire, devices, devices.db, peers, cache
      ensures Valid() && Did(old(wire), Protocol.Dispatch(old(State()), from, m, c), c, oks)
      ensures State().store == StoreGiven(old(State()), m) && State().peers == PeersGiven(old(State()).peers, from, m)
    {
      c, oks := Choice([], [], []), [];
      if m.kind == HAIL {
        c, oks := SaluteOnHail(from, m);
      } else if m.kind == PATCH {
        c, oks := SaveState(m);
      } else if m.kind == SYNC {
        c, oks := SaveDevice(m);
      } else if m.kind == PEER {
        SavePeer(from, m);
      } else if m.kind == FAREWELL {
        DeletePeer(m);
      }
    }
  }
}
